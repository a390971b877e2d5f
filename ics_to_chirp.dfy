/** The rest of bin/i2c.py: the row pipeline that turns the lines of an ICS 217A
    export into CHIRP rows, the line skipping of the reader, the version-token
    scan, the option rules and the list of lines the writer emits. */
module IcsToChirp {
  import opened Outcomes
  import opened Text
  import opened Decimal
  import opened Sequences
  import opened Tones

  // ---------------------------------------------------------------------------
  // Constants

  const ControlChannelStart: string := ","
  const ControlChannelEnd: string := ",147.120000,+,0.600000,Tone,100.0,100.0,023,NN,FM,5.00,,,,,,,,"

  /** NUMBER_ROWS_TO_IGNORE_IN_SRC */
  const DefaultSkipRows: int := 0

  /** Rows with fewer comma-separated fields than this are dropped. */
  const MinColumns: nat := 10

  /** CHIRP_CSV_HEADER_FIELDS: the header line of a CHIRP file. */
  const ChirpHeader: string :=
    "Location,Name,Frequency,Duplex,Offset,Tone,rToneFreq,cToneFreq,DtcsCode,"
    + "DtcsPolarity,Mode,TStep,Skip,Comment,URCALL,RPT1CALL,RPT2CALL"

  /** The number of fields of a CHIRP row. */
  const ChirpColumns: nat := 17

  const DefaultModulation: string := "FM"
  const DefaultTuneStep: string := "5.00"
  const DefaultSkip: string := ""

  // ---------------------------------------------------------------------------
  // Fields of a row

  /** `cleanse_comments`: the stripped comment in double quotes. The comma removal
      of `bin/i2c.py` has no effect, since the string it builds is dropped. */
  function CleanseComments(raw: string): (r: string)
    ensures |r| == |Strip(raw)| + 2 && r[0] == '"' && r[|r| - 1] == '"'
    ensures r[1..|r| - 1] == Strip(raw)
  {
    "\"" + Strip(raw) + "\""
  }

  /** Commas in a comment survive cleansing. */
  lemma CommasSurvive(raw: string)
    ensures multiset(CleanseComments(raw))[','] == multiset(Strip(raw))[',']
  {
    var r := CleanseComments(raw);
    assert r == "\"" + Strip(raw) + "\"";
  }

  /** `is_null_row`: the channel name is empty or whitespace; the frequency plays
      no part. */
  function IsNullRow(name: string, frequency: string): bool {
    |Strip(name)| == 0
  }

  /** A row is null exactly when all of its name is whitespace. */
  lemma NullRowIff(name: string, frequency: string)
    ensures IsNullRow(name, frequency) <==> forall k :: 0 <= k < |name| ==> IsSpace(name[k])
  {
    var _ := StripSpec(name);
  }

  /** `format_frequency`: `f"{x:3.6f}"`; the width of 3 never pads, as six places
      and a point already take more. */
  function FormatFrequency(d: Decimal): string {
    Render(d, 6)
  }

  /** `parse_frequency`: the frequency with six decimals. A frequency that does not
      convert ends in a `NameError`, because the warning on that path names a
      variable of the caller. */
  function ParseFrequency(raw: string): (r: Result<string>)
    ensures r.Err? ==> r.failure == NameError
  {
    match ParseDecimal(Strip(raw))
    case Ok(d) => Ok(FormatFrequency(d))
    case Err(_) => Err(NameError)
  }

  /** `strip` is idempotent. */
  lemma StripStrip(s: string)
    ensures Strip(Strip(s)) == Strip(s)
  {
    var _ := StripSpec(s);
    StripUnpadded(Strip(s));
  }

  /** The frequency converts exactly when it is spelled as a number, and reading
      the six-decimal text back gives the frequency rounded to six places. */
  lemma ParseFrequencyMeaning(raw: string)
    ensures ParseFrequency(raw).Ok? <==> IsDecimalSpelling(Strip(raw))
    ensures ParseFrequency(raw).Ok? ==> ParseDecimal(raw).Ok?
    ensures ParseFrequency(raw).Ok? && ParseDecimal(raw).Ok? ==>
      var d := ParseDecimal(raw).value;
      ParseDecimal(ParseFrequency(raw).value) == Ok(Decimal(d.neg, RoundedUnits(d, 6), 6))
  {
    StripStrip(raw);
    assert ParseDecimal(Strip(raw)) == ParseDecimal(raw);
    ParseDecimalAccepts(raw);
    if ParseFrequency(raw).Ok? {
      RenderParses(ParseDecimal(raw).value, 6);
    }
  }

  /** The duplex sign and the offset columns of a row. An empty offset is simplex
      with a zero offset; a present one must convert, its sign is '+' when it is
      above zero and '-' otherwise, and the offset column is its magnitude. */
  function OffsetColumns(raw: string): (r: Result<(string, string)>)
    ensures r.Err? ==> r.failure == ValueError
  {
    if |Strip(raw)| > 0 then
      match ParseDecimal(raw)
      case Ok(t) => Ok((if IsPositive(t) then "+" else "-", FormatFrequency(Abs(t))))
      case Err(_) => Err(ValueError)
    else Ok(("", FormatFrequency(Decimal(false, 0, 1))))
  }

  /** The numbers `UnitsToString` writes without a sign start with a digit. */
  lemma UnsignedStartsWithDigit(u: nat, p: nat)
    requires p >= 1
    ensures IsDigit(UnitsToString(false, u, p)[0])
  {
    var ip, fp := UnitsToStringParts(false, u, p);
    assert UnitsToString(false, u, p)[0] == ip[0];
  }

  /** The duplex sign is '' exactly when the offset column is blank, '+' exactly
      when it holds a number above zero, and '-' for zero and below; the offset
      column never carries a sign. */
  lemma OffsetSignRule(raw: string)
    ensures var r := OffsetColumns(raw);
      && (Strip(raw) == "" ==> r.Ok? && r.value.0 == "" && r.value.1 == FormatFrequency(Decimal(false, 0, 1)))
      && (Strip(raw) != "" ==> (r.Ok? <==> ParseDecimal(raw).Ok?))
      && (r.Ok? && Strip(raw) != "" ==>
            (r.value.0 == "+" <==> IsPositive(ParseDecimal(raw).value))
            && (r.value.0 == "-" <==> !IsPositive(ParseDecimal(raw).value))
            && r.value.1 == FormatFrequency(Abs(ParseDecimal(raw).value)))
      && (r.Ok? ==> IsDigit(r.value.1[0]))
  {
    var r := OffsetColumns(raw);
    if r.Ok? {
      var d := if Strip(raw) == "" then Decimal(false, 0, 1) else Abs(ParseDecimal(raw).value);
      assert r.value.1 == UnitsToString(false, RoundedUnits(d, 6), 6);
      UnsignedStartsWithDigit(RoundedUnits(d, 6), 6);
    }
  }

  // ---------------------------------------------------------------------------
  // ics_parse

  /** A row of a CHIRP file, one field per column of the header. */
  datatype ChirpRow = ChirpRow(
    location: string, name: string, frequency: string, duplex: string, offset: string,
    tone: string, rToneFreq: string, cToneFreq: string, dtcsCode: string,
    dtcsPolarity: string, mode: string, tStep: string, skip: string, comment: string,
    urCall: string, rpt1Call: string, rpt2Call: string)

  /** The fields of a row in the column order of the header. */
  function Fields(r: ChirpRow): (f: seq<string>)
    ensures |f| == ChirpColumns
  {
    [r.location, r.name, r.frequency, r.duplex, r.offset, r.tone, r.rToneFreq,
     r.cToneFreq, r.dtcsCode, r.dtcsPolarity, r.mode, r.tStep, r.skip, r.comment,
     r.urCall, r.rpt1Call, r.rpt2Call]
  }

  /** What one input line becomes: nothing, a CHIRP row, or the exception the
      code raises on it. */
  datatype Cooked = Skipped | Row(row: ChirpRow) | Raised(failure: Failure)

  /** One pass of the loop of `ics_parse`. */
  function CookLine(line: string, defaultTone: string): (c: Cooked)
    ensures var f := Split(line, ',');
      c.Skipped? <==> |f| < MinColumns || IsNullRow(f[1], f[2])
  {
    var f := Split(line, ',');
    if |f| < MinColumns then Skipped
    else if IsNullRow(f[1], f[2]) then Skipped
    else CookFields(f, defaultTone)
  }

  /** The conversion of the fields of a line that is long enough and has a name:
      the row, unless the frequency or the offset does not convert. */
  function CookFields(f: seq<string>, defaultTone: string): (c: Cooked)
    requires |f| >= MinColumns
    ensures !c.Skipped?
    ensures c.Raised? <==> ParseFrequency(f[2]).Err? || OffsetColumns(f[4]).Err?
  {
    match ParseFrequency(f[2])
    case Err(e) => Raised(e)
    case Ok(frequency) =>
      match OffsetColumns(f[4])
      case Err(e) => Raised(e)
      case Ok((sign, offset)) =>
        var tones := ParseTones(f[6], f[7], defaultTone);
        Row(ChirpRow(Strip(f[0]), f[1], frequency, sign, offset, tones.mode, tones.txCtcss,
                     tones.rxCtcss, tones.txDcs, DefaultDcsPolarity, DefaultModulation,
                     DefaultTuneStep, DefaultSkip, CleanseComments(f[8]), "", "", ""))
  }

  /** Every CHIRP row has the fixed layout: location stripped, name as written,
      the duplex columns from the offset rule, the tone columns from
      `parse_tones`, the DCS code 023 with polarity NN, mode FM, step 5.00, no
      skip, the cleansed comment and three empty call-sign fields. */
  lemma CookedRowLayout(f: seq<string>, defaultTone: string)
    requires |f| >= MinColumns && CookFields(f, defaultTone).Row?
    ensures var r := CookFields(f, defaultTone).row;
      var tones := ParseTones(f[6], f[7], defaultTone);
      && r.location == Strip(f[0]) && r.name == f[1]
      && ParseFrequency(f[2]) == Ok(r.frequency)
      && OffsetColumns(f[4]) == Ok((r.duplex, r.offset))
      && r.tone == tones.mode && r.rToneFreq == tones.txCtcss && r.cToneFreq == tones.rxCtcss
      && r.dtcsCode == DefaultDcsCode && r.dtcsPolarity == DefaultDcsPolarity
      && r.mode == DefaultModulation && r.tStep == DefaultTuneStep && r.skip == DefaultSkip
      && r.comment == CleanseComments(f[8])
      && r.urCall == "" && r.rpt1Call == "" && r.rpt2Call == ""
  {
  }

  /** The rows of a run of converted lines, or the first exception among them. */
  function Collect(cs: seq<Cooked>): Result<seq<ChirpRow>> {
    if cs == [] then Ok([])
    else
      match Collect(cs[..|cs| - 1])
      case Err(e) => Err(e)
      case Ok(rows) =>
        match cs[|cs| - 1]
        case Skipped => Ok(rows)
        case Row(r) => Ok(rows + [r])
        case Raised(e) => Err(e)
  }

  /** Each line converted on its own. */
  function CookEach(lines: seq<string>, defaultTone: string): (cs: seq<Cooked>)
    ensures |cs| == |lines|
  {
    seq(|lines|, i requires 0 <= i < |lines| => CookLine(lines[i], defaultTone))
  }

  /** `ics_parse` as a function of its input. */
  function CookAll(lines: seq<string>, defaultTone: string): Result<seq<ChirpRow>> {
    Collect(CookEach(lines, defaultTone))
  }

  /** `ics_parse`: the CHIRP rows of the lines in input order, short and nameless
      lines dropped, or the exception of the first line that raises. */
  method IcsParse(rawIcsData: seq<string>, defaultTone: string) returns (r: Result<seq<ChirpRow>>)
    ensures r == CookAll(rawIcsData, defaultTone)
  {
    ghost var cs := CookEach(rawIcsData, defaultTone);
    var rows: seq<ChirpRow> := [];
    var i := 0;
    while i < |rawIcsData|
      invariant 0 <= i <= |rawIcsData|
      invariant Collect(cs[..i]) == Ok(rows)
    {
      var c := CookLine(rawIcsData[i], defaultTone);
      assert cs[i] == c;
      CollectNext(cs, i, rows);
      match c {
        case Skipped =>
        case Row(row) =>
          rows := rows + [row];
        case Raised(e) =>
          CollectAbort(cs, i + 1, e);
          return Err(e);
      }
      i := i + 1;
    }
    assert cs[..i] == cs;
    return Ok(rows);
  }

  /** One more converted line: its row is added, a skipped line adds nothing and
      an exception ends the run. */
  lemma CollectNext(cs: seq<Cooked>, i: nat, rows: seq<ChirpRow>)
    requires i < |cs| && Collect(cs[..i]) == Ok(rows)
    ensures cs[i].Skipped? ==> Collect(cs[..i + 1]) == Ok(rows)
    ensures cs[i].Row? ==> Collect(cs[..i + 1]) == Ok(rows + [cs[i].row])
    ensures cs[i].Raised? ==> Collect(cs[..i + 1]) == Err(cs[i].failure)
  {
    assert cs[..i + 1][..i] == cs[..i];
  }

  /** An exception on some line ends the whole run with that exception. */
  lemma {:induction false} CollectAbort(cs: seq<Cooked>, n: nat, e: Failure)
    requires n <= |cs| && Collect(cs[..n]) == Err(e)
    ensures Collect(cs) == Err(e)
    decreases |cs| - n
  {
    if n < |cs| {
      assert cs[..n + 1][..n] == cs[..n];
      CollectAbort(cs, n + 1, e);
    } else {
      assert cs[..n] == cs;
    }
  }

  /** The rows of two runs are the rows of the first followed by the rows of the
      second, unless one of them raises. */
  lemma {:induction false} CollectAppend(a: seq<Cooked>, b: seq<Cooked>)
    ensures Collect(a + b) == match Collect(a)
      case Err(e) => Err(e)
      case Ok(ra) => (match Collect(b)
        case Err(e) => Err(e)
        case Ok(rb) => Ok(ra + rb))
    decreases |b|
  {
    if b == [] {
      assert a + b == a;
      if Collect(a).Ok? {
        assert Collect(a).value + [] == Collect(a).value;
      }
    } else {
      var b', c := b[..|b| - 1], b[|b| - 1];
      assert (a + b)[..|a + b| - 1] == a + b';
      assert (a + b)[|a + b| - 1] == c;
      CollectAppend(a, b');
      match Collect(a)
      case Err(e) =>
      case Ok(ra) =>
        match Collect(b')
        case Err(e) =>
        case Ok(rb) =>
          match c
          case Skipped =>
          case Row(r) =>
            assert ra + (rb + [r]) == (ra + rb) + [r];
          case Raised(e) =>
    }
  }

  /** Converting two runs of lines one after the other. */
  lemma CookEachAppend(a: seq<string>, b: seq<string>, defaultTone: string)
    ensures CookEach(a + b, defaultTone) == CookEach(a, defaultTone) + CookEach(b, defaultTone)
  {
    var l, ca, cb := CookEach(a + b, defaultTone), CookEach(a, defaultTone), CookEach(b, defaultTone);
    forall i | 0 <= i < |a| ensures l[i] == ca[i] {
      assert (a + b)[i] == a[i];
    }
    forall i | 0 <= i < |b| ensures l[|a| + i] == cb[i] {
      assert (a + b)[|a| + i] == b[i];
    }
    Pointwise(l, ca, cb);
  }

  /** `ics_parse` is compositional: the rows of two runs of lines are the rows of
      the first followed by the rows of the second, so rows keep the input order
      and each line is converted independently of the others. */
  lemma CookAllAppend(a: seq<string>, b: seq<string>, defaultTone: string)
    ensures CookAll(a + b, defaultTone) == match CookAll(a, defaultTone)
      case Err(e) => Err(e)
      case Ok(ra) => (match CookAll(b, defaultTone)
        case Err(e) => Err(e)
        case Ok(rb) => Ok(ra + rb))
  {
    CookEachAppend(a, b, defaultTone);
    CollectAppend(CookEach(a, defaultTone), CookEach(b, defaultTone));
  }

  /** What a single converted line contributes: nothing, its row, or its
      exception. */
  lemma CollectOne(c: Cooked)
    ensures Collect([c]) == match c
      case Skipped => Ok([])
      case Row(r) => Ok([r])
      case Raised(e) => Err(e)
  {
    assert [c][..0] == [];
    assert Collect([c][..0]) == Ok([]);
    if c.Row? {
      assert [] + [c.row] == [c.row];
    }
  }

  /** Each line contributes at most one row. */
  lemma {:induction false} CollectRows(cs: seq<Cooked>)
    requires Collect(cs).Ok?
    ensures |Collect(cs).value| <= |cs|
    decreases |cs|
  {
    if cs != [] {
      CollectRows(cs[..|cs| - 1]);
    }
  }

  /** `ics_parse` returns no more rows than lines. */
  lemma CookAllRows(lines: seq<string>, defaultTone: string)
    requires CookAll(lines, defaultTone).Ok?
    ensures |CookAll(lines, defaultTone).value| <= |lines|
  {
    CollectRows(CookEach(lines, defaultTone));
  }

  // ---------------------------------------------------------------------------
  // read_ICS_217A

  /** `read_ICS_217A` over the lines of the file: those at or after the number of
      rows to skip. */
  method ReadIcs217a(lines: seq<string>, skipRows: int) returns (rawInputLines: seq<string>)
    ensures skipRows <= 0 ==> rawInputLines == lines
    ensures 0 < skipRows <= |lines| ==> rawInputLines == lines[skipRows..]
    ensures skipRows > |lines| ==> rawInputLines == []
  {
    rawInputLines := [];
    var currentLineNum := 0;
    while currentLineNum < |lines|
      invariant 0 <= currentLineNum <= |lines|
      invariant skipRows <= 0 ==> rawInputLines == lines[..currentLineNum]
      invariant 0 < skipRows <= currentLineNum ==> rawInputLines == lines[skipRows..currentLineNum]
      invariant currentLineNum < skipRows ==> rawInputLines == []
    {
      if currentLineNum >= skipRows {
        rawInputLines := rawInputLines + [lines[currentLineNum]];
      }
      currentLineNum := currentLineNum + 1;
    }
    assert lines[..|lines|] == lines;
  }

  // ---------------------------------------------------------------------------
  // load_version_channel_name

  /** `^\s*$` */
  predicate BlankLine(line: string) {
    forall k :: 0 <= k < |line| ==> IsSpace(line[k])
  }

  /** `^\s*#.*$`: whitespace, a '#', then no line break except one at the very end. */
  predicate CommentLine(line: string) {
    var t := TrimLeft(line);
    |t| > 0 && t[0] == '#' && forall k :: 1 <= k < |t| - 1 ==> t[k] != '\n'
  }

  /** `\w` on ASCII text: a letter, a digit or '_'. */
  predicate IsWordChar(c: char) {
    ('a' <= c <= 'z') || ('A' <= c <= 'Z') || IsDigit(c) || c == '_'
  }

  /** `^\s*\w{1,6}\s*$`: one to six word characters between whitespace. */
  predicate TokenLine(line: string) {
    var t := Strip(line);
    1 <= |t| <= 6 && forall k :: 0 <= k < |t| ==> IsWordChar(t[k])
  }

  datatype VersionScan = NoToken | Found(token: string) | Exit(code: int)

  /** The decision of the loop of `load_version_channel_name`: blank and comment
      lines are passed over, the first other line is the token if it has the token
      shape, and otherwise the programme exits with status 11. */
  function ScanVersion(lines: seq<string>): (r: VersionScan)
    ensures r.Found? ==> 1 <= |r.token| <= 6
    ensures r.Exit? ==> r.code == 11
  {
    if lines == [] then NoToken
    else if BlankLine(lines[0]) || CommentLine(lines[0]) then ScanVersion(lines[1..])
    else if TokenLine(lines[0]) then Found(Strip(lines[0]))
    else Exit(11)
  }

  /** The scan finds the token of line `i` exactly when every line before it is
      blank or a comment and line `i` is neither but has the token shape. */
  lemma {:induction false} ScanVersionFound(lines: seq<string>, i: nat)
    requires i < |lines|
    requires forall j :: 0 <= j < i ==> BlankLine(lines[j]) || CommentLine(lines[j])
    requires !BlankLine(lines[i]) && !CommentLine(lines[i])
    ensures ScanVersion(lines) == if TokenLine(lines[i]) then Found(Strip(lines[i])) else Exit(11)
    decreases i
  {
    if i > 0 {
      ScanVersionFound(lines[1..], i - 1);
    }
  }

  /** A file of only blank and comment lines names no token. */
  lemma {:induction false} ScanVersionNone(lines: seq<string>)
    requires forall j :: 0 <= j < |lines| ==> BlankLine(lines[j]) || CommentLine(lines[j])
    ensures ScanVersion(lines) == NoToken
    decreases |lines|
  {
    if lines != [] {
      ScanVersionNone(lines[1..]);
    }
  }

  /** The control channel row built from a version token. */
  function ControlChannelRow(token: string): string {
    ControlChannelStart + token + ControlChannelEnd
  }

  // ---------------------------------------------------------------------------
  // The globals and process_options

  /** The command-line options `getopt` hands on, short and long spellings alike. */
  datatype I2cOption = SkipFirstRows(arg: string) | ControlChannel | Verbose | Tone(arg: string) | ShowWarnings

  /** The `-f` rule: the setting is reset to 0 first, so a value outside 0..9, like
      one that is no integer, leaves 0. */
  function SkipRowsValue(arg: string): (r: int)
    ensures 0 <= r < 10
  {
    match ParseInt(arg)
    case Ok(v) => if 0 <= v < 10 then v else 0
    case Err(_) => 0
  }

  /** `-f n` takes `n` when it is a number of rows from 0 to 9, and 0 for any other
      number. */
  lemma SkipRowsOfNumber(n: int)
    ensures SkipRowsValue(IntToString(n)) == if 0 <= n < 10 then n else 0
  {
    ParseIntToString(n);
  }

  /** The `-t` rule: a CTCSS tone becomes the new default in its canonical
      spelling; anything else leaves the default as it was. */
  function ToneValue(arg: string, current: string): string {
    var r := ParseTone(Some(arg), current);
    if r.kind == Ctcss then r.value.value else current
  }

  /** After `-t` the default tone is the old one or a tone of the tables. */
  lemma ToneValueIsTableTone(arg: string, current: string)
    ensures var r := ToneValue(arg, current);
      r == current || exists tenths :: InTables(tenths) && r == ToneString(tenths)
  {
    var p := ParseTone(Some(arg), current);
    if p.kind == Ctcss {
      CtcssAccepts(arg, current);
      var tenths := TenthsOf(Strip(arg));
      assert InTables(tenths) && p.value.value == ToneString(tenths);
    }
  }

  /** The number of rows to skip after the options `opts`. */
  function SkipAfter(skip: int, opts: seq<I2cOption>): int {
    if opts == [] then skip
    else match opts[|opts| - 1]
      case SkipFirstRows(a) => SkipRowsValue(a)
      case _ => SkipAfter(skip, opts[..|opts| - 1])
  }

  /** The default CTCSS tone after the options `opts`. */
  function ToneAfter(tone: string, opts: seq<I2cOption>): string {
    if opts == [] then tone
    else
      var prev := ToneAfter(tone, opts[..|opts| - 1]);
      match opts[|opts| - 1]
      case Tone(a) => ToneValue(a, prev)
      case _ => prev
  }
  /** The settings the options change: the verbose and warning flags, the default
      CTCSS tone and the number of rows to skip. */
  datatype OptionState = OptionState(verbose: bool, showWarnings: bool, tone: string, skip: int)

  /** The settings after one more option (the control channel flag aside). */
  function Applied(st: OptionState, o: I2cOption): OptionState {
    match o
    case SkipFirstRows(a) => st.(skip := SkipRowsValue(a))
    case ControlChannel => st
    case Verbose => st.(verbose := true)
    case ShowWarnings => st.(showWarnings := true)
    case Tone(a) => st.(tone := ToneValue(a, st.tone))
  }

  /** The settings after the options `opts`, taken in order. */
  function AppliedAll(st: OptionState, opts: seq<I2cOption>): OptionState {
    if opts == [] then st else Applied(AppliedAll(st, opts[..|opts| - 1]), opts[|opts| - 1])
  }

  /** `-v` turns verbose output on for good. */
  lemma {:induction false} AppliedAllVerbose(st: OptionState, opts: seq<I2cOption>)
    ensures AppliedAll(st, opts).verbose <==> st.verbose || Verbose in opts
    decreases |opts|
  {
    if opts != [] {
      var init := opts[..|opts| - 1];
      AppliedAllVerbose(st, init);
      assert opts == init + [opts[|opts| - 1]];
    }
  }

  /** `-w` turns the warnings on for good. */
  lemma {:induction false} AppliedAllWarnings(st: OptionState, opts: seq<I2cOption>)
    ensures AppliedAll(st, opts).showWarnings <==> st.showWarnings || ShowWarnings in opts
    decreases |opts|
  {
    if opts != [] {
      var init := opts[..|opts| - 1];
      AppliedAllWarnings(st, init);
      assert opts == init + [opts[|opts| - 1]];
    }
  }

  /** The default tone is decided by the `-t` options alone, in order. */
  lemma {:induction false} AppliedAllTone(st: OptionState, opts: seq<I2cOption>)
    ensures AppliedAll(st, opts).tone == ToneAfter(st.tone, opts)
    decreases |opts|
  {
    if opts != [] {
      var init := opts[..|opts| - 1];
      AppliedAllTone(st, init);
      assert opts == init + [opts[|opts| - 1]];
    }
  }

  /** The number of rows to skip is decided by the last `-f` option. */
  lemma {:induction false} AppliedAllSkip(st: OptionState, opts: seq<I2cOption>)
    ensures AppliedAll(st, opts).skip == SkipAfter(st.skip, opts)
    decreases |opts|
  {
    if opts != [] {
      var init := opts[..|opts| - 1];
      AppliedAllSkip(st, init);
      assert opts == init + [opts[|opts| - 1]];
    }
  }

  /** The options up to and including the `i`-th one. */
  lemma AppliedAllNext(st: OptionState, opts: seq<I2cOption>, i: nat)
    requires i < |opts|
    ensures AppliedAll(st, opts[..i + 1]) == Applied(AppliedAll(st, opts[..i]), opts[i])
    ensures ControlChannel in opts[..i + 1] <==> ControlChannel in opts[..i] || opts[i] == ControlChannel
  {
    assert opts[..i + 1][..i] == opts[..i];
    assert opts[..i + 1] == opts[..i] + [opts[i]];
  }

  /** Options never move the number of rows to skip out of 0..9, and without a
      `-f` they leave it alone. */
  lemma {:induction false} SkipAfterRange(skip: int, opts: seq<I2cOption>)
    ensures 0 <= skip < 10 ==> 0 <= SkipAfter(skip, opts) < 10
    ensures (forall i :: 0 <= i < |opts| ==> !opts[i].SkipFirstRows?) ==> SkipAfter(skip, opts) == skip
    decreases |opts|
  {
    if opts != [] {
      SkipAfterRange(skip, opts[..|opts| - 1]);
      if forall i :: 0 <= i < |opts| ==> !opts[i].SkipFirstRows? {
        assert forall i :: 0 <= i < |opts| - 1 ==> opts[..|opts| - 1][i] == opts[i];
      }
    }
  }

  /** The globals of bin/i2c.py. */
  class Settings {
    var verbose: bool
    var showWarnings: bool
    var defaultCtcssTone: string
    var skipRows: int
    var controlChannel: Option<string>

    constructor()
      ensures !verbose && !showWarnings && defaultCtcssTone == DefaultCtcssTone
      ensures skipRows == DefaultSkipRows && controlChannel == None
    {
      verbose := false;
      showWarnings := false;
      defaultCtcssTone := DefaultCtcssTone;
      skipRows := DefaultSkipRows;
      controlChannel := None;
    }

    /** The settings the options change. */
    function Current(): OptionState
      reads this
    {
      OptionState(verbose, showWarnings, defaultCtcssTone, skipRows)
    }

    /** One option of `process_options`. */
    method ApplyOption(o: I2cOption) returns (turnOnControlChannel: bool)
      modifies this
      ensures turnOnControlChannel <==> o == ControlChannel
      ensures Current() == Applied(old(Current()), o)
      ensures controlChannel == old(controlChannel)
    {
      turnOnControlChannel := false;
      match o {
        case SkipFirstRows(a) =>
          skipRows := 0;
          var v := 0;
          match ParseInt(a) {
            case Ok(n) => v := n;
            case Err(_) => v := DefaultSkipRows;
          }
          if 0 <= v < 10 {
            skipRows := v;
          }
        case ControlChannel =>
          turnOnControlChannel := true;
        case Verbose =>
          verbose := true;
        case ShowWarnings =>
          showWarnings := true;
        case Tone(a) =>
          var r := ParseTone(Some(a), defaultCtcssTone);
          if r.kind == Ctcss {
            defaultCtcssTone := r.value.value;
          }
      }
    }

    /** `process_options`: the options applied in order; reports whether `-c` was
        among them. */
    method ProcessOptions(opts: seq<I2cOption>) returns (turnOnControlChannel: bool)
      modifies this
      ensures turnOnControlChannel <==> ControlChannel in opts
      ensures Current() == AppliedAll(old(Current()), opts)
      ensures controlChannel == old(controlChannel)
    {
      turnOnControlChannel := false;
      var i := 0;
      while i < |opts|
        invariant 0 <= i <= |opts|
        invariant turnOnControlChannel <==> ControlChannel in opts[..i]
        invariant Current() == AppliedAll(old(Current()), opts[..i])
        invariant controlChannel == old(controlChannel)
      {
        AppliedAllNext(old(Current()), opts, i);
        var control := ApplyOption(opts[i]);
        turnOnControlChannel := turnOnControlChannel || control;
        i := i + 1;
      }
      assert opts[..i] == opts;
    }

    /** `load_version_channel_name` over the lines of the token file: returns the
        exit status when the programme stops, and sets the control channel row
        when a token is found. */
    method LoadVersionChannelName(lines: seq<string>) returns (exitStatus: Option<int>)
      modifies this
      ensures ScanVersion(lines).Found? ==>
        exitStatus == None && controlChannel == Some(ControlChannelRow(ScanVersion(lines).token))
      ensures ScanVersion(lines).NoToken? ==> exitStatus == None && controlChannel == old(controlChannel)
      ensures ScanVersion(lines).Exit? ==> exitStatus == Some(11) && controlChannel == old(controlChannel)
      ensures verbose == old(verbose) && showWarnings == old(showWarnings)
      ensures defaultCtcssTone == old(defaultCtcssTone) && skipRows == old(skipRows)
    {
      exitStatus := None;
      var i := 0;
      while i < |lines|
        invariant 0 <= i <= |lines|
        invariant ScanVersion(lines) == ScanVersion(lines[i..])
        invariant controlChannel == old(controlChannel)
      {
        var line := lines[i];
        assert lines[i..][1..] == lines[i + 1..];
        if BlankLine(line) {
          i := i + 1;
          continue;
        } else if CommentLine(line) {
          i := i + 1;
          continue;
        } else if TokenLine(line) {
          controlChannel := Some(ControlChannelStart + Strip(line) + ControlChannelEnd);
          break;
        } else {
          exitStatus := Some(11);
          return;
        }
      }
    }
  }

  // ---------------------------------------------------------------------------
  // generate_output

  /** The lines `generate_output` writes (without their line breaks) and the
      exception that stops it, if any: the header, the control channel row
      numbered 0, every row joined with commas, and the control channel row again
      numbered one past the last row's location. The control row before a token
      was loaded is a `TypeError`, and a last location that is no integer, or no
      row at all, a `ValueError`. */
  function OutputLines(rows: seq<ChirpRow>, useControlChannel: bool, controlChannel: Option<string>)
    : (r: (seq<string>, Option<Failure>))
  {
    var header := [ChirpHeader];
    if !useControlChannel then (header + JoinedRows(rows), None)
    else if controlChannel.None? then (header, Some(TypeError))
    else
      var body := header + ["0" + controlChannel.value] + JoinedRows(rows);
      var lastRow := if rows == [] then "" else rows[|rows| - 1].location;
      match ParseInt(lastRow)
      case Ok(n) => (body + [IntToString(n + 1) + controlChannel.value], None)
      case Err(e) => (body, Some(e))
  }

  /** The rows as lines of comma-separated fields. */
  function JoinedRows(rows: seq<ChirpRow>): (r: seq<string>)
    ensures |r| == |rows| && forall i :: 0 <= i < |rows| ==> r[i] == Join(Fields(rows[i]), ',')
  {
    if rows == [] then [] else JoinedRows(rows[..|rows| - 1]) + [Join(Fields(rows[|rows| - 1]), ',')]
  }

  /** The loop of `generate_output`: one line per row, and the location of the
      last row. */
  method WriteRows(rows: seq<ChirpRow>) returns (written: seq<string>, lastRow: string)
    ensures written == JoinedRows(rows)
    ensures lastRow == if rows == [] then "" else rows[|rows| - 1].location
  {
    written := [];
    lastRow := "";
    var i := 0;
    while i < |rows|
      invariant 0 <= i <= |rows|
      invariant written == JoinedRows(rows[..i])
      invariant lastRow == if i == 0 then "" else rows[i - 1].location
    {
      assert rows[..i + 1][..i] == rows[..i];
      lastRow := rows[i].location;
      written := written + [Join(Fields(rows[i]), ',')];
      i := i + 1;
    }
    assert rows[..i] == rows;
  }

  /** `generate_output` with the file replaced by the list of lines written. */
  method GenerateOutput(rows: seq<ChirpRow>, useControlChannel: bool, controlChannel: Option<string>)
    returns (written: seq<string>, failure: Option<Failure>)
    ensures (written, failure) == OutputLines(rows, useControlChannel, controlChannel)
  {
    written := [ChirpHeader];
    failure := None;
    if useControlChannel {
      if controlChannel.None? {
        failure := Some(TypeError);
        return;
      }
      written := written + ["0" + controlChannel.value];
    }
    var lines, lastRow := WriteRows(rows);
    written := written + lines;
    if useControlChannel {
      match ParseInt(lastRow)
      case Ok(n) =>
        written := written + [IntToString(n + 1) + controlChannel.value];
      case Err(e) =>
        failure := Some(e);
    }
  }

  /** With the control channel on and rows numbered by integers, the output is the
      header, the control row numbered 0, one line per row, and the control row
      numbered one past the last location. */
  lemma OutputFraming(rows: seq<ChirpRow>, control: string, n: int)
    requires rows != [] && rows[|rows| - 1].location == IntToString(n)
    ensures var (lines, failure) := OutputLines(rows, true, Some(control));
      && failure == None && |lines| == |rows| + 3
      && lines[0] == ChirpHeader && lines[1] == "0" + control
      && (forall i :: 0 <= i < |rows| ==> lines[i + 2] == Join(Fields(rows[i]), ','))
      && lines[|lines| - 1] == IntToString(n + 1) + control
  {
    ParseIntToString(n);
    var body := JoinedRows(rows);
    var lines := [ChirpHeader] + ["0" + control] + body + [IntToString(n + 1) + control];
    assert OutputLines(rows, true, Some(control)) == (lines, None);
    Framed(ChirpHeader, "0" + control, body, IntToString(n + 1) + control);
  }
}
