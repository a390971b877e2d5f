/** bin/website_table_gen.py: the rows of a CHIRP file turned into the rows of the
    frequency table of the group's web site. */
module WebsiteTable {
  import opened Outcomes
  import opened Text
  import opened Decimal
  import opened Sequences

  // ---------------------------------------------------------------------------
  // Constants

  /** The names of the columns of the web site table. */
  const HeaderNames: seq<string> :=
    ["Channel", " Name", " Frequency", " Duplex", " Offset", " Squelch Type", " Tone Freq", " Comment"]

  /** HEADER_ROW: "Channel, Name, Frequency, Duplex, Offset, Squelch Type, Tone Freq, Comment". */
  const HeaderRow: string := Join(HeaderNames, ',')

  /** The number of columns of a web site row. */
  const WebColumns: nat := 8

  const NoToneMode: string := ""
  const BasicToneMode: string := "Tone"
  const ToneSquelchMode: string := "TSQL"
  const DcsToneMode: string := "DTCS"
  const WebDcsToneModeAcronym: string := "DCS"
  const UnknownMode: string := "N/A"

  /** DEFAULT_NUM_ROWS_TO_SKIP */
  const DefaultSkipRows: int := 0

  /** The CHIRP columns the reader keeps, in order: channel number, name, frequency,
      duplex, offset, tone mode, transmit tone, DCS code and comment. */
  const ChannelColumn: nat := 0
  const NameColumn: nat := 1
  const FrequencyColumn: nat := 2
  const DuplexColumn: nat := 3
  const OffsetColumn: nat := 4
  const ToneModeColumn: nat := 5
  const TxToneColumn: nat := 6
  const DtcsCodeColumn: nat := 8
  const CommentColumn: nat := 13

  /** The header line has one comma-separated field per column of a row. */
  lemma HeaderColumns()
    ensures Split(HeaderRow, ',') == HeaderNames && |HeaderNames| == WebColumns
  {
    forall i | 0 <= i < |HeaderNames| ensures ',' !in HeaderNames[i] {
    }
    SplitJoin(HeaderNames, ',');
  }

  // ---------------------------------------------------------------------------
  // read_raw_input

  /** The nine columns of a CHIRP row that the web site table is made from. */
  datatype WebInput = WebInput(
    channel: string, name: string, frequency: string, duplex: string, offset: string,
    toneMode: string, txTone: string, dcsCode: string, comment: string)

  /** `truncated_row`: the kept columns of a CHIRP row, or the `IndexError` of a row
      too short to have them all. */
  function Project(row: seq<string>): (r: Result<WebInput>)
    ensures r.Ok? <==> |row| > CommentColumn
    ensures r.Err? ==> r.failure == IndexError
  {
    if |row| <= CommentColumn then Err(IndexError)
    else Ok(WebInput(row[ChannelColumn], row[NameColumn], row[FrequencyColumn], row[DuplexColumn],
                     row[OffsetColumn], row[ToneModeColumn], row[TxToneColumn], row[DtcsCodeColumn],
                     row[CommentColumn]))
  }

  /** Each row projected on its own. */
  function ProjectEach(rows: seq<seq<string>>): (ps: seq<Result<WebInput>>)
    ensures |ps| == |rows|
  {
    seq(|rows|, i requires 0 <= i < |rows| => Project(rows[i]))
  }

  /** The projections of some rows, or the first `IndexError`. */
  function ProjectAll(rows: seq<seq<string>>): Result<seq<WebInput>> {
    AllOk(ProjectEach(rows))
  }

  function Min(a: int, b: int): int { if a < b then a else b }

  /** The number of rows the reader skips after the header. */
  function Skipped(skipRows: int): nat { if skipRows > 0 then skipRows else 0 }

  /** The index of the first row the reader keeps: the header and the skipped rows
      come before it. */
  function FirstKept(rows: seq<seq<string>>, skipRows: int): (k: nat)
    ensures k <= |rows|
  {
    Min(1 + Skipped(skipRows), |rows|)
  }

  /** `read_raw_input` over the rows the CSV reader yields. */
  method ReadRawInput(rows: seq<seq<string>>, skipRows: int) returns (r: Result<seq<WebInput>>)
    ensures r == ProjectAll(rows[FirstKept(rows, skipRows)..])
  {
    ghost var n := Skipped(skipRows);
    var rawRows: seq<WebInput> := [];
    var skippedHeader := false;
    var skippedRows := 0;
    var i := 0;
    while i < |rows|
      invariant 0 <= i <= |rows|
      invariant skippedHeader <==> i > 0
      invariant skippedRows == if i == 0 then 0 else Min(n, i - 1)
      invariant i <= 1 + n ==> rawRows == []
      invariant 1 + n <= i ==> AllOk(ProjectEach(rows[1 + n..i])) == Ok(rawRows)
    {
      var rawRow := rows[i];
      if !skippedHeader {
        if n == 0 {
          NoneProjected(rows, 1);
        }
        skippedHeader := true;
        i := i + 1;
        continue;
      }
      if skippedRows < skipRows {
        if i == n {
          NoneProjected(rows, i + 1);
        }
        skippedRows := skippedRows + 1;
        i := i + 1;
        continue;
      }
      ProjectNext(rows, 1 + n, i);
      match Project(rawRow) {
        case Err(e) =>
          KeptRowRaises(rows, 1 + n, i, e);
          return Err(e);
        case Ok(w) =>
          rawRows := rawRows + [w];
      }
      i := i + 1;
    }
    if i < 1 + n {
      assert FirstKept(rows, skipRows) == i;
      NoneProjected(rows, i);
    } else {
      assert FirstKept(rows, skipRows) == 1 + n;
      assert rows[1 + n..i] == rows[1 + n..];
    }
    return Ok(rawRows);
  }

  lemma NoneProjected(rows: seq<seq<string>>, k: nat)
    requires k <= |rows|
    ensures AllOk(ProjectEach(rows[k..k])) == Ok([])
  {
    assert rows[k..k] == [];
  }

  /** Projecting one more row. */
  lemma ProjectNext(rows: seq<seq<string>>, start: nat, i: nat)
    requires start <= i < |rows|
    ensures AllOk(ProjectEach(rows[start..i + 1])) == match AllOk(ProjectEach(rows[start..i]))
      case Err(e) => Err(e)
      case Ok(vs) => (match Project(rows[i])
        case Err(e) => Err(e)
        case Ok(v) => Ok(vs + [v]))
  {
    var ps := ProjectEach(rows[start..i + 1]);
    assert ps[..i - start] == ProjectEach(rows[start..i]);
    assert ps[i - start] == Project(rows[i]);
  }

  /** A kept row that is too short fails the whole read. */
  lemma KeptRowRaises(rows: seq<seq<string>>, start: nat, i: nat, e: Failure)
    requires start <= i < |rows| && AllOk(ProjectEach(rows[start..i + 1])) == Err(e)
    ensures AllOk(ProjectEach(rows[start..])) == Err(e)
  {
    var ps := ProjectEach(rows[start..]);
    assert ps[..i + 1 - start] == ProjectEach(rows[start..i + 1]);
    AllOkAbort(ps, i + 1 - start, e);
  }

  /** The reader keeps every row after the header and the skipped rows, in order,
      each reduced to its nine columns, and it succeeds exactly when each of those
      rows has the 14 columns up to the comment. */
  lemma ProjectAllKeeps(rows: seq<seq<string>>)
    ensures ProjectAll(rows).Ok? <==> forall i :: 0 <= i < |rows| ==> |rows[i]| > CommentColumn
    ensures ProjectAll(rows).Ok? ==> |ProjectAll(rows).value| == |rows|
    ensures ProjectAll(rows).Ok? ==>
      forall i :: 0 <= i < |rows| ==> Project(rows[i]) == Ok(ProjectAll(rows).value[i])
  {
    var ps := ProjectEach(rows);
    AllOkSpec(ps);
    assert forall i :: 0 <= i < |rows| ==> ps[i] == Project(rows[i]);
  }

  /** The projection keeps the CHIRP columns 0 to 6, 8 and 13, in that order. */
  lemma ProjectColumns(row: seq<string>)
    requires |row| > CommentColumn
    ensures Project(row) == Ok(WebInput(row[0], row[1], row[2], row[3], row[4], row[5], row[6], row[8], row[13]))
  {
  }

  /** The header row is never kept, nor any of the `skipRows` rows after it. */
  lemma FirstKeptSkips(rows: seq<seq<string>>, skipRows: int)
    ensures rows != [] ==> FirstKept(rows, skipRows) >= 1
    ensures 0 <= skipRows && 1 + skipRows <= |rows| ==> FirstKept(rows, skipRows) == 1 + skipRows
  {
  }

  // ---------------------------------------------------------------------------
  // process_rows

  /** `format_frequency`: `f"{x:3.4f}"` of the frequency. */
  function FormatFrequency(raw: string): (r: Result<string>)
    ensures r.Ok? <==> ParseDecimal(raw).Ok?
    ensures r.Err? ==> r.failure == ValueError
  {
    match ParseDecimal(raw)
    case Ok(d) => Ok(Render(d, 4))
    case Err(_) => Err(ValueError)
  }

  /** The frequency column converts exactly when the frequency is spelled as a
      number, and reads back as the frequency rounded to four places. */
  lemma FormatFrequencyReadsBack(raw: string)
    ensures FormatFrequency(raw).Ok? <==> IsDecimalSpelling(Strip(raw))
    ensures FormatFrequency(raw).Ok? ==> var d := ParseDecimal(raw).value;
      ParseDecimal(FormatFrequency(raw).value) == Ok(Decimal(d.neg, RoundedUnits(d, 4), 4))
  {
    ParseDecimalAccepts(raw);
    if ParseDecimal(raw).Ok? {
      RenderParses(ParseDecimal(raw).value, 4);
    }
  }

  /** The offset column: blank when the offset is missing or zero, otherwise
      `f"{x:3.1f}"` of it. */
  function OffsetText(raw: string): (r: Result<string>)
    ensures r.Err? ==> r.failure == ValueError
  {
    var offset := Strip(raw);
    if |offset| == 0 then Ok("")
    else
      match ParseDecimal(offset)
      case Err(_) => Err(ValueError)
      case Ok(d) => if IsZero(d) then Ok("") else Ok(Render(d, 1))
  }

  /** The offset column is blank exactly when the offset is blank or numerically
      zero (-0 included), and otherwise reads back as the offset rounded to one
      decimal. */
  lemma OffsetTextMeaning(raw: string)
    ensures OffsetText(raw) == Ok("") <==>
      Strip(raw) == "" || (ParseDecimal(raw).Ok? && IsZero(ParseDecimal(raw).value))
    ensures OffsetText(raw).Err? <==> Strip(raw) != "" && ParseDecimal(raw).Err?
    ensures OffsetText(raw).Ok? && OffsetText(raw) != Ok("") ==>
      ParseDecimal(raw).Ok? &&
      ParseDecimal(OffsetText(raw).value) ==
        Ok(Decimal(ParseDecimal(raw).value.neg, RoundedUnits(ParseDecimal(raw).value, 1), 1))
  {
    var _ := StripSpec(raw);
    StripUnpadded(Strip(raw));
    assert ParseDecimal(Strip(raw)) == ParseDecimal(raw);
    if OffsetText(raw).Ok? && Strip(raw) != "" && ParseDecimal(raw).Ok? && !IsZero(ParseDecimal(raw).value) {
      var d := ParseDecimal(raw).value;
      RenderParses(d, 1);
      var ip, fp := UnitsToStringParts(d.neg, RoundedUnits(d, 1), 1);
      assert |Render(d, 1)| > 0;
    }
  }

  /** The squelch type and tone columns for a stripped tone mode. */
  function SquelchColumns(mode: string, txTone: string, dcsCode: string): (r: (string, string)) {
    if mode == NoToneMode then ("", "")
    else if mode == BasicToneMode then (mode, Strip(txTone))
    else if mode == ToneSquelchMode then
      var toneFreq := Strip(txTone);
      (mode, "Tx: " + toneFreq + "; Rx: " + toneFreq)
    else if mode == DcsToneMode then (WebDcsToneModeAcronym, Strip(dcsCode))
    else (UnknownMode, "")
  }

  /** The squelch type is blank only without a tone mode, names the mode for the
      CTCSS modes, is 'DCS' for DTCS and 'N/A' for any other mode; the tone
      column is the transmit tone, the same tone for both directions under tone
      squelch, the DCS code, or blank. */
  lemma SquelchColumnsCases(mode: string, txTone: string, dcsCode: string)
    ensures var (kind, tone) := SquelchColumns(mode, txTone, dcsCode);
      && (kind == "" <==> mode == NoToneMode)
      && (kind == UnknownMode <==> mode !in {NoToneMode, BasicToneMode, ToneSquelchMode, DcsToneMode})
      && (kind == WebDcsToneModeAcronym <==> mode == DcsToneMode)
      && (mode == BasicToneMode ==> kind == mode && tone == Strip(txTone))
      && (mode == ToneSquelchMode ==> kind == mode && tone == "Tx: " + Strip(txTone) + "; Rx: " + Strip(txTone))
      && (mode == DcsToneMode ==> tone == Strip(dcsCode))
      && (kind == "" || kind == UnknownMode ==> tone == "")
  {
  }

  /** A row of the web site table. */
  datatype SiteRow = SiteRow(
    channel: string, name: string, frequency: string, duplex: string, offset: string,
    squelchType: string, toneFreq: string, comment: string)

  /** The fields of a row in the column order of the header. */
  function Fields(r: SiteRow): (f: seq<string>)
    ensures |f| == WebColumns
  {
    [r.channel, r.name, r.frequency, r.duplex, r.offset, r.squelchType, r.toneFreq, r.comment]
  }

  /** The web site row of one CHIRP row, or the `ValueError` of a frequency or an
      offset that does not convert. */
  function CookedRow(r: WebInput): (out: Result<SiteRow>)
    ensures out.Err? ==> out.failure == ValueError
    ensures out.Err? <==> FormatFrequency(r.frequency).Err? || OffsetText(r.offset).Err?
  {
    match FormatFrequency(r.frequency)
    case Err(e) => Err(e)
    case Ok(frequency) =>
      match OffsetText(r.offset)
      case Err(e) => Err(e)
      case Ok(offset) =>
        var (kind, tone) := SquelchColumns(Strip(r.toneMode), r.txTone, r.dcsCode);
        Ok(SiteRow(Strip(r.channel), Strip(r.name), frequency, Strip(r.duplex), offset, kind, tone, Strip(r.comment)))
  }

  /** Channel number, name, duplex and comment pass through with only their
      surrounding whitespace removed; the other columns come from the frequency,
      offset and squelch rules. */
  lemma CookedRowPassThrough(r: WebInput)
    requires CookedRow(r).Ok?
    ensures var out := CookedRow(r).value;
      && out.channel == Strip(r.channel) && out.name == Strip(r.name)
      && out.duplex == Strip(r.duplex) && out.comment == Strip(r.comment)
      && FormatFrequency(r.frequency) == Ok(out.frequency) && OffsetText(r.offset) == Ok(out.offset)
      && (out.squelchType, out.toneFreq) == SquelchColumns(Strip(r.toneMode), r.txTone, r.dcsCode)
  {
  }

  /** The fields of the web site row of one CHIRP row. */
  function CookedFields(r: WebInput): Result<seq<string>> {
    match CookedRow(r)
    case Ok(row) => Ok(Fields(row))
    case Err(e) => Err(e)
  }

  /** Each CHIRP row converted on its own. */
  function WebEach(rows: seq<WebInput>): (cs: seq<Result<seq<string>>>)
    ensures |cs| == |rows| && forall i :: 0 <= i < |rows| ==> cs[i] == CookedFields(rows[i])
  {
    seq(|rows|, i requires 0 <= i < |rows| => CookedFields(rows[i]))
  }

  /** The web site rows of some CHIRP rows, as lists of fields, or the first
      exception. */
  function WebRows(rows: seq<WebInput>): Result<seq<seq<string>>> {
    AllOk(WebEach(rows))
  }

  /** The squelch type and tone columns appended to `crow` by the tone mode
      branches of `process_rows`. */
  method AppendSquelch(crow: seq<string>, mode: string, txTone: string, dcsCode: string)
    returns (out: seq<string>)
    ensures out == crow + [SquelchColumns(mode, txTone, dcsCode).0, SquelchColumns(mode, txTone, dcsCode).1]
  {
    out := crow;
    if mode == NoToneMode {
      out := out + [""];
      out := out + [""];
    } else if mode == BasicToneMode {
      out := out + [mode];
      out := out + [Strip(txTone)];
    } else if mode == ToneSquelchMode {
      out := out + [mode];
      var toneFreq := Strip(txTone);
      out := out + ["Tx: " + toneFreq + "; Rx: " + toneFreq];
    } else if mode == DcsToneMode {
      out := out + [WebDcsToneModeAcronym];
      out := out + [Strip(dcsCode)];
    } else {
      out := out + [UnknownMode];
      out := out + [""];
    }
  }

  /** The first five columns of `crow`: channel, name, frequency, duplex and
      offset, or the `ValueError` of the frequency or the offset. */
  method LeadingCells(rrow: WebInput) returns (r: Result<seq<string>>)
    ensures r.Err? <==> FormatFrequency(rrow.frequency).Err? || OffsetText(rrow.offset).Err?
    ensures r.Err? ==> r.failure == ValueError
    ensures r.Ok? ==> r.value == [Strip(rrow.channel), Strip(rrow.name), FormatFrequency(rrow.frequency).value,
                                  Strip(rrow.duplex), OffsetText(rrow.offset).value]
  {
    var crow: seq<string> := [];
    var currentChannelNo := Strip(rrow.channel);
    crow := crow + [currentChannelNo];
    crow := crow + [Strip(rrow.name)];
    var frequency := FormatFrequency(rrow.frequency);
    if frequency.Err? {
      return Err(frequency.failure);
    }
    crow := crow + [frequency.value];
    crow := crow + [Strip(rrow.duplex)];
    var offset := OffsetText(rrow.offset);
    if offset.Err? {
      return Err(offset.failure);
    }
    crow := crow + [offset.value];
    FiveAppends(currentChannelNo, Strip(rrow.name), frequency.value, Strip(rrow.duplex), offset.value);
    return Ok(crow);
  }

  /** The columns of a cooked row, in the order `process_rows` appends them. */
  lemma CookedFieldsShape(r: WebInput)
    ensures CookedFields(r).Err? <==> FormatFrequency(r.frequency).Err? || OffsetText(r.offset).Err?
    ensures CookedFields(r).Err? ==> CookedFields(r).failure == ValueError
    ensures CookedFields(r).Ok? ==>
      var sq := SquelchColumns(Strip(r.toneMode), r.txTone, r.dcsCode);
      CookedFields(r).value
        == [Strip(r.channel), Strip(r.name), FormatFrequency(r.frequency).value, Strip(r.duplex),
            OffsetText(r.offset).value] + [sq.0, sq.1] + [Strip(r.comment)]
  {
    if CookedRow(r).Ok? {
      FieldsParts(CookedRow(r).value);
    }
  }

  lemma FieldsParts(row: SiteRow)
    ensures Fields(row) == [row.channel, row.name, row.frequency, row.duplex, row.offset]
      + [row.squelchType, row.toneFreq] + [row.comment]
  {
  }

  /** One pass of the loop of `process_rows`: `crow` built column by column. */
  method CookRow(rrow: WebInput) returns (r: Result<seq<string>>)
    ensures r == CookedFields(rrow)
  {
    CookedFieldsShape(rrow);
    var lead := LeadingCells(rrow);
    if lead.Err? {
      return Err(lead.failure);
    }
    var crow := lead.value;
    var mode := Strip(rrow.toneMode);
    crow := AppendSquelch(crow, mode, rrow.txTone, rrow.dcsCode);
    crow := crow + [Strip(rrow.comment)];
    return Ok(crow);
  }

  /** `process_rows`: one web site row per CHIRP row, in order, or the first
      `ValueError`. */
  method ProcessRows(rawRows: seq<WebInput>) returns (r: Result<seq<seq<string>>>)
    ensures r == WebRows(rawRows)
  {
    ghost var cs := WebEach(rawRows);
    var cookedRows: seq<seq<string>> := [];
    var i := 0;
    while i < |rawRows|
      invariant 0 <= i <= |rawRows|
      invariant AllOk(cs[..i]) == Ok(cookedRows)
    {
      assert cs[..i + 1][..i] == cs[..i];
      var crow := CookRow(rawRows[i]);
      assert cs[i] == crow;
      if crow.Err? {
        AllOkAbort(cs, i + 1, crow.failure);
        return Err(crow.failure);
      }
      cookedRows := cookedRows + [crow.value];
      i := i + 1;
    }
    assert cs[..i] == cs;
    return Ok(cookedRows);
  }

  /** `process_rows` emits exactly one eight-column row per input row, in the
      input order, each the web site row of its input, and fails exactly when
      some row's frequency or offset does not convert. */
  lemma WebRowsOnePerRow(rows: seq<WebInput>)
    ensures WebRows(rows).Ok? <==> forall i :: 0 <= i < |rows| ==> CookedRow(rows[i]).Ok?
    ensures WebRows(rows).Ok? ==> |WebRows(rows).value| == |rows|
    ensures WebRows(rows).Ok? ==> forall i :: 0 <= i < |rows| ==>
      CookedRow(rows[i]).Ok? && WebRows(rows).value[i] == Fields(CookedRow(rows[i]).value)
      && |WebRows(rows).value[i]| == WebColumns
  {
    AllOkSpec(WebEach(rows));
  }

  // ---------------------------------------------------------------------------
  // process_options

  /** The command-line options `getopt` hands on. */
  datatype WebOption = SkipFirstRows(arg: string) | Help | Verbose | ShowWarnings

  /** The `-f` rule: a value from 0 to 9 is taken, a value out of range leaves the
      previous setting, and a value that is no integer counts as 0. */
  function SkipRowsValue(previous: int, arg: string): int {
    var skipRows := match ParseInt(arg) case Ok(v) => v case Err(_) => DefaultSkipRows;
    if 0 <= skipRows < 10 then skipRows else previous
  }

  /** `-f n` for a number `n` takes it when it lies in 0..9 and otherwise keeps the
      previous setting; `-f` with no integer sets 0. */
  lemma SkipRowsRule(previous: int, n: int, arg: string)
    ensures SkipRowsValue(previous, IntToString(n)) == if 0 <= n < 10 then n else previous
    ensures ParseInt(arg).Err? ==> SkipRowsValue(previous, arg) == 0
  {
    ParseIntToString(n);
  }

  /** The number of rows to skip after the options `opts`. */
  function SkipAfter(skip: int, opts: seq<WebOption>): int {
    if opts == [] then skip
    else
      var prev := SkipAfter(skip, opts[..|opts| - 1]);
      match opts[|opts| - 1]
      case SkipFirstRows(a) => SkipRowsValue(prev, a)
      case _ => prev
  }

  /** Options keep the number of rows to skip in 0..9 once it is there. */
  lemma {:induction false} SkipAfterRange(skip: int, opts: seq<WebOption>)
    requires 0 <= skip < 10
    ensures 0 <= SkipAfter(skip, opts) < 10
    decreases |opts|
  {
    if opts != [] {
      SkipAfterRange(skip, opts[..|opts| - 1]);
    }
  }

  /** The globals of bin/website_table_gen.py. */
  class WebSettings {
    var verbose: bool
    var showWarnings: bool
    var skipRows: int
    var printHelpAndExit: bool

    constructor()
      ensures !verbose && !showWarnings && skipRows == DefaultSkipRows && !printHelpAndExit
    {
      verbose := false;
      showWarnings := false;
      skipRows := DefaultSkipRows;
      printHelpAndExit := false;
    }

    /** One option of `process_options`. `-h` assigns a local of the function, so
        the global help flag never changes. */
    method ApplyOption(o: WebOption)
      modifies this
      ensures verbose <==> old(verbose) || o == Verbose
      ensures showWarnings <==> old(showWarnings) || o == ShowWarnings
      ensures skipRows == if o.SkipFirstRows? then SkipRowsValue(old(skipRows), o.arg) else old(skipRows)
      ensures printHelpAndExit == old(printHelpAndExit)
    {
      match o {
        case SkipFirstRows(a) =>
          var skipRowsLocal := DefaultSkipRows;
          match ParseInt(a) {
            case Ok(n) => skipRowsLocal := n;
            case Err(_) =>
          }
          if skipRowsLocal >= 0 && skipRowsLocal < 10 {
            skipRows := skipRowsLocal;
          }
        case Help =>
          var printHelpAndExitLocal := true;
        case Verbose =>
          verbose := true;
        case ShowWarnings =>
          showWarnings := true;
      }
    }

    /** `process_options` after `getopt`: the options applied in order. */
    method ProcessOptions(opts: seq<WebOption>)
      modifies this
      ensures verbose <==> old(verbose) || Verbose in opts
      ensures showWarnings <==> old(showWarnings) || ShowWarnings in opts
      ensures skipRows == SkipAfter(old(skipRows), opts)
      ensures printHelpAndExit == old(printHelpAndExit)
    {
      var i := 0;
      while i < |opts|
        invariant 0 <= i <= |opts|
        invariant verbose <==> old(verbose) || Verbose in opts[..i]
        invariant showWarnings <==> old(showWarnings) || ShowWarnings in opts[..i]
        invariant skipRows == SkipAfter(old(skipRows), opts[..i])
        invariant printHelpAndExit == old(printHelpAndExit)
      {
        assert opts[..i + 1][..i] == opts[..i];
        assert opts[..i + 1] == opts[..i] + [opts[i]];
        ApplyOption(opts[i]);
        i := i + 1;
      }
      assert opts[..i] == opts;
    }
  }
}
