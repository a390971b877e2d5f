/** The CHIRP to RT Systems converter: each CHIRP row, read as a dictionary from
    column name to text, becomes a dictionary keyed by the sixteen RT Systems
    column names; the rows are then written under that header. */
module ChirpToRt {
  import opened Outcomes
  import opened Text
  import opened Decimal
  import opened Sequences

  /** The RT Systems columns, in the order they are written. */
  const RtHeaders: seq<string> := [
    "Channel Number", "Receive Frequency", "Transmit Frequency", "Offset Frequency",
    "Offset Direction", "Operating Mode", "Name", "Tone Mode", "CTCSS", "DCS",
    "PR Freq", "Tx Power", "Skip", "Step", "Clock Shift", "Comment"]

  const RtHeaderSet: set<string> := set h | h in RtHeaders

  /** The largest comment limit `truncate_comments` accepts, and the one the converter uses. */
  const MaxCommentLimit: int := 60
  const RtCommentSize: int := 50
  const Ellipsis: string := "..."

  /** The columns RT Systems wants that CHIRP has no counterpart for. */
  const PrFrequency: string := "1500 Hz"
  const TxPower: string := "High"
  const SkipSetting: string := "Off"
  const ClockShift: string := "Off"

  // ---------------------------------------------------------------------------
  // One column at a time

  /** `f"{int(location)}"`: the location as a canonical integer. */
  function ChannelNumber(location: string): (r: Result<string>)
    ensures r.Ok? <==> ParseInt(location).Ok?
    ensures r.Err? ==> r.failure == ValueError
    ensures r.Ok? ==> ParseInt(r.value) == ParseInt(location)
  {
    match ParseInt(location)
    case Ok(n) => ParseIntToString(n); Ok(IntToString(n))
    case Err(_) => Err(ValueError)
  }

  /** A channel number is already canonical: converting it again changes nothing. */
  lemma ChannelNumberIdempotent(location: string)
    requires ChannelNumber(location).Ok?
    ensures ChannelNumber(ChannelNumber(location).value) == ChannelNumber(location)
  {
  }

  /** `f"{float(frequency):.5f}"` */
  function RxFrequency(frequency: string): (r: Result<string>)
    ensures r.Ok? <==> ParseDecimal(frequency).Ok?
    ensures r.Err? ==> r.failure == ValueError
  {
    match ParseDecimal(frequency)
    case Ok(d) => Ok(Render(d, 5))
    case Err(_) => Err(ValueError)
  }

  /** The receive frequency reads back as the frequency rounded to five places. */
  lemma RxFrequencyReadsBack(frequency: string)
    requires ParseDecimal(frequency).Ok?
    ensures var d := ParseDecimal(frequency).value;
      ParseDecimal(RxFrequency(frequency).value) == Ok(Decimal(d.neg, RoundedUnits(d, 5), 5))
  {
    RenderParses(ParseDecimal(frequency).value, 5);
  }

  /** The transmit frequency and the offset direction. The offset is converted
      first, then the receive frequency; the direction is chosen by the duplex
      text alone. */
  function TxFrequency(rx: string, duplex: string, offset: string): (r: Result<(string, string)>)
    ensures r.Ok? <==> ParseDecimal(offset).Ok? && ParseDecimal(rx).Ok?
    ensures r.Err? ==> r.failure == ValueError
    ensures r.Ok? ==> (r.value.1 == "Plus" <==> duplex == "+")
    ensures r.Ok? ==> (r.value.1 == "Minus" <==> duplex == "-")
    ensures r.Ok? ==> (r.value.1 == "Simplex" <==> duplex != "+" && duplex != "-")
  {
    match ParseDecimal(offset)
    case Err(_) => Err(ValueError)
    case Ok(off) =>
      match ParseDecimal(rx)
      case Err(_) => Err(ValueError)
      case Ok(f) =>
        if duplex == "+" then Ok((Render(Add(f, off), 5), "Plus"))
        else if duplex == "-" then Ok((Render(Sub(f, off), 5), "Minus"))
        else Ok((Render(f, 5), "Simplex"))
  }

  /** The exact value `c2rt_tx_frequency` formats: the receive frequency plus the
      offset for '+', minus it for '-', and unchanged for any other duplex text. */
  function Shifted(duplex: string, f: Decimal, off: Decimal): Decimal {
    if duplex == "+" then Add(f, off) else if duplex == "-" then Sub(f, off) else f
  }

  /** The signed shift `c2rt_tx_frequency` applies to the receive frequency, in
      units of 10^-t. */
  function Shift(duplex: string, off: Decimal, t: nat): int
    requires off.scale <= t
  {
    if duplex == "+" then Units(off, t) else if duplex == "-" then -Units(off, t) else 0
  }

  /** For every pair of numbers, the transmit frequency reads back as the shifted
      receive frequency rounded to five places. */
  lemma TxFrequencyReadsBack(rx: string, duplex: string, offset: string)
    requires ParseDecimal(offset).Ok? && ParseDecimal(rx).Ok?
    ensures var s := Shifted(duplex, ParseDecimal(rx).value, ParseDecimal(offset).value);
      ParseDecimal(TxFrequency(rx, duplex, offset).value.0) == Ok(Decimal(s.neg, RoundedUnits(s, 5), 5))
  {
    RenderParses(Shifted(duplex, ParseDecimal(rx).value, ParseDecimal(offset).value), 5);
  }

  /** When both numbers have at most five places in value (trailing zeros do not
      count, so a CHIRP offset "0.600000" qualifies), the transmit frequency reads
      back as exactly the receive frequency moved by the offset in the duplex
      direction, and not moved at all for any other duplex text. The values are
      compared in units of the finest place any of the three is written with. */
  lemma TxFrequencyShift(rx: string, duplex: string, offset: string)
    requires ParseDecimal(offset).Ok? && ParseDecimal(rx).Ok?
    requires HasPlaces(ParseDecimal(offset).value, 5) && HasPlaces(ParseDecimal(rx).value, 5)
    ensures var f, off := ParseDecimal(rx).value, ParseDecimal(offset).value;
      var t := Max(5, Max(f.scale, off.scale));
      var tx := ParseDecimal(TxFrequency(rx, duplex, offset).value.0);
      && tx.Ok? && tx.value.scale == 5
      && Units(tx.value, t) == Units(f, t) + Shift(duplex, off, t)
  {
    var off, f := ParseDecimal(offset).value, ParseDecimal(rx).value;
    TxFrequencyReadsBack(rx, duplex, offset);
    ShiftedExact(duplex, f, off, Max(5, Max(f.scale, off.scale)));
  }

  /** Rounding the shifted value to five places keeps it exactly when both
      numbers need at most five places. */
  lemma ShiftedExact(duplex: string, f: Decimal, off: Decimal, t: nat)
    requires HasPlaces(f, 5) && HasPlaces(off, 5) && f.scale <= t && off.scale <= t && 5 <= t
    ensures var s := Shifted(duplex, f, off);
      Units(Decimal(s.neg, RoundedUnits(s, 5), 5), t) == Units(f, t) + Shift(duplex, off, t)
  {
    if duplex == "+" {
      ExactSum(f, off, t);
    } else if duplex == "-" {
      assert Units(Negate(off), t) == -Units(off, t);
      ExactSum(f, Negate(off), t);
    } else {
      RoundedExact(f, 5, t);
    }
  }

  /** The sum of two numbers needing at most five places survives rounding to
      five places unchanged. */
  lemma ExactSum(f: Decimal, o: Decimal, t: nat)
    requires HasPlaces(f, 5) && HasPlaces(o, 5) && f.scale <= t && o.scale <= t && 5 <= t
    ensures var s := Add(f, o);
      Units(Decimal(s.neg, RoundedUnits(s, 5), 5), t) == Units(f, t) + Units(o, t)
  {
    AddUnits(f, o, t);
    AddPlaces(f, o, 5);
    RoundedExact(Add(f, o), 5, t);
  }

  /** CHIRP's six-place spelling of a 600 kHz offset has scale 6 but needs only
      five places, so `TxFrequencyShift` applies to it. */
  lemma SixPlaceOffsetShifts(offset: string)
    requires offset == "0.600000"
    ensures ParseDecimal(offset) == Ok(Decimal(false, 600000, 6))
    ensures HasPlaces(ParseDecimal(offset).value, 5)
  {
    SixPlaceSpelling(offset);
    SixPlaceParses(offset, "0", "600000");
    assert HasPlaces(Decimal(false, 600000, 6), 5) by {
      assert Pow10(1) == 10;
    }
  }

  /** "0.600000" is the numeral "0" point "600000", unsigned. */
  lemma SixPlaceSpelling(offset: string)
    requires offset == "0.600000"
    ensures offset == SignedNumeral(false, "0", "600000")
  {
  }

  /** That numeral reads as 600000 millionths. */
  lemma SixPlaceParses(offset: string, ip: string, fp: string)
    requires ip == "0" && fp == "600000" && offset == SignedNumeral(false, ip, fp)
    ensures ParseDecimal(offset) == Ok(Decimal(false, 600000, 6))
  {
    assert AllDigits(ip) && AllDigits(fp) && |fp| == 6;
    ParseDecimalParts(offset, false, ip, fp);
    SixDigitsValue(ip + fp);
  }

  /** The digits "0600000" spell 600000. */
  lemma SixDigitsValue(s: string)
    requires s == "0600000"
    ensures AllDigits(s) && DigitsValue(s) == 600000
  {
    var k := 1;
    while k < |s|
      invariant 1 <= k <= |s| && DigitsValue(s[..k]) == if k == 1 then 0 else 6 * Pow10(k - 2)
    {
      assert s[..k + 1][..k] == s[..k];
      k := k + 1;
    }
    assert s[..|s|] == s;
    assert Pow10(5) == 100000;
  }

  /** A receive frequency already written with five places comes back unchanged
      as the transmit frequency of a simplex channel, whatever the offset. */
  lemma SimplexEchoesRx(d: Decimal, duplex: string, offset: string)
    requires duplex != "+" && duplex != "-" && ParseDecimal(offset).Ok?
    ensures TxFrequency(Render(d, 5), duplex, offset) == Ok((Render(d, 5), "Simplex"))
  {
    RenderParses(d, 5);
  }

  /** The RT offset: empty for a zero offset, whole kilohertz below 1 MHz, two
      places of megahertz from 1 MHz up. */
  function OffsetFrequency(offset: string): (r: Result<string>)
    ensures r.Ok? <==> ParseDecimal(offset).Ok?
    ensures r.Err? ==> r.failure == ValueError
    ensures r.Ok? ==> (r.value == "" <==> IsZero(ParseDecimal(offset).value))
  {
    match ParseDecimal(offset)
    case Err(_) => Err(ValueError)
    case Ok(d) =>
      if IsZero(d) then Ok("")
      else if BelowOne(d) then Ok(IntToString(TruncThousands(d)) + " kHz")
      else Ok(Render(d, 2) + " MHz")
  }

  /** Below 1 MHz (negative offsets included) the offset is the whole number of
      kilohertz, truncated toward zero (`TruncThousandsBounds`), followed by " kHz". */
  lemma OffsetKilohertz(offset: string)
    requires ParseDecimal(offset).Ok?
    requires var d := ParseDecimal(offset).value; !IsZero(d) && BelowOne(d)
    ensures var d, r := ParseDecimal(offset).value, OffsetFrequency(offset).value;
      |r| >= 4 && r[|r| - 4..] == " kHz" && ParseInt(r[..|r| - 4]) == Ok(TruncThousands(d))
  {
    var k := TruncThousands(ParseDecimal(offset).value);
    assert OffsetFrequency(offset).value == IntToString(k) + " kHz";
    SuffixedInt(k, " kHz");
  }

  /** An integer written with a suffix reads back once the suffix is removed. */
  lemma SuffixedInt(k: int, suffix: string)
    ensures var r := IntToString(k) + suffix;
      |r| >= |suffix| && r[|r| - |suffix|..] == suffix && ParseInt(r[..|r| - |suffix|]) == Ok(k)
  {
    ConcatParts(IntToString(k), suffix);
    ParseIntToString(k);
  }

  /** From 1 MHz up the offset is the megahertz rounded to two places, followed by " MHz". */
  lemma OffsetMegahertz(offset: string)
    requires ParseDecimal(offset).Ok? && !BelowOne(ParseDecimal(offset).value)
    ensures var d, r := ParseDecimal(offset).value, OffsetFrequency(offset).value;
      && |r| >= 4 && r[|r| - 4..] == " MHz"
      && ParseDecimal(r[..|r| - 4]) == Ok(Decimal(false, RoundedUnits(d, 2), 2))
  {
    var d := ParseDecimal(offset).value;
    var r := OffsetFrequency(offset).value;
    assert r == Render(d, 2) + " MHz";
    ConcatParts(Render(d, 2), " MHz");
    RenderParses(d, 2);
  }

  /** The RT tone mode of a CHIRP tone mode. */
  function ToneMode(tone: string): (r: string)
    ensures r == "Tone" <==> tone == "Tone"
    ensures r == "T Sql" <==> tone == "TSQL"
    ensures r == "DCS" <==> tone == "DTCS"
    ensures r == "None" <==> tone != "Tone" && tone != "TSQL" && tone != "DTCS"
  {
    if tone == "Tone" then "Tone"
    else if tone == "TSQL" then "T Sql"
    else if tone == "DTCS" then "DCS"
    else "None"
  }

  /** The CTCSS column: the tone frequency with one place and " Hz" for the two
      CTCSS tone modes, empty otherwise. The tone frequency is converted for every
      mode, so a malformed one raises even where it is not shown. */
  function CtcssTone(toneMode: string, rxToneFreq: string): (r: Result<string>)
    ensures r.Ok? <==> ParseDecimal(rxToneFreq).Ok?
    ensures r.Err? ==> r.failure == ValueError
    ensures r.Ok? ==> (r.value != "" <==> toneMode == "Tone" || toneMode == "TSQL")
  {
    var rtToneMode := ToneMode(toneMode);
    match ParseDecimal(rxToneFreq)
    case Err(_) => Err(ValueError)
    case Ok(toneFreq) =>
      if rtToneMode == "Tone" || rtToneMode == "T Sql" then Ok(Render(toneFreq, 1) + " Hz") else Ok("")
  }

  /** A shown CTCSS tone reads back as the tone frequency rounded to one place. */
  lemma CtcssToneReadsBack(toneMode: string, rxToneFreq: string)
    requires ParseDecimal(rxToneFreq).Ok? && (toneMode == "Tone" || toneMode == "TSQL")
    ensures var d, r := ParseDecimal(rxToneFreq).value, CtcssTone(toneMode, rxToneFreq).value;
      && |r| >= 3 && r[|r| - 3..] == " Hz"
      && ParseDecimal(r[..|r| - 3]) == Ok(Decimal(d.neg, RoundedUnits(d, 1), 1))
  {
    var d := ParseDecimal(rxToneFreq).value;
    CtcssToneShown(toneMode, rxToneFreq);
    HzReadsBack(d);
  }

  lemma CtcssToneShown(toneMode: string, rxToneFreq: string)
    requires ParseDecimal(rxToneFreq).Ok? && (toneMode == "Tone" || toneMode == "TSQL")
    ensures CtcssTone(toneMode, rxToneFreq) == Ok(Render(ParseDecimal(rxToneFreq).value, 1) + " Hz")
  {
  }

  lemma HzReadsBack(d: Decimal)
    ensures var r := Render(d, 1) + " Hz";
      && |r| >= 3 && r[|r| - 3..] == " Hz"
      && ParseDecimal(r[..|r| - 3]) == Ok(Decimal(d.neg, RoundedUnits(d, 1), 1))
  {
    SuffixParts(Render(d, 1), " Hz");
    RenderParses(d, 1);
  }

  /** The DCS column: "DCS" for the one code text "DTCS", empty for every other. */
  function Dcs(dtcsCode: string): (r: string)
    ensures r == "DCS" <==> dtcsCode == "DTCS"
    ensures r != "DCS" ==> r == ""
  {
    if dtcsCode == "DTCS" then "DCS" else ""
  }

  /** The step column: the CHIRP step followed by " kHz". */
  function Step(step: string): (r: string)
    ensures |r| == |step| + 4 && r[..|step|] == step && r[|step|..] == " kHz"
  {
    step + " kHz"
  }

  /** Python's `s[:stop]`: a negative stop counts from the end. */
  function PrefixTo(s: string, stop: int): (r: string)
    ensures |r| == if stop >= 0 then (if stop < |s| then stop else |s|)
                   else (if |s| + stop > 0 then |s| + stop else 0)
    ensures r == s[..|r|]
  {
    if stop >= 0 then (if stop < |s| then s[..stop] else s)
    else if |s| + stop > 0 then s[..|s| + stop] else ""
  }

  /** A comment that fits is kept; one as long as the limit or longer is cut to
      three characters below the limit and ends in "...". Limits outside 0..60 raise. */
  function TruncateComments(comment: string, maxSize: int): (r: Result<string>)
    ensures r.Err? <==> maxSize < 0 || maxSize > MaxCommentLimit
    ensures r.Err? ==> r.failure == ValueError
    ensures r.Ok? && |comment| < maxSize ==> r.value == comment
    ensures r.Ok? && |comment| >= maxSize ==>
      |r.value| >= 3 && r.value[|r.value| - 3..] == Ellipsis && r.value[..|r.value| - 3] == PrefixTo(comment, maxSize - 3)
    ensures r.Ok? && maxSize >= 3 ==> |r.value| <= maxSize
  {
    if maxSize < 0 || maxSize > MaxCommentLimit then Err(ValueError)
    else if |comment| < maxSize then Ok(comment)
    else
      var cut := PrefixTo(comment, maxSize - 3);
      assert (cut + Ellipsis)[..|cut|] == cut;
      Ok(cut + Ellipsis)
  }

  /** With a limit of three or more, a comment as long as the limit or longer
      comes out exactly as long as the limit and begins like the comment. */
  lemma TruncateToLimit(comment: string, maxSize: int)
    requires 3 <= maxSize <= MaxCommentLimit && |comment| >= maxSize
    ensures var r := TruncateComments(comment, maxSize).value;
      |r| == maxSize && r[..maxSize - 3] == comment[..maxSize - 3]
  {
  }

  /** A comment exactly as long as the limit is cut although it would fit. */
  lemma TruncateEqualLength(comment: string)
    requires 3 <= |comment| <= MaxCommentLimit
    ensures TruncateComments(comment, |comment|) == Ok(comment[..|comment| - 3] + Ellipsis)
  {
    var r := TruncateComments(comment, |comment|).value;
    assert r == r[..|r| - 3] + r[|r| - 3..];
  }

  /** Limits 0, 1 and 2 slice from the end: the cut drops `3 - maxSize` characters
      and adds three, so the result can be longer than the limit. */
  lemma TruncateSmallLimit(comment: string, maxSize: int)
    requires 0 <= maxSize < 3 && |comment| >= maxSize
    ensures var r := TruncateComments(comment, maxSize).value;
      var kept := if |comment| + maxSize > 3 then |comment| + maxSize - 3 else 0;
      r == comment[..kept] + Ellipsis
  {
    var r := TruncateComments(comment, maxSize).value;
    assert r == r[..|r| - 3] + r[|r| - 3..];
  }

  /** For limits from three up, truncating twice is truncating once. */
  lemma TruncateIdempotent(comment: string, maxSize: int)
    requires 3 <= maxSize <= MaxCommentLimit
    ensures TruncateComments(TruncateComments(comment, maxSize).value, maxSize) == TruncateComments(comment, maxSize)
  {
    var r := TruncateComments(comment, maxSize).value;
    if |comment| >= maxSize {
      TruncateToLimit(comment, maxSize);
      TruncateToLimit(r, maxSize);
      var rr := TruncateComments(r, maxSize).value;
      assert rr == rr[..maxSize - 3] + rr[maxSize - 3..];
      assert r == r[..maxSize - 3] + r[maxSize - 3..];
    }
  }

  // ---------------------------------------------------------------------------
  // One row

  /** The sixteen values of an RT row. */
  datatype RtChannel = RtChannel(
    channelNumber: string, receiveFrequency: string, transmitFrequency: string,
    offsetDirection: string, offsetFrequency: string, operatingMode: string, name: string,
    toneMode: string, ctcss: string, dcs: string, prFreq: string, txPower: string,
    skip: string, step: string, clockShift: string, comment: string)

  /** The dictionary `chirp2rt` fills, keys set in the order it sets them. */
  function Dict(c: RtChannel): map<string, string> {
    map[
      "Channel Number" := c.channelNumber,
      "Receive Frequency" := c.receiveFrequency,
      "Transmit Frequency" := c.transmitFrequency,
      "Offset Direction" := c.offsetDirection,
      "Offset Frequency" := c.offsetFrequency,
      "Operating Mode" := c.operatingMode,
      "Name" := c.name,
      "Tone Mode" := c.toneMode,
      "CTCSS" := c.ctcss,
      "DCS" := c.dcs,
      "PR Freq" := c.prFreq,
      "Tx Power" := c.txPower,
      "Skip" := c.skip,
      "Step" := c.step,
      "Clock Shift" := c.clockShift,
      "Comment" := c.comment]
  }

  /** The values in the column order of the RT Systems header. */
  function Columns(c: RtChannel): (cols: seq<string>)
    ensures |cols| == |RtHeaders|
  {
    [c.channelNumber, c.receiveFrequency, c.transmitFrequency, c.offsetFrequency,
     c.offsetDirection, c.operatingMode, c.name, c.toneMode, c.ctcss, c.dcs,
     c.prFreq, c.txPower, c.skip, c.step, c.clockShift, c.comment]
  }

  /** The dictionary has exactly the RT Systems columns as its keys. */
  lemma DictKeys(c: RtChannel)
    ensures Dict(c).Keys == RtHeaderSet
  {
  }

  /** Each column of the header holds the value in that column's place. */
  lemma DictColumns(c: RtChannel)
    ensures forall i :: 0 <= i < |RtHeaders| ==> RtHeaders[i] in Dict(c) && Dict(c)[RtHeaders[i]] == Columns(c)[i]
  {
  }

  /** The RT values of a CHIRP row, each CHIRP column looked up in the order the
      converter reads it; a missing column raises `KeyError`. */
  function Channel(row: map<string, string>): (r: Result<RtChannel>)
    ensures r.Err? ==> r.failure == KeyError || r.failure == ValueError
  {
    if "Location" !in row then Err(KeyError)
    else match ChannelNumber(row["Location"])
    case Err(e) => Err(e)
    case Ok(channel) =>
      if "Frequency" !in row then Err(KeyError)
      else match RxFrequency(row["Frequency"])
      case Err(e) => Err(e)
      case Ok(rx) =>
        if "Duplex" !in row || "Offset" !in row then Err(KeyError)
        else match TxFrequency(rx, row["Duplex"], row["Offset"])
        case Err(e) => Err(e)
        case Ok((tx, direction)) =>
          match OffsetFrequency(row["Offset"])
          case Err(e) => Err(e)
          case Ok(offset) =>
            if "Mode" !in row || "Name" !in row || "Tone" !in row || "rToneFreq" !in row then Err(KeyError)
            else match CtcssTone(row["Tone"], row["rToneFreq"])
            case Err(e) => Err(e)
            case Ok(ctcss) =>
              if "DtcsCode" !in row || "TStep" !in row || "Comment" !in row then Err(KeyError)
              else match TruncateComments(row["Comment"], RtCommentSize)
              case Err(e) => Err(e)
              case Ok(comment) =>
                Ok(RtChannel(channel, rx, tx, direction, offset, row["Mode"], row["Name"],
                             ToneMode(row["Tone"]), ctcss, Dcs(row["DtcsCode"]), PrFrequency, TxPower,
                             SkipSetting, Step(row["TStep"]), ClockShift, comment))
  }

  /** The RT row of a CHIRP row. */
  function RtRow(row: map<string, string>): Result<map<string, string>> {
    match Channel(row)
    case Ok(c) => Ok(Dict(c))
    case Err(e) => Err(e)
  }

  /** A conversion succeeds exactly when the twelve CHIRP columns it reads are
      present and the location, the frequency, the offset and the tone frequency
      are numbers. */
  lemma ChannelSucceeds(row: map<string, string>)
    ensures Channel(row).Ok? <==>
      && "Location" in row && ParseInt(row["Location"]).Ok?
      && "Frequency" in row && ParseDecimal(row["Frequency"]).Ok?
      && "Duplex" in row && "Offset" in row && ParseDecimal(row["Offset"]).Ok?
      && "Mode" in row && "Name" in row && "Tone" in row
      && "rToneFreq" in row && ParseDecimal(row["rToneFreq"]).Ok?
      && "DtcsCode" in row && "TStep" in row && "Comment" in row
  {
    if "Frequency" in row && ParseDecimal(row["Frequency"]).Ok? {
      RenderParses(ParseDecimal(row["Frequency"]).value, 5);
    }
  }

  /** The four RT Systems columns CHIRP has no counterpart for are constants, the
      name and the operating mode are copied from CHIRP unchanged, and the comment
      is the CHIRP comment truncated to 50 characters at most. */
  lemma ChannelColumns(row: map<string, string>)
    requires Channel(row).Ok?
    ensures var c := Channel(row).value;
      && c.prFreq == PrFrequency && c.txPower == TxPower && c.skip == SkipSetting && c.clockShift == ClockShift
      && c.name == row["Name"] && c.operatingMode == row["Mode"]
      && c.comment == TruncateComments(row["Comment"], RtCommentSize).value
      && |c.comment| <= RtCommentSize
  {
  }

  /** A simplex channel transmits on its receive frequency, whatever its offset. */
  lemma ChannelSimplex(row: map<string, string>)
    requires Channel(row).Ok? && Channel(row).value.offsetDirection == "Simplex"
    ensures Channel(row).value.transmitFrequency == Channel(row).value.receiveFrequency
    ensures Channel(row).value.receiveFrequency == RxFrequency(row["Frequency"]).value
  {
    SimplexEchoesRx(ParseDecimal(row["Frequency"]).value, row["Duplex"], row["Offset"]);
  }

  /** A '+' or '-' channel whose offset needs at most five places transmits
      exactly on its RT receive frequency moved up or down by the offset. */
  lemma ChannelDuplex(row: map<string, string>)
    requires Channel(row).Ok? && Channel(row).value.offsetDirection != "Simplex"
    requires "Offset" in row && ParseDecimal(row["Offset"]).Ok? && HasPlaces(ParseDecimal(row["Offset"]).value, 5)
    ensures var c, off := Channel(row).value, ParseDecimal(row["Offset"]).value;
      var t := Max(5, off.scale);
      var rx, tx := ParseDecimal(c.receiveFrequency), ParseDecimal(c.transmitFrequency);
      && rx.Ok? && rx.value.scale == 5 && tx.Ok? && tx.value.scale == 5
      && (c.offsetDirection == "Plus" || c.offsetDirection == "Minus")
      && (c.offsetDirection == "Plus" ==> row["Duplex"] == "+" && Units(tx.value, t) == Units(rx.value, t) + Units(off, t))
      && (c.offsetDirection == "Minus" ==> row["Duplex"] == "-" && Units(tx.value, t) == Units(rx.value, t) - Units(off, t))
  {
    var rx := RxFrequency(row["Frequency"]).value;
    RenderParses(ParseDecimal(row["Frequency"]).value, 5);
    TxFrequencyShift(rx, row["Duplex"], row["Offset"]);
  }

  /** One pass of the loop of `chirp2rt`: `rt_row` filled column by column. */
  method ConvertRow(chirpRow: map<string, string>) returns (r: Result<map<string, string>>)
    ensures r == RtRow(chirpRow)
  {
    if "Location" !in chirpRow {
      return Err(KeyError);
    }
    var channel := ChannelNumber(chirpRow["Location"]);
    if channel.Err? {
      return Err(channel.failure);
    }
    var rtRow: map<string, string> := map[];
    rtRow := rtRow["Channel Number" := channel.value];
    if "Frequency" !in chirpRow {
      return Err(KeyError);
    }
    var receiveFrequency := RxFrequency(chirpRow["Frequency"]);
    if receiveFrequency.Err? {
      return Err(receiveFrequency.failure);
    }
    rtRow := rtRow["Receive Frequency" := receiveFrequency.value];
    if "Duplex" !in chirpRow || "Offset" !in chirpRow {
      return Err(KeyError);
    }
    var tx := TxFrequency(receiveFrequency.value, chirpRow["Duplex"], chirpRow["Offset"]);
    if tx.Err? {
      return Err(tx.failure);
    }
    var (txFreq, offsetDir) := tx.value;
    rtRow := rtRow["Transmit Frequency" := txFreq];
    rtRow := rtRow["Offset Direction" := offsetDir];
    // the offset converted without error a moment ago, so it does again
    var offset := OffsetFrequency(chirpRow["Offset"]).value;
    rtRow := rtRow["Offset Frequency" := offset];
    if "Mode" !in chirpRow {
      return Err(KeyError);
    }
    rtRow := rtRow["Operating Mode" := chirpRow["Mode"]];
    if "Name" !in chirpRow {
      return Err(KeyError);
    }
    rtRow := rtRow["Name" := chirpRow["Name"]];
    if "Tone" !in chirpRow {
      return Err(KeyError);
    }
    rtRow := rtRow["Tone Mode" := ToneMode(chirpRow["Tone"])];
    if "rToneFreq" !in chirpRow {
      return Err(KeyError);
    }
    var ctcss := CtcssTone(chirpRow["Tone"], chirpRow["rToneFreq"]);
    if ctcss.Err? {
      return Err(ctcss.failure);
    }
    rtRow := rtRow["CTCSS" := ctcss.value];
    if "DtcsCode" !in chirpRow {
      return Err(KeyError);
    }
    rtRow := rtRow["DCS" := Dcs(chirpRow["DtcsCode"])];
    rtRow := rtRow["PR Freq" := PrFrequency];
    rtRow := rtRow["Tx Power" := TxPower];
    rtRow := rtRow["Skip" := SkipSetting];
    if "TStep" !in chirpRow {
      return Err(KeyError);
    }
    rtRow := rtRow["Step" := Step(chirpRow["TStep"])];
    rtRow := rtRow["Clock Shift" := ClockShift];
    if "Comment" !in chirpRow {
      return Err(KeyError);
    }
    // 50 is a valid limit, so truncation cannot raise
    var comment := TruncateComments(chirpRow["Comment"], RtCommentSize).value;
    rtRow := rtRow["Comment" := comment];
    return Ok(rtRow);
  }

  // ---------------------------------------------------------------------------
  // All rows

  function RtEach(rows: seq<map<string, string>>): (cs: seq<Result<map<string, string>>>)
    ensures |cs| == |rows| && forall i :: 0 <= i < |rows| ==> cs[i] == RtRow(rows[i])
  {
    seq(|rows|, i requires 0 <= i < |rows| => RtRow(rows[i]))
  }

  /** The RT rows of the CHIRP rows, or the first exception a row raises. */
  function RtRows(rows: seq<map<string, string>>): Result<seq<map<string, string>>> {
    AllOk(RtEach(rows))
  }

  /** `chirp2rt`: the rows converted one by one, in order. */
  method ConvertRows(rawChirpData: seq<map<string, string>>) returns (r: Result<seq<map<string, string>>>)
    ensures r == RtRows(rawChirpData)
  {
    ghost var cs := RtEach(rawChirpData);
    var rtData: seq<map<string, string>> := [];
    var i := 0;
    while i < |rawChirpData|
      invariant 0 <= i <= |rawChirpData|
      invariant AllOk(cs[..i]) == Ok(rtData)
    {
      var rtRow := ConvertRow(rawChirpData[i]);
      assert cs[i] == rtRow;
      AllOkNext(cs, i, rtData);
      if rtRow.Err? {
        AllOkAbort(cs, i + 1, rtRow.failure);
        return Err(rtRow.failure);
      }
      rtData := rtData + [rtRow.value];
      i := i + 1;
    }
    assert cs[..i] == cs;
    return Ok(rtData);
  }

  /** The conversion succeeds exactly when every row converts, and then it gives
      one RT row per CHIRP row, in order, each keyed by exactly the RT Systems columns. */
  lemma RtRowsOnePerRow(rows: seq<map<string, string>>)
    ensures RtRows(rows).Ok? <==> forall i :: 0 <= i < |rows| ==> Channel(rows[i]).Ok?
    ensures RtRows(rows).Ok? ==> |RtRows(rows).value| == |rows|
    ensures RtRows(rows).Ok? ==> forall i :: 0 <= i < |rows| ==>
      Channel(rows[i]).Ok? && RtRows(rows).value[i] == Dict(Channel(rows[i]).value)
      && RtRows(rows).value[i].Keys == RtHeaderSet
  {
    AllOkSpec(RtEach(rows));
    forall i | 0 <= i < |rows| && Channel(rows[i]).Ok? {
      DictKeys(Channel(rows[i]).value);
    }
  }

  // ---------------------------------------------------------------------------
  // Writing

  /** The record `csv.DictWriter` writes for a row: the value under each header
      column, the empty text for a column the row lacks. */
  function Record(row: map<string, string>): (rec: seq<string>)
    ensures |rec| == |RtHeaders|
    ensures forall i :: 0 <= i < |RtHeaders| ==> rec[i] == if RtHeaders[i] in row then row[RtHeaders[i]] else ""
  {
    seq(|RtHeaders|, i requires 0 <= i < |RtHeaders| => if RtHeaders[i] in row then row[RtHeaders[i]] else "")
  }

  function Records(rows: seq<map<string, string>>): (recs: seq<seq<string>>)
    ensures |recs| == |rows| && forall i :: 0 <= i < |rows| ==> recs[i] == Record(rows[i])
  {
    seq(|rows|, i requires 0 <= i < |rows| => Record(rows[i]))
  }

  /** `csv.DictWriter` refuses a row with a key that is not a header column. */
  predicate Writable(row: map<string, string>) {
    row.Keys <= RtHeaderSet
  }

  /** The record of an RT row is its values in header order. */
  lemma RecordOfChannel(c: RtChannel)
    ensures Writable(Dict(c)) && Record(Dict(c)) == Columns(c)
  {
    DictKeys(c);
    DictColumns(c);
  }

  /** `export_RT`: the header, then one record per row; the count includes the
      header. A row with a key outside the header raises `ValueError`, after the
      records before it are written. */
  method ExportRt(rtRows: seq<map<string, string>>) returns (written: seq<seq<string>>, r: Result<int>)
    ensures r.Ok? <==> forall i :: 0 <= i < |rtRows| ==> Writable(rtRows[i])
    ensures r.Ok? ==> r.value == |rtRows| + 1 && written == [RtHeaders] + Records(rtRows)
    ensures r.Err? ==> r.failure == ValueError && 1 <= |written| <= |rtRows|
    ensures r.Err? ==> var k := |written| - 1;
      && !Writable(rtRows[k]) && (forall i :: 0 <= i < k ==> Writable(rtRows[i]))
      && written == [RtHeaders] + Records(rtRows[..k])
  {
    written := [RtHeaders];
    var numRows := 1;
    var i := 0;
    while i < |rtRows|
      invariant 0 <= i <= |rtRows| && numRows == i + 1
      invariant forall j :: 0 <= j < i ==> Writable(rtRows[j])
      invariant written == [RtHeaders] + Records(rtRows[..i])
    {
      if !(rtRows[i].Keys <= RtHeaderSet) {
        return written, Err(ValueError);
      }
      assert Records(rtRows[..i + 1]) == Records(rtRows[..i]) + [Record(rtRows[i])];
      written := written + [Record(rtRows[i])];
      numRows := numRows + 1;
      i := i + 1;
    }
    assert rtRows[..i] == rtRows;
    return written, Ok(numRows);
  }

  /** Every converted row is writable, and its record holds its values in header order. */
  lemma RtRowsRecords(raw: seq<map<string, string>>)
    requires RtRows(raw).Ok?
    ensures var rows := RtRows(raw).value;
      && |rows| == |raw| && (forall i :: 0 <= i < |rows| ==> Writable(rows[i]))
      && forall i :: 0 <= i < |raw| ==> Channel(raw[i]).Ok? && Records(rows)[i] == Columns(Channel(raw[i]).value)
  {
    RtRowsOnePerRow(raw);
    forall i | 0 <= i < |raw| {
      RecordOfChannel(Channel(raw[i]).value);
    }
  }

  /** `convert`: the CHIRP rows converted and written. Every converted row is
      writable, so the count is the number of CHIRP rows plus the header, and
      each record holds the row's values in header order. Nothing is written
      when a row fails to convert. */
  method Convert(rawChirpData: seq<map<string, string>>) returns (written: seq<seq<string>>, r: Result<int>)
    ensures r.Ok? <==> RtRows(rawChirpData).Ok?
    ensures r.Err? ==> r == Err(RtRows(rawChirpData).failure) && written == []
    ensures r.Ok? ==> r.value == |rawChirpData| + 1 && |written| == r.value && written[0] == RtHeaders
    ensures r.Ok? ==> forall i :: 0 <= i < |rawChirpData| ==>
      Channel(rawChirpData[i]).Ok? && written[i + 1] == Columns(Channel(rawChirpData[i]).value)
  {
    var rtContent := ConvertRows(rawChirpData);
    if rtContent.Err? {
      return [], Err(rtContent.failure);
    }
    RtRowsRecords(rawChirpData);
    written, r := ExportRt(rtContent.value);
    ConsIndex(RtHeaders, Records(rtContent.value));
  }
}
