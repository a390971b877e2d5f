/** The tone classifiers of bin/i2c.py: which text in a tone column of an ICS 217A
    frequency plan is a CTCSS tone, which is a DCS code, and which CHIRP tone mode
    a pair of transmit and receive tones gives. */
module Tones {
  import opened Outcomes
  import opened Text
  import opened Decimal

  // ---------------------------------------------------------------------------
  // Tables

  /** STANDARD_CTCSS_TONES, in tenths of a hertz, in the order of its set display. */
  const StandardTenths: seq<nat> := [
    670, 693, 719, 744, 770,
    797, 825, 854, 885, 915,
    948, 974, 1000, 1035, 1072,
    1109, 1148, 1188, 1230, 1273,
    1318, 1365, 1413, 1462, 1514,
    1567, 1622, 1679, 1738, 1799,
    1862, 1928, 2035, 2065, 2107,
    2181, 2257, 2291, 2336, 2418,
    2503, 2541]

  /** EXTENDED_CTCSS_TONES, in tenths of a hertz. */
  const ExtendedTenths: seq<nat> := [1598, 1655, 1713, 1773, 1835, 1899, 1966, 1995]

  /** DCS_TONES, as the numbers its three-digit codes spell ("023" is 23): one
      constant per line of the set display in `bin/i2c.py`, in its order and with
      its duplicates (255 and 565 appear twice). */
  const DcsLine1: seq<nat> := [23, 25, 26, 31, 32, 36, 43, 47]
  const DcsLine2: seq<nat> := [51, 53, 54, 65, 71, 72, 73, 74]
  const DcsLine3: seq<nat> := [114, 115, 116, 122, 125, 131, 132, 134]
  const DcsLine4: seq<nat> := [143, 145, 152, 155, 156, 162, 165, 172]
  const DcsLine5: seq<nat> := [174, 205, 212, 223, 255, 226, 243, 244]
  const DcsLine6: seq<nat> := [245, 246, 251, 252, 255, 261, 263, 265]
  const DcsLine7: seq<nat> := [266, 271, 274, 306, 311, 315, 325, 331]
  const DcsLine8: seq<nat> := [332, 343, 346, 351, 356, 364, 365, 371]
  const DcsLine9: seq<nat> := [411, 412, 413, 423, 431, 432, 445, 446]
  const DcsLine10: seq<nat> := [452, 454, 455, 462, 464, 465, 466, 503]
  const DcsLine11: seq<nat> := [506, 516, 523, 565, 532, 546, 565, 606]
  const DcsLine12: seq<nat> := [612, 624, 627, 631, 632, 654, 662, 664]
  const DcsLine13: seq<nat> := [703, 712, 723, 731, 732, 734, 743, 754]

  const DcsValues: seq<nat> :=
    DcsLine1 + DcsLine2 + DcsLine3 + DcsLine4 + DcsLine5 + DcsLine6 + DcsLine7
    + DcsLine8 + DcsLine9 + DcsLine10 + DcsLine11 + DcsLine12 + DcsLine13

  /** `code in DCS_TONES`: three decimal digits spelling a number of the table. */
  predicate InDcsTable(code: string) {
    |code| == 3 && AllDigits(code) && DigitsValue(code) in DcsValues
  }

  /** A tone of either table. */
  predicate InTables(tenths: nat) {
    tenths in StandardTenths || tenths in ExtendedTenths
  }

  /** `str(DEFAULT_CTCSS_TONE)`: the configured default tone is held as the text
      it is written out as. */
  const DefaultCtcssTone: string := "88.5"

  const DefaultDcsCode: string := "023"
  const DefaultDcsPolarity: string := "NN"

  /** The CHIRP tone modes. */
  const NoToneMode: string := ""
  const BasicToneMode: string := "Tone"
  const ToneSquelchMode: string := "TSQL"
  const DcsToneMode: string := "DTCS"

  /** TONE_TYPE_UNRECOGNISED, TONE_TYPE_CTCSS, TONE_TYPE_DCS */
  datatype ToneType = Unrecognised | Ctcss | Dcs

  /** The pair a classifier returns: the tone type and a value, which is `None`
      where `bin/i2c.py` returns `None`. */
  datatype ToneResult = ToneResult(kind: ToneType, value: Option<string>)

  // ---------------------------------------------------------------------------
  // CTCSS

  predicate CtcssLead(c: char) {
    c == '1' || c == '2' || c == '6' || c == '7' || c == '8' || c == '9'
  }

  /** `[126789][0-9]{1,2}` */
  predicate CtcssWhole(w: string) {
    2 <= |w| <= 3 && CtcssLead(w[0]) && AllDigits(w)
  }

  /** CTCSS_TONE_REGEX on a token that has already been stripped:
      `[126789][0-9]{1,2}(\.[0-9])?`. */
  predicate CtcssShape(t: string) {
    || CtcssWhole(t)
    || (|t| >= 2 && t[|t| - 2] == '.' && IsDigit(t[|t| - 1]) && CtcssWhole(t[..|t| - 2]))
  }

  /** The value of a CTCSS-shaped token in tenths of a hertz. */
  function TenthsOf(t: string): nat
    requires CtcssShape(t)
  {
    if CtcssWhole(t) then DigitsValue(t) * 10
    else DigitsValue(t[..|t| - 2]) * 10 + DigitValue(t[|t| - 1])
  }

  /** `str(x)` of a float with one decimal place, given in tenths: "67.0", "69.3". */
  function ToneString(tenths: nat): string {
    UnitsToString(false, tenths, 1)
  }

  /** `is_ctcss_tone`: a tone from either table is recognised and returned in its
      canonical spelling; no token at all, or only whitespace, gives the configured
      default; any other token is returned as it came. */
  function IsCtcssTone(tone: Option<string>, defaultTone: string): (r: ToneResult)
    ensures r.kind != Dcs && r.value.Some?
  {
    match tone
    case None => ToneResult(Unrecognised, Some(defaultTone))
    case Some(s) =>
      var raw := Strip(s);
      if |raw| == 0 then ToneResult(Unrecognised, Some(defaultTone))
      else if !CtcssShape(raw) then ToneResult(Unrecognised, Some(s))
      else
        var tenths := TenthsOf(raw);
        if InTables(tenths) then
          ToneResult(Ctcss, Some(ToneString(tenths)))
        else ToneResult(Unrecognised, Some(s))
  }

  /** A token is a CTCSS tone exactly when its stripped form has the CTCSS shape
      and names a tone of one of the two tables; the value is then that tone's
      canonical spelling. An empty or blank token gives the default, and every
      other rejection hands back the token unstripped. */
  lemma CtcssAccepts(s: string, defaultTone: string)
    ensures var r := IsCtcssTone(Some(s), defaultTone); var t := Strip(s);
      && (r.kind == Ctcss <==> CtcssShape(t) && InTables(TenthsOf(t)))
      && (r.kind == Ctcss ==> r.value == Some(ToneString(TenthsOf(t))))
      && (r.kind != Ctcss && t == "" ==> r.value == Some(defaultTone))
      && (r.kind != Ctcss && t != "" ==> r.value == Some(s))
  {
  }

  /** A token of the CTCSS shape always converts with `float`, so the `ValueError`
      branch of `is_ctcss_tone` cannot be taken, and the float has at most one
      decimal place, so testing it against the float tables is testing its value
      in tenths against the tables here. */
  lemma CtcssShapeIsFloat(t: string)
    requires CtcssShape(t)
    ensures ParseDecimal(t).Ok?
    ensures var d := ParseDecimal(t).value;
      !d.neg && d.scale <= 1 && Units(d, 1) == TenthsOf(t)
  {
    if CtcssWhole(t) {
      ParseDecimalWhole(t);
    } else {
      var ip, fp := t[..|t| - 2], [t[|t| - 1]];
      assert t == SignedNumeral(false, ip, fp);
      ParseDecimalParts(t, false, ip, fp);
      DigitsValueSnoc(ip, t[|t| - 1]);
      assert ip + fp == ip + [t[|t| - 1]];
    }
  }

  /** `float(str(x)) == x` for a tone given in tenths. */
  lemma ToneStringParses(tenths: nat)
    ensures ParseDecimal(ToneString(tenths)) == Ok(Decimal(false, tenths, 1))
  {
    UnitsToStringParses(false, tenths, 1);
  }

  lemma {:induction false} NatToStringSnoc(n: nat)
    requires n >= 10
    ensures NatToString(n) == NatToString(n / 10) + [DigitChar(n % 10)]
  {
  }

  /** The decimal digits of a tone between 67.0 and 999.9 Hz. */
  lemma ToneDigits(tenths: nat)
    requires 670 <= tenths < 10000
    ensures var n := NatToString(tenths);
      && (tenths < 1000 ==> |n| == 3 && n[0] == DigitChar(tenths / 100))
      && (tenths >= 1000 ==> |n| == 4 && n[0] == DigitChar(tenths / 1000))
  {
    if tenths < 1000 {
      LeadingDigit(tenths, 100);
    } else {
      LeadingDigit(tenths, 1000);
    }
  }

  /** The first digit of a number with two, three or four digits. */
  lemma LeadingDigit(n: nat, p: nat)
    requires p == 10 || p == 100 || p == 1000
    requires p <= n < 10 * p
    ensures |NatToString(n)| == |NatToString(p)| && NatToString(n)[0] == DigitChar(n / p)
    decreases p
  {
    NatToStringSnoc(n);
    if p > 10 {
      LeadingDigit(n / 10, p / 10);
      assert n / 10 / (p / 10) == n / p;
    }
    NatToStringSnoc(p);
  }

  /** The spelling of a tone: its whole hertz, a point and its tenths digit. */
  lemma ToneStringParts(tenths: nat) returns (ip: string, c: char)
    requires 670 <= tenths < 10000
    ensures ToneString(tenths) == ip + "." + [c]
    ensures NatToString(tenths) == ip + [c] && IsDigit(c) && AllDigits(ip)
    ensures |ip| == 2 || |ip| == 3
    ensures ip[0] == DigitChar(if tenths < 1000 then tenths / 100 else tenths / 1000)
  {
    var n := NatToString(tenths);
    ToneDigits(tenths);
    assert ZeroPad(n, 2) == n;
    ip, c := n[..|n| - 1], n[|n| - 1];
    assert n == ip + [c];
  }

  /** Every tone of the tables lies between 67.0 and 254.1 Hz. */
  lemma TablesRange(tenths: nat)
    requires InTables(tenths)
    ensures 670 <= tenths <= 2541
  {
    StandardBounds();
    ExtendedBounds();
  }

  lemma StandardBounds()
    ensures forall i :: 0 <= i < |StandardTenths| ==> 670 <= StandardTenths[i] <= 2541
  {
  }

  lemma ExtendedBounds()
    ensures forall i :: 0 <= i < |ExtendedTenths| ==> 670 <= ExtendedTenths[i] <= 2541
  {
  }

  /** A tone between 67.0 and 299.9 Hz is written in a spelling that has the
      CTCSS shape and reads back as the same tone. */
  lemma ToneStringShape(tenths: nat)
    requires 670 <= tenths < 3000
    ensures CtcssShape(ToneString(tenths)) && TenthsOf(ToneString(tenths)) == tenths
  {
    var ip, c := ToneStringParts(tenths);
    var s := ToneString(tenths);
    assert s[..|s| - 2] == ip && s[|s| - 2] == '.' && s[|s| - 1] == c;
    assert CtcssLead(ip[0]) by {
      if tenths < 1000 { assert 6 <= tenths / 100 <= 9; } else { assert 1 <= tenths / 1000 <= 2; }
    }
    DigitsValueSnoc(ip, c);
  }

  /** The canonical spelling of every tone of the tables is recognised as that
      tone. */
  lemma ToneStringRecognised(tenths: nat, defaultTone: string)
    requires InTables(tenths)
    ensures IsCtcssTone(Some(ToneString(tenths)), defaultTone) == ToneResult(Ctcss, Some(ToneString(tenths)))
  {
    TablesRange(tenths);
    ToneStringStripped(tenths);
    CtcssRecognised(ToneString(tenths), defaultTone);
  }

  /** The canonical spelling of a tone has no whitespace to strip. */
  lemma ToneStringStripped(tenths: nat)
    requires 670 <= tenths < 3000
    ensures Strip(ToneString(tenths)) == ToneString(tenths)
    ensures CtcssShape(ToneString(tenths)) && TenthsOf(ToneString(tenths)) == tenths
  {
    var ip, c := ToneStringParts(tenths);
    ToneStringShape(tenths);
    var v := ToneString(tenths);
    assert v[0] == ip[0] && v[|v| - 1] == c;
    assert IsDigit(ip[0]);
    DigitNotSpace(ip[0]);
    DigitNotSpace(c);
    StripUnpadded(v);
  }

  /** A token whose strip is a tone of the tables is that tone. */
  lemma CtcssRecognised(s: string, defaultTone: string)
    requires CtcssShape(Strip(s)) && InTables(TenthsOf(Strip(s)))
    ensures IsCtcssTone(Some(s), defaultTone) == ToneResult(Ctcss, Some(ToneString(TenthsOf(Strip(s)))))
  {
  }

  /** Classification is idempotent: the value returned for a recognised CTCSS
      tone is itself recognised as that same tone. */
  lemma CtcssIdempotent(s: string, defaultTone: string)
    requires IsCtcssTone(Some(s), defaultTone).kind == Ctcss
    ensures var v := IsCtcssTone(Some(s), defaultTone).value.value;
      IsCtcssTone(Some(v), defaultTone) == IsCtcssTone(Some(s), defaultTone)
  {
    CtcssAccepts(s, defaultTone);
    var tenths := TenthsOf(Strip(s));
    CtcssRecognised(s, defaultTone);
    ToneStringRecognised(tenths, defaultTone);
  }

  // ---------------------------------------------------------------------------
  // DCS

  predicate IsOctal(c: char) { '0' <= c <= '7' }

  predicate DPrefix(c: char) { c == 'D' || c == 'd' }

  /** `[0-7]?[0-7][1-7]` */
  predicate DcsDigits(b: string) {
    && (|b| == 2 || |b| == 3)
    && (forall i :: 0 <= i < |b| ==> IsOctal(b[i]))
    && b[|b| - 1] != '0'
  }

  /** DCS_TONE_REGEX on a token that has already been stripped:
      `[dD]?[0-7]?[0-7][1-7]`. */
  predicate DcsShape(t: string) {
    if |t| > 0 && DPrefix(t[0]) then DcsDigits(t[1..]) else DcsDigits(t)
  }

  /** `is_dcs_tone`: a code of the table, optionally behind a `D` or `d`, or
      written with two digits for a table code with a leading zero. */
  function IsDcsTone(tone: Option<string>): (r: ToneResult)
    ensures r.kind != Ctcss
    ensures r.kind == Dcs ==> tone.Some? && r.value == Some(Strip(tone.value))
  {
    match tone
    case None => ToneResult(Unrecognised, None)
    case Some(s) =>
      var raw := Strip(s);
      if |raw| == 0 then ToneResult(Unrecognised, Some(s))
      else if !DcsShape(raw) then ToneResult(Unrecognised, Some(s))
      else if |raw| == 4 then
        if DPrefix(raw[0]) && InDcsTable(raw[1..]) then ToneResult(Dcs, Some(raw))
        else ToneResult(Unrecognised, Some(s))
      else if |raw| == 3 then
        if InDcsTable(raw) then ToneResult(Dcs, Some(raw)) else ToneResult(Unrecognised, Some(s))
      else if |raw| == 2 then
        if InDcsTable("0" + raw) then ToneResult(Dcs, Some(raw)) else ToneResult(Unrecognised, Some(s))
      else ToneResult(Unrecognised, Some(s))
  }

  /** The three spellings of a DCS code that `is_dcs_tone` recognises. */
  predicate DcsSpelling(t: string) {
    || (|t| == 4 && DPrefix(t[0]) && InDcsTable(t[1..]))
    || (|t| == 3 && InDcsTable(t))
    || (|t| == 2 && InDcsTable("0" + t))
  }

  /** The digits of a number below 1000 are octal, the last one not 0. */
  predicate OctalCode(v: nat) {
    v / 100 < 8 && v / 10 % 10 < 8 && 0 < v % 10 < 8
  }

  predicate AllOctal(vs: seq<nat>) {
    forall i :: 0 <= i < |vs| ==> OctalCode(vs[i])
  }

  lemma OctalConcat(a: seq<nat>, b: seq<nat>)
    requires AllOctal(a) && AllOctal(b)
    ensures AllOctal(a + b)
  {
    forall i | 0 <= i < |a + b|
      ensures OctalCode((a + b)[i])
    {
      if i >= |a| {
        assert (a + b)[i] == b[i - |a|];
      }
    }
  }

  /** A line of eight numbers, checked entry by entry. */
  lemma OctalLine(line: seq<nat>)
    requires |line| == 8
    requires OctalCode(line[0]) && OctalCode(line[1]) && OctalCode(line[2]) && OctalCode(line[3])
    requires OctalCode(line[4]) && OctalCode(line[5]) && OctalCode(line[6]) && OctalCode(line[7])
    ensures AllOctal(line)
  {
  }

  /** The lines of the table, each checked in a proof of its own. */
  lemma OctalLine1() ensures AllOctal(DcsLine1) { OctalLine(DcsLine1); }
  lemma OctalLine2() ensures AllOctal(DcsLine2) { OctalLine(DcsLine2); }
  lemma OctalLine3() ensures AllOctal(DcsLine3) { OctalLine(DcsLine3); }
  lemma OctalLine4() ensures AllOctal(DcsLine4) { OctalLine(DcsLine4); }
  lemma OctalLine5() ensures AllOctal(DcsLine5) { OctalLine(DcsLine5); }
  lemma OctalLine6() ensures AllOctal(DcsLine6) { OctalLine(DcsLine6); }
  lemma OctalLine7() ensures AllOctal(DcsLine7) { OctalLine(DcsLine7); }
  lemma OctalLine8() ensures AllOctal(DcsLine8) { OctalLine(DcsLine8); }
  lemma OctalLine9() ensures AllOctal(DcsLine9) { OctalLine(DcsLine9); }
  lemma OctalLine10() ensures AllOctal(DcsLine10) { OctalLine(DcsLine10); }
  lemma OctalLine11() ensures AllOctal(DcsLine11) { OctalLine(DcsLine11); }
  lemma OctalLine12() ensures AllOctal(DcsLine12) { OctalLine(DcsLine12); }
  lemma OctalLine13() ensures AllOctal(DcsLine13) { OctalLine(DcsLine13); }

  /** Every number of the DCS table is written with octal digits ending in 1-7,
      checked line by line. */
  lemma TableOctal()
    ensures AllOctal(DcsValues)
  {
    OctalLine1();
    OctalLine2();
    OctalLine3();
    OctalLine4();
    OctalLine5();
    OctalLine6();
    OctalLine7();
    OctalLine8();
    OctalLine9();
    OctalLine10();
    OctalLine11();
    OctalLine12();
    OctalLine13();
    OctalConcat(DcsLine1, DcsLine2);
    OctalConcat(DcsLine1 + DcsLine2, DcsLine3);
    OctalConcat(DcsLine1 + DcsLine2 + DcsLine3, DcsLine4);
    OctalConcat(DcsLine1 + DcsLine2 + DcsLine3 + DcsLine4, DcsLine5);
    OctalConcat(DcsLine1 + DcsLine2 + DcsLine3 + DcsLine4 + DcsLine5, DcsLine6);
    OctalConcat(DcsLine1 + DcsLine2 + DcsLine3 + DcsLine4 + DcsLine5 + DcsLine6, DcsLine7);
    OctalConcat(DcsLine1 + DcsLine2 + DcsLine3 + DcsLine4 + DcsLine5 + DcsLine6 + DcsLine7, DcsLine8);
    OctalConcat(DcsLine1 + DcsLine2 + DcsLine3 + DcsLine4 + DcsLine5 + DcsLine6 + DcsLine7 + DcsLine8, DcsLine9);
    OctalConcat(DcsLine1 + DcsLine2 + DcsLine3 + DcsLine4 + DcsLine5 + DcsLine6 + DcsLine7 + DcsLine8 + DcsLine9, DcsLine10);
    OctalConcat(DcsLine1 + DcsLine2 + DcsLine3 + DcsLine4 + DcsLine5 + DcsLine6 + DcsLine7 + DcsLine8 + DcsLine9 + DcsLine10, DcsLine11);
    OctalConcat(DcsLine1 + DcsLine2 + DcsLine3 + DcsLine4 + DcsLine5 + DcsLine6 + DcsLine7 + DcsLine8 + DcsLine9 + DcsLine10 + DcsLine11, DcsLine12);
    OctalConcat(DcsLine1 + DcsLine2 + DcsLine3 + DcsLine4 + DcsLine5 + DcsLine6 + DcsLine7 + DcsLine8 + DcsLine9 + DcsLine10 + DcsLine11 + DcsLine12, DcsLine13);
  }

  lemma DcsValuesOctal(v: nat)
    requires v in DcsValues
    ensures OctalCode(v)
  {
    TableOctal();
    var i :| 0 <= i < |DcsValues| && DcsValues[i] == v;
  }

  /** The number three digits spell, digit by digit. */
  lemma ThreeDigits(c: string)
    requires |c| == 3 && AllDigits(c)
    ensures var v := DigitsValue(c);
      v / 100 == DigitValue(c[0]) && v / 10 % 10 == DigitValue(c[1]) && v % 10 == DigitValue(c[2])
  {
    assert c[..2][..1] == c[..1];
    assert c[..1][..0] == [];
    assert c[..2][1] == c[1] && c[..1][0] == c[0];
    var a, b, e := DigitValue(c[0]), DigitValue(c[1]), DigitValue(c[2]);
    assert DigitsValue(c[..1]) == a;
    assert DigitsValue(c[..2]) == a * 10 + b;
    assert DigitsValue(c) == a * 100 + b * 10 + e;
  }

  /** Every code of the table matches the digit part of DCS_TONE_REGEX. */
  lemma TableCodeDigits(c: string)
    requires InDcsTable(c)
    ensures DcsDigits(c)
  {
    DcsValuesOctal(DigitsValue(c));
    OctalDigits(c);
  }

  /** Three digits spelling an octal code are octal digits, the last not 0. */
  lemma OctalDigits(c: string)
    requires |c| == 3 && AllDigits(c) && OctalCode(DigitsValue(c))
    ensures DcsDigits(c)
  {
    ThreeDigits(c);
    assert IsDigit(c[0]) && IsDigit(c[1]) && IsDigit(c[2]);
    forall i | 0 <= i < 3
      ensures IsOctal(c[i])
    {
      assert DigitValue(c[i]) < 8;
    }
  }

  /** Each of the three accepted spellings matches DCS_TONE_REGEX, so the pattern
      test of `is_dcs_tone` never turns a table code away. */
  lemma DcsSpellingShape(t: string)
    requires DcsSpelling(t)
    ensures DcsShape(t)
  {
    if |t| == 4 {
      TableCodeDigits(t[1..]);
    } else if |t| == 3 {
      TableCodeDigits(t);
    } else {
      var c := "0" + t;
      TableCodeDigits(c);
      assert c[1..] == t;
    }
  }

  /** A token is a DCS code exactly when its stripped form is one of the three
      recognised spellings of a table code; the code is then returned stripped
      and otherwise as written (prefix kept, two digits unpadded), and a rejected
      token is returned unstripped. */
  lemma DcsAccepts(s: string)
    ensures var r := IsDcsTone(Some(s)); var t := Strip(s);
      && (r.kind == Dcs <==> DcsSpelling(t))
      && (r.kind == Dcs ==> r.value == Some(t))
      && (r.kind != Dcs ==> r.value == Some(s))
  {
    if DcsSpelling(Strip(s)) {
      DcsSpellingShape(Strip(s));
    }
  }

  /** Every code of the table is recognised: as its three digits, behind a `D`
      or a `d`, and, for a code with a leading zero, as its last two digits. */
  lemma TableCodeRecognised(c: string)
    requires InDcsTable(c)
    ensures IsDcsTone(Some(c)) == ToneResult(Dcs, Some(c))
    ensures IsDcsTone(Some("D" + c)) == ToneResult(Dcs, Some("D" + c))
    ensures IsDcsTone(Some("d" + c)) == ToneResult(Dcs, Some("d" + c))
    ensures c[0] == '0' ==> IsDcsTone(Some(c[1..])) == ToneResult(Dcs, Some(c[1..]))
  {
    assert IsDigit(c[0]) && IsDigit(c[2]);
    DigitNotSpace(c[0]);
    DigitNotSpace(c[2]);
    RecognisedUnpadded(c);
    var upper, lower := "D" + c, "d" + c;
    assert upper[1..] == c && upper[3] == c[2];
    assert lower[1..] == c && lower[3] == c[2];
    RecognisedUnpadded(upper);
    RecognisedUnpadded(lower);
    if c[0] == '0' {
      var t := c[1..];
      assert "0" + t == c;
      assert IsDigit(t[0]) && t[1] == c[2];
      DigitNotSpace(t[0]);
      RecognisedUnpadded(t);
    }
  }

  /** A spelling with no whitespace at either end is recognised as itself. */
  lemma RecognisedUnpadded(t: string)
    requires DcsSpelling(t) && !IsSpace(t[0]) && !IsSpace(t[|t| - 1])
    ensures IsDcsTone(Some(t)) == ToneResult(Dcs, Some(t))
  {
    StripUnpadded(t);
    DcsAccepts(t);
  }

  /** A `D` in front of a two-digit code is not accepted: "D23" is no DCS tone. */
  lemma PrefixedTwoDigitsRejected()
    ensures IsDcsTone(Some("D23")).kind == Unrecognised
  {
    var t := "D23";
    StripUnpadded(t);
    assert DcsShape(t) by { assert DcsDigits(t[1..]); }
    assert !InDcsTable(t) by { assert !IsDigit(t[0]); }
  }

  /** A two-digit code is recognised through its zero-padded form and returned
      without the padding: "23" is code 023, returned as "23". */
  lemma TwoDigitsUnpadded()
    ensures IsDcsTone(Some("23")) == ToneResult(Dcs, Some("23"))
  {
    StripUnpadded("23");
    assert DcsShape("23") by { assert DcsDigits("23"); }
    var c := "0" + "23";
    assert c == ['0', '2', '3'];
    assert DigitsValue(c[..1]) == 0 by { assert c[..1][..0] == []; }
    assert DigitsValue(c[..2]) == 2 by { assert c[..2][..1] == c[..1]; }
    assert DigitsValue(c) == 23;
    assert InDcsTable(c);
  }

  // ---------------------------------------------------------------------------
  // parse_tone and parse_tones

  /** `parse_tone`: a CTCSS tone if the token is one, else a DCS code if it is
      one, else nothing. */
  function ParseTone(tone: Option<string>, defaultTone: string): (r: ToneResult)
    ensures var c := IsCtcssTone(tone, defaultTone); var d := IsDcsTone(tone);
      && (r.kind == Ctcss <==> c.kind == Ctcss)
      && (r.kind == Ctcss ==> r == c)
      && (r.kind == Dcs <==> c.kind != Ctcss && d.kind == Dcs)
      && (r.kind == Dcs ==> r == d)
      && (r.kind == Unrecognised <==> c.kind != Ctcss && d.kind != Dcs)
      && (r.kind == Unrecognised ==> r.value == None)
  {
    var c := IsCtcssTone(tone, defaultTone);
    if c.kind == Ctcss then c
    else
      var d := IsDcsTone(tone);
      if d.kind == Dcs then d else ToneResult(Unrecognised, None)
  }

  /** What `parse_tones` returns: the CHIRP tone mode, the transmit and receive
      CTCSS tones and the transmit and receive DCS codes. */
  datatype ToneSettings = ToneSettings(mode: string, txCtcss: string, rxCtcss: string,
                                       txDcs: string, rxDcs: string)

  /** `parse_tones`: the CHIRP tone settings of a channel from the tone the local
      station transmits and the tone it receives. */
  function ParseTones(txTone: string, rxTone: string, defaultTone: string): (r: ToneSettings)
    ensures var tx := ParseTone(Some(txTone), defaultTone); var rx := ParseTone(Some(rxTone), defaultTone);
      && (r.mode == ToneSquelchMode <==> tx.kind == Ctcss && rx.kind == Ctcss)
      && (r.mode == BasicToneMode <==> tx.kind == Ctcss && rx.kind != Ctcss)
      && (r.mode == DcsToneMode <==> tx.kind == Dcs)
      && (r.mode == NoToneMode <==> tx.kind == Unrecognised)
      && r.txCtcss == (if tx.kind == Ctcss then tx.value.value else defaultTone)
      && r.rxCtcss == (if r.mode == ToneSquelchMode then rx.value.value else defaultTone)
      && r.txDcs == DefaultDcsCode && r.rxDcs == DefaultDcsCode
  {
    var tx := ParseTone(Some(txTone), defaultTone);
    var rx := ParseTone(Some(rxTone), defaultTone);
    if tx.kind == Ctcss then
      if rx.kind == Ctcss then
        ToneSettings(ToneSquelchMode, tx.value.value, rx.value.value, DefaultDcsCode, DefaultDcsCode)
      else ToneSettings(BasicToneMode, tx.value.value, defaultTone, DefaultDcsCode, DefaultDcsCode)
    else if tx.kind == Dcs then
      ToneSettings(DcsToneMode, defaultTone, defaultTone, DefaultDcsCode, DefaultDcsCode)
    else ToneSettings(NoToneMode, defaultTone, defaultTone, DefaultDcsCode, DefaultDcsCode)
  }

  /** A receive tone alone never sets a mode, and never changes any setting. */
  lemma ReceiveToneAlone(txTone: string, rxTone: string, rxTone': string, defaultTone: string)
    requires ParseTone(Some(txTone), defaultTone).kind == Unrecognised
    ensures ParseTones(txTone, rxTone, defaultTone) == ParseTones(txTone, rxTone', defaultTone)
    ensures ParseTones(txTone, rxTone, defaultTone).mode == NoToneMode
  {
  }
}
