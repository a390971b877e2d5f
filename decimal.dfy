/** Exact decimal numbers standing in for the Python floats the converters parse
    frequencies, offsets and tones into, with `float(s)` and the `f"{x:.Nf}"`
    rendering stated on them. */
module Decimal {
  import opened Outcomes
  import opened Text

  /** The number (-1)^neg * mag / 10^scale. The sign is kept for zero as well,
      as a float keeps it for -0.0. */
  datatype Decimal = Decimal(neg: bool, mag: nat, scale: nat)

  function Pow10(n: nat): (r: nat)
    ensures r >= 1
  {
    if n == 0 then 1 else 10 * Pow10(n - 1)
  }

  lemma {:induction false} Pow10Add(a: nat, b: nat)
    ensures Pow10(a + b) == Pow10(a) * Pow10(b)
    decreases a
  {
    if a > 0 {
      Pow10Add(a - 1, b);
    }
  }

  /** The signed value in units of 10^-s, for a scale `s` at least the number's own. */
  function Units(d: Decimal, s: nat): int
    requires d.scale <= s
  {
    var m := d.mag * Pow10(s - d.scale);
    if d.neg then -m else m
  }

  predicate IsZero(d: Decimal) { d.mag == 0 }

  /** `x > 0` */
  predicate IsPositive(d: Decimal) { !d.neg && d.mag > 0 }

  /** `x < 1.0` */
  predicate BelowOne(d: Decimal) { d.neg || d.mag < Pow10(d.scale) }

  /** `abs(x)` */
  function Abs(d: Decimal): (r: Decimal)
    ensures !r.neg && r.mag == d.mag && r.scale == d.scale
  {
    d.(neg := false)
  }

  /** `-x` */
  function Negate(d: Decimal): (r: Decimal)
    ensures r.neg != d.neg && r.mag == d.mag && r.scale == d.scale
  {
    d.(neg := !d.neg)
  }

  function Max(a: nat, b: nat): nat { if a < b then b else a }

  /** `x + y`, exact; an exactly zero sum is negative only when both operands are (IEEE 754). */
  function Add(a: Decimal, b: Decimal): (r: Decimal)
    ensures r.scale == Max(a.scale, b.scale)
    ensures Units(r, r.scale) == Units(a, r.scale) + Units(b, r.scale)
    ensures r.neg <==> Units(a, r.scale) + Units(b, r.scale) < 0 || (r.mag == 0 && a.neg && b.neg)
  {
    var s := Max(a.scale, b.scale);
    var v := Units(a, s) + Units(b, s);
    Decimal(if v == 0 then a.neg && b.neg else v < 0, if v < 0 then -v else v, s)
  }

  /** `x - y` */
  function Sub(a: Decimal, b: Decimal): Decimal {
    Add(a, Negate(b))
  }

  // ---------------------------------------------------------------------------
  // float(s)

  /** The number part of a spelling, after its sign: digits and at most one
      decimal point, with at least one digit. */
  predicate IsNumeral(body: string) {
    && (forall i :: 0 <= i < |body| ==> IsDigit(body[i]) || body[i] == '.')
    && (forall i, j :: 0 <= i < j < |body| && body[i] == '.' ==> body[j] != '.')
    && (exists i :: 0 <= i < |body| && IsDigit(body[i]))
  }

  predicate HasSign(t: string) { |t| > 0 && (t[0] == '+' || t[0] == '-') }

  /** The spellings of a number this model accepts after stripping: an optional
      sign and a numeral. */
  predicate IsDecimalSpelling(t: string) {
    IsNumeral(if HasSign(t) then t[1..] else t)
  }

  /** The digits of a numeral before and after its decimal point, or none for a
      string that is not a numeral. */
  function NumeralParts(body: string): (parts: Option<(string, string)>)
    ensures parts.Some? ==> AllDigits(parts.value.0) && AllDigits(parts.value.1)
  {
    if '.' in body then
      var p := IndexOf(body, '.');
      var ip, fp := body[..p], body[p + 1..];
      if AllDigits(ip) && AllDigits(fp) && |ip| + |fp| > 0 then Some((ip, fp)) else None
    else if body != [] && AllDigits(body) then Some((body, ""))
    else None
  }

  /** `NumeralParts` accepts exactly the numerals. */
  lemma NumeralPartsAccepts(body: string)
    ensures NumeralParts(body).Some? <==> IsNumeral(body)
  {
    if '.' in body {
      if NumeralParts(body).Some? {
        PointedNumeral(body);
      } else if IsNumeral(body) {
        PointedParts(body);
      }
    } else if body != [] && AllDigits(body) {
      assert IsDigit(body[0]);
    }
  }

  /** A numeral with a point splits there into two runs of digits, not both empty. */
  lemma PointedParts(body: string)
    requires '.' in body && IsNumeral(body)
    ensures NumeralParts(body).Some?
  {
    var p := IndexOf(body, '.');
    var ip, fp := body[..p], body[p + 1..];
    forall k | 0 <= k < |ip| ensures IsDigit(ip[k]) {
      assert ip[k] == body[k] && body[k] != '.';
    }
    forall k | 0 <= k < |fp| ensures IsDigit(fp[k]) {
      assert fp[k] == body[p + 1 + k];
    }
    var d :| 0 <= d < |body| && IsDigit(body[d]);
    assert d != p;
  }

  /** Two runs of digits around one point, not both empty, make a numeral. */
  lemma PointedNumeral(body: string)
    requires '.' in body && NumeralParts(body).Some?
    ensures IsNumeral(body)
  {
    var p := IndexOf(body, '.');
    var ip, fp := body[..p], body[p + 1..];
    assert body == ip + "." + fp;
    forall i | 0 <= i < |body| ensures IsDigit(body[i]) || body[i] == '.' {
      if i < p { assert body[i] == ip[i]; } else if i > p { assert body[i] == fp[i - p - 1]; }
    }
    if |ip| > 0 { assert IsDigit(body[0]); } else { assert IsDigit(body[p + 1]); }
    forall i, j | 0 <= i < j < |body| && body[i] == '.' ensures body[j] != '.' {
      assert i == p;
      assert body[j] == fp[j - p - 1];
    }
  }

  /** Python's `float(s)` on decimal spellings: surrounding whitespace, an optional
      sign, digits with at most one point ("5.", ".5" included); anything else raises. */
  function ParseDecimal(s: string): (r: Result<Decimal>)
    ensures r.Ok? ==> r.value.scale < |s|
  {
    var t := Strip(s);
    var body := if HasSign(t) then t[1..] else t;
    match NumeralParts(body)
    case Some((ip, fp)) =>
      DigitsValueAppend(ip, fp);
      Ok(Decimal(HasSign(t) && t[0] == '-', DigitsValue(ip + fp), |fp|))
    case None => Err(ValueError)
  }

  /** `float(s)` succeeds exactly on the decimal spellings. */
  lemma ParseDecimalAccepts(s: string)
    ensures ParseDecimal(s).Ok? <==> IsDecimalSpelling(Strip(s))
  {
    var t := Strip(s);
    NumeralPartsAccepts(if HasSign(t) then t[1..] else t);
  }

  // ---------------------------------------------------------------------------
  // f"{x:.Nf}"

  /** The magnitude rounded to `p` places, in units of 10^-p, ties to even. */
  function RoundedUnits(d: Decimal, p: nat): nat {
    if d.scale <= p then d.mag * Pow10(p - d.scale)
    else
      var step := Pow10(d.scale - p);
      var q, rem := d.mag / step, d.mag % step;
      if 2 * rem > step || (2 * rem == step && q % 2 == 1) then q + 1 else q
  }

  lemma DivMod(x: nat, y: nat)
    requires y > 0
    ensures 0 <= x / y && 0 <= x % y < y && x == x / y * y + x % y
  {
  }

  /** Rounding to `p` places keeps a number with at most `p` places exactly, and
      otherwise moves it by at most half a unit of the last place, a tie going to
      the even neighbour. */
  lemma RoundedUnitsNearest(d: Decimal, p: nat)
    ensures d.scale <= p ==> RoundedUnits(d, p) == d.mag * Pow10(p - d.scale)
    ensures d.scale > p ==>
      var u, step := RoundedUnits(d, p), Pow10(d.scale - p);
      && 2 * d.mag <= 2 * u * step + step
      && 2 * u * step <= 2 * d.mag + step
      && (2 * d.mag == 2 * u * step + step || 2 * d.mag + step == 2 * u * step ==> u % 2 == 0)
  {
    if d.scale > p {
      var step := Pow10(d.scale - p);
      var q, rem := d.mag / step, d.mag % step;
      DivMod(d.mag, step);
      var half := 5 * Pow10(d.scale - p - 1);
      assert step == 2 * half;
      assert RoundedUnits(d, p) == if 2 * rem > step || (2 * rem == step && q % 2 == 1) then q + 1 else q;
      HalfEven(d.mag, step, half, q, rem, RoundedUnits(d, p));
    }
  }

  /** Rounding `x / y` half to even with quotient `q` and remainder `r`. */
  lemma HalfEven(x: nat, y: nat, half: nat, q: nat, r: nat, u: nat)
    requires y > 0 && y == 2 * half && x == q * y + r && r < y
    requires u == if 2 * r > y || (2 * r == y && q % 2 == 1) then q + 1 else q
    ensures 2 * x <= 2 * u * y + y && 2 * u * y <= 2 * x + y
    ensures 2 * x == 2 * u * y + y || 2 * x + y == 2 * u * y ==> u % 2 == 0
  {
    if u == q + 1 {
      assert 2 * u * y == 2 * q * y + 2 * y;
    } else {
      assert 2 * x == 2 * u * y + 2 * r;
    }
  }

  /** `s` with zeros added on the left up to length `w`. */
  function ZeroPad(s: string, w: nat): (r: string)
    ensures |r| == if |s| < w then w else |s|
    ensures r == Zeros(|r| - |s|) + s
  {
    if |s| < w then Zeros(w - |s|) + s else s
  }

  function Zeros(n: nat): (r: string)
    ensures |r| == n && forall i :: 0 <= i < n ==> r[i] == '0'
  {
    if n == 0 then "" else "0" + Zeros(n - 1)
  }

  /** `u` units of 10^-p written with its sign, the integer part without superfluous
      zeros, a point and exactly `p` digits. */
  function UnitsToString(neg: bool, u: nat, p: nat): string
    requires p >= 1
  {
    PointAt(neg, ZeroPad(NatToString(u), p + 1), p)
  }

  /** `digits` with a point before its last `p` digits, behind a sign. */
  function PointAt(neg: bool, digits: string, p: nat): string
    requires p <= |digits|
  {
    SignedNumeral(neg, digits[..|digits| - p], digits[|digits| - p..])
  }

  /** A minus sign when `neg`, the integer digits, a point and the fraction digits. */
  function SignedNumeral(neg: bool, ip: string, fp: string): string {
    (if neg then "-" else "") + ip + "." + fp
  }

  /** Python's `f"{x:.{p}f}"` for `p >= 1`: the magnitude rounded to `p` places,
      written with its sign. */
  function Render(d: Decimal, p: nat): string
    requires p >= 1
  {
    UnitsToString(d.neg, RoundedUnits(d, p), p)
  }

  lemma DigitsValueSnoc(s: string, c: char)
    requires AllDigits(s) && IsDigit(c)
    ensures AllDigits(s + [c]) && DigitsValue(s + [c]) == DigitsValue(s) * 10 + DigitValue(c)
  {
    assert (s + [c])[..|s|] == s;
  }

  lemma MulStep(x: int, y: int, z: int, c: int)
    ensures (x * y + z) * 10 + c == x * (10 * y) + (z * 10 + c)
  {
  }

  /** The value of digits `a` followed by digits `b`. */
  lemma {:induction false} DigitsValueAppend(a: string, b: string)
    requires AllDigits(a) && AllDigits(b)
    ensures AllDigits(a + b)
    ensures DigitsValue(a + b) == DigitsValue(a) * Pow10(|b|) + DigitsValue(b)
    decreases |b|
  {
    if b == [] {
      assert a + b == a;
    } else {
      var b', c := b[..|b| - 1], b[|b| - 1];
      assert b == b' + [c];
      assert a + b == (a + b') + [c];
      DigitsValueAppend(a, b');
      DigitsValueSnoc(a + b', c);
      DigitsValueSnoc(b', c);
      MulStep(DigitsValue(a), Pow10(|b'|), DigitsValue(b'), DigitValue(c));
    }
  }

  lemma ZerosValue(n: nat, s: string)
    requires AllDigits(s)
    ensures AllDigits(Zeros(n) + s) && DigitsValue(Zeros(n) + s) == DigitsValue(s)
  {
    DigitsValueAppend(Zeros(n), s);
    ZerosAreZero(n);
  }

  lemma {:induction false} ZerosAreZero(n: nat)
    ensures AllDigits(Zeros(n)) && DigitsValue(Zeros(n)) == 0
  {
    if n > 0 {
      ZerosAreZero(n - 1);
      DigitsValueAppend("0", Zeros(n - 1));
    }
  }

  lemma {:induction false} IndexOfAt(s: string, c: char, k: nat)
    requires k < |s| && s[k] == c && c !in s[..k]
    ensures IndexOf(s, c) == k
  {
    if k > 0 {
      assert s[1..][..k - 1] == s[..k][1..];
      IndexOfAt(s[1..], c, k - 1);
    }
  }

  lemma NumeralPartsOf(ip: string, fp: string)
    requires AllDigits(ip) && AllDigits(fp) && |ip| > 0
    ensures NumeralParts(ip + "." + fp) == Some((ip, fp))
  {
    var body := ip + "." + fp;
    assert body[|ip|] == '.';
    assert body[..|ip|] == ip;
    IndexOfAt(body, '.', |ip|);
    assert body[|ip| + 1..] == fp;
  }

  /** A signed numeral has no whitespace to strip. */
  lemma StripSignedNumeral(s: string, neg: bool, ip: string, fp: string)
    requires AllDigits(ip) && AllDigits(fp) && |ip| > 0 && |fp| > 0
    requires s == SignedNumeral(neg, ip, fp)
    ensures Strip(s) == s
  {
    assert !IsSpace(s[0]) && !IsSpace(s[|s| - 1]) by {
      assert IsDigit(ip[0]) && IsDigit(fp[|fp| - 1]);
      assert s[|s| - 1] == fp[|fp| - 1];
      assert s[0] == '-' || s[0] == ip[0];
    }
    StripUnpadded(s);
  }

  /** The sign and the numeral of a signed numeral. */
  lemma SignedNumeralParts(s: string, neg: bool, ip: string, fp: string)
    requires AllDigits(ip) && AllDigits(fp) && |ip| > 0
    requires s == SignedNumeral(neg, ip, fp)
    ensures HasSign(s) == neg && (neg ==> s[0] == '-')
    ensures NumeralParts(if HasSign(s) then s[1..] else s) == Some((ip, fp))
  {
    assert IsDigit(ip[0]);
    assert s[0] == '-' || s[0] == ip[0];
    assert (if neg then s[1..] else s) == ip + "." + fp;
    NumeralPartsOf(ip, fp);
  }

  /** `float` of a signed numeral with digits on both sides of its point. */
  lemma ParseDecimalParts(s: string, neg: bool, ip: string, fp: string)
    requires AllDigits(ip) && AllDigits(fp) && |ip| > 0 && |fp| > 0
    requires s == SignedNumeral(neg, ip, fp)
    ensures AllDigits(ip + fp)
    ensures ParseDecimal(s) == Ok(Decimal(neg, DigitsValue(ip + fp), |fp|))
  {
    DigitsValueAppend(ip, fp);
    StripSignedNumeral(s, neg, ip, fp);
    SignedNumeralParts(s, neg, ip, fp);
  }

  /** `float` of a plain string of digits. */
  lemma ParseDecimalWhole(s: string)
    requires AllDigits(s) && |s| > 0
    ensures ParseDecimal(s) == Ok(Decimal(false, DigitsValue(s), 0))
  {
    assert !IsSpace(s[0]) && !IsSpace(s[|s| - 1]) by {
      assert IsDigit(s[0]) && IsDigit(s[|s| - 1]);
    }
    StripUnpadded(s);
    assert !HasSign(s) by { assert IsDigit(s[0]); }
    assert '.' !in s by {
      forall i | 0 <= i < |s| ensures s[i] != '.' { assert IsDigit(s[i]); }
    }
    assert NumeralParts(s) == Some((s, ""));
    assert s + "" == s;
  }

  /** Reading back what `UnitsToString` wrote gives the same number. */
  lemma UnitsToStringParses(neg: bool, u: nat, p: nat)
    requires p >= 1
    ensures ParseDecimal(UnitsToString(neg, u, p)) == Ok(Decimal(neg, u, p))
  {
    var ip, fp := UnitsToStringParts(neg, u, p);
    ParseDecimalParts(SignedNumeral(neg, ip, fp), neg, ip, fp);
  }

  /** The integer and fraction digits `UnitsToString` writes. */
  lemma UnitsToStringParts(neg: bool, u: nat, p: nat) returns (ip: string, fp: string)
    requires p >= 1
    ensures AllDigits(ip) && AllDigits(fp) && |ip| > 0 && |fp| == p
    ensures AllDigits(ip + fp) && DigitsValue(ip + fp) == u
    ensures UnitsToString(neg, u, p) == SignedNumeral(neg, ip, fp)
  {
    var digits := ZeroPad(NatToString(u), p + 1);
    PaddedDigits(u, p + 1);
    ip, fp := PointAtParts(neg, digits, p);
  }

  lemma PointAtParts(neg: bool, digits: string, p: nat) returns (ip: string, fp: string)
    requires AllDigits(digits) && p < |digits|
    ensures AllDigits(ip) && AllDigits(fp) && |ip| > 0 && |fp| == p
    ensures ip + fp == digits
    ensures PointAt(neg, digits, p) == SignedNumeral(neg, ip, fp)
  {
    ip, fp := digits[..|digits| - p], digits[|digits| - p..];
  }

  /** `u` written with at least `w` digits. */
  lemma PaddedDigits(u: nat, w: nat)
    ensures var digits := ZeroPad(NatToString(u), w);
      |digits| >= w && AllDigits(digits) && DigitsValue(digits) == u
  {
    var n := NatToString(u);
    var digits := ZeroPad(n, w);
    assert digits == Zeros(|digits| - |n|) + n;
    ZerosValue(|digits| - |n|, n);
  }

  /** Reading back what `Render` wrote gives the number rounded to `p` places:
      `float(f"{x:.{p}f}")` is `x` rounded. */
  lemma RenderParses(d: Decimal, p: nat)
    requires p >= 1
    ensures ParseDecimal(Render(d, p)) == Ok(Decimal(d.neg, RoundedUnits(d, p), p))
  {
    UnitsToStringParses(d.neg, RoundedUnits(d, p), p);
  }

  /** Rendering never changes a number that already has at most `p` places. */
  lemma RenderExact(d: Decimal, p: nat)
    requires 1 <= p && d.scale <= p
    ensures Units(Decimal(d.neg, RoundedUnits(d, p), p), p) == Units(d, p)
  {
  }

  /** `int(x * 1000)` of a number: the thousandfold value truncated toward zero. */
  function TruncThousands(d: Decimal): int {
    var m := d.mag * 1000 / Pow10(d.scale);
    if d.neg then -m else m
  }

  /** `int(x * 1000)` is the whole number of thousandths in `x`, with the sign of
      `x` unless that number is zero. */
  lemma TruncThousandsBounds(d: Decimal)
    ensures var k := TruncThousands(d); var m := if k < 0 then -k else k;
      && m * Pow10(d.scale) <= d.mag * 1000 < m * Pow10(d.scale) + Pow10(d.scale)
      && (k < 0 ==> d.neg) && (k > 0 ==> !d.neg)
  {
    var x, y := d.mag * 1000, Pow10(d.scale);
    var q := x / y;
    DivBounds(x, y);
    var k := TruncThousands(d);
    assert k == if d.neg then -q else q;
    assert (if k < 0 then -k else k) == q;
  }

  lemma DivBounds(x: nat, y: nat)
    requires y > 0
    ensures 0 <= x / y && x / y * y <= x < x / y * y + y
  {
  }

  lemma MulAssoc(x: int, y: int, z: int)
    ensures x * (y * z) == (x * y) * z && -(x * (y * z)) == (-(x * y)) * z
  {
  }

  lemma MulDistrib(x: int, y: int, z: int)
    ensures (x + y) * z == x * z + y * z
  {
  }

  /** Units at a finer scale are the units at a coarser one, scaled up. */
  lemma UnitsRescale(d: Decimal, s: nat, t: nat)
    requires d.scale <= s <= t
    ensures Units(d, t) == Units(d, s) * Pow10(t - s)
  {
    var a, b := Pow10(s - d.scale), Pow10(t - s);
    Pow10Add(s - d.scale, t - s);
    assert Pow10(t - d.scale) == a * b by {
      assert t - d.scale == (s - d.scale) + (t - s);
    }
    MulAssoc(d.mag, a, b);
  }

  /** The sum of two numbers of at most `s` places, counted in units of 10^-s. */
  lemma AddUnits(a: Decimal, b: Decimal, s: nat)
    requires a.scale <= s && b.scale <= s
    ensures Units(Add(a, b), s) == Units(a, s) + Units(b, s)
  {
    var r := Add(a, b);
    UnitsRescale(r, r.scale, s);
    UnitsRescale(a, r.scale, s);
    UnitsRescale(b, r.scale, s);
    MulDistrib(Units(a, r.scale), Units(b, r.scale), Pow10(s - r.scale));
  }

  /** The value of `d` needs at most `p` places: any digits written beyond the
      `p`-th are zeros ("0.600000" needs five, indeed one). */
  predicate HasPlaces(d: Decimal, p: nat) {
    d.scale <= p || d.mag % Pow10(d.scale - p) == 0
  }

  lemma MulAtLeast(e: int, m: nat)
    ensures e >= 1 ==> e * m >= m
    ensures e <= -1 ==> e * m + m <= 0
  {
    if e >= 1 {
      assert e * m == (e - 1) * m + m;
    } else if e <= -1 {
      assert e * m == (e + 1) * m - m;
    }
  }

  lemma MulMod(k: nat, m: nat)
    requires m > 0
    ensures (k * m) % m == 0
  {
    var x := k * m;
    var q, r := x / m, x % m;
    DivMod(x, m);
    var e: int := k - q;
    assert e * m == r;
    MulAtLeast(e, m);
  }

  /** The magnitude of a multiple of `m` is a multiple of `m`. */
  lemma MagnitudeMultiple(v: int, k: int, m: nat)
    requires m > 0 && v == k * m
    ensures (if v < 0 then -v else v) % m == 0
  {
    var n: nat := if k < 0 then -k else k;
    assert n * m == if k < 0 then -(k * m) else k * m;
    MulMod(n, m);
  }

  /** A number needing at most `p` places is, at any scale `t` of at least `p`
      places, a whole multiple of 10^(t - p) units. */
  lemma UnitsMultiple(d: Decimal, p: nat, t: nat) returns (k: int)
    requires HasPlaces(d, p) && d.scale <= t && p <= t
    ensures Units(d, t) == k * Pow10(t - p)
  {
    if d.scale <= p {
      UnitsRescale(d, p, t);
      k := Units(d, p);
    } else {
      var step := Pow10(d.scale - p);
      var j := d.mag / step;
      DivMod(d.mag, step);
      assert d.mag == j * step;
      Pow10Add(d.scale - p, t - d.scale);
      assert t - p == (d.scale - p) + (t - d.scale);
      MulAssoc(j, step, Pow10(t - d.scale));
      k := if d.neg then -j else j;
    }
  }

  /** The sum of two numbers needing at most `p` places needs at most `p` places. */
  lemma AddPlaces(a: Decimal, b: Decimal, p: nat)
    requires HasPlaces(a, p) && HasPlaces(b, p)
    ensures HasPlaces(Add(a, b), p)
  {
    var r := Add(a, b);
    if r.scale > p {
      var m := Pow10(r.scale - p);
      var ka := UnitsMultiple(a, p, r.scale);
      var kb := UnitsMultiple(b, p, r.scale);
      var k := ka + kb;
      MulDistrib(ka, kb, m);
      var v := Units(a, r.scale) + Units(b, r.scale);
      assert r.mag == if v < 0 then -v else v;
      MagnitudeMultiple(v, k, m);
    }
  }

  /** Rounding to `p` places keeps exactly the value of a number that needs at
      most `p` places. */
  lemma RoundedExact(d: Decimal, p: nat, t: nat)
    requires 1 <= p <= t && d.scale <= t && HasPlaces(d, p)
    ensures Units(Decimal(d.neg, RoundedUnits(d, p), p), t) == Units(d, t)
  {
    var rd := Decimal(d.neg, RoundedUnits(d, p), p);
    UnitsRescale(rd, p, t);
    if d.scale <= p {
      RenderExact(d, p);
      UnitsRescale(d, p, t);
    } else {
      var step := Pow10(d.scale - p);
      var q := d.mag / step;
      DivMod(d.mag, step);
      assert RoundedUnits(d, p) == q;
      var k := UnitsMultiple(d, p, t);
      assert d.mag == q * step;
      Pow10Add(d.scale - p, t - d.scale);
      assert t - p == (d.scale - p) + (t - d.scale);
      MulAssoc(q, step, Pow10(t - d.scale));
    }
  }
}
