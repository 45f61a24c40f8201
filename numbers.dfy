/** Numeric fields of an atlas line. The importer reads each with
    `int(float(field))`: the decimal text is read as a number and the
    fraction is cut off, toward zero. The model reads the decimal exactly
    (`[+|-]digits[.digits]`, at least one digit) instead of as a double. */
module Numbers {
  import opened Wrappers

  predicate IsDigit(c: char) { '0' <= c <= '9' }

  predicate AllDigits(s: string) { forall i :: 0 <= i < |s| ==> IsDigit(s[i]) }

  function DigitValue(c: char): (d: nat)
    requires IsDigit(c)
    ensures d < 10
  {
    c as int - '0' as int
  }

  /** The whole number written by a digit string, most significant digit first. */
  function NatValue(ds: string): nat
    requires AllDigits(ds)
    decreases |ds|
  {
    if ds == [] then 0
    else NatValue(ds[..|ds| - 1]) * 10 + DigitValue(ds[|ds| - 1])
  }

  /** The value of the digits after a decimal point: "25" is 0.25. */
  function FracValue(ds: string): real
    requires AllDigits(ds)
    decreases |ds|
  {
    if ds == [] then 0.0
    else (DigitValue(ds[0]) as real + FracValue(ds[1..])) / 10.0
  }

  lemma {:induction false} FracBelowOne(ds: string)
    requires AllDigits(ds)
    ensures 0.0 <= FracValue(ds) < 1.0
    decreases |ds|
  {
    if ds != [] {
      FracBelowOne(ds[1..]);
      assert DigitValue(ds[0]) as real <= 9.0;
    }
  }

  /** A decimal numeral as written: sign, digits before and after the point. */
  datatype Decimal = Decimal(negative: bool, whole: string, fraction: string)

  predicate WellFormed(d: Decimal) {
    AllDigits(d.whole) && AllDigits(d.fraction) && |d.whole| + |d.fraction| > 0
  }

  /** The exact number a well-formed numeral denotes. */
  function Value(d: Decimal): real
    requires WellFormed(d)
  {
    var magnitude := NatValue(d.whole) as real + FracValue(d.fraction);
    if d.negative then -magnitude else magnitude
  }

  /** `int(...)` of the numeral: its whole part with its sign. */
  function Truncate(d: Decimal): int
    requires WellFormed(d)
  {
    var n: int := NatValue(d.whole);
    if d.negative then -n else n
  }

  /** Truncation toward zero of a real, written with `Floor`. */
  function TruncateReal(v: real): int {
    if v >= 0.0 then v.Floor else -((-v).Floor)
  }

  /** The whole part is the numeral's value truncated toward zero. */
  lemma TruncateTowardZero(d: Decimal)
    requires WellFormed(d)
    ensures Truncate(d) == TruncateReal(Value(d))
    ensures Value(d) >= 0.0 ==> Truncate(d) as real <= Value(d) < Truncate(d) as real + 1.0
    ensures Value(d) < 0.0 ==> Truncate(d) as real - 1.0 < Value(d) <= Truncate(d) as real
  {
    FracBelowOne(d.fraction);
    var n := NatValue(d.whole);
    var m := n as real + FracValue(d.fraction);
    assert m.Floor == n;
  }

  /** Number of leading digits of `s`. */
  function DigitRun(s: string): (k: nat)
    ensures k <= |s|
    ensures AllDigits(s[..k])
    ensures k < |s| ==> !IsDigit(s[k])
    decreases |s|
  {
    if s != [] && IsDigit(s[0]) then
      var k := 1 + DigitRun(s[1..]);
      assert s[..k] == [s[0]] + s[1..][..k - 1];
      k
    else 0
  }

  /** Reads `[+|-]digits[.digits]`; anything else is refused. */
  function ParseDecimal(s: string): (r: Option<Decimal>)
    ensures r.Some? ==> WellFormed(r.value)
  {
    var negative := |s| > 0 && s[0] == '-';
    var body := if |s| > 0 && (s[0] == '-' || s[0] == '+') then s[1..] else s;
    var k := DigitRun(body);
    var whole := body[..k];
    var rest := body[k..];
    if rest == [] then
      (if k > 0 then Some(Decimal(negative, whole, "")) else None)
    else if rest[0] == '.' && AllDigits(rest[1..]) && k + |rest| - 1 > 0 then
      Some(Decimal(negative, whole, rest[1..]))
    else None
  }

  /** `int(float(field))`. */
  function ParseTruncated(s: string): Option<int> {
    match ParseDecimal(s)
    case None => None
    case Some(d) => Some(Truncate(d))
  }

  /** The text a numeral is written as: a sign only when negative, the point
      only when there are fraction digits. */
  function Render(d: Decimal): string {
    (if d.negative then "-" else "") + d.whole + (if d.fraction == [] then "" else "." + d.fraction)
  }

  lemma DigitRunOf(ds: string, t: string)
    requires AllDigits(ds)
    requires t == [] || !IsDigit(t[0])
    ensures DigitRun(ds + t) == |ds|
    decreases |ds|
  {
    if ds != [] {
      assert (ds + t)[1..] == ds[1..] + t;
      DigitRunOf(ds[1..], t);
    }
  }

  /** Reading back a written numeral gives the same numeral. */
  lemma ParseRender(d: Decimal)
    requires WellFormed(d)
    ensures ParseDecimal(Render(d)) == Some(d)
  {
    var s := Render(d);
    var tail := if d.fraction == [] then "" else "." + d.fraction;
    var body := d.whole + tail;
    assert s == (if d.negative then "-" else "") + body;
    DigitRunOf(d.whole, tail);
    var stripped := if |s| > 0 && (s[0] == '-' || s[0] == '+') then s[1..] else s;
    if d.negative {
      assert s[1..] == body;
    } else if |s| > 0 {
      assert s[0] != '-' && s[0] != '+' by {
        if |d.whole| > 0 { assert s[0] == d.whole[0]; } else { assert s[0] == '.'; }
      }
    }
    assert stripped == body;
    assert body[..|d.whole|] == d.whole;
    assert body[|d.whole|..] == tail;
    if d.fraction != [] {
      assert tail[0] == '.' && tail[1..] == d.fraction;
    }
  }

  /** Decimal digits of a natural number, most significant first ("0" for zero). */
  function NatDigits(n: nat): (ds: string)
    ensures AllDigits(ds) && |ds| > 0
    ensures NatValue(ds) == n
    decreases n
  {
    var last := ['0' + (n % 10) as char];
    if n < 10 then last
    else
      var ds := NatDigits(n / 10) + last;
      assert ds[..|ds| - 1] == NatDigits(n / 10);
      ds
  }

  /** How a whole number is written in an atlas file. */
  function IntText(n: int): string {
    Render(Decimal(n < 0, NatDigits(if n < 0 then -n else n), ""))
  }

  /** Reading a written whole number with `int(float(...))` gives it back. */
  lemma ParseIntText(n: int)
    ensures ParseTruncated(IntText(n)) == Some(n)
  {
    var d := Decimal(n < 0, NatDigits(if n < 0 then -n else n), "");
    ParseRender(d);
  }
}
