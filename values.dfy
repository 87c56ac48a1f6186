/**
 * Configuration values as the harness passes them to the diff operation, and
 * their textual form inside an f-string (`f"{value}"`): a Python `bool`
 * renders as `True` or `False`, a Python `int` as its decimal digits with a
 * leading `-` when negative.
 */
module Values {
  import opened Wrappers

  datatype Value = Bool(b: bool) | Int(i: int)

  function DigitChar(d: nat): (c: char)
    requires d < 10
    ensures '0' <= c <= '9'
  {
    ('0' as int + d) as char
  }

  function DigitValue(c: char): (d: nat)
    requires '0' <= c <= '9'
    ensures d < 10
  {
    c as int - '0' as int
  }

  predicate IsDigits(s: string) {
    forall k :: 0 <= k < |s| ==> '0' <= s[k] <= '9'
  }

  /** Decimal digits of a natural number, most significant first, as `str(n)`. */
  function Decimal(n: nat): (s: string)
    ensures |s| > 0 && IsDigits(s)
    ensures s[0] == '0' <==> n == 0
    decreases n
  {
    if n < 10 then [DigitChar(n)] else Decimal(n / 10) + [DigitChar(n % 10)]
  }

  /** The value of a string of decimal digits; the inverse of Decimal. */
  function ParseDecimal(s: string): nat
    requires IsDigits(s)
  {
    if s == "" then 0 else ParseDecimal(s[..|s| - 1]) * 10 + DigitValue(s[|s| - 1])
  }

  /** The text an f-string substitutes for a value. */
  function Render(v: Value): (r: string)
    ensures |r| > 0
    ensures v.Int? && v.i >= 0 ==> IsDigits(r)
    ensures v.Int? && v.i < 0 ==> r[0] == '-' && IsDigits(r[1..])
  {
    match v
    case Bool(b) => if b then "True" else "False"
    case Int(i) => if i < 0 then "-" + Decimal(-i) else Decimal(i)
  }

  /** Rendered values are never empty and carry neither `_` nor `=`. */
  lemma RenderHasNoSeparator(v: Value)
    ensures var r := Render(v); |r| > 0 && forall k :: 0 <= k < |r| ==> r[k] != '_' && r[k] != '='
  {
  }

  /** Reads a rendered value back: the inverse of Render. */
  function Parse(s: string): Option<Value> {
    if s == "True" then Some(Bool(true))
    else if s == "False" then Some(Bool(false))
    else if |s| > 1 && s[0] == '-' && IsDigits(s[1..]) then Some(Int(-(ParseDecimal(s[1..]) as int)))
    else if |s| > 0 && IsDigits(s) then Some(Int(ParseDecimal(s)))
    else None
  }

  lemma {:induction false} DecimalRoundTrip(n: nat)
    ensures ParseDecimal(Decimal(n)) == n
    decreases n
  {
    var s := Decimal(n);
    if n < 10 {
      assert s[..|s| - 1] == "";
    } else {
      assert s[..|s| - 1] == Decimal(n / 10);
      DecimalRoundTrip(n / 10);
      assert DigitValue(s[|s| - 1]) == n % 10;
    }
  }

  lemma NaturalRoundTrip(n: nat)
    ensures Parse(Decimal(n)) == Some(Int(n))
  {
    var d := Decimal(n);
    assert '0' <= d[0] <= '9';
    assert d[0] != 'T' && d[0] != 'F';
    DecimalRoundTrip(n);
  }

  lemma NegativeRoundTrip(n: nat)
    requires n > 0
    ensures Parse("-" + Decimal(n)) == Some(Int(-(n as int)))
  {
    var d := Decimal(n);
    var s := "-" + d;
    assert s[0] != 'T' && s[0] != 'F';
    assert s[1..] == d;
    DecimalRoundTrip(n);
  }

  lemma RenderRoundTrip(v: Value)
    ensures Parse(Render(v)) == Some(v)
  {
    match v
    case Bool(b) =>
    case Int(i) =>
      if i < 0 {
        NegativeRoundTrip(-i);
      } else {
        NaturalRoundTrip(i);
      }
  }

  /** Distinct values never render to the same text. */
  lemma RenderInjective(v1: Value, v2: Value)
    requires Render(v1) == Render(v2)
    ensures v1 == v2
  {
    RenderRoundTrip(v1);
    RenderRoundTrip(v2);
  }

  lemma DecimalTimesTen(n: nat)
    requires n > 0
    ensures Decimal(n * 10) == Decimal(n) + "0"
  {
    assert (n * 10) / 10 == n && (n * 10) % 10 == 0;
  }

  /** The decimal texts of the integer constants the benchmark scenarios pass. */
  lemma DecimalExamples()
    ensures Decimal(0) == "0" && Decimal(500) == "500" && Decimal(5000) == "5000"
    ensures Decimal(10000) == "10000" && Decimal(20000) == "20000"
    ensures Decimal(40000) == "40000" && Decimal(300000) == "300000"
  {
    assert Decimal(0) == "0" && Decimal(1) == "1" && Decimal(2) == "2";
    assert Decimal(3) == "3" && Decimal(4) == "4" && Decimal(5) == "5";
    DecimalTimesTen(5); DecimalTimesTen(50); DecimalTimesTen(500);
    DecimalTimesTen(1); DecimalTimesTen(10); DecimalTimesTen(100); DecimalTimesTen(1000);
    DecimalTimesTen(2); DecimalTimesTen(20); DecimalTimesTen(200); DecimalTimesTen(2000);
    DecimalTimesTen(4); DecimalTimesTen(40); DecimalTimesTen(400); DecimalTimesTen(4000);
    DecimalTimesTen(3); DecimalTimesTen(30); DecimalTimesTen(300); DecimalTimesTen(3000); DecimalTimesTen(30000);
  }

  /** The rendered texts of two of those constants. */
  lemma RenderExamples()
    ensures Render(Int(500)) == "500" && Render(Int(5000)) == "5000"
  {
    DecimalExamples();
  }
}
