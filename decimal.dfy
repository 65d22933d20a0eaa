/** Decimal text of natural numbers: Python's `str(n)` for n >= 0, the matching
    `int(s)` on such text, and the `%02d` zero padding used for channel labels. */
module Decimal {
  import opened Common

  function DigitChar(d: nat): char
    requires d < 10
  {
    "0123456789"[d]
  }

  predicate IsDigit(c: char) {
    '0' <= c <= '9'
  }

  function DigitValue(c: char): nat
    requires IsDigit(c)
  {
    (c as int - '0' as int) as nat
  }

  /** `str(n)`: most significant digit first, no leading zeros. */
  function Show(n: nat): (s: string)
    ensures |s| >= 1
    ensures forall i :: 0 <= i < |s| ==> IsDigit(s[i])
    decreases n
  {
    if n < 10 then [DigitChar(n)] else Show(n / 10) + [DigitChar(n % 10)]
  }

  /** The value of a non-empty all-digit string. */
  function Value(s: string): nat
    requires |s| >= 1
    requires forall i :: 0 <= i < |s| ==> IsDigit(s[i])
    decreases |s|
  {
    if |s| == 1 then DigitValue(s[0])
    else Value(s[..|s| - 1]) * 10 + DigitValue(s[|s| - 1])
  }

  /** `int(s)` on text made only of decimal digits; anything else is `None`
      (Python would raise ValueError). */
  function Parse(s: string): (r: Option<nat>)
    ensures r.Some? <==> |s| >= 1 && forall i :: 0 <= i < |s| ==> IsDigit(s[i])
  {
    if |s| >= 1 && forall i :: 0 <= i < |s| ==> IsDigit(s[i]) then Some(Value(s)) else None
  }

  lemma DigitRoundTrip(d: nat)
    requires d < 10
    ensures IsDigit(DigitChar(d)) && DigitValue(DigitChar(d)) == d
  {
  }

  /** `int(str(n)) == n`. */
  lemma {:induction false} ParseShow(n: nat)
    ensures Parse(Show(n)) == Some(n)
    decreases n
  {
    var s := Show(n);
    if n < 10 {
      DigitRoundTrip(n);
    } else {
      ParseShow(n / 10);
      DigitRoundTrip(n % 10);
      assert s[..|s| - 1] == Show(n / 10);
      assert Value(s) == Value(Show(n / 10)) * 10 + n % 10;
    }
  }

  /** Different numbers have different decimal text, so `str` keys never collide. */
  lemma ShowInjective(a: nat, b: nat)
    ensures Show(a) == Show(b) <==> a == b
  {
    if Show(a) == Show(b) {
      ParseShow(a);
      ParseShow(b);
    }
  }

  /** Text that `str` can produce: the decimal text of the number it parses to. */
  predicate IsCanonical(s: string) {
    Parse(s).Some? && Show(Parse(s).value) == s
  }

  lemma ShowIsCanonical(n: nat)
    ensures IsCanonical(Show(n)) && Parse(Show(n)).value == n
  {
    ParseShow(n);
  }

  /** `f"{n:02d}"`: at least two digits, zero padded on the left. */
  function Pad2(n: nat): (s: string)
    ensures |s| == if n < 10 then 2 else |Show(n)|
    ensures Parse(s) == Some(n)
  {
    ParseShow(n);
    if n < 10 then
      var t := "0" + Show(n);
      DigitRoundTrip(n);
      assert t == ['0', DigitChar(n)];
      assert t[..|t| - 1] == "0";
      assert Value(t) == Value("0") * 10 + DigitValue(DigitChar(n));
      t
    else Show(n)
  }
}
