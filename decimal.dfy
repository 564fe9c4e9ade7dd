/**
 * Base-10 rendering of integers, as `std::ostream << n` does for the event's
 * numeric fields: no padding, no grouping, a leading '-' for negative values.
 * `ParseNat`/`ParseInt` are the inverse, used to state what the rendering means.
 */
module Decimal {

  predicate IsDigit(c: char) {
    '0' <= c <= '9'
  }

  function DigitChar(d: nat): (c: char)
    requires d < 10
    ensures IsDigit(c) && (c as int) - ('0' as int) == d
  {
    (('0' as int) + d) as char
  }

  function DigitValue(c: char): (d: nat)
    requires IsDigit(c)
    ensures d < 10 && DigitChar(d) == c
  {
    (c as int) - ('0' as int)
  }

  /** Most significant digit first. */
  function NatToString(n: nat): (s: string)
    ensures |s| >= 1
    ensures forall k :: 0 <= k < |s| ==> IsDigit(s[k])
    ensures s[0] == '0' ==> n == 0 && |s| == 1
    decreases n
  {
    if n < 10 then [DigitChar(n)] else NatToString(n / 10) + [DigitChar(n % 10)]
  }

  function IntToString(x: int): (s: string)
    ensures |s| >= 1
    ensures s[0] == '-' <==> x < 0
  {
    if x < 0 then "-" + NatToString(-x) else NatToString(x)
  }

  function ParseNat(s: string): nat
    requires forall k :: 0 <= k < |s| ==> IsDigit(s[k])
  {
    if s == [] then 0 else ParseNat(s[..|s| - 1]) * 10 + DigitValue(s[|s| - 1])
  }

  function ParseInt(s: string): int
    requires s != []
    requires forall k :: 1 <= k < |s| ==> IsDigit(s[k])
    requires s[0] == '-' || IsDigit(s[0])
  {
    if s[0] == '-' then -(ParseNat(s[1..]) as int) else ParseNat(s)
  }

  /** Rendering a natural number loses nothing: parsing the digits gives it back. */
  lemma {:induction false} ParseNatToString(n: nat)
    ensures ParseNat(NatToString(n)) == n
    decreases n
  {
    var s := NatToString(n);
    if n >= 10 {
      ParseNatToString(n / 10);
      assert s[..|s| - 1] == NatToString(n / 10);
    }
  }

  /** Rendering a signed integer loses nothing either. */
  lemma ParseIntToString(x: int)
    ensures var s := IntToString(x);
      (forall k :: 1 <= k < |s| ==> IsDigit(s[k])) && (s[0] == '-' || IsDigit(s[0])) &&
      ParseInt(s) == x
  {
    var s := IntToString(x);
    if x < 0 {
      ParseNatToString(-x);
      assert s[1..] == NatToString(-x);
    } else {
      ParseNatToString(x);
    }
  }

  /** Distinct numbers render differently. */
  lemma NatToStringInjective(a: nat, b: nat)
    requires NatToString(a) == NatToString(b)
    ensures a == b
  {
    ParseNatToString(a);
    ParseNatToString(b);
  }
}
