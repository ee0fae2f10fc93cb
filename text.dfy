/**
 * String helpers the app relies on through Swift's standard library:
 * decimal rendering of an `Int` in string interpolation (`"\(n)"`) and
 * `String.contains` for a substring.
 */
module Text {

  predicate IsDigit(c: char) { '0' <= c <= '9' }

  predicate AllDigits(s: string) {
    forall k | 0 <= k < |s| :: IsDigit(s[k])
  }

  /** `sub` occurs in `s` starting at index `i`. */
  predicate OccursAt(s: string, sub: string, i: int) {
    0 <= i <= |s| - |sub| && s[i..i + |sub|] == sub
  }

  /** `sub` occurs somewhere in `s`. */
  predicate Contains(s: string, sub: string) {
    exists i | 0 <= i <= |s| - |sub| :: OccursAt(s, sub, i)
  }

  function DigitChar(d: nat): (c: char)
    requires d < 10
    ensures IsDigit(c) && c as int - '0' as int == d
  {
    ('0' as int + d) as char
  }

  /** Decimal digits of `n`, most significant first, without leading zeros. */
  function NatDecimal(n: nat): (r: string)
    ensures 1 <= |r| && AllDigits(r)
    ensures |r| > 1 ==> r[0] != '0'
    decreases n
  {
    if n < 10 then [DigitChar(n)] else NatDecimal(n / 10) + [DigitChar(n % 10)]
  }

  /** Swift's rendering of an `Int` in string interpolation. */
  function IntDecimal(i: int): (r: string)
    ensures 1 <= |r|
    ensures (r[0] == '-') <==> i < 0
  {
    if i < 0 then "-" + NatDecimal(-i) else NatDecimal(i)
  }

  /** The value of a string of decimal digits; the partner of NatDecimal. */
  function DigitsValue(s: string): nat
    requires AllDigits(s)
  {
    if s == [] then 0
    else DigitsValue(s[..|s| - 1]) * 10 + (s[|s| - 1] as int - '0' as int)
  }

  /** Reading an interpolated integer back: a leading '-' negates. */
  function IntValue(s: string): int
    requires 1 <= |s|
    requires s[0] == '-' ==> AllDigits(s[1..])
    requires s[0] != '-' ==> AllDigits(s)
  {
    if s[0] == '-' then -(DigitsValue(s[1..]) as int) else DigitsValue(s)
  }

  lemma {:induction false} DigitsValueOfNatDecimal(n: nat)
    ensures DigitsValue(NatDecimal(n)) == n
    decreases n
  {
    if n >= 10 {
      var r := NatDecimal(n);
      assert r[..|r| - 1] == NatDecimal(n / 10);
      DigitsValueOfNatDecimal(n / 10);
    }
  }

  lemma IntValueOfIntDecimal(i: int)
    ensures IntDecimal(i)[0] == '-' ==> AllDigits(IntDecimal(i)[1..])
    ensures IntDecimal(i)[0] != '-' ==> AllDigits(IntDecimal(i))
    ensures IntValue(IntDecimal(i)) == i
  {
    if i < 0 {
      assert IntDecimal(i)[1..] == NatDecimal(-i);
      DigitsValueOfNatDecimal(-i);
    } else {
      DigitsValueOfNatDecimal(i);
    }
  }

  /** Different integers are rendered differently. */
  lemma IntDecimalInjective(a: int, b: int)
    ensures IntDecimal(a) == IntDecimal(b) ==> a == b
  {
    IntValueOfIntDecimal(a);
    IntValueOfIntDecimal(b);
  }

  /**
   * A prefix that holds no copy of the first character of `sub` cannot
   * contribute to an occurrence of `sub`.
   */
  lemma ContainsAfterPrefix(prefix: string, s: string, sub: string)
    requires 1 <= |sub|
    requires forall k | 0 <= k < |prefix| :: prefix[k] != sub[0]
    ensures Contains(prefix + s, sub) <==> Contains(s, sub)
  {
    var t := prefix + s;
    if Contains(t, sub) {
      var i :| 0 <= i <= |t| - |sub| && OccursAt(t, sub, i);
      assert t[i] == sub[0];
      assert i >= |prefix|;
      assert s[i - |prefix|..i - |prefix| + |sub|] == t[i..i + |sub|];
      assert OccursAt(s, sub, i - |prefix|);
    }
    if Contains(s, sub) {
      var i :| 0 <= i <= |s| - |sub| && OccursAt(s, sub, i);
      assert t[i + |prefix|..i + |prefix| + |sub|] == s[i..i + |sub|];
      assert OccursAt(t, sub, i + |prefix|);
    }
  }

  /** No occurrence of `sub` when its first character does not occur at all. */
  lemma NotContainsWithoutFirstChar(s: string, sub: string)
    requires 1 <= |sub|
    requires forall k | 0 <= k < |s| :: s[k] != sub[0]
    ensures !Contains(s, sub)
  {
    forall i | 0 <= i <= |s| - |sub|
      ensures !OccursAt(s, sub, i)
    {
      assert s[i..i + |sub|][0] == s[i];
    }
  }
}
