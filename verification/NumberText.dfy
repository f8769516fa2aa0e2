/** Decimal numbers as text. */
module NumberText {

  predicate IsDigit(c: char) {
    '0' <= c <= '9'
  }

  predicate IsSpace(c: char) {
    c == ' ' || '\t' <= c <= '\r'
  }

  function DigitValue(c: char): nat
    requires IsDigit(c)
  {
    (c - '0') as nat
  }

  /** The length of the leading run of digits. */
  function DigitRun(s: string): (n: nat)
    ensures n <= |s|
    ensures forall i :: 0 <= i < n ==> IsDigit(s[i])
  {
    if s == [] || !IsDigit(s[0]) then 0 else 1 + DigitRun(s[1..])
  }

  function Value(s: string): nat
    requires forall i :: 0 <= i < |s| ==> IsDigit(s[i])
  {
    if s == [] then 0 else 10 * Value(s[..|s| - 1]) + DigitValue(s[|s| - 1])
  }

  function SkipSpace(s: string): (r: string)
    ensures |r| <= |s| && (r == [] || !IsSpace(r[0]))
  {
    if s == [] || !IsSpace(s[0]) then s else SkipSpace(s[1..])
  }

  function HasSign(s: string): bool {
    s != [] && (s[0] == '-' || s[0] == '+')
  }

  /** The number that the leading digits spell. */
  function Leading(s: string): nat {
    Value(s[..DigitRun(s)])
  }

  function Saturated(x: int): (r: int)
    ensures -0x8000_0000_0000_0000 <= r < 0x8000_0000_0000_0000
  {
    if x < -0x8000_0000_0000_0000 then -0x8000_0000_0000_0000
    else if x >= 0x8000_0000_0000_0000 then 0x7FFF_FFFF_FFFF_FFFF
    else x
  }

  /** strtol in base ten: 0 when there is no number, saturating at 64 bits. */
  function Strtol(text: string): int {
    var s := SkipSpace(text);
    var magnitude: int := Leading(if HasSign(s) then s[1..] else s);
    Saturated(if HasSign(s) && s[0] == '-' then -magnitude else magnitude)
  }

  // ----- printing -----

  function DigitChar(d: nat): (c: char)
    requires d < 10
    ensures IsDigit(c) && DigitValue(c) == d
  {
    '0' + d as char
  }

  function NatText(n: nat): (s: string)
    ensures s != [] && forall i :: 0 <= i < |s| ==> IsDigit(s[i])
  {
    if n < 10 then [DigitChar(n)] else NatText(n / 10) + [DigitChar(n % 10)]
  }

  function IntText(x: int): string {
    if x < 0 then "-" + NatText(-x) else NatText(x)
  }

  lemma {:induction false} ValueOfNatText(n: nat)
    ensures Value(NatText(n)) == n
  {
    if n >= 10 {
      ValueOfNatText(n / 10);
      assert NatText(n)[..|NatText(n)| - 1] == NatText(n / 10);
    } else {
      assert NatText(n)[..0] == [];
    }
  }

  /** Only zero is printed with a leading zero. */
  lemma {:induction false} LeadingDigit(n: nat)
    requires n > 0
    ensures NatText(n)[0] != '0'
  {
    if n >= 10 {
      LeadingDigit(n / 10);
    } else {
      assert NatText(n) == [DigitChar(n)] && DigitValue(DigitChar(n)) == n;
    }
  }

  /** Digits appended to a number make it larger, unless the first of them is a zero. */
  lemma {:induction false} MoreDigitsMoreValue(a: string, b: string)
    requires b != [] && b[0] != '0'
    requires (forall i :: 0 <= i < |a| ==> IsDigit(a[i])) && (forall i :: 0 <= i < |b| ==> IsDigit(b[i]))
    ensures forall i :: 0 <= i < |a + b| ==> IsDigit((a + b)[i])
    ensures Value(a + b) > Value(a)
  {
    var init, last := b[..|b| - 1], b[|b| - 1];
    assert (a + b)[..|a + b| - 1] == a + init;
    if init == [] {
      assert a + init == a;
    } else {
      MoreDigitsMoreValue(a, init);
    }
  }

  /** Where the leading digits end. */
  lemma {:induction false} DigitRunOf(digits: string, rest: string)
    requires forall i :: 0 <= i < |digits| ==> IsDigit(digits[i])
    ensures DigitRun(digits + rest) == |digits| + DigitRun(rest)
  {
    if digits == [] {
      assert digits + rest == rest;
    } else {
      assert (digits + rest)[1..] == digits[1..] + rest;
      DigitRunOf(digits[1..], rest);
    }
  }

  lemma {:induction false} SkipsSpaces(spaces: string, rest: string)
    requires forall i :: 0 <= i < |spaces| ==> IsSpace(spaces[i])
    requires rest == [] || !IsSpace(rest[0])
    ensures SkipSpace(spaces + rest) == rest
  {
    if spaces == [] {
      assert spaces + rest == rest;
    } else {
      assert (spaces + rest)[1..] == spaces[1..] + rest;
      SkipsSpaces(spaces[1..], rest);
    }
  }
}
