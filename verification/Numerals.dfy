/**
 * Number literals of JSON text (section 6 of RFC 8259). Integers are read as numbers; a literal with a fraction
 * or an exponent is carried by its text, the shortest one the serialiser writes for its number.
 */
module Numerals {
  import opened Prelude
  import opened Decimal

  predicate NumberChar(c: char) { IsDigit(c) || c == '+' || c == '-' || c == '.' || c == 'e' || c == 'E' }

  predicate AllNumberChars(s: string) { forall i :: 0 <= i < |s| ==> NumberChar(s[i]) }

  /** How many leading characters of s can belong to a number. */
  function NumberRun(s: string): (k: nat)
    ensures k <= |s|
  {
    if s == [] || !NumberChar(s[0]) then 0 else 1 + NumberRun(s[1..])
  }

  lemma {:induction false} NumberRunOf(t: string, rest: string)
    requires AllNumberChars(t)
    requires rest != [] ==> !NumberChar(rest[0])
    ensures NumberRun(t + rest) == |t|
  {
    if t == [] {
      assert t + rest == rest;
    } else {
      assert (t + rest)[1..] == t[1..] + rest;
      NumberRunOf(t[1..], rest);
    }
  }

  function NatOf(t: string): Option<nat> {
    if t == "" || DigitRun(t) != |t| || (|t| > 1 && t[0] == '0') then None
    else
      assert t[..|t|] == t;
      Some(Value(t))
  }

  function IntOf(t: string): Option<int> {
    if t != "" && t[0] == '-' then
      match NatOf(t[1..])
      case None => None
      case Some(n) => Some(0 - n)
    else
      match NatOf(t)
      case None => None
      case Some(n) => Some(n)
  }

  predicate IsDigits(s: string) { s != "" && DigitRun(s) == |s| }

  predicate IsExponent(s: string) {
    |s| >= 2 && (s[0] == 'e' || s[0] == 'E') && IsDigits(if s[1] == '+' || s[1] == '-' then s[2..] else s[1..])
  }

  /** What follows the integer part: a fraction, an exponent, or both. */
  predicate IsTail(s: string) {
    s != "" &&
    if s[0] == '.' then
      var k := DigitRun(s[1..]);
      k > 0 && (s[1 + k..] == "" || IsExponent(s[1 + k..]))
    else IsExponent(s)
  }

  predicate IsUnsigned(s: string) {
    var k := DigitRun(s);
    k > 0 && !(k > 1 && s[0] == '0') && IsTail(s[k..])
  }

  predicate IsLiteral(s: string) {
    AllNumberChars(s) && s != "" && IsUnsigned(if s[0] == '-' then s[1..] else s)
  }

  lemma OneHundredth()
    ensures IsLiteral("0.01")
  {
    var s := "0.01";
    assert s[1..] == ".01" && s[1..][1..] == "01" && "01"[1..] == "1" && "1"[1..] == "";
    assert DigitRun("1") == 1 && DigitRun("01") == 2;
    assert DigitRun(".01") == 0 && DigitRun(s) == 1;
  }

  lemma OneDigit(c: char)
    ensures IsDigits([c]) <==> IsDigit(c)
    ensures !IsDigits("")
  {
    assert [c][1..] == "";
  }

  /** An exponent is e or E, a sign if any, and digits. */
  lemma Exponents(e: char, sign: char, d: char)
    requires IsDigit(d) && (sign == '+' || sign == '-')
    ensures IsExponent([e, d]) <==> e == 'e' || e == 'E'
    ensures IsExponent([e, sign, d]) <==> e == 'e' || e == 'E'
    ensures !IsExponent([e, sign]) && !IsExponent([e])
  {
    OneDigit(d);
    OneDigit(sign);
    assert [e, d][1..] == [d] && [e, sign, d][2..] == [d] && [e, sign][2..] == "";
  }

  /** Digits and a sign mixed up are no exponent, nor is a fraction without digits. */
  lemma NoExponents(d: char)
    requires IsDigit(d)
    ensures !IsExponent(['e', d, '+']) && !IsTail(".") && !IsTail("")
    ensures IsTail(['.', d]) && IsTail(['.', d, 'e', d]) && !IsTail(['.', d, d, 'e'])
  {
    assert ['e', d, '+'][1..] == [d, '+'] && [d, '+'][1..] == "+";
    assert DigitRun("+") == 0 && DigitRun([d, '+']) == 1;
    assert "."[1..] == "" && ['.', d][1..] == [d] && [d][1..] == "";
    OneDigit(d);
    assert ['.', d, 'e', d][1..] == [d, 'e', d] && [d, 'e', d][1..] == ['e', d];
    assert DigitRun(['e', d]) == 0 && DigitRun([d, 'e', d]) == 1;
    Exponents('e', '+', d);
    assert ['.', d, d, 'e'][1..] == [d, d, 'e'] && [d, d, 'e'][1..] == [d, 'e'] && [d, 'e'][1..] == "e";
    assert DigitRun("e") == 0 && DigitRun([d, 'e']) == 1 && DigitRun([d, d, 'e']) == 2;
    assert [d, d, 'e'][2..] == "e";
  }

  /** A minus sign may stand in front; a leading zero must stand alone. */
  lemma Decimals(c: char, d: char)
    requires IsDigit(c) && c != '0' && IsDigit(d)
    ensures IsLiteral([c, d, '.', d]) && IsLiteral(['-', c, '.', d]) && !IsLiteral(['0', d, '.', d])
  {
    NoExponents(d);
    OneDigit(d);
    assert ['.', d][0] == '.';
    forall x: char | IsDigit(x) ensures DigitRun([x, d, '.', d]) == 2 && [x, d, '.', d][2..] == ['.', d] {
      DigitRunOf([x, d], ['.', d]);
      assert [x, d] + ['.', d] == [x, d, '.', d];
    }
    DigitRunOf([c], ['.', d]);
    assert [c] + ['.', d] == [c, '.', d] && [c, '.', d][1..] == ['.', d];
    assert ['-', c, '.', d][1..] == [c, '.', d];
  }

  type Literal = s: string | IsLiteral(s) witness (OneHundredth(); "0.01")

  lemma LiteralStarts(s: string)
    requires IsLiteral(s)
    ensures IntOf(s) == None && (s[0] == '-' || IsDigit(s[0]))
  {
  }

  lemma IntegerRead(n: nat)
    ensures NatOf(Text(n)) == Some(n) && AllNumberChars(Text(n))
  {
    DigitRunOf(Text(n), "");
    assert Text(n) + "" == Text(n);
    ValueOfText(n);
  }
}
