/**
 * Pairing codes: generateCode of packages/hub/src/pairing.ts and the shape
 * packages/protocol/src/constants.ts demands.
 */
module PairingCode {
  import opened Arithmetic

  const PREFIX := "dshp-"
  const CODE_DIGITS := 20

  /** The digit alphabet, smallest first. */
  function Base36(d: nat): (c: char)
    requires d < 36
  {
    if d < 10 then '0' + d as char else 'a' + (d - 10) as char
  }

  predicate IsBase36(c: char) {
    '0' <= c <= '9' || 'a' <= c <= 'z'
  }

  function DigitValue(c: char): (d: nat)
    requires IsBase36(c)
    ensures d < 36
  {
    if c <= '9' then c as int - '0' as int else c as int - 'a' as int + 10
  }

  predicate AllBase36(s: string) {
    forall i :: 0 <= i < |s| ==> IsBase36(s[i])
  }

  /** PAIRING_CODE_PATTERN: the prefix and exactly twenty base-36 digits. */
  predicate IsPairingCode(code: string) {
    |code| == |PREFIX| + CODE_DIGITS && code[..|PREFIX|] == PREFIX && AllBase36(code[|PREFIX|..])
  }

  function Pow36(k: nat): (p: nat)
    ensures p > 0
  {
    if k == 0 then 1 else 36 * Pow36(k - 1)
  }

  /** The number a digit string spells, most significant digit first. */
  function Value(s: string): nat
    requires AllBase36(s)
  {
    if s == "" then 0 else DigitValue(s[0]) * Pow36(|s| - 1) + Value(s[1..])
  }

  lemma {:induction false} ValueBound(s: string)
    requires AllBase36(s)
    ensures Value(s) < Pow36(|s|)
  {
    if s != "" {
      ValueBound(s[1..]);
      BelowNextPower(DigitValue(s[0]), Pow36(|s| - 1), Value(s[1..]));
    }
  }

  lemma BelowNextPower(d: nat, p: nat, low: nat)
    requires d < 36 && low < p
    ensures d * p + low < 36 * p
  {
    assert d * p <= 35 * p;
  }

  /** Different digit strings of one length spell different numbers. */
  lemma {:induction false} ValueIsInjective(s: string, t: string)
    requires AllBase36(s) && AllBase36(t) && |s| == |t| && Value(s) == Value(t)
    ensures s == t
  {
    if s != "" {
      ValueBound(s[1..]);
      ValueBound(t[1..]);
      LeadingDigit(DigitValue(s[0]), DigitValue(t[0]), Pow36(|s| - 1), Value(s[1..]), Value(t[1..]));
      ValueIsInjective(s[1..], t[1..]);
      assert s == [s[0]] + s[1..] && t == [t[0]] + t[1..];
    }
  }

  lemma LeadingDigit(a: nat, b: nat, p: nat, x: nat, y: nat)
    requires a * p + x == b * p + y && x < p && y < p
    ensures a == b && x == y
  {
    TimesIsMonotone(a + 1, b, p);
    TimesIsMonotone(b + 1, a, p);
  }

  /** One more digit in front. */
  lemma DigitInFront(d: nat, s: string)
    requires d < 36 && AllBase36(s)
    ensures AllBase36([Base36(d)] + s) && Value([Base36(d)] + s) == d * Pow36(|s|) + Value(s)
  {
    SpelledInFront(Base36(d), s, [Base36(d)] + s);
  }

  lemma SpelledInFront(c: char, s: string, t: string)
    requires IsBase36(c) && AllBase36(s) && t == [c] + s
    ensures AllBase36(t) && Value(t) == DigitValue(c) * Pow36(|s|) + Value(s)
  {
    assert t[0] == c && t[1..] == s;
  }

  /** Splitting off the lowest digit of what is left. */
  lemma Division(n: nat, v: nat, p: nat, low: nat)
    requires n == v * p + low
    ensures n == v / 36 * (36 * p) + (v % 36 * p + low)
  {
    assert v == v / 36 * 36 + v % 36;
  }

  lemma NextDigit(n: nat, v: nat, i: nat, out: string, digit: nat)
    requires |out| == i && AllBase36(out) && n == v * Pow36(i) + Value(out) && digit == v % 36
    ensures AllBase36([Base36(digit)] + out) && n == v / 36 * Pow36(i + 1) + Value([Base36(digit)] + out)
  {
    Division(n, v, Pow36(i), Value(out));
    DigitInFront(digit, out);
  }

  lemma Remainder(n: nat, v: nat, p: nat, low: nat)
    requires p > 0 && n == v * p + low && low < p
    ensures n % p == low
  {
    LeadingDigit(n / p, v, p, n % p, low);
  }

  /** The lowest `count` base-36 digits of n. */
  function LowDigits(n: nat, count: nat): (s: string)
    ensures |s| == count && AllBase36(s)
  {
    if count == 0 then "" else LowDigits(n / 36, count - 1) + [Base36(n % 36)]
  }

  function CodeOf(n: nat): string {
    PREFIX + LowDigits(n, CODE_DIGITS)
  }

  lemma {:induction false} DigitBehind(s: string, c: char)
    requires AllBase36(s) && IsBase36(c)
    ensures Value(s + [c]) == 36 * Value(s) + DigitValue(c)
  {
    if s == "" {
      assert s + [c] == [c] && [c][1..] == "";
      assert Value([c]) == DigitValue(c) * Pow36(0);
    } else {
      DigitBehind(s[1..], c);
      assert (s + [c])[1..] == s[1..] + [c];
      ShiftLeft(DigitValue(s[0]), Pow36(|s| - 1), Value(s[1..]));
    }
  }

  lemma ShiftLeft(d: nat, p: nat, low: nat)
    ensures 36 * (d * p + low) == d * (36 * p) + 36 * low
  {
  }

  lemma LowerRemainder(n: nat, p: nat)
    requires p > 0
    ensures n % (36 * p) == 36 * (n / 36 % p) + n % 36
  {
    var q := n / 36;
    assert n == q * 36 + n % 36 && q == q / p * p + q % p;
    assert q % p <= p - 1;
    ShiftLeft(q / p, p, q % p);
    Remainder(n, q / p, 36 * p, 36 * (q % p) + n % 36);
  }

  lemma {:induction false} LowDigitsSpell(n: nat, count: nat)
    ensures Value(LowDigits(n, count)) == n % Pow36(count)
  {
    if count > 0 {
      LowDigitsSpell(n / 36, count - 1);
      DigitBehind(LowDigits(n / 36, count - 1), Base36(n % 36));
      LowerRemainder(n, Pow36(count - 1));
    }
  }

  /** The loop of generateCode, which puts every further digit in front. */
  method SpellLowDigits(n: nat, count: nat) returns (out: string)
    ensures out == LowDigits(n, count)
  {
    out := "";
    var v: nat := n;
    for i := 0 to count
      invariant |out| == i && AllBase36(out)
      invariant n == v * Pow36(i) + Value(out)
    {
      var digit := v % 36;
      NextDigit(n, v, i, out, digit);
      out := [Base36(digit)] + out;
      v := v / 36;
    }
    ValueBound(out);
    Remainder(n, v, Pow36(count), Value(out));
    LowDigitsSpell(n, count);
    ValueIsInjective(out, LowDigits(n, count));
  }

  /** generateCode for a random number n. */
  method GenerateCode(n: nat) returns (code: string)
    ensures code == CodeOf(n)
  {
    var out := SpellLowDigits(n, CODE_DIGITS);
    code := PREFIX + out;
  }

  /** The pattern, spelled out: "dshp-" and twenty of the thirty-six digits. */
  lemma PatternMeans(code: string)
    ensures IsPairingCode(code) <==>
              && |code| == 25 && code[0] == 'd' && code[1] == 's' && code[2] == 'h' && code[3] == 'p' && code[4] == '-'
              && forall i :: 5 <= i < 25 ==> '0' <= code[i] <= '9' || 'a' <= code[i] <= 'z'
  {
    assert |PREFIX| == 5;
    if |code| == 25 {
      assert forall i :: 5 <= i < 25 ==> code[i] == code[5..][i - 5];
      assert forall i :: 0 <= i < 20 ==> code[5..][i] == code[i + 5];
    }
  }

  /** A generated code has the demanded shape, and spells n modulo 36^20. */
  lemma CodeMeaning(n: nat)
    ensures IsPairingCode(CodeOf(n)) && Value(CodeOf(n)[|PREFIX|..]) == n % Pow36(CODE_DIGITS)
  {
    LowDigitsSpell(n, CODE_DIGITS);
    assert CodeOf(n)[|PREFIX|..] == LowDigits(n, CODE_DIGITS) && CodeOf(n)[..|PREFIX|] == PREFIX;
  }

  /** Two random numbers give the same code exactly when they agree modulo 36^20. */
  lemma CodesCollide(m: nat, n: nat)
    ensures CodeOf(m) == CodeOf(n) <==> m % Pow36(CODE_DIGITS) == n % Pow36(CODE_DIGITS)
  {
    CodeMeaning(m);
    CodeMeaning(n);
    if m % Pow36(CODE_DIGITS) == n % Pow36(CODE_DIGITS) {
      ValueIsInjective(CodeOf(m)[|PREFIX|..], CodeOf(n)[|PREFIX|..]);
      assert CodeOf(m) == CodeOf(m)[..|PREFIX|] + CodeOf(m)[|PREFIX|..];
      assert CodeOf(n) == CodeOf(n)[..|PREFIX|] + CodeOf(n)[|PREFIX|..];
    }
  }

  const RANDOM_NUMBERS := 0x1_00000000_00000000_00000000_00
  const CODES := 13367494538843734067838845976576

  lemma {:induction false} Pow36Product(a: nat, b: nat)
    ensures Pow36(a + b) == Pow36(a) * Pow36(b)
    decreases a
  {
    if a > 0 {
      Pow36Product(a - 1, b);
      Regroup(Pow36(a - 1), Pow36(b));
    }
  }

  lemma Regroup(p: nat, q: nat)
    ensures 36 * (p * q) == 36 * p * q
  {
  }

  lemma HowManyCodes()
    ensures Pow36(CODE_DIGITS) == CODES
    ensures CODES < RANDOM_NUMBERS < 2 * CODES
  {
    Pow36Product(5, 5);
    Pow36Product(10, 10);
    assert Pow36(5) == 60466176;
  }

  /** No three of the 2^104 random numbers share a code. */
  lemma AtMostTwoNumbersPerCode(l: nat, m: nat, n: nat)
    requires l < m < n < RANDOM_NUMBERS
    ensures !(CodeOf(l) == CodeOf(m) == CodeOf(n))
  {
    HowManyCodes();
    CodesCollide(l, m);
    CodesCollide(m, n);
    if CodeOf(l) == CodeOf(m) == CodeOf(n) {
      SameRemainder(l, m, CODES);
      SameRemainder(m, n, CODES);
    }
  }

  lemma SameRemainder(a: nat, b: nat, p: nat)
    requires p > 0 && a < b && a % p == b % p
    ensures b >= a + p
  {
    assert a == a / p * p + a % p && b == b / p * p + b % p;
    MultiplesApart(a / p, b / p, p, a % p);
  }

  lemma MultiplesApart(x: nat, y: nat, p: nat, low: nat)
    requires x * p + low < y * p + low
    ensures y * p + low >= x * p + low + p
  {
    TimesIsMonotone(y, x, p);
    TimesIsMonotone(x + 1, y, p);
  }
}
