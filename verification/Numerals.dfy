/**
  The decimal helpers of internal/api/router.go: itoa, and atoiDefault on 64-bit integers that wrap
  around.
*/
module Numerals {

  const MODULUS := 0x1_0000_0000_0000_0000
  const LIMIT := 0x8000_0000_0000_0000

  /** An integer as a 64-bit signed one. */
  function Wrap(x: int): (r: int)
    ensures -LIMIT <= r < LIMIT
    ensures -LIMIT <= x < LIMIT ==> r == x
  {
    (x + LIMIT) % MODULUS - LIMIT
  }

  predicate IsDigit(c: char) { '0' <= c <= '9' }

  predicate AllDigits(s: string) { forall i :: 0 <= i < |s| ==> IsDigit(s[i]) }

  function DigitOf(d: nat): (r: char)
    requires d < 10
  {
    ('0' as int + d) as char
  }

  function DigitValue(c: char): (r: nat)
    requires IsDigit(c)
  {
    c as int - '0' as int
  }

  /** The number that a string of digits writes. */
  function Value(s: string): (r: nat)
    requires AllDigits(s)
  {
    if s == "" then 0 else Value(s[..|s| - 1]) * 10 + DigitValue(s[|s| - 1])
  }

  function Numeral(n: nat): (s: string)
    ensures s != "" && AllDigits(s)
  {
    if n < 10 then [DigitOf(n)] else Numeral(n / 10) + [DigitOf(n % 10)]
  }

  /** No leading zero, but for zero itself. */
  predicate Canonical(s: string) {
    s != "" && AllDigits(s) && (|s| > 1 ==> s[0] != '0')
  }

  // ---- numerals and numbers --------------------------------------------------------------

  lemma {:induction false} ValueOfNumeral(n: nat)
    ensures Value(Numeral(n)) == n
  {
    if n < 10 {
      assert Value([DigitOf(n)][..0]) == 0;
    } else {
      ValueOfNumeral(n / 10);
      assert Numeral(n)[..|Numeral(n)| - 1] == Numeral(n / 10);
    }
  }

  lemma {:induction false} NumeralCanonical(n: nat)
    ensures Canonical(Numeral(n)) && (n > 0 ==> Numeral(n)[0] != '0')
  {
    if n >= 10 { NumeralCanonical(n / 10); }
  }

  lemma {:induction false} ValuePositive(s: string)
    requires Canonical(s) && s[0] != '0'
    ensures Value(s) > 0
  {
    if |s| > 1 {
      var front := s[..|s| - 1];
      assert front[0] == s[0];
      ValuePositive(front);
    }
  }

  /** With ValueOfNumeral: Numeral and Value are inverse between the numbers and the canonical numerals. */
  lemma {:induction false} NumeralOfValue(s: string)
    requires Canonical(s)
    ensures Numeral(Value(s)) == s
  {
    if |s| == 1 {
      assert s[..0] == "" && Value(s) == DigitValue(s[0]);
      assert s == [s[0]];
    } else {
      var front := s[..|s| - 1];
      assert front[0] == s[0];
      NumeralOfValue(front);
      ValuePositive(front);
      assert s == front + [s[|s| - 1]];
    }
  }

  lemma Injective(m: nat, n: nat)
    requires Numeral(m) == Numeral(n)
    ensures m == n
  {
    ValueOfNumeral(m);
    ValueOfNumeral(n);
  }

  lemma {:induction false} PrefixValue(s: string, k: nat)
    requires AllDigits(s) && k <= |s|
    ensures Value(s[..k]) <= Value(s)
  {
    if k < |s| {
      PrefixValue(s[..|s| - 1], k);
      assert s[..|s| - 1][..k] == s[..k];
    } else {
      assert s[..k] == s;
    }
  }

  // ---- wrapping --------------------------------------------------------------------------

  lemma WrapStep(x: int, d: int)
    ensures Wrap(Wrap(x) * 10 + d) == Wrap(x * 10 + d)
  {
    var q := (x + LIMIT) / MODULUS;
    assert Wrap(x) == x - q * MODULUS;
    ModShift(x * 10 + d + LIMIT, -q * 10);
  }

  lemma ModShift(x: int, k: int)
    ensures (x + k * MODULUS) % MODULUS == x % MODULUS
  {
    var q, q2 := x / MODULUS, (x + k * MODULUS) / MODULUS;
    var r, r2 := x % MODULUS, (x + k * MODULUS) % MODULUS;
    assert r2 - r == (k + q - q2) * MODULUS;
  }

  /**
    What atoiDefault gives: the default for anything but digits and for zero, after wrapping, and the
    wrapped value otherwise.
  */
  function Parsed(s: string, def: int): (r: int) {
    if AllDigits(s) && Wrap(Value(s)) != 0 then Wrap(Value(s)) else def
  }

  /** The loop stops at the first character that is not a digit. */
  method AtoiDefault(s: string, def: int) returns (r: int)
    ensures r == Parsed(s, def)
  {
    var n, i := 0, 0;
    while i < |s|
      invariant i <= |s| && AllDigits(s[..i])
      invariant n == Wrap(Value(s[..i]))
    {
      if s[i] < '0' || s[i] > '9' { return def; }
      assert s[..i + 1][..i] == s[..i];
      WrapStep(Value(s[..i]), DigitValue(s[i]));
      n := Wrap(n * 10 + DigitValue(s[i]));
      i := i + 1;
    }
    assert s[..i] == s;
    return if n == 0 then def else n;
  }

  /** Zero is "0", and a negative number, which the program never writes, is nothing. */
  method Itoa(n: int) returns (s: string)
    requires -LIMIT <= n < LIMIT
    ensures n >= 0 ==> s == Numeral(n)
    ensures n < 0 ==> s == ""
  {
    if n == 0 { return "0"; }
    var digits, m := "", n;
    while m > 0
      invariant n > 0 ==> 0 <= m
      invariant n > 0 && m > 0 ==> Numeral(n) == Numeral(m) + digits
      invariant n > 0 && m == 0 ==> Numeral(n) == digits
      invariant n < 0 ==> m == n && digits == ""
    {
      digits := [DigitOf(m % 10)] + digits;
      m := m / 10;
    }
    return digits;
  }

  // ---- the round trip --------------------------------------------------------------------

  /** Every positive 64-bit number survives, and no step on the way overflows. */
  lemma RoundTrip(n: nat, def: int, k: nat)
    requires 0 < n < LIMIT && k <= |Numeral(n)|
    ensures Parsed(Numeral(n), def) == n
    ensures Wrap(Value(Numeral(n)[..k])) == Value(Numeral(n)[..k])
  {
    ValueOfNumeral(n);
    PrefixValue(Numeral(n), k);
  }

  /**
    A numeral means its number to atoiDefault, whatever the default, exactly when it is positive and below
    the limit.
  */
  lemma ParsedExactly(s: string)
    requires AllDigits(s)
    ensures (forall def :: Parsed(s, def) == Value(s)) <==> 0 < Value(s) < LIMIT
  {
    if !(0 < Value(s) < LIMIT) {
      assert Parsed(s, -1) != Value(s);
    }
  }
}
