/** Strings: blanks, decimal numbers, and names joined with colons. */
module Text {
  /** The characters that Python's `str.strip` removes. */
  predicate IsSpace(c: char) {
    var n := c as int;
    9 <= n <= 13 || 28 <= n <= 32 || n == 0x85 || n == 0xA0 || n == 0x1680 || 0x2000 <= n <= 0x200A
    || n == 0x2028 || n == 0x2029 || n == 0x202F || n == 0x205F || n == 0x3000
  }

  predicate IsBlank(query: string) {
    forall c | c in query :: IsSpace(c)
  }

  function Digit(n: nat): char
    requires n < 10
  {
    "0123456789"[n]
  }

  function Decimal(n: nat): string {
    if n < 10 then [Digit(n)] else Decimal(n / 10) + [Digit(n % 10)]
  }

  lemma DigitFacts(m: nat, n: nat)
    requires m < 10 && n < 10
    ensures Digit(m) != ':' && (Digit(m) == Digit(n) ==> m == n)
  {
  }

  lemma {:induction false} DecimalHasNoColon(n: nat)
    ensures ':' !in Decimal(n) && Decimal(n) != ""
  {
    DigitFacts(n % 10, 0);
    if n >= 10 {
      DecimalHasNoColon(n / 10);
    }
  }

  lemma {:induction false} DecimalIsInjective(m: nat, n: nat)
    requires Decimal(m) == Decimal(n)
    ensures m == n
  {
    var s := Decimal(m);
    DigitFacts(m % 10, n % 10);
    assert s[|s| - 1] == Digit(m % 10) == Digit(n % 10);
    if m >= 10 && n >= 10 {
      assert s[..|s| - 1] == Decimal(m / 10) == Decimal(n / 10);
      DecimalIsInjective(m / 10, n / 10);
    } else {
      DecimalHasNoColon(m / 10);
      DecimalHasNoColon(n / 10);
      assert |s| == 1;
    }
  }

  function ValueOf(digits: string): int {
    if digits == "" then 0 else 10 * ValueOf(digits[..|digits| - 1]) + (digits[|digits| - 1] as int - '0' as int)
  }

  lemma DigitValue(n: nat)
    requires n < 10
    ensures '0' <= Digit(n) <= '9' && Digit(n) as int - '0' as int == n
  {
    assert Digit(n) == "0123456789"[n];
  }

  /** A printed number reads back as itself: decimal digits only, and no zero in front. */
  lemma {:induction false} DecimalReadsBack(n: nat)
    ensures ValueOf(Decimal(n)) == n && forall c | c in Decimal(n) :: '0' <= c <= '9'
    ensures n > 0 ==> Decimal(n)[0] != '0'
  {
    DigitValue(n % 10);
    if n < 10 {
      assert Decimal(n)[..0] == "";
    } else {
      DecimalReadsBack(n / 10);
      assert Decimal(n)[..|Decimal(n)| - 1] == Decimal(n / 10);
    }
  }

  lemma NoColonBehind(a: string, x: string, k: nat)
    requires ':' !in x && |a| < k < |a + ":" + x|
    ensures (a + ":" + x)[k] != ':'
  {
    assert (a + ":" + x)[k] == x[k - |a| - 1];
  }

  /** The part behind the last colon is where it is read off. */
  lemma LastColonSplits(a: string, x: string, b: string, y: string)
    requires ':' !in x && ':' !in y && a + ":" + x == b + ":" + y
    ensures a == b && x == y
  {
    var s := a + ":" + x;
    forall k | |a| < k < |s|
      ensures s[k] != ':'
    {
      NoColonBehind(a, x, k);
    }
    forall k | |b| < k < |s|
      ensures s[k] != ':'
    {
      NoColonBehind(b, y, k);
    }
    assert s[|a|] == ':' && s[|b|] == ':';
    assert a == s[..|a|] && b == s[..|b|];
    assert x == s[|a| + 1..] && y == s[|b| + 1..];
  }
}
