/** String facts behind the composed keys: splitting at a separator and decimal printing. */
module Text {

  /** Splitting at the first separator is unambiguous. */
  lemma {:induction false} FirstSplit(a: string, b: string, c: string, d: string, sep: char)
    requires sep !in a && sep !in c
    requires a + [sep] + b == c + [sep] + d
    ensures a == c && b == d
  {
    var whole := a + [sep] + b;
    assert whole[|a|] == sep && whole[|c|] == sep;
    assert |a| == |c|;
    assert a == whole[..|a|] && c == whole[..|c|];
    assert b == whole[|a| + 1..] && d == whole[|c| + 1..];
  }

  lemma {:induction false} SplitParts(a: string, b: string, sep: char)
    ensures var whole := a + [sep] + b;
      whole[|a|] == sep && whole[..|a|] == a && whole[|a| + 1..] == b
  {
  }

  const DIGITS := "0123456789"

  function Digit(n: nat): char
    requires n < 10
  {
    DIGITS[n]
  }

  function DigitValue(c: char): int {
    c as int - '0' as int
  }

  function DecimalNat(n: nat): (s: string)
    ensures s != "" && forall c <- s :: '0' <= c <= '9'
  {
    (if n < 10 then "" else DecimalNat(n / 10)) + [Digit(n % 10)]
  }

  /** The %d verb. */
  function Decimal(n: int): string {
    if n < 0 then "-" + DecimalNat(-n) else DecimalNat(n)
  }

  function ValueNat(s: string): int {
    if s == "" then 0 else 10 * ValueNat(s[..|s| - 1]) + DigitValue(s[|s| - 1])
  }

  function Value(s: string): int {
    if s != "" && s[0] == '-' then -ValueNat(s[1..]) else ValueNat(s)
  }

  lemma {:induction false} DecimalNatRoundTrip(n: nat)
    ensures ValueNat(DecimalNat(n)) == n
  {
    var s := DecimalNat(n);
    assert DigitValue(s[|s| - 1]) == n % 10;
    if n >= 10 {
      DecimalNatRoundTrip(n / 10);
      assert s[..|s| - 1] == DecimalNat(n / 10);
    } else {
      assert s[..|s| - 1] == "";
    }
  }

  lemma SignedValue(s: string)
    requires s != "" && forall c <- s :: '0' <= c <= '9'
    ensures Value(s) == ValueNat(s) && Value("-" + s) == -ValueNat(s)
    ensures '.' !in s && ':' !in s && '.' !in "-" + s && ':' !in "-" + s
  {
    assert s[0] in s;
    assert ("-" + s)[1..] == s;
  }

  /** Printing in decimal can be undone, so it is injective; it contains neither '.' nor ':'. */
  lemma {:induction false} DecimalRoundTrip(n: int)
    ensures Value(Decimal(n)) == n
    ensures '.' !in Decimal(n) && ':' !in Decimal(n)
  {
    var m: nat := if n < 0 then -n else n;
    DecimalNatRoundTrip(m);
    SignedValue(DecimalNat(m));
  }

  /** No sign but a minus before a negative number, and no leading zero. */
  lemma {:induction false} DecimalCanonical(n: int)
    ensures n >= 0 ==> forall c <- Decimal(n) :: '0' <= c <= '9'
    ensures n > 0 ==> Decimal(n)[0] != '0'
    ensures n == 0 ==> Decimal(n) == "0"
    ensures n < 0 ==> Decimal(n) == "-" + Decimal(-n)
  {
    if n > 0 {
      LeadingDigit(n);
    } else if n == 0 {
      assert DIGITS[0] == '0';
    }
  }

  lemma {:induction false} LeadingDigit(n: nat)
    requires n > 0
    ensures DecimalNat(n)[0] != '0'
  {
    if n >= 10 {
      LeadingDigit(n / 10);
    }
  }
}
