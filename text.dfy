/** The few string operations the extension relies on. */
module Text {

  /** `s.startsWith(prefix)`. */
  predicate StartsWith(s: string, prefix: string)
  {
    |prefix| <= |s| && s[..|prefix|] == prefix
  }

  function DigitChar(d: nat): (c: char)
    requires d < 10
    ensures '0' <= c <= '9'
  {
    "0123456789"[d]
  }

  /** The decimal form of a natural number, as a template literal prints it. */
  function Decimal(n: nat): (s: string)
    ensures |s| >= 1
  {
    if n < 10 then [DigitChar(n)] else Decimal(n / 10) + [DigitChar(n % 10)]
  }

  /** Distinct numbers print differently. */
  lemma {:induction false} DecimalInjective(a: nat, b: nat)
    requires Decimal(a) == Decimal(b)
    ensures a == b
    decreases a
  {
    var sa, sb := Decimal(a), Decimal(b);
    if a < 10 && b < 10 {
      assert DigitChar(a) == sa[0] == DigitChar(b);
    } else if a < 10 || b < 10 {
      // one form has a single digit, the other at least two
      assert false;
    } else {
      assert DigitChar(a % 10) == sa[|sa| - 1] == DigitChar(b % 10);
      assert Decimal(a / 10) == sa[..|sa| - 1] == Decimal(b / 10);
      DecimalInjective(a / 10, b / 10);
    }
  }

  /** Two strings starting with different characters never share a prefix that covers it. */
  lemma PrefixesDisagree(s: string, p: string, q: string)
    requires |p| >= 1 && |q| >= 1 && p[0] != q[0]
    requires StartsWith(s, p)
    ensures !StartsWith(s, q)
  {
    assert s[0] == p[0];
  }
}
