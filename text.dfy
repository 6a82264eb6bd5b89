/** The string tests the controllers apply to their input, and `int.ToString()`. */
module Text {
  import opened Wrappers

  /** `string.IsNullOrEmpty`. */
  predicate IsNullOrEmpty(s: Option<string>) {
    s.None? || s.value == ""
  }

  /**
   * `char.IsWhiteSpace`: the characters of the Unicode categories Zs, Zl and
   * Zp, the controls U+0009 to U+000D, U+0085 and U+00A0.
   */
  predicate IsWhiteSpace(c: char) {
    || ('\U{9}' <= c <= '\U{D}')
    || c == '\U{20}' || c == '\U{85}' || c == '\U{A0}' || c == '\U{1680}'
    || ('\U{2000}' <= c <= '\U{200A}')
    || c == '\U{2028}' || c == '\U{2029}' || c == '\U{202F}' || c == '\U{205F}' || c == '\U{3000}'
  }

  /** `string.IsNullOrWhiteSpace`. */
  predicate IsNullOrWhiteSpace(s: Option<string>) {
    s.None? || forall i | 0 <= i < |s.value| :: IsWhiteSpace(s.value[i])
  }

  /** Every empty string is also null-or-whitespace. */
  lemma EmptyIsWhiteSpace(s: Option<string>)
    requires IsNullOrEmpty(s)
    ensures IsNullOrWhiteSpace(s)
  {
  }

  // ------------------------------------------------------- int.ToString()

  function DigitChar(d: nat): (c: char)
    requires d < 10
    ensures '0' <= c <= '9'
  {
    "0123456789"[d]
  }

  /** The decimal digits of `n`, most significant first, without leading zeros. */
  function NatToString(n: nat): (s: string)
    ensures 1 <= |s|
    ensures forall i | 0 <= i < |s| :: '0' <= s[i] <= '9'
    ensures n < 10 <==> |s| == 1
    decreases n
  {
    if n < 10 then [DigitChar(n)] else NatToString(n / 10) + [DigitChar(n % 10)]
  }

  /**
   * `int.ToString()`: a sign, then the decimal digits. The call runs in the
   * current culture; the model takes its negative sign to be '-'.
   */
  function IdToString(n: int): string {
    if n < 0 then "-" + NatToString(-n) else NatToString(n)
  }

  lemma DigitCharInjective(a: nat, b: nat)
    requires a < 10 && b < 10 && DigitChar(a) == DigitChar(b)
    ensures a == b
  {
  }

  lemma {:induction false} NatToStringInjective(a: nat, b: nat)
    requires NatToString(a) == NatToString(b)
    ensures a == b
    decreases a
  {
    var s := NatToString(a);
    if a < 10 && b < 10 {
      DigitCharInjective(a, b);
    } else if a >= 10 && b >= 10 {
      var sa, sb := NatToString(a / 10), NatToString(b / 10);
      assert s == sa + [DigitChar(a % 10)] == sb + [DigitChar(b % 10)];
      assert |sa| == |sb|;
      assert s[|s| - 1] == DigitChar(a % 10) == DigitChar(b % 10);
      DigitCharInjective(a % 10, b % 10);
      assert sa == s[..|s| - 1] == sb;
      NatToStringInjective(a / 10, b / 10);
    }
  }

  /** A negative id never prints like a non-negative one. */
  lemma SignedNeverUnsigned(a: int, b: nat)
    requires a < 0
    ensures IdToString(a) != NatToString(b)
  {
    assert IdToString(a)[0] == '-';
  }

  /**
   * Distinct identifiers give distinct presence keys: two ids collide in the
   * registry exactly when they are the same number, whatever table they
   * come from.
   */
  lemma IdToStringInjective(a: int, b: int)
    ensures IdToString(a) == IdToString(b) <==> a == b
  {
    if a < 0 && b >= 0 {
      SignedNeverUnsigned(a, b);
    } else if b < 0 && a >= 0 {
      SignedNeverUnsigned(b, a);
    } else if a < 0 {
      NegativeIdsInjective(a, b);
    } else if IdToString(a) == IdToString(b) {
      NatToStringInjective(a, b);
    }
  }

  lemma NegativeIdsInjective(a: int, b: int)
    requires a < 0 && b < 0
    ensures IdToString(a) == IdToString(b) ==> a == b
  {
    var na: nat, nb: nat := -a, -b;
    if IdToString(a) == IdToString(b) {
      SignStripped(NatToString(na));
      SignStripped(NatToString(nb));
      NatToStringInjective(na, nb);
    }
  }

  lemma SignStripped(s: string)
    ensures ("-" + s)[1..] == s
  {
  }
}
