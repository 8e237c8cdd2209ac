/**
 * Phone-number handling shared by the login page, the new-chat dialog and the
 * add-members dialog: every phone input is sanitised on change with
 * `value.replace(/\D/g, "").slice(0, 10)`, and a number is looked up under the
 * country prefix `+91`.
 */
module Phone {
  import opened Text

  const MaxDigits := 10
  const CountryPrefix := "+91"

  /** The `onChange` sanitiser: the digits of `raw`, in order, cut to at most ten. */
  function Sanitize(raw: string): (r: string)
    ensures AllDigits(r) && |r| <= MaxDigits
    ensures |r| <= |Digits(raw)| && r == Digits(raw)[..|r|]
    ensures |r| < MaxDigits ==> r == Digits(raw)
  {
    var d := Digits(raw);
    if |d| <= MaxDigits then d else d[..MaxDigits]
  }

  /** A sanitised value is a fixed point of the sanitiser: typing it again changes nothing. */
  lemma SanitizeIdempotent(raw: string)
    ensures Sanitize(Sanitize(raw)) == Sanitize(raw)
  {
    DigitsOfDigits(Sanitize(raw));
  }

  /** A field that already holds at most ten digits is left as it is. */
  lemma SanitizeKeepsShortDigitStrings(s: string)
    requires AllDigits(s) && |s| <= MaxDigits
    ensures Sanitize(s) == s
  {
    DigitsOfDigits(s);
  }

  /** `isMobileValid`, the regular expression `/^\d{10}$/`. */
  predicate IsTenDigits(s: string) { |s| == MaxDigits && AllDigits(s) }

  /** For a sanitised field, validity is a matter of length alone. */
  lemma SanitizedValidIffTenLong(raw: string)
    ensures IsTenDigits(Sanitize(raw)) <==> |Sanitize(raw)| == MaxDigits
  {
  }

  /** The sanitised field holds a valid number exactly when at least ten digits were typed. */
  lemma SanitizedValidIffTenDigitsTyped(raw: string)
    ensures IsTenDigits(Sanitize(raw)) <==> |Digits(raw)| >= MaxDigits
  {
  }

  /** `n.startsWith("+91") ? n : "+91" + n`. */
  function Normalize(n: string): (r: string)
    ensures StartsWith(r, CountryPrefix)
    ensures StartsWith(n, CountryPrefix) ==> r == n
    ensures r[|CountryPrefix|..] == if StartsWith(n, CountryPrefix) then n[|CountryPrefix|..] else n
  {
    if StartsWith(n, CountryPrefix) then n else CountryPrefix + n
  }

  /** Normalising twice is normalising once. */
  lemma NormalizeIdempotent(n: string)
    ensures Normalize(Normalize(n)) == Normalize(n)
  {
  }

  /** A sanitised field never carries the prefix itself, so it is always prefixed afresh. */
  lemma NormalizeSanitized(raw: string)
    ensures Normalize(Sanitize(raw)) == CountryPrefix + Sanitize(raw)
  {
    var s := Sanitize(raw);
    if |s| >= |CountryPrefix| {
      assert IsDigit(s[..|CountryPrefix|][0]);
    }
  }

  /** Two different sanitised fields are never looked up under the same number. */
  lemma NormalizeInjectiveOnSanitized(a: string, b: string)
    ensures Normalize(Sanitize(a)) == Normalize(Sanitize(b)) <==> Sanitize(a) == Sanitize(b)
  {
    NormalizeSanitized(a);
    NormalizeSanitized(b);
    assert Sanitize(a) == Normalize(Sanitize(a))[|CountryPrefix|..];
    assert Sanitize(b) == Normalize(Sanitize(b))[|CountryPrefix|..];
  }
}
