/**
 * The fragment of RE2 regular-expression syntax that the zip-code check is
 * written in, with its matching semantics stated as language membership.
 * It serves as an independent reference against which the validator in
 * module ZipCode is proved.
 */
module Regex {
  import opened Ascii

  /** Abstract syntax of the fragment. A capturing group `( … )` only records
      a sub-match and does not change which strings match, so it has no
      constructor of its own. */
  datatype Re =
    | AsciiDigit             // `\d`: in Go's RE2 syntax exactly '0' … '9'
    | Literal(c: char)       // a literal character such as `-`
    | Concat(a: Re, b: Re)   // `ab`
    | Optional(r: Re)        // `r?`
    | Repeat(r: Re, n: nat)  // `r{n}`: exactly n copies of r

  /** `s` belongs to the language of `r`. Anchoring a pattern with `^` and `$`
      (no multi-line flag, so `$` matches only at the end of the text) makes
      RE2's MatchString true exactly when the whole text is in the language. */
  predicate Matches(r: Re, s: string)
    decreases r, 0
  {
    match r
    case AsciiDigit => |s| == 1 && IsDigit(s[0])
    case Literal(c) => s == [c]
    case Concat(a, b) => exists k :: 0 <= k <= |s| && Matches(a, s[..k]) && Matches(b, s[k..])
    case Optional(x) => s == [] || Matches(x, s)
    case Repeat(x, n) => MatchesCopies(x, n, s)
  }

  /** `s` is the concatenation of exactly `n` strings each matching `x`. */
  predicate MatchesCopies(x: Re, n: nat, s: string)
    decreases x, n + 1
  {
    if n == 0 then s == []
    else exists k :: 0 <= k <= |s| && Matches(x, s[..k]) && MatchesCopies(x, n - 1, s[k..])
  }

  /** `\d{n}` matches exactly the strings of n ASCII digits. */
  lemma {:induction false} DigitsCopies(n: nat, s: string)
    ensures MatchesCopies(AsciiDigit, n, s) <==> |s| == n && AllDigits(s)
    decreases n
  {
    if n > 0 {
      if MatchesCopies(AsciiDigit, n, s) {
        var k :| 0 <= k <= |s| && Matches(AsciiDigit, s[..k]) && MatchesCopies(AsciiDigit, n - 1, s[k..]);
        assert k == 1;
        DigitsCopies(n - 1, s[1..]);
        forall i | 0 <= i < |s| ensures IsDigit(s[i]) {
          if i > 0 {
            assert s[i] == s[1..][i - 1];
          } else {
            assert s[0] == s[..1][0];
          }
        }
      }
      if |s| == n && AllDigits(s) {
        DigitsCopies(n - 1, s[1..]);
        assert forall i :: 0 <= i < |s[1..]| ==> s[1..][i] == s[i + 1];
        assert Matches(AsciiDigit, s[..1]);
        assert MatchesCopies(AsciiDigit, n - 1, s[1..]);
      }
    }
  }

  /** A literal followed by `r` matches the strings that start with that
      character and continue with a match of `r`. */
  lemma {:induction false} LiteralThen(c: char, r: Re, s: string)
    ensures Matches(Concat(Literal(c), r), s) <==> |s| >= 1 && s[0] == c && Matches(r, s[1..])
  {
  }

  /** `\d{n}` followed by `r` matches the strings that start with n digits
      and continue with a match of `r`. */
  lemma {:induction false} DigitsThen(n: nat, r: Re, s: string)
    ensures Matches(Concat(Repeat(AsciiDigit, n), r), s)
        <==> |s| >= n && (forall i :: 0 <= i < n ==> IsDigit(s[i])) && Matches(r, s[n..])
  {
    if Matches(Concat(Repeat(AsciiDigit, n), r), s) {
      var k :| 0 <= k <= |s| && Matches(Repeat(AsciiDigit, n), s[..k]) && Matches(r, s[k..]);
      DigitsCopies(n, s[..k]);
      assert forall i :: 0 <= i < k ==> s[..k][i] == s[i];
    }
    if |s| >= n && (forall i :: 0 <= i < n ==> IsDigit(s[i])) && Matches(r, s[n..]) {
      DigitsCopies(n, s[..n]);
      assert Matches(Repeat(AsciiDigit, n), s[..n]);
    }
  }
}
