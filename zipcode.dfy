/**
 * The zip-code format check of the weather handler: the pattern
 * `^\d{5}(-\d{4})?$`, both as RE2 syntax and as a direct predicate, proved
 * to accept the same strings.
 */
module ZipCode {
  import opened Ascii
  import opened Regex

  /** The pattern `\d{5}(-\d{4})?` as syntax. */
  const ZipPattern: Re := Concat(Repeat(AsciiDigit, 5), Optional(Concat(Literal('-'), Repeat(AsciiDigit, 4))))

  /** A zip code is five ASCII digits, optionally followed by '-' and four
      more digits. Nothing is trimmed or normalised first. */
  predicate IsValidZip(s: string): (ok: bool)
    ensures ok ==> |s| == 5 || (|s| == 10 && s[5] == '-')
    ensures ok ==> forall i :: 0 <= i < |s| && i != 5 ==> IsDigit(s[i])
  {
    || (|s| == 5 && AllDigits(s))
    || (|s| == 10 && AllDigits(s[..5]) && s[5] == '-' && AllDigits(s[6..]))
  }

  /** The optional group `(-\d{4})?` matches the empty string and the five
      characters '-' followed by four digits. */
  lemma {:induction false} OptionalTailMatches(t: string)
    ensures Matches(Optional(Concat(Literal('-'), Repeat(AsciiDigit, 4))), t)
        <==> t == [] || (|t| == 5 && t[0] == '-' && AllDigits(t[1..]))
  {
    LiteralThen('-', Repeat(AsciiDigit, 4), t);
    if |t| >= 1 {
      DigitsCopies(4, t[1..]);
    }
  }

  /** The validator accepts exactly the strings the anchored pattern matches. */
  lemma {:induction false} PatternAgreesWithValidator(s: string)
    ensures Matches(ZipPattern, s) <==> IsValidZip(s)
  {
    var opt := Optional(Concat(Literal('-'), Repeat(AsciiDigit, 4)));
    DigitsThen(5, opt, s);
    if |s| >= 5 {
      OptionalTailMatches(s[5..]);
      assert AllDigits(s[..5]) <==> forall i :: 0 <= i < 5 ==> IsDigit(s[i]);
      if |s| == 10 {
        assert s[5..][1..] == s[6..];
      }
    }
  }

  /** The first five characters of an accepted string on their own form an
      accepted five-digit zip. */
  lemma ValidZipShape(s: string)
    requires IsValidZip(s)
    ensures |s[..5]| == 5 && IsValidZip(s[..5])
  {
  }

  /** Nothing is trimmed: a string that starts or ends with a non-digit, such
      as a space, never matches; in particular a trailing newline is
      rejected, because `$` without the multi-line flag matches only at the
      very end of the text. */
  lemma {:induction false} PatternRejectsSurroundingText(s: string, c: char)
    requires !IsDigit(c)
    ensures !Matches(ZipPattern, [c] + s)
    ensures !Matches(ZipPattern, s + [c])
  {
    PatternAgreesWithValidator([c] + s);
    assert ([c] + s)[0] == c;
    PatternAgreesWithValidator(s + [c]);
    assert (s + [c])[|s|] == c;
  }

  /** The rejected examples: too short, empty, a trailing newline, leading
      and trailing spaces, a letter, a short extension. */
  lemma RejectsExamples()
    ensures !IsValidZip("123") && !IsValidZip("")
    ensures !IsValidZip("12345\n") && !IsValidZip(" 12345") && !IsValidZip("12345 ")
    ensures !IsValidZip("1234a") && !IsValidZip("12345-123") && !IsValidZip("12345+1234")
  {
    assert "1234a"[4] == 'a';
    assert "12345+1234"[5] == '+';
  }

  /** The accepted examples: plain and extended zip codes. */
  lemma AcceptsExamples()
    ensures IsValidZip("10001") && IsValidZip("00000") && IsValidZip("10001-1234")
  {
  }
}
