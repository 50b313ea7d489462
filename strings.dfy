/**
 * `strings.Split` of Go's standard library, for a one-character separator,
 * and the inverse that glues the pieces back together.
 */
module Strings {

  /** The pieces joined with `sep` between each neighbouring pair. */
  function Join(parts: seq<string>, sep: char): string
    requires |parts| >= 1
    decreases |parts|
  {
    if |parts| == 1 then parts[0] else parts[0] + [sep] + Join(parts[1..], sep)
  }

  /** The substrings of `s` between occurrences of `sep`. There is always at
      least one piece: splitting the empty string gives one empty piece. */
  function Split(s: string, sep: char): (parts: seq<string>)
    ensures |parts| >= 1
    ensures Join(parts, sep) == s
    ensures forall i :: 0 <= i < |parts| ==> sep !in parts[i]
    decreases |s|
  {
    if s == [] then [[]]
    else
      var rest := Split(s[1..], sep);
      if s[0] == sep then
        assert ([[]] + rest)[1..] == rest;
        [[]] + rest
      else
        var parts := [[s[0]] + rest[0]] + rest[1..];
        assert |rest| > 1 ==> parts[1..] == rest[1..];
        parts
  }

  /** The first piece is the longest prefix of `s` free of `sep`: it is a
      prefix, it holds no `sep`, and it stops at the first `sep` or at the end. */
  lemma SplitHead(s: string, sep: char)
    ensures var head := Split(s, sep)[0];
      && |head| <= |s| && head == s[..|head|]
      && sep !in head
      && (|head| < |s| ==> s[|head|] == sep)
  {
  }

  /** Text before the first `sep` is the first piece, whatever follows it. */
  lemma SplitFirstField(field: string, sep: char, rest: string)
    requires sep !in field
    ensures Split(field + [sep] + rest, sep)[0] == field
  {
    var s := field + [sep] + rest;
    SplitHead(s, sep);
    assert s[..|field|] == field && s[|field|] == sep;
  }
}
