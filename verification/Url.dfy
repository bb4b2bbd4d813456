/** Normalisation of the URL the user types: a missing scheme defaults to
    https, and an input that already names http or https is kept as typed. */
module Url {

  const HttpPrefix: string := "http://"
  const HttpsPrefix: string := "https://"

  /** ASCII lower-casing. A case-insensitive regular expression without the
      unicode flag never lets a non-ASCII character match an ASCII one, so
      only A-Z are folded. */
  function Lower(c: char): (d: char)
    ensures 'A' <= c <= 'Z' ==> d as int == c as int + 32
    ensures !('A' <= c <= 'Z') ==> d == c
  {
    if 'A' <= c <= 'Z' then (c as int + 32) as char else c
  }

  /** A lower-case ASCII letter is matched, ignoring case, by itself and by
      its capital only: no other character, ASCII or not, folds onto it. */
  lemma LowerMatchesLetter(c: char, l: char)
    requires 'a' <= l <= 'z'
    ensures Lower(c) == l <==> c == l || c as int == l as int - 32
  {
  }

  /** `s` begins with `p`, comparing letters without regard to case. */
  predicate StartsWithIgnoringCase(s: string, p: string)
  {
    |p| <= |s| && forall i :: 0 <= i < |p| ==> Lower(s[i]) == Lower(p[i])
  }

  /** The test `/^https?:\/\//i`, written out character by character. */
  predicate HasScheme(s: string)
  {
    && |s| >= 7
    && Lower(s[0]) == 'h' && Lower(s[1]) == 't' && Lower(s[2]) == 't' && Lower(s[3]) == 'p'
    && ((s[4] == ':' && s[5] == '/' && s[6] == '/')
        || (|s| >= 8 && Lower(s[4]) == 's' && s[5] == ':' && s[6] == '/' && s[7] == '/'))
  }

  /** The character-by-character test agrees with its reading as "starts
      with http:// or https://, ignoring case". */
  lemma HasSchemeMeansPrefix(s: string)
    ensures HasScheme(s) <==> StartsWithIgnoringCase(s, HttpPrefix) || StartsWithIgnoringCase(s, HttpsPrefix)
  {
  }

  /** The URL as stored: the input itself when it already starts with an
      http or https scheme in any letter case, else the input behind
      `https://`. */
  function Format(s: string): (r: string)
    ensures HasScheme(r)
    ensures HasScheme(s) ==> r == s
    ensures !HasScheme(s) ==> r == HttpsPrefix + s
  {
    if HasScheme(s) then s else HttpsPrefix + s
  }

  /** The input always survives formatting as the tail of the result, and a
      prefix is only ever added, never changed. */
  lemma FormatKeepsInput(s: string)
    ensures |Format(s)| >= |s|
    ensures Format(s)[|Format(s)| - |s|..] == s
    ensures Format(s)[..|Format(s)| - |s|] == if HasScheme(s) then "" else HttpsPrefix
  {
  }

  /** Formatting is idempotent. */
  lemma FormatIdempotent(s: string)
    ensures Format(Format(s)) == Format(s)
  {
  }

  /** Mixed-case schemes are left as typed; a bare host gains the https
      scheme; a scheme without its slashes is not recognised. */
  lemma FormatExamples()
    ensures Format("HtTpS://example.com") == "HtTpS://example.com"
    ensures Format("http://a") == "http://a"
    ensures Format("google.com") == "https://google.com"
    ensures Format("http:example.com") == "https://http:example.com"
    ensures Format("ftp://x") == "https://ftp://x"
  {
    assert HasScheme("HtTpS://example.com");
    assert !HasScheme("http:example.com");
  }
}
