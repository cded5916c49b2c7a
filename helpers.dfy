/**
 * The filename sanitiser: every character that is not allowed in a file
 * name becomes an underscore.
 */
module Helpers {

  /** The characters `sanitize_filename` replaces, in the order it replaces them. */
  const InvalidChars: seq<char> := ['/', '\\', ':', '*', '?', '"', '<', '>', '|']

  const Replacement: char := '_'

  /** `s.replace(c, '_')` for one character `c`. */
  function ReplaceChar(s: string, c: char): string {
    seq(|s|, i requires 0 <= i < |s| => if s[i] == c then Replacement else s[i])
  }

  /** The sanitised name, position by position. */
  function Sanitized(s: string): (r: string)
    ensures |r| == |s|
    ensures forall i :: 0 <= i < |r| ==> r[i] !in InvalidChars
  {
    seq(|s|, i requires 0 <= i < |s| => if s[i] in InvalidChars then Replacement else s[i])
  }

  /** `sanitize_filename`: one replace pass per invalid character. */
  method SanitizeFilename(filename: string) returns (sanitized: string)
    ensures |sanitized| == |filename|
    ensures forall i :: 0 <= i < |filename| ==>
      sanitized[i] == if filename[i] in InvalidChars then Replacement else filename[i]
    ensures sanitized == Sanitized(filename)
  {
    sanitized := filename;
    for k := 0 to |InvalidChars|
      invariant |sanitized| == |filename|
      invariant forall i :: 0 <= i < |filename| ==>
        sanitized[i] == if filename[i] in InvalidChars[..k] then Replacement else filename[i]
    {
      assert InvalidChars[..k + 1] == InvalidChars[..k] + [InvalidChars[k]];
      sanitized := ReplaceChar(sanitized, InvalidChars[k]);
    }
    assert InvalidChars[..|InvalidChars|] == InvalidChars;
  }

  /** Sanitising twice is sanitising once. */
  lemma SanitizedIdempotent(s: string)
    ensures Sanitized(Sanitized(s)) == Sanitized(s)
  {
    var r := Sanitized(s);
    assert forall i :: 0 <= i < |r| ==> Sanitized(r)[i] == r[i];
  }

  /** A name is left as it is exactly when it holds no invalid character. */
  lemma SanitizedUnchanged(s: string)
    ensures Sanitized(s) == s <==> forall c :: c in InvalidChars ==> c !in s
  {
    if Sanitized(s) == s {
      forall c | c in InvalidChars
        ensures c !in s
      {
        forall i | 0 <= i < |s|
          ensures s[i] != c
        {
          assert Sanitized(s)[i] == s[i];
        }
      }
    } else {
      var i :| 0 <= i < |s| && Sanitized(s)[i] != s[i];
      assert s[i] in InvalidChars;
    }
  }
}
