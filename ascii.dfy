/** The optional value returned by lookups that may find nothing. */
module Wrappers {
  datatype Option<+T> = None | Some(value: T)
}

/**
  ASCII upper-casing of ticker symbols. The service normalises every ticker
  with `str.upper()` before it stores or looks up an analysis; this model
  restricts that to the ASCII letters 'a'..'z'.
*/
module Ascii {

  predicate IsLower(c: char) {
    'a' <= c <= 'z'
  }

  /** The upper-case form of one character: only 'a'..'z' change. */
  function UpperChar(c: char): (u: char)
    ensures !IsLower(u)
    ensures IsLower(c) ==> u as int == c as int - 32
    ensures !IsLower(c) ==> u == c
  {
    if IsLower(c) then (c as int - 32) as char else c
  }

  /** No character of `s` is a lower-case ASCII letter. */
  predicate NoLower(s: string) {
    forall i :: 0 <= i < |s| ==> !IsLower(s[i])
  }

  /** `str.upper()` restricted to ASCII: each character upper-cased in place. */
  function ToUpper(s: string): (r: string)
    ensures |r| == |s|
    ensures forall i :: 0 <= i < |s| ==> r[i] == UpperChar(s[i])
  {
    if s == [] then [] else [UpperChar(s[0])] + ToUpper(s[1..])
  }

  /** Upper-casing leaves no lower-case letter behind. */
  lemma UpperHasNoLower(s: string)
    ensures NoLower(ToUpper(s))
  {
  }

  /** A string is its own upper-case form exactly when it has no lower-case letter. */
  lemma UpperFixedPoint(s: string)
    ensures ToUpper(s) == s <==> NoLower(s)
  {
  }

  /**
    Upper-casing twice is upper-casing once, so the key that the export
    handler computes from a stored key is that same key.
  */
  lemma UpperIdempotent(s: string)
    ensures ToUpper(ToUpper(s)) == ToUpper(s)
  {
  }

  /** Two tickers share a key exactly when they agree letter by letter up to ASCII case. */
  lemma SameKeyIffEqualIgnoringCase(s: string, t: string)
    ensures ToUpper(s) == ToUpper(t) <==>
              |s| == |t| && forall i :: 0 <= i < |s| ==> UpperChar(s[i]) == UpperChar(t[i])
  {
  }
}
