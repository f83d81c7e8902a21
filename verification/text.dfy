/** Character and string helpers shared by the browser components and the API
    server: the optional-value type, ASCII upper-casing (the only case mapping
    modelled), the two whitespace sets in play (ECMAScript `\s` / `trim` and
    Python `str.isspace` / `strip`), trimming, and the prefix, substring and
    slice operations the code relies on. */
module Text {

  datatype Option<T> = None | Some(value: T)

  predicate IsAsciiLower(c: char) { 'a' <= c <= 'z' }

  predicate IsAsciiUpperLetter(c: char) { 'A' <= c <= 'Z' }

  predicate IsAsciiDigit(c: char) { '0' <= c <= '9' }

  /** `toUpperCase` in the browser and `str.upper` on the server, on one
      character, restricted to ASCII. */
  function UpperChar(c: char): char
  {
    if IsAsciiLower(c) then (c as int - 32) as char else c
  }

  /** A string is upper-case when no character has an upper-case form to move to. */
  predicate IsUpper(s: string)
  {
    forall i :: 0 <= i < |s| ==> !IsAsciiLower(s[i])
  }

  /** Upper-casing maps each letter a-z to A-Z, keeps every other character
      and the length, and always yields an upper-case string. */
  function Upper(s: string): (r: string)
    ensures |r| == |s|
    ensures forall i :: 0 <= i < |s| ==> r[i] == UpperChar(s[i])
    ensures forall i :: 0 <= i < |s| && !IsAsciiLower(s[i]) ==> r[i] == s[i]
    ensures IsUpper(r)
  {
    if s == [] then [] else [UpperChar(s[0])] + Upper(s[1..])
  }

  /** Upper-casing changes a string exactly when it is not already upper-case;
      in particular it is idempotent. */
  lemma UpperFixedPoints(s: string)
    ensures Upper(s) == s <==> IsUpper(s)
    ensures Upper(Upper(s)) == Upper(s)
  {
    if IsUpper(s) {
      assert forall i :: 0 <= i < |s| ==> Upper(s)[i] == s[i];
    }
    var u := Upper(s);
    assert forall i :: 0 <= i < |u| ==> Upper(u)[i] == u[i];
  }

  /** Upper-casing a prefix gives the prefix of the upper-cased string. */
  lemma UpperPrefix(s: string, n: nat)
    requires n <= |s|
    ensures Upper(s[..n]) == Upper(s)[..n]
  {
    assert forall i :: 0 <= i < n ==> Upper(s[..n])[i] == Upper(s)[i];
  }

  /** ECMAScript WhiteSpace and LineTerminator code points: what a regular
      expression's `\s` matches and what `String.prototype.trim` removes. */
  predicate IsJsSpace(c: char)
  {
    || '\t' <= c <= '\r'
    || c == ' '
    || c == '\U{A0}'
    || c == '\U{1680}'
    || '\U{2000}' <= c <= '\U{200A}'
    || c == '\U{2028}' || c == '\U{2029}'
    || c == '\U{202F}' || c == '\U{205F}'
    || c == '\U{3000}'
    || c == '\U{FEFF}'
  }

  /** The code points for which Python's `str.isspace` holds: what `str.strip`
      removes when called without arguments. */
  predicate IsPySpace(c: char)
  {
    || '\t' <= c <= '\r'
    || '\U{1C}' <= c <= '\U{1F}'
    || c == ' '
    || c == '\U{85}'
    || c == '\U{A0}'
    || c == '\U{1680}'
    || '\U{2000}' <= c <= '\U{200A}'
    || c == '\U{2028}' || c == '\U{2029}'
    || c == '\U{202F}' || c == '\U{205F}'
    || c == '\U{3000}'
  }

  /** Which runtime's whitespace set a trim uses. */
  datatype Whitespace = EcmaScript | Python

  predicate IsSpace(w: Whitespace, c: char)
  {
    match w
    case EcmaScript => IsJsSpace(c)
    case Python => IsPySpace(c)
  }

  predicate AllSpace(w: Whitespace, s: string)
  {
    forall i :: 0 <= i < |s| ==> IsSpace(w, s[i])
  }

  /** Drops the leading whitespace: the result is a suffix of `s`, everything
      dropped is whitespace, and the result does not start with whitespace. */
  function TrimStart(w: Whitespace, s: string): (r: string)
    ensures |r| <= |s| && r == s[|s| - |r|..]
    ensures forall i :: 0 <= i < |s| - |r| ==> IsSpace(w, s[i])
    ensures r == [] || !IsSpace(w, r[0])
  {
    if s != [] && IsSpace(w, s[0]) then TrimStart(w, s[1..]) else s
  }

  /** Drops the trailing whitespace: the result is a prefix of `s`, everything
      dropped is whitespace, and the result does not end with whitespace. */
  function TrimEnd(w: Whitespace, s: string): (r: string)
    ensures |r| <= |s| && r == s[..|r|]
    ensures forall i :: |r| <= i < |s| ==> IsSpace(w, s[i])
    ensures r == [] || !IsSpace(w, r[|r| - 1])
  {
    if s != [] && IsSpace(w, s[|s| - 1]) then TrimEnd(w, s[..|s| - 1]) else s
  }

  /** `trim()` in the browser (w = EcmaScript) and `strip()` on the server
      (w = Python): the piece of `s` left after dropping the leading
      whitespace and then the trailing whitespace. Only whitespace is dropped
      at either end, the piece has no whitespace at either end (so it is the
      largest such piece), and it is empty exactly when `s` is all blank. */
  function Trim(w: Whitespace, s: string): (r: string)
    ensures |r| <= |TrimStart(w, s)| && r == TrimStart(w, s)[..|r|]
    ensures AllSpace(w, TrimStart(w, s)[|r|..])
    ensures r == [] || (!IsSpace(w, r[0]) && !IsSpace(w, r[|r| - 1]))
    ensures r == [] <==> AllSpace(w, s)
  {
    TrimEnd(w, TrimStart(w, s))
  }

  /** `startswith` / `startsWith`. */
  predicate StartsWith(s: string, prefix: string)
  {
    |prefix| <= |s| && s[..|prefix|] == prefix
  }

  /** If some trim of `s` starts with a prefix whose first character is not
      whitespace in another set, then `s` is not blank in that other set. */
  lemma TrimmedPrefixNotBlank(w: Whitespace, v: Whitespace, s: string, prefix: string)
    requires prefix != [] && !IsSpace(v, prefix[0])
    requires StartsWith(Trim(w, s), prefix)
    ensures !AllSpace(v, s)
  {
    var t := TrimStart(w, s);
    var r := Trim(w, s);
    var i := |s| - |t|;
    assert r[0] == prefix[0];
    assert t[0] == s[i];
  }

  /** `includes` in the browser: `sub` occurs somewhere in `s`. */
  predicate Contains(s: string, sub: string)
  {
    StartsWith(s, sub) || (s != [] && Contains(s[1..], sub))
  }

  /** Python's slice `s[:n]` for a non-negative bound. */
  function Take(s: string, n: nat): string
  {
    if |s| <= n then s else s[..n]
  }
}
