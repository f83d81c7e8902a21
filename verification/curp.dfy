/** The CURP (Clave Única de Registro de Población) format check, which the
    tax-status form and the API server both apply to the upper-cased input
    with the pattern `^[A-Z]{4}[0-9]{6}[HM][A-Z]{5}[0-9A-Z][0-9]$`.

    The pattern is written here as a sequence of runs (a character class and a
    repetition count, one per `[...]{n}` of the pattern) and matched by a small
    anchored matcher; `IsCurp` states the same shape position by position, and
    `MatchesCurpPattern` proves the two agree. */
module Curp {
  import opened Text

  /** The character classes of the pattern. */
  datatype CharClass =
    | Letter     // [A-Z]
    | Digit      // [0-9]
    | Sex        // [HM]
    | LetterOrDigit  // [0-9A-Z]

  predicate InClass(k: CharClass, c: char)
  {
    match k
    case Letter => IsAsciiUpperLetter(c)
    case Digit => IsAsciiDigit(c)
    case Sex => c == 'H' || c == 'M'
    case LetterOrDigit => IsAsciiDigit(c) || IsAsciiUpperLetter(c)
  }

  /** One `[class]{count}` piece of the pattern. */
  datatype Run = Run(cls: CharClass, count: nat)

  /** `[A-Z]{4}[0-9]{6}[HM][A-Z]{5}[0-9A-Z][0-9]` */
  const CurpPattern: seq<Run> :=
    [Run(Letter, 4), Run(Digit, 6), Run(Sex, 1), Run(Letter, 5), Run(LetterOrDigit, 1), Run(Digit, 1)]

  /** The number of characters a sequence of runs consumes. */
  function Width(p: seq<Run>): nat
  {
    if p == [] then 0 else p[0].count + Width(p[1..])
  }

  /** Whether the whole of `s` (anchored at both ends) matches the runs `p`. */
  predicate MatchesRuns(p: seq<Run>, s: string)
  {
    if p == [] then s == []
    else
      && p[0].count <= |s|
      && (forall i :: 0 <= i < p[0].count ==> InClass(p[0].cls, s[i]))
      && MatchesRuns(p[1..], s[p[0].count..])
  }

  /** A string of runs has exactly the runs' width. */
  lemma {:induction false} MatchesRunsWidth(p: seq<Run>, s: string)
    requires MatchesRuns(p, s)
    ensures |s| == Width(p)
  {
    if p != [] {
      MatchesRunsWidth(p[1..], s[p[0].count..]);
    }
  }

  /** The CURP shape, position by position: four letters, six digits, the sex
      marker H or M, five letters, a letter or digit, and a final digit. */
  predicate IsCurp(s: string)
  {
    && |s| == 18
    && (forall i :: 0 <= i < 4 ==> IsAsciiUpperLetter(s[i]))
    && (forall i :: 4 <= i < 10 ==> IsAsciiDigit(s[i]))
    && (s[10] == 'H' || s[10] == 'M')
    && (forall i :: 11 <= i < 16 ==> IsAsciiUpperLetter(s[i]))
    && (IsAsciiUpperLetter(s[16]) || IsAsciiDigit(s[16]))
    && IsAsciiDigit(s[17])
  }

  /** The run-by-run pattern and the positional shape accept the same strings. */
  lemma MatchesCurpPattern(s: string)
    ensures MatchesRuns(CurpPattern, s) <==> IsCurp(s)
  {
    var p := CurpPattern;
    if MatchesRuns(p, s) {
      MatchesRunsWidth(p, s);
      assert |s| == 18;
      var s1 := s[4..];
      var s2 := s1[6..];
      var s3 := s2[1..];
      var s4 := s3[5..];
      var s5 := s4[1..];
      assert MatchesRuns(p[1..], s1);
      assert MatchesRuns(p[2..], s2) by { assert p[1..][1..] == p[2..]; }
      assert MatchesRuns(p[3..], s3) by { assert p[2..][1..] == p[3..]; }
      assert MatchesRuns(p[4..], s4) by { assert p[3..][1..] == p[4..]; }
      assert MatchesRuns(p[5..], s5) by { assert p[4..][1..] == p[5..]; }
      forall i | 4 <= i < 10 ensures IsAsciiDigit(s[i]) { assert s[i] == s1[i - 4]; }
      assert s[10] == s2[0];
      forall i | 11 <= i < 16 ensures IsAsciiUpperLetter(s[i]) { assert s[i] == s3[i - 11]; }
      assert s[16] == s4[0];
      assert s[17] == s5[0];
    }
    if IsCurp(s) {
      var s5 := s[17..];
      var s4 := s[16..];
      var s3 := s[11..];
      var s2 := s[10..];
      var s1 := s[4..];
      assert MatchesRuns(p[6..], s5[1..]);
      assert MatchesRuns(p[5..], s5) by { assert p[5..][1..] == p[6..]; }
      assert MatchesRuns(p[4..], s4) by { assert p[4..][1..] == p[5..]; assert s4[1..] == s5; }
      assert MatchesRuns(p[3..], s3) by {
        assert p[3..][1..] == p[4..]; assert s3[5..] == s4;
        assert forall i :: 0 <= i < 5 ==> s3[i] == s[i + 11];
      }
      assert MatchesRuns(p[2..], s2) by { assert p[2..][1..] == p[3..]; assert s2[1..] == s3; }
      assert MatchesRuns(p[1..], s1) by {
        assert p[1..][1..] == p[2..]; assert s1[6..] == s2;
        assert forall i :: 0 <= i < 6 ==> s1[i] == s[i + 4];
      }
      assert s[4..] == s1;
    }
  }

  /** Every string the pattern accepts has exactly 18 characters. */
  lemma CurpLength(s: string)
    requires MatchesRuns(CurpPattern, s)
    ensures |s| == 18
  {
    MatchesRunsWidth(CurpPattern, s);
  }

  /** `validateCURP` in the tax-status form: the upper-cased input must match
      the pattern with the ECMAScript meaning of `$` (the very end of the
      string). */
  function ValidateCurp(curp: string): (ok: bool)
    ensures ok <==> IsCurp(Upper(curp))
    ensures ok ==> |curp| == 18
  {
    MatchesCurpPattern(Upper(curp));
    MatchesRuns(CurpPattern, Upper(curp))
  }

  /** Python's `re.match` with the same pattern: anchored at the start, and its
      `$` matches at the very end or just before a final newline. */
  predicate PyMatchesCurp(s: string)
  {
    || MatchesRuns(CurpPattern, s)
    || (s != [] && s[|s| - 1] == '\n' && MatchesRuns(CurpPattern, s[..|s| - 1]))
  }

  /** The server's test as written: `re.match(curp_pattern, curp.upper())`. */
  function ServerAcceptsAsWritten(curp: string): (ok: bool)
    ensures ok <==> (IsCurp(Upper(curp))
      || (curp != [] && curp[|curp| - 1] == '\n' && IsCurp(Upper(curp[..|curp| - 1]))))
  {
    PyMatchesUpper(curp);
    PyMatchesCurp(Upper(curp))
  }

  lemma PyMatchesUpper(curp: string)
    ensures PyMatchesCurp(Upper(curp)) <==> (IsCurp(Upper(curp))
      || (curp != [] && curp[|curp| - 1] == '\n' && IsCurp(Upper(curp[..|curp| - 1]))))
  {
    var u := Upper(curp);
    MatchesCurpPattern(u);
    if curp != [] {
      var n := |curp| - 1;
      UpperPrefix(curp, n);
      MatchesCurpPattern(u[..n]);
      assert u[n] == '\n' <==> curp[n] == '\n';
    }
  }

  /** For input without a trailing newline, the browser's check and the
      server's check as written accept exactly the same strings, and whatever
      the browser accepts the server accepts. */
  lemma ClientServerAgree(curp: string)
    ensures ValidateCurp(curp) ==> ServerAcceptsAsWritten(curp)
    ensures (curp == [] || curp[|curp| - 1] != '\n') ==>
      (ValidateCurp(curp) <==> ServerAcceptsAsWritten(curp))
  {
  }

  /** Any valid CURP followed by a newline: the server's check as written
      lets it through, the browser's check does not, and the upper-cased
      string the server goes on to store has 19 characters. */
  lemma TrailingNewlineSlipsThrough(valid: string)
    requires IsCurp(valid)
    ensures ServerAcceptsAsWritten(valid + "\n")
    ensures !ValidateCurp(valid + "\n")
    ensures |Upper(valid + "\n")| == 19
  {
    var curp := valid + "\n";
    CurpIsUpper(valid);
    assert IsUpper(curp);
    UpperFixedPoints(valid);
    UpperFixedPoints(curp);
    assert curp[..|curp| - 1] == valid;
  }

  /** The concrete CURP used to exhibit the input above. */
  lemma ExampleCurp()
    ensures IsCurp("ABCD123456HABCDE01")
  {
  }

  /** A CURP-shaped string is already upper-case. */
  lemma CurpIsUpper(s: string)
    requires IsCurp(s)
    ensures IsUpper(s)
  {
  }
}
