/**
 The e-mail shape both the sign-up form and the registration function test,
 `^[^\s@]+@[^\s@]+\.[^\s@]+$`: once as the pattern read literally (some split of
 the string into local part, `@`, host, `.`, suffix) and once as the check a
 program can run, with the proof that the two agree.
 */
module EmailRule {
  import opened Wrappers
  import opened JsText

  /** A character the class `[^\s@]` admits. */
  predicate IsPlain(c: char) {
    !IsSpace(c) && c != '@'
  }

  predicate AllPlain(s: string) {
    forall i | 0 <= i < |s| :: IsPlain(s[i])
  }

  /** `s` is `L@H.T` with `L`, `H`, `T` non-empty runs of plain characters
      (`H` and `T` may themselves contain dots). */
  ghost predicate MatchesPattern(s: string) {
    exists at: nat, dot: nat :: IsPatternSplit(s, at, dot)
  }

  /** `s[at]` is the `@` and `s[dot]` the `.` of a match of the pattern. */
  predicate IsPatternSplit(s: string, at: nat, dot: nat) {
    && 0 < at < dot - 1 && dot < |s| - 1
    && s[at] == '@' && s[dot] == '.'
    && AllPlain(s[..at]) && AllPlain(s[at + 1..dot]) && AllPlain(s[dot + 1..])
  }

  /** The position of the first `c` in `s`, if any. */
  function FirstIndexOf(s: string, c: char): (r: Option<nat>)
    ensures r.Some? ==> r.value < |s| && s[r.value] == c && c !in s[..r.value]
    ensures r.None? ==> c !in s
  {
    if s == [] then None
    else if s[0] == c then Some(0)
    else match FirstIndexOf(s[1..], c)
      case None => None
      case Some(k) =>
        assert s[..k + 1] == [s[0]] + s[1..][..k];
        Some(k + 1)
  }

  /** Any position holding `c` with no `c` before it is the one `FirstIndexOf` finds. */
  lemma {:induction false} FirstIndexAt(s: string, c: char, j: nat)
    requires j < |s| && s[j] == c && c !in s[..j]
    ensures FirstIndexOf(s, c) == Some(j)
  {
    if j > 0 {
      assert s[0] == s[..j][0];
      assert s[1..][..j - 1] == s[1..j];
      FirstIndexAt(s[1..], c, j - 1);
    }
  }

  /** The executable test: split at the first `@`; the part before it is a non-empty
      plain run, the part after it is plain and has a `.` that is neither its first
      nor its last character. */
  predicate IsValidEmail(s: string) {
    match FirstIndexOf(s, '@')
    case None => false
    case Some(at) =>
      var host := s[at + 1..];
      && 0 < at && AllPlain(s[..at]) && AllPlain(host)
      && |host| >= 3 && '.' in host[1..|host| - 1]
  }

  /** The executable test accepts exactly the strings the pattern matches. */
  lemma IsValidEmailIffPattern(s: string)
    ensures IsValidEmail(s) <==> MatchesPattern(s)
  {
    if IsValidEmail(s) {
      ValidEmailMatches(s);
    }
    if MatchesPattern(s) {
      var at: nat, dot: nat :| IsPatternSplit(s, at, dot);
      PatternIsValid(s, at, dot);
    }
  }

  lemma ValidEmailMatches(s: string)
    requires IsValidEmail(s)
    ensures MatchesPattern(s)
  {
    var at := FirstIndexOf(s, '@').value;
    var host := s[at + 1..];
    var inner := host[1..|host| - 1];
    var k :| 0 <= k < |inner| && inner[k] == '.';
    var dot := at + 2 + k;
    assert s[dot] == '.';
    assert s[at + 1..dot] == host[..k + 1];
    assert s[dot + 1..] == host[k + 2..];
    assert IsPatternSplit(s, at, dot);
  }

  lemma PatternIsValid(s: string, at: nat, dot: nat)
    requires IsPatternSplit(s, at, dot)
    ensures IsValidEmail(s)
  {
    assert '@' !in s[..at] by {
      forall i | 0 <= i < at ensures s[..at][i] != '@' {
        assert IsPlain(s[..at][i]);
      }
    }
    FirstIndexAt(s, '@', at);
    var host := s[at + 1..];
    forall i | 0 <= i < |host| ensures IsPlain(host[i]) {
      if i < dot - at - 1 {
        assert host[i] == s[at + 1..dot][i];
      } else if i > dot - at - 1 {
        assert host[i] == s[dot + 1..][i - (dot - at)];
      }
    }
    assert host[1..|host| - 1][dot - at - 2] == '.';
  }

  /** A string that matches contains no white space at all, so it is never blank. */
  lemma PatternIsNotBlank(s: string)
    ensures MatchesPattern(s) ==> !IsBlank(s)
  {
    if MatchesPattern(s) {
      var at: nat, dot: nat :| IsPatternSplit(s, at, dot);
      assert !IsSpace(s[at]);
    }
  }

  /** A dotted host passes. */
  lemma DottedHostIsValid()
    ensures IsValidEmail("a@b.co")
  {
    assert FirstIndexOf("a@b.co", '@') == Some(1);
    assert "a@b.co"[2..][1..3] == "b.c"[1..];
  }

  /** No `@`, no dot after it, or a leading space fails. */
  lemma MalformedExamples()
    ensures !IsValidEmail("abc") && !IsValidEmail("a@b") && !IsValidEmail(" a@b.co")
  {
    assert FirstIndexOf(" a@b.co", '@') == Some(2);
    assert " a@b.co"[..2][0] == ' ';
  }
}
