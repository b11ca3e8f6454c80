/**
 * The e-mail pattern `^[^\s@]+@[^\s@]+\.[^\s@]+$` used by the registration form and the
 * donation dialog: a run of plain characters, `@`, a run, `.`, a run, where a plain character
 * is neither whitespace nor `@`.
 */
module EmailPattern {
  import opened Seqs
  import opened Strings

  /** A character of the class `[^\s@]`. */
  predicate Plain(c: char) {
    !IsWhitespace(c) && c != '@'
  }

  /** `[^\s@]+`. */
  predicate Run(s: string) {
    |s| > 0 && forall i :: 0 <= i < |s| ==> Plain(s[i])
  }

  /** The pattern read literally: the string splits at some `@` and some later `.` into three runs. */
  predicate MatchesPattern(s: string) {
    exists i, k :: 0 < i && i + 1 < k && k + 1 < |s| && s[i] == '@' && s[k] == '.'
                   && Run(s[..i]) && Run(s[i + 1..k]) && Run(s[k + 1..])
  }

  /**
   * The pattern's test, decided by scanning: no whitespace, a first `@` that is not the first
   * character, no second `@`, and a `.` strictly inside the part after the `@`.
   */
  function IsValidEmail(s: string): (r: bool)
    ensures r ==> NoWhitespace(s) && '@' in s
  {
    var at := IndexOf(s, '@');
    0 < at < |s| && NoWhitespace(s) && '@' !in s[at + 1..]
    && |s[at + 1..]| >= 2 && '.' in s[at + 1..][1..|s[at + 1..]| - 1]
  }

  /** The scanning test accepts exactly the strings the pattern matches. */
  lemma IsValidEmailMatchesPattern(s: string)
    ensures IsValidEmail(s) <==> MatchesPattern(s)
  {
    if IsValidEmail(s) {
      ValidEmailMatches(s);
    }
    if MatchesPattern(s) {
      var i, k :| 0 < i && i + 1 < k && k + 1 < |s| && s[i] == '@' && s[k] == '.'
                  && Run(s[..i]) && Run(s[i + 1..k]) && Run(s[k + 1..]);
      PatternIsValidEmail(s, i, k);
    }
  }

  lemma ValidEmailMatches(s: string)
    requires IsValidEmail(s)
    ensures MatchesPattern(s)
  {
    var at := IndexOf(s, '@');
    var d := s[at + 1..];
    var inner := d[1..|d| - 1];
    var j :| 0 <= j < |inner| && inner[j] == '.';
    var k := at + 2 + j;
    assert s[k] == '.';
    var a, b, c := s[..at], s[at + 1..k], s[k + 1..];
    forall n | 0 <= n < |a|
      ensures Plain(a[n])
    {
      assert a[n] == s[n];
    }
    forall n | 0 <= n < |b|
      ensures Plain(b[n])
    {
      assert b[n] == d[n];
    }
    forall n | 0 <= n < |c|
      ensures Plain(c[n])
    {
      assert c[n] == d[k - at + n];
    }
    assert Run(a) && Run(b) && Run(c);
  }

  lemma PatternIsValidEmail(s: string, i: int, k: int)
    requires 0 < i && i + 1 < k && k + 1 < |s| && s[i] == '@' && s[k] == '.'
    requires Run(s[..i]) && Run(s[i + 1..k]) && Run(s[k + 1..])
    ensures IsValidEmail(s)
  {
    PlainSplit(s, i, k);
    var at := IndexOf(s, '@');
    PrefixIndex(s, i);
    assert at == i;
    var d := s[i + 1..];
    var b, c := s[i + 1..k], s[k + 1..];
    forall n | 0 <= n < |d|
      ensures d[n] != '@'
    {
      if n < |b| {
        assert d[n] == b[n];
      } else if n > |b| {
        assert d[n] == c[n - (k - i)];
      }
    }
    assert d[1..|d| - 1][k - i - 2] == '.';
  }

  /** Around an `@` and a `.`, three runs make a string without whitespace. */
  lemma PlainSplit(s: string, i: int, k: int)
    requires 0 < i && i + 1 < k && k + 1 < |s| && s[i] == '@' && s[k] == '.'
    requires Run(s[..i]) && Run(s[i + 1..k]) && Run(s[k + 1..])
    ensures NoWhitespace(s)
  {
    forall n | 0 <= n < |s|
      ensures !IsWhitespace(s[n])
    {
      if n < i {
        assert s[n] == s[..i][n];
      } else if i < n < k {
        assert s[n] == s[i + 1..k][n - (i + 1)];
      } else if k < n {
        assert s[n] == s[k + 1..][n - (k + 1)];
      }
    }
  }

  /** Example: the shortest address the pattern accepts. */
  lemma EmailAccepted()
    ensures IsValidEmail("a@b.c")
  {
    var s := "a@b.c";
    assert s[0] != '@' && s[1] == '@';
    assert IndexOf(s, '@') == 1;
    var d := s[2..];
    assert d == "b.c" && '@' !in d;
    assert d[1..|d| - 1] == "." && '.' in d[1..|d| - 1];
    assert forall i :: 0 <= i < |s| ==> !IsWhitespace(s[i]);
  }

  /** Examples: a missing dot, an empty local part and an empty domain label are refused. */
  lemma EmailRefused()
    ensures !IsValidEmail("a@b") && !IsValidEmail("@b.c") && !IsValidEmail("a@.c")
  {
    var t := "a@.c";
    assert t[0] != '@' && t[1] == '@';
    assert IndexOf(t, '@') == 1;
    assert t[2..] == ".c" && t[2..][1..1] == [];
    assert "@b.c"[0] == '@' && IndexOf("@b.c", '@') == 0;
    assert "a@b"[0] != '@' && "a@b"[1] == '@' && IndexOf("a@b", '@') == 1 && |"a@b"[2..]| == 1;
  }
}
