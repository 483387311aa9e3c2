/** The e-mail test `/^[^\s@]+@[^\s@]+\.[^\s@]+$/.test(email)` that the registration and the
    login pages both apply. */
module EmailPattern {
  import opened Text

  /** A character of the class `[^\s@]`. */
  predicate Plain(c: char) { !IsWhitespace(c) && c != '@' }

  predicate AllPlain(s: string) { forall i :: 0 <= i < |s| ==> Plain(s[i]) }

  /** The language of the regular expression, read off its shape: a non-empty plain run, `@`,
      a non-empty plain run, a literal `.`, a non-empty plain run, and nothing else. */
  ghost predicate MatchesPattern(s: string) {
    exists i, j :: SplitsAt(s, i, j)
  }

  /** The match that puts the `@` at `i` and the literal `.` at `j`. */
  ghost predicate SplitsAt(s: string, i: int, j: int) {
    && 0 < i && i + 1 < j && j + 1 < |s|
    && s[i] == '@' && s[j] == '.'
    && AllPlain(s[..i]) && AllPlain(s[i + 1..j]) && AllPlain(s[j + 1..])
  }

  function IndexOf(s: string, c: char): (r: nat)
    ensures r <= |s|
    ensures r < |s| ==> s[r] == c
    ensures c !in s[..r]
  {
    if s == [] then 0
    else if s[0] == c then 0
    else assert s[1..][..IndexOf(s[1..], c)] == s[1..1 + IndexOf(s[1..], c)];
         1 + IndexOf(s[1..], c)
  }

  /** The test as a direct check: no white space, one `@` with something before it, and after
      it a domain holding a `.` that is neither its first nor its last character. */
  predicate ValidEmail(s: string) {
    var at := IndexOf(s, '@');
    && (forall k :: 0 <= k < |s| ==> !IsWhitespace(s[k]))
    && 0 < at < |s|
    && '@' !in s[at + 1..]
    && var domain := s[at + 1..];
       |domain| >= 3 && '.' in domain[1..|domain| - 1]
  }

  lemma ValidEmailImpliesPattern(s: string)
    requires ValidEmail(s)
    ensures MatchesPattern(s)
  {
    var i := IndexOf(s, '@');
    var d := s[i + 1..];
    var m :| 0 <= m < |d[1..|d| - 1]| && d[1..|d| - 1][m] == '.';
    var j := i + 2 + m;
    assert s[j] == '.';
    assert SplitsAt(s, i, j) by {
    var head, mid, tail := s[..i], s[i + 1..j], s[j + 1..];
    assert AllPlain(head) by {
      forall k | 0 <= k < |head| ensures Plain(head[k]) { assert head[k] in s[..i]; }
    }
    assert AllPlain(mid) by {
      forall k | 0 <= k < |mid| ensures Plain(mid[k]) {
        assert mid[k] == d[k];
        assert d[k] in d;
      }
    }
    assert AllPlain(tail) by {
      forall k | 0 <= k < |tail| ensures Plain(tail[k]) {
        assert tail[k] == d[k + m + 2];
        assert d[k + m + 2] in d;
      }
    }
    }
  }

  lemma PatternImpliesValidEmail(s: string)
    requires MatchesPattern(s)
    ensures ValidEmail(s)
  {
    var i, j :| SplitsAt(s, i, j);
    SplitImpliesValidEmail(s, i, j);
  }

  lemma SplitImpliesValidEmail(s: string, i: int, j: int)
    requires SplitsAt(s, i, j)
    ensures ValidEmail(s)
  {
    forall k | 0 <= k < |s| ensures !IsWhitespace(s[k]) && (k != i ==> s[k] != '@') {
      if k < i { assert s[k] == s[..i][k]; }
      else if i < k < j { assert s[k] == s[i + 1..j][k - i - 1]; }
      else if j < k { assert s[k] == s[j + 1..][k - j - 1]; }
    }
    var at := IndexOf(s, '@');
    assert at == i;
    var d := s[i + 1..];
    assert '@' !in d by {
      forall k | 0 <= k < |d| ensures d[k] != '@' { assert d[k] == s[i + 1 + k]; }
    }
    assert d[1..|d| - 1][j - i - 2] == '.';
  }

  /** The direct check accepts exactly the strings the regular expression matches. */
  lemma ValidEmailMatchesPattern(s: string)
    ensures ValidEmail(s) <==> MatchesPattern(s)
  {
    if ValidEmail(s) { ValidEmailImpliesPattern(s); }
    if MatchesPattern(s) { PatternImpliesValidEmail(s); }
  }

  /** The emptiness test every form makes first never hides a pattern success. */
  lemma EmptyIsNotValid()
    ensures !ValidEmail("")
  {
  }
}
