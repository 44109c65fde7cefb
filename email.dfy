/** The signup route's email check, `/^[^\s@]+@[^\s@]+\.[^\s@]+$/`, as a
    string predicate proved equal to the pattern's literal reading. */
module EmailFormat {
  import opened Shared

  /** The character class `[^\s@]`. */
  predicate Plain(c: char) {
    c != '@' && !IsJsWhitespace(c)
  }

  predicate AllPlain(s: string) {
    forall k :: 0 <= k < |s| ==> Plain(s[k])
  }

  /** `[^\s@]+`. */
  predicate PlainRun(s: string) {
    |s| > 0 && AllPlain(s)
  }

  /** The pattern read literally: the whole string splits at an `@` at `i` and
      a `.` at `j` into three non-empty runs of `[^\s@]`. */
  ghost predicate MatchesPattern(e: string) {
    exists i, j :: 0 < i && i + 1 < j && j + 1 < |e| && e[i] == '@' && e[j] == '.'
      && PlainRun(e[..i]) && PlainRun(e[i + 1..j]) && PlainRun(e[j + 1..])
  }

  /** The position of the first `c` in `s`. */
  function FirstIndex(s: string, c: char): (i: nat)
    requires c in s
    ensures i < |s| && s[i] == c
    ensures forall k :: 0 <= k < i ==> s[k] != c
  {
    if s[0] == c then 0 else 1 + FirstIndex(s[1..], c)
  }

  /** The check as a scan: a non-empty plain local part before the first `@`,
      and after it a plain domain of at least three characters with a `.`
      strictly inside it. */
  predicate IsEmail(e: string) {
    '@' in e &&
    var i := FirstIndex(e, '@');
    var domain := e[i + 1..];
    0 < i && AllPlain(e[..i]) && AllPlain(domain)
    && |domain| >= 3 && '.' in domain[1..|domain| - 1]
  }

  /** `emailRegex.test(email)` holds exactly when the scan accepts. */
  lemma IsEmailMatchesPattern(e: string)
    ensures IsEmail(e) <==> MatchesPattern(e)
  {
    if IsEmail(e) {
      ScanSplits(e);
    }
    if MatchesPattern(e) {
      var i, j :| 0 < i && i + 1 < j && j + 1 < |e| && e[i] == '@' && e[j] == '.'
        && PlainRun(e[..i]) && PlainRun(e[i + 1..j]) && PlainRun(e[j + 1..]);
      SplitScans(e, i, j);
    }
  }

  /** An accepted string splits as the pattern demands. */
  lemma ScanSplits(e: string)
    requires IsEmail(e)
    ensures MatchesPattern(e)
  {
    var i := FirstIndex(e, '@');
    var domain := e[i + 1..];
    var inner := domain[1..|domain| - 1];
    var m :| 0 <= m < |inner| && inner[m] == '.';
    var j := i + 2 + m;
    assert e[j] == '.';
    assert e[i + 1..j] == domain[..m + 1];
    assert e[j + 1..] == domain[m + 2..];
    assert PlainRun(e[..i]) && PlainRun(e[i + 1..j]) && PlainRun(e[j + 1..]);
  }

  /** A string that splits as the pattern demands is accepted. */
  lemma SplitScans(e: string, i: nat, j: nat)
    requires 0 < i && i + 1 < j && j + 1 < |e| && e[i] == '@' && e[j] == '.'
    requires PlainRun(e[..i]) && PlainRun(e[i + 1..j]) && PlainRun(e[j + 1..])
    ensures IsEmail(e)
  {
    assert '@' in e;
    forall k | 0 <= k < i ensures e[k] != '@' {
      assert e[k] == e[..i][k];
    }
    assert FirstIndex(e, '@') == i;
    var domain := e[i + 1..];
    forall k | 0 <= k < |domain| ensures Plain(domain[k]) {
      if k + i + 1 < j {
        assert domain[k] == e[i + 1..j][k];
      } else if k + i + 1 > j {
        assert domain[k] == e[j + 1..][k + i - j];
      }
    }
    var inner := domain[1..|domain| - 1];
    assert inner[j - i - 2] == '.';
  }
}
