/** The front end's shared configuration: the authentication constants and
    the email and password predicates built on them. */
module Config {
  import opened Wrappers
  import opened Text
  import opened Js

  /** Storage key of the session record. */
  const SessionKey: string := "usuario"

  /** Session lifetime in milliseconds: 24 hours. */
  const TokenExpiry: int := 24 * 60 * 60 * 1000

  const MinPasswordLength: nat := 6

  /** A character of `[^\s@]`. */
  predicate EmailChar(c: char)
  {
    !IsSpace(c) && c != '@'
  }

  /** A match of `[^\s@]+`. */
  predicate EmailPart(x: string)
  {
    x != [] && forall k :: 0 <= k < |x| ==> EmailChar(x[k])
  }

  /** `s` matches `^[^\s@]+@[^\s@]+\.[^\s@]+$` with the `@` at `i` and the
      literal `.` at `j`. */
  predicate EmailMatchAt(s: string, i: int, j: int)
  {
    0 <= i < j < |s| && s[i] == '@' && s[j] == '.'
    && EmailPart(s[..i]) && EmailPart(s[i + 1..j]) && EmailPart(s[j + 1..])
  }

  /** `isValidEmail`: the email pattern matches somewhere it can. */
  predicate IsValidEmail(s: string)
  {
    exists i, j :: 0 <= i < j < |s| && EmailMatchAt(s, i, j)
  }

  /** A '.' that is neither the first nor the last character. */
  predicate DotInside(d: string)
  {
    exists j :: 0 < j < |d| - 1 && d[j] == '.'
  }

  /** The same condition described piece by piece: no whitespace, exactly
      one '@' (the first one has none after it), something before it, and a
      domain with an inner '.'. */
  predicate EmailShape(s: string)
  {
    (forall k :: 0 <= k < |s| ==> !IsSpace(s[k]))
    && match IndexOf(s, '@')
         case None => false
         case Some(i) => 0 < i && '@' !in s[i + 1..] && DotInside(s[i + 1..])
  }

  lemma IsValidEmailShape(s: string)
    ensures IsValidEmail(s) <==> EmailShape(s)
  {
    if IsValidEmail(s) {
      var i, j :| EmailMatchAt(s, i, j);
      PatternGivesShape(s, i, j);
    }
    if EmailShape(s) {
      ShapeGivesPattern(s);
    }
  }

  lemma PatternGivesShape(s: string, i: int, j: int)
    requires EmailMatchAt(s, i, j)
    ensures EmailShape(s)
  {
    var l, m, r := s[..i], s[i + 1..j], s[j + 1..];
    assert s == l + ['@'] + m + ['.'] + r;
    forall k | 0 <= k < |s|
      ensures !IsSpace(s[k])
    {
      if k < i {
        assert s[k] == l[k];
      } else if i < k < j {
        assert s[k] == m[k - i - 1];
      } else if j < k {
        assert s[k] == r[k - j - 1];
      }
    }
    assert '@' !in l;
    assert s[..i] == l;
    var f := IndexOf(s, '@');
    assert f == Some(i);
    var d := s[i + 1..];
    assert d == m + ['.'] + r;
    assert '@' !in d;
    assert d[|m|] == '.';
    assert DotInside(d);
  }

  lemma ShapeGivesPattern(s: string)
    requires EmailShape(s)
    ensures IsValidEmail(s)
  {
    var i := IndexOf(s, '@').value;
    var d := s[i + 1..];
    var j' :| 0 < j' < |d| - 1 && d[j'] == '.';
    var j := i + 1 + j';
    assert s[j] == '.';
    assert s[i + 1..j] == d[..j'];
    assert s[j + 1..] == d[j' + 1..];
    forall k | 0 <= k < i
      ensures EmailChar(s[..i][k])
    {
      assert s[..i][k] == s[k];
    }
    forall k | 0 <= k < j'
      ensures EmailChar(d[..j'][k])
    {
      assert d[..j'][k] == s[i + 1 + k];
      assert d[k] in d;
    }
    var r := s[j + 1..];
    forall k | 0 <= k < |r|
      ensures EmailChar(r[k])
    {
      assert r[k] == d[j' + 1 + k];
      assert d[j' + 1 + k] in d;
    }
    assert EmailMatchAt(s, i, j);
  }

  /** `isValidPassword`: present, and at least the minimum length. */
  predicate IsValidPassword(p: Option<string>)
  {
    Truthy(p) && |p.value| >= MinPasswordLength
  }
}
