/** The landing page's email check: the regular expression
    `^[^\s@]+@[^\s@]+\.[^\s@]+$` applied to the whole input. */
module EmailRule {

  /** JavaScript's `\s` class: the ECMAScript WhiteSpace and LineTerminator code
      points (tab, line feed, vertical tab, form feed, carriage return, space,
      no-break space, ogham space mark, U+2000 to U+200A, line and paragraph
      separators, narrow no-break space, medium mathematical space, ideographic
      space and the byte order mark). */
  predicate IsJsSpace(c: char) {
    c == '\t' || c == '\n' || c == '\U{B}' || c == '\U{C}' || c == '\r' || c == ' '
    || c == '\U{A0}' || c == '\U{1680}' || ('\U{2000}' <= c <= '\U{200A}')
    || c == '\U{2028}' || c == '\U{2029}' || c == '\U{202F}' || c == '\U{205F}'
    || c == '\U{3000}' || c == '\U{FEFF}'
  }

  /** One character of the class `[^\s@]`. */
  predicate Plain(c: char) {
    c != '@' && !IsJsSpace(c)
  }

  /** `[^\s@]+` matching all of `s`. */
  predicate PlainRun(s: string) {
    |s| > 0 && forall k | 0 <= k < |s| :: Plain(s[k])
  }

  /** The pattern matches `s` with its `@` at index `at` and its `\.` at index `dot`. */
  predicate MatchesAt(s: string, at: int, dot: int)
    requires 0 <= at < dot < |s|
  {
    PlainRun(s[..at]) && s[at] == '@' && PlainRun(s[at + 1..dot]) && s[dot] == '.' && PlainRun(s[dot + 1..])
  }

  /** `validateEmail`: the anchored pattern matches the whole string for some
      choice of the `@` and the `.` (the regular expression backtracks over
      every such choice). The shortest accepted address has five characters. */
  function ValidateEmail(s: string): (ok: bool)
    ensures ok ==> |s| >= 5 && '@' in s
  {
    exists at, dot | 0 <= at < |s| && at < dot < |s| :: MatchesAt(s, at, dot)
  }

  predicate NoSpace(s: string) {
    forall k | 0 <= k < |s| :: !IsJsSpace(s[k])
  }

  /** Index `at` holds the only `@` of `s`. */
  predicate SoleAt(s: string, at: int)
    requires 0 <= at < |s|
  {
    s[at] == '@' && forall k | 0 <= k < |s| && k != at :: s[k] != '@'
  }

  /** `d` has a `.` that is neither its first nor its last character. */
  predicate DotInside(d: string) {
    exists k | 0 < k < |d| - 1 :: d[k] == '.'
  }

  /** The accepted addresses described without the pattern: exactly one `@`, no
      whitespace, a non-empty part before the `@`, and a part after it with an
      inner `.`. */
  predicate WellFormed(s: string) {
    NoSpace(s) && exists at | 0 < at < |s| :: SoleAt(s, at) && DotInside(s[at + 1..])
  }

  /** The pattern accepts exactly the well-formed addresses. */
  lemma {:induction false} ValidateEmailIff(s: string)
    ensures ValidateEmail(s) <==> WellFormed(s)
  {
    if ValidateEmail(s) {
      var at, dot :| 0 <= at < |s| && at < dot < |s| && MatchesAt(s, at, dot);
      forall k | 0 <= k < |s|
        ensures !IsJsSpace(s[k]) && (k != at ==> s[k] != '@')
      {
        if k < at {
          assert s[..at][k] == s[k];
        } else if at < k < dot {
          assert s[at + 1..dot][k - at - 1] == s[k];
        } else if dot < k {
          assert s[dot + 1..][k - dot - 1] == s[k];
        }
      }
      assert s[at + 1..][dot - at - 1] == '.';
      assert SoleAt(s, at) && DotInside(s[at + 1..]);
    }
    if WellFormed(s) {
      var at :| 0 < at < |s| && SoleAt(s, at) && DotInside(s[at + 1..]);
      var k :| 0 < k < |s[at + 1..]| - 1 && s[at + 1..][k] == '.';
      var dot := at + 1 + k;
      assert s[dot] == '.';
      forall i | 0 <= i < |s| && i != at
        ensures Plain(s[i])
      {
      }
      var local, host, top := s[..at], s[at + 1..dot], s[dot + 1..];
      assert PlainRun(local) by {
        forall i | 0 <= i < |local| ensures Plain(local[i]) { assert local[i] == s[i]; }
      }
      assert PlainRun(host) by {
        forall i | 0 <= i < |host| ensures Plain(host[i]) { assert host[i] == s[at + 1 + i]; }
      }
      assert PlainRun(top) by {
        forall i | 0 <= i < |top| ensures Plain(top[i]) { assert top[i] == s[dot + 1 + i]; }
      }
      assert MatchesAt(s, at, dot);
    }
  }

  /** `a@b.co` is accepted. */
  lemma AcceptsShortAddress()
    ensures ValidateEmail("a@b.co")
  {
    var s := "a@b.co";
    assert s[..1] == "a" && s[2..3] == "b" && s[4..] == "co";
    assert MatchesAt(s, 1, 3);
  }

  /** `a@b` (no dot), `a b@c.com` (a space) and the empty string are rejected. */
  lemma RejectsMalformed()
    ensures !ValidateEmail("a@b")
    ensures !ValidateEmail("a b@c.com")
    ensures !ValidateEmail("")
  {
    var s := "a b@c.com";
    ValidateEmailIff(s);
    assert IsJsSpace(s[1]);
  }
}
