/**
 * The e-mail check of the candidate application form: the JavaScript
 * regular expression \S+@\S+\.\S+ used with RegExp.prototype.test, which
 * succeeds as soon as SOME substring of the input matches (the pattern has no
 * ^ or $ anchors).
 *
 * PatternOccurs is the reference reading of the regular expression;
 * EmailTest is a scanner that decides it, and EmailTestMeansPatternOccurs
 * proves the two agree on every string.
 */
module EmailPattern {

  /** JavaScript's \s class: white space and line terminators. \S is its complement. */
  predicate IsWhitespace(c: char) {
    || c == ' ' || c == '\t' || c == '\n' || c == '\U{000B}' || c == '\U{000C}' || c == '\r'
    || c == '\U{00A0}' || c == '\U{1680}' || ('\U{2000}' <= c <= '\U{200A}')
    || c == '\U{2028}' || c == '\U{2029}' || c == '\U{202F}' || c == '\U{205F}'
    || c == '\U{3000}' || c == '\U{FEFF}'
  }

  /** t as a whole matches \S+@\S+\.\S+: no white space anywhere, an '@' with at
      least one character before it, and after it at least one character, a
      '.', and at least one more character. */
  ghost predicate MatchesWhole(t: string) {
    && (forall k | 0 <= k < |t| :: !IsWhitespace(t[k]))
    && exists a, b | 0 < a && a + 1 < b && b + 1 < |t| :: t[a] == '@' && t[b] == '.'
  }

  /** RegExp.prototype.test for the unanchored pattern: some substring matches. */
  ghost predicate PatternOccurs(s: string) {
    exists p, q | 0 <= p <= q <= |s| :: MatchesWhole(s[p..q])
  }

  /** From position i, a run of one or more non-white-space characters is
      followed by a '.' and then by a non-white-space character. */
  predicate DotRun(s: string, i: nat)
    decreases |s| - i
  {
    && i + 2 < |s|
    && !IsWhitespace(s[i])
    && ((s[i + 1] == '.' && !IsWhitespace(s[i + 2])) || DotRun(s, i + 1))
  }

  /** Some '@' at position i or later has a non-white-space character just
      before it and a DotRun just after it. */
  predicate AtFrom(s: string, i: nat)
    decreases |s| - i
  {
    && i < |s|
    && ((0 < i && s[i] == '@' && !IsWhitespace(s[i - 1]) && DotRun(s, i + 1)) || AtFrom(s, i + 1))
  }

  /** The scanner for the e-mail check. */
  predicate EmailTest(s: string) {
    AtFrom(s, 0)
  }

  /** d is a '.' that ends a DotRun started at i. */
  ghost predicate DotWitness(s: string, i: nat, d: nat) {
    && i < d && d + 1 < |s|
    && s[d] == '.' && !IsWhitespace(s[d + 1])
    && forall k | i <= k < d :: !IsWhitespace(s[k])
  }

  /** at and d locate a shortest match "x@y...y.z" of the pattern in s. */
  ghost predicate AtWitness(s: string, at: nat, d: nat) {
    && 0 < at && at + 1 < |s|
    && s[at] == '@' && !IsWhitespace(s[at - 1])
    && DotWitness(s, at + 1, d)
  }

  lemma {:induction false} DotRunSound(s: string, i: nat) returns (d: nat)
    requires DotRun(s, i)
    ensures DotWitness(s, i, d)
    decreases |s| - i
  {
    if s[i + 1] == '.' && !IsWhitespace(s[i + 2]) {
      d := i + 1;
    } else {
      d := DotRunSound(s, i + 1);
    }
  }

  lemma {:induction false} DotRunComplete(s: string, i: nat, d: nat)
    requires DotWitness(s, i, d)
    ensures DotRun(s, i)
    decreases d - i
  {
    if i + 1 < d {
      DotRunComplete(s, i + 1, d);
    }
  }

  lemma {:induction false} AtFromSound(s: string, i: nat) returns (at: nat, d: nat)
    requires AtFrom(s, i)
    ensures i <= at && AtWitness(s, at, d)
    decreases |s| - i
  {
    if 0 < i && s[i] == '@' && !IsWhitespace(s[i - 1]) && DotRun(s, i + 1) {
      at := i;
      d := DotRunSound(s, i + 1);
    } else {
      at, d := AtFromSound(s, i + 1);
    }
  }

  lemma {:induction false} AtFromComplete(s: string, i: nat, at: nat, d: nat)
    requires i <= at && AtWitness(s, at, d)
    ensures AtFrom(s, i)
    decreases at - i
  {
    if i == at {
      DotRunComplete(s, at + 1, d);
    } else {
      AtFromComplete(s, i + 1, at, d);
    }
  }

  /** The scanner accepts exactly the strings in which the pattern occurs. */
  lemma EmailTestMeansPatternOccurs(s: string)
    ensures EmailTest(s) <==> PatternOccurs(s)
  {
    if EmailTest(s) {
      var at, d := AtFromSound(s, 0);
      var t := s[at - 1..d + 2];
      forall k | 0 <= k < |t|
        ensures !IsWhitespace(t[k])
      {
        assert t[k] == s[at - 1 + k];
      }
      assert t[1] == '@' && t[d - at + 1] == '.';
      assert MatchesWhole(t);
    }
    if PatternOccurs(s) {
      var p, q :| 0 <= p <= q <= |s| && MatchesWhole(s[p..q]);
      var t := s[p..q];
      var a, b :| 0 < a && a + 1 < b && b + 1 < |t| && t[a] == '@' && t[b] == '.';
      forall k | p + a + 1 <= k < p + b
        ensures !IsWhitespace(s[k])
      {
        assert s[k] == t[k - p];
      }
      assert s[p + a - 1] == t[a - 1] && s[p + b + 1] == t[b + 1];
      AtFromComplete(s, 0, p + a, p + b);
    }
  }

  /** The check is unanchored: text around a matching string, white space
      included, does not make it fail. */
  lemma PatternOccursInContext(u: string, t: string, v: string)
    requires PatternOccurs(t)
    ensures PatternOccurs(u + t + v)
  {
    var p, q :| 0 <= p <= q <= |t| && MatchesWhole(t[p..q]);
    var s := u + t + v;
    assert s[|u| + p..|u| + q] == t[p..q];
  }

  /** The unanchored check, stated for the scanner. */
  lemma EmailTestInContext(u: string, t: string, v: string)
    requires EmailTest(t)
    ensures EmailTest(u + t + v)
  {
    EmailTestMeansPatternOccurs(t);
    PatternOccursInContext(u, t, v);
    EmailTestMeansPatternOccurs(u + t + v);
  }

  /** A string the check accepts holds an '@' and a '.' and has at least five characters. */
  lemma EmailTestNeeds(s: string)
    requires EmailTest(s)
    ensures |s| >= 5 && '@' in s && '.' in s
  {
    var at, d := AtFromSound(s, 0);
    assert s[at] == '@' && s[d] == '.';
  }
}
