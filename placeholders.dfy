/**
 * Placeholder substitution as both engines perform it, and the scan for
 * placeholders left over afterwards.
 */
module Placeholders {
  import opened Strings

  /** The token `{{name}}` that stands for the variable `name`. */
  function Placeholder(name: string): (r: string)
  {
    "{{" + name + "}}"
  }

  /**
   * The meaning of `expandString`: for each (name, text) in order, the first
   * `{{name}}` of the string as it stands at that point is replaced by `text`.
   */
  function Expanded(subs: seq<(string, string)>, s: string): (r: string)
    decreases |subs|
  {
    if subs == [] then s
    else
      var last := subs[|subs| - 1];
      ReplaceFirst(Expanded(subs[..|subs| - 1], s), Placeholder(last.0), last.1)
  }

  /** A string holding no placeholder of any substituted name comes back unchanged. */
  lemma {:induction false} ExpandedUntouched(subs: seq<(string, string)>, s: string)
    requires forall k :: 0 <= k < |subs| ==> !Occurs(s, Placeholder(subs[k].0))
    ensures Expanded(subs, s) == s
  {
    if subs != [] {
      var init := subs[..|subs| - 1];
      ExpandedUntouched(init, s);
      ReplaceAbsent(s, Placeholder(subs[|subs| - 1].0), subs[|subs| - 1].1);
    }
  }

  /**
   * A single variable replaces only the first of its placeholders: in
   * `{{n}}` followed by any text, the leading token becomes the value and the
   * text (including any further `{{n}}`) is kept as it is.
   */
  lemma OnlyFirstOccurrence(name: string, text: string, rest: string)
    ensures Expanded([(name, text)], Placeholder(name) + rest) == text + rest
  {
    var s := Placeholder(name) + rest;
    var p := Placeholder(name);
    assert [(name, text)][..0] == [];
    assert s[0..|p|] == p;
    ReplaceAtFirst(s, p, text, 0);
    assert s[|p|..] == rest;
  }

  /** `.` in a JavaScript regular expression matches every character except these. */
  predicate IsLineTerminator(c: char)
  {
    c == '\n' || c == '\r' || c == '\U{2028}' || c == '\U{2029}'
  }

  /** A `{{` starts at index `i`. */
  predicate OpenAt(s: string, i: nat)
  {
    i + 1 < |s| && s[i] == '{' && s[i + 1] == '{'
  }

  /** A `}}` starts at index `i`. */
  predicate CloseAt(s: string, i: nat)
  {
    i + 1 < |s| && s[i] == '}' && s[i + 1] == '}'
  }

  /** The character tests agree with the substring test `OccursAt`. */
  lemma OpenAtOccurs(s: string, i: nat)
    ensures OpenAt(s, i) <==> OccursAt(s, "{{", i)
  {
    if i + 2 <= |s| {
      assert s[i..i + 2][0] == s[i] && s[i..i + 2][1] == s[i + 1];
    }
  }

  /** The first `}}` at or after index `k`, or -1. */
  function CloseFrom(s: string, k: nat): (r: int)
    decreases |s| - k
    ensures r == -1 || (k <= r && CloseAt(s, r))
    ensures r >= 0 ==> forall p :: k <= p < r ==> !CloseAt(s, p)
    ensures r == -1 ==> forall p :: k <= p ==> !CloseAt(s, p)
  {
    if k + 1 >= |s| then -1
    else if CloseAt(s, k) then k
    else CloseFrom(s, k + 1)
  }

  /** No line terminator in `s[a..b]`, so `.` can cross it. */
  predicate SameLine(s: string, a: nat, b: nat)
  {
    forall k :: a <= k < b && k < |s| ==> !IsLineTerminator(s[k])
  }

  /**
   * The matches of `/{{(.*?)}}/g` in `s` from index `i` on. At a `{{` the lazy
   * `.*?` reaches the first `}}` after it unless a line terminator comes first,
   * in which case the search resumes one character further on.
   */
  function MatchesFrom(s: string, i: nat): (r: seq<string>)
    decreases |s| - i
  {
    if i >= |s| then []
    else if OpenAt(s, i) then
      var j := CloseFrom(s, i + 2);
      if j >= 0 && SameLine(s, i + 2, j) then
        [s[i..j + 2]] + MatchesFrom(s, j + 2)
      else MatchesFrom(s, i + 1)
    else MatchesFrom(s, i + 1)
  }

  /** `s.match(/{{(.*?)}}/g)`, with no match written as the empty sequence rather than `null`. */
  function UnusedMatches(s: string): (r: seq<string>)
  {
    MatchesFrom(s, 0)
  }

  /**
   * The shape of a match of `/{{(.*?)}}/`: `{{`, then text without a line
   * terminator, ending at the first `}}` after the opening.
   */
  predicate IsPlaceholderMatch(m: string)
  {
    && |m| >= 4
    && OpenAt(m, 0)
    && CloseAt(m, |m| - 2)
    && (forall k :: 2 <= k < |m| - 2 ==> !IsLineTerminator(m[k]))
    && (forall k :: 2 <= k < |m| - 2 ==> !CloseAt(m, k))
  }

  /** The text from a `{{` up to the first `}}` after it, with no line terminator between, is a match. */
  lemma MatchAtShape(s: string, i: nat, j: int)
    requires OpenAt(s, i)
    requires j == CloseFrom(s, i + 2) && j >= 0
    requires SameLine(s, i + 2, j)
    ensures IsPlaceholderMatch(s[i..j + 2]) && Occurs(s, s[i..j + 2])
  {
    var m := s[i..j + 2];
    assert forall k :: 0 <= k < |m| ==> m[k] == s[i + k];
    forall k | 2 <= k < |m| - 2
      ensures !CloseAt(m, k)
    {
      assert !CloseAt(s, i + k);
    }
    assert OccursAt(s, m, i);
  }

  /** At a `{{` closed on the same line, the scan reports the text up to the `}}` and resumes after it. */
  lemma MatchStep(s: string, i: nat, j: int)
    requires i < |s| && OpenAt(s, i)
    requires j == CloseFrom(s, i + 2)
    requires j >= 0 && SameLine(s, i + 2, j)
    ensures MatchesFrom(s, i) == [s[i..j + 2]] + MatchesFrom(s, j + 2)
  {
  }

  /** Where no match starts, the scan moves on by one character. */
  lemma MatchSkip(s: string, i: nat)
    requires i < |s|
    requires !OpenAt(s, i) || CloseFrom(s, i + 2) < 0 || !SameLine(s, i + 2, CloseFrom(s, i + 2))
    ensures MatchesFrom(s, i) == MatchesFrom(s, i + 1)
  {
  }

  /**
   * Every reported match is a `{{`, then text without a line terminator,
   * up to the first `}}`, and it occurs in the scanned string.
   */
  lemma {:induction false} MatchesShape(s: string, i: nat)
    decreases |s| - i
    ensures forall m :: m in MatchesFrom(s, i) ==> IsPlaceholderMatch(m) && Occurs(s, m)
  {
    if i < |s| {
      if OpenAt(s, i) {
        var j := CloseFrom(s, i + 2);
        if j >= 0 && SameLine(s, i + 2, j) {
          var rest := MatchesFrom(s, j + 2);
          MatchStep(s, i, j);
          MatchesShape(s, j + 2);
          MatchAtShape(s, i, j);
          forall m | m in MatchesFrom(s, i)
            ensures IsPlaceholderMatch(m) && Occurs(s, m)
          {
            if m != s[i..j + 2] {
              assert m in rest;
            }
          }
        } else {
          MatchSkip(s, i);
          MatchesShape(s, i + 1);
        }
      } else {
        MatchSkip(s, i);
        MatchesShape(s, i + 1);
      }
    }
  }

  /** Without any `{{` there is nothing to report. */
  lemma {:induction false} NoOpeningNoMatches(s: string, i: nat)
    requires !Occurs(s, "{{")
    decreases |s| - i
    ensures MatchesFrom(s, i) == []
  {
    if i < |s| {
      assert !OccursAt(s, "{{", i);
      OpenAtOccurs(s, i);
      NoOpeningNoMatches(s, i + 1);
    }
  }

  /**
   * A placeholder left in a line is reported whole: for a name without `}` or
   * line terminators, the only match in `{{name}}` is `{{name}}` itself.
   */
  lemma LeftoverPlaceholderReported(name: string)
    requires forall k :: 0 <= k < |name| ==> name[k] != '}' && !IsLineTerminator(name[k])
    ensures UnusedMatches(Placeholder(name)) == [Placeholder(name)]
  {
    var s := Placeholder(name);
    var e := |name| + 2;
    assert OpenAt(s, 0);
    assert CloseAt(s, e);
    forall p | 2 <= p < e
      ensures !CloseAt(s, p)
    {
      assert s[p] == name[p - 2];
    }
    var j := CloseFrom(s, 2);
    assert j == e;
    assert forall k :: 2 <= k < j ==> s[k] == name[k - 2];
    assert s[0..j + 2] == s;
    MatchStep(s, 0, j);
    assert MatchesFrom(s, j + 2) == [];
  }

  /** A name that a `}}` or a line terminator cannot cut short. */
  predicate PlainName(name: string)
  {
    forall k :: 0 <= k < |name| ==> name[k] != '}' && !IsLineTerminator(name[k])
  }

  /** A `{{` at `p` closed by the first `}}` after it, at `e`, with no line terminator in between. */
  predicate LoneOpening(s: string, p: nat, e: nat)
  {
    OpenAt(s, p) && p + 2 <= e && CloseFrom(s, p + 2) == e && SameLine(s, p + 2, e)
  }

  /** A `{{name}}` at `p` is such an opening, closed at `p + |name| + 2`. */
  lemma PlaceholderLayout(s: string, name: string, p: nat)
    requires PlainName(name) && OccursAt(s, Placeholder(name), p)
    ensures LoneOpening(s, p, p + |name| + 2)
    ensures s[p..p + |name| + 4] == Placeholder(name)
  {
    var t := Placeholder(name);
    var e := p + |name| + 2;
    assert forall k :: 0 <= k < |t| ==> s[p + k] == t[k];
    assert forall k :: p + 2 <= k < e ==> s[k] == name[k - p - 2];
    assert s[p] == '{' && s[p + 1] == '{' && s[e] == '}' && s[e + 1] == '}';
    assert forall q: nat :: p + 2 <= q < e ==> !CloseAt(s, q);
    FirstClose(s, p + 2, e);
  }

  /** A `}}` at `e` with none from `k` up to it is the first one from `k`. */
  lemma FirstClose(s: string, k: nat, e: nat)
    requires k <= e && CloseAt(s, e)
    requires forall q: nat :: k <= q < e ==> !CloseAt(s, q)
    ensures CloseFrom(s, k) == e
  {
  }

  /** The first `}}` after a `{{` at or before `p` is the one at `e`, unless it ends before `p`. */
  lemma CloseAfterOpening(s: string, p: nat, e: nat, i: nat)
    requires LoneOpening(s, p, e) && i <= p
    ensures var j := CloseFrom(s, i + 2);
      && 0 <= j <= e
      && (p < j + 2 ==> j == e)
  {
  }

  /**
   * From any index up to `p`, the scan reports a match that contains the
   * text from `p` through the `}}` at `e`: either a match that began earlier
   * runs on to that `}}`, or the scan reaches `p` and matches it exactly.
   * The match is the `k`-th, and the text sits in it at `off`.
   */
  lemma {:induction false} ReportedFrom(s: string, p: nat, e: nat, i: nat) returns (k: nat, off: nat)
    requires LoneOpening(s, p, e) && i <= p
    decreases p - i
    ensures k < |MatchesFrom(s, i)| && OccursAt(MatchesFrom(s, i)[k], s[p..e + 2], off)
  {
    if i == p {
      MatchAtOpening(s, p, e);
      k, off := 0, 0;
    } else {
      var next, before, done := ScanStep(s, p, e, i);
      if done {
        k, off := 0, p - i;
      } else {
        var k', off' := ReportedFrom(s, p, e, next);
        k, off := |before| + k', off';
        assert MatchesFrom(s, i)[k] == MatchesFrom(s, next)[k'];
      }
    }
  }

  /**
   * One step of the scan before `p`: either the match at `i` already contains
   * the text at `p`, or the scan's matches from `i` are those in `before`
   * followed by its matches from `next`.
   */
  lemma ScanStep(s: string, p: nat, e: nat, i: nat) returns (next: nat, before: seq<string>, done: bool)
    requires LoneOpening(s, p, e) && i < p
    ensures done ==> |MatchesFrom(s, i)| > 0 && OccursAt(MatchesFrom(s, i)[0], s[p..e + 2], p - i)
    ensures !done ==> i < next <= p && MatchesFrom(s, i) == before + MatchesFrom(s, next)
  {
    CloseAfterOpening(s, p, e, i);
    var j := CloseFrom(s, i + 2);
    if OpenAt(s, i) && SameLine(s, i + 2, j) {
      if j + 2 <= p {
        MatchStep(s, i, j);
        next, before, done := j + 2, [s[i..j + 2]], false;
      } else {
        MatchRunsOn(s, p, e, i);
        next, before, done := i, [], true;
      }
    } else {
      MatchSkip(s, i);
      next, before, done := i + 1, [], false;
    }
  }

  /** The scan at the opening `p` reports the text through the `}}` at `e` first. */
  lemma MatchAtOpening(s: string, p: nat, e: nat)
    requires LoneOpening(s, p, e)
    ensures |MatchesFrom(s, p)| > 0 && OccursAt(MatchesFrom(s, p)[0], s[p..e + 2], 0)
  {
    CloseAfterOpening(s, p, e, p);
    MatchStep(s, p, e);
  }

  /** A match that starts before `p` and is not over by then ends at `e` and contains `s[p..e + 2]`. */
  lemma MatchRunsOn(s: string, p: nat, e: nat, i: nat)
    requires LoneOpening(s, p, e) && i < p
    requires OpenAt(s, i) && SameLine(s, i + 2, CloseFrom(s, i + 2)) && p < CloseFrom(s, i + 2) + 2
    ensures |MatchesFrom(s, i)| > 0 && OccursAt(MatchesFrom(s, i)[0], s[p..e + 2], p - i)
  {
    CloseAfterOpening(s, p, e, i);
    MatchStep(s, i, e);
    SliceContains(s, i, p, e + 2);
  }

  /** The tail `s[p..b]` of the slice `s[i..b]` occurs in it at `p - i`. */
  lemma SliceContains(s: string, i: nat, p: nat, b: nat)
    requires i <= p <= b <= |s|
    ensures OccursAt(s[i..b], s[p..b], p - i)
  {
    assert s[i..b][p - i..b - i] == s[p..b];
  }

  /**
   * A `{{name}}` left anywhere in a line is reported: some match of the line,
   * and so some warning, contains it.
   */
  lemma PlaceholderInLineReported(s: string, name: string, p: nat)
    requires PlainName(name) && OccursAt(s, Placeholder(name), p)
    ensures exists m :: m in UnusedMatches(s) && Occurs(m, Placeholder(name))
  {
    var e := p + |name| + 2;
    PlaceholderLayout(s, name, p);
    var k, off := ReportedFrom(s, p, e, 0);
    assert MatchesFrom(s, 0)[k] in UnusedMatches(s);
  }
}
