/**
 * The JavaScript string builtins the template engine relies on, for a
 * string (never a regular expression) pattern: `indexOf`, `replace`,
 * `split` and `Array.prototype.join`.
 */
module Strings {

  /** `pat` occurs in `s` starting at index `i`. */
  predicate OccursAt(s: string, pat: string, i: nat)
  {
    i + |pat| <= |s| && s[i..i + |pat|] == pat
  }

  /** `pat` occurs somewhere in `s`. */
  predicate Occurs(s: string, pat: string)
  {
    exists i: nat | i <= |s| :: OccursAt(s, pat, i)
  }

  /** `s.indexOf(pat, from)`: the first index at or after `from` where `pat` occurs, or -1. */
  function IndexFrom(s: string, pat: string, from: nat): (r: int)
    decreases |s| - from
    ensures r == -1 || (from <= r && OccursAt(s, pat, r))
    ensures r == -1 ==> forall j: nat :: from <= j ==> !OccursAt(s, pat, j)
    ensures r >= 0 ==> forall j: nat :: from <= j < r ==> !OccursAt(s, pat, j)
  {
    if from + |pat| > |s| then -1
    else if s[from..from + |pat|] == pat then from
    else IndexFrom(s, pat, from + 1)
  }

  /** `s.indexOf(pat)`. */
  function IndexOf(s: string, pat: string): (r: int)
  {
    IndexFrom(s, pat, 0)
  }

  /**
   * `s.replace(pat, rep)` with a string pattern: only the first occurrence
   * of `pat` is replaced; without one, `s` comes back unchanged.
   */
  function ReplaceFirst(s: string, pat: string, rep: string): (r: string)
  {
    var i := IndexOf(s, pat);
    if i < 0 then s else s[..i] + rep + s[i + |pat|..]
  }

  lemma ReplaceAbsent(s: string, pat: string, rep: string)
    requires !Occurs(s, pat)
    ensures ReplaceFirst(s, pat, rep) == s
  {
  }

  /** When the first occurrence of `pat` is at `i`, exactly that occurrence is replaced. */
  lemma ReplaceAtFirst(s: string, pat: string, rep: string, i: nat)
    requires OccursAt(s, pat, i)
    requires forall j: nat :: j < i ==> !OccursAt(s, pat, j)
    ensures ReplaceFirst(s, pat, rep) == s[..i] + rep + s[i + |pat|..]
  {
    assert IndexOf(s, pat) == i;
  }

  /** The first occurrence comes no later than any occurrence. */
  lemma FirstAtMost(s: string, pat: string, i: nat)
    requires OccursAt(s, pat, i)
    ensures 0 <= IndexOf(s, pat) <= i
  {
  }

  /** A slice lying inside the second part of a concatenation is a slice of that part. */
  lemma SliceOfSuffix(x: string, y: string, a: nat, b: nat)
    requires |x| <= a <= b <= |x| + |y|
    ensures (x + y)[a..b] == y[a - |x|..b - |x|]
  {
    forall t | 0 <= t < b - a
      ensures (x + y)[a..b][t] == y[a - |x|..b - |x|][t]
    {
      assert (x + y)[a + t] == y[a + t - |x|];
    }
  }

  /** A slice of a suffix is a slice of the whole. */
  lemma SliceOfDrop(s: string, c: nat, a: nat, b: nat)
    requires c <= |s| && a <= b <= |s| - c
    ensures s[c..][a..b] == s[c + a..c + b]
  {
  }

  /**
   * Only the first occurrence is replaced: a second occurrence that does not
   * overlap an earlier one is still present, shifted, in the result.
   */
  lemma {:induction false} LaterOccurrenceSurvives(s: string, pat: string, rep: string, i: nat, j: nat)
    requires OccursAt(s, pat, i) && OccursAt(s, pat, j) && i + |pat| <= j
    ensures Occurs(ReplaceFirst(s, pat, rep), pat)
  {
    FirstAtMost(s, pat, i);
    var k := IndexOf(s, pat);
    var head, tail := s[..k] + rep, s[k + |pat|..];
    var r := ReplaceFirst(s, pat, rep);
    assert r == head + tail;
    assert |head| == k + |rep| && |tail| == |s| - k - |pat|;
    var j' := j - |pat| + |rep|;
    var d := j - k - |pat|;
    assert j' == |head| + d && d + |pat| <= |tail|;
    SliceOfSuffix(head, tail, j', j' + |pat|);
    SliceOfDrop(s, k + |pat|, d, d + |pat|);
    assert r[j'..j' + |pat|] == s[j..j + |pat|];
    assert OccursAt(r, pat, j');
  }

  /** `s.split(sep)` for a non-empty separator. */
  function Split(s: string, sep: string): (parts: seq<string>)
    requires sep != ""
    decreases |s|
    ensures |parts| >= 1
  {
    var i := IndexOf(s, sep);
    if i < 0 then [s] else [s[..i]] + Split(s[i + |sep|..], sep)
  }

  /** `parts.join(sep)`. */
  function Join(parts: seq<string>, sep: string): (r: string)
  {
    if parts == [] then ""
    else if |parts| == 1 then parts[0]
    else parts[0] + sep + Join(parts[1..], sep)
  }

  /** Joining the pieces of a split with the same separator gives the original text back. */
  lemma {:induction false} JoinSplit(s: string, sep: string)
    requires sep != ""
    decreases |s|
    ensures Join(Split(s, sep), sep) == s
  {
    var i := IndexOf(s, sep);
    if i >= 0 {
      var rest := s[i + |sep|..];
      var tail := Split(rest, sep);
      JoinSplit(rest, sep);
      var parts := [s[..i]] + tail;
      assert Split(s, sep) == parts;
      assert parts[1..] == tail;
      assert Join(parts, sep) == s[..i] + sep + rest;
      assert s == s[..i] + s[i..i + |sep|] + rest;
    }
  }

  /** No piece of a split contains the separator. */
  lemma {:induction false} SplitPiecesFree(s: string, sep: string)
    requires sep != ""
    decreases |s|
    ensures forall k :: 0 <= k < |Split(s, sep)| ==> !Occurs(Split(s, sep)[k], sep)
  {
    var i := IndexOf(s, sep);
    if i >= 0 {
      var rest := s[i + |sep|..];
      SplitPiecesFree(rest, sep);
      var head := s[..i];
      assert !Occurs(head, sep) by {
        forall j: nat | OccursAt(head, sep, j)
          ensures false
        {
          assert s[j..j + |sep|] == head[j..j + |sep|];
          assert OccursAt(s, sep, j);
        }
      }
      assert Split(s, sep) == [head] + Split(rest, sep);
    }
  }
}
