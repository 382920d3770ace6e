/** Sequence and string operations the preprocessor relies on, with the java.lang.String semantics it uses. */
module Sequences {
  import opened Wrappers

  /** String.startsWith. */
  predicate StartsWith(s: string, prefix: string) {
    |prefix| <= |s| && s[..|prefix|] == prefix
  }

  /** `t` occurs in `s` starting at index `i`. */
  predicate OccursAt(s: string, t: string, i: int) {
    0 <= i && i + |t| <= |s| && s[i..i + |t|] == t
  }

  /** String.contains. */
  predicate Contains(s: string, t: string) {
    exists i :: 0 <= i <= |s| - |t| && OccursAt(s, t, i)
  }

  /** The middle part of a concatenation occurs in it. */
  lemma ContainsInfix(a: string, b: string, c: string)
    ensures Contains(a + b + c, b)
  {
    assert (a + b + c)[|a|..|a| + |b|] == b;
    assert OccursAt(a + b + c, b, |a|);
  }

  /**
   * String.replace(target, replacement) for a non-empty target: scanning left to right,
   * every non-overlapping occurrence of `target` is replaced, not only a leading one.
   */
  function ReplaceAll(s: string, target: string, replacement: string): (r: string)
    requires target != []
    ensures |replacement| <= |target| ==> |r| <= |s|
    decreases |s|
  {
    if |s| < |target| then s
    else if s[..|target|] == target then replacement + ReplaceAll(s[|target|..], target, replacement)
    else [s[0]] + ReplaceAll(s[1..], target, replacement)
  }

  /** A string in which the target does not occur is left unchanged. */
  lemma {:induction false} ReplaceAllWithoutTarget(s: string, target: string, replacement: string)
    requires target != []
    requires !Contains(s, target)
    ensures ReplaceAll(s, target, replacement) == s
    decreases |s|
  {
    if |s| >= |target| {
      assert !OccursAt(s, target, 0);
      var tail := s[1..];
      assert !Contains(tail, target) by {
        forall i | OccursAt(tail, target, i)
          ensures false
        {
          assert s[i + 1..i + 1 + |target|] == tail[i..i + |target|];
          assert OccursAt(s, target, i + 1);
        }
      }
      ReplaceAllWithoutTarget(tail, target, replacement);
      assert s == [s[0]] + tail;
    }
  }

  /** An occurrence at the front is replaced and the scan continues right after it. */
  lemma ReplaceAllLeadingTarget(target: string, rest: string, replacement: string)
    requires target != []
    ensures ReplaceAll(target + rest, target, replacement) == replacement + ReplaceAll(rest, target, replacement)
  {
    var s := target + rest;
    assert s[..|target|] == target;
    assert s[|target|..] == rest;
  }

  /** The first index whose element is `bad`: the first failure of a left-to-right loop that stops on it. */
  function FirstIndex<T>(xs: seq<T>, bad: T -> bool): (r: Option<nat>)
    ensures r.Some? ==> r.value < |xs| && bad(xs[r.value]) && forall j :: 0 <= j < r.value ==> !bad(xs[j])
    ensures r.None? <==> forall j :: 0 <= j < |xs| ==> !bad(xs[j])
    decreases |xs|
  {
    if xs == [] then None
    else if bad(xs[0]) then Some(0)
    else match FirstIndex(xs[1..], bad)
      case None => None
      case Some(i) => Some(i + 1)
  }

  /** The index reported by FirstIndex is determined by the elements before and at it. */
  lemma FirstIndexAt<T>(xs: seq<T>, bad: T -> bool, i: nat)
    requires i < |xs| && bad(xs[i])
    requires forall j :: 0 <= j < i ==> !bad(xs[j])
    ensures FirstIndex(xs, bad) == Some(i)
  {
  }
}
