/** Small vocabulary shared by every module: optional values (C#'s `null`),
    the `string.IsNullOrEmpty` test, and an order-preserving filter. */
module Common {

  /** A value that may be absent; `None` stands for a C# `null` reference. */
  datatype Option<+T> = None | Some(value: T)

  /** `string.IsNullOrEmpty` on a C# string reference. */
  predicate IsNullOrEmpty(s: Option<string>) {
    s.None? || s.value == ""
  }

  /** `r` is obtained from `s` by deleting elements, keeping the order of the rest. */
  ghost predicate IsSubsequence<T>(r: seq<T>, s: seq<T>)
    decreases |s|
  {
    if r == [] then true
    else if s == [] then false
    else if r[0] == s[0] then IsSubsequence(r[1..], s[1..])
    else IsSubsequence(r, s[1..])
  }

  /** The elements of `s` that satisfy `keep`, in their original order
      (`List.RemoveAll` of the complement, or a `foreach` that adds the matches). */
  function Filter<T>(s: seq<T>, keep: T -> bool): (r: seq<T>)
    ensures |r| <= |s|
    ensures forall i :: 0 <= i < |r| ==> r[i] in s && keep(r[i])
    ensures forall i :: 0 <= i < |s| && keep(s[i]) ==> s[i] in r
    ensures IsSubsequence(r, s)
    ensures forall i :: 0 <= i < |s| ==> multiset(r)[s[i]] == if keep(s[i]) then multiset(s)[s[i]] else 0
    decreases |s|
  {
    if s == [] then []
    else
      assert s == [s[0]] + s[1..];
      if keep(s[0]) then [s[0]] + Filter(s[1..], keep)
      else Filter(s[1..], keep)
  }

  /** Filtering distributes over appending one element: the step a loop that
      filters element by element takes. */
  lemma {:induction false} FilterSnoc<T>(s: seq<T>, x: T, keep: T -> bool)
    ensures Filter(s + [x], keep) == Filter(s, keep) + (if keep(x) then [x] else [])
    decreases |s|
  {
    if s == [] {
      assert s + [x] == [x];
    } else {
      assert (s + [x])[0] == s[0];
      assert (s + [x])[1..] == s[1..] + [x];
      FilterSnoc(s[1..], x, keep);
    }
  }

  /** `FilterSnoc` for one more element of a prefix: the step of a loop that
      filters a list element by element. */
  lemma FilterPrefixStep<T>(s: seq<T>, i: nat, keep: T -> bool)
    requires i < |s|
    ensures Filter(s[..i + 1], keep) == Filter(s[..i], keep) + (if keep(s[i]) then [s[i]] else [])
  {
    assert s[..i + 1] == s[..i] + [s[i]];
    FilterSnoc(s[..i], s[i], keep);
  }

  /** Appending is associative: the step that lets a trace grown call by call
      be compared with one grown a run at a time. */
  lemma {:induction false} AppendAssoc<T>(a: seq<T>, b: seq<T>, c: seq<T>)
    ensures a + (b + c) == a + b + c
  {
  }

  /** Pairs up two lists of the same length. */
  function Zip<A, B>(xs: seq<A>, ys: seq<B>): (r: seq<(A, B)>)
    requires |xs| == |ys|
    ensures |r| == |xs|
    ensures forall i :: 0 <= i < |r| ==> r[i] == (xs[i], ys[i])
  {
    seq(|xs|, i requires 0 <= i < |xs| => (xs[i], ys[i]))
  }

  /** The result of one step, or of a run of steps, that can fail. */
  datatype Stepped<S> = Stepped(ok: bool, state: S)

  /** A `foreach` loop that returns `false` at the first failing step: `step` is
      applied to `items` in order, each seeing the state the previous one left,
      and the run ends, failed, at the first step that fails. */
  function RunSteps<S, C>(step: (S, C) -> Stepped<S>, start: S, items: seq<C>): (r: Stepped<S>)
    decreases |items|
  {
    if items == [] then Stepped(true, start)
    else
      var pre := RunSteps(step, start, items[..|items| - 1]);
      if !pre.ok then pre else step(pre.state, items[|items| - 1])
  }

  /** One more item: the run to `i + 1` is the run to `i`, then item `i` if
      nothing has failed yet. */
  lemma RunStepsSnoc<S, C>(step: (S, C) -> Stepped<S>, start: S, items: seq<C>, i: nat)
    requires i < |items|
    ensures var pre := RunSteps(step, start, items[..i]);
      RunSteps(step, start, items[..i + 1]) == if pre.ok then step(pre.state, items[i]) else pre
  {
    assert items[..i + 1][..i] == items[..i];
  }

  /** Once a prefix of the run has failed, the later items change nothing:
      they are never attempted. */
  lemma {:induction false} RunStepsFailureIsFinal<S, C>(step: (S, C) -> Stepped<S>, start: S, items: seq<C>, k: nat)
    requires k <= |items|
    requires !RunSteps(step, start, items[..k]).ok
    ensures RunSteps(step, start, items) == RunSteps(step, start, items[..k])
    decreases |items|
  {
    if k == |items| {
      assert items[..k] == items;
    } else {
      var init := items[..|items| - 1];
      assert init[..k] == items[..k];
      RunStepsFailureIsFinal(step, start, init, k);
    }
  }

  /** A failed run is exactly its first failing step on top of the successful
      run of the items before it. */
  lemma {:induction false} RunStepsStopsAtFirstFailure<S, C>(step: (S, C) -> Stepped<S>, start: S, items: seq<C>)
    requires !RunSteps(step, start, items).ok
    ensures exists k :: 0 <= k < |items| && RunSteps(step, start, items[..k]).ok
              && RunSteps(step, start, items) == step(RunSteps(step, start, items[..k]).state, items[k])
    decreases |items|
  {
    var n := |items|;
    var init := items[..n - 1];
    var pre := RunSteps(step, start, init);
    if pre.ok {
      assert RunSteps(step, start, items[..n - 1]).ok;
    } else {
      RunStepsStopsAtFirstFailure(step, start, init);
      var k :| 0 <= k < |init| && RunSteps(step, start, init[..k]).ok
               && RunSteps(step, start, init) == step(RunSteps(step, start, init[..k]).state, init[k]);
      assert init[..k] == items[..k] && init[k] == items[k];
    }
  }

  /** A successful run succeeded at every prefix: every item was attempted,
      in order, and every step succeeded. */
  lemma {:induction false} RunStepsOkThroughout<S, C>(step: (S, C) -> Stepped<S>, start: S, items: seq<C>, k: nat)
    requires k <= |items|
    requires RunSteps(step, start, items).ok
    ensures RunSteps(step, start, items[..k]).ok
    decreases |items|
  {
    if k == |items| {
      assert items[..k] == items;
    } else {
      var init := items[..|items| - 1];
      assert init[..k] == items[..k];
      RunStepsOkThroughout(step, start, init, k);
    }
  }
}
