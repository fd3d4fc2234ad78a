/**
 * `Pipeline`: the older chain runner. Each `execute` call (a tick) walks the
 * sub-list of the chain from the stored `index` to the end, starting from
 * the stored `state`. On `Eos` it stores that state and, as written, the
 * position of the ending step WITHIN THE WALKED SUB-LIST as the new index.
 *
 * `executeStep` calls `step(previous)` without a freshness flag, so the
 * calls here carry none. The pure functions `RunPlainStep`, `PlainWalk` and
 * `PlainTick` specify one tick; the class `Pipeline` performs it in place.
 */
module Pipelines {
  import opened Common
  import opened Steps

  /** One `step.step(previous)` invocation and the step's answer. */
  datatype Invocation = Invocation(step: nat, input: State, answer: State)

  /** The outcome of `executeStep`: the accepted state (`None` for a wait), the step's remaining script and the calls made. */
  datatype PlainRun = PlainRun(out: Option<State>, script: seq<State>, calls: seq<Invocation>)

  /** `executeStep`: call step `k` with the same previous state until it answers something other than `Retry`. */
  function RunPlainStep(k: nat, script: seq<State>, previous: State): (r: PlainRun)
    ensures |r.calls| >= 1
    ensures r.calls[0] == Invocation(k, previous, Answer(script))
    ensures r.out.Some? ==> r.out.value.IsOk() && r.out.value == Last(r.calls).answer
    ensures r.out.None? ==> Last(r.calls).answer.Wait?
    ensures |r.script| <= |script|
    decreases |script|
  {
    var a := Answer(script);
    var call := Invocation(k, previous, a);
    if a.IsOk() then PlainRun(Some(a), Rest(script), [call])
    else if a.Retry? then
      var again := RunPlainStep(k, script[1..], previous);
      PlainRun(again.out, again.script, [call] + again.calls)
    else PlainRun(None, Rest(script), [call])
  }

  /** Every call of one `executeStep` goes to step `k` with the same input, and all but the last were answered `Retry`. */
  predicate RetriedInvocations(calls: seq<Invocation>, k: nat, previous: State) {
    (forall j :: 0 <= j < |calls| ==> calls[j].step == k && calls[j].input == previous) &&
    (forall j :: 0 <= j < |calls| - 1 ==> calls[j].answer.Retry?)
  }

  lemma {:induction false} RunPlainStepCalls(k: nat, script: seq<State>, previous: State)
    ensures RetriedInvocations(RunPlainStep(k, script, previous).calls, k, previous)
    decreases |script|
  {
    var a := Answer(script);
    if !a.IsOk() && a.Retry? {
      RunPlainStepCalls(k, script[1..], previous);
      var again := RunPlainStep(k, script[1..], previous).calls;
      var calls := RunPlainStep(k, script, previous).calls;
      assert calls == [Invocation(k, previous, a)] + again;
      forall j | 0 < j < |calls|
        ensures calls[j] == again[j - 1]
      {
      }
    }
  }

  /** The pipeline's stored `state` and `index`, and each step's remaining answers. */
  datatype PlainSnapshot = PlainSnapshot(state: State, index: nat, scripts: seq<seq<State>>)

  datatype PlainTickResult = PlainTickResult(result: State, after: PlainSnapshot, calls: seq<Invocation>)

  /**
   * What the source maintains: the stored state is `Ok(Unit)` or an `Eos`,
   * and the index is a position inside the chain (0 for an empty chain).
   */
  predicate PlainWellFormed(s: PlainSnapshot) {
    (s.index < |s.scripts| || s.index == 0) && (s.state == Ok(Unit) || s.state.Eos?)
  }

  /** The value `execute` returns after the loop. */
  function PlainFinal(state: State, size: nat): (r: State)
    ensures r == Eos(Unit) || r == Ok(Unit)
    ensures r.Eos? <==> state.Eos? || size == 0
  {
    if state.Eos? || size == 0 then Eos(Unit) else Ok(Unit)
  }

  /** The snapshot after `executeStep` ran on step `k` of the sub-list starting at `start`. */
  function AfterPlainStep(s: PlainSnapshot, start: nat, k: nat, run: PlainRun): (r: PlainSnapshot)
    requires start <= k < |s.scripts|
    ensures |r.scripts| == |s.scripts|
  {
    var s1 := s.(scripts := s.scripts[k := run.script]);
    if run.out.Some? && run.out.value.Eos? then s1.(state := run.out.value, index := k - start) else s1
  }

  /** The rest of a tick that walks the sub-list starting at `start`, now at step `k`. */
  function PlainWalk(s: PlainSnapshot, start: nat, k: nat, state: State): (r: PlainTickResult)
    requires start <= k <= |s.scripts| && state.IsOk()
    ensures |r.after.scripts| == |s.scripts|
    ensures r.result in {Wait(false), Ok(Unit), Eos(Unit)}
    decreases |s.scripts| - k
  {
    if k == |s.scripts| then PlainTickResult(PlainFinal(state, |s.scripts|), s, [])
    else
      var run := RunPlainStep(k, s.scripts[k], state);
      var s2 := AfterPlainStep(s, start, k, run);
      if run.out.None? then PlainTickResult(Wait(false), s2, run.calls)
      else
        var rest := PlainWalk(s2, start, k + 1, run.out.value);
        PlainTickResult(rest.result, rest.after, run.calls + rest.calls)
  }

  /** `execute`: walk `chain.subList(index, chain.size)` from the stored state. */
  function PlainTick(s: PlainSnapshot): (r: PlainTickResult)
    requires PlainWellFormed(s)
  {
    PlainWalk(s, s.index, s.index, s.state)
  }

  /** Every invocation is to a step in `[lo, hi)`. */
  predicate InvokedWithin(calls: seq<Invocation>, lo: nat, hi: nat) {
    forall j :: 0 <= j < |calls| ==> lo <= calls[j].step < hi
  }

  lemma InvokedWithinConcat(a: seq<Invocation>, b: seq<Invocation>, lo: nat, hi: nat)
    requires InvokedWithin(a, lo, hi) && InvokedWithin(b, lo, hi)
    ensures InvokedWithin(a + b, lo, hi)
  {
    var c := a + b;
    forall j | 0 <= j < |c|
      ensures lo <= c[j].step < hi
    {
      if j < |a| {
        assert c[j] == a[j];
      } else {
        assert c[j] == b[j - |a|];
      }
    }
  }

  lemma {:induction false} PlainWalkWithin(s: PlainSnapshot, start: nat, k: nat, state: State)
    requires start <= k <= |s.scripts| && state.IsOk()
    ensures InvokedWithin(PlainWalk(s, start, k, state).calls, k, |s.scripts|)
    decreases |s.scripts| - k
  {
    if k < |s.scripts| {
      var run := RunPlainStep(k, s.scripts[k], state);
      RunPlainStepCalls(k, s.scripts[k], state);
      if run.out.Some? {
        var s2 := AfterPlainStep(s, start, k, run);
        PlainWalkWithin(s2, start, k + 1, run.out.value);
        InvokedWithinConcat(run.calls, PlainWalk(s2, start, k + 1, run.out.value).calls, k, |s.scripts|);
      }
    }
  }

  /** A tick invokes only the steps of the sub-list from the stored index to the end. */
  lemma PlainTickWalksSubList(s: PlainSnapshot)
    requires PlainWellFormed(s)
    ensures InvokedWithin(PlainTick(s).calls, s.index, |s.scripts|)
  {
    PlainWalkWithin(s, s.index, s.index, s.state);
  }

  /**
   * A stored state and index that changed come from an `Eos` answered during
   * the walk: the new index is that step's position in the walked sub-list,
   * which starts at chain index `start`.
   */
  predicate IndexIsSubListPosition(before: PlainSnapshot, start: nat, r: PlainTickResult) {
    (r.after.index != before.index || r.after.state != before.state) ==>
      r.after.state.Eos? &&
      exists j: nat :: j < |r.calls| && r.calls[j].step == start + r.after.index &&
        r.calls[j].answer == r.after.state
  }

  /** The call at position `j` of `a + b` witnesses the stored index. */
  lemma IndexFromCall(a: seq<Invocation>, b: seq<Invocation>, j: nat, step: nat, answer: State)
    requires j < |a| + |b|
    requires j < |a| ==> a[j].step == step && a[j].answer == answer
    requires j >= |a| ==> b[j - |a|].step == step && b[j - |a|].answer == answer
    ensures exists i: nat :: i < |a + b| && (a + b)[i].step == step && (a + b)[i].answer == answer
  {
    assert j < |a| ==> (a + b)[j] == a[j];
    assert j >= |a| ==> (a + b)[j] == b[j - |a|];
  }

  lemma {:induction false} PlainWalkIndex(s: PlainSnapshot, start: nat, k: nat, state: State)
    requires start <= k <= |s.scripts| && state.IsOk()
    ensures IndexIsSubListPosition(s, start, PlainWalk(s, start, k, state))
    decreases |s.scripts| - k
  {
    if k < |s.scripts| {
      var run := RunPlainStep(k, s.scripts[k], state);
      if run.out.Some? {
        PlainWalkIndex(AfterPlainStep(s, start, k, run), start, k + 1, run.out.value);
        PlainIndexStep(s, start, k, state);
      }
    }
  }

  /** The inductive step of `PlainWalkIndex`: the witness is this step's last call or a later step's. */
  lemma PlainIndexStep(s: PlainSnapshot, start: nat, k: nat, state: State)
    requires start <= k < |s.scripts| && state.IsOk()
    requires var run := RunPlainStep(k, s.scripts[k], state);
      var s2 := AfterPlainStep(s, start, k, run);
      run.out.Some? && IndexIsSubListPosition(s2, start, PlainWalk(s2, start, k + 1, run.out.value))
    ensures IndexIsSubListPosition(s, start, PlainWalk(s, start, k, state))
  {
    var run := RunPlainStep(k, s.scripts[k], state);
    var s2 := AfterPlainStep(s, start, k, run);
    var rest := PlainWalk(s2, start, k + 1, run.out.value);
    if rest.after.index != s2.index || rest.after.state != s2.state {
      var j: nat :| j < |rest.calls| && rest.calls[j].step == start + rest.after.index &&
        rest.calls[j].answer == rest.after.state;
      IndexFromCall(run.calls, rest.calls, |run.calls| + j, start + rest.after.index, rest.after.state);
    } else if s2.index != s.index || s2.state != s.state {
      RunPlainStepCalls(k, s.scripts[k], state);
      IndexFromCall(run.calls, rest.calls, |run.calls| - 1, start + rest.after.index, rest.after.state);
    }
  }

  /** On `Eos` the stored index becomes the ending step's position within the walked sub-list. */
  lemma PlainTickIndex(s: PlainSnapshot)
    requires PlainWellFormed(s)
    ensures IndexIsSubListPosition(s, s.index, PlainTick(s))
  {
    PlainWalkIndex(s, s.index, s.index, s.state);
  }

  /** A tick keeps the stored state and index well formed. */
  lemma {:induction false} PlainWalkKeepsWellFormed(s: PlainSnapshot, start: nat, k: nat, state: State)
    requires start <= k <= |s.scripts| && state.IsOk() && PlainWellFormed(s)
    ensures PlainWellFormed(PlainWalk(s, start, k, state).after)
    decreases |s.scripts| - k
  {
    if k < |s.scripts| {
      var run := RunPlainStep(k, s.scripts[k], state);
      if run.out.Some? {
        PlainWalkKeepsWellFormed(AfterPlainStep(s, start, k, run), start, k + 1, run.out.value);
      }
    }
  }

  /**
   * The tick's result: `Wait` exactly when some step's last answer was
   * `Wait`, and then the walk stopped there; otherwise `Eos(Unit)` when the
   * chain is empty or the last step's accepted state was `Eos`, else `Ok(Unit)`.
   */
  lemma {:induction false} PlainWalkResult(s: PlainSnapshot, start: nat, k: nat, state: State)
    requires start <= k <= |s.scripts| && state.IsOk()
    ensures var r := PlainWalk(s, start, k, state);
      r.result.Wait? <==> |r.calls| > 0 && Last(r.calls).answer.Wait?
    ensures var r := PlainWalk(s, start, k, state);
      r.result.IsOk() ==> r.result.value == Unit
    ensures var r := PlainWalk(s, start, k, state);
      r.result.IsOk() ==>
        (r.result.Eos? <==>
          |s.scripts| == 0 || (k == |s.scripts| && state.Eos?) || (|r.calls| > 0 && Last(r.calls).answer.Eos?))
    decreases |s.scripts| - k
  {
    if k < |s.scripts| {
      var run := RunPlainStep(k, s.scripts[k], state);
      RunPlainStepCalls(k, s.scripts[k], state);
      if run.out.Some? {
        var s2 := AfterPlainStep(s, start, k, run);
        PlainWalkResult(s2, start, k + 1, run.out.value);
        var rest := PlainWalk(s2, start, k + 1, run.out.value);
        if |rest.calls| > 0 {
          assert Last(run.calls + rest.calls) == Last(rest.calls);
        }
      }
    }
  }

  lemma PlainTickResultKind(s: PlainSnapshot)
    requires PlainWellFormed(s)
    ensures var r := PlainTick(s);
      r.result.Wait? <==> |r.calls| > 0 && Last(r.calls).answer.Wait?
    ensures var r := PlainTick(s);
      r.result.IsOk() ==> r.result.value == Unit
    ensures var r := PlainTick(s);
      r.result.IsOk() ==> (r.result.Eos? <==> |s.scripts| == 0 || (|r.calls| > 0 && Last(r.calls).answer.Eos?))
  {
    PlainWalkResult(s, s.index, s.index, s.state);
    if |s.scripts| > 0 {
      assert |PlainTick(s).calls| > 0;
    }
  }

  class Pipeline {
    const kinds: seq<StepKind>
    var state: State
    var index: nat
    /** Each step's future answers to `step`. */
    var scripts: seq<seq<State>>
    /** Every `step` call made so far. */
    var calls: seq<Invocation>
    /** The steps whose `release` was called, in call order. */
    var released: seq<nat>
    /** Each step's `channel` once the chain is initialized. */
    var channels: seq<Option<int>>
    /** The channel each step's `initialize` received; `None` for the last step. */
    var nextOf: seq<Option<int>>

    ghost predicate Valid()
      reads this
    {
      |scripts| == |kinds| && |channels| == |kinds| && |nextOf| == |kinds| && PlainWellFormed(Snap())
    }

    function Snap(): PlainSnapshot
      reads this
    {
      PlainSnapshot(state, index, scripts)
    }

    /** The `init` block wires the chain; the stored state starts at `Ok(Unit)` and the index at 0. */
    constructor(kinds: seq<StepKind>, scripts: seq<seq<State>>)
      requires |scripts| == |kinds|
      ensures Valid()
      ensures state == Ok(Unit) && index == 0
      ensures this.kinds == kinds && this.scripts == scripts && calls == [] && released == []
      ensures forall i :: 0 <= i < |kinds| ==> channels[i] == ChannelOf(kinds, i)
      ensures forall i :: 0 <= i < |kinds| - 1 ==> nextOf[i] == ChannelOf(kinds, i + 1)
      ensures |kinds| > 0 ==> nextOf[|kinds| - 1] == None
    {
      this.kinds := kinds;
      state := Ok(Unit);
      index := 0;
      this.scripts := scripts;
      calls := [];
      released := [];
      var chans, nexts := WireChain(kinds);
      channels := chans;
      nextOf := nexts;
    }

    /** `executeStep`: one step, re-invoked with the same previous state while it answers `Retry`. */
    method ExecuteStep(k: nat, previous: State) returns (out: Option<State>)
      requires Valid() && k < |kinds| && previous.IsOk()
      modifies this
      ensures Valid()
      ensures var run := RunPlainStep(k, old(scripts[k]), previous);
        out == run.out && scripts == old(scripts)[k := run.script] && calls == old(calls) + run.calls
      ensures state == old(state) && index == old(index)
      ensures released == old(released) && channels == old(channels) && nextOf == old(nextOf)
      decreases |scripts[k]|
    {
      var answer := Answer(scripts[k]);
      scripts := scripts[k := Rest(scripts[k])];
      calls := calls + [Invocation(k, previous, answer)];
      if answer.IsOk() {
        out := Some(answer);
      } else if answer.Retry? {
        out := ExecuteStep(k, previous);
        assert [Invocation(k, previous, answer)] + RunPlainStep(k, old(scripts[k])[1..], previous).calls
          == RunPlainStep(k, old(scripts[k]), previous).calls;
      } else {
        out := None;
      }
    }

    /** The loop body of `execute` at step `k` of the sub-list that starts at `start`. */
    method RunAndStore(start: nat, k: nat, current: State) returns (out: Option<State>)
      requires Valid() && start <= k < |kinds| && current.IsOk()
      modifies this
      ensures Valid()
      ensures var w := PlainWalk(old(Snap()), start, k, current);
        out.None? ==> w.result == Wait(false) && w.after == Snap() && calls == old(calls) + w.calls
      ensures out.Some? ==> out.value.IsOk()
      ensures var w := PlainWalk(old(Snap()), start, k, current);
        out.Some? && out.value.IsOk() ==>
          var rest := PlainWalk(Snap(), start, k + 1, out.value);
          rest.result == w.result && rest.after == w.after &&
          calls + rest.calls == old(calls) + w.calls
      ensures released == old(released) && channels == old(channels) && nextOf == old(nextOf)
    {
      ghost var before := Snap();
      ghost var run := RunPlainStep(k, scripts[k], current);
      PlainWalkStep(before, start, k, current, calls);
      out := ExecuteStep(k, current);
      if out.Some? && out.value.Eos? {
        state := out.value;
        index := k - start;
      }
      assert Snap() == AfterPlainStep(before, start, k, run);
    }

    /** `execute`: walk the sub-list from `index`; `Wait` from any step ends the tick. */
    method Execute() returns (r: State)
      requires Valid()
      modifies this
      ensures Valid()
      ensures var t := PlainTick(old(Snap()));
        r == t.result && Snap() == t.after && calls == old(calls) + t.calls
      ensures released == old(released) && channels == old(channels) && nextOf == old(nextOf)
    {
      var start := index;
      var current := state;
      ghost var t := PlainTick(Snap());
      ghost var callsBefore := calls;
      var k := start;
      while k < |kinds|
        invariant start <= k <= |kinds|
        invariant Valid() && current.IsOk()
        invariant var w := PlainWalk(Snap(), start, k, current);
          w.result == t.result && w.after == t.after && calls + w.calls == callsBefore + t.calls
        invariant released == old(released) && channels == old(channels) && nextOf == old(nextOf)
      {
        var out := RunAndStore(start, k, current);
        if out.None? {
          return Wait(false);
        }
        current := out.value;
        k := k + 1;
      }
      r := PlainFinal(current, |kinds|);
    }

    /** `release`: every step, in chain order. */
    method Release()
      modifies this
      ensures released == old(released) + Indices(|kinds|)
      ensures Snap() == old(Snap()) && calls == old(calls) && channels == old(channels) && nextOf == old(nextOf)
    {
      var i := 0;
      while i < |kinds|
        invariant 0 <= i <= |kinds|
        invariant released == old(released) + Indices(i)
        invariant Snap() == old(Snap()) && calls == old(calls) && channels == old(channels) && nextOf == old(nextOf)
      {
        released := released + [i];
        i := i + 1;
      }
    }
  }

  /** How one step advances a walk, with `done` the calls made before it. */
  lemma PlainWalkStep(s: PlainSnapshot, start: nat, k: nat, state: State, done: seq<Invocation>)
    requires start <= k < |s.scripts| && state.IsOk() && PlainWellFormed(s)
    ensures var run := RunPlainStep(k, s.scripts[k], state);
      var w := PlainWalk(s, start, k, state);
      run.out.None? ==> w.result == Wait(false) && w.after == AfterPlainStep(s, start, k, run) && w.calls == run.calls
    ensures var run := RunPlainStep(k, s.scripts[k], state);
      var w := PlainWalk(s, start, k, state);
      run.out.Some? ==>
        var rest := PlainWalk(AfterPlainStep(s, start, k, run), start, k + 1, run.out.value);
        PlainWellFormed(AfterPlainStep(s, start, k, run)) &&
        rest.result == w.result && rest.after == w.after && done + run.calls + rest.calls == done + w.calls
  {
    var run := RunPlainStep(k, s.scripts[k], state);
    if run.out.Some? {
      var rest := PlainWalk(AfterPlainStep(s, start, k, run), start, k + 1, run.out.value);
      assert done + run.calls + rest.calls == done + (run.calls + rest.calls);
    }
  }

  /**
   * The stored index as written, on a two-step chain: step 0 ends on the
   * first tick, the index is set to its sub-list position 0, and the second
   * tick feeds step 0 its own `Eos` output again.
   */
  lemma EndedStepReinvoked()
    ensures var s0 := PlainSnapshot(Ok(Unit), 0, [[Eos(Data(1)), Eos(Data(1))], [Ok(Data(2)), Ok(Data(3))]]);
      var t1 := PlainTick(s0);
      t1.calls[0] == Invocation(0, Ok(Unit), Eos(Data(1))) &&
      t1.after == PlainSnapshot(Eos(Data(1)), 0, [[Eos(Data(1))], [Ok(Data(3))]]) &&
      PlainTick(t1.after).calls[0] == Invocation(0, Eos(Data(1)), Eos(Data(1)))
  {
    var s0 := PlainSnapshot(Ok(Unit), 0, [[Eos(Data(1)), Eos(Data(1))], [Ok(Data(2)), Ok(Data(3))]]);
    var run0 := RunPlainStep(0, s0.scripts[0], Ok(Unit));
    assert run0.out == Some(Eos(Data(1)));
    var s1 := AfterPlainStep(s0, 0, 0, run0);
    assert s1 == PlainSnapshot(Eos(Data(1)), 0, [[Eos(Data(1))], [Ok(Data(2)), Ok(Data(3))]]);
    var run1 := RunPlainStep(1, s1.scripts[1], Eos(Data(1)));
    assert run1.out == Some(Ok(Data(2)));
    var s2 := AfterPlainStep(s1, 0, 1, run1);
    assert s2 == PlainSnapshot(Eos(Data(1)), 0, [[Eos(Data(1))], [Ok(Data(3))]]);
    assert PlainWalk(s2, 0, 2, Ok(Data(2))).after == s2;
    assert PlainTick(s0).after == s2;
  }
}
