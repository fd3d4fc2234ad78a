/**
 * `CustomPipeline`: a chain of steps run once per `execute` call (a tick).
 * Steps that reached end of stream are skipped on later ticks: the pipeline
 * keeps the `Eos` state that ended them (`headState`) and the index of the
 * first step still running (`headIndex`).
 *
 * The pure functions `RunStep`, `Walk` and `Tick` specify one tick over a
 * `Snapshot` of the pipeline; the class `CustomPipeline` performs it in place
 * and is proved to agree with `Tick`.
 */
module CustomPipelines {
  import opened Common
  import opened Steps

  /** One `step.step(previous, fresh)` invocation and the step's answer. */
  datatype Call = Call(step: nat, input: State, isFresh: bool, answer: State)

  /** The outcome of `executeStep`: the accepted state (`None` for a wait), the step's remaining script and the calls made. */
  datatype StepRun = StepRun(out: Option<State>, script: seq<State>, calls: seq<Call>)

  /**
   * `executeStep`: call step `k` until it answers something other than
   * `Retry`. Every re-invocation passes the same previous state and
   * `fresh = false`.
   */
  function RunStep(k: nat, script: seq<State>, previous: State, isFresh: bool): (r: StepRun)
    ensures |r.calls| >= 1
    ensures r.calls[0] == Call(k, previous, isFresh, Answer(script))
    ensures r.out.Some? ==> r.out.value.IsOk() && r.out.value == Last(r.calls).answer
    ensures r.out.None? ==> Last(r.calls).answer.Wait?
    ensures |r.script| <= |script|
    decreases |script|
  {
    var a := Answer(script);
    var call := Call(k, previous, isFresh, a);
    if a.IsOk() then StepRun(Some(a), Rest(script), [call])
    else if a.Retry? then
      var again := RunStep(k, script[1..], previous, false);
      StepRun(again.out, again.script, [call] + again.calls)
    else StepRun(None, Rest(script), [call])
  }

  /**
   * The calls `executeStep` makes: all to step `k` with the same previous
   * state; every call but the last was answered `Retry`, and every call but
   * the first is not fresh.
   */
  predicate RetriedCalls(calls: seq<Call>, k: nat, previous: State) {
    (forall j :: 0 <= j < |calls| ==> calls[j].step == k && calls[j].input == previous) &&
    (forall j :: 0 < j < |calls| ==> !calls[j].isFresh) &&
    (forall j :: 0 <= j < |calls| - 1 ==> calls[j].answer.Retry?)
  }

  lemma {:induction false} RunStepCalls(k: nat, script: seq<State>, previous: State, isFresh: bool)
    ensures RetriedCalls(RunStep(k, script, previous, isFresh).calls, k, previous)
    decreases |script|
  {
    var a := Answer(script);
    if !a.IsOk() && a.Retry? {
      RunStepCalls(k, script[1..], previous, false);
      var again := RunStep(k, script[1..], previous, false).calls;
      var calls := RunStep(k, script, previous, isFresh).calls;
      assert calls == [Call(k, previous, isFresh, a)] + again;
      forall j | 0 < j < |calls|
        ensures calls[j] == again[j - 1]
      {
      }
    }
  }

  /** The pipeline's state: the head, and each step's remaining answers. */
  datatype Snapshot = Snapshot(headState: State, headIndex: nat, scripts: seq<seq<State>>)

  /** What a tick returns, the state it leaves, and the `step` calls it made in order. */
  datatype TickResult = TickResult(result: State, after: Snapshot, calls: seq<Call>)

  /** The head agrees with how it is set: `Ok(Unit)` at index 0, otherwise the `Eos` that ended the step before it. */
  predicate HeadConsistent(headIndex: nat, headState: State) {
    (headIndex == 0 ==> headState == Ok(Unit)) && (headIndex > 0 ==> headState.Eos?)
  }

  predicate WellFormed(s: Snapshot) {
    s.headIndex <= |s.scripts| && HeadConsistent(s.headIndex, s.headState)
  }

  /** The value `execute` returns once the walk has passed every step. */
  function Final(state: State, size: nat): (r: State)
    requires state.IsOk()
    ensures r.IsOk()
    ensures r.Eos? <==> size == 0 || state.Eos?
  {
    if size == 0 then Eos(Empty)
    else if state.Eos? then Eos(Empty)
    else Ok(state.value)
  }

  /** The snapshot after `executeStep` ran on step `index`: its script advanced, and the head moved past it on `Eos`. */
  function AfterStep(s: Snapshot, index: nat, run: StepRun): (r: Snapshot)
    requires index < |s.scripts|
    ensures |r.scripts| == |s.scripts|
  {
    var s1 := s.(scripts := s.scripts[index := run.script]);
    if run.out.Some? && run.out.value.Eos? then s1.(headState := run.out.value, headIndex := index + 1) else s1
  }

  /**
   * The remainder of a tick from step `index` on, with `state` the output of
   * the previous step and `head` the head index the tick started from.
   */
  function Walk(s: Snapshot, head: nat, index: nat, state: State): (r: TickResult)
    requires s.headIndex <= index <= |s.scripts|
    requires state.IsOk()
    ensures |r.after.scripts| == |s.scripts|
    ensures s.headIndex <= r.after.headIndex <= |s.scripts|
    ensures r.after.headIndex == s.headIndex ==> r.after.headState == s.headState
    ensures r.result.IsOk() || r.result == Wait(false)
    decreases |s.scripts| - index
  {
    if index == |s.scripts| then TickResult(Final(state, |s.scripts|), s, [])
    else
      var run := RunStep(index, s.scripts[index], state, head == 0 || index != head);
      var s2 := AfterStep(s, index, run);
      if run.out.None? then TickResult(Wait(false), s2, run.calls)
      else
        var rest := Walk(s2, head, index + 1, run.out.value);
        TickResult(rest.result, rest.after, run.calls + rest.calls)
  }

  /** One step of a walk, unfolded. */
  lemma WalkUnfold(s: Snapshot, head: nat, index: nat, state: State)
    requires s.headIndex <= index < |s.scripts| && state.IsOk()
    ensures var run := RunStep(index, s.scripts[index], state, head == 0 || index != head);
      var w := Walk(s, head, index, state);
      (run.out.None? ==> w == TickResult(Wait(false), AfterStep(s, index, run), run.calls)) &&
      (run.out.Some? ==>
        var rest := Walk(AfterStep(s, index, run), head, index + 1, run.out.value);
        w == TickResult(rest.result, rest.after, run.calls + rest.calls))
  {
  }

  /** How one step advances a walk, with `done` the calls made before it. */
  lemma WalkStep(s: Snapshot, head: nat, index: nat, state: State, done: seq<Call>)
    requires s.headIndex <= index < |s.scripts| && state.IsOk()
    ensures var run := RunStep(index, s.scripts[index], state, head == 0 || index != head);
      var w := Walk(s, head, index, state);
      run.out.None? ==> w.result == Wait(false) && w.after == AfterStep(s, index, run) && w.calls == run.calls
    ensures var run := RunStep(index, s.scripts[index], state, head == 0 || index != head);
      var w := Walk(s, head, index, state);
      run.out.Some? ==>
        var rest := Walk(AfterStep(s, index, run), head, index + 1, run.out.value);
        AfterStep(s, index, run).headIndex <= index + 1 &&
        rest.result == w.result && rest.after == w.after && done + run.calls + rest.calls == done + w.calls
  {
    var run := RunStep(index, s.scripts[index], state, head == 0 || index != head);
    WalkUnfold(s, head, index, state);
    if run.out.Some? {
      var rest := Walk(AfterStep(s, index, run), head, index + 1, run.out.value);
      assert done + run.calls + rest.calls == done + (run.calls + rest.calls);
    }
  }

  /**
   * A walk from step `index` with `state`, after the calls `done`, ends as
   * the tick `t` that began after the calls `before`.
   */
  ghost predicate Reaches(s: Snapshot, done: seq<Call>, head: nat, index: nat, state: State, t: TickResult, before: seq<Call>) {
    s.headIndex <= index <= |s.scripts| && state.IsOk() &&
    var w := Walk(s, head, index, state);
    w.result == t.result && w.after == t.after && done + w.calls == before + t.calls
  }

  /** `execute`: one tick, from the head. */
  function Tick(s: Snapshot): (r: TickResult)
    requires WellFormed(s)
  {
    Walk(s, s.headIndex, s.headIndex, s.headState)
  }

  /** Every call in `calls` is to a step in `[lo, hi)`. */
  predicate StepsWithin(calls: seq<Call>, lo: nat, hi: nat) {
    forall j :: 0 <= j < |calls| ==> lo <= calls[j].step < hi
  }

  lemma StepsWithinConcat(a: seq<Call>, b: seq<Call>, lo: nat, hi: nat)
    requires StepsWithin(a, lo, hi) && StepsWithin(b, lo, hi)
    ensures StepsWithin(a + b, lo, hi)
  {
    var c := a + b;
    forall j | 0 <= j < |c|
      ensures lo <= c[j].step < hi
    {
      if j < |a| {
        assert c[j] == a[j];
      } else {
        assert c[j] == b[j - |a|];
      }
    }
  }

  /** Every call a walk makes is to a step at or after where it started, inside the chain. */
  lemma {:induction false} WalkCallsFrom(s: Snapshot, head: nat, index: nat, state: State)
    requires s.headIndex <= index <= |s.scripts| && state.IsOk()
    ensures StepsWithin(Walk(s, head, index, state).calls, index, |s.scripts|)
    decreases |s.scripts| - index
  {
    if index < |s.scripts| {
      var run := RunStep(index, s.scripts[index], state, head == 0 || index != head);
      RunStepCalls(index, s.scripts[index], state, head == 0 || index != head);
      assert StepsWithin(run.calls, index, |s.scripts|);
      if run.out.Some? {
        var s2 := AfterStep(s, index, run);
        WalkCallsFrom(s2, head, index + 1, run.out.value);
        StepsWithinConcat(run.calls, Walk(s2, head, index + 1, run.out.value).calls, index, |s.scripts|);
      }
    }
  }

  /** Steps below the head index are never invoked on a tick; every invoked step exists. */
  lemma TickSkipsEndedSteps(s: Snapshot)
    requires WellFormed(s)
    ensures StepsWithin(Tick(s).calls, s.headIndex, |s.scripts|)
  {
    WalkCallsFrom(s, s.headIndex, s.headIndex, s.headState);
  }

  /** A tick keeps the head consistent: `Ok(Unit)` at index 0 and an `Eos` state past it. */
  lemma {:induction false} WalkKeepsHead(s: Snapshot, head: nat, index: nat, state: State)
    requires s.headIndex <= index <= |s.scripts| && WellFormed(s) && state.IsOk()
    ensures WellFormed(Walk(s, head, index, state).after)
    decreases |s.scripts| - index
  {
    if index < |s.scripts| {
      var run := RunStep(index, s.scripts[index], state, head == 0 || index != head);
      if run.out.Some? {
        WalkKeepsHead(AfterStep(s, index, run), head, index + 1, run.out.value);
      }
    }
  }

  /**
   * Call `j` of a run is fresh, or it is a call to the head step at a nonzero
   * head, or it comes right after the same step answered `Retry`.
   */
  predicate FreshnessExplained(calls: seq<Call>, j: nat, head: nat)
    requires j < |calls|
  {
    calls[j].isFresh || (calls[j].step == head && head != 0) ||
    (j > 0 && calls[j - 1].step == calls[j].step && calls[j - 1].answer.Retry?)
  }

  predicate FreshOnlyAtHeadOrRetry(calls: seq<Call>, head: nat) {
    forall j: nat :: j < |calls| ==> FreshnessExplained(calls, j, head)
  }

  lemma FreshConcat(a: seq<Call>, b: seq<Call>, head: nat)
    requires FreshOnlyAtHeadOrRetry(a, head) && FreshOnlyAtHeadOrRetry(b, head)
    requires |b| > 0 ==> b[0].isFresh || (b[0].step == head && head != 0)
    ensures FreshOnlyAtHeadOrRetry(a + b, head)
  {
    var c := a + b;
    forall j: nat | j < |c|
      ensures FreshnessExplained(c, j, head)
    {
      if j >= |a| {
        var k: nat := j - |a|;
        assert c[j] == b[k];
        if k > 0 {
          assert FreshnessExplained(b, k, head);
          assert c[j - 1] == b[k - 1];
        }
      } else {
        assert FreshnessExplained(a, j, head);
        assert c[j] == a[j];
        if j > 0 {
          assert c[j - 1] == a[j - 1];
        }
      }
    }
  }

  /** The calls of one `executeStep` explain their freshness when the first call's does. */
  lemma RunStepFreshness(k: nat, script: seq<State>, previous: State, isFresh: bool, head: nat)
    requires isFresh || (k == head && head != 0)
    ensures FreshOnlyAtHeadOrRetry(RunStep(k, script, previous, isFresh).calls, head)
  {
    var run := RunStep(k, script, previous, isFresh).calls;
    RunStepCalls(k, script, previous, isFresh);
    forall j: nat | j < |run|
      ensures FreshnessExplained(run, j, head)
    {
      if j > 0 {
        assert !run[j].isFresh && run[j - 1].answer.Retry?;
        assert run[j].step == k && run[j - 1].step == k;
      }
    }
  }

  /** The first call a walk makes is to step `index`, fresh unless `index` is a nonzero head. */
  lemma WalkFirstCall(s: Snapshot, head: nat, index: nat, state: State)
    requires s.headIndex <= index < |s.scripts| && state.IsOk()
    ensures |Walk(s, head, index, state).calls| > 0
    ensures Walk(s, head, index, state).calls[0] ==
      Call(index, state, head == 0 || index != head, Answer(s.scripts[index]))
  {
  }

  /** On a walk, `fresh = false` only at a nonzero head index or on a `Retry` re-invocation. */
  lemma {:induction false} WalkFreshness(s: Snapshot, head: nat, index: nat, state: State)
    requires s.headIndex <= index <= |s.scripts| && state.IsOk()
    requires head <= index
    ensures FreshOnlyAtHeadOrRetry(Walk(s, head, index, state).calls, head)
    decreases |s.scripts| - index
  {
    if index < |s.scripts| {
      var isFresh := head == 0 || index != head;
      var run := RunStep(index, s.scripts[index], state, isFresh);
      RunStepFreshness(index, s.scripts[index], state, isFresh, head);
      if run.out.Some? {
        var s2 := AfterStep(s, index, run);
        WalkFreshness(s2, head, index + 1, run.out.value);
        var rest := Walk(s2, head, index + 1, run.out.value).calls;
        if index + 1 < |s.scripts| {
          WalkFirstCall(s2, head, index + 1, run.out.value);
        }
        FreshConcat(run.calls, rest, head);
      }
    }
  }

  /** On a tick, `fresh = false` only at a nonzero head index or on a `Retry` re-invocation. */
  lemma TickFreshness(s: Snapshot)
    requires WellFormed(s)
    ensures FreshOnlyAtHeadOrRetry(Tick(s).calls, s.headIndex)
  {
    WalkFreshness(s, s.headIndex, s.headIndex, s.headState);
  }

  /** On a completed walk the result is `Eos` exactly when the chain is empty or every step has ended. */
  lemma {:induction false} WalkEosResult(s: Snapshot, head: nat, index: nat, state: State)
    requires index <= |s.scripts| && s.headIndex <= index && state.IsOk()
    requires index > 0 ==> (state.Eos? <==> s.headIndex == index)
    requires index == 0 ==> !state.Eos?
    ensures var r := Walk(s, head, index, state);
      r.result.IsOk() ==> (r.result.Eos? <==> |s.scripts| == 0 || r.after.headIndex == |s.scripts|)
    decreases |s.scripts| - index
  {
    if index < |s.scripts| {
      var run := RunStep(index, s.scripts[index], state, head == 0 || index != head);
      if run.out.Some? {
        WalkEosResult(AfterStep(s, index, run), head, index + 1, run.out.value);
      }
    }
  }

  /** The tick's result, when it is not `Wait`, is `Eos` iff the chain is empty or the head passed the last step. */
  lemma TickEosResult(s: Snapshot)
    requires WellFormed(s)
    ensures var r := Tick(s);
      r.result.IsOk() ==> (r.result.Eos? <==> |s.scripts| == 0 || r.after.headIndex == |s.scripts|)
  {
    WalkEosResult(s, s.headIndex, s.headIndex, s.headState);
  }

  /** The first call of a tick is to the head step, with the head state, fresh only at head index 0. */
  lemma TickFirstCall(s: Snapshot)
    requires WellFormed(s) && s.headIndex < |s.scripts|
    ensures |Tick(s).calls| > 0
    ensures Tick(s).calls[0] == Call(s.headIndex, s.headState, s.headIndex == 0, Answer(s.scripts[s.headIndex]))
  {
    WalkFirstCall(s, s.headIndex, s.headIndex, s.headState);
  }

  /** A `Wait` result ends the walk at a step that answered `Wait`, and the head is not past that step. */
  predicate WaitEndsAtWaitingStep(r: TickResult) {
    r.result.Wait? ==>
      |r.calls| > 0 && Last(r.calls).answer.Wait? && r.after.headIndex <= Last(r.calls).step
  }

  /** A moved head holds an `Eos` that the step just before the new head answered during the walk. */
  predicate HeadMovedByEos(before: Snapshot, r: TickResult) {
    r.after.headIndex != before.headIndex ==>
      r.after.headState.Eos? &&
      exists j: nat :: j < |r.calls| && r.calls[j].step + 1 == r.after.headIndex && r.calls[j].answer == r.after.headState
  }

  lemma {:induction false} WalkWaitEnds(s: Snapshot, head: nat, index: nat, state: State)
    requires s.headIndex <= index <= |s.scripts| && state.IsOk()
    ensures WaitEndsAtWaitingStep(Walk(s, head, index, state))
    decreases |s.scripts| - index
  {
    if index < |s.scripts| {
      var run := RunStep(index, s.scripts[index], state, head == 0 || index != head);
      if run.out.None? {
        WaitEndsHere(s, head, index, state);
      } else {
        WalkWaitEnds(AfterStep(s, index, run), head, index + 1, run.out.value);
        WaitEndsLater(s, head, index, state);
      }
    }
  }

  /** A walk whose step `index` answers `Wait` ends there, with the head not past it. */
  lemma WaitEndsHere(s: Snapshot, head: nat, index: nat, state: State)
    requires s.headIndex <= index < |s.scripts| && state.IsOk()
    requires RunStep(index, s.scripts[index], state, head == 0 || index != head).out.None?
    ensures WaitEndsAtWaitingStep(Walk(s, head, index, state))
  {
    var isFresh := head == 0 || index != head;
    var run := RunStep(index, s.scripts[index], state, isFresh);
    WalkUnfold(s, head, index, state);
    RunStepCalls(index, s.scripts[index], state, isFresh);
    assert run.calls[|run.calls| - 1].step == index;
  }

  /** A walk that goes on past step `index` ends in `Wait` where the rest of the walk does. */
  lemma WaitEndsLater(s: Snapshot, head: nat, index: nat, state: State)
    requires s.headIndex <= index < |s.scripts| && state.IsOk()
    requires var run := RunStep(index, s.scripts[index], state, head == 0 || index != head);
      run.out.Some? &&
      WaitEndsAtWaitingStep(Walk(AfterStep(s, index, run), head, index + 1, run.out.value))
    ensures WaitEndsAtWaitingStep(Walk(s, head, index, state))
  {
    var run := RunStep(index, s.scripts[index], state, head == 0 || index != head);
    var rest := Walk(AfterStep(s, index, run), head, index + 1, run.out.value);
    WalkUnfold(s, head, index, state);
    if rest.result.Wait? {
      assert Last(run.calls + rest.calls) == Last(rest.calls);
    }
  }

  lemma {:induction false} WalkHeadMoves(s: Snapshot, head: nat, index: nat, state: State)
    requires s.headIndex <= index <= |s.scripts| && state.IsOk()
    ensures HeadMovedByEos(s, Walk(s, head, index, state))
    decreases |s.scripts| - index
  {
    if index < |s.scripts| {
      var run := RunStep(index, s.scripts[index], state, head == 0 || index != head);
      if run.out.Some? {
        WalkHeadMoves(AfterStep(s, index, run), head, index + 1, run.out.value);
        HeadMovesStep(s, head, index, state);
      }
    }
  }

  /** The inductive step of `WalkHeadMoves`: a moved head was moved by this step or by a later one. */
  lemma HeadMovesStep(s: Snapshot, head: nat, index: nat, state: State)
    requires s.headIndex <= index < |s.scripts| && state.IsOk()
    requires var run := RunStep(index, s.scripts[index], state, head == 0 || index != head);
      run.out.Some? &&
      HeadMovedByEos(AfterStep(s, index, run), Walk(AfterStep(s, index, run), head, index + 1, run.out.value))
    ensures HeadMovedByEos(s, Walk(s, head, index, state))
  {
    var run := RunStep(index, s.scripts[index], state, head == 0 || index != head);
    var s2 := AfterStep(s, index, run);
    var rest := Walk(s2, head, index + 1, run.out.value);
    if rest.after.headIndex == s2.headIndex {
      HeadMovedHere(s, head, index, state);
    } else {
      HeadMovedLater(s, head, index, state);
    }
  }

  /** The rest of the walk left the head where step `index` put it. */
  lemma HeadMovedHere(s: Snapshot, head: nat, index: nat, state: State)
    requires s.headIndex <= index < |s.scripts| && state.IsOk()
    requires var run := RunStep(index, s.scripts[index], state, head == 0 || index != head);
      run.out.Some? &&
      Walk(AfterStep(s, index, run), head, index + 1, run.out.value).after.headIndex == AfterStep(s, index, run).headIndex
    ensures HeadMovedByEos(s, Walk(s, head, index, state))
  {
    var isFresh := head == 0 || index != head;
    var run := RunStep(index, s.scripts[index], state, isFresh);
    var rest := Walk(AfterStep(s, index, run), head, index + 1, run.out.value);
    WalkUnfold(s, head, index, state);
    if run.out.value.Eos? {
      RunStepCalls(index, s.scripts[index], state, isFresh);
      assert run.calls[|run.calls| - 1].step == index;
      HeadFromStep(run.calls, rest.calls, |run.calls| - 1, rest.after);
    }
  }

  /** A later step of the walk moved the head. */
  lemma HeadMovedLater(s: Snapshot, head: nat, index: nat, state: State)
    requires s.headIndex <= index < |s.scripts| && state.IsOk()
    requires var run := RunStep(index, s.scripts[index], state, head == 0 || index != head);
      var s2 := AfterStep(s, index, run);
      run.out.Some? &&
      Walk(s2, head, index + 1, run.out.value).after.headIndex != s2.headIndex &&
      HeadMovedByEos(s2, Walk(s2, head, index + 1, run.out.value))
    ensures HeadMovedByEos(s, Walk(s, head, index, state))
  {
    var run := RunStep(index, s.scripts[index], state, head == 0 || index != head);
    var rest := Walk(AfterStep(s, index, run), head, index + 1, run.out.value);
    WalkUnfold(s, head, index, state);
    var j: nat :| j < |rest.calls| && rest.calls[j].step + 1 == rest.after.headIndex &&
      rest.calls[j].answer == rest.after.headState;
    HeadFromStep(run.calls, rest.calls, |run.calls| + j, rest.after);
  }

  /** The call at position `j` of `a + b` witnesses a moved head. */
  lemma HeadFromStep(a: seq<Call>, b: seq<Call>, j: nat, after: Snapshot)
    requires j < |a| + |b|
    requires j < |a| ==> a[j].step + 1 == after.headIndex && a[j].answer == after.headState
    requires j >= |a| ==> b[j - |a|].step + 1 == after.headIndex && b[j - |a|].answer == after.headState
    ensures exists i: nat :: i < |a + b| && (a + b)[i].step + 1 == after.headIndex && (a + b)[i].answer == after.headState
  {
    assert j < |a| ==> (a + b)[j] == a[j];
    assert j >= |a| ==> (a + b)[j] == b[j - |a|];
  }

  /**
   * How a tick moves the head: a tick that met no `Eos` answer leaves head
   * index and head state as they were; a moved head holds the `Eos` that the
   * step just before it answered; a `Wait` result ends the tick at a step
   * that answered `Wait`, which is not below the head.
   */
  lemma TickHeadUpdates(s: Snapshot)
    requires WellFormed(s)
    ensures WaitEndsAtWaitingStep(Tick(s)) && HeadMovedByEos(s, Tick(s))
    ensures (forall c :: c in Tick(s).calls ==> !c.answer.Eos?) ==>
      Tick(s).after.headIndex == s.headIndex && Tick(s).after.headState == s.headState
  {
    WalkHeadMoves(s, s.headIndex, s.headIndex, s.headState);
    WalkWaitEnds(s, s.headIndex, s.headIndex, s.headState);
  }

  class CustomPipeline {
    /** The chain, as each step's channel behaviour. */
    const kinds: seq<StepKind>
    var headState: State
    var headIndex: nat
    /** Each step's future answers to `step`. */
    var scripts: seq<seq<State>>
    /** Every `step` call made so far. */
    var calls: seq<Call>
    /** The steps whose `release` was called, in call order. */
    var released: seq<nat>
    /** Each step's `channel` once the chain is initialized. */
    var channels: seq<Option<int>>
    /** The channel each step's `initialize` received; `None` for the last step, which gets no call. */
    var nextOf: seq<Option<int>>

    ghost predicate Valid()
      reads this
    {
      |scripts| == |kinds| && |channels| == |kinds| && |nextOf| == |kinds| &&
      headIndex <= |kinds| && HeadConsistent(headIndex, headState)
    }

    function Snap(): Snapshot
      reads this
    {
      Snapshot(headState, headIndex, scripts)
    }

    /** The constructor: head `Ok(Unit)` at index 0, and the chain wired by the `init` block. */
    constructor(kinds: seq<StepKind>, scripts: seq<seq<State>>)
      requires |scripts| == |kinds|
      ensures Valid()
      ensures headState == Ok(Unit) && headIndex == 0
      ensures this.kinds == kinds && this.scripts == scripts && calls == [] && released == []
      ensures forall i :: 0 <= i < |kinds| ==> channels[i] == ChannelOf(kinds, i)
      ensures forall i :: 0 <= i < |kinds| - 1 ==> nextOf[i] == ChannelOf(kinds, i + 1)
      ensures |kinds| > 0 ==> nextOf[|kinds| - 1] == None
    {
      this.kinds := kinds;
      headState := Ok(Unit);
      headIndex := 0;
      this.scripts := scripts;
      calls := [];
      released := [];
      var chans, nexts := WireChain(kinds);
      channels := chans;
      nextOf := nexts;
    }

    /** `executeStep`: one step, re-invoked while it answers `Retry`. */
    method ExecuteStep(k: nat, previous: State, isFresh: bool) returns (out: Option<State>)
      requires Valid() && k < |kinds| && previous.IsOk()
      modifies this
      ensures Valid()
      ensures var run := RunStep(k, old(scripts[k]), previous, isFresh);
        out == run.out && scripts == old(scripts)[k := run.script] && calls == old(calls) + run.calls
      ensures headState == old(headState) && headIndex == old(headIndex)
      ensures released == old(released) && channels == old(channels) && nextOf == old(nextOf)
      decreases |scripts[k]|
    {
      var answer := Answer(scripts[k]);
      scripts := scripts[k := Rest(scripts[k])];
      calls := calls + [Call(k, previous, isFresh, answer)];
      if answer.IsOk() {
        out := Some(answer);
      } else if answer.Retry? {
        out := ExecuteStep(k, previous, false);
        assert [Call(k, previous, isFresh, answer)] + RunStep(k, old(scripts[k])[1..], previous, false).calls
          == RunStep(k, old(scripts[k]), previous, isFresh).calls;
      } else {
        out := None;
      }
    }

    /**
     * One pass of `execute`'s loop body at a step not below the head: run it,
     * and move the head past it on `Eos`. Stated as how far it takes the tick
     * `t` that began after the calls `before`.
     */
    method RunAndMoveHead(head: nat, index: nat, state: State, ghost t: TickResult, ghost before: seq<Call>)
      returns (out: Option<State>)
      requires Valid() && index < |kinds| && Reaches(Snap(), calls, head, index, state, t, before)
      modifies this
      ensures Valid()
      ensures out.None? ==> t.result == Wait(false) && t.after == Snap() && calls == before + t.calls
      ensures out.Some? ==> Reaches(Snap(), calls, head, index + 1, out.value, t, before)
      ensures released == old(released) && channels == old(channels) && nextOf == old(nextOf)
    {
      ghost var snap := Snap();
      ghost var run := RunStep(index, scripts[index], state, head == 0 || index != head);
      WalkStep(snap, head, index, state, calls);
      out := ExecuteStep(index, state, head == 0 || index != head);
      if out.Some? && out.value.Eos? {
        headState := out.value;
        headIndex := index + 1;
      }
      assert Snap() == AfterStep(snap, index, run);
    }

    /** `execute`: run the steps from the head on; `Wait` from any step ends the tick. */
    method Execute() returns (r: State)
      requires Valid()
      modifies this
      ensures Valid()
      ensures var t := Tick(old(Snap()));
        r == t.result && Snap() == t.after && calls == old(calls) + t.calls
      ensures released == old(released) && channels == old(channels) && nextOf == old(nextOf)
    {
      var head := headIndex;
      var state := headState;
      ghost var start := Snap();
      ghost var t := Tick(start);
      ghost var callsBefore := calls;
      var index := 0;
      while index < |kinds|
        invariant 0 <= index <= |kinds| && head <= |kinds|
        invariant Valid()
        invariant index < head ==> Snap() == start && state == headState && calls == callsBefore
        invariant index >= head ==> Reaches(Snap(), calls, head, index, state, t, callsBefore)
        invariant released == old(released) && channels == old(channels) && nextOf == old(nextOf)
      {
        if index >= head {
          var out := RunAndMoveHead(head, index, state, t, callsBefore);
          if out.None? {
            return Wait(false);
          }
          state := out.value;
        }
        index := index + 1;
      }
      r := Final(state, |kinds|);
    }

    /** `release`: every step, in chain order. */
    method Release()
      modifies this
      ensures released == old(released) + Indices(|kinds|)
      ensures Snap() == old(Snap()) && calls == old(calls) && channels == old(channels) && nextOf == old(nextOf)
    {
      var i := 0;
      while i < |kinds|
        invariant 0 <= i <= |kinds|
        invariant released == old(released) + Indices(i)
        invariant Snap() == old(Snap()) && calls == old(calls) && channels == old(channels) && nextOf == old(nextOf)
      {
        released := released + [i];
        i := i + 1;
      }
    }
  }

  /** A new pipeline starts at head `Ok(Unit)`, index 0, and its first tick calls step 0 with `Ok(Unit)`, fresh. */
  lemma FirstTickStartsAtZero(scripts: seq<seq<State>>)
    requires |scripts| > 0
    ensures var t := Tick(Snapshot(Ok(Unit), 0, scripts));
      |t.calls| > 0 && t.calls[0] == Call(0, Ok(Unit), true, Answer(scripts[0]))
  {
    TickFirstCall(Snapshot(Ok(Unit), 0, scripts));
  }

  /**
   * The head rule on the same two-step chain: step 0 ends on the first tick,
   * the head moves to step 1 with that `Eos`, and the second tick starts at
   * step 1 (not fresh), never calling step 0 again.
   */
  lemma EndedStepSkipped()
    ensures var s0 := Snapshot(Ok(Unit), 0, [[Eos(Data(1)), Eos(Data(1))], [Ok(Data(2)), Ok(Data(3))]]);
      var t1 := Tick(s0);
      t1.calls[0] == Call(0, Ok(Unit), true, Eos(Data(1))) && t1.after.headIndex == 1 &&
      Tick(t1.after).calls[0] == Call(1, Eos(Data(1)), false, Ok(Data(3))) &&
      StepsWithin(Tick(t1.after).calls, 1, 2)
  {
    var s0 := Snapshot(Ok(Unit), 0, [[Eos(Data(1)), Eos(Data(1))], [Ok(Data(2)), Ok(Data(3))]]);
    var run0 := RunStep(0, s0.scripts[0], Ok(Unit), true);
    assert run0.out == Some(Eos(Data(1)));
    var s1 := AfterStep(s0, 0, run0);
    assert s1 == Snapshot(Eos(Data(1)), 1, [[Eos(Data(1))], [Ok(Data(2)), Ok(Data(3))]]);
    var run1 := RunStep(1, s1.scripts[1], Eos(Data(1)), true);
    assert run1.out == Some(Ok(Data(2)));
    var s2 := AfterStep(s1, 1, run1);
    assert s2 == Snapshot(Eos(Data(1)), 1, [[Eos(Data(1))], [Ok(Data(3))]]);
    assert Walk(s2, 0, 2, Ok(Data(2))).after == s2;
    assert Tick(s0).after == s2;
    TickFirstCall(s2);
    TickSkipsEndedSteps(s2);
  }
}
