/**
 * The vocabulary of a pipeline: the data that flows between steps, the
 * `State` a step answers with, and the step base classes whose behaviour the
 * pipeline relies on (`BaseStep`, `DataStep`, `QueuedStep`).
 *
 * A concrete step (decoder, encoder, renderer, ...) is an opaque collaborator.
 * Its future answers are given as a finite script: `Answer` is the next one,
 * and an exhausted script answers `Wait(false)`.
 */
module Steps {
  import opened Common

  /** The values carried by `State.Ok`: `Unit` feeds the first step, `Empty` is `EncoderData.Empty`. */
  datatype Payload = Unit | Empty | Data(id: int)

  /** `State`: `Eos` is a subclass of `Ok` in the source, so both carry a value. */
  datatype State = Ok(value: Payload) | Eos(value: Payload) | Wait(withSleep: bool) | Retry {
    /** `state is State.Ok`, which also holds for `Eos`. */
    predicate IsOk() {
      Ok? || Eos?
    }
  }

  /** The answer an opaque step gives next. */
  function Answer(script: seq<State>): (a: State)
    ensures |script| > 0 ==> a == script[0]
    ensures a.Retry? ==> |script| > 0
  {
    if |script| == 0 then Wait(false) else script[0]
  }

  /** The script left after one answer has been given. */
  function Rest(script: seq<State>): (r: seq<State>)
    ensures |script| > 0 ==> |r| == |script| - 1 && script == [script[0]] + r
    ensures |script| == 0 ==> r == []
  {
    if |script| == 0 then [] else script[1..]
  }

  /** A call a `QueuedStep` makes on its subclass before draining. */
  datatype QueueOp = Enqueue(data: Payload) | EnqueueEos(data: Payload)

  /** What `QueuedStep.step` hands to its queue for this input. */
  function QueuedInput(state: State, isFresh: bool): (ops: seq<QueueOp>)
    requires state.IsOk()
    ensures |ops| == (if isFresh then 1 else 0)
    ensures isFresh ==> ops[0].data == state.value && (ops[0].EnqueueEos? <==> state.Eos?)
  {
    if !isFresh then []
    else if state.Eos? then [EnqueueEos(state.value)]
    else [Enqueue(state.value)]
  }

  /** Over several calls, the queue receives one operation per fresh call and nothing else. */
  lemma {:induction false} QueuedInputCount(inputs: seq<State>, freshness: seq<bool>)
    requires |inputs| == |freshness|
    requires forall i :: 0 <= i < |inputs| ==> inputs[i].IsOk()
    ensures |QueuedInputs(inputs, freshness)| == |set i | 0 <= i < |freshness| && freshness[i]|
  {
    if |inputs| > 0 {
      var n := |inputs| - 1;
      QueuedInputCount(inputs[..n], freshness[..n]);
      var before := set i | 0 <= i < n && freshness[..n][i];
      var all := set i | 0 <= i < |freshness| && freshness[i];
      if freshness[n] {
        assert all == before + {n};
      } else {
        assert all == before;
      }
    }
  }

  /** The concatenated queue operations of a sequence of `step` calls. */
  function QueuedInputs(inputs: seq<State>, freshness: seq<bool>): seq<QueueOp>
    requires |inputs| == |freshness|
    requires forall i :: 0 <= i < |inputs| ==> inputs[i].IsOk()
  {
    if |inputs| == 0 then []
    else
      var n := |inputs| - 1;
      QueuedInputs(inputs[..n], freshness[..n]) + QueuedInput(inputs[n], freshness[n])
  }

  /** `QueuedStep`: enqueue on a fresh call, then always answer with `drain()`. */
  class QueuedStep {
    /** The `enqueue`/`enqueueEos` calls received so far, in order. */
    var queued: seq<QueueOp>
    /** The answers the subclass's `drain()` will give. */
    var drains: seq<State>
    /** The channel stored by `BaseStep.initialize`; `None` while uninitialized. */
    var next: Option<int>

    constructor(drains: seq<State>)
      ensures queued == [] && this.drains == drains && next == None
    {
      queued := [];
      this.drains := drains;
      next := None;
    }

    /** `BaseStep.initialize`. */
    method Initialize(next: int)
      modifies this
      ensures this.next == Some(next)
      ensures queued == old(queued) && drains == old(drains)
    {
      this.next := Some(next);
    }

    /** `QueuedStep.step`. */
    method Step(state: State, isFresh: bool) returns (r: State)
      requires state.IsOk()
      modifies this
      ensures queued == old(queued) + QueuedInput(state, isFresh)
      ensures r == Answer(old(drains)) && drains == Rest(old(drains))
      ensures next == old(next)
    {
      if isFresh {
        if state.Eos? {
          queued := queued + [EnqueueEos(state.value)];
        } else {
          queued := queued + [Enqueue(state.value)];
        }
      }
      r := Answer(drains);
      drains := Rest(drains);
    }
  }

  /** `DataStep`: its own input channel is the next step's channel, passed through. */
  class DataStep {
    var channel: Option<int>

    constructor()
      ensures channel == None
    {
      channel := None;
    }

    /** `DataStep.initialize`. */
    method Initialize(next: int)
      modifies this
      ensures channel == Some(next)
    {
      channel := Some(next);
    }
  }

  /**
   * How a step answers `channel` during chain initialization: a `Base` step
   * owns a fixed channel; a `Pass` step is a `DataStep`, whose channel is
   * unset until `initialize` copies the next step's.
   */
  datatype StepKind = Base(own: int) | Pass

  /** The channel step `i` exposes once every later step has been initialized. */
  function ChannelOf(kinds: seq<StepKind>, i: nat): Option<int>
    requires i < |kinds|
    decreases |kinds| - i
  {
    match kinds[i]
    case Base(own) => Some(own)
    case Pass => if i + 1 < |kinds| then ChannelOf(kinds, i + 1) else None
  }

  /** A step's channel before `initialize` runs on it. */
  function InitialChannel(k: StepKind): Option<int> {
    match k
    case Base(own) => Some(own)
    case Pass => None
  }

  /** What a pipeline factory hands over: the chain's steps and each step's future answers. */
  datatype ChainSpec = ChainSpec(kinds: seq<StepKind>, scripts: seq<seq<State>>)

  type Chain = c: ChainSpec | |c.kinds| == |c.scripts| witness ChainSpec([], [])

  /**
   * The `init` block of both pipelines: each step but the last is
   * initialized with the next step's channel, walking the pairs from the end
   * of the chain so that a pass-through step reads a channel that is already
   * final. `chans[i]` is step `i`'s channel afterwards, `nexts[i]` the
   * channel its `initialize` received (`None` for the last step, which gets
   * no call).
   */
  method WireChain(kinds: seq<StepKind>) returns (chans: seq<Option<int>>, nexts: seq<Option<int>>)
    ensures |chans| == |kinds| && |nexts| == |kinds|
    ensures forall i :: 0 <= i < |kinds| ==> chans[i] == ChannelOf(kinds, i)
    ensures forall i :: 0 <= i < |kinds| - 1 ==> nexts[i] == ChannelOf(kinds, i + 1)
    ensures |kinds| > 0 ==> nexts[|kinds| - 1] == None
  {
    chans := seq(|kinds|, i requires 0 <= i < |kinds| => InitialChannel(kinds[i]));
    nexts := seq(|kinds|, i => None);
    var i: int := |kinds|;
    while i > 1
      invariant 0 <= i <= |kinds| && (|kinds| >= 1 ==> i >= 1)
      invariant |chans| == |kinds| && |nexts| == |kinds|
      invariant forall j :: i - 1 <= j < |kinds| && 0 <= j ==> chans[j] == ChannelOf(kinds, j)
      invariant forall j :: 0 <= j < i - 1 ==> chans[j] == InitialChannel(kinds[j])
      invariant forall j :: i - 1 <= j < |kinds| - 1 && 0 <= j ==> nexts[j] == ChannelOf(kinds, j + 1)
      invariant |kinds| > 0 ==> nexts[|kinds| - 1] == None
    {
      var first := i - 2;
      nexts := nexts[first := chans[i - 1]];
      if kinds[first].Pass? {
        chans := chans[first := chans[i - 1]];
      }
      i := i - 1;
    }
  }

  /** A run of pass-through steps exposes the channel of the first `Base` step after it. */
  lemma {:induction false} PassThroughReachesBase(kinds: seq<StepKind>, i: nat, j: nat)
    requires i <= j < |kinds|
    requires forall m :: i <= m < j ==> kinds[m].Pass?
    requires kinds[j].Base?
    ensures ChannelOf(kinds, i) == Some(kinds[j].own)
    decreases j - i
  {
    if i < j {
      PassThroughReachesBase(kinds, i + 1, j);
    }
  }

  /** The indices `0, 1, ..., n - 1`: the order in which `release` visits the chain. */
  function Indices(n: nat): (r: seq<nat>)
    ensures |r| == n && forall i :: 0 <= i < n ==> r[i] == i
  {
    seq(n, i requires 0 <= i < n => i)
  }

  /** `Pipeline.Builder`: the steps appended so far, in order. */
  datatype Builder = Builder(steps: seq<StepKind>)

  /** `Builder.then`: a new builder with the step appended. */
  function Then(b: Builder, step: StepKind): (r: Builder)
    ensures |r.steps| == |b.steps| + 1
    ensures r.steps[..|b.steps|] == b.steps && r.steps[|b.steps|] == step
  {
    Builder(b.steps + [step])
  }

  /** Building from an empty builder with `then` calls yields exactly those steps, in call order. */
  lemma {:induction false} ThenFold(steps: seq<StepKind>)
    ensures BuildAll(Builder([]), steps).steps == steps
  {
    ThenFoldFrom(Builder([]), steps);
  }

  lemma {:induction false} ThenFoldFrom(b: Builder, steps: seq<StepKind>)
    ensures BuildAll(b, steps).steps == b.steps + steps
    decreases |steps|
  {
    if |steps| > 0 {
      ThenFoldFrom(Then(b, steps[0]), steps[1..]);
      assert b.steps + [steps[0]] + steps[1..] == b.steps + steps;
    }
  }

  /** `then` applied to each of `steps` in turn. */
  function BuildAll(b: Builder, steps: seq<StepKind>): Builder
    decreases |steps|
  {
    if |steps| == 0 then b else BuildAll(Then(b, steps[0]), steps[1..])
  }
}
