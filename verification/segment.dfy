/**
 * `Segment`: one pipeline run for one (track, source index) pair. It keeps
 * the last state its `Pipeline` returned; it can advance until that state
 * is an `Eos`.
 */
module SegmentModel {
  import opened Common
  import opened Steps
  import opened Pipelines

  /** `canAdvance` on the stored state: nothing stored yet, or anything but `Eos`. */
  predicate CanAdvanceFrom(state: Option<State>) {
    state.None? || !state.value.Eos?
  }

  class Segment {
    const track: TrackType
    const index: int
    const pipeline: Pipeline
    /** The last result of `pipeline.execute()`; `None` before the first `advance`. */
    var state: Option<State>

    ghost predicate Valid()
      reads this, pipeline
    {
      pipeline.Valid()
    }

    constructor(track: TrackType, index: int, pipeline: Pipeline)
      requires pipeline.Valid()
      ensures Valid() && CanAdvance()
      ensures this.track == track && this.index == index && this.pipeline == pipeline && state == None
    {
      this.track := track;
      this.index := index;
      this.pipeline := pipeline;
      state := None;
    }

    predicate CanAdvance()
      reads this
    {
      CanAdvanceFrom(state)
    }

    /** `advance`: one pipeline tick; true iff the result is `Ok`, which includes `Eos`. */
    method Advance() returns (ok: bool)
      requires Valid()
      modifies this, pipeline
      ensures Valid()
      ensures var t := PlainTick(old(pipeline.Snap()));
        state == Some(t.result) && pipeline.Snap() == t.after && pipeline.calls == old(pipeline.calls) + t.calls
      ensures ok <==> state.value.IsOk()
      ensures pipeline.released == old(pipeline.released)
    {
      var r := pipeline.Execute();
      state := Some(r);
      ok := r.IsOk();
    }

    /** `release`: delegates to the pipeline. */
    method Release()
      requires Valid()
      modifies pipeline
      ensures Valid()
      ensures pipeline.released == old(pipeline.released) + Indices(|pipeline.kinds|)
      ensures pipeline.Snap() == old(pipeline.Snap()) && pipeline.calls == old(pipeline.calls)
    {
      pipeline.Release();
    }
  }

  /**
   * What `advance` reports: a segment whose pipeline returned `Eos` reports
   * success and can advance no more; one that returned `Ok` reports success
   * and can advance; one that returned `Wait` reports failure and can still
   * advance.
   */
  lemma AdvanceOutcome(r: State)
    requires r.IsOk() || r.Wait?
    ensures r.Eos? ==> r.IsOk() && !CanAdvanceFrom(Some(r))
    ensures r.Ok? ==> r.IsOk() && CanAdvanceFrom(Some(r))
    ensures r.Wait? ==> !r.IsOk() && CanAdvanceFrom(Some(r))
  {
  }

  /**
   * A segment stops being able to advance exactly when a tick ends its
   * chain: the chain is empty or the last step call of the tick answered
   * `Eos`. With the stored index as written, that call may be to a step
   * that had already ended on an earlier tick.
   */
  lemma SegmentEndsWithChain(s: PlainSnapshot)
    requires PlainWellFormed(s)
    ensures var t := PlainTick(s);
      !CanAdvanceFrom(Some(t.result)) <==> |s.scripts| == 0 || (|t.calls| > 0 && Last(t.calls).answer.Eos?)
  {
    PlainTickResultKind(s);
    var t := PlainTick(s);
    if t.result.Wait? {
      PlainTickWalksSubList(s);
      assert t.calls[|t.calls| - 1].step < |s.scripts|;
    }
  }
}
