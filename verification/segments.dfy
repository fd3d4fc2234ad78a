/**
 * `Segments`: opens one segment per (track, source index), strictly in
 * source order, and tears a segment down once it has ended.
 *
 * Per track it keeps the current segment (absent before the first one),
 * the current index (-1 before the first one) and the requested index (0
 * at first). Sources are identified by integers; the same source may serve
 * both tracks. The pipeline factory is a function from (track, index,
 * status, output format) to the new pipeline's chain.
 */
module SegmentCoordination {
  import opened Common
  import opened Steps
  import opened Pipelines
  import opened SegmentModel

  /** A track selection or release on a source, in call order. */
  datatype SourceOp = SelectTrack(source: int, track: TrackType) | ReleaseTrack(source: int, track: TrackType)

  /** The selections `tryCreateSegment` makes when it opens `source` for `t`. */
  function SelectOps(t: TrackType, source: int, status: PerTrack<TrackStatus>, sources: PerTrack<seq<int>>): (ops: seq<SourceOp>)
    ensures forall op :: op in ops ==> op.SelectTrack? && op.source == source && status.Of(op.track).IsTranscoding()
    ensures status.Of(t).IsTranscoding() ==> |ops| >= 1 && ops[0] == SelectTrack(source, t)
    ensures !status.Of(t).IsTranscoding() ==> ops == []
  {
    if !status.Of(t).IsTranscoding() then []
    else if status.Of(Other(t)).IsTranscoding() && source in sources.Of(Other(t)) then
      [SelectTrack(source, t), SelectTrack(source, Other(t))]
    else [SelectTrack(source, t)]
  }

  /** The release `destroySegment` makes on the segment's source. */
  function ReleaseOps(t: TrackType, source: int, status: PerTrack<TrackStatus>): (ops: seq<SourceOp>)
    ensures forall op :: op in ops ==> op == ReleaseTrack(source, t) && status.Of(t).IsTranscoding()
    ensures status.Of(t).IsTranscoding() <==> ops == [ReleaseTrack(source, t)]
  {
    if status.Of(t).IsTranscoding() then [ReleaseTrack(source, t)] else []
  }

  class Segments {
    const sources: PerTrack<seq<int>>
    /** `tracks.all`: every track's resolved status. */
    const status: PerTrack<TrackStatus>
    /** `tracks.outputFormats`. */
    const formats: PerTrack<Format>
    const factory: (TrackType, int, TrackStatus, Format) -> Chain
    const ownsLifeCycle: bool

    /** `current`: `None` is Kotlin's null. */
    var current: PerTrack<Option<Segment>>
    var currentIndex: PerTrack<int>
    var requestedIndex: PerTrack<int>
    /** Every track selection and release made on a source. */
    var sourceOps: seq<SourceOp>
    ghost var Repr: set<object>

    /** The invariant of one track's slot. */
    ghost predicate SlotValid(t: TrackType)
      reads this, Repr
    {
      (current.Of(t).Some? ==>
        var seg := current.Of(t).value;
        seg in Repr && seg.pipeline in Repr && seg.Valid() &&
        seg.track == t && seg.index == currentIndex.Of(t) && 0 <= seg.index < |sources.Of(t)|) &&
      (current.Of(t).None? ==> currentIndex.Of(t) == -1 && requestedIndex.Of(t) == 0) &&
      (requestedIndex.Of(t) == currentIndex.Of(t) || requestedIndex.Of(t) == currentIndex.Of(t) + 1)
    }

    ghost predicate Valid()
      reads this, Repr
    {
      this in Repr && SlotValid(Video) && SlotValid(Audio) &&
      (current.video.Some? && current.audio.Some? ==>
        current.video.value != current.audio.value && current.video.value.pipeline != current.audio.value.pipeline)
    }

    /** `Valid` gives the slot invariant of either track. */
    lemma SlotOf(t: TrackType)
      requires Valid()
      ensures SlotValid(t)
    {
      if t == Video {
        assert SlotValid(Video);
      } else {
        assert SlotValid(Audio);
      }
    }

    /**
     * The current segment of `t` has not been destroyed while it could still
     * advance: a requested index ahead of the current one means the current
     * segment has ended. Every `next` keeps this; only `release` breaks it.
     */
    predicate Settled(t: TrackType)
      reads this, Repr
      requires Valid()
    {
      SlotOf(t);
      current.Of(t).Some? && requestedIndex.Of(t) == currentIndex.Of(t) + 1 ==> !current.Of(t).value.CanAdvance()
    }

    constructor(sources: PerTrack<seq<int>>, status: PerTrack<TrackStatus>, formats: PerTrack<Format>,
                factory: (TrackType, int, TrackStatus, Format) -> Chain, ownsLifeCycle: bool)
      ensures Valid() && fresh(Repr)
      ensures this.sources == sources && this.status == status && this.formats == formats
      ensures this.factory == factory && this.ownsLifeCycle == ownsLifeCycle
      ensures current == PerTrack(None, None) && currentIndex == PerTrack(-1, -1)
      ensures requestedIndex == PerTrack(0, 0) && sourceOps == []
      ensures Settled(Video) && Settled(Audio)
    {
      this.sources := sources;
      this.status := status;
      this.formats := formats;
      this.factory := factory;
      this.ownsLifeCycle := ownsLifeCycle;
      current := PerTrack(None, None);
      currentIndex := PerTrack(-1, -1);
      requestedIndex := PerTrack(0, 0);
      sourceOps := [];
      Repr := {this};
    }

    /** `hasNext(type)`. */
    predicate HasNext(t: TrackType)
      reads this, Repr
      requires Valid()
    {
      SlotOf(t);
      if |sources.Of(t)| == 0 then false
      else if current.Of(t).None? then true
      else current.Of(t).value.CanAdvance() || current.Of(t).value.index < |sources.Of(t)| - 1
    }

    /** `hasNext()`: either track has more. */
    predicate HasNextAny()
      reads this, Repr
      requires Valid()
    {
      HasNext(Video) || HasNext(Audio)
    }

    /** `tryCreateSegment`: open source `index` of track `t`, or answer `None` past the last source. */
    method TryCreateSegment(t: TrackType, index: int) returns (r: Option<Segment>)
      requires Valid() && index == requestedIndex.Of(t) == currentIndex.Of(t) + 1
      modifies this
      ensures Valid() && fresh(Repr - old(Repr))
      ensures !(0 <= index < |sources.Of(t)|) ==>
        r.None? && current == old(current) && currentIndex == old(currentIndex) && sourceOps == old(sourceOps)
      ensures 0 <= index < |sources.Of(t)| ==>
        r.Some? && fresh(r.value) && fresh(r.value.pipeline) && current == old(current).With(t, Some(r.value)) &&
        currentIndex == old(currentIndex).With(t, index) &&
        sourceOps == old(sourceOps) + SelectOps(t, sources.Of(t)[index], status, sources)
      ensures r.Some? ==>
        r.value.track == t && r.value.index == index && r.value.state == None &&
        r.value.pipeline.kinds == factory(t, index, status.Of(t), formats.Of(t)).kinds &&
        r.value.pipeline.Snap() == PlainSnapshot(Ok(Unit), 0, factory(t, index, status.Of(t), formats.Of(t)).scripts)
      ensures requestedIndex == old(requestedIndex)
    {
      SlotOf(t);
      if !(0 <= index < |sources.Of(t)|) {
        return None;
      }
      var source := sources.Of(t)[index];
      sourceOps := sourceOps + SelectOps(t, source, status, sources);
      currentIndex := currentIndex.With(t, index);
      var chain := factory(t, index, status.Of(t), formats.Of(t));
      var pipeline := new Pipeline(chain.kinds, chain.scripts);
      var segment := new Segment(t, index, pipeline);
      current := current.With(t, Some(segment));
      Repr := Repr + {segment, pipeline};
      r := Some(segment);
    }

    /** `destroySegment`: release the segment's pipeline and track, and request the next index. */
    method DestroySegment(seg: Segment)
      requires Valid() && current.Of(seg.track) == Some(seg)
      modifies this, seg.pipeline
      ensures Valid() && Repr == old(Repr)
      ensures seg.pipeline.released == old(seg.pipeline.released) + Indices(|seg.pipeline.kinds|)
      ensures seg.pipeline.Snap() == old(seg.pipeline.Snap()) && seg.pipeline.calls == old(seg.pipeline.calls)
      ensures requestedIndex == old(requestedIndex).With(seg.track, seg.index + 1)
      ensures 0 <= seg.index < |sources.Of(seg.track)|
      ensures sourceOps == old(sourceOps) + ReleaseOps(seg.track, sources.Of(seg.track)[seg.index], status)
      ensures current == old(current) && currentIndex == old(currentIndex)
    {
      SlotOf(seg.track);
      seg.Release();
      var source := sources.Of(seg.track)[seg.index];
      sourceOps := sourceOps + ReleaseOps(seg.track, source, status);
      requestedIndex := requestedIndex.With(seg.track, seg.index + 1);
    }
  
    /**
     * `next(type)`: the segment to consume, or `None` when the track has no
     * sources or is over. A requested index below the current one is the
     * source's error case; the invariant rules it out.
     */
    method Next(t: TrackType) returns (r: Option<Segment>)
      requires Valid()
      modifies Repr
      ensures Valid() && fresh(Repr - old(Repr))
      ensures ownsLifeCycle && old(Settled(t)) ==> (r.Some? <==> old(HasNext(t)))
      ensures old(Settled(t)) ==> Settled(t)
      ensures r.Some? ==>
        current.Of(t) == r && r.value.CanAdvance() && r.value.index == currentIndex.Of(t) == requestedIndex.Of(t)
      ensures currentIndex.Of(t) == old(currentIndex.Of(t)) || currentIndex.Of(t) == old(currentIndex.Of(t)) + 1
      ensures old(current.Of(t).Some? && current.Of(t).value.CanAdvance() && requestedIndex.Of(t) == currentIndex.Of(t)) ==>
        r == old(current.Of(t)) && current == old(current) && currentIndex == old(currentIndex) &&
        requestedIndex == old(requestedIndex) && sourceOps == old(sourceOps)
      ensures !ownsLifeCycle ==>
        old(current.Of(t).Some? && !current.Of(t).value.CanAdvance() && requestedIndex.Of(t) == currentIndex.Of(t)) ==>
        r.None?
      ensures current.Of(Other(t)) == old(current.Of(Other(t)))
      ensures currentIndex.Of(Other(t)) == old(currentIndex.Of(Other(t)))
      ensures requestedIndex.Of(Other(t)) == old(requestedIndex.Of(Other(t)))
      ensures old(current.Of(Other(t))).Some? ==>
        unchanged(old(current.Of(Other(t))).value, old(current.Of(Other(t))).value.pipeline)
      decreases 1 + currentIndex.Of(t) - requestedIndex.Of(t), 1
    {
      SlotOf(t);
      SlotOf(Other(t));
      var cur := currentIndex.Of(t);
      var req := requestedIndex.Of(t);
      if req < cur {
        assert false;
      }
      if req > cur {
        r := TryCreateSegment(t, req);
      } else if current.Of(t).value.CanAdvance() {
        r := current.Of(t);
      } else if ownsLifeCycle {
        r := ReplaceEnded(t);
      } else {
        r := None;
      }
    }

    /** The last branch of `next`: destroy the ended current segment and look again. */
    method ReplaceEnded(t: TrackType) returns (r: Option<Segment>)
      requires Valid() && ownsLifeCycle
      requires current.Of(t).Some? && !current.Of(t).value.CanAdvance() && requestedIndex.Of(t) == currentIndex.Of(t)
      modifies Repr
      ensures Valid() && fresh(Repr - old(Repr))
      ensures r.Some? <==> old(HasNext(t))
      ensures Settled(t)
      ensures r.Some? ==>
        current.Of(t) == r && r.value.CanAdvance() && r.value.index == currentIndex.Of(t) == requestedIndex.Of(t)
      ensures currentIndex.Of(t) == old(currentIndex.Of(t)) || currentIndex.Of(t) == old(currentIndex.Of(t)) + 1
      ensures current.Of(Other(t)) == old(current.Of(Other(t)))
      ensures currentIndex.Of(Other(t)) == old(currentIndex.Of(Other(t)))
      ensures requestedIndex.Of(Other(t)) == old(requestedIndex.Of(Other(t)))
      ensures old(current.Of(Other(t))).Some? ==>
        unchanged(old(current.Of(Other(t))).value, old(current.Of(Other(t))).value.pipeline)
      decreases 1 + currentIndex.Of(t) - requestedIndex.Of(t), 0
    {
      SlotOf(t);
      SlotOf(Other(t));
      DestroySegment(current.Of(t).value);
      r := Next(t);
    }

    /** The source operations of destroying `seg`, if there is one. */
    function DestroyOps(seg: Option<Segment>): seq<SourceOp>
      requires seg.Some? ==> 0 <= seg.value.index < |sources.Of(seg.value.track)|
    {
      if seg.None? then [] else ReleaseOps(seg.value.track, sources.Of(seg.value.track)[seg.value.index], status)
    }

    /**
     * `release`: destroy the current video segment, then the current audio
     * segment. A segment that `next` already destroyed is destroyed again.
     */
    method Release()
      requires Valid()
      modifies Repr
      ensures Valid() && Repr == old(Repr)
      ensures current == old(current) && currentIndex == old(currentIndex)
      ensures forall t :: requestedIndex.Of(t) == (if current.Of(t).Some? then currentIndex.Of(t) + 1 else old(requestedIndex.Of(t)))
      ensures sourceOps == old(sourceOps) + DestroyOps(current.video) + DestroyOps(current.audio)
      ensures forall t :: current.Of(t).Some? ==>
        var p := current.Of(t).value.pipeline;
        p.released == old(p.released) + Indices(|p.kinds|) && p.Snap() == old(p.Snap()) && p.calls == old(p.calls)
    {
      SlotOf(Video);
      SlotOf(Audio);
      if current.video.Some? {
        DestroySegment(current.video.value);
      }
      if current.audio.Some? {
        DestroySegment(current.audio.value);
      }
    }
  }

  /** The source operations a set of segments makes are selections and releases of active tracks only. */
  lemma SourceOpsOnlyActive(t: TrackType, source: int, status: PerTrack<TrackStatus>, sources: PerTrack<seq<int>>)
    ensures forall op :: op in SelectOps(t, source, status, sources) + ReleaseOps(t, source, status) ==>
      status.Of(op.track).IsTranscoding()
  {
  }
}
