/**
 * `Timer`: the time line of a transcoding whose sources are concatenated.
 * Each track reads its sources in order; `current` is the index of the
 * source being read. A source is seen through its read position and its
 * declared duration. Positions, durations and `localize` are folds over the
 * source list; `interpolator` caches one time interpolator per
 * (track, source index), chained so that each source's output continues
 * from the previous one's last output.
 */
module TimeLine {
  import opened Common

  /** What the timer reads of a source: `positionUs` and `durationUs`. */
  datatype SourceTimes = SourceTimes(positionUs: int, durationUs: int)

  /** `durationUs(current)`: the fold adds read positions below `current` and declared durations from it on. */
  function DurationFold(sources: seq<SourceTimes>, current: int): int
    decreases |sources|
  {
    if |sources| == 0 then 0
    else
      var i := |sources| - 1;
      DurationFold(sources[..i], current) + (if i < current then sources[i].positionUs else sources[i].durationUs)
  }

  /** `positionUs(current)`: the fold adds read positions up to and including `current`. */
  function PositionFold(sources: seq<SourceTimes>, current: int): int
    decreases |sources|
  {
    if |sources| == 0 then 0
    else
      var i := |sources| - 1;
      PositionFold(sources[..i], current) + (if i <= current then sources[i].positionUs else 0)
  }

  function SumPositions(sources: seq<SourceTimes>): int
    decreases |sources|
  {
    if |sources| == 0 then 0 else SumPositions(sources[..|sources| - 1]) + sources[|sources| - 1].positionUs
  }

  function SumDurations(sources: seq<SourceTimes>): int
    decreases |sources|
  {
    if |sources| == 0 then 0 else SumDurations(sources[..|sources| - 1]) + sources[|sources| - 1].durationUs
  }

  /** `n` clamped into 0..|s|: how many leading elements satisfy an `index < n` filter. */
  function Cut(n: int, len: nat): (c: nat)
    ensures c <= len
  {
    if n < 0 then 0 else if n > len then len else n
  }

  /** A sum over a sequence splits at any point. */
  lemma {:induction false} SumDurationsSplit(sources: seq<SourceTimes>, c: nat)
    requires c <= |sources|
    ensures SumDurations(sources) == SumDurations(sources[..c]) + SumDurations(sources[c..])
    decreases |sources|
  {
    if c < |sources| {
      var n := |sources| - 1;
      SumDurationsSplit(sources[..n], c);
      assert sources[..n][..c] == sources[..c];
      assert sources[c..][..|sources[c..]| - 1] == sources[..n][c..];
    } else {
      assert sources[..c] == sources;
    }
  }

  /**
   * The duration fold is the read positions of the sources before `current`
   * plus the declared durations of the rest.
   */
  lemma {:induction false} DurationIsReadPlusDeclared(sources: seq<SourceTimes>, current: int)
    ensures var c := Cut(current, |sources|);
      DurationFold(sources, current) == SumPositions(sources[..c]) + SumDurations(sources[c..])
    decreases |sources|
  {
    if |sources| > 0 {
      var n := |sources| - 1;
      var init := sources[..n];
      DurationIsReadPlusDeclared(init, current);
      var c := Cut(current, |sources|);
      var c' := Cut(current, n);
      if n < current {
        assert c == |sources| && c' == n;
        assert sources[..c] == sources && sources[c..] == [];
        assert init[..c'] == init && init[c'..] == [];
      } else {
        assert c == c' && init[..c'] == sources[..c];
        assert sources[c..][..|sources[c..]| - 1] == init[c'..];
      }
    }
  }

  /** The position fold is the read positions of the sources up to and including `current`. */
  lemma {:induction false} PositionIsReadSoFar(sources: seq<SourceTimes>, current: int)
    ensures PositionFold(sources, current) == SumPositions(sources[..Cut(current + 1, |sources|)])
    decreases |sources|
  {
    if |sources| > 0 {
      var n := |sources| - 1;
      var init := sources[..n];
      PositionIsReadSoFar(init, current);
      if n <= current {
        assert sources[..Cut(current + 1, |sources|)] == sources;
        assert init[..Cut(current + 1, n)] == init;
      } else {
        assert sources[..Cut(current + 1, |sources|)] == init[..Cut(current + 1, n)];
      }
    }
  }

  /** The time line the timer reads: which tracks are active, their sources and current indices. */
  datatype Timeline = Timeline(active: PerTrack<bool>, sources: PerTrack<seq<SourceTimes>>, current: PerTrack<int>) {

    /** `positionUs[type]`: 0 for an inactive track. */
    function PositionUs(t: TrackType): (r: int)
      ensures !active.Of(t) ==> r == 0
      ensures active.Of(t) ==>
        r == SumPositions(sources.Of(t)[..Cut(current.Of(t) + 1, |sources.Of(t)|)])
    {
      PositionIsReadSoFar(sources.Of(t), current.Of(t));
      if !active.Of(t) then 0 else PositionFold(sources.Of(t), current.Of(t))
    }

    /** `durationUs[type]`: 0 for an inactive track. */
    function DurationUs(t: TrackType): (r: int)
      ensures !active.Of(t) ==> r == 0
      ensures active.Of(t) ==>
        var c := Cut(current.Of(t), |sources.Of(t)|);
        r == SumPositions(sources.Of(t)[..c]) + SumDurations(sources.Of(t)[c..])
    {
      DurationIsReadPlusDeclared(sources.Of(t), current.Of(t));
      if !active.Of(t) then 0 else DurationFold(sources.Of(t), current.Of(t))
    }

    /** `totalDurationUs`: the shortest active track, `Long.MAX_VALUE` when none is active. */
    function TotalDurationUs(): (r: int)
      ensures !active.video && !active.audio ==> r == LONG_MAX
      ensures forall t :: active.Of(t) ==> r <= DurationUs(t)
      ensures r == LONG_MAX || exists t :: active.Of(t) && r == DurationUs(t)
    {
      var video := if active.video then DurationUs(Video) else LONG_MAX;
      var audio := if active.audio then DurationUs(Audio) else LONG_MAX;
      assert active.Of(Video) == active.video && active.Of(Audio) == active.audio;
      Min(video, audio)
    }

    /** `progress[type]`: position over duration, or zero when the duration is zero. */
    function Progress(t: TrackType): (r: Ratio)
      ensures r.Zero? <==> DurationUs(t) == 0
      ensures r.Ratio? ==> r == Ratio(PositionUs(t), DurationUs(t))
    {
      var total := DurationUs(t);
      if total == 0 then Zero else Ratio(PositionUs(t), total)
    }

    /**
     * `localize`: a time line position as a position inside source `index`,
     * by subtracting the declared durations of the sources before it. Null
     * for an inactive track or a result outside 0..that source's duration;
     * an index outside the list throws once the first check has passed.
     */
    function Localize(t: TrackType, index: int, positionUs: int): (r: Result<Option<int>>)
      ensures !active.Of(t) ==> r == Success(None)
      ensures r.Success? && r.value.Some? ==>
        && 0 <= index < |sources.Of(t)|
        && 0 <= r.value.value <= sources.Of(t)[index].durationUs
        && r.value.value == positionUs - SumDurations(sources.Of(t)[..index])
    {
      if !active.Of(t) then Success(None)
      else
        var list := sources.Of(t);
        var before := list[..Cut(index, |list|)];
        DurationIsReadPlusDeclared(before, -1);
        assert before[..0] == [] && before[0..] == before;
        var behindUs := DurationFold(before, -1);
        var localizedUs := positionUs - behindUs;
        if localizedUs < 0 then Success(None)
        else if !(0 <= index < |list|) then Failure("Index " + "out of bounds")
        else if localizedUs > list[index].durationUs then Success(None)
        else Success(Some(localizedUs))
    }
  }

  /** A `Double` quotient, kept as its two operands. */
  datatype Ratio = Zero | Ratio(num: int, den: int)

  /** `localize` takes back a position placed inside a source of an active track. */
  lemma LocalizeRoundTrip(tl: Timeline, t: TrackType, index: int, local: int)
    requires tl.active.Of(t) && 0 <= index < |tl.sources.Of(t)|
    requires 0 <= local <= tl.sources.Of(t)[index].durationUs
    ensures tl.Localize(t, index, SumDurations(tl.sources.Of(t)[..index]) + local) == Success(Some(local))
  {
    var list := tl.sources.Of(t);
    var before := list[..index];
    DurationIsReadPlusDeclared(before, -1);
    assert before[..0] == [] && before[0..] == before;
  }

  /** The output of a segment interpolator for input `time`: its output base plus the input's offset. */
  function Shifted(firstOut: int, firstIn: int, time: int): int {
    firstOut + (time - firstIn)
  }

  /**
   * The outputs of consecutive segments fed with the given input times: the
   * first segment starts at 0 and each later one 10 after the previous
   * segment's last output (0 if that segment saw no input).
   */
  function ChainOutputs(segments: seq<seq<int>>, firstOut: int): seq<seq<int>>
    decreases |segments|
  {
    if |segments| == 0 then []
    else
      var times := segments[0];
      var outs := seq(|times|, i requires 0 <= i < |times| => Shifted(firstOut, times[0], times[i]));
      var lastOut := if |times| == 0 then 0 else outs[|times| - 1];
      [outs] + ChainOutputs(segments[1..], lastOut + 10)
  }

  predicate StrictlyIncreasing(xs: seq<int>) {
    forall i, j :: 0 <= i < j < |xs| ==> xs[i] < xs[j]
  }

  /**
   * When every segment receives at least one input and its inputs increase,
   * the chained output time line increases across segment boundaries, and
   * it starts at the given base.
   */
  lemma {:induction false} ChainedOutputsIncrease(segments: seq<seq<int>>, firstOut: int)
    requires forall k :: 0 <= k < |segments| ==> |segments[k]| > 0 && StrictlyIncreasing(segments[k])
    ensures StrictlyIncreasing(Flatten(ChainOutputs(segments, firstOut)))
    ensures |segments| > 0 ==> |Flatten(ChainOutputs(segments, firstOut))| > 0 && Flatten(ChainOutputs(segments, firstOut))[0] == firstOut
    ensures forall x :: x in Flatten(ChainOutputs(segments, firstOut)) ==> x >= firstOut
    decreases |segments|
  {
    if |segments| > 0 {
      var times := segments[0];
      var outs := seq(|times|, i requires 0 <= i < |times| => Shifted(firstOut, times[0], times[i]));
      var lastOut := outs[|times| - 1];
      var rest := ChainOutputs(segments[1..], lastOut + 10);
      assert ChainOutputs(segments, firstOut) == [outs] + rest;
      FlattenCons(outs, rest);
      ChainedOutputsIncrease(segments[1..], lastOut + 10);
      var all := outs + Flatten(rest);
      assert forall i :: 0 <= i < |outs| ==> firstOut <= outs[i] <= lastOut by {
        forall i | 0 <= i < |outs|
          ensures firstOut <= outs[i] <= lastOut
        {
          if i > 0 {
            assert times[0] < times[i];
          }
          if i < |outs| - 1 {
            assert times[i] < times[|times| - 1];
          }
        }
      }
      forall i, j | 0 <= i < j < |all|
        ensures all[i] < all[j]
      {
        if j < |outs| {
          assert times[i] < times[j];
        } else if i >= |outs| {
          assert all[i] == Flatten(rest)[i - |outs|] && all[j] == Flatten(rest)[j - |outs|];
        } else {
          assert all[j] in Flatten(rest);
        }
      }
      assert forall x :: x in all ==> x >= firstOut by {
        forall x | x in all
          ensures x >= firstOut
        {
          var i :| 0 <= i < |all| && all[i] == x;
          if i >= |outs| {
            assert all[i] in Flatten(rest);
          }
        }
      }
    }
  }

  /**
   * The anonymous interpolator made for one (track, index): `firstOut` is its
   * output base, `firstIn` its first input (`Long.MAX_VALUE` until one
   * arrives), `lastOut` its last output. The user's interpolator it hands
   * its output to is `outer`.
   */
  class SegmentInterpolator {
    const firstOut: int
    var firstIn: int
    var lastOut: int
    const outer: (TrackType, int) -> int

    constructor(firstOut: int, outer: (TrackType, int) -> int)
      ensures this.firstOut == firstOut && this.outer == outer
      ensures firstIn == LONG_MAX && lastOut == 0
    {
      this.firstOut := firstOut;
      this.outer := outer;
      firstIn := LONG_MAX;
      lastOut := 0;
    }

    /**
     * `interpolate`: a `Long.MAX_VALUE` query answers the last output and
     * changes nothing; otherwise the first input is recorded once and the
     * output is the base plus the offset from it.
     */
    method Interpolate(t: TrackType, time: int) returns (r: int)
      modifies this
      ensures time == LONG_MAX ==> r == old(lastOut) && unchanged(this)
      ensures time != LONG_MAX ==>
        && firstIn == (if old(firstIn) == LONG_MAX then time else old(firstIn))
        && lastOut == Shifted(firstOut, firstIn, time)
        && r == outer(t, lastOut)
    {
      if time == LONG_MAX {
        return lastOut;
      }
      if firstIn == LONG_MAX {
        firstIn := time;
      }
      lastOut := firstOut + (time - firstIn);
      r := outer(t, lastOut);
    }
  }

  /** The part of `Timer` that holds state: the interpolator cache. */
  class Timer {
    var interpolators: map<(TrackType, int), SegmentInterpolator>
    const outer: (TrackType, int) -> int

    constructor(outer: (TrackType, int) -> int)
      ensures interpolators == map[] && this.outer == outer
    {
      interpolators := map[];
      this.outer := outer;
    }

    /**
     * `interpolator(type, index)` (`getOrPut`): a cached interpolator is
     * returned as it is. A new one has base 0 for index 0 and the previous
     * index's last output plus 10 otherwise; a missing previous interpolator
     * throws. Cached interpolators keep their state.
     */
    method Interpolator(t: TrackType, index: int) returns (r: Result<SegmentInterpolator>)
      modifies set k | k in interpolators :: interpolators[k]
      modifies this
      ensures (t, index) in old(interpolators) ==>
        r == Success(old(interpolators)[(t, index)]) && interpolators == old(interpolators)
      ensures (t, index) !in old(interpolators) && index != 0 && (t, index - 1) !in old(interpolators) ==>
        r.Failure? && interpolators == old(interpolators)
      ensures (t, index) !in old(interpolators) && r.Success? ==>
        && fresh(r.value)
        && interpolators == old(interpolators)[(t, index) := r.value]
        && r.value.firstOut == (if index == 0 then 0 else old(interpolators[(t, index - 1)].lastOut) + 10)
        && r.value.firstIn == LONG_MAX && r.value.lastOut == 0 && r.value.outer == outer
      ensures index == 0 || (t, index) in old(interpolators) || (t, index - 1) in old(interpolators) ==> r.Success?
      ensures forall k :: k in old(interpolators) ==> unchanged(old(interpolators)[k])
    {
      if (t, index) in interpolators {
        return Success(interpolators[(t, index)]);
      }
      var firstOut := 0;
      if index != 0 {
        if (t, index - 1) !in interpolators {
          return Failure("NullPointerException");
        }
        var previous := interpolators[(t, index - 1)];
        var last := previous.Interpolate(t, LONG_MAX);
        firstOut := last + 10;
      }
      var created := new SegmentInterpolator(firstOut, outer);
      interpolators := interpolators[(t, index) := created];
      r := Success(created);
    }
  }
}
