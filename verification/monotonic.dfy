/**
 * `MonotonicTimeInterpolator`: keeps each track's timestamps strictly
 * increasing by lifting a timestamp that does not exceed the previous output
 * to the previous output plus one. Each track keeps its own last output,
 * starting at the `Long.MIN_VALUE` sentinel.
 */
module MonotonicTime {
  import opened Common

  /** Kotlin's `prev + 1` on a Long: wraps at `Long.MAX_VALUE`. */
  function Inc64(prev: int): int {
    if prev == LONG_MAX then LONG_MIN else prev + 1
  }

  /** The private `interpolate(prev, next)`: the sentinel passes `next` through. */
  function NextTime(prev: int, next: int): (r: int)
    ensures prev == LONG_MIN ==> r == next
    ensures prev != LONG_MIN && prev < LONG_MAX ==> r > prev && r >= next && (r == next || r == prev + 1)
  {
    if prev == LONG_MIN then next else Max(next, Inc64(prev))
  }

  /** The outputs for a sequence of inputs on one track, starting from `prev`. */
  function Run(prev: int, times: seq<int>): (r: seq<int>)
    ensures |r| == |times|
    decreases |times|
  {
    if |times| == 0 then []
    else
      var out := NextTime(prev, times[0]);
      [out] + Run(out, times[1..])
  }

  /** The example of the documentation: 20 30 40 50 10 20 30 becomes 20 30 40 50 51 52 53. */
  lemma DocumentedExample()
    ensures Run(LONG_MIN, [20, 30, 40, 50, 10, 20, 30]) == [20, 30, 40, 50, 51, 52, 53]
  {
    var t := [20, 30, 40, 50, 10, 20, 30];
    assert t[1..] == [30, 40, 50, 10, 20, 30];
    assert t[1..][1..] == [40, 50, 10, 20, 30];
    assert t[1..][1..][1..] == [50, 10, 20, 30];
    assert t[1..][1..][1..][1..] == [10, 20, 30];
    assert t[1..][1..][1..][1..][1..] == [20, 30];
    assert t[1..][1..][1..][1..][1..][1..] == [30];
  }

  /**
   * Outputs after the first are strictly increasing as long as they stay
   * below `Long.MAX_VALUE` (at which `prev + 1` wraps) and no output is the
   * sentinel itself, which would restart the track.
   */
  lemma {:induction false} RunIncreasing(prev: int, times: seq<int>)
    requires forall i :: 0 <= i < |times| ==> LONG_MIN < times[i] < LONG_MAX
    requires LONG_MIN <= prev < LONG_MAX
    requires forall i :: 0 <= i < |Run(prev, times)| ==> Run(prev, times)[i] < LONG_MAX
    ensures forall i, j :: 0 <= i < j < |times| ==> Run(prev, times)[i] < Run(prev, times)[j]
    ensures prev != LONG_MIN ==> forall i :: 0 <= i < |times| ==> prev < Run(prev, times)[i]
    decreases |times|
  {
    if |times| > 0 {
      var out := NextTime(prev, times[0]);
      var rest := Run(out, times[1..]);
      assert Run(prev, times) == [out] + rest;
      assert out != LONG_MIN;
      assert out == Run(prev, times)[0] < LONG_MAX;
      forall i | 0 <= i < |rest|
        ensures rest[i] < LONG_MAX
      {
        assert rest[i] == Run(prev, times)[i + 1];
      }
      RunIncreasing(out, times[1..]);
      if prev != LONG_MIN {
        assert prev < out;
      }
    }
  }

  /** The interpolator: one last output per track, initially the sentinel. */
  class MonotonicTimeInterpolator {
    var last: PerTrack<int>

    constructor()
      ensures last == PerTrack(LONG_MIN, LONG_MIN)
    {
      last := PerTrack(LONG_MIN, LONG_MIN);
    }

    /** `interpolate(type, time)`: the output becomes that track's last output; the other track is untouched. */
    method Interpolate(t: TrackType, time: int) returns (r: int)
      modifies this
      ensures r == NextTime(old(last.Of(t)), time)
      ensures last == old(last).With(t, r)
    {
      r := NextTime(last.Of(t), time);
      last := last.With(t, r);
    }
  }
}
