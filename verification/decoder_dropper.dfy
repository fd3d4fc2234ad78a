/**
 * `DecoderDropper`: remembers which decoder inputs were meant to be rendered
 * as ranges of input times, and shifts each decoder output back by the
 * spans that were skipped before it, so that the rendered frames follow
 * each other without the dropped spans.
 */
module Dropping {
  import opened Common

  /** Kotlin's `LongRange` `first..last`: empty when `first > last`. */
  datatype Range = Range(first: int, last: int) {
    predicate Contains(x: int) {
      first <= x <= last
    }

    predicate IsEmpty() {
      first > last
    }
  }

  /** Kotlin treats every empty range as equal to every other, so they share one map key. */
  function Key(r: Range): (k: Range)
    ensures !r.IsEmpty() ==> k == r
    ensures r.IsEmpty() ==> k.IsEmpty()
  {
    if r.IsEmpty() then Range(1, 0) else r
  }

  /** The shift of a newly closed range: 0 for the first, its start minus the previous range's end otherwise. */
  function GapBefore(closed: seq<Range>, r: Range): int {
    if |closed| == 0 then 0 else r.first - closed[|closed| - 1].last
  }

  /** Every closed range has a delta in the map. */
  ghost predicate AllKeyed(closed: seq<Range>, deltas: map<Range, int>) {
    forall i :: 0 <= i < |closed| ==> Key(closed[i]) in deltas
  }

  /** The deltas of the first `n` closed ranges, summed. */
  function DeltaUpTo(closed: seq<Range>, deltas: map<Range, int>, n: nat): int
    requires AllKeyed(closed, deltas) && n <= |closed|
  {
    if n == 0 then 0 else DeltaUpTo(closed, deltas, n - 1) + deltas[Key(closed[n - 1])]
  }

  /** The first closed range containing `x`. */
  function FirstContaining(closed: seq<Range>, x: int): (r: Option<nat>)
    ensures r.Some? ==> r.value < |closed| && closed[r.value].Contains(x)
    ensures r.Some? ==> forall j :: 0 <= j < r.value ==> !closed[j].Contains(x)
    ensures r.None? ==> forall j :: 0 <= j < |closed| ==> !closed[j].Contains(x)
    decreases |closed|
  {
    if |closed| == 0 then None
    else if closed[0].Contains(x) then Some(0)
    else match FirstContaining(closed[1..], x)
      case Some(i) => Some(i + 1)
      case None => None
  }

  /** A pending range whose end is known (the next render has not reopened it). */
  predicate Finite(pending: Option<Range>) {
    pending.Some? && pending.value.last != LONG_MAX
  }

  /**
   * The new output time for a decoder output at `timeUs` whose time in the
   * input scale is `x`: shifted by the deltas up to the first closed range
   * containing `x`; or, inside a finite pending range, by all deltas plus the
   * pending range's own gap; otherwise dropped.
   */
  function Shift(closed: seq<Range>, deltas: map<Range, int>, pending: Option<Range>, x: int, timeUs: int): Option<int>
    requires AllKeyed(closed, deltas)
  {
    match FirstContaining(closed, x)
    case Some(i) => Some(timeUs - DeltaUpTo(closed, deltas, i + 1))
    case None =>
      if Finite(pending) && pending.value.Contains(x) then
        Some(timeUs - (DeltaUpTo(closed, deltas, |closed|) + GapBefore(closed, pending.value)))
      else None
  }

  /** The rendered spans follow each other in time. */
  ghost predicate Ordered(closed: seq<Range>) {
    && (forall i :: 0 <= i < |closed| ==> !closed[i].IsEmpty())
    && (forall i, j :: 0 <= i < j < |closed| ==> closed[i].last < closed[j].first)
  }

  /** Each closed range's delta is the gap between it and the range before it. */
  ghost predicate DeltasMatch(closed: seq<Range>, deltas: map<Range, int>) {
    && AllKeyed(closed, deltas)
    && forall i :: 0 <= i < |closed| ==> deltas[Key(closed[i])] == GapBefore(closed[..i], closed[i])
  }

  /** The closing step of `input`: the range joins the list and its delta is recorded under its key. */
  function Close(closed: seq<Range>, deltas: map<Range, int>, r: Range): (seq<Range>, map<Range, int>) {
    (closed + [r], deltas[Key(r) := GapBefore(closed, r)])
  }

  /** Closing a range that starts after every closed one keeps each delta equal to its gap. */
  lemma CloseKeepsDeltas(closed: seq<Range>, deltas: map<Range, int>, r: Range)
    requires Ordered(closed + [r]) && DeltasMatch(closed, deltas)
    ensures DeltasMatch(Close(closed, deltas, r).0, Close(closed, deltas, r).1)
  {
    var (c, d) := Close(closed, deltas, r);
    forall i | 0 <= i < |c|
      ensures Key(c[i]) in d && d[Key(c[i])] == GapBefore(c[..i], c[i])
    {
      if i < |closed| {
        assert c[i] == closed[i] && c[..i] == closed[..i];
        assert c[|closed|] == r;
        assert closed[i].last < r.first;
        assert Key(c[i]) != Key(r);
      } else {
        assert c[..i] == closed;
      }
    }
  }

  /** The first range containing `x` is the one at `k` when `k` contains it and no earlier one does. */
  lemma FirstContainingIs(closed: seq<Range>, x: int, k: nat)
    requires k < |closed| && closed[k].Contains(x)
    requires forall j :: 0 <= j < k ==> !closed[j].Contains(x)
    ensures FirstContaining(closed, x) == Some(k)
  {
  }

  /** In ordered ranges, the range at `k` is the first to contain any of its points. */
  lemma OwnRangeFirst(closed: seq<Range>, x: int, k: nat)
    requires Ordered(closed) && k < |closed| && closed[k].Contains(x)
    ensures FirstContaining(closed, x) == Some(k)
  {
    forall j | 0 <= j < k
      ensures !closed[j].Contains(x)
    {
      assert closed[j].last < closed[k].first;
    }
    FirstContainingIs(closed, x, k);
  }

  /**
   * No gap across a drop: among ordered rendered ranges, the first frame of
   * a range gets the same new time as the last frame of the range before it,
   * and inside a range new times keep the input spacing.
   */
  lemma NoGapAcrossDrop(closed: seq<Range>, deltas: map<Range, int>, pending: Option<Range>, shift: int, k: nat)
    requires Ordered(closed) && DeltasMatch(closed, deltas)
    requires 0 < k < |closed|
    ensures var prev := closed[k - 1].last;
      var start := closed[k].first;
      Shift(closed, deltas, pending, start, start + shift) == Shift(closed, deltas, pending, prev, prev + shift)
    ensures forall x, y :: closed[k].Contains(x) && closed[k].Contains(y) ==>
      Shift(closed, deltas, pending, y, y + shift).value - Shift(closed, deltas, pending, x, x + shift).value == y - x
  {
    var prev := closed[k - 1].last;
    var start := closed[k].first;
    OwnRangeFirst(closed, start, k);
    OwnRangeFirst(closed, prev, k - 1);
    assert closed[..k][k - 1] == closed[k - 1];
    assert deltas[Key(closed[k])] == start - prev;
    forall x | closed[k].Contains(x)
      ensures FirstContaining(closed, x) == Some(k)
    {
      OwnRangeFirst(closed, x, k);
    }
  }

  /** A finite pending range after the closed ones continues where the last closed range ended. */
  lemma NoGapBeforePending(closed: seq<Range>, deltas: map<Range, int>, pending: Range, shift: int)
    requires Ordered(closed + [pending]) && DeltasMatch(closed, deltas)
    requires pending.last != LONG_MAX && |closed| > 0
    ensures var prev := closed[|closed| - 1].last;
      var start := pending.first;
      Shift(closed, deltas, Some(pending), start, start + shift) == Shift(closed, deltas, Some(pending), prev, prev + shift)
  {
    var all := closed + [pending];
    var n := |closed|;
    var prev := closed[n - 1].last;
    var start := pending.first;
    assert Ordered(closed) by {
      forall i | 0 <= i < n
        ensures closed[i] == all[i]
      {
      }
    }
    forall j | 0 <= j < n
      ensures !closed[j].Contains(start)
    {
      assert all[j] == closed[j] && all[n] == pending;
      assert closed[j].last < start;
    }
    OwnRangeFirst(closed, prev, n - 1);
  }

  class DecoderDropper {
    var closedDeltas: map<Range, int>
    var closedRanges: seq<Range>
    var pendingRange: Option<Range>
    var firstInputUs: Option<int>
    var firstOutputUs: Option<int>

    ghost predicate Valid()
      reads this
    {
      AllKeyed(closedRanges, closedDeltas)
    }

    constructor()
      ensures Valid()
      ensures closedDeltas == map[] && closedRanges == [] && pendingRange == None
      ensures firstInputUs == None && firstOutputUs == None
    {
      closedDeltas := map[];
      closedRanges := [];
      pendingRange := None;
      firstInputUs := None;
      firstOutputUs := None;
    }

    /**
     * `input`: the first input time is kept once set. A rendered input opens
     * `t..MAX` or extends the pending range to end at `t`; a skipped input
     * closes a pending range whose end is known and clears it.
     */
    method Input(timeUs: int, render: bool)
      requires Valid()
      modifies this
      ensures Valid()
      ensures firstInputUs == (if old(firstInputUs).None? then Some(timeUs) else old(firstInputUs))
      ensures firstOutputUs == old(firstOutputUs)
      ensures render ==>
        && pendingRange == Some(if old(pendingRange).None? then Range(timeUs, LONG_MAX)
                                else Range(old(pendingRange).value.first, timeUs))
        && closedRanges == old(closedRanges) && closedDeltas == old(closedDeltas)
      ensures !render ==> pendingRange == None
      ensures !render && Finite(old(pendingRange)) ==>
        (closedRanges, closedDeltas) == Close(old(closedRanges), old(closedDeltas), old(pendingRange).value)
      ensures !render && !Finite(old(pendingRange)) ==>
        closedRanges == old(closedRanges) && closedDeltas == old(closedDeltas)
    {
      if firstInputUs.None? {
        firstInputUs := Some(timeUs);
      }
      if render {
        if pendingRange.None? {
          pendingRange := Some(Range(timeUs, LONG_MAX));
        } else {
          pendingRange := Some(Range(pendingRange.value.first, timeUs));
        }
      } else {
        if pendingRange.Some? && pendingRange.value.last != LONG_MAX {
          var p := pendingRange.value;
          closedRanges := closedRanges + [p];
          closedDeltas := closedDeltas[Key(p) := if |closedRanges| >= 2 then p.first - closedRanges[|closedRanges| - 2].last else 0];
        }
        pendingRange := None;
      }
    }

    /**
     * `output`: the first output time is kept once set; the output time is
     * mapped into the input scale and shifted as `Shift` says. With no input
     * seen yet, the `!!` on the first input time throws.
     */
    method Output(timeUs: int) returns (r: Result<Option<int>>)
      requires Valid()
      modifies this
      ensures Valid()
      ensures firstOutputUs == (if old(firstOutputUs).None? then Some(timeUs) else old(firstOutputUs))
      ensures closedRanges == old(closedRanges) && closedDeltas == old(closedDeltas)
      ensures pendingRange == old(pendingRange) && firstInputUs == old(firstInputUs)
      ensures r.Failure? <==> firstInputUs.None?
      ensures r.Success? ==>
        r.value == Shift(closedRanges, closedDeltas, pendingRange,
                         firstInputUs.value + (timeUs - firstOutputUs.value), timeUs)
    {
      if firstOutputUs.None? {
        firstOutputUs := Some(timeUs);
      }
      if firstInputUs.None? {
        return Failure("NullPointerException");
      }
      var x := firstInputUs.value + (timeUs - firstOutputUs.value);
      var deltaUs := 0;
      var i := 0;
      while i < |closedRanges|
        invariant 0 <= i <= |closedRanges|
        invariant deltaUs == DeltaUpTo(closedRanges, closedDeltas, i)
        invariant forall j :: 0 <= j < i ==> !closedRanges[j].Contains(x)
      {
        deltaUs := deltaUs + closedDeltas[Key(closedRanges[i])];
        if closedRanges[i].Contains(x) {
          assert FirstContaining(closedRanges, x) == Some(i);
          return Success(Some(timeUs - deltaUs));
        }
        i := i + 1;
      }
      if pendingRange.Some? && pendingRange.value.last != LONG_MAX {
        if pendingRange.value.Contains(x) {
          if |closedRanges| > 0 {
            deltaUs := deltaUs + (pendingRange.value.first - closedRanges[|closedRanges| - 1].last);
          }
          return Success(Some(timeUs - deltaUs));
        }
      }
      return Success(None);
    }
  }
}
