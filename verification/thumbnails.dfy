/** `UniformThumbnailRequest`: `count` positions spread evenly over a duration. */
module UniformThumbnails {
  import opened Common

  datatype Request = Request(count: int)

  /** A request that passed the constructor's check. */
  type UniformThumbnailRequest = r: Request | r.count >= 2 witness Request(2)

  /** The constructor: `require(count >= 2)` throws otherwise. */
  function New(count: int): (r: Result<UniformThumbnailRequest>)
    ensures r.Success? <==> count >= 2
    ensures r.Success? ==> r.value.count == count
  {
    if count >= 2 then
      var req: UniformThumbnailRequest := Request(count);
      Success(req)
    else Failure("At least 2 thumbnails should be requested when using UniformThumbnailRequest.")
  }

  /** The step between positions: Long division truncating toward zero. */
  function StepUs(req: UniformThumbnailRequest, durationUs: int): int {
    TruncDiv(durationUs, req.count - 1)
  }

  /**
   * `locate`: appends the running position `count` times, adding the step
   * after each append; the i-th position is i steps.
   */
  method Locate(req: UniformThumbnailRequest, durationUs: int) returns (list: seq<int>)
    ensures |list| == req.count
    ensures forall i :: 0 <= i < |list| ==> list[i] == i * StepUs(req, durationUs)
  {
    list := [];
    var positionUs := 0;
    var stepUs := TruncDiv(durationUs, req.count - 1);
    var k := 0;
    while k < req.count
      invariant 0 <= k <= req.count && |list| == k && positionUs == k * stepUs
      invariant forall i :: 0 <= i < k ==> list[i] == i * stepUs
    {
      list := list + [positionUs];
      positionUs := positionUs + stepUs;
      k := k + 1;
    }
  }

  /** Multiplying by a non-negative step keeps the order of the indices. */
  lemma StepsOrdered(i: int, j: int, step: int)
    requires 0 <= i <= j && step >= 0
    ensures 0 <= i * step <= j * step
  {
  }

  /** Euclidean division of a non-negative number by a positive one is a non-negative floor. */
  lemma DivFloor(d: int, n: int)
    requires 0 <= d && 1 <= n
    ensures 0 <= d / n && n * (d / n) <= d
  {
  }

  /** The step fits count - 1 times into a non-negative duration. */
  lemma StepFits(req: UniformThumbnailRequest, durationUs: int)
    requires durationUs >= 0
    ensures StepUs(req, durationUs) >= 0
    ensures (req.count - 1) * StepUs(req, durationUs) <= durationUs
  {
    var n := req.count - 1;
    assert StepUs(req, durationUs) == durationUs / n;
    DivFloor(durationUs, n);
  }

  /**
   * For a non-negative duration the positions start at 0, never decrease and
   * never pass the duration.
   */
  lemma PositionsWithinDuration(req: UniformThumbnailRequest, durationUs: int, list: seq<int>)
    requires durationUs >= 0
    requires |list| == req.count
    requires forall i :: 0 <= i < |list| ==> list[i] == i * StepUs(req, durationUs)
    ensures list[0] == 0
    ensures forall i, j :: 0 <= i <= j < |list| ==> 0 <= list[i] <= list[j]
    ensures list[|list| - 1] <= durationUs
  {
    var step := StepUs(req, durationUs);
    StepFits(req, durationUs);
    forall i, j | 0 <= i <= j < |list|
      ensures 0 <= list[i] <= list[j]
    {
      StepsOrdered(i, j, step);
    }
  }
}
