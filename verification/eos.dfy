/**
 * The end-of-stream wrappers: a sink that can hide the EOS flag of written
 * samples, and two sources that change only how `isDrained` is answered.
 * `ignore()` and `force()` are callbacks whose current answer is a parameter.
 */
module EosWrappers {
  import opened Common

  /** `MediaCodec.BUFFER_FLAG_END_OF_STREAM`. */
  const BUFFER_FLAG_END_OF_STREAM: bv32 := 4

  /** `MediaCodec.BufferInfo`: what a sink receives with each sample. */
  datatype BufferInfo = BufferInfo(offset: int, size: int, presentationTimeUs: int, flags: bv32)

  /**
   * `EosIgnoringDataSink.writeTrack`: what reaches the wrapped sink (`None`
   * when the write is dropped). When `ignore` holds the EOS bit is cleared,
   * and a write left with no bytes and no flag is dropped; otherwise the
   * write is forwarded unchanged.
   */
  function SinkWrite(ignore: bool, info: BufferInfo): (r: Option<BufferInfo>)
    ensures !ignore ==> r == Some(info)
    ensures ignore ==> (r.None? <==> info.size <= 0 && info.flags & !BUFFER_FLAG_END_OF_STREAM == 0)
    ensures ignore && r.Some? ==>
      && r.value.flags & BUFFER_FLAG_END_OF_STREAM == 0
      && r.value.flags == info.flags & !BUFFER_FLAG_END_OF_STREAM
      && r.value.offset == info.offset && r.value.size == info.size
      && r.value.presentationTimeUs == info.presentationTimeUs
  {
    if ignore then
      var flags := info.flags & !BUFFER_FLAG_END_OF_STREAM;
      if info.size > 0 || flags != 0 then
        Some(BufferInfo(info.offset, info.size, info.presentationTimeUs, flags))
      else None
    else Some(info)
  }

  /** Clearing the EOS bit keeps every other flag bit. */
  lemma OtherFlagsKept(ignore: bool, info: BufferInfo, bit: bv32)
    requires bit != BUFFER_FLAG_END_OF_STREAM && bit & (bit - 1) == 0 && bit != 0
    requires SinkWrite(ignore, info).Some?
    ensures SinkWrite(ignore, info).value.flags & bit == info.flags & bit
  {
    if ignore {
      assert bit & BUFFER_FLAG_END_OF_STREAM == 0;
    }
  }

  /** `EosForcingDataSource.isDrained`: drained when forced or when the wrapped source is. */
  predicate ForcingDrained(force: bool, sourceDrained: bool) {
    force || sourceDrained
  }

  /** `EosIgnoringDataSource.isDrained`: drained only when forced and the wrapped source is. */
  predicate IgnoringDrained(force: bool, sourceDrained: bool) {
    force && sourceDrained
  }

  /**
   * The two source wrappers bracket the wrapped source: the forcing one
   * reports drained at least as often, the ignoring one at most as often,
   * and both agree with it when `force` does not decide.
   */
  lemma DrainedBrackets(force: bool, sourceDrained: bool)
    ensures IgnoringDrained(force, sourceDrained) ==> sourceDrained
    ensures sourceDrained ==> ForcingDrained(force, sourceDrained)
    ensures force ==> (IgnoringDrained(force, sourceDrained) <==> sourceDrained)
    ensures !force ==> (ForcingDrained(force, sourceDrained) <==> sourceDrained)
  {
  }
}
