/**
 * `DefaultDataSink`: the sink that hands encoded samples to an MP4 muxer.
 * The muxer can only start once it knows the output format of every track
 * that is transcoding, and encoders may produce samples before that; the
 * sink copies those samples into one 64 KiB buffer, remembers their sizes,
 * times and flags, and hands them over in order, at their cumulative offsets
 * in that buffer, as soon as the muxer starts.
 */
module MuxingSink {
  import opened Common
  import opened Buffers
  import opened EosWrappers

  /** Room for samples written before the muxer starts. */
  const BUFFER_SIZE: int := 64 * 1024

  /** Android's `MediaFormat.MIMETYPE_VIDEO_AVC` and `MIMETYPE_AUDIO_AAC`. */
  const MIMETYPE_VIDEO_AVC: string := "video/avc"
  const MIMETYPE_AUDIO_AAC: string := "audio/mp4a-latm"

  /** A sample written before the muxer started: its bytes are in the queue buffer. */
  datatype QueuedSample = QueuedSample(t: TrackType, size: int, timeUs: int, flags: bv32)

  /** A sample as the muxer receives it: its track index and its bytes. */
  datatype Sample = Sample(track: int, bytes: seq<int>, timeUs: int, flags: bv32)

  /**
   * `InvalidOutputFormatException`: a compressed video track must be AVC
   * and a compressed audio track AAC.
   */
  function CheckOutputFormat(t: TrackType, format: Format): (r: Result<()>)
    ensures r.Success? <==> format.mime == (if t == Video then MIMETYPE_VIDEO_AVC else MIMETYPE_AUDIO_AAC)
  {
    match t
    case Video =>
      if format.mime == MIMETYPE_VIDEO_AVC then Success(())
      else Failure("Video codecs other than AVC is not supported, actual mime type: " + format.mime)
    case Audio =>
      if format.mime == MIMETYPE_AUDIO_AAC then Success(())
      else Failure("Audio codecs other than AAC is not supported, actual mime type: " + format.mime)
  }

  /** The bytes of the first `k` samples are a prefix of the bytes of all of them. */
  lemma {:induction false} FlattenPrefix(p: seq<seq<int>>, k: nat)
    requires k <= |p|
    ensures |Flatten(p[..k])| <= |Flatten(p)|
    ensures Flatten(p)[..|Flatten(p[..k])|] == Flatten(p[..k])
  {
    if k < |p| {
      var q := p[..|p| - 1];
      assert q[..k] == p[..k];
      FlattenPrefix(q, k);
      assert Flatten(p) == Flatten(q) + p[|p| - 1];
    } else {
      assert p[..k] == p;
    }
  }

  /**
   * Sample `k`'s bytes sit in the queue buffer at the offset that is the sum
   * of the sizes before it: the offset `drainQueue` gives it.
   */
  lemma {:induction false} QueuedBytesAt(p: seq<seq<int>>, k: nat)
    requires k < |p|
    ensures |Flatten(p[..k])| + |p[k]| <= |Flatten(p)|
    ensures Flatten(p)[|Flatten(p[..k])|..|Flatten(p[..k])| + |p[k]|] == p[k]
    ensures |Flatten(p[..k + 1])| == |Flatten(p[..k])| + |p[k]|
  {
    FlattenPrefix(p, k + 1);
    assert p[..k + 1] == p[..k] + [p[k]];
    FlattenSnoc(p[..k], p[k]);
  }

  /** The number of leading samples whose track has a muxer index. */
  function FirstUnindexed(queue: seq<QueuedSample>, index: map<TrackType, int>): (k: nat)
    ensures k <= |queue|
    ensures forall i :: 0 <= i < k ==> queue[i].t in index
    ensures k < |queue| ==> queue[k].t !in index
  {
    if |queue| == 0 then 0
    else if queue[0].t !in index then 0
    else 1 + FirstUnindexed(queue[1..], index)
  }

  /** The first unindexed sample is the one after a run of indexed ones. */
  lemma FirstUnindexedIs(queue: seq<QueuedSample>, index: map<TrackType, int>, k: nat)
    requires k <= |queue| && forall i :: 0 <= i < k ==> queue[i].t in index
    requires k < |queue| ==> queue[k].t !in index
    ensures FirstUnindexed(queue, index) == k
  {
  }

  /** The muxer writes of the first `n` queued samples, each with its own bytes. */
  function Writes(queue: seq<QueuedSample>, pending: seq<seq<int>>, index: map<TrackType, int>, n: nat): (r: seq<Sample>)
    requires n <= |queue| == |pending|
    requires forall i :: 0 <= i < n ==> queue[i].t in index
    ensures |r| == n
    ensures forall i :: 0 <= i < n ==> r[i] == Sample(index[queue[i].t], pending[i], queue[i].timeUs, queue[i].flags)
  {
    if n == 0 then []
    else Writes(queue, pending, index, n - 1) + [Sample(index[queue[n - 1].t], pending[n - 1], queue[n - 1].timeUs, queue[n - 1].flags)]
  }

  /** One more write appends the next queued sample. */
  lemma WritesStep(queue: seq<QueuedSample>, pending: seq<seq<int>>, index: map<TrackType, int>, k: nat)
    requires k < |queue| == |pending|
    requires forall i :: 0 <= i <= k ==> queue[i].t in index
    ensures Writes(queue, pending, index, k + 1)
      == Writes(queue, pending, index, k) + [Sample(index[queue[k].t], pending[k], queue[k].timeUs, queue[k].flags)]
  {
  }

  /** The formats a start adds: video first, then audio, each only if transcoding. */
  function StartFormats(status: map<TrackType, TrackStatus>, lastFormat: map<TrackType, Format>): seq<Format>
    requires Video in status && Audio in status
    requires status[Video].IsTranscoding() ==> Video in lastFormat
    requires status[Audio].IsTranscoding() ==> Audio in lastFormat
  {
    (if status[Video].IsTranscoding() then [lastFormat[Video]] else [])
    + (if status[Audio].IsTranscoding() then [lastFormat[Audio]] else [])
  }

  /** The muxer indices a start assigns, counting from the first track added. */
  function StartIndices(status: map<TrackType, TrackStatus>): map<TrackType, int>
    requires Video in status && Audio in status
  {
    var video: map<TrackType, int> := if status[Video].IsTranscoding() then map[Video := 0] else map[];
    var audioIndex := if status[Video].IsTranscoding() then 1 else 0;
    if status[Audio].IsTranscoding() then video[Audio := audioIndex] else video
  }

  /**
   * A start adds exactly the transcoding tracks, video before audio, and
   * each track's index names the `addTrack` of that track's format.
   */
  lemma StartIndicesNameFormats(status: map<TrackType, TrackStatus>, lastFormat: map<TrackType, Format>)
    requires Video in status && Audio in status
    requires status[Video].IsTranscoding() ==> Video in lastFormat
    requires status[Audio].IsTranscoding() ==> Audio in lastFormat
    ensures Video in StartIndices(status) <==> status[Video].IsTranscoding()
    ensures Audio in StartIndices(status) <==> status[Audio].IsTranscoding()
    ensures forall t :: t in StartIndices(status) ==>
      0 <= StartIndices(status)[t] < |StartFormats(status, lastFormat)|
      && StartFormats(status, lastFormat)[StartIndices(status)[t]] == lastFormat[t]
    ensures Video in StartIndices(status) && Audio in StartIndices(status) ==>
      StartIndices(status)[Video] < StartIndices(status)[Audio]
  {
  }

  /** `MediaMuxer`, recording what it is asked to do. */
  class Muxer {
    /** The formats added, in order: a track's index is its place here. */
    var tracks: seq<Format>
    /** How many times `start` was called. */
    var starts: nat
    /** The samples written, in order. */
    var samples: seq<Sample>

    constructor()
      ensures tracks == [] && starts == 0 && samples == []
    {
      tracks := [];
      starts := 0;
      samples := [];
    }

    /** `addTrack`: the index is the number of tracks added before. */
    method AddTrack(format: Format) returns (index: int)
      modifies this
      ensures index == |old(tracks)| && tracks == old(tracks) + [format]
      ensures starts == old(starts) && samples == old(samples)
    {
      index := |tracks|;
      tracks := tracks + [format];
    }

    method Start()
      modifies this
      ensures starts == old(starts) + 1 && tracks == old(tracks) && samples == old(samples)
    {
      starts := starts + 1;
    }

    /** `writeSampleData`: the muxer reads `size` bytes at `offset`, whatever the buffer's position. */
    method WriteSampleData(track: int, buffer: Buffer, info: BufferInfo)
      requires 0 <= info.offset && 0 <= info.size && info.offset + info.size <= buffer.Capacity()
      modifies this
      ensures samples == old(samples) + [Sample(track, buffer.data[info.offset..info.offset + info.size], info.presentationTimeUs, info.flags)]
      ensures tracks == old(tracks) && starts == old(starts)
    {
      samples := samples + [Sample(track, buffer.data[info.offset..info.offset + info.size], info.presentationTimeUs, info.flags)];
    }
  }

  /**
   * The copy in `enqueue`: bounds `src` to the sample (`limit`, then
   * `position`) and puts it into `q` unless it does not fit.
   */
  method CopySample(q: Buffer, src: Buffer, offset: int, size: int) returns (fits: bool)
    requires q.Valid() && src.Valid() && q != src && q.data != src.data
    requires 0 <= offset && 0 <= size && offset + size <= src.Capacity()
    modifies q, q.data, src
    ensures q.Valid() && src.Valid() && q.limit == old(q.limit) && src.limit == offset + size
    ensures unchanged(src.data)
    ensures fits <==> size <= old(q.limit - q.position)
    ensures fits ==>
      && q.data[..q.position] == old(q.data[..q.position]) + old(src.data[offset..offset + size])
      && src.position == offset + size
    ensures !fits ==> unchanged(q) && unchanged(q.data) && src.position == offset
  {
    src.SetLimit(offset + size);
    src.SetPosition(offset);
    if src.Remaining() > q.Remaining() {
      return false;
    }
    ghost var before := q.data[..q.position];
    q.PutAll(src);
    assert q.data[..q.position] == before + old(src.data[offset..offset + size]);
    fits := true;
  }

  class DefaultDataSink {
    const muxer: Muxer
    var muxerStarted: bool
    var queue: seq<QueuedSample>
    /** Null until the first sample is queued, and again once the queue is drained. */
    var queueBuffer: Buffer?
    var status: map<TrackType, TrackStatus>
    var lastFormat: map<TrackType, Format>
    var muxerIndex: map<TrackType, int>
    /** The bytes of each queued sample, as the caller's buffer held them. */
    ghost var pending: seq<seq<int>>

    function QueueFrame(): set<object>
      reads this
    {
      if queueBuffer != null then {queueBuffer, queueBuffer.data} else {}
    }

    /** Before the muxer starts, the queue buffer holds the queued samples' bytes end to end. */
    ghost predicate Buffered()
      reads this, QueueFrame()
    {
      && |pending| == |queue|
      && (queue != [] ==> queueBuffer != null)
      && (queueBuffer != null ==>
            && queueBuffer.Valid() && queueBuffer.Capacity() == BUFFER_SIZE && queueBuffer.limit == BUFFER_SIZE
            && queueBuffer.data[..queueBuffer.position] == Flatten(pending))
    }

    /**
     * The muxer is started once at most, and nothing reaches it before; every
     * index the sink writes to names a track that was added.
     */
    ghost predicate Valid()
      reads this, muxer, QueueFrame()
    {
      && |pending| == |queue|
      && (forall i :: 0 <= i < |queue| ==> queue[i].size == |pending[i]|)
      && muxer.starts == (if muxerStarted then 1 else 0)
      && (forall t :: t in muxerIndex ==> 0 <= muxerIndex[t] < |muxer.tracks|)
      && (!muxerStarted ==> muxer.tracks == [] && muxer.samples == [] && muxerIndex == map[] && Buffered())
    }

    /** A ready sink: both statuses are known and every transcoding track has a format. */
    ghost predicate Ready()
      reads this
    {
      && Video in status && Audio in status
      && (status[Video].IsTranscoding() ==> Video in lastFormat)
      && (status[Audio].IsTranscoding() ==> Audio in lastFormat)
    }

    constructor()
      ensures Valid() && fresh(muxer) && !muxerStarted && queue == [] && queueBuffer == null
      ensures status == map[] && lastFormat == map[] && muxerIndex == map[]
    {
      muxer := new Muxer();
      muxerStarted := false;
      queue := [];
      queueBuffer := null;
      status := map[];
      lastFormat := map[];
      muxerIndex := map[];
      pending := [];
    }

    method SetTrackStatus(t: TrackType, s: TrackStatus)
      requires Valid()
      modifies this
      ensures Valid() && status == old(status)[t := s]
      ensures muxerStarted == old(muxerStarted) && queue == old(queue) && queueBuffer == old(queueBuffer)
      ensures lastFormat == old(lastFormat) && muxerIndex == old(muxerIndex) && pending == old(pending)
    {
      status := status[t := s];
    }

    /**
     * `writeTrack`: once the muxer has started the sample goes straight to
     * it (unboxing the missing index of a track that has none throws);
     * before, it is queued.
     */
    method WriteTrack(t: TrackType, buffer: Buffer, info: BufferInfo) returns (r: Result<()>)
      requires Valid() && buffer.Valid()
      requires 0 <= info.offset && 0 <= info.size && info.offset + info.size <= buffer.Capacity()
      requires !muxerStarted && queueBuffer != null ==> buffer != queueBuffer && buffer.data != queueBuffer.data
      modifies this, muxer, buffer, QueueFrame()
      ensures Valid()
      ensures old(muxerStarted) ==>
        && unchanged(this) && unchanged(buffer) && unchanged(buffer.data)
        && (queueBuffer != null ==> unchanged(queueBuffer) && unchanged(queueBuffer.data))
        && (r.Success? <==> t in muxerIndex)
        && (r.Failure? ==> unchanged(muxer))
        && (r.Success? ==>
              && muxer.tracks == old(muxer.tracks) && muxer.starts == old(muxer.starts)
              && muxer.samples == old(muxer.samples) + [Sample(muxerIndex[t], buffer.data[info.offset..info.offset + info.size], info.presentationTimeUs, info.flags)])
      ensures !old(muxerStarted) ==> EnqueuedFrom(t, buffer, info, r)
    {
      if muxerStarted {
        if t !in muxerIndex {
          return Failure("NullPointerException");
        }
        muxer.WriteSampleData(muxerIndex[t], buffer, info);
        r := Success(());
      } else {
        r := Enqueue(t, buffer, info);
      }
    }

    /** What `enqueue` leaves behind; see `Enqueue`. */
    twostate predicate EnqueuedFrom(t: TrackType, buffer: Buffer, info: BufferInfo, new r: Result<()>)
      requires old(buffer.Valid()) && 0 <= info.offset && 0 <= info.size && info.offset + info.size <= buffer.Capacity()
      reads this, muxer, buffer, QueueFrame()
    {
      && !muxerStarted && muxer.tracks == [] && muxer.samples == [] && queueBuffer != null
      && status == old(status) && lastFormat == old(lastFormat) && muxerIndex == old(muxerIndex)
      && (old(queueBuffer) != null ==> queueBuffer == old(queueBuffer))
      && buffer.limit == info.offset + info.size
      && (r.Success? <==> info.size <= (if old(queueBuffer) == null then BUFFER_SIZE else old(queueBuffer.limit - queueBuffer.position)))
      && (r.Success? ==>
            && queue == old(queue) + [QueuedSample(t, info.size, info.presentationTimeUs, info.flags)]
            && pending == old(pending) + [old(buffer.data[info.offset..info.offset + info.size])]
            && buffer.position == info.offset + info.size)
      && (r.Failure? ==> queue == old(queue) && pending == old(pending) && buffer.position == info.offset)
    }

    /** The first step of `enqueue`: the 64 KiB queue buffer, allocated on first use. */
    method AllocateQueueBuffer()
      requires Valid() && !muxerStarted
      modifies this
      ensures Valid() && queueBuffer != null
      ensures old(queueBuffer) == null ==> fresh(queueBuffer) && fresh(queueBuffer.data) && queueBuffer.position == 0
      ensures old(queueBuffer) != null ==> queueBuffer == old(queueBuffer)
      ensures muxerStarted == old(muxerStarted) && queue == old(queue) && pending == old(pending)
      ensures status == old(status) && lastFormat == old(lastFormat) && muxerIndex == old(muxerIndex)
    {
      if queueBuffer == null {
        queueBuffer := new Buffer.Allocate(BUFFER_SIZE);
      }
    }

    /**
     * `enqueue`: copies the sample's bytes after those already queued (the
     * 64 KiB buffer is allocated on first use) and records the sample; a
     * sample that does not fit throws `BufferOverflowException`.
     */
    method Enqueue(t: TrackType, buffer: Buffer, info: BufferInfo) returns (r: Result<()>)
      requires Valid() && !muxerStarted && buffer.Valid()
      requires 0 <= info.offset && 0 <= info.size && info.offset + info.size <= buffer.Capacity()
      requires queueBuffer != null ==> buffer != queueBuffer && buffer.data != queueBuffer.data
      modifies this, buffer, QueueFrame()
      ensures Valid() && EnqueuedFrom(t, buffer, info, r)
      ensures unchanged(buffer.data) && unchanged(muxer)
    {
      AllocateQueueBuffer();
      var fits := CopySample(queueBuffer, buffer, info.offset, info.size);
      if !fits {
        return Failure("BufferOverflowException");
      }
      ghost var bytes := old(buffer.data[info.offset..info.offset + info.size]);
      FlattenSnoc(pending, bytes);
      queue := queue + [QueuedSample(t, info.size, info.presentationTimeUs, info.flags)];
      pending := pending + [bytes];
      r := Success(());
    }

    /**
     * `drainQueue`: hands every queued sample to the muxer in order, with the
     * bytes it was queued with, then forgets the queue and its buffer. A
     * sample of a track without a muxer index throws and leaves the queue.
     */
    method DrainQueue() returns (r: Result<()>)
      requires Valid() && muxerStarted && Buffered()
      modifies this, muxer, QueueFrame()
      ensures Valid() && muxerStarted
      ensures status == old(status) && lastFormat == old(lastFormat) && muxerIndex == old(muxerIndex)
      ensures old(queue) == [] ==> r == Success(()) && unchanged(this) && unchanged(muxer)
      ensures var n := FirstUnindexed(old(queue), muxerIndex);
        && muxer.tracks == old(muxer.tracks) && muxer.starts == old(muxer.starts)
        && muxer.samples == old(muxer.samples) + Writes(old(queue), old(pending), muxerIndex, n)
        && (r.Success? <==> n == |old(queue)|)
        && (r.Success? && old(queue) != [] ==> queue == [] && pending == [] && queueBuffer == null)
        && (r.Failure? ==> queue == old(queue) && pending == old(pending))
    {
      if |queue| == 0 {
        return Success(());
      }
      var q := queueBuffer;
      q.Flip();
      r := WriteQueued(q);
      if r.Success? {
        queue := [];
        pending := [];
        queueBuffer := null;
      }
    }

    /** The loop of `drainQueue`: each sample at the sum of the sizes before it. */
    method WriteQueued(q: Buffer) returns (r: Result<()>)
      requires Valid() && muxerStarted && queueBuffer == q
      requires q.Valid() && q.data[..q.limit] == Flatten(pending)
      modifies this, muxer, QueueFrame()
      ensures Valid() && unchanged(this) && unchanged(q) && unchanged(q.data)
      ensures var n := FirstUnindexed(queue, muxerIndex);
        && muxer.tracks == old(muxer.tracks) && muxer.starts == old(muxer.starts)
        && muxer.samples == old(muxer.samples) + Writes(queue, pending, muxerIndex, n)
        && (r.Success? <==> n == |queue|)
    {
      var offset := 0;
      for k := 0 to |queue|
        invariant Valid() && unchanged(this) && unchanged(q) && unchanged(q.data)
        invariant forall i :: 0 <= i < k ==> queue[i].t in muxerIndex
        invariant offset == |Flatten(pending[..k])|
        invariant muxer.tracks == old(muxer.tracks) && muxer.starts == old(muxer.starts)
        invariant muxer.samples == old(muxer.samples) + Writes(queue, pending, muxerIndex, k)
      {
        var w := WriteQueuedSample(q, k, offset);
        if w.Failure? {
          FirstUnindexedIs(queue, muxerIndex, k);
          return w;
        }
        WritesStep(queue, pending, muxerIndex, k);
        offset := offset + queue[k].size;
      }
      FirstUnindexedIs(queue, muxerIndex, |queue|);
      r := Success(());
    }

    /** One turn of that loop: sample `k` at `offset`, through `writeTrack`. */
    method WriteQueuedSample(q: Buffer, k: nat, offset: int) returns (r: Result<()>)
      requires Valid() && muxerStarted && queueBuffer == q
      requires q.Valid() && q.data[..q.limit] == Flatten(pending)
      requires k < |queue| && offset == |Flatten(pending[..k])|
      modifies this, muxer, QueueFrame()
      ensures Valid() && unchanged(this) && unchanged(q) && unchanged(q.data)
      ensures offset + queue[k].size == |Flatten(pending[..k + 1])|
      ensures r.Success? <==> queue[k].t in muxerIndex
      ensures r.Failure? ==> unchanged(muxer)
      ensures r.Success? ==>
        && muxer.tracks == old(muxer.tracks) && muxer.starts == old(muxer.starts)
        && muxer.samples == old(muxer.samples) + [Sample(muxerIndex[queue[k].t], pending[k], queue[k].timeUs, queue[k].flags)]
    {
      QueuedBytesAt(pending, k);
      ghost var all := q.data[..q.limit];
      ghost var end := offset + queue[k].size;
      assert queue[k].size == |pending[k]|;
      assert all[offset..end] == pending[k];
      assert end <= q.limit <= q.data.Length;
      assert forall i :: 0 <= i < end - offset ==> q.data[offset..end][i] == q.data[offset + i] == all[offset..end][i];
      var info := BufferInfo(offset, queue[k].size, queue[k].timeUs, queue[k].flags);
      r := WriteTrack(queue[k].t, q, info);
      assert q.data[offset..offset + queue[k].size] == pending[k];
    }

    /**
     * `startIfNeeded`: once both statuses are known and every transcoding
     * track has a format, adds the transcoding tracks (video first), starts
     * the muxer and drains the queue. It does nothing once started; while a
     * status is missing, `require` gives null and `isTranscoding()` throws.
     */
    method StartIfNeeded() returns (r: Result<()>)
      requires Valid()
      modifies this, muxer, QueueFrame()
      ensures Valid()
      ensures status == old(status) && lastFormat == old(lastFormat)
      ensures old(muxerStarted) ==> r == Success(()) && unchanged(this) && unchanged(muxer)
      ensures !old(muxerStarted) && (Video !in status || Audio !in status) ==> r.Failure? && unchanged(this) && unchanged(muxer)
      ensures !old(muxerStarted) && Video in status && Audio in status && !Ready() ==>
        r == Success(()) && unchanged(this) && unchanged(muxer)
      ensures !old(muxerStarted) && Ready() ==> StartedFrom(r)
    {
      if muxerStarted {
        return Success(());
      }
      if Video !in status || Audio !in status {
        return Failure("NullPointerException");
      }
      var isTranscodingVideo := status[Video].IsTranscoding();
      var isTranscodingAudio := status[Audio].IsTranscoding();
      var isVideoReady := Video in lastFormat || !isTranscodingVideo;
      var isAudioReady := Audio in lastFormat || !isTranscodingAudio;
      if !isVideoReady || !isAudioReady {
        return Success(());
      }
      AddTracks();
      StartIndicesNameFormats(status, lastFormat);
      muxer.Start();
      muxerStarted := true;
      r := DrainQueue();
    }

    /** The `addTrack` calls of `startIfNeeded`: video first, each only if transcoding. */
    method AddTracks()
      requires !muxerStarted && muxer.tracks == [] && muxerIndex == map[] && Ready()
      modifies this, muxer
      ensures status == old(status) && lastFormat == old(lastFormat) && Ready()
      ensures !muxerStarted && queue == old(queue) && pending == old(pending) && queueBuffer == old(queueBuffer)
      ensures muxer.tracks == StartFormats(status, lastFormat) && muxerIndex == StartIndices(status)
      ensures muxer.starts == old(muxer.starts) && muxer.samples == old(muxer.samples)
    {
      if status[Video].IsTranscoding() {
        var videoIndex := muxer.AddTrack(lastFormat[Video]);
        muxerIndex := muxerIndex[Video := videoIndex];
      }
      if status[Audio].IsTranscoding() {
        var audioIndex := muxer.AddTrack(lastFormat[Audio]);
        muxerIndex := muxerIndex[Audio := audioIndex];
      }
    }

    /** What a start leaves behind; see `StartIfNeeded`. */
    twostate predicate StartedFrom(new r: Result<()>)
      requires Ready() && old(|pending| == |queue|)
      reads this, muxer
    {
      && muxerStarted && muxerIndex == StartIndices(status)
      && var n := FirstUnindexed(old(queue), muxerIndex);
      && muxer.tracks == StartFormats(status, lastFormat) && muxer.starts == 1
      && muxer.samples == Writes(old(queue), old(pending), muxerIndex, n)
      && (r.Success? <==> n == |old(queue)|)
      && (r.Success? ==> queue == [] && (old(queue) != [] ==> queueBuffer == null))
      && (r.Failure? ==> queue == old(queue))
    }

    /**
     * `setTrackFormat`: a compressed track's format is checked; the format is
     * stored and the muxer started if that made the sink ready. A track
     * without a status is not validated (`require` is a plain map lookup, and
     * null is not `COMPRESSING`); its format is stored and `startIfNeeded`
     * then throws on the missing status.
     */
    method SetTrackFormat(t: TrackType, format: Format) returns (r: Result<()>)
      requires Valid()
      modifies this, muxer, QueueFrame()
      ensures Valid() && status == old(status)
      ensures t in status && status[t] == Compressing && CheckOutputFormat(t, format).Failure? ==>
        r == CheckOutputFormat(t, format) && unchanged(this) && unchanged(muxer)
      ensures !(t in status && status[t] == Compressing && CheckOutputFormat(t, format).Failure?) ==>
        && lastFormat == old(lastFormat)[t := format]
        && (old(muxerStarted) ==> r == Success(()) && unchanged(muxer) && queue == old(queue))
        && (!old(muxerStarted) && (Video !in status || Audio !in status) ==> r.Failure? && !muxerStarted)
        && (!old(muxerStarted) && Video in status && Audio in status && !Ready() ==>
              r == Success(()) && !muxerStarted && queue == old(queue))
        && (!old(muxerStarted) && Ready() ==> StartedFrom(r))
    {
      if t in status && status[t] == Compressing {
        var check := CheckOutputFormat(t, format);
        if check.Failure? {
          return check;
        }
      }
      lastFormat := lastFormat[t := format];
      r := StartIfNeeded();
    }
  }
}
