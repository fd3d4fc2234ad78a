/**
 * `BlankAudioDataSource`: a source with a single audio track of silence
 * lasting `durationUs`, delivered as raw 16-bit stereo PCM at 44100 Hz, at
 * most one period of 2048 stereo samples per read.
 */
module BlankAudio {
  import opened Common
  import opened Buffers
  import opened Conversions

  const CHANNEL_COUNT: int := 2
  const SAMPLE_RATE: int := 44100
  /** `samplesToBytes(2048, CHANNEL_COUNT)`: the most a read delivers. */
  const PERIOD_SIZE: int := 2048 * (BYTES_PER_SAMPLE_PER_CHANNEL * CHANNEL_COUNT)

  /** The raw-audio mime type (Android's `MediaFormat.MIMETYPE_AUDIO_RAW`). */
  const MIMETYPE_AUDIO_RAW: string := "audio/raw"

  /** The format built by `initialize`. */
  datatype AudioFormat = AudioFormat(mime: string, bitRate: int, channelCount: int, maxInputSize: int, sampleRate: int)

  function SilenceFormat(): AudioFormat {
    AudioFormat(MIMETYPE_AUDIO_RAW, BitRate(SAMPLE_RATE, CHANNEL_COUNT), CHANNEL_COUNT, PERIOD_SIZE, SAMPLE_RATE)
  }

  /** A period is 8192 bytes: 2048 stereo samples. */
  lemma PeriodSize()
    ensures PERIOD_SIZE == SamplesToBytes(2048, CHANNEL_COUNT) == 8192
  {
  }

  /** The source time a read of `bytes` bytes covers. */
  function Advance(positionUs: int, bytes: int): int {
    positionUs + BytesToUs(bytes, SAMPLE_RATE, CHANNEL_COUNT)
  }

  /** A full period covers 46439 microseconds (8192 bytes at 176400 bytes per second, truncated). */
  lemma FullPeriodSpan()
    ensures Advance(0, PERIOD_SIZE) == 46439
  {
  }

  /** Reads never move the position back, so a drained source stays drained. */
  lemma {:induction false} DrainedStaysDrained(durationUs: int, positionUs: int, bytes: int)
    requires 0 <= bytes
    ensures Advance(positionUs, bytes) >= positionUs
    ensures positionUs >= durationUs ==> Advance(positionUs, bytes) >= durationUs
  {
    BytesToUsBounds(bytes, SAMPLE_RATE, CHANNEL_COUNT);
  }

  /**
   * Reading full periods from position 0, the source is drained after `k`
   * reads exactly when `k` periods cover the duration.
   */
  lemma {:induction false} FullReadsUntilDrained(durationUs: int, k: nat)
    ensures PositionAfterFullReads(k) == k * 46439
    ensures PositionAfterFullReads(k) >= durationUs <==> k * 46439 >= durationUs
  {
    if k > 0 {
      FullReadsUntilDrained(durationUs, k - 1);
      FullPeriodSpan();
    }
  }

  /** The position after `k` reads of a full period from position 0. */
  function PositionAfterFullReads(k: nat): int {
    if k == 0 then 0 else Advance(PositionAfterFullReads(k - 1), PERIOD_SIZE)
  }

  /** `DataSource.Chunk` as this source fills it: a byte buffer plus flags and a time. */
  class ReadChunk {
    var buffer: Buffer
    var keyframe: bool
    var timeUs: int
    var render: bool

    constructor(buffer: Buffer)
      ensures this.buffer == buffer && !keyframe && !render && timeUs == 0
    {
      this.buffer := buffer;
      keyframe := false;
      timeUs := 0;
      render := false;
    }
  }

  class BlankAudioDataSource {
    const durationUs: int
    /** The period buffer, null until `initialize`; it is never written, so it holds zeros. */
    var byteBuffer: Buffer?
    var audioFormat: Option<AudioFormat>
    var positionUs: int
    var initialized: bool

    ghost predicate Valid()
      reads this, byteBuffer, if byteBuffer != null then {byteBuffer.data} else {}
    {
      byteBuffer != null ==>
        && byteBuffer.Valid() && byteBuffer.Capacity() == PERIOD_SIZE
        && forall i :: 0 <= i < PERIOD_SIZE ==> byteBuffer.data[i] == 0
    }

    constructor(durationUs: int)
      ensures Valid() && this.durationUs == durationUs
      ensures byteBuffer == null && audioFormat == None && positionUs == 0 && !initialized
    {
      this.durationUs := durationUs;
      byteBuffer := null;
      audioFormat := None;
      positionUs := 0;
      initialized := false;
    }

    /** `initialize`: a fresh zeroed period buffer and the raw-audio format. */
    method Initialize()
      modifies this
      ensures Valid() && initialized && audioFormat == Some(SilenceFormat())
      ensures byteBuffer != null && fresh(byteBuffer)
      ensures positionUs == old(positionUs)
    {
      byteBuffer := new Buffer.Allocate(PERIOD_SIZE);
      audioFormat := Some(SilenceFormat());
      initialized := true;
    }

    /** `deinitialize`: back to position 0; the buffer and the format are kept. */
    method Deinitialize()
      modifies this
      ensures !initialized && positionUs == 0
      ensures byteBuffer == old(byteBuffer) && audioFormat == old(audioFormat)
    {
      positionUs := 0;
      initialized := false;
    }

    /** `isInitialized`. */
    function IsInitialized(): (r: bool)
      reads this
      ensures r == initialized
    {
      initialized
    }

    /** `seekTo`: the position becomes the requested one, which is returned. */
    method SeekTo(desiredPositionUs: int) returns (r: int)
      modifies this
      ensures positionUs == desiredPositionUs && r == desiredPositionUs
      ensures byteBuffer == old(byteBuffer) && audioFormat == old(audioFormat) && initialized == old(initialized)
    {
      positionUs := desiredPositionUs;
      r := desiredPositionUs;
    }

    /** `getTrackFormat`: only the audio track has one, once initialized. */
    function GetTrackFormat(t: TrackType): (r: Option<AudioFormat>)
      reads this
      ensures t == Video ==> r == None
      ensures t == Audio ==> r == audioFormat
    {
      if t == Audio then audioFormat else None
    }

    /** `canReadTrack`: only audio. */
    predicate CanReadTrack(t: TrackType)
      ensures CanReadTrack(t) <==> t == Audio
    {
      t == Audio
    }

    /** `getReadUs`. */
    function ReadUs(): (r: int)
      reads this
      ensures r == positionUs
    {
      positionUs
    }

    /** `isDrained`: the position has reached the duration. */
    predicate IsDrained()
      reads this
      ensures IsDrained() <==> positionUs >= durationUs
    {
      positionUs >= durationUs
    }

    /**
     * `readTrack`: writes `min(remaining, PERIOD_SIZE)` zero bytes at the
     * chunk buffer's position and bounds the buffer to them; the chunk is a
     * rendered key frame at the current position, which then advances by the
     * bytes' duration. Before `initialize` the period buffer is null and the
     * read throws.
     */
    method ReadTrack(chunk: ReadChunk) returns (r: Result<()>)
      requires Valid() && chunk.buffer.Valid()
      requires byteBuffer != null ==> chunk.buffer != byteBuffer && chunk.buffer.data != byteBuffer.data
      modifies this, byteBuffer, chunk, chunk.buffer, chunk.buffer.data
      ensures Valid() && chunk.buffer == old(chunk.buffer) && chunk.buffer.Valid()
      ensures old(byteBuffer) == null <==> r.Failure?
      ensures r.Failure? ==> unchanged(this) && unchanged(chunk) && unchanged(chunk.buffer) && unchanged(chunk.buffer.data)
      ensures r.Success? ==>
        var position := old(chunk.buffer.position);
        var bytes := Min(old(chunk.buffer.Remaining()), PERIOD_SIZE);
        && chunk.buffer.position == position && chunk.buffer.limit == position + bytes
        && chunk.buffer.Content() == seq(bytes, _ => 0)
        && chunk.buffer.data[..position] == old(chunk.buffer.data[..position])
        && chunk.buffer.data[position + bytes..] == old(chunk.buffer.data[position + bytes..])
        && chunk.keyframe && chunk.render && chunk.timeUs == old(positionUs)
        && positionUs == Advance(old(positionUs), bytes)
        && byteBuffer == old(byteBuffer) && audioFormat == old(audioFormat) && initialized == old(initialized)
    {
      if byteBuffer == null {
        return Failure("NullPointerException");
      }
      var target := chunk.buffer;
      var position := target.position;
      var bytes := Min(target.Remaining(), PERIOD_SIZE);
      byteBuffer.Clear();
      byteBuffer.SetLimit(bytes);
      assert byteBuffer.Content() == seq(bytes, _ => 0);
      target.PutAll(byteBuffer);
      target.SetPosition(position);
      target.SetLimit(position + bytes);
      chunk.keyframe := true;
      chunk.timeUs := positionUs;
      chunk.render := true;
      positionUs := positionUs + BytesToUs(bytes, SAMPLE_RATE, CHANNEL_COUNT);
      r := Success(());
    }
  }
}
