/**
 * `WavFile`: the reader of RIFF/WAVE files. Opening a file checks the RIFF
 * header, scans the chunks for the format chunk and the data chunk, and
 * leaves the stream at the first data byte; frames are then read sample by
 * sample through a 4096-byte buffer.
 *
 * A file is the sequence of its bytes, each an unsigned value 0..255 (what
 * `b & 0xFF` makes of a Java byte); `FileInputStream` is a position into it.
 */
module Wav {
  import opened Common

  const BUFFER_SIZE: int := 4096

  const FMT_CHUNK_ID: int := 0x20746D66
  const DATA_CHUNK_ID: int := 0x61746164
  const RIFF_CHUNK_ID: int := 0x46464952
  const RIFF_TYPE_ID: int := 0x45564157

  predicate IsByte(x: int) {
    0 <= x < 256
  }

  predicate AllBytes(s: seq<int>) {
    forall i :: 0 <= i < |s| ==> IsByte(s[i])
  }

  /** The ASCII bytes of the tags "fmt ", "data", "RIFF" and "WAVE". */
  const FMT_TAG: seq<int> := [0x66, 0x6D, 0x74, 0x20]
  const DATA_TAG: seq<int> := [0x64, 0x61, 0x74, 0x61]
  const RIFF_TAG: seq<int> := [0x52, 0x49, 0x46, 0x46]
  const WAVE_TAG: seq<int> := [0x57, 0x41, 0x56, 0x45]

  function Pow256(n: nat): (r: nat)
    ensures r >= 1
  {
    if n == 0 then 1 else 256 * Pow256(n - 1)
  }

  function Pow2(n: nat): (r: nat)
    ensures r >= 1
  {
    if n == 0 then 1 else 2 * Pow2(n - 1)
  }

  /** The unsigned little-endian value of some bytes: the first is the least significant. */
  function LittleEndian(s: seq<int>): int {
    if |s| == 0 then 0 else s[0] + 256 * LittleEndian(s[1..])
  }

  /** The `n` little-endian bytes of `v`. */
  function ToLittleEndian(v: int, n: nat): (s: seq<int>)
    ensures |s| == n
    decreases n
  {
    if n == 0 then [] else [v % 256] + ToLittleEndian(v / 256, n - 1)
  }

  lemma {:induction false} LittleEndianRange(s: seq<int>)
    requires AllBytes(s)
    ensures 0 <= LittleEndian(s) < Pow256(|s|)
  {
    if |s| > 0 {
      LittleEndianRange(s[1..]);
    }
  }

  /** Encoding a value that fits and decoding it gives the value back. */
  lemma {:induction false} DecodeEncode(v: int, n: nat)
    requires 0 <= v < Pow256(n)
    ensures AllBytes(ToLittleEndian(v, n)) && LittleEndian(ToLittleEndian(v, n)) == v
  {
    if n > 0 {
      assert v / 256 < Pow256(n - 1);
      DecodeEncode(v / 256, n - 1);
      assert ToLittleEndian(v, n)[1..] == ToLittleEndian(v / 256, n - 1);
    }
  }

  /** Decoding some bytes and encoding the value gives the bytes back. */
  lemma {:induction false} EncodeDecode(s: seq<int>)
    requires AllBytes(s)
    ensures ToLittleEndian(LittleEndian(s), |s|) == s
  {
    if |s| > 0 {
      EncodeDecode(s[1..]);
      LittleEndianRange(s[1..]);
      var v := LittleEndian(s);
      assert v % 256 == s[0] && v / 256 == LittleEndian(s[1..]);
    }
  }

  lemma LittleEndian4(s: seq<int>)
    requires |s| == 4
    ensures LittleEndian(s) == s[0] + 0x100 * s[1] + 0x1_0000 * s[2] + 0x100_0000 * s[3]
  {
    assert s[3..][1..] == [];
    assert LittleEndian(s[3..]) == s[3];
    assert s[2..][1..] == s[3..];
    assert LittleEndian(s[2..]) == s[2] + 0x100 * s[3];
    assert s[1..][1..] == s[2..];
    assert LittleEndian(s[1..]) == s[1] + 0x100 * s[2] + 0x1_0000 * s[3];
  }

  /** Four bytes carry the id of a four-byte tag exactly when they are that tag. */
  lemma TagMatch(s: seq<int>, tag: seq<int>)
    requires |s| == 4 == |tag| && AllBytes(s) && AllBytes(tag)
    ensures LittleEndian(s) == LittleEndian(tag) <==> s == tag
  {
    EncodeDecode(s);
    EncodeDecode(tag);
  }

  /** The four ids are the ASCII tags "fmt ", "data", "RIFF" and "WAVE". */
  lemma ChunkTags(s: seq<int>)
    requires |s| == 4 && AllBytes(s)
    ensures LittleEndian(s) == FMT_CHUNK_ID <==> s == FMT_TAG
    ensures LittleEndian(s) == DATA_CHUNK_ID <==> s == DATA_TAG
    ensures LittleEndian(s) == RIFF_CHUNK_ID <==> s == RIFF_TAG
    ensures LittleEndian(s) == RIFF_TYPE_ID <==> s == WAVE_TAG
  {
    LittleEndian4(FMT_TAG);
    LittleEndian4(DATA_TAG);
    LittleEndian4(RIFF_TAG);
    LittleEndian4(WAVE_TAG);
    TagMatch(s, FMT_TAG);
    TagMatch(s, DATA_TAG);
    TagMatch(s, RIFF_TAG);
    TagMatch(s, WAVE_TAG);
  }

  /**
   * `FileInputStream.read(buf, 0, n)` at `pos`: -1 at the end of the file,
   * otherwise as many bytes as remain, at most `n`, at the front of `buf`;
   * the rest of `buf` keeps what it held.
   */
  function ReadBytes(file: seq<int>, pos: int, buf: seq<int>, n: nat): (r: (int, seq<int>))
    requires 0 <= pos && 1 <= n <= |buf|
    ensures |r.1| == |buf| && (r.0 == -1 || 1 <= r.0 <= n)
    ensures AllBytes(file) && AllBytes(buf) ==> AllBytes(r.1)
  {
    if pos >= |file| then (-1, buf)
    else
      var count := Min(n, |file| - pos);
      (count, file[pos..pos + count] + buf[count..])
  }

  /**
   * The exceptions `WavFile` throws, one constructor per message; `Message`
   * gives each one's text (the first is the `ArithmeticException` of an
   * integer division by zero, which has no message of its own).
   */
  datatype WavError =
    | DivideByZero | BlockAlignMismatch | ZeroBlockAlign | NotReading | Compressed(code: int)
    | ShortChunkHeader | PartialFrame | DataBeforeFormat | SizeMismatch(chunkSize: int, fileSize: int) | NotRiff
    | NotWave | EndOfData | ShortHeader | NoChannels | NoDataChunk | TooManyBits | TooFewBits

  /** The outcome of a `WavFile` operation that may throw. */
  type WavResult<T> = Outcome<T, WavError>

  /** The decimal digits of a natural number, most significant first, as Java prints it. */
  function Digits(n: nat): (r: string)
    ensures |r| >= 1 && forall i :: 0 <= i < |r| ==> '0' <= r[i] <= '9'
  {
    var d := ['0', '1', '2', '3', '4', '5', '6', '7', '8', '9'];
    if n < 10 then [d[n]] else Digits(n / 10) + [d[n % 10]]
  }

  /** An integer in decimal, with a leading minus sign when negative. */
  function Decimal(i: int): string {
    if i < 0 then "-" + Digits(-i) else Digits(i)
  }

  function Message(e: WavError): string {
    match e
    case DivideByZero => "ArithmeticException"
    case BlockAlignMismatch => "Block Align does not agree with bytes required for validBits and number of channels"
    case ZeroBlockAlign => "Block Align specified in header is equal to zero"
    case NotReading => "Cannot read from WavFile instance"
    case Compressed(code) => "Compression Code " + Decimal(code) + " not supported"
    case ShortChunkHeader => "Could not read chunk header"
    case PartialFrame => "Data Chunk size is not multiple of Block Align"
    case DataBeforeFormat => "Data chunk found before Format chunk"
    case SizeMismatch(chunkSize, fileSize) =>
      "Header chunk size (" + Decimal(chunkSize) + ") does not match file size (" + Decimal(fileSize) + ")"
    case NotRiff => "Invalid Wav Header data, incorrect riff chunk ID"
    case NotWave => "Invalid Wav Header data, incorrect riff type ID"
    case EndOfData => "Not enough data available"
    case ShortHeader => "Not enough wav file bytes for header"
    case NoChannels => "Number of channels specified in header is equal to zero"
    case NoDataChunk => "Reached end of file without finding format chunk"
    case TooManyBits => "Valid Bits specified in header is greater than 64, this is greater than a long can hold"
    case TooFewBits => "Valid Bits specified in header is less than 2"
  }

  /** The format chunk's fields. */
  datatype Fmt = Fmt(numChannels: int, sampleRate: int, blockAlign: int, validBits: int, bytesPerSample: int)

  /** What a format chunk the reader accepts guarantees. */
  predicate ValidFmt(f: Fmt) {
    && 1 <= f.numChannels && 0 <= f.sampleRate
    && 2 <= f.validBits <= 64
    && f.bytesPerSample == (f.validBits + 7) / 8 && 1 <= f.bytesPerSample <= 8
    && f.blockAlign == f.bytesPerSample * f.numChannels
  }

  /**
   * The validation of the fields of a format chunk: PCM (compression code 1),
   * at least one channel, a non-zero block align, 2 to 64 valid bits, and a
   * block align that is the bytes of one sample times the channels.
   */
  function FormatFields(compressionCode: int, numChannels: int, sampleRate: int, blockAlign: int, validBits: int): WavResult<Fmt> {
    if compressionCode != 1 then Failure(Compressed(compressionCode))
    else if numChannels == 0 then Failure(NoChannels)
    else if blockAlign == 0 then Failure(ZeroBlockAlign)
    else if validBits < 2 then Failure(TooFewBits)
    else if validBits > 64 then Failure(TooManyBits)
    else
      var bytesPerSample := (validBits + 7) / 8;
      if bytesPerSample * numChannels != blockAlign then
        Failure(BlockAlignMismatch)
      else
        Success(Fmt(numChannels, sampleRate, blockAlign, validBits, bytesPerSample))
  }

  /** The 16 bytes of a format chunk: the fields at offsets 0, 2, 4, 12 and 14, then their checks. */
  function FormatOf(b: seq<int>): WavResult<Fmt>
    requires |b| >= 16
  {
    FormatFields(LittleEndian(b[0..2]), LittleEndian(b[2..4]), LittleEndian(b[4..8]), LittleEndian(b[12..14]), LittleEndian(b[14..16]))
  }

  /** A format chunk the reader accepts is one `ValidFmt` describes. */
  lemma FormatOfValid(b: seq<int>)
    requires |b| >= 16 && AllBytes(b) && FormatOf(b).Success?
    ensures ValidFmt(FormatOf(b).value)
  {
    LittleEndianRange(b[2..4]);
    LittleEndianRange(b[4..8]);
    var f := FormatOf(b).value;
    assert f.bytesPerSample * f.numChannels == f.blockAlign;
  }

  /** Chunk sizes are padded to an even number of bytes. */
  function PaddedSize(chunkSize: int): (r: int)
    requires 0 <= chunkSize
    ensures r % 2 == 0 && chunkSize <= r <= chunkSize + 1
  {
    if chunkSize % 2 == 1 then chunkSize + 1 else chunkSize
  }

  /** Where the data chunk was found: its format, its frame count and its first byte. */
  datatype DataChunk = DataChunk(fmt: Fmt, numFrames: int, start: int)

  /** One turn of the chunk scan: the result, or where the scan goes on. */
  datatype Step = Done(result: WavResult<DataChunk>) | Next(pos: int, buf: seq<int>, fmt: Option<Fmt>)

  /**
   * The rest of a turn on a format chunk of `numChunkBytes` (padded) bytes
   * whose body starts at `pos`: 16 bytes are read into the buffer, whatever
   * the read returns, checked as `FormatOf` states, and the rest skipped.
   */
  function FormatTurn(file: seq<int>, pos: int, buf: seq<int>, numChunkBytes: int): (s: Step)
    requires AllBytes(file) && AllBytes(buf) && |buf| == BUFFER_SIZE && 0 <= pos
    ensures s.Next? ==>
      && pos <= s.pos && AllBytes(s.buf) && |s.buf| == BUFFER_SIZE
      && s.fmt.Some? && ValidFmt(s.fmt.value)
  {
    var (m, b) := ReadBytes(file, pos, buf, 16);
    var after := pos + Max(m, 0);
    match FormatOf(b)
    case Failure(e) => Done(Failure(e))
    case Success(f) =>
      FormatOfValid(b);
      Next(if numChunkBytes - 16 > 0 then after + numChunkBytes - 16 else after, b, Some(f))
  }

  /**
   * One turn of the chunk scan of `openWavFile` at stream position `pos`
   * with the buffer holding `buf`: the 8-byte chunk header is read; a format
   * chunk is checked (its 16 bytes are read into the buffer, whatever the
   * read returns) and the rest of it skipped; the data chunk ends the scan;
   * any other chunk is skipped.
   */
  function NextChunk(file: seq<int>, pos: int, buf: seq<int>, fmt: Option<Fmt>): (s: Step)
    requires AllBytes(file) && AllBytes(buf) && |buf| == BUFFER_SIZE && 0 <= pos
    requires fmt.Some? ==> ValidFmt(fmt.value)
    ensures s.Next? ==>
      && pos + 8 <= |file| && pos + 8 <= s.pos
      && AllBytes(s.buf) && |s.buf| == BUFFER_SIZE && (s.fmt.Some? ==> ValidFmt(s.fmt.value))
  {
    if pos >= |file| then Done(Failure(NoDataChunk))
    else if pos + 8 > |file| then Done(Failure(ShortChunkHeader))
    else
      var b := file[pos..pos + 8] + buf[8..];
      LittleEndianRange(file[pos + 4..pos + 8]);
      var chunkID := LittleEndian(file[pos..pos + 4]);
      var chunkSize := LittleEndian(file[pos + 4..pos + 8]);
      var numChunkBytes := PaddedSize(chunkSize);
      if chunkID == FMT_CHUNK_ID then
        FormatTurn(file, pos + 8, b, numChunkBytes)
      else if chunkID == DATA_CHUNK_ID then
        if fmt.None? then Done(Failure(DataBeforeFormat))
        else if chunkSize % fmt.value.blockAlign != 0 then Done(Failure(PartialFrame))
        else Done(Success(DataChunk(fmt.value, chunkSize / fmt.value.blockAlign, pos + 8)))
      else
        Next(pos + 8 + numChunkBytes, b, fmt)
  }

  /** The chunk scan of `openWavFile`, turn after turn until it is done. */
  function Scan(file: seq<int>, pos: int, buf: seq<int>, fmt: Option<Fmt>): (r: WavResult<DataChunk>)
    requires AllBytes(file) && AllBytes(buf) && |buf| == BUFFER_SIZE && 0 <= pos
    requires fmt.Some? ==> ValidFmt(fmt.value)
    decreases |file| - pos
  {
    match NextChunk(file, pos, buf, fmt)
    case Done(r) => r
    case Next(p, b, f) => Scan(file, p, b, f)
  }

  /** What `openWavFile` learns from a file it accepts. */
  datatype Header = Header(fmt: Fmt, numFrames: int, fileSize: int, dataStart: int)

  /** The buffer after `openWavFile` reads the first 12 bytes into the zeroed buffer. */
  function HeaderBuffer(file: seq<int>): (b: seq<int>)
    requires AllBytes(file)
    ensures |b| == BUFFER_SIZE && AllBytes(b)
  {
    ReadBytes(file, 0, seq(BUFFER_SIZE, _ => 0), 12).1
  }

  /**
   * The 12-byte RIFF header `openWavFile` reads first: the RIFF and WAVE
   * ids and a chunk size that is the file's length minus 8, which is the
   * result.
   */
  function RiffHeader(file: seq<int>): (r: WavResult<int>)
    requires AllBytes(file)
  {
    var (n, b) := ReadBytes(file, 0, seq(BUFFER_SIZE, _ => 0), 12);
    if n != 12 then Failure(ShortHeader)
    else if LittleEndian(b[0..4]) != RIFF_CHUNK_ID then Failure(NotRiff)
    else if LittleEndian(b[8..12]) != RIFF_TYPE_ID then Failure(NotWave)
    else if |file| != LittleEndian(b[4..8]) + 8 then Failure(SizeMismatch(LittleEndian(b[4..8]), |file|))
    else Success(LittleEndian(b[4..8]))
  }

  /** `openWavFile` on the bytes of a file: the RIFF header, then the chunk scan from byte 12. */
  function Parse(file: seq<int>): (r: WavResult<Header>)
    requires AllBytes(file)
  {
    match RiffHeader(file)
    case Failure(e) => Failure(e)
    case Success(size) =>
      match Scan(file, 12, HeaderBuffer(file), None)
      case Failure(e) => Failure(e)
      case Success(d) => Success(Header(d.fmt, d.numFrames, size, d.start))
  }

  /** The data chunk's header: its tag, and a size that is a whole number of frames. */
  lemma DataChunkHeader(file: seq<int>, pos: int, f: Fmt)
    requires AllBytes(file) && 0 <= pos && pos + 8 <= |file| && ValidFmt(f)
    requires LittleEndian(file[pos..pos + 4]) == DATA_CHUNK_ID
    requires LittleEndian(file[pos + 4..pos + 8]) % f.blockAlign == 0
    ensures file[pos..pos + 4] == DATA_TAG
    ensures var size := LittleEndian(file[pos + 4..pos + 8]);
      0 <= size / f.blockAlign && size / f.blockAlign * f.blockAlign == size
  {
    ChunkTags(file[pos..pos + 4]);
    LittleEndianRange(file[pos + 4..pos + 8]);
  }

  /** A turn that ends the scan successfully has read the data chunk's header. */
  lemma FoundData(file: seq<int>, pos: int, buf: seq<int>, fmt: Option<Fmt>)
    requires AllBytes(file) && AllBytes(buf) && |buf| == BUFFER_SIZE && 0 <= pos
    requires fmt.Some? ==> ValidFmt(fmt.value)
    requires NextChunk(file, pos, buf, fmt).Done? && NextChunk(file, pos, buf, fmt).result.Success?
    ensures var d := NextChunk(file, pos, buf, fmt).result.value;
      && d.start == pos + 8 <= |file|
      && file[pos..pos + 4] == DATA_TAG
      && d.numFrames * d.fmt.blockAlign == LittleEndian(file[pos + 4..pos + 8])
      && ValidFmt(d.fmt) && 0 <= d.numFrames
  {
    DataChunkHeader(file, pos, fmt.value);
  }

  /**
   * A data chunk the scan accepts is in the file: its "data" tag and its size
   * are the 8 bytes before `start`, the size is a whole number of frames,
   * and the format is one the reader accepts.
   */
  lemma {:induction false} ScanFindsData(file: seq<int>, pos: int, buf: seq<int>, fmt: Option<Fmt>)
    requires AllBytes(file) && AllBytes(buf) && |buf| == BUFFER_SIZE && 0 <= pos
    requires fmt.Some? ==> ValidFmt(fmt.value)
    requires Scan(file, pos, buf, fmt).Success?
    ensures var d := Scan(file, pos, buf, fmt).value;
      && pos + 8 <= d.start <= |file|
      && file[d.start - 8..d.start - 4] == DATA_TAG
      && d.numFrames * d.fmt.blockAlign == LittleEndian(file[d.start - 4..d.start])
      && ValidFmt(d.fmt) && 0 <= d.numFrames
    decreases |file| - pos
  {
    match NextChunk(file, pos, buf, fmt)
    case Done(r) =>
      FoundData(file, pos, buf, fmt);
    case Next(p, b, f) =>
      ScanFindsData(file, p, b, f);
  }

  /**
   * A file `openWavFile` accepts starts with "RIFF", its declared size and
   * "WAVE", its length is that size plus 8, and its data chunk follows.
   */
  lemma ParseSound(file: seq<int>)
    requires AllBytes(file) && Parse(file).Success?
    ensures var h := Parse(file).value;
      && |file| == h.fileSize + 8
      && file[0..4] == RIFF_TAG && file[8..12] == WAVE_TAG
      && LittleEndian(file[4..8]) == h.fileSize
      && 20 <= h.dataStart <= |file|
      && file[h.dataStart - 8..h.dataStart - 4] == DATA_TAG
      && h.numFrames * h.fmt.blockAlign == LittleEndian(file[h.dataStart - 4..h.dataStart])
      && ValidFmt(h.fmt) && 0 <= h.numFrames
  {
    var b := HeaderBuffer(file);
    assert b[0..4] == file[0..4] && b[4..8] == file[4..8] && b[8..12] == file[8..12];
    ChunkTags(file[0..4]);
    ChunkTags(file[8..12]);
    ScanFindsData(file, 12, b, None);
  }

  /** Java's `x << n` on an int: the distance is taken modulo 32 and the result wraps to 32 bits. */
  function IntShiftLeft(x: int, n: nat): int {
    Wrap32(x * Pow2(n % 32))
  }

  /** The scale `openWavFile` computes for `validBits > 8`, with an int shift. */
  function FloatScaleAsWritten(validBits: int): real
    requires 2 <= validBits <= 64
  {
    if validBits > 8 then IntShiftLeft(1, validBits - 1) as real
    else 0.5 * ((Pow2(validBits) - 1) as real)
  }

  /** The evidently intended scale: the magnitude of the most negative sample, 2^(validBits-1). */
  function FloatScale(validBits: int): (r: real)
    requires 2 <= validBits <= 64
    ensures r > 0.0
  {
    if validBits > 8 then Pow2(validBits - 1) as real
    else 0.5 * ((Pow2(validBits) - 1) as real)
  }

  lemma {:induction false} Pow2Add(a: nat, b: nat)
    ensures Pow2(a + b) == Pow2(a) * Pow2(b)
  {
    if a > 0 {
      Pow2Add(a - 1, b);
    }
  }

  lemma Pow2Values()
    ensures Pow2(8) == 0x100 && Pow2(16) == 0x1_0000 && Pow2(24) == 0x100_0000 && Pow2(31) == 0x8000_0000
  {
    assert Pow2(8) == 0x100 && Pow2(7) == 0x80;
    Pow2Add(8, 8);
    Pow2Add(16, 8);
    Pow2Add(24, 7);
  }

  /** With 32 valid bits the int shift gives a negative scale, which flips every sample's sign. */
  lemma ThirtyTwoBitScaleIsNegative()
    ensures FloatScaleAsWritten(32) == -2147483648.0
    ensures FloatScale(32) == 2147483648.0
  {
    Pow2Values();
  }

  /** Up to 31 valid bits the shift cannot wrap, and both scales agree. */
  lemma {:induction false} ScalesAgreeBelow32(validBits: int)
    requires 2 <= validBits <= 31
    ensures FloatScaleAsWritten(validBits) == FloatScale(validBits)
  {
    if validBits > 8 {
      var k := validBits - 1;
      Pow2Add(k, 31 - k);
      Pow2Values();
      assert Pow2(31 - k) >= 2;
      assert Pow2(k) * 2 <= Pow2(k) * Pow2(31 - k);
      Wrap32Fits(Pow2(k));
    }
  }

  lemma Wrap32Fits(x: int)
    requires -0x8000_0000 <= x < 0x8000_0000
    ensures Wrap32(x) == x
  {
  }

  /** A Java byte read as signed. */
  function Signed(x: int): int {
    if x >= 128 then x - 256 else x
  }

  /**
   * The value `readSample` adds for byte `b` of a sample: unsigned, except
   * the last byte of a multi-byte sample, which carries the sign.
   */
  function ByteTerm(bytes: seq<int>, b: nat): int
    requires b < |bytes|
  {
    if b < |bytes| - 1 || |bytes| == 1 then bytes[b] else Signed(bytes[b])
  }

  /** `readSample` as written: each term is shifted as an int (`v << (b * 8)`). */
  function SampleAsWritten(bytes: seq<int>, n: nat): int
    requires n <= |bytes|
  {
    if n == 0 then 0 else SampleAsWritten(bytes, n - 1) + IntShiftLeft(ByteTerm(bytes, n - 1), (n - 1) * 8)
  }

  /** One more byte of a sample as written adds its term, shifted as an int. */
  lemma SampleAsWrittenStep(bytes: seq<int>, b: nat, v: int)
    requires b < |bytes| && v == ByteTerm(bytes, b)
    ensures SampleAsWritten(bytes, b + 1) == SampleAsWritten(bytes, b) + IntShiftLeft(v, b * 8)
  {
  }

  /** The evidently intended `readSample`: each term shifted as a long, by 8 bits per byte. */
  function SampleSum(bytes: seq<int>, n: nat): int
    requires n <= |bytes|
  {
    if n == 0 then 0 else SampleSum(bytes, n - 1) + ByteTerm(bytes, n - 1) * Pow256(n - 1)
  }

  function SampleValue(bytes: seq<int>): int
    requires 1 <= |bytes|
  {
    SampleSum(bytes, |bytes|)
  }

  lemma {:induction false} LittleEndianSnoc(s: seq<int>, n: nat)
    requires n < |s|
    ensures LittleEndian(s[..n + 1]) == LittleEndian(s[..n]) + s[n] * Pow256(n)
  {
    if n > 0 {
      LittleEndianSnoc(s[1..], n - 1);
      assert s[1..][..n] == s[..n + 1][1..];
      assert s[1..][..n - 1] == s[..n][1..];
    }
  }

  lemma {:induction false} UnsignedPrefix(bytes: seq<int>, n: nat)
    requires n < |bytes| || (n == |bytes| == 1)
    ensures SampleSum(bytes, n) == LittleEndian(bytes[..n])
  {
    if n > 0 {
      UnsignedPrefix(bytes, n - 1);
      LittleEndianSnoc(bytes, n - 1);
    }
  }

  /**
   * A sample is its bytes as a two's-complement little-endian number: one
   * byte is unsigned, wider samples are signed.
   */
  lemma SampleIsTwosComplement(bytes: seq<int>)
    requires 1 <= |bytes| && AllBytes(bytes)
    ensures |bytes| == 1 ==> SampleValue(bytes) == bytes[0]
    ensures |bytes| > 1 ==>
      SampleValue(bytes) == LittleEndian(bytes) - (if bytes[|bytes| - 1] >= 128 then Pow256(|bytes|) else 0)
  {
    var k := |bytes| - 1;
    if k == 0 {
      UnsignedPrefix(bytes, 1);
    } else {
      UnsignedPrefix(bytes, k);
      LittleEndianSnoc(bytes, k);
      assert bytes[..k + 1] == bytes;
      assert SampleValue(bytes) == LittleEndian(bytes[..k]) + Signed(bytes[k]) * Pow256(k);
      SignedTerm(bytes[k], Pow256(k));
    }
  }

  /** A signed byte's term is the unsigned one less 256 times the weight when the sign bit is set. */
  lemma SignedTerm(x: int, w: int)
    ensures Signed(x) * w == x * w - (if x >= 128 then 256 * w else 0)
  {
  }

  /**
   * Java's int shift: for a value and distance whose product fits in an int
   * (and a distance below 32) the shift is the product.
   */
  lemma IntShiftFits(x: int, b: nat)
    requires b <= 3 && -0x8000_0000 <= x * Pow256(b) < 0x8000_0000
    ensures IntShiftLeft(x, b * 8) == x * Pow256(b)
  {
    Pow2Values();
    assert Pow2((b * 8) % 32) == Pow256(b) by {
      assert Pow256(1) == 0x100 && Pow256(2) == 0x1_0000 && Pow256(3) == 0x100_0000;
    }
    Wrap32Fits(x * Pow256(b));
  }

  /** Up to 4 bytes a sample fits in an int and the written and intended sums agree. */
  lemma {:induction false} NarrowSamplesAgree(bytes: seq<int>, n: nat)
    requires 1 <= |bytes| <= 4 && AllBytes(bytes) && n <= |bytes|
    ensures SampleAsWritten(bytes, n) == SampleSum(bytes, n)
  {
    if n > 0 {
      NarrowSamplesAgree(bytes, n - 1);
      var b := n - 1;
      var t := ByteTerm(bytes, b);
      assert -128 <= t < 256;
      if b == 3 {
        assert -128 <= t < 128;
      }
      TermFits(t, b);
      IntShiftFits(t, b);
    }
  }

  /** A byte term of a sample of at most 4 bytes, weighted by its position, fits in an int. */
  lemma TermFits(t: int, b: nat)
    requires b <= 3 && -128 <= t < 256 && (b == 3 ==> t < 128)
    ensures -0x8000_0000 <= t * Pow256(b) < 0x8000_0000
  {
    if b == 0 {
      assert Pow256(0) == 1;
    } else if b == 1 {
      assert Pow256(1) == 0x100;
    } else if b == 2 {
      assert Pow256(2) == 0x1_0000;
    } else {
      assert Pow256(3) == 0x100_0000;
    }
  }

  /** A 5-byte sample holding 2^32: the int shift of its top byte wraps, and it reads as 1. */
  lemma WideSampleWraps()
    ensures SampleAsWritten([0, 0, 0, 0, 1], 5) == 1
    ensures SampleValue([0, 0, 0, 0, 1]) == 0x1_0000_0000
  {
    var s := [0, 0, 0, 0, 1];
    Wrap32Fits(0);
    Wrap32Fits(1);
    assert SampleAsWritten(s, 1) == 0;
    assert SampleAsWritten(s, 2) == 0;
    assert SampleAsWritten(s, 3) == 0;
    assert SampleAsWritten(s, 4) == 0;
    assert IntShiftLeft(ByteTerm(s, 4), 32) == 1;
    assert SampleSum(s, 4) == 0;
    assert Pow256(4) == 0x1_0000_0000;
  }

  /** The samples `readFrames` stores for some data bytes: each `bps` bytes read as `readSample` does, cast to int. */
  function Samples(data: seq<int>, bps: nat): seq<int>
    requires 1 <= bps
    decreases |data|
  {
    if |data| < bps then []
    else [Wrap32(SampleAsWritten(data[..bps], bps))] + Samples(data[bps..], bps)
  }

  /** One sample for every `bps` bytes. */
  lemma {:induction false} SamplesLength(data: seq<int>, bps: nat, k: nat)
    requires 1 <= bps && |data| == k * bps
    ensures |Samples(data, bps)| == k
  {
    if k > 0 {
      SamplesLength(data[bps..], bps, k - 1);
    }
  }

  /** Decoding whole samples one run after another is decoding them all together. */
  lemma {:induction false} SamplesAppend(a: seq<int>, b: seq<int>, bps: nat, k: nat)
    requires 1 <= bps && |a| == k * bps
    ensures Samples(a + b, bps) == Samples(a, bps) + Samples(b, bps)
  {
    if k == 0 {
      assert a + b == b;
    } else {
      assert (a + b)[..bps] == a[..bps];
      assert (a + b)[bps..] == a[bps..] + b;
      SamplesAppend(a[bps..], b, bps, k - 1);
    }
  }

  lemma SamplesOne(s: seq<int>, bps: nat)
    requires 1 <= bps == |s|
    ensures Samples(s, bps) == [Wrap32(SampleAsWritten(s, bps))]
  {
    assert s[..bps] == s;
    assert s[bps..] == [];
  }

  /** The samples of `file[c0..after]` are those of `file[c0..before]` followed by those of `file[before..after]`. */
  lemma SamplesStep(file: seq<int>, c0: int, before: int, after: int, bps: nat, k: nat)
    requires 1 <= bps && 0 <= c0 <= before <= after <= |file| && before - c0 == k * bps
    ensures Samples(file[c0..after], bps) == Samples(file[c0..before], bps) + Samples(file[before..after], bps)
  {
    SamplesAppend(file[c0..before], file[before..after], bps, k);
    assert file[c0..before] + file[before..after] == file[c0..after];
  }

  /** Stored samples of a frame so far, followed by one more sample, are the samples of all their bytes. */
  lemma SampleAppended(file: seq<int>, c0: int, before: int, after: int, bps: nat, c: nat, offset: nat, stored: seq<int>)
    requires 1 <= bps && 0 <= c0 <= before && after == before + bps <= |file| && before - c0 == c * bps
    requires offset + c < |stored|
    requires stored[offset..offset + c] == Samples(file[c0..before], bps)
    requires stored[offset + c] == Wrap32(SampleAsWritten(file[before..after], bps))
    ensures stored[offset..offset + c + 1] == Samples(file[c0..after], bps)
  {
    SamplesOne(file[before..after], bps);
    SamplesStep(file, c0, before, after, bps, c);
    assert stored[offset..offset + c + 1] == stored[offset..offset + c] + [stored[offset + c]];
  }

  /** Stored samples of the frames so far, followed by one more frame's, are the samples of all their bytes. */
  lemma FrameAppended(file: seq<int>, c0: int, before: int, after: int, bps: nat, offset: nat, channels: nat, stored: seq<int>)
    requires 1 <= bps && 0 <= c0 <= before <= after <= |file| && before - c0 == offset * bps
    requires offset + channels <= |stored|
    requires stored[..offset] == Samples(file[c0..before], bps)
    requires stored[offset..offset + channels] == Samples(file[before..after], bps)
    ensures stored[..offset + channels] == Samples(file[c0..after], bps)
  {
    SamplesStep(file, c0, before, after, bps, offset);
    assert stored[..offset + channels] == stored[..offset] + stored[offset..offset + channels];
  }

  lemma MulComm(a: int, b: int)
    ensures a * b == b * a
  {
  }

  /** The bytes of the samples before channel `c`, and of one more, still fit in a frame. */
  lemma ChannelBound(c: int, channels: int, bps: int)
    requires 0 <= c < channels && 0 <= bps
    ensures c * bps + bps <= bps * channels
  {
    MulMono(c + 1, channels, bps);
  }

  /** `f` frames of `channels` samples of `bps` bytes. */
  lemma FrameBytes(f: int, channels: int, bps: int)
    ensures f * (bps * channels) == (f * channels) * bps
  {
  }

  /** Where frame `f` starts and ends, in bytes and in samples. */
  lemma FrameStart(f: int, channels: int, bps: int, blockAlign: int)
    requires 0 <= f && 1 <= channels && 1 <= bps && blockAlign == bps * channels
    ensures 0 <= f * blockAlign == (f * channels) * bps
    ensures (f + 1) * blockAlign == f * blockAlign + blockAlign
  {
    FrameBytes(f, channels, bps);
    MulSucc(f, blockAlign);
  }

  lemma MulSucc(a: int, b: int)
    ensures (a + 1) * b == a * b + b
  {
  }

  /** `WavFile.IOState`; the writing side is not part of this model. */
  datatype IOState = Unset | Reading | Closed

  /** A WAV file opened for reading: the input stream over `file` and its 4096-byte buffer. */
  class WavFile {
    /** The file's bytes: what the input stream delivers. */
    const file: seq<int>
    /** The input stream's position in `file`; `skip` may take it past the end. */
    var position: int
    /** `iStream != null`. */
    var streamOpen: bool
    const buffer: array<int>
    var ioState: IOState
    var bytesPerSample: int
    var numFrames: int
    var floatScale: real
    var floatOffset: real
    var numChannels: int
    var sampleRate: int
    var blockAlign: int
    var validBits: int
    var bufferPointer: int
    var bytesRead: int
    var frameCounter: int
    var fileSize: int

    /** The format chunk's fields as last read. */
    function Format(): Fmt
      reads this`numChannels, this`sampleRate, this`blockAlign, this`validBits, this`bytesPerSample
    {
      Fmt(numChannels, sampleRate, blockAlign, validBits, bytesPerSample)
    }

    /** The next byte `readSample` consumes: the stream position less what is still unread in the buffer. */
    function Cursor(): int
      reads this`position, this`bytesRead, this`bufferPointer
    {
      position - bytesRead + bufferPointer
    }

    /** The buffer holds the `bytesRead` bytes before the stream position. */
    ghost predicate Buffered()
      reads this`position, this`bytesRead, this`bufferPointer, buffer
    {
      && buffer.Length == BUFFER_SIZE
      && 0 <= bufferPointer <= bytesRead <= BUFFER_SIZE
      && bytesRead <= position <= |file|
      && buffer[..bytesRead] == file[position - bytesRead..position]
    }

    ghost predicate Valid()
      reads this`position, this`bytesRead, this`bufferPointer, this`numChannels, this`sampleRate, this`blockAlign, this`validBits, this`bytesPerSample, this`frameCounter, this`numFrames, buffer
    {
      && Buffered() && AllBytes(file)
      && ValidFmt(Format())
      && 0 <= frameCounter <= numFrames
    }

    /** The private constructor: a zeroed buffer, nothing read yet. */
    constructor(file: seq<int>)
      ensures this.file == file && position == 0 && !streamOpen && ioState == Unset
      ensures fresh(buffer) && buffer[..] == seq(BUFFER_SIZE, _ => 0)
    {
      this.file := file;
      position := 0;
      streamOpen := false;
      buffer := new int[BUFFER_SIZE](_ => 0);
      ioState := Unset;
    }

    /** `iStream.read(buffer, 0, n)`, as `ReadBytes` states it. */
    method ReadInto(n: int) returns (count: int)
      requires buffer.Length == BUFFER_SIZE && 1 <= n <= BUFFER_SIZE && 0 <= position
      modifies this`position, buffer
      ensures (count, buffer[..]) == ReadBytes(file, old(position), old(buffer[..]), n)
      ensures position == old(position) + Max(count, 0)
      ensures count >= 1 ==> buffer[..count] == file[old(position)..position]
    {
      if position >= |file| {
        return -1;
      }
      count := Min(n, |file| - position);
      ghost var before := buffer[..];
      var i := 0;
      while i < count
        invariant 0 <= i <= count && position == old(position)
        invariant forall j :: 0 <= j < i ==> buffer[j] == file[position + j]
        invariant forall j :: i <= j < buffer.Length ==> buffer[j] == before[j]
      {
        buffer[i] := file[position + i];
        i := i + 1;
      }
      assert buffer[..count] == file[position..position + count];
      assert buffer[..] == file[position..position + count] + before[count..];
      position := position + count;
    }

    /** `iStream.skip(n)`. */
    method Skip(n: int)
      requires 0 <= n
      modifies this`position
      ensures position == old(position) + n
    {
      position := position + n;
    }

    /**
     * `getLE`: the `numBytes` bytes from `pos`, the last the most significant,
     * accumulated from the top byte down.
     */
    static method GetLE(buffer: array<int>, pos: int, numBytes: int) returns (val: int)
      requires 1 <= numBytes <= 7 && 0 <= pos && pos + numBytes <= buffer.Length
      ensures val == LittleEndian(buffer[pos..pos + numBytes])
    {
      var n := numBytes - 1;
      var p := pos + n;
      val := buffer[p];
      assert buffer[p..pos + numBytes][1..] == [];
      for b := 0 to n
        invariant p == pos + n - b
        invariant val == LittleEndian(buffer[p..pos + numBytes])
      {
        p := p - 1;
        val := val * 256 + buffer[p];
        assert buffer[p..pos + numBytes][1..] == buffer[p + 1..pos + numBytes];
      }
    }

    /**
     * The format chunk's checks on the 16 bytes at the front of the buffer;
     * the fields take what was read once validation passes (the object is
     * dropped when they fail).
     */
    method CheckFormat() returns (r: WavResult<Fmt>)
      requires buffer.Length == BUFFER_SIZE
      modifies this`numChannels, this`sampleRate, this`blockAlign, this`validBits, this`bytesPerSample
      ensures r == FormatOf(buffer[..])
      ensures r.Success? ==> Format() == r.value
    {
      var compressionCode := GetLE(buffer, 0, 2);
      if compressionCode != 1 {
        return Failure(Compressed(compressionCode));
      }
      var channels := GetLE(buffer, 2, 2);
      var rate := GetLE(buffer, 4, 4);
      var align := GetLE(buffer, 12, 2);
      var bits := GetLE(buffer, 14, 2);
      assert FormatOf(buffer[..]) == FormatFields(compressionCode, channels, rate, align, bits);
      if channels == 0 {
        return Failure(NoChannels);
      }
      if align == 0 {
        return Failure(ZeroBlockAlign);
      }
      if bits < 2 {
        return Failure(TooFewBits);
      }
      if bits > 64 {
        return Failure(TooManyBits);
      }
      var sampleBytes := (bits + 7) / 8;
      if sampleBytes * channels != align {
        return Failure(BlockAlignMismatch);
      }
      r := Success(Fmt(channels, rate, align, bits, sampleBytes));
      numChannels, sampleRate, blockAlign, validBits, bytesPerSample := channels, rate, align, bits, sampleBytes;
    }

    /** The format chunk's body: 16 bytes read into the buffer (whatever the read returns), then checked. */
    method ReadFormat() returns (r: WavResult<Fmt>)
      requires buffer.Length == BUFFER_SIZE && 0 <= position && AllBytes(file) && AllBytes(buffer[..])
      modifies this`position, this`numChannels, this`sampleRate, this`blockAlign, this`validBits, this`bytesPerSample, buffer
      ensures var (m, b) := ReadBytes(file, old(position), old(buffer[..]), 16);
        && buffer[..] == b && position == old(position) + Max(m, 0)
        && r == FormatOf(b)
      ensures r.Success? ==> Format() == r.value
    {
      var m := ReadInto(16);
      r := CheckFormat();
    }

    /** A format chunk's turn, once its header is read: the turn `FormatTurn` states. */
    method FormatChunk(numChunkBytes: int) returns (step: Step)
      requires buffer.Length == BUFFER_SIZE && 0 <= position && AllBytes(file) && AllBytes(buffer[..])
      modifies this`position, this`numChannels, this`sampleRate, this`blockAlign, this`validBits, this`bytesPerSample, buffer
      ensures step == FormatTurn(file, old(position), old(buffer[..]), numChunkBytes)
      ensures step.Next? ==> position == step.pos && buffer[..] == step.buf && step.fmt == Some(Format())
    {
      var f := ReadFormat();
      if f.Failure? {
        return Done(Failure(f.error));
      }
      var rest := numChunkBytes - 16;
      if rest > 0 {
        Skip(rest);
      }
      step := Next(position, buffer[..], Some(Format()));
    }

    /**
     * One turn of `openWavFile`'s `while (true)` chunk scan, `foundFormat`
     * telling whether a format chunk came before: the turn `NextChunk` states.
     */
    method ScanTurn(foundFormat: bool) returns (step: Step)
      requires buffer.Length == BUFFER_SIZE && 0 <= position && AllBytes(file) && AllBytes(buffer[..])
      requires foundFormat ==> ValidFmt(Format())
      modifies this`position, this`numChannels, this`sampleRate, this`blockAlign, this`validBits, this`bytesPerSample, this`numFrames, buffer
      ensures step == NextChunk(file, old(position), old(buffer[..]), if foundFormat then Some(old(Format())) else None)
      ensures step.Next? ==> position == step.pos && buffer[..] == step.buf && (step.fmt.Some? ==> step.fmt == Some(Format()))
      ensures step.Done? && step.result.Success? ==>
        numFrames == step.result.value.numFrames && Format() == step.result.value.fmt && position == step.result.value.start
    {
      ghost var pos := position;
      ghost var buf := buffer[..];
      var n := ReadInto(8);
      if n == -1 {
        return Done(Failure(NoDataChunk));
      }
      if n != 8 {
        return Done(Failure(ShortChunkHeader));
      }
      assert buffer[0..4] == file[pos..pos + 4] && buffer[4..8] == file[pos + 4..pos + 8];
      assert buffer[..] == file[pos..pos + 8] + buf[8..];
      LittleEndianRange(file[pos + 4..pos + 8]);
      var chunkID := GetLE(buffer, 0, 4);
      var chunkSize := GetLE(buffer, 4, 4);
      var numChunkBytes := if chunkSize % 2 == 1 then chunkSize + 1 else chunkSize;
      if chunkID == FMT_CHUNK_ID {
        step := FormatChunk(numChunkBytes);
      } else if chunkID == DATA_CHUNK_ID {
        if !foundFormat {
          return Done(Failure(DataBeforeFormat));
        }
        if chunkSize % blockAlign != 0 {
          return Done(Failure(PartialFrame));
        }
        numFrames := chunkSize / blockAlign;
        step := Done(Success(DataChunk(Format(), numFrames, position)));
      } else {
        Skip(numChunkBytes);
        step := Next(position, buffer[..], if foundFormat then Some(Format()) else None);
      }
    }

    /** The first 12 bytes read and checked as `RiffHeader` states. */
    method ReadHeader() returns (r: WavResult<int>)
      requires buffer.Length == BUFFER_SIZE && position == 0 && buffer[..] == seq(BUFFER_SIZE, _ => 0) && AllBytes(file)
      modifies this`position, buffer
      ensures r == RiffHeader(file)
      ensures r.Success? ==> position == 12 && buffer[..] == HeaderBuffer(file)
    {
      var n := ReadInto(12);
      if n != 12 {
        return Failure(ShortHeader);
      }
      var riffChunkID := GetLE(buffer, 0, 4);
      var chunkSize := GetLE(buffer, 4, 4);
      var riffTypeID := GetLE(buffer, 8, 4);
      if riffChunkID != RIFF_CHUNK_ID {
        return Failure(NotRiff);
      }
      if riffTypeID != RIFF_TYPE_ID {
        return Failure(NotWave);
      }
      if |file| != chunkSize + 8 {
        return Failure(SizeMismatch(chunkSize, |file|));
      }
      r := Success(chunkSize);
    }

    /** The `while (true)` chunk scan of `openWavFile`, from the current position: `Scan`'s outcome. */
    method ScanChunks() returns (r: WavResult<DataChunk>)
      requires buffer.Length == BUFFER_SIZE && 0 <= position && AllBytes(file) && AllBytes(buffer[..])
      modifies this`position, this`numChannels, this`sampleRate, this`blockAlign, this`validBits, this`bytesPerSample, this`numFrames, buffer
      ensures r == Scan(file, old(position), old(buffer[..]), None)
      ensures r.Success? ==>
        && Format() == r.value.fmt && ValidFmt(Format())
        && numFrames == r.value.numFrames && 0 <= numFrames
        && 0 <= position == r.value.start <= |file|
    {
      ghost var p0, b0 := position, buffer[..];
      var foundFormat := false;
      while true
        invariant buffer.Length == BUFFER_SIZE && 0 <= position && AllBytes(buffer[..])
        invariant foundFormat ==> ValidFmt(Format())
        invariant Scan(file, position, buffer[..], if foundFormat then Some(Format()) else None) == Scan(file, p0, b0, None)
        decreases |file| - position
      {
        ghost var pos, buf, fmt := position, buffer[..], if foundFormat then Some(Format()) else None;
        var step := ScanTurn(foundFormat);
        match step {
          case Done(res) =>
            if res.Success? {
              FoundData(file, pos, buf, fmt);
            }
            return res;
          case Next(_, _, f) =>
            foundFormat := f.Some?;
        }
      }
    }

    /**
     * `openWavFile`: accepts exactly the files `Parse` accepts, with the
     * header `Parse` reads, the buffer empty, no frame read yet, and the
     * scale for converting samples to floats.
     */
    static method Open(file: seq<int>) returns (r: WavResult<WavFile>)
      requires AllBytes(file)
      ensures r.Failure? ==> Parse(file) == Failure(r.error)
      ensures r.Success? ==>
        Parse(file) == Success(Header(r.value.Format(), r.value.numFrames, r.value.fileSize, r.value.Cursor()))
      ensures r.Success? ==> fresh(r.value) && fresh(r.value.buffer) && r.value.file == file
      ensures r.Success? ==> r.value.Valid() && r.value.ioState == Reading && r.value.streamOpen
      ensures r.Success? ==> r.value.frameCounter == 0
      ensures r.Success? ==> r.value.floatScale == FloatScaleAsWritten(r.value.validBits)
      ensures r.Success? ==> r.value.floatOffset == (if r.value.validBits > 8 then 0.0 else -1.0)
    {
      var w := new WavFile(file);
      w.streamOpen := true;
      var loaded := w.Load();
      if loaded.Failure? {
        return Failure(loaded.error);
      }
      r := Success(w);
    }

    /**
     * The body of `openWavFile` after the stream is opened: the RIFF header,
     * the chunk scan up to the data chunk, and the set-up for reading.
     */
    method Load() returns (r: WavResult<()>)
      requires buffer.Length == BUFFER_SIZE && position == 0 && buffer[..] == seq(BUFFER_SIZE, _ => 0)
      requires AllBytes(file)
      modifies this`position, this`fileSize, this`numChannels, this`sampleRate, this`blockAlign, this`validBits,
        this`bytesPerSample, this`numFrames, this`floatOffset, this`floatScale, this`bufferPointer, this`bytesRead,
        this`frameCounter, this`ioState, buffer
      ensures r.Failure? ==> Parse(file) == Failure(r.error)
      ensures r.Success? ==> Parse(file) == Success(Header(Format(), numFrames, fileSize, Cursor()))
      ensures r.Success? ==> Valid() && ioState == Reading && frameCounter == 0
      ensures r.Success? ==> floatScale == FloatScaleAsWritten(validBits)
      ensures r.Success? ==> floatOffset == (if validBits > 8 then 0.0 else -1.0)
    {
      var size := ReadHeader();
      if size.Failure? {
        return Failure(size.error);
      }
      fileSize := size.value;
      var found := ScanChunks();
      if found.Failure? {
        return Failure(found.error);
      }
      ghost var d := found.value;
      assert Parse(file) == Success(Header(d.fmt, d.numFrames, size.value, d.start));
      StartReading();
      r := Success(());
    }

    /**
     * The end of `openWavFile` once the data chunk is found: the float
     * conversion's offset and scale, an empty buffer, no frame read yet,
     * and the file open for reading.
     */
    method StartReading()
      requires buffer.Length == BUFFER_SIZE && AllBytes(file) && ValidFmt(Format())
      requires 0 <= numFrames && 0 <= position <= |file|
      modifies this`floatOffset, this`floatScale, this`bufferPointer, this`bytesRead, this`frameCounter, this`ioState
      ensures Valid() && ioState == Reading && Cursor() == position && frameCounter == 0
      ensures floatScale == FloatScaleAsWritten(validBits)
      ensures floatOffset == (if validBits > 8 then 0.0 else -1.0)
    {
      if validBits > 8 {
        floatOffset := 0.0;
      } else {
        floatOffset := -1.0;
      }
      floatScale := FloatScaleAsWritten(validBits);
      bufferPointer := 0;
      bytesRead := 0;
      frameCounter := 0;
      ioState := Reading;
    }

    /** The buffer refilled once it is used up: fails only at the end of the file. */
    method Refill() returns (ok: bool)
      requires Buffered() && bufferPointer == bytesRead
      modifies this`position, this`bytesRead, this`bufferPointer, buffer
      ensures Buffered() && Cursor() == old(Cursor())
      ensures ok <==> old(position) < |file|
      ensures ok ==> bufferPointer < bytesRead
      ensures !ok ==> position == old(position)
    {
      var read := ReadInto(BUFFER_SIZE);
      if read == -1 {
        return false;
      }
      bytesRead := read;
      bufferPointer := 0;
      ok := true;
    }

    /** The byte at the buffer pointer, which then moves on. */
    method TakeByte() returns (v: int)
      requires Buffered() && bufferPointer < bytesRead
      modifies this`bufferPointer
      ensures Buffered() && Cursor() == old(Cursor()) + 1
      ensures v == file[old(Cursor())]
    {
      assert buffer[..bytesRead][bufferPointer] == file[Cursor()];
      v := buffer[bufferPointer];
      bufferPointer := bufferPointer + 1;
    }

    /** The next byte of the stream, through the buffer; `ok` is false at the end of the file. */
    method NextByte() returns (ok: bool, v: int)
      requires Buffered()
      modifies this`position, this`bytesRead, this`bufferPointer, buffer
      ensures Buffered()
      ensures ok <==> old(Cursor()) < |file|
      ensures ok ==> Cursor() == old(Cursor()) + 1 && v == file[old(Cursor())]
    {
      if bufferPointer == bytesRead {
        ok := Refill();
        if !ok {
          return false, 0;
        }
      }
      ok := true;
      v := TakeByte();
    }

    /**
     * `readSample`: the next `bytesPerSample` bytes, each shifted into place
     * as an `int` (`SampleAsWritten`), refilling the buffer whenever it is
     * used up. Up to four bytes this is the little-endian two's-complement
     * value (`NarrowSamplesAgree`, `SampleIsTwosComplement`).
     */
    method ReadSample() returns (r: WavResult<int>)
      requires Buffered() && 1 <= bytesPerSample <= 8
      modifies this`position, this`bytesRead, this`bufferPointer, buffer
      ensures Buffered()
      ensures r.Success? <==> old(Cursor()) + bytesPerSample <= |file|
      ensures r.Success? ==> Cursor() == old(Cursor()) + bytesPerSample && r.value == SampleAsWritten(file[old(Cursor())..Cursor()], bytesPerSample)
    {
      ghost var c0 := Cursor();
      ghost var whole := c0 + bytesPerSample <= |file|;
      ghost var bytes := if whole then file[c0..c0 + bytesPerSample] else [];
      var val := 0;
      var b := 0;
      while b < bytesPerSample
        invariant Buffered() && 0 <= b <= bytesPerSample
        invariant Cursor() == c0 + b <= |file|
        invariant whole ==> val == SampleAsWritten(bytes, b)
      {
        var ok, v := NextByte();
        if !ok {
          return Failure(EndOfData);
        }
        if !(b < bytesPerSample - 1 || bytesPerSample == 1) {
          v := Signed(v);
        }
        if whole {
          assert |bytes| == bytesPerSample && bytes[b] == file[c0 + b];
          SampleAsWrittenStep(bytes, b, v);
        }
        val := val + IntShiftLeft(v, b * 8);
        b := b + 1;
      }
      assert whole && file[c0..Cursor()] == bytes;
      r := Success(val);
    }

    /**
     * Channel `c` of a frame: one sample read and stored after the `c`
     * samples already stored from `offset` on.
     */
    method ReadChannel(sampleBuffer: array<int>, offset: int, c: int, ghost c0: int) returns (ok: bool)
      requires Buffered() && 1 <= bytesPerSample <= 8 && sampleBuffer != buffer
      requires 0 <= offset && 0 <= c && offset + c < sampleBuffer.Length
      requires 0 <= c0 && Cursor() == c0 + c * bytesPerSample
      requires sampleBuffer[offset..offset + c] == Samples(file[c0..Cursor()], bytesPerSample)
      modifies this`position, this`bytesRead, this`bufferPointer, buffer, sampleBuffer
      ensures Buffered()
      ensures ok <==> old(Cursor()) + bytesPerSample <= |file|
      ensures ok ==>
        && Cursor() == old(Cursor()) + bytesPerSample == c0 + (c + 1) * bytesPerSample
        && sampleBuffer[offset..offset + c + 1] == Samples(file[c0..Cursor()], bytesPerSample)
      ensures forall i :: 0 <= i < sampleBuffer.Length && i != offset + c ==> sampleBuffer[i] == old(sampleBuffer[i])
    {
      ghost var before := Cursor();
      ghost var done := sampleBuffer[offset..offset + c];
      MulSucc(c, bytesPerSample);
      var s := ReadSample();
      if s.Failure? {
        return false;
      }
      sampleBuffer[offset + c] := Wrap32(s.value);
      assert sampleBuffer[offset..offset + c] == done;
      SampleAppended(file, c0, before, Cursor(), bytesPerSample, c, offset, sampleBuffer[..]);
      ok := true;
    }

    /** One frame of `readFramesInternal`: a sample per channel, stored from `offset` on. */
    method ReadFrame(sampleBuffer: array<int>, offset: int) returns (r: WavResult<()>)
      requires Buffered() && sampleBuffer != buffer
      requires 1 <= bytesPerSample <= 8 && 1 <= numChannels && blockAlign == bytesPerSample * numChannels
      requires 0 <= offset && offset + numChannels <= sampleBuffer.Length
      modifies this`position, this`bytesRead, this`bufferPointer, buffer, sampleBuffer
      ensures Buffered()
      ensures r.Success? <==> old(Cursor()) + blockAlign <= |file|
      ensures r.Success? ==>
        && Cursor() == old(Cursor()) + blockAlign
        && sampleBuffer[offset..offset + numChannels] == Samples(file[old(Cursor())..Cursor()], bytesPerSample)
      ensures forall i :: 0 <= i < sampleBuffer.Length && !(offset <= i < offset + numChannels) ==> sampleBuffer[i] == old(sampleBuffer[i])
    {
      ghost var c0 := Cursor();
      for c := 0 to numChannels
        invariant Buffered()
        invariant c0 <= Cursor() == c0 + c * bytesPerSample
        invariant sampleBuffer[offset..offset + c] == Samples(file[c0..Cursor()], bytesPerSample)
        invariant forall i :: 0 <= i < sampleBuffer.Length && !(offset <= i < offset + c) ==> sampleBuffer[i] == old(sampleBuffer[i])
      {
        var ok := ReadChannel(sampleBuffer, offset, c, c0);
        if !ok {
          ChannelBound(c, numChannels, bytesPerSample);
          return Failure(EndOfData);
        }
      }
      MulComm(numChannels, bytesPerSample);
      r := Success(());
    }

    /**
     * Frame `f` of a read: a frame read and stored after the `f` frames
     * already stored from index 0.
     */
    method ReadFrameAt(sampleBuffer: array<int>, offset: int, f: int, ghost c0: int) returns (ok: bool)
      requires Buffered() && sampleBuffer != buffer
      requires 1 <= bytesPerSample <= 8 && 1 <= numChannels && 1 <= blockAlign == bytesPerSample * numChannels
      requires 0 <= f && offset == f * numChannels && offset + numChannels <= sampleBuffer.Length
      requires 0 <= c0 && Cursor() == c0 + f * blockAlign
      requires sampleBuffer[..offset] == Samples(file[c0..Cursor()], bytesPerSample)
      modifies this`position, this`bytesRead, this`bufferPointer, buffer, sampleBuffer
      ensures Buffered()
      ensures ok <==> old(Cursor()) + blockAlign <= |file|
      ensures ok ==> Cursor() == old(Cursor()) + blockAlign == c0 + (f + 1) * blockAlign && Cursor() <= |file|
      ensures ok ==> sampleBuffer[..offset + numChannels] == Samples(file[c0..Cursor()], bytesPerSample)
      ensures forall i :: offset + numChannels <= i < sampleBuffer.Length ==> sampleBuffer[i] == old(sampleBuffer[i])
    {
      ghost var before := Cursor();
      ghost var done := sampleBuffer[..offset];
      FrameStart(f, numChannels, bytesPerSample, blockAlign);
      var res := ReadFrame(sampleBuffer, offset);
      if res.Failure? {
        return false;
      }
      assert sampleBuffer[..offset] == done;
      FrameAppended(file, c0, before, Cursor(), bytesPerSample, offset, numChannels, sampleBuffer[..]);
      ok := true;
    }

    /**
     * A turn of `readFramesInternal`'s frame loop once it is known frames
     * remain: frame `f` of the `n` to read is read and counted.
     */
    method FrameTurn(sampleBuffer: array<int>, offset: int, f: int, ghost c0: int, ghost n: int) returns (ok: bool)
      requires Buffered() && sampleBuffer != buffer
      requires 1 <= bytesPerSample <= 8 && 1 <= numChannels && 1 <= blockAlign == bytesPerSample * numChannels
      requires 0 <= f < n && offset == f * numChannels <= sampleBuffer.Length && n * numChannels <= sampleBuffer.Length
      requires 0 <= c0 <= Cursor() <= |file| && Cursor() == c0 + f * blockAlign
      requires sampleBuffer[..offset] == Samples(file[c0..Cursor()], bytesPerSample)
      modifies this`position, this`bytesRead, this`bufferPointer, this`frameCounter, buffer, sampleBuffer
      ensures Buffered()
      ensures !ok ==> c0 + n * blockAlign > |file| && frameCounter == old(frameCounter)
      ensures ok ==>
        && offset + numChannels == (f + 1) * numChannels <= sampleBuffer.Length
        && Cursor() == c0 + (f + 1) * blockAlign && c0 <= Cursor() <= |file|
        && frameCounter == old(frameCounter) + 1
      ensures ok ==> sampleBuffer[..offset + numChannels] == Samples(file[c0..Cursor()], bytesPerSample)
      ensures forall i :: offset + numChannels <= i < sampleBuffer.Length ==> sampleBuffer[i] == old(sampleBuffer[i])
    {
      MulMono(f + 1, n, numChannels);
      MulSucc(f, numChannels);
      FrameStart(f, numChannels, bytesPerSample, blockAlign);
      ok := ReadFrameAt(sampleBuffer, offset, f, c0);
      if !ok {
        MulMono(f + 1, n, blockAlign);
        return;
      }
      frameCounter := frameCounter + 1;
    }

    /** `getFramesRemaining`. */
    function FramesRemaining(): (r: int)
      reads this`numFrames, this`frameCounter
      ensures 0 <= frameCounter <= numFrames ==> 0 <= r <= numFrames
    {
      numFrames - frameCounter
    }

    /**
     * `readFrames` into an int array: up to `numFramesToRead` frames, fewer
     * when the data chunk's frames run out, each sample cast to int, stored
     * from index 0; the count read is returned. Fails when the file is not
     * open for reading or the file ends before the frames do.
     */
    method ReadFrames(sampleBuffer: array<int>, numFramesToRead: int) returns (r: WavResult<int>)
      requires Valid() && sampleBuffer != buffer
      requires Min(numFramesToRead, FramesRemaining()) * numChannels <= sampleBuffer.Length
      modifies this`position, this`bytesRead, this`bufferPointer, this`frameCounter, buffer, sampleBuffer
      ensures Valid()
      ensures r.Success? <==>
        old(ioState) == Reading && old(Cursor()) + Max(Min(numFramesToRead, old(FramesRemaining())), 0) * blockAlign <= |file|
      ensures r.Success? ==> r.value == Min(numFramesToRead, old(FramesRemaining()))
      ensures r.Success? ==> frameCounter == old(frameCounter) + Max(r.value, 0)
      ensures r.Success? ==> old(Cursor()) <= Cursor() <= |file|
      ensures r.Success? ==> Cursor() == old(Cursor()) + Max(r.value, 0) * blockAlign
      ensures r.Success? ==> Max(r.value, 0) * numChannels <= sampleBuffer.Length
      ensures r.Success? ==>
        sampleBuffer[..Max(r.value, 0) * numChannels] == Samples(file[old(Cursor())..Cursor()], bytesPerSample)
      ensures r.Success? ==>
        forall i :: Max(r.value, 0) * numChannels <= i < sampleBuffer.Length ==> sampleBuffer[i] == old(sampleBuffer[i])
    {
      if ioState != Reading {
        return Failure(NotReading);
      }
      r := ReadFramesLoop(sampleBuffer, numFramesToRead, Max(Min(numFramesToRead, FramesRemaining()), 0));
    }

    /**
     * The frame loop of `readFramesInternal`: `n` frames are read, `n` being
     * the smaller of `numFramesToRead` and the frames remaining (0 if negative).
     */
    method ReadFramesLoop(sampleBuffer: array<int>, numFramesToRead: int, ghost n: int) returns (r: WavResult<int>)
      requires Buffered() && sampleBuffer != buffer
      requires 1 <= bytesPerSample <= 8 && 1 <= numChannels && 1 <= blockAlign == bytesPerSample * numChannels
      requires 0 <= frameCounter <= numFrames
      requires n == Max(Min(numFramesToRead, numFrames - frameCounter), 0)
      requires n * numChannels <= sampleBuffer.Length
      modifies this`position, this`bytesRead, this`bufferPointer, this`frameCounter, buffer, sampleBuffer
      ensures Buffered() && 0 <= frameCounter <= numFrames
      ensures r.Success? <==> old(Cursor()) + n * blockAlign <= |file|
      ensures r.Success? ==> r.value == Min(numFramesToRead, numFrames - old(frameCounter)) && Max(r.value, 0) == n
      ensures r.Success? ==> frameCounter == old(frameCounter) + n
      ensures r.Success? ==> old(Cursor()) <= Cursor() == old(Cursor()) + n * blockAlign <= |file|
      ensures r.Success? ==> sampleBuffer[..n * numChannels] == Samples(file[old(Cursor())..Cursor()], bytesPerSample)
      ensures r.Success? ==> forall i :: n * numChannels <= i < sampleBuffer.Length ==> sampleBuffer[i] == old(sampleBuffer[i])
    {
      ghost var c0 := Cursor();
      ghost var nc, ba := numChannels, blockAlign;
      var offset := 0;
      var f := 0;
      while f < numFramesToRead
        invariant Buffered() && 0 <= frameCounter <= numFrames
        invariant numChannels == nc && blockAlign == ba
        invariant 0 <= f <= n && frameCounter == old(frameCounter) + f
        invariant offset == f * nc <= sampleBuffer.Length && Cursor() == c0 + f * ba
        invariant c0 <= Cursor() <= |file|
        invariant sampleBuffer[..offset] == Samples(file[c0..Cursor()], bytesPerSample)
        invariant forall i :: offset <= i < sampleBuffer.Length ==> sampleBuffer[i] == old(sampleBuffer[i])
      {
        if frameCounter == numFrames {
          assert f == n;
          return Success(f);
        }
        var ok := FrameTurn(sampleBuffer, offset, f, c0, n);
        if !ok {
          return Failure(EndOfData);
        }
        offset := offset + numChannels;
        f := f + 1;
      }
      assert f == n;
      r := Success(numFramesToRead);
    }

    /** `getDuration`: whole seconds of audio; a zero sample rate throws. */
    function Duration(): (r: WavResult<int>)
      reads this
      ensures r.Failure? <==> sampleRate == 0
      ensures r.Success? && 0 <= numFrames && 0 < sampleRate ==>
        r.value * sampleRate <= numFrames < (r.value + 1) * sampleRate
    {
      if sampleRate == 0 then Failure(DivideByZero) else Success(numFrames / sampleRate)
    }

    /** `close`: the input stream is closed and the file is no longer readable. */
    method Close()
      modifies this`streamOpen, this`ioState
      ensures !streamOpen && ioState == Closed
    {
      streamOpen := false;
      ioState := Closed;
    }
  }
}
