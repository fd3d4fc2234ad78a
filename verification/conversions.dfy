/**
 * Conversions between PCM byte counts and microseconds for 16-bit audio
 * (two bytes per sample per channel).
 */
module Conversions {
  import opened Common

  const BYTES_PER_SAMPLE_PER_CHANNEL: int := 2
  const BYTES_PER_SHORT: int := 2
  const MICROSECONDS_PER_SECOND: int := 1_000_000

  /** Bytes per second of 16-bit audio with this rate and channel count. */
  function ByteRate(sampleRate: int, channels: int): int {
    sampleRate * BYTES_PER_SAMPLE_PER_CHANNEL * channels
  }

  /** `bytesToUs`: 1_000_000 * bytes / byteRate, with Long (truncating) division. */
  function BytesToUs(bytes: int, sampleRate: int, channels: int): int
    requires sampleRate > 0 && channels > 0
  {
    TruncDiv(MICROSECONDS_PER_SECOND * bytes, ByteRate(sampleRate, channels))
  }

  /** `bitRate`: bits per second. */
  function BitRate(sampleRate: int, channels: int): (r: int)
    ensures r == 8 * ByteRate(sampleRate, channels)
  {
    channels * sampleRate * BYTES_PER_SAMPLE_PER_CHANNEL * 8
  }

  /** `samplesToBytes`: one sample of every channel takes 2 * channels bytes. */
  function SamplesToBytes(samples: int, channels: int): (r: int)
    ensures channels > 0 && samples >= 0 ==> r >= samples
  {
    samples * (BYTES_PER_SAMPLE_PER_CHANNEL * channels)
  }

  /** The ceiling of a / b for b > 0 (what `ceil` of the exact quotient gives). */
  function CeilDiv(a: int, b: int): (q: int)
    requires b > 0
    ensures (q - 1) * b < a <= q * b
  {
    -((-a) / b)
  }

  /** `usToBytes`: ceil(us * byteRate / 1_000_000). */
  function UsToBytes(us: int, sampleRate: int, channels: int): int
    requires sampleRate > 0 && channels > 0
  {
    CeilDiv(us * ByteRate(sampleRate, channels), MICROSECONDS_PER_SECOND)
  }

  /** `shortsToUs`: a short is two bytes. */
  function ShortsToUs(shorts: int, sampleRate: int, channels: int): int
    requires sampleRate > 0 && channels > 0
  {
    BytesToUs(shorts * BYTES_PER_SHORT, sampleRate, channels)
  }

  /** `usToShorts`: the byte count halved with Int (truncating) division. */
  function UsToShorts(us: int, sampleRate: int, channels: int): int
    requires sampleRate > 0 && channels > 0
  {
    TruncDiv(UsToBytes(us, sampleRate, channels), BYTES_PER_SHORT)
  }

  /** The floor quotient bounds a non-negative numerator from below and above. */
  lemma DivBounds(a: int, b: int)
    requires a >= 0 && b > 0
    ensures (a / b) * b <= a < (a / b) * b + b
  {
  }

  /** `bytesToUs` of a non-negative count is the exact floor of 1e6 * bytes / byteRate. */
  lemma BytesToUsBounds(bytes: int, sampleRate: int, channels: int)
    requires sampleRate > 0 && channels > 0 && bytes >= 0
    ensures var us := BytesToUs(bytes, sampleRate, channels);
      us >= 0 &&
      us * ByteRate(sampleRate, channels) <= MICROSECONDS_PER_SECOND * bytes <
        (us + 1) * ByteRate(sampleRate, channels)
  {
    var rate := ByteRate(sampleRate, channels);
    assert rate > 0 by { PositiveProduct(sampleRate, channels); }
    DivBounds(MICROSECONDS_PER_SECOND * bytes, rate);
  }

  lemma PositiveProduct(sampleRate: int, channels: int)
    requires sampleRate > 0 && channels > 0
    ensures ByteRate(sampleRate, channels) >= 2
  {
    assert sampleRate * 2 >= 2;
    assert (sampleRate * 2) * channels >= sampleRate * 2;
  }

  /** Round trip one way: converting bytes to time and back never grows the count. */
  lemma BytesRoundTrip(bytes: int, sampleRate: int, channels: int)
    requires sampleRate > 0 && channels > 0 && bytes >= 0
    ensures UsToBytes(BytesToUs(bytes, sampleRate, channels), sampleRate, channels) <= bytes
  {
    var rate := ByteRate(sampleRate, channels);
    var us := BytesToUs(bytes, sampleRate, channels);
    BytesToUsBounds(bytes, sampleRate, channels);
    var b := UsToBytes(us, sampleRate, channels);
    assert (b - 1) * MICROSECONDS_PER_SECOND < us * rate;
    assert (b - 1) * MICROSECONDS_PER_SECOND < MICROSECONDS_PER_SECOND * bytes;
  }

  /** Multiplying by a positive factor keeps a strict order in both directions. */
  lemma MulStrictCancel(x: int, y: int, r: int)
    requires r > 0 && x * r < y * r
    ensures x < y
  {
  }

  /** Floor division by a positive divisor is monotone in the numerator. */
  lemma DivMonotone(a: int, c: int, r: int)
    requires 0 <= a <= c && r > 0
    ensures a / r <= c / r
  {
    DivBounds(a, r);
    DivBounds(c, r);
    assert (a / r) * r < (c / r + 1) * r;
    MulStrictCancel(a / r, c / r + 1, r);
  }

  /** Round trip the other way: converting time to bytes and back never loses time. */
  lemma UsRoundTrip(us: int, sampleRate: int, channels: int)
    requires sampleRate > 0 && channels > 0 && us >= 0
    ensures BytesToUs(UsToBytes(us, sampleRate, channels), sampleRate, channels) >= us
  {
    var rate := ByteRate(sampleRate, channels);
    assert rate > 0 by { PositiveProduct(sampleRate, channels); }
    var b := UsToBytes(us, sampleRate, channels);
    var scaled := us * rate;
    assert scaled >= 0;
    assert scaled <= b * MICROSECONDS_PER_SECOND;
    DivMonotone(scaled, MICROSECONDS_PER_SECOND * b, rate);
    DivBounds(scaled, rate);
    assert scaled / rate == us by {
      var q := scaled / rate;
      assert q * rate <= us * rate < q * rate + rate;
      MulStrictCancel(q, us + 1, rate);
      MulStrictCancel(us, q + 1, rate);
    }
  }

  /** `bytesToUs` never decreases as the byte count grows. */
  lemma BytesToUsMonotone(b1: int, b2: int, sampleRate: int, channels: int)
    requires sampleRate > 0 && channels > 0 && 0 <= b1 <= b2
    ensures BytesToUs(b1, sampleRate, channels) <= BytesToUs(b2, sampleRate, channels)
  {
    var rate := ByteRate(sampleRate, channels);
    assert rate > 0 by { PositiveProduct(sampleRate, channels); }
    DivMonotone(MICROSECONDS_PER_SECOND * b1, MICROSECONDS_PER_SECOND * b2, rate);
  }

  /** `shortsToUs` and `usToShorts` are the byte conversions scaled by two bytes per short. */
  lemma ShortConversions(n: int, us: int, sampleRate: int, channels: int)
    requires sampleRate > 0 && channels > 0 && us >= 0
    ensures ShortsToUs(n, sampleRate, channels) == BytesToUs(2 * n, sampleRate, channels)
    ensures UsToShorts(us, sampleRate, channels) == UsToBytes(us, sampleRate, channels) / 2
  {
    var rate := ByteRate(sampleRate, channels);
    assert rate > 0 by { PositiveProduct(sampleRate, channels); }
    assert us * rate >= 0;
  }
}
