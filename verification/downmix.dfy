/**
 * `DownMixAudioRemixer`: stereo to mono with Viktor Toth's mixing equations.
 * Each pair of input shorts (left, right) becomes one output short.
 *
 * The sample formula is given twice: `DownMixAsWritten` follows the Java
 * code, whose `a * b` is 32-bit `int` arithmetic and whose clamp only
 * catches m == 65536, and is what `Remix` writes; `DownMixSample` is the
 * evidently intended formula (exact product, m clamped to 65535).
 */
module DownMixRemixer {
  import opened Common
  import opened Buffers

  const SIGNED_SHORT_LIMIT: int := 32768
  const UNSIGNED_SHORT_MAX: int := 65535

  /** The unsigned mix m of two samples, computed with the product `prod` of their unsigned forms. */
  function Mix(a: int, b: int, prod: int): int {
    if a < SIGNED_SHORT_LIMIT || b < SIGNED_SHORT_LIMIT then
      TruncDiv(prod, SIGNED_SHORT_LIMIT)
    else
      2 * (a + b) - TruncDiv(prod, SIGNED_SHORT_LIMIT) - UNSIGNED_SHORT_MAX
  }

  /** One output sample as the Java code computes it: `a * b` wraps to 32 bits, only 65536 is clamped. */
  function DownMixAsWritten(left: int, right: int): (r: int)
    ensures IsShort(r)
  {
    var a := left + SIGNED_SHORT_LIMIT;
    var b := right + SIGNED_SHORT_LIMIT;
    var m := Wrap32(Mix(a, b, Wrap32(a * b)));
    var m' := if m == UNSIGNED_SHORT_MAX + 1 then UNSIGNED_SHORT_MAX else m;
    ToShort(m' - SIGNED_SHORT_LIMIT)
  }

  /** One output sample with the product computed exactly and m clamped to the unsigned short range. */
  function DownMixSample(left: int, right: int): int {
    var a := left + SIGNED_SHORT_LIMIT;
    var b := right + SIGNED_SHORT_LIMIT;
    var m := Mix(a, b, a * b);
    var m' := if m > UNSIGNED_SHORT_MAX then UNSIGNED_SHORT_MAX else m;
    m' - SIGNED_SHORT_LIMIT
  }

  /**
   * Two full-scale positive samples mix to the most negative short as
   * written: 65535 * 65535 overflows `int`, the quotient turns negative and
   * m lands far above 65536.
   */
  lemma LoudPairWrapsAround()
    ensures DownMixAsWritten(32767, 32767) == -32768
    ensures DownMixSample(32767, 32767) == 32767
  {
    assert Wrap32(65535 * 65535) == -131071;
    assert TruncDiv(-131071, 32768) == -3;
    assert Wrap32(Mix(65535, 65535, -131071)) == 196608;
    assert ToShort(196608 - 32768) == -32768;
    assert Mix(65535, 65535, 65535 * 65535) == 65537;
  }

  /** The floor quotient of a non-negative product by 32768 bounds it from below and above. */
  lemma QuotientBounds(p: int)
    requires p >= 0
    ensures 0 <= p / 32768 && (p / 32768) * 32768 <= p < (p / 32768 + 1) * 32768
  {
  }

  /** Two quiet samples never mix louder than the quieter one; the result is a short. */
  lemma QuietPairStaysQuiet(left: int, right: int)
    requires IsShort(left) && IsShort(right) && left < 0 && right < 0
    ensures var r := DownMixSample(left, right); IsShort(r) && r <= Min(left, right)
  {
    var a := left + 32768;
    var b := right + 32768;
    ProductBounds(a, b);
    QuotientBounds(a * b);
  }

  /** The product of two quiet unsigned samples is bounded by 32768 times either. */
  lemma ProductBounds(a: int, b: int)
    requires 0 <= a < 32768 && 0 <= b < 32768
    ensures 0 <= a * b <= a * 32768 && a * b <= 32768 * b
  {
    ProductNonNegative(a, b);
    ProductNonNegative(a, 32768 - b);
    ProductNonNegative(32768 - a, b);
  }

  lemma ProductNonNegative(x: int, y: int)
    requires 0 <= x && 0 <= y
    ensures 0 <= x * y
  {
  }

  /** Floor division is determined by the bracketing multiples. */
  lemma DivUnique(n: int, c: int)
    requires c * 32768 <= n < (c + 1) * 32768
    ensures n / 32768 == c
  {
  }

  /** The product of two loud unsigned samples, split around the 32768 * 32768 term. */
  lemma LoudExpansion(p: int, s: int)
    ensures (32768 + p) * (32768 + s) == 32768 * (32768 + p + s) + p * s
  {
  }

  /** A numerator at most 32768 * s has a quotient at most s. */
  lemma QuotientAtMost(n: int, s: int)
    requires 0 <= n <= 32768 * s
    ensures n / 32768 <= s
  {
    QuotientBounds(n);
  }

  /** The part of the quotient contributed by p * s is at most min(p, s). */
  lemma CrossTermBound(p: int, s: int)
    requires 0 <= p < 32768 && 0 <= s < 32768
    ensures 0 <= (p * s) / 32768 <= s && (p * s) / 32768 <= p
  {
    MulMono(p, 32768, s);
    MulMono(s, 32768, p);
    QuotientAtMost(p * s, s);
    QuotientAtMost(s * p, p);
  }

  /** Adding a multiple of 32768 to a non-negative numerator adds its factor to the quotient. */
  lemma ShiftedQuotient(k: int, x: int)
    requires x >= 0
    ensures (32768 * k + x) / 32768 == k + x / 32768
  {
    QuotientBounds(x);
    DivUnique(32768 * k + x, k + x / 32768);
  }

  lemma LoudProduct(p: int, s: int)
    requires 0 <= p < 32768 && 0 <= s < 32768
    ensures 0 <= (p * s) / 32768 <= s && (p * s) / 32768 <= p
    ensures ((32768 + p) * (32768 + s)) / 32768 == 32768 + p + s + (p * s) / 32768
  {
    LoudExpansion(p, s);
    CrossTermBound(p, s);
    assert p * s >= 0;
    ShiftedQuotient(32768 + p + s, p * s);
  }

  /** Two loud samples never mix quieter than the louder one; the result is a short. */
  lemma LoudPairStaysLoud(left: int, right: int)
    requires IsShort(left) && IsShort(right) && left >= 0 && right >= 0
    ensures var r := DownMixSample(left, right); IsShort(r) && r >= Max(left, right)
  {
    var a := left + 32768;
    var b := right + 32768;
    LoudProduct(left, right);
    var t := (left * right) / 32768;
    assert Mix(a, b, a * b) == 32769 + left + right - t;
  }

  /** `getRemixedSize`: one output short per two input shorts, with Java's truncating division. */
  function GetRemixedSize(inputSize: int): (r: int)
    ensures inputSize >= 0 ==> 2 * r <= inputSize < 2 * r + 2
  {
    TruncDiv(inputSize, 2)
  }

  /**
   * `remix`: mixes min(input.remaining / 2, output.remaining) pairs, reading
   * two shorts and writing one per pair; nothing else in `output` changes.
   */
  method Remix(input: Buffer, output: Buffer)
    requires input.Valid() && output.Valid() && input != output && input.data != output.data
    modifies input, output, output.data
    ensures input.Valid() && output.Valid() && unchanged(input.data)
    ensures var k := Min(old(input.Remaining()) / 2, old(output.Remaining()));
      input.position == old(input.position) + 2 * k && output.position == old(output.position) + k
    ensures input.limit == old(input.limit) && output.limit == old(output.limit)
    ensures forall j :: old(output.position) <= j < output.position ==>
      output.data[j] == DownMixAsWritten(input.data[old(input.position) + 2 * (j - old(output.position))],
                                      input.data[old(input.position) + 2 * (j - old(output.position)) + 1])
    ensures forall j :: 0 <= j < output.data.Length && !(old(output.position) <= j < output.position) ==>
      output.data[j] == old(output.data[j])
  {
    var inRemaining := (input.limit - input.position) / 2;
    var outSpace := output.limit - output.position;
    var samplesToBeProcessed := Min(inRemaining, outSpace);
    ghost var in0, out0 := input.position, output.position;
    var i := 0;
    while i < samplesToBeProcessed
      invariant 0 <= i <= samplesToBeProcessed
      invariant input.Valid() && output.Valid() && unchanged(input.data)
      invariant input.position == in0 + 2 * i && output.position == out0 + i
      invariant input.limit == old(input.limit) && output.limit == old(output.limit)
      invariant forall j :: out0 <= j < out0 + i ==>
        output.data[j] == DownMixAsWritten(input.data[in0 + 2 * (j - out0)], input.data[in0 + 2 * (j - out0) + 1])
      invariant forall j :: 0 <= j < output.data.Length && !(out0 <= j < out0 + i) ==>
        output.data[j] == old(output.data[j])
    {
      var left := input.Get();
      var right := input.Get();
      output.Put(DownMixAsWritten(left, right));
      i := i + 1;
    }
  }
}
