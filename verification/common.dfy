/**
 * Types shared by the whole model: optional values, results with an error
 * message (the model of a thrown exception), the two track kinds, the track
 * statuses, and the Java/Kotlin integer operators that differ from Dafny's.
 */
module Common {

  datatype Option<T> = None | Some(value: T)

  /** The outcome of an operation that may throw: `Failure` carries what was thrown. */
  datatype Outcome<T, E> = Success(value: T) | Failure(error: E)

  /** An outcome whose failure carries the exception's message. */
  type Result<T> = Outcome<T, string>

  /** `TrackType`: a transcoding job has at most one video and one audio track. */
  datatype TrackType = Video | Audio

  function Other(t: TrackType): (o: TrackType)
    ensures o != t
  {
    match t
    case Video => Audio
    case Audio => Video
  }

  /** A value for each track type, both always present (a `TrackMap` whose slots are never null). */
  datatype PerTrack<T> = PerTrack(video: T, audio: T) {
    function Of(t: TrackType): T {
      match t
      case Video => video
      case Audio => audio
    }

    /** `set(type, value)`: only that track's value changes. */
    function With(t: TrackType, v: T): (r: PerTrack<T>)
      ensures r.Of(t) == v && r.Of(Other(t)) == Of(Other(t))
    {
      match t
      case Video => PerTrack(v, audio)
      case Audio => PerTrack(video, v)
    }
  }

  /** `TrackStatus`, resolved once per track. */
  datatype TrackStatus = Absent | Removing | PassThrough | Compressing {
    /** A track is transcoding when it is read and written: pass-through or compressing. */
    predicate IsTranscoding() {
      PassThrough? || Compressing?
    }
  }

  /** An opaque media format; only its mime type is ever inspected. */
  datatype Format = Format(mime: string)

  const LONG_MAX: int := 0x7FFF_FFFF_FFFF_FFFF
  const LONG_MIN: int := -0x8000_0000_0000_0000

  /** Java/Kotlin integer division, which truncates toward zero. */
  function TruncDiv(a: int, b: int): (q: int)
    requires b != 0
    ensures 0 <= a && 0 < b ==> q == a / b
    ensures q * b == a - TruncRem(a, b)
  {
    if (a >= 0) == (b > 0) then Abs(a) / Abs(b) else -(Abs(a) / Abs(b))
  }

  /** The remainder that goes with `TruncDiv`: it has the sign of `a`. */
  function TruncRem(a: int, b: int): (r: int)
    requires b != 0
  {
    if a >= 0 then Abs(a) % Abs(b) else -(Abs(a) % Abs(b))
  }

  function Abs(x: int): nat {
    if x < 0 then -x else x
  }

  /** Java's wrap-around of an int result to 32 bits. */
  function Wrap32(x: int): (r: int)
    ensures -0x8000_0000 <= r < 0x8000_0000
    ensures (r - x) % 0x1_0000_0000 == 0
  {
    var m := x % 0x1_0000_0000;
    if m >= 0x8000_0000 then m - 0x1_0000_0000 else m
  }

  /** The Java cast `(short) x` of an int. */
  function ToShort(x: int): (r: int)
    ensures -0x8000 <= r < 0x8000
    ensures (r - x) % 0x1_0000 == 0
  {
    var m := x % 0x1_0000;
    if m >= 0x8000 then m - 0x1_0000 else m
  }

  /** The last element of a non-empty sequence. */
  function Last<T>(xs: seq<T>): T
    requires |xs| > 0
  {
    xs[|xs| - 1]
  }

  function Min(a: int, b: int): int {
    if a <= b then a else b
  }

  function Max(a: int, b: int): int {
    if a >= b then a else b
  }

  /** Multiplying by a non-negative factor keeps the order. */
  lemma MulMono(x: int, y: int, c: int)
    requires x <= y && c >= 0
    ensures x * c <= y * c
  {
  }

  /** The concatenation of a sequence of sequences, in order. */
  function Flatten(p: seq<seq<int>>): seq<int> {
    if |p| == 0 then [] else Flatten(p[..|p| - 1]) + p[|p| - 1]
  }

  lemma FlattenSnoc(p: seq<seq<int>>, x: seq<int>)
    ensures Flatten(p + [x]) == Flatten(p) + x
  {
    assert (p + [x])[..|p|] == p;
  }

  lemma {:induction false} FlattenCons(x: seq<int>, p: seq<seq<int>>)
    ensures Flatten([x] + p) == x + Flatten(p)
    decreases |p|
  {
    if |p| == 0 {
      assert [x] + p == [] + [x];
      FlattenSnoc([], x);
    } else {
      var q, y := p[..|p| - 1], p[|p| - 1];
      assert [x] + p == ([x] + q) + [y];
      assert q + [y] == p;
      FlattenSnoc([x] + q, y);
      FlattenCons(x, q);
      FlattenSnoc(q, y);
    }
  }
}
