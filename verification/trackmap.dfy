/**
 * `TrackMap`: one optional value per track type. The value form is what
 * `trackMapOf` returns; `MutableTrackMap` is the cell that `mutableTrackMapOf`
 * returns, whose `set` and `reset` overwrite the slots in place.
 */
module TrackMaps {
  import opened Common

  datatype TrackMap<T> = TrackMap(video: Option<T>, audio: Option<T>) {

    /** The backing map's entry for `t`; `None` stands for Kotlin's null. */
    function Slot(t: TrackType): Option<T> {
      match t
      case Video => video
      case Audio => audio
    }

    /** `has(type)`: the stored value is not null. */
    predicate Has(t: TrackType) {
      Slot(t).Some?
    }

    /** `get(type)`: `requireNotNull` throws on a null slot. */
    function Get(t: TrackType): (r: Result<T>)
      ensures r.Success? <==> Has(t)
      ensures r.Success? ==> Slot(t) == Some(r.value)
    {
      match Slot(t)
      case Some(v) => Success(v)
      case None => Failure("Required value was null.")
    }

    /** `getOrNull(type)`. */
    function GetOrNull(t: TrackType): (r: Option<T>)
      ensures r == Slot(t)
    {
      if Has(t) then Some(Get(t).value) else None
    }

    /** The iterator's elements: the non-null values, video before audio. */
    function Values(): seq<T> {
      (if Has(Video) then [video.value] else []) + (if Has(Audio) then [audio.value] else [])
    }

    /** `size`: how many values the iterator yields. */
    function Size(): nat {
      |Values()|
    }

    /** `set(type, value)` on the backing map. */
    function Set(t: TrackType, v: Option<T>): (m: TrackMap<T>)
      ensures m.Slot(t) == v
      ensures m.Slot(Other(t)) == Slot(Other(t))
    {
      match t
      case Video => TrackMap(v, audio)
      case Audio => TrackMap(video, v)
    }
  }

  /** `size` counts exactly the non-null slots. */
  lemma SizeCountsPresent<T>(m: TrackMap<T>)
    ensures m.Size() == (if m.Has(Video) then 1 else 0) + (if m.Has(Audio) then 1 else 0)
  {
  }

  /** The iterator yields the video value first and the audio value last. */
  lemma ValuesOrder<T>(m: TrackMap<T>)
    ensures m.Has(Video) ==> m.Values()[0] == m.video.value
    ensures m.Has(Audio) ==> m.Values()[|m.Values()| - 1] == m.audio.value
    ensures forall x :: x in m.Values() ==> Some(x) == m.video || Some(x) == m.audio
  {
  }

  /** `reset(video, audio)` is `set(VIDEO, video)` followed by `set(AUDIO, audio)`. */
  function Reset<T>(m: TrackMap<T>, video: Option<T>, audio: Option<T>): (r: TrackMap<T>)
    ensures r == TrackMap(video, audio)
  {
    m.Set(Video, video).Set(Audio, audio)
  }

  /** `DefaultTrackMap` used mutably: the slots are overwritten in place. */
  class MutableTrackMap<T> {
    var contents: TrackMap<T>

    constructor(video: Option<T>, audio: Option<T>)
      ensures contents == TrackMap(video, audio)
    {
      contents := TrackMap(video, audio);
    }

    method Set(t: TrackType, v: Option<T>)
      modifies this
      ensures contents.Slot(t) == v
      ensures contents.Slot(Other(t)) == old(contents).Slot(Other(t))
    {
      contents := contents.Set(t, v);
    }

    /** `reset` in place: the new contents are `Reset` of the old. */
    method ResetBoth(video: Option<T>, audio: Option<T>)
      modifies this
      ensures contents == Reset(old(contents), video, audio)
    {
      Set(Video, video);
      Set(Audio, audio);
    }

    method Get(t: TrackType) returns (r: Result<T>)
      ensures r.Success? <==> contents.Has(t)
      ensures r.Success? ==> contents.Slot(t) == Some(r.value)
    {
      r := contents.Get(t);
    }
  }
}
