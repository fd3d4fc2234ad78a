/**
 * `DataSources`: the video and audio source lists of a transcoding after
 * selection. Every source is initialized up front; a track none of whose
 * sources carries it is dropped (its sources are kept aside to be
 * deinitialized on release); an audio list where only some sources carry
 * audio has the others replaced, in place, by silence of the same duration.
 *
 * A user source is seen through which tracks it has a format for, its
 * duration and its initialization state.
 */
module SourceSelection {
  import opened Common
  import opened BlankAudio
  import opened TrackResolution

  /** A caller-supplied `DataSource`. */
  class UserSource {
    const tracks: PerTrack<bool>
    const durationUs: int
    var initialized: bool
    var initializeCalls: nat
    var deinitializeCalls: nat

    constructor(tracks: PerTrack<bool>, durationUs: int)
      ensures this.tracks == tracks && this.durationUs == durationUs
      ensures !initialized && initializeCalls == 0 && deinitializeCalls == 0
    {
      this.tracks := tracks;
      this.durationUs := durationUs;
      initialized := false;
      initializeCalls := 0;
      deinitializeCalls := 0;
    }

    method Initialize()
      modifies this
      ensures initialized && initializeCalls == old(initializeCalls) + 1
      ensures deinitializeCalls == old(deinitializeCalls)
    {
      initialized := true;
      initializeCalls := initializeCalls + 1;
    }

    method Deinitialize()
      modifies this
      ensures !initialized && deinitializeCalls == old(deinitializeCalls) + 1
      ensures initializeCalls == old(initializeCalls)
    {
      initialized := false;
      deinitializeCalls := deinitializeCalls + 1;
    }
  }

  /** A selected source: the caller's, or a silent substitute. */
  datatype Source = User(user: UserSource) | Silence(blank: BlankAudioDataSource)

  function Obj(s: Source): object {
    match s
    case User(u) => u
    case Silence(b) => b
  }

  ghost function Objects(l: seq<Source>): set<object> {
    set s | s in l :: Obj(s)
  }

  /** `getTrackFormat(type) != null`. */
  predicate HasFormat(s: Source, t: TrackType)
    reads Obj(s)
  {
    match s
    case User(u) => u.tracks.Of(t)
    case Silence(b) => b.GetTrackFormat(t).Some?
  }

  /** `isInitialized`. */
  predicate Initialized(s: Source)
    reads Obj(s)
  {
    match s
    case User(u) => u.initialized
    case Silence(b) => b.initialized
  }

  /** Which sources of a list have a format for the track: what `Tracks` reads. */
  function Presence(l: seq<Source>, t: TrackType): (p: seq<bool>)
    reads Objects(l)
    ensures |p| == |l|
    ensures forall i :: 0 <= i < |l| ==> p[i] == HasFormat(l[i], t)
    decreases |l|
  {
    if |l| == 0 then []
    else
      var n := |l| - 1;
      assert Objects(l[..n]) <= Objects(l) by {
        forall s | s in l[..n]
          ensures s in l
        {
        }
      }
      assert l[n] in l;
      Presence(l[..n], t) + [HasFormat(l[n], t)]
  }

  /** The user sources that have no format for the track, in order. */
  function Lacking(list: seq<UserSource>, t: TrackType): (r: seq<UserSource>)
    ensures forall i :: 0 <= i < |r| ==> r[i] in list && !r[i].tracks.Of(t)
    ensures forall i :: 0 <= i < |list| && !list[i].tracks.Of(t) ==> list[i] in r
    decreases |list|
  {
    if |list| == 0 then []
    else
      var n := |list| - 1;
      assert forall i :: 0 <= i < n ==> list[..n][i] == list[i];
      Lacking(list[..n], t) + (if list[n].tracks.Of(t) then [] else [list[n]])
  }

  function CountWith(list: seq<UserSource>, t: TrackType): (n: nat)
    ensures n <= |list|
    ensures n == 0 <==> forall i :: 0 <= i < |list| ==> !list[i].tracks.Of(t)
    ensures n == |list| <==> forall i :: 0 <= i < |list| ==> list[i].tracks.Of(t)
    decreases |list|
  {
    if |list| == 0 then 0
    else
      var k := |list| - 1;
      CountWith(list[..k], t) + (if list[k].tracks.Of(t) then 1 else 0)
  }

  function AsSources(list: seq<UserSource>): (r: seq<Source>)
    ensures |r| == |list| && forall i :: 0 <= i < |list| ==> r[i] == User(list[i])
  {
    seq(|list|, i requires 0 <= i < |list| => User(list[i]))
  }

  /**
   * The video list: with no source carrying video the list is empty and
   * every source is discarded; otherwise the list is kept as it is, even
   * when only some sources carry video.
   */
  function SelectVideo(list: seq<UserSource>): (r: (seq<Source>, seq<UserSource>))
    ensures CountWith(list, Video) == 0 ==> r == ([], list)
    ensures CountWith(list, Video) > 0 ==> r == (AsSources(list), [])
  {
    if CountWith(list, Video) == 0 then ([], list) else (AsSources(list), [])
  }

  /** `init`: a source is initialized only if it is not already. */
  method InitAll(list: seq<UserSource>)
    modifies set u | u in list
    ensures forall u :: u in list ==>
      && u.initialized
      && u.initializeCalls == old(u.initializeCalls) + (if old(u.initialized) then 0 else 1)
      && u.deinitializeCalls == old(u.deinitializeCalls)
  {
    for i := 0 to |list|
      invariant forall u :: u in list[..i] ==>
        && u.initialized
        && u.initializeCalls == old(u.initializeCalls) + (if old(u.initialized) then 0 else 1)
        && u.deinitializeCalls == old(u.deinitializeCalls)
      invariant forall u :: u in list && u !in list[..i] ==>
        u.initialized == old(u.initialized) && u.initializeCalls == old(u.initializeCalls)
        && u.deinitializeCalls == old(u.deinitializeCalls)
    {
      assert list[..i + 1] == list[..i] + [list[i]];
      if !list[i].initialized {
        list[i].Initialize();
      }
    }
    assert list[..|list|] == list;
  }

  /**
   * The audio selection as written: no source with audio empties the list
   * and discards them all; all with audio keeps the list; otherwise each
   * source without audio is discarded and replaced, in place, by a new
   * silent source of its duration. The substitutes are created after the
   * sources were initialized and are never initialized themselves, so they
   * have no audio format.
   */
  method SelectAudioAsWritten(list: seq<UserSource>) returns (kept: seq<Source>, dropped: seq<UserSource>)
    ensures CountWith(list, Audio) == 0 ==> kept == [] && dropped == list
    ensures CountWith(list, Audio) == |list| ==> kept == AsSources(list) && dropped == []
    ensures 0 < CountWith(list, Audio) < |list| ==>
      && |kept| == |list| && dropped == Lacking(list, Audio)
      && forall i :: 0 <= i < |list| ==>
           (list[i].tracks.audio ==> kept[i] == User(list[i]))
           && (!list[i].tracks.audio ==>
                 kept[i].Silence? && fresh(kept[i].blank) && kept[i].blank.durationUs == list[i].durationUs
                 && !kept[i].blank.initialized && kept[i].blank.audioFormat == None)
  {
    var valid := CountWith(list, Audio);
    if valid == 0 {
      return [], list;
    }
    if valid == |list| {
      return AsSources(list), [];
    }
    kept, dropped := [], [];
    for i := 0 to |list|
      invariant |kept| == i && dropped == Lacking(list[..i], Audio)
      invariant forall j :: 0 <= j < i ==>
           (list[j].tracks.audio ==> kept[j] == User(list[j]))
           && (!list[j].tracks.audio ==>
                 kept[j].Silence? && fresh(kept[j].blank) && kept[j].blank.durationUs == list[j].durationUs
                 && !kept[j].blank.initialized && kept[j].blank.audioFormat == None)
    {
      assert list[..i + 1][..i] == list[..i];
      if list[i].tracks.audio {
        kept := kept + [User(list[i])];
      } else {
        var blank := new BlankAudioDataSource(list[i].durationUs);
        assert forall j :: 0 <= j < i && kept[j].Silence? ==> kept[j].blank != blank;
        kept := kept + [Silence(blank)];
        dropped := dropped + [list[i]];
      }
    }
    assert list[..|list|] == list;
  }

  /** The audio selection with every substitute initialized, so that it has its raw-audio format. */
  method SelectAudio(list: seq<UserSource>) returns (kept: seq<Source>, dropped: seq<UserSource>)
    ensures CountWith(list, Audio) == 0 ==> kept == [] && dropped == list
    ensures CountWith(list, Audio) == |list| ==> kept == AsSources(list) && dropped == []
    ensures 0 < CountWith(list, Audio) < |list| ==>
      && |kept| == |list| && dropped == Lacking(list, Audio)
      && forall i :: 0 <= i < |list| ==>
           (list[i].tracks.audio ==> kept[i] == User(list[i]))
           && (!list[i].tracks.audio ==>
                 kept[i].Silence? && fresh(kept[i].blank) && kept[i].blank.durationUs == list[i].durationUs
                 && kept[i].blank.initialized && kept[i].blank.audioFormat == Some(SilenceFormat())
                 && kept[i].blank.positionUs == 0)
  {
    var valid := CountWith(list, Audio);
    if valid == 0 {
      return [], list;
    }
    if valid == |list| {
      return AsSources(list), [];
    }
    kept, dropped := [], [];
    for i := 0 to |list|
      invariant |kept| == i && dropped == Lacking(list[..i], Audio)
      invariant forall j :: 0 <= j < i ==>
           (list[j].tracks.audio ==> kept[j] == User(list[j]))
           && (!list[j].tracks.audio ==>
                 kept[j].Silence? && fresh(kept[j].blank) && kept[j].blank.durationUs == list[j].durationUs
                 && kept[j].blank.initialized && kept[j].blank.audioFormat == Some(SilenceFormat())
                 && kept[j].blank.positionUs == 0)
    {
      assert list[..i + 1][..i] == list[..i];
      if list[i].tracks.audio {
        kept := kept + [User(list[i])];
      } else {
        var blank := new BlankAudioDataSource(list[i].durationUs);
        assert forall j :: 0 <= j < i && kept[j].Silence? ==> kept[j].blank != blank;
        blank.Initialize();
        kept := kept + [Silence(blank)];
        dropped := dropped + [list[i]];
      }
    }
    assert list[..|list|] == list;
  }

  /**
   * As written, a mixed audio list still reaches `Tracks` mixed: the
   * substitutes report no audio format, and track resolution fails.
   */
  lemma MixedAudioAsWrittenFails(list: seq<UserSource>, kept: seq<Source>, strategy: TrackStatus)
    requires 0 < CountWith(list, Audio) < |list|
    requires |kept| == |list|
    requires forall i :: 0 <= i < |list| ==>
      (list[i].tracks.audio ==> kept[i] == User(list[i]))
      && (!list[i].tracks.audio ==> kept[i].Silence? && kept[i].blank.audioFormat == None)
    ensures ResolveTrack(Audio, strategy, Some(Presence(kept, Audio))).Failure?
  {
    var p := Presence(kept, Audio);
    var i :| 0 <= i < |list| && list[i].tracks.audio;
    var j :| 0 <= j < |list| && !list[j].tracks.audio;
    assert kept[i] == User(list[i]) && HasFormat(kept[i], Audio);
    assert kept[j].Silence? && kept[j].blank.GetTrackFormat(Audio) == None;
    assert p[i] && !p[j];
  }

  /** With initialized substitutes, every source of a mixed audio list has audio and resolution succeeds. */
  lemma MixedAudioResolves(list: seq<UserSource>, kept: seq<Source>, strategy: TrackStatus)
    requires |list| > 0 && |kept| == |list|
    requires forall i :: 0 <= i < |list| ==>
      (list[i].tracks.audio ==> kept[i] == User(list[i]))
      && (!list[i].tracks.audio ==> kept[i].Silence? && kept[i].blank.audioFormat == Some(SilenceFormat()))
    ensures ResolveTrack(Audio, strategy, Some(Presence(kept, Audio))) == Success(Resolved(strategy, true))
  {
    var p := Presence(kept, Audio);
    assert forall i :: 0 <= i < |p| ==> p[i];
  }

  /** `distinct()`: first occurrences, in order. */
  function Distinct(l: seq<Source>): (r: seq<Source>)
    ensures forall i :: 0 <= i < |r| ==> r[i] in l
    ensures forall i :: 0 <= i < |l| ==> l[i] in r
    ensures forall i, j :: 0 <= i < j < |r| ==> r[i] != r[j]
    decreases |l|
  {
    if |l| == 0 then []
    else
      var n := |l| - 1;
      var init := Distinct(l[..n]);
      assert forall i :: 0 <= i < n ==> l[..n][i] == l[i];
      if l[n] in init then init else init + [l[n]]
  }

  /** `deinit` over a list: only initialized sources are deinitialized. */
  method DeinitAll(list: seq<Source>)
    modifies Objects(list)
    ensures forall s :: s in list ==> !Initialized(s)
    ensures forall s :: s in list && s.User? ==>
      s.user.deinitializeCalls == old(s.user.deinitializeCalls) + (if old(s.user.initialized) then 1 else 0)
      && s.user.initializeCalls == old(s.user.initializeCalls)
  {
    for i := 0 to |list|
      invariant forall s :: s in list[..i] ==> !Initialized(s)
      invariant forall s :: s in list[..i] && s.User? ==>
        s.user.deinitializeCalls == old(s.user.deinitializeCalls) + (if old(s.user.initialized) then 1 else 0)
        && s.user.initializeCalls == old(s.user.initializeCalls)
      invariant forall s :: s in list && s.User? && s !in list[..i] ==>
        s.user.initialized == old(s.user.initialized) && s.user.deinitializeCalls == old(s.user.deinitializeCalls)
        && s.user.initializeCalls == old(s.user.initializeCalls)
    {
      assert list[..i + 1] == list[..i] + [list[i]];
      assert Obj(list[i]) in Objects(list);
      match list[i]
      case User(u) =>
        if u.initialized {
          u.Deinitialize();
        }
      case Silence(b) =>
        if b.initialized {
          b.Deinitialize();
        }
    }
    assert list[..|list|] == list;
  }

  class DataSources {
    var video: seq<Source>
    var audio: seq<Source>
    var discarded: seq<Source>

    /**
     * Initializes every source not yet initialized (a source listed twice
     * once), then selects the video and the audio list; what a selection
     * drops is discarded, video first. The audio selection is the one as
     * written: the silent substitutes of a mixed list stay uninitialized, so
     * the list still reports audio only for the sources that had it.
     */
    constructor(videoIn: seq<UserSource>, audioIn: seq<UserSource>)
      modifies set u | u in videoIn + audioIn
      ensures forall u :: u in videoIn + audioIn ==>
        && u.initialized
        && u.initializeCalls == old(u.initializeCalls) + (if old(u.initialized) then 0 else 1)
      ensures video == SelectVideo(videoIn).0
      ensures CountWith(audioIn, Audio) == 0 ==> audio == []
      ensures CountWith(audioIn, Audio) == |audioIn| ==> audio == AsSources(audioIn)
      ensures 0 < CountWith(audioIn, Audio) < |audioIn| ==>
        && |audio| == |audioIn|
        && forall i :: 0 <= i < |audioIn| ==>
             (audioIn[i].tracks.audio ==> audio[i] == User(audioIn[i]))
             && (!audioIn[i].tracks.audio ==>
                   audio[i].Silence? && audio[i].blank.durationUs == audioIn[i].durationUs
                   && !audio[i].blank.initialized && audio[i].blank.audioFormat == None)
      ensures discarded == AsSources(SelectVideo(videoIn).1) + AsSources(
        if CountWith(audioIn, Audio) == 0 then audioIn
        else if CountWith(audioIn, Audio) == |audioIn| then []
        else Lacking(audioIn, Audio))
    {
      InitAll(videoIn);
      InitAll(audioIn);
      var (v, vDropped) := SelectVideo(videoIn);
      var a, aDropped := SelectAudioAsWritten(audioIn);
      video := v;
      audio := a;
      discarded := AsSources(vDropped) + AsSources(aDropped);
      new;
    }

    /** `get(type)`. */
    function Get(t: TrackType): (r: seq<Source>)
      reads this
      ensures t == Video ==> r == video
      ensures t == Audio ==> r == audio
    {
      match t
      case Audio => audio
      case Video => video
    }

    /** `has(type)`: the track's list is not empty. */
    predicate Has(t: TrackType)
      reads this
      ensures Has(t) <==> Get(t) != []
    {
      |Get(t)| > 0
    }

    /** `all()`: every selected source once, audio first. */
    function All(): (r: seq<Source>)
      reads this
      ensures forall i :: 0 <= i < |r| ==> r[i] in audio || r[i] in video
      ensures forall s :: s in audio + video ==> s in r
      ensures forall i, j :: 0 <= i < j < |r| ==> r[i] != r[j]
    {
      Distinct(audio + video)
    }

    /**
     * `release`: deinitializes the video list, the audio list and the
     * discarded sources, skipping any already deinitialized; a source in
     * several lists is deinitialized once.
     */
    method Release()
      modifies Objects(video) + Objects(audio) + Objects(discarded)
      ensures forall s :: s in video + audio + discarded ==> !Initialized(s)
      ensures forall s :: s in video + audio + discarded && s.User? ==>
        s.user.deinitializeCalls == old(s.user.deinitializeCalls) + (if old(s.user.initialized) then 1 else 0)
    {
      var all := video + audio + discarded;
      assert Objects(all) == Objects(video) + Objects(audio) + Objects(discarded);
      DeinitAll(all);
    }
  }
}
