/**
 * `Tracks`: decides, once, the status of the video and audio tracks from
 * which sources carry each track, the track strategies' answers, the video
 * rotation and `forceCompression`.
 *
 * A source is seen only through whether `getTrackFormat(type)` is non-null.
 * A strategy's `createOutputFormat` is opaque; its answer is given as a
 * `TrackStatus`.
 */
module TrackResolution {
  import opened Common

  /** What `resolveTrack` returns: the status and whether the format came from the strategy. */
  datatype Resolved = Resolved(status: TrackStatus, formatFromStrategy: bool)

  /** How many of the sources have the track. */
  function CountPresent(present: seq<bool>): (n: nat)
    ensures n <= |present|
    ensures n == 0 <==> forall i :: 0 <= i < |present| ==> !present[i]
    ensures n == |present| <==> forall i :: 0 <= i < |present| ==> present[i]
  {
    if |present| == 0 then 0
    else
      var rest := CountPresent(present[1..]);
      assert forall i :: 1 <= i < |present| ==> present[i] == present[1..][i - 1];
      (if present[0] then 1 else 0) + rest
  }

  function TrackName(t: TrackType): string {
    match t
    case Video => "VIDEO"
    case Audio => "AUDIO"
  }

  /**
   * `resolveTrack`: a missing source list, or no source with the track, is
   * ABSENT; all sources with the track take the strategy's status; a mix is
   * an error.
   */
  function ResolveTrack(t: TrackType, strategyStatus: TrackStatus, sources: Option<seq<bool>>): (r: Result<Resolved>)
    ensures sources.None? ==> r == Success(Resolved(Absent, false))
    ensures sources.Some? ==>
      var p := sources.value;
      && ((forall i :: 0 <= i < |p| ==> !p[i]) ==> r == Success(Resolved(Absent, false)))
      && (|p| > 0 && (forall i :: 0 <= i < |p| ==> p[i]) ==> r == Success(Resolved(strategyStatus, true)))
      && (r.Failure? <==> (exists i :: 0 <= i < |p| && p[i]) && (exists i :: 0 <= i < |p| && !p[i]))
  {
    match sources
    case None => Success(Resolved(Absent, false))
    case Some(present) =>
      var inputs := CountPresent(present);
      if inputs == 0 then Success(Resolved(Absent, false))
      else if inputs == |present| then Success(Resolved(strategyStatus, true))
      else Failure("Of all " + TrackName(t) + " sources, some have a " + TrackName(t) + " track, some don't.")
  }

  /** `resolveVideoStatus`: pass-through becomes compressing when forced or when the video is rotated. */
  function ResolveVideoStatus(status: TrackStatus, forceCompression: bool, rotation: int): (r: TrackStatus)
    ensures status != PassThrough ==> r == status
    ensures status == PassThrough ==> (r == Compressing <==> forceCompression || rotation != 0)
    ensures r == status || r == Compressing
  {
    var force := forceCompression || rotation != 0;
    var canForce := status == PassThrough;
    if canForce && force then Compressing else status
  }

  /** `resolveAudioStatus`: pass-through becomes compressing only when forced. */
  function ResolveAudioStatus(status: TrackStatus, forceCompression: bool): (r: TrackStatus)
    ensures status != PassThrough ==> r == status
    ensures status == PassThrough ==> (r == Compressing <==> forceCompression)
    ensures r == status || r == Compressing
  {
    var canForce := status == PassThrough;
    if canForce && forceCompression then Compressing else status
  }

  /** The outcome of constructing `Tracks`: every status and the transcoding ones. */
  datatype Tracks = Tracks(all: PerTrack<TrackStatus>, formatFromStrategy: PerTrack<bool>) {
    /** `active`: a track's status when it is transcoding, null otherwise. */
    function Active(t: TrackType): (r: Option<TrackStatus>)
      ensures r.Some? <==> all.Of(t).IsTranscoding()
      ensures r.Some? ==> r.value == all.Of(t)
    {
      if all.Of(t).IsTranscoding() then Some(all.Of(t)) else None
    }

    predicate HasActive(t: TrackType) {
      Active(t).Some?
    }
  }

  /**
   * The constructor: audio is resolved before video, so a mixed audio list
   * is the error reported when both lists are mixed.
   */
  function NewTracks(strategies: PerTrack<TrackStatus>, sources: PerTrack<Option<seq<bool>>>,
                     videoRotation: int, forceCompression: bool): (r: Result<Tracks>)
    ensures r.Failure? <==>
      (ResolveTrack(Audio, strategies.audio, sources.audio).Failure? ||
       ResolveTrack(Video, strategies.video, sources.video).Failure?)
    ensures ResolveTrack(Audio, strategies.audio, sources.audio).Failure? ==>
      r == Failure(ResolveTrack(Audio, strategies.audio, sources.audio).error)
    ensures r.Success? ==>
      && r.value.all.video == ResolveVideoStatus(ResolveTrack(Video, strategies.video, sources.video).value.status,
                                                 forceCompression, videoRotation)
      && r.value.all.audio == ResolveAudioStatus(ResolveTrack(Audio, strategies.audio, sources.audio).value.status,
                                                 forceCompression)
  {
    var audio := ResolveTrack(Audio, strategies.audio, sources.audio);
    if audio.Failure? then Failure(audio.error)
    else
      var video := ResolveTrack(Video, strategies.video, sources.video);
      if video.Failure? then Failure(video.error)
      else
        Success(Tracks(
          PerTrack(ResolveVideoStatus(video.value.status, forceCompression, videoRotation),
                   ResolveAudioStatus(audio.value.status, forceCompression)),
          PerTrack(video.value.formatFromStrategy, audio.value.formatFromStrategy)))
  }

  /** A track with no sources, or none carrying it, is never active whatever the options. */
  lemma AbsentNeverActive(strategies: PerTrack<TrackStatus>, sources: PerTrack<Option<seq<bool>>>,
                          videoRotation: int, forceCompression: bool, t: TrackType)
    requires NewTracks(strategies, sources, videoRotation, forceCompression).Success?
    requires sources.Of(t).None? || forall i :: 0 <= i < |sources.Of(t).value| ==> !sources.Of(t).value[i]
    ensures !NewTracks(strategies, sources, videoRotation, forceCompression).value.HasActive(t)
  {
  }

  /** Forcing never turns a transcoding track off or an idle one on: it only changes how it is transcoded. */
  lemma ForcingKeepsActivity(status: TrackStatus, forceCompression: bool, rotation: int)
    ensures ResolveVideoStatus(status, forceCompression, rotation).IsTranscoding() <==> status.IsTranscoding()
    ensures ResolveAudioStatus(status, forceCompression).IsTranscoding() <==> status.IsTranscoding()
  {
  }
}
