/** The stream-level record and `MediaStreamConstraintsBuilder`. */
module MediaStream {
  import opened Wrappers
  import opened Constrains
  import AudioTrack
  import VideoTrack
  import Values

  /** `MediaStreamConstraints`: an optional audio track record and an
      optional video track record. An absent track is not requested. */
  datatype MediaStreamConstraints = MediaStreamConstraints(
    audio: Option<AudioTrack.AudioTrackConstraints>,
    video: Option<VideoTrack.VideoTrackConstraints>)

  /** `MediaStreamConstraints()`: neither track requested. */
  function NoTracks(): MediaStreamConstraints {
    MediaStreamConstraints(None, None)
  }

  /** `audio { ... }`: the block runs on the existing audio record, or on an
      empty one if there is none, and the result becomes the audio record;
      the video record is not touched. */
  function ConfigureAudio(m: MediaStreamConstraints, build: seq<AudioTrack.AudioOp>): (r: MediaStreamConstraints)
    ensures r.video == m.video && r.audio.Some?
    ensures m.audio.Some? ==> r.audio.value == AudioTrack.RunAudio(m.audio.value, build)
    ensures m.audio.None? ==> r.audio.value == AudioTrack.RunAudio(AudioTrack.Empty(), build)
  {
    m.(audio := Some(AudioTrack.RunAudio(m.audio.GetOr(AudioTrack.Empty()), build)))
  }

  /** `audio(enabled)`: `audio { }` when enabled, otherwise nothing. */
  function EnableAudio(m: MediaStreamConstraints, enabled: bool): (r: MediaStreamConstraints)
    ensures !enabled ==> r == m
    ensures m.audio.Some? ==> r == m
    ensures enabled && m.audio.None? ==> r == m.(audio := Some(AudioTrack.Empty()))
  {
    if enabled then ConfigureAudio(m, []) else m
  }

  /** `video { ... }`: as `ConfigureAudio`, for the video record. */
  function ConfigureVideo(m: MediaStreamConstraints, build: seq<VideoTrack.VideoOp>): (r: MediaStreamConstraints)
    ensures r.audio == m.audio && r.video.Some?
    ensures m.video.Some? ==> r.video.value == VideoTrack.RunVideo(m.video.value, build)
    ensures m.video.None? ==> r.video.value == VideoTrack.RunVideo(VideoTrack.Empty(), build)
  {
    m.(video := Some(VideoTrack.RunVideo(m.video.GetOr(VideoTrack.Empty()), build)))
  }

  /** `video(enabled)`: `video { }` when enabled, otherwise nothing. */
  function EnableVideo(m: MediaStreamConstraints, enabled: bool): (r: MediaStreamConstraints)
    ensures !enabled ==> r == m
    ensures m.video.Some? ==> r == m
    ensures enabled && m.video.None? ==> r == m.(video := Some(VideoTrack.Empty()))
  {
    if enabled then ConfigureVideo(m, []) else m
  }

  /** Successive `audio { ... }` blocks accumulate: the second starts from
      the record the first left, as if their calls formed one block. */
  lemma AudioBlocksAccumulate(m: MediaStreamConstraints, first: seq<AudioTrack.AudioOp>, second: seq<AudioTrack.AudioOp>)
    ensures ConfigureAudio(ConfigureAudio(m, first), second) == ConfigureAudio(m, first + second)
  {
    AudioTrack.RunAudioConcat(m.audio.GetOr(AudioTrack.Empty()), first, second);
  }

  /** Successive `video { ... }` blocks accumulate in the same way. */
  lemma VideoBlocksAccumulate(m: MediaStreamConstraints, first: seq<VideoTrack.VideoOp>, second: seq<VideoTrack.VideoOp>)
    ensures ConfigureVideo(ConfigureVideo(m, first), second) == ConfigureVideo(m, first + second)
  {
    VideoTrack.RunVideoConcat(m.video.GetOr(VideoTrack.Empty()), first, second);
  }

  /** An `audio { ... }` block keeps every attribute of an existing audio
      record that none of its calls writes. */
  lemma AudioBlockKeepsUnwritten(m: MediaStreamConstraints, build: seq<AudioTrack.AudioOp>, f: AudioTrack.AudioField)
    requires m.audio.Some?
    requires forall j :: 0 <= j < |build| ==> build[j].Field() != f
    ensures AudioTrack.AgreeOn(ConfigureAudio(m, build).audio.value, m.audio.value, f)
  {
    AudioTrack.RunAudioOn(m.audio.value, build, f);
  }

  /** A `video { ... }` block keeps every attribute of an existing video
      record that none of its calls writes: setting `width` in one block and
      `height` in a later one leaves both set. */
  lemma VideoBlockKeepsUnwritten(m: MediaStreamConstraints, build: seq<VideoTrack.VideoOp>, f: VideoTrack.VideoField)
    requires m.video.Some?
    requires forall j :: 0 <= j < |build| ==> build[j].Field() != f
    ensures VideoTrack.AgreeOn(ConfigureVideo(m, build).video.value, m.video.value, f)
  {
    VideoTrack.RunVideoOn(m.video.value, build, f);
  }

  /** Enabling audio and configuring a 1280 by 720 video track yields an
      empty audio record and a video record with exactly those two
      attributes, each as an `exact` value. */
  lemma CameraAndMicrophone()
    ensures ConfigureVideo(EnableAudio(NoTracks(), true),
                           [VideoTrack.SetWidth([Exact(1280)]), VideoTrack.SetHeight([Exact(720)])])
         == MediaStreamConstraints(
              Some(AudioTrack.Empty()),
              Some(VideoTrack.Empty().(width := Some(Exactly(1280)), height := Some(Exactly(720)))))
  {
    var ops := [VideoTrack.SetWidth([Exact(1280)]), VideoTrack.SetHeight([Exact(720)])];
    var none := VideoTrack.Empty();
    assert ops[..1] == [ops[0]] && ops[..1][..0] == [];
    assert VideoTrack.RunVideo(none, ops[..1]) == VideoTrack.ApplyVideo(none, ops[0]);
    assert VideoTrack.RunVideo(none, ops) == VideoTrack.ApplyVideo(VideoTrack.ApplyVideo(none, ops[0]), ops[1]);
    assert Build([Exact(1280 as Values.Int32)]) == Exactly(1280);
    assert Build([Exact(720 as Values.Int32)]) == Exactly(720);
  }

  /** `MediaStreamConstraintsBuilder`: holds the stream record being
      assembled and replaces it with an updated copy on every call. */
  class MediaStreamConstraintsBuilder {
    var constraints: MediaStreamConstraints

    /** A new builder requests neither track. */
    constructor ()
      ensures constraints.audio == None && constraints.video == None
    {
      constraints := MediaStreamConstraints(None, None);
    }

    /** `audio(enabled)`, whose default `enabled` is true. */
    method Audio(enabled: bool)
      modifies this
      ensures constraints == EnableAudio(old(constraints), enabled)
    {
      if enabled {
        AudioWith([]);
      }
    }

    /** `audio { ... }`: a track builder starts from the existing audio record
        (or an empty one), runs the block, and its record is stored. */
    method AudioWith(build: seq<AudioTrack.AudioOp>)
      modifies this
      ensures constraints == ConfigureAudio(old(constraints), build)
    {
      var trackBuilder := new AudioTrack.AudioTrackConstraintsBuilder(constraints.audio.GetOr(AudioTrack.Empty()));
      trackBuilder.RunBlock(build);
      constraints := constraints.(audio := Some(trackBuilder.constraints));
    }

    /** `video(enabled)`, whose default `enabled` is true. */
    method Video(enabled: bool)
      modifies this
      ensures constraints == EnableVideo(old(constraints), enabled)
    {
      if enabled {
        VideoWith([]);
      }
    }

    /** `video { ... }`: as `AudioWith`, for the video record. */
    method VideoWith(build: seq<VideoTrack.VideoOp>)
      modifies this
      ensures constraints == ConfigureVideo(old(constraints), build)
    {
      var trackBuilder := new VideoTrack.VideoTrackConstraintsBuilder(constraints.video.GetOr(VideoTrack.Empty()));
      trackBuilder.RunBlock(build);
      constraints := constraints.(video := Some(trackBuilder.constraints));
    }
  }
}
