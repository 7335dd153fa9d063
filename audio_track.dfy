/** The audio track record and the builder that assembles it. */
module AudioTrack {
  import opened Wrappers
  import opened Constrains
  import Values

  /** `AudioTrackConstraints`: every attribute is optional, and an absent one
      means that nothing is requested for it. */
  datatype AudioTrackConstraints = AudioTrackConstraints(
    deviceId: Option<string>,
    groupId: Option<string>,
    autoGainControl: Option<Constrain<bool>>,
    channelCount: Option<Constrain<Values.Int32>>,
    echoCancellation: Option<Constrain<bool>>,
    latency: Option<Constrain<Values.Double>>,
    noiseSuppression: Option<Constrain<bool>>,
    sampleRate: Option<Constrain<Values.Int32>>,
    volume: Option<Constrain<Values.Double>>)

  /** `AudioTrackConstraints()`: no attribute set. */
  function Empty(): AudioTrackConstraints {
    AudioTrackConstraints(None, None, None, None, None, None, None, None, None)
  }

  /** The attributes of an audio track record. */
  datatype AudioField =
    | DeviceIdField
    | GroupIdField
    | AutoGainControlField
    | ChannelCountField
    | EchoCancellationField
    | LatencyField
    | NoiseSuppressionField
    | SampleRateField
    | VolumeField

  /** `a` and `b` hold the same value in attribute `f`. */
  predicate AgreeOn(a: AudioTrackConstraints, b: AudioTrackConstraints, f: AudioField) {
    match f
    case DeviceIdField => a.deviceId == b.deviceId
    case GroupIdField => a.groupId == b.groupId
    case AutoGainControlField => a.autoGainControl == b.autoGainControl
    case ChannelCountField => a.channelCount == b.channelCount
    case EchoCancellationField => a.echoCancellation == b.echoCancellation
    case LatencyField => a.latency == b.latency
    case NoiseSuppressionField => a.noiseSuppression == b.noiseSuppression
    case SampleRateField => a.sampleRate == b.sampleRate
    case VolumeField => a.volume == b.volume
  }

  /** One setter call made inside an `audio { ... }` block. An attribute
      setter is given in its closure form, with the calls of its block; the
      shorthand `field(v)` is the block `[Exact(v)]` (see `Exactly`). */
  datatype AudioOp =
    | SetDeviceId(deviceId: string)
    | SetGroupId(groupId: string)
    | SetAutoGainControl(autoGainControl: seq<ConstrainOp<bool>>)
    | SetChannelCount(channelCount: seq<ConstrainOp<Values.Int32>>)
    | SetEchoCancellation(echoCancellation: seq<ConstrainOp<bool>>)
    | SetLatency(latency: seq<ConstrainOp<Values.Double>>)
    | SetNoiseSuppression(noiseSuppression: seq<ConstrainOp<bool>>)
    | SetSampleRate(sampleRate: seq<ConstrainOp<Values.Int32>>)
    | SetVolume(volume: seq<ConstrainOp<Values.Double>>)
  {
    /** The attribute this setter writes. */
    function Field(): AudioField {
      match this
      case SetDeviceId(_) => DeviceIdField
      case SetGroupId(_) => GroupIdField
      case SetAutoGainControl(_) => AutoGainControlField
      case SetChannelCount(_) => ChannelCountField
      case SetEchoCancellation(_) => EchoCancellationField
      case SetLatency(_) => LatencyField
      case SetNoiseSuppression(_) => NoiseSuppressionField
      case SetSampleRate(_) => SampleRateField
      case SetVolume(_) => VolumeField
    }
  }

  /** One setter call on the record `t`: a copy of `t` in which the setter's
      own attribute is replaced and every other attribute is kept. */
  function ApplyAudio(t: AudioTrackConstraints, op: AudioOp): (r: AudioTrackConstraints)
    ensures forall f :: f != op.Field() ==> AgreeOn(r, t, f)
  {
    match op
    case SetDeviceId(id) => t.(deviceId := Some(id))
    case SetGroupId(id) => t.(groupId := Some(id))
    case SetAutoGainControl(b) => t.(autoGainControl := Some(Build(b)))
    case SetChannelCount(b) => t.(channelCount := Some(Build(b)))
    case SetEchoCancellation(b) => t.(echoCancellation := Some(Build(b)))
    case SetLatency(b) => t.(latency := Some(Build(b)))
    case SetNoiseSuppression(b) => t.(noiseSuppression := Some(Build(b)))
    case SetSampleRate(b) => t.(sampleRate := Some(Build(b)))
    case SetVolume(b) => t.(volume := Some(Build(b)))
  }

  /** A setter replaces its attribute and never merges with what was there:
      the value written does not depend on the record it is written into. */
  lemma ReplaceNotMerge(s: AudioTrackConstraints, t: AudioTrackConstraints, op: AudioOp)
    ensures AgreeOn(ApplyAudio(s, op), ApplyAudio(t, op), op.Field())
  {
  }

  /** Last write wins: a second call of the same setter discards the first. */
  lemma LastWriteWins(t: AudioTrackConstraints, first: AudioOp, second: AudioOp)
    requires first.Field() == second.Field()
    ensures ApplyAudio(ApplyAudio(t, first), second) == ApplyAudio(t, second)
  {
  }

  /** The calls of an `audio { ... }` block, made one after the other on `t`. */
  function RunAudio(t: AudioTrackConstraints, ops: seq<AudioOp>): AudioTrackConstraints
    decreases |ops|
  {
    if ops == [] then t else ApplyAudio(RunAudio(t, ops[..|ops| - 1]), ops[|ops| - 1])
  }

  /** `i` is the position of the last call in `ops` that writes attribute `f`. */
  predicate IsLastWrite(ops: seq<AudioOp>, i: int, f: AudioField) {
    0 <= i < |ops| && ops[i].Field() == f && forall j :: i < j < |ops| ==> ops[j].Field() != f
  }

  /** Agreement on one attribute is transitive. */
  lemma AgreeOnTrans(a: AudioTrackConstraints, b: AudioTrackConstraints, c: AudioTrackConstraints, f: AudioField)
    requires AgreeOn(a, b, f) && AgreeOn(b, c, f)
    ensures AgreeOn(a, c, f)
  {
  }

  /** After a block has run, each attribute holds what the last setter call
      for it wrote, or its earlier value if no call in the block wrote it. */
  lemma {:induction false} RunAudioOn(t: AudioTrackConstraints, ops: seq<AudioOp>, f: AudioField)
    ensures (forall j :: 0 <= j < |ops| ==> ops[j].Field() != f) ==> AgreeOn(RunAudio(t, ops), t, f)
    ensures forall i :: IsLastWrite(ops, i, f) ==> AgreeOn(RunAudio(t, ops), ApplyAudio(t, ops[i]), f)
    decreases |ops|
  {
    if ops != [] {
      var n := |ops| - 1;
      var pre := ops[..n];
      var before := RunAudio(t, pre);
      assert RunAudio(t, ops) == ApplyAudio(before, ops[n]);
      RunAudioOn(t, pre, f);
      if ops[n].Field() == f {
        ReplaceNotMerge(before, t, ops[n]);
        forall i | IsLastWrite(ops, i, f)
          ensures i == n
        {
        }
      } else {
        assert AgreeOn(RunAudio(t, ops), before, f);
        if forall j :: 0 <= j < |ops| ==> ops[j].Field() != f {
          assert forall j :: 0 <= j < n ==> pre[j].Field() != f;
          AgreeOnTrans(RunAudio(t, ops), before, t, f);
        }
        forall i | IsLastWrite(ops, i, f)
          ensures AgreeOn(RunAudio(t, ops), ApplyAudio(t, ops[i]), f)
        {
          assert i < n && pre[i] == ops[i];
          assert IsLastWrite(pre, i, f);
          AgreeOnTrans(RunAudio(t, ops), before, ApplyAudio(t, ops[i]), f);
        }
      }
    }
  }

  /** Running two blocks in turn is running their calls as one block: a
      later block starts from the record the earlier one left. */
  lemma {:induction false} RunAudioConcat(t: AudioTrackConstraints, first: seq<AudioOp>, second: seq<AudioOp>)
    ensures RunAudio(RunAudio(t, first), second) == RunAudio(t, first + second)
    decreases |second|
  {
    if second == [] {
      assert first + second == first;
    } else {
      var n := |second| - 1;
      RunAudioConcat(t, first, second[..n]);
      assert (first + second)[..|first + second| - 1] == first + second[..n];
    }
  }

  /** `AudioTrackConstraintsBuilder`: holds the audio record being assembled
      and replaces it with an updated copy on every setter call. */
  class AudioTrackConstraintsBuilder {
    var constraints: AudioTrackConstraints

    constructor (constraints: AudioTrackConstraints)
      ensures this.constraints == constraints
    {
      this.constraints := constraints;
    }

    method DeviceId(id: string)
      modifies this
      ensures constraints == old(constraints).(deviceId := Some(id))
    {
      constraints := constraints.(deviceId := Some(id));
    }

    method GroupId(id: string)
      modifies this
      ensures constraints == old(constraints).(groupId := Some(id))
    {
      constraints := constraints.(groupId := Some(id));
    }

    /** Shorthand `autoGainControl(enable)`, whose default `enable` is true. */
    method AutoGainControl(enable: bool)
      modifies this
      ensures constraints == old(constraints).(autoGainControl := Some(Exactly(enable)))
    {
      AutoGainControlWith([Exact(enable)]);
    }

    method AutoGainControlWith(build: seq<ConstrainOp<bool>>)
      modifies this
      ensures constraints == old(constraints).(autoGainControl := Some(Build(build)))
    {
      var constrain := ConfigureConstrain(build);
      constraints := constraints.(autoGainControl := Some(constrain.Value()));
    }

    method ChannelCount(count: Values.Int32)
      modifies this
      ensures constraints == old(constraints).(channelCount := Some(Exactly(count)))
    {
      ChannelCountWith([Exact(count)]);
    }

    method ChannelCountWith(build: seq<ConstrainOp<Values.Int32>>)
      modifies this
      ensures constraints == old(constraints).(channelCount := Some(Build(build)))
    {
      var constrain := ConfigureConstrain(build);
      constraints := constraints.(channelCount := Some(constrain.Value()));
    }

    /** Shorthand `echoCancellation(enable)`, whose default `enable` is true. */
    method EchoCancellation(enable: bool)
      modifies this
      ensures constraints == old(constraints).(echoCancellation := Some(Exactly(enable)))
    {
      EchoCancellationWith([Exact(enable)]);
    }

    method EchoCancellationWith(build: seq<ConstrainOp<bool>>)
      modifies this
      ensures constraints == old(constraints).(echoCancellation := Some(Build(build)))
    {
      var constrain := ConfigureConstrain(build);
      constraints := constraints.(echoCancellation := Some(constrain.Value()));
    }

    method Latency(latency: Values.Double)
      modifies this
      ensures constraints == old(constraints).(latency := Some(Exactly(latency)))
    {
      LatencyWith([Exact(latency)]);
    }

    method LatencyWith(build: seq<ConstrainOp<Values.Double>>)
      modifies this
      ensures constraints == old(constraints).(latency := Some(Build(build)))
    {
      var constrain := ConfigureConstrain(build);
      constraints := constraints.(latency := Some(constrain.Value()));
    }

    /** Shorthand `noiseSuppression(enable)`, whose default `enable` is true. */
    method NoiseSuppression(enable: bool)
      modifies this
      ensures constraints == old(constraints).(noiseSuppression := Some(Exactly(enable)))
    {
      NoiseSuppressionWith([Exact(enable)]);
    }

    method NoiseSuppressionWith(build: seq<ConstrainOp<bool>>)
      modifies this
      ensures constraints == old(constraints).(noiseSuppression := Some(Build(build)))
    {
      var constrain := ConfigureConstrain(build);
      constraints := constraints.(noiseSuppression := Some(constrain.Value()));
    }

    method SampleRate(count: Values.Int32)
      modifies this
      ensures constraints == old(constraints).(sampleRate := Some(Exactly(count)))
    {
      SampleRateWith([Exact(count)]);
    }

    method SampleRateWith(build: seq<ConstrainOp<Values.Int32>>)
      modifies this
      ensures constraints == old(constraints).(sampleRate := Some(Build(build)))
    {
      var constrain := ConfigureConstrain(build);
      constraints := constraints.(sampleRate := Some(constrain.Value()));
    }

    method Volume(volume: Values.Double)
      modifies this
      ensures constraints == old(constraints).(volume := Some(Exactly(volume)))
    {
      VolumeWith([Exact(volume)]);
    }

    method VolumeWith(build: seq<ConstrainOp<Values.Double>>)
      modifies this
      ensures constraints == old(constraints).(volume := Some(Build(build)))
    {
      var constrain := ConfigureConstrain(build);
      constraints := constraints.(volume := Some(constrain.Value()));
    }

    /** One call of an `audio { ... }` block, dispatched to its setter. */
    method Perform(op: AudioOp)
      modifies this
      ensures constraints == ApplyAudio(old(constraints), op)
    {
      match op {
        case SetDeviceId(id) => DeviceId(id);
        case SetGroupId(id) => GroupId(id);
        case SetAutoGainControl(b) => AutoGainControlWith(b);
        case SetChannelCount(b) => ChannelCountWith(b);
        case SetEchoCancellation(b) => EchoCancellationWith(b);
        case SetLatency(b) => LatencyWith(b);
        case SetNoiseSuppression(b) => NoiseSuppressionWith(b);
        case SetSampleRate(b) => SampleRateWith(b);
        case SetVolume(b) => VolumeWith(b);
      }
    }

    /** `build(trackConstraintsBuilder)`: the calls of an `audio { ... }`
        block, made on this builder in order. */
    method RunBlock(build: seq<AudioOp>)
      modifies this
      ensures constraints == RunAudio(old(constraints), build)
    {
      var i := 0;
      while i < |build|
        invariant 0 <= i <= |build|
        invariant constraints == RunAudio(old(constraints), build[..i])
      {
        Perform(build[i]);
        assert build[..i + 1][..i] == build[..i];
        i := i + 1;
      }
      assert build[..i] == build;
    }
  }
}
