/** The video track record and the builder that assembles it. */
module VideoTrack {
  import opened Wrappers
  import opened Constrains
  import Values

  /** `VideoTrackConstraints`: every attribute is optional, and an absent one
      means that nothing is requested for it. */
  datatype VideoTrackConstraints = VideoTrackConstraints(
    deviceId: Option<string>,
    groupId: Option<string>,
    aspectRatio: Option<Constrain<Values.Double>>,
    facingMode: Option<Constrain<Values.FacingMode>>,
    frameRate: Option<Constrain<Values.Double>>,
    height: Option<Constrain<Values.Int32>>,
    width: Option<Constrain<Values.Int32>>,
    resizeMode: Option<Constrain<Values.ResizeMode>>)

  /** `VideoTrackConstraints()`: no attribute set. */
  function Empty(): VideoTrackConstraints {
    VideoTrackConstraints(None, None, None, None, None, None, None, None)
  }

  /** The attributes of a video track record. */
  datatype VideoField =
    | DeviceIdField
    | GroupIdField
    | AspectRatioField
    | FacingModeField
    | FrameRateField
    | HeightField
    | WidthField
    | ResizeModeField

  /** `a` and `b` hold the same value in attribute `f`. */
  predicate AgreeOn(a: VideoTrackConstraints, b: VideoTrackConstraints, f: VideoField) {
    match f
    case DeviceIdField => a.deviceId == b.deviceId
    case GroupIdField => a.groupId == b.groupId
    case AspectRatioField => a.aspectRatio == b.aspectRatio
    case FacingModeField => a.facingMode == b.facingMode
    case FrameRateField => a.frameRate == b.frameRate
    case HeightField => a.height == b.height
    case WidthField => a.width == b.width
    case ResizeModeField => a.resizeMode == b.resizeMode
  }

  /** One setter call made inside a `video { ... }` block. An attribute
      setter is given in its closure form, with the calls of its block; the
      shorthand `field(v)` is the block `[Exact(v)]` (see `Exactly`). */
  datatype VideoOp =
    | SetDeviceId(deviceId: string)
    | SetGroupId(groupId: string)
    | SetAspectRatio(aspectRatio: seq<ConstrainOp<Values.Double>>)
    | SetFacingMode(facingMode: seq<ConstrainOp<Values.FacingMode>>)
    | SetFrameRate(frameRate: seq<ConstrainOp<Values.Double>>)
    | SetHeight(height: seq<ConstrainOp<Values.Int32>>)
    | SetWidth(width: seq<ConstrainOp<Values.Int32>>)
    | SetResizeMode(resizeMode: seq<ConstrainOp<Values.ResizeMode>>)
  {
    /** The attribute this setter writes. */
    function Field(): VideoField {
      match this
      case SetDeviceId(_) => DeviceIdField
      case SetGroupId(_) => GroupIdField
      case SetAspectRatio(_) => AspectRatioField
      case SetFacingMode(_) => FacingModeField
      case SetFrameRate(_) => FrameRateField
      case SetHeight(_) => HeightField
      case SetWidth(_) => WidthField
      case SetResizeMode(_) => ResizeModeField
    }
  }

  /** One setter call on the record `t`: a copy of `t` in which the setter's
      own attribute is replaced and every other attribute is kept. */
  function ApplyVideo(t: VideoTrackConstraints, op: VideoOp): (r: VideoTrackConstraints)
    ensures forall f :: f != op.Field() ==> AgreeOn(r, t, f)
  {
    match op
    case SetDeviceId(id) => t.(deviceId := Some(id))
    case SetGroupId(id) => t.(groupId := Some(id))
    case SetAspectRatio(b) => t.(aspectRatio := Some(Build(b)))
    case SetFacingMode(b) => t.(facingMode := Some(Build(b)))
    case SetFrameRate(b) => t.(frameRate := Some(Build(b)))
    case SetHeight(b) => t.(height := Some(Build(b)))
    case SetWidth(b) => t.(width := Some(Build(b)))
    case SetResizeMode(b) => t.(resizeMode := Some(Build(b)))
  }

  /** A setter replaces its attribute and never merges with what was there:
      the value written does not depend on the record it is written into. */
  lemma ReplaceNotMerge(s: VideoTrackConstraints, t: VideoTrackConstraints, op: VideoOp)
    ensures AgreeOn(ApplyVideo(s, op), ApplyVideo(t, op), op.Field())
  {
  }

  /** Last write wins: a second call of the same setter discards the first. */
  lemma LastWriteWins(t: VideoTrackConstraints, first: VideoOp, second: VideoOp)
    requires first.Field() == second.Field()
    ensures ApplyVideo(ApplyVideo(t, first), second) == ApplyVideo(t, second)
  {
  }

  /** The calls of a `video { ... }` block, made one after the other on `t`. */
  function RunVideo(t: VideoTrackConstraints, ops: seq<VideoOp>): VideoTrackConstraints
    decreases |ops|
  {
    if ops == [] then t else ApplyVideo(RunVideo(t, ops[..|ops| - 1]), ops[|ops| - 1])
  }

  /** `i` is the position of the last call in `ops` that writes attribute `f`. */
  predicate IsLastWrite(ops: seq<VideoOp>, i: int, f: VideoField) {
    0 <= i < |ops| && ops[i].Field() == f && forall j :: i < j < |ops| ==> ops[j].Field() != f
  }

  /** Agreement on one attribute is transitive. */
  lemma AgreeOnTrans(a: VideoTrackConstraints, b: VideoTrackConstraints, c: VideoTrackConstraints, f: VideoField)
    requires AgreeOn(a, b, f) && AgreeOn(b, c, f)
    ensures AgreeOn(a, c, f)
  {
  }

  /** After a block has run, each attribute holds what the last setter call
      for it wrote, or its earlier value if no call in the block wrote it. */
  lemma {:induction false} RunVideoOn(t: VideoTrackConstraints, ops: seq<VideoOp>, f: VideoField)
    ensures (forall j :: 0 <= j < |ops| ==> ops[j].Field() != f) ==> AgreeOn(RunVideo(t, ops), t, f)
    ensures forall i :: IsLastWrite(ops, i, f) ==> AgreeOn(RunVideo(t, ops), ApplyVideo(t, ops[i]), f)
    decreases |ops|
  {
    if ops != [] {
      var n := |ops| - 1;
      var pre := ops[..n];
      var before := RunVideo(t, pre);
      assert RunVideo(t, ops) == ApplyVideo(before, ops[n]);
      RunVideoOn(t, pre, f);
      if ops[n].Field() == f {
        ReplaceNotMerge(before, t, ops[n]);
        forall i | IsLastWrite(ops, i, f)
          ensures i == n
        {
        }
      } else {
        assert AgreeOn(RunVideo(t, ops), before, f);
        if forall j :: 0 <= j < |ops| ==> ops[j].Field() != f {
          assert forall j :: 0 <= j < n ==> pre[j].Field() != f;
          AgreeOnTrans(RunVideo(t, ops), before, t, f);
        }
        forall i | IsLastWrite(ops, i, f)
          ensures AgreeOn(RunVideo(t, ops), ApplyVideo(t, ops[i]), f)
        {
          assert i < n && pre[i] == ops[i];
          assert IsLastWrite(pre, i, f);
          AgreeOnTrans(RunVideo(t, ops), before, ApplyVideo(t, ops[i]), f);
        }
      }
    }
  }

  /** Running two blocks in turn is running their calls as one block: a
      later block starts from the record the earlier one left. */
  lemma {:induction false} RunVideoConcat(t: VideoTrackConstraints, first: seq<VideoOp>, second: seq<VideoOp>)
    ensures RunVideo(RunVideo(t, first), second) == RunVideo(t, first + second)
    decreases |second|
  {
    if second == [] {
      assert first + second == first;
    } else {
      var n := |second| - 1;
      RunVideoConcat(t, first, second[..n]);
      assert (first + second)[..|first + second| - 1] == first + second[..n];
    }
  }

  /** `VideoTrackConstraintsBuilder`: holds the video record being assembled
      and replaces it with an updated copy on every setter call. */
  class VideoTrackConstraintsBuilder {
    var constraints: VideoTrackConstraints

    constructor (constraints: VideoTrackConstraints)
      ensures this.constraints == constraints
    {
      this.constraints := constraints;
    }

    method DeviceId(id: string)
      modifies this
      ensures constraints == old(constraints).(deviceId := Some(id))
    {
      constraints := constraints.(deviceId := Some(id));
    }

    method GroupId(id: string)
      modifies this
      ensures constraints == old(constraints).(groupId := Some(id))
    {
      constraints := constraints.(groupId := Some(id));
    }

    method AspectRatio(ratio: Values.Double)
      modifies this
      ensures constraints == old(constraints).(aspectRatio := Some(Exactly(ratio)))
    {
      AspectRatioWith([Exact(ratio)]);
    }

    method AspectRatioWith(build: seq<ConstrainOp<Values.Double>>)
      modifies this
      ensures constraints == old(constraints).(aspectRatio := Some(Build(build)))
    {
      var constrain := ConfigureConstrain(build);
      constraints := constraints.(aspectRatio := Some(constrain.Value()));
    }

    method FacingMode(mode: Values.FacingMode)
      modifies this
      ensures constraints == old(constraints).(facingMode := Some(Exactly(mode)))
    {
      FacingModeWith([Exact(mode)]);
    }

    method FacingModeWith(build: seq<ConstrainOp<Values.FacingMode>>)
      modifies this
      ensures constraints == old(constraints).(facingMode := Some(Build(build)))
    {
      var constrain := ConfigureConstrain(build);
      constraints := constraints.(facingMode := Some(constrain.Value()));
    }

    method FrameRate(ratio: Values.Double)
      modifies this
      ensures constraints == old(constraints).(frameRate := Some(Exactly(ratio)))
    {
      FrameRateWith([Exact(ratio)]);
    }

    method FrameRateWith(build: seq<ConstrainOp<Values.Double>>)
      modifies this
      ensures constraints == old(constraints).(frameRate := Some(Build(build)))
    {
      var constrain := ConfigureConstrain(build);
      constraints := constraints.(frameRate := Some(constrain.Value()));
    }

    method Height(height: Values.Int32)
      modifies this
      ensures constraints == old(constraints).(height := Some(Exactly(height)))
    {
      HeightWith([Exact(height)]);
    }

    method HeightWith(build: seq<ConstrainOp<Values.Int32>>)
      modifies this
      ensures constraints == old(constraints).(height := Some(Build(build)))
    {
      var constrain := ConfigureConstrain(build);
      constraints := constraints.(height := Some(constrain.Value()));
    }

    method Width(width: Values.Int32)
      modifies this
      ensures constraints == old(constraints).(width := Some(Exactly(width)))
    {
      WidthWith([Exact(width)]);
    }

    method WidthWith(build: seq<ConstrainOp<Values.Int32>>)
      modifies this
      ensures constraints == old(constraints).(width := Some(Build(build)))
    {
      var constrain := ConfigureConstrain(build);
      constraints := constraints.(width := Some(constrain.Value()));
    }

    method ResizeMode(mode: Values.ResizeMode)
      modifies this
      ensures constraints == old(constraints).(resizeMode := Some(Exactly(mode)))
    {
      ResizeModeWith([Exact(mode)]);
    }

    method ResizeModeWith(build: seq<ConstrainOp<Values.ResizeMode>>)
      modifies this
      ensures constraints == old(constraints).(resizeMode := Some(Build(build)))
    {
      var constrain := ConfigureConstrain(build);
      constraints := constraints.(resizeMode := Some(constrain.Value()));
    }

    /** One call of a `video { ... }` block, dispatched to its setter. */
    method Perform(op: VideoOp)
      modifies this
      ensures constraints == ApplyVideo(old(constraints), op)
    {
      match op {
        case SetDeviceId(id) => DeviceId(id);
        case SetGroupId(id) => GroupId(id);
        case SetAspectRatio(b) => AspectRatioWith(b);
        case SetFacingMode(b) => FacingModeWith(b);
        case SetFrameRate(b) => FrameRateWith(b);
        case SetHeight(b) => HeightWith(b);
        case SetWidth(b) => WidthWith(b);
        case SetResizeMode(b) => ResizeModeWith(b);
      }
    }

    /** `build(trackConstraintsBuilder)`: the calls of a `video { ... }`
        block, made on this builder in order. */
    method RunBlock(build: seq<VideoOp>)
      modifies this
      ensures constraints == RunVideo(old(constraints), build)
    {
      var i := 0;
      while i < |build|
        invariant 0 <= i <= |build|
        invariant constraints == RunVideo(old(constraints), build[..i])
      {
        Perform(build[i]);
        assert build[..i + 1][..i] == build[..i];
        i := i + 1;
      }
      assert build[..i] == build;
    }
  }
}
