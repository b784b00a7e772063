/** The mutable simulator state: five joints, one head light, a status and a revision. */
module DeviceModel {
  import opened Common
  import opened Protocol

  /** A number taken from a command; anything that is not a finite number is NotANumber. */
  datatype Value = Number(value: real) | NotANumber

  datatype Profile = Profile(default: real, minimum: real, maximum: real)
  type Pose = map<JointName, real>

  const JOINT_LIST: seq<JointName> := [BaseYaw, BasePitch, ElbowPitch, WristRoll, WristPitch]
  const MATRIX_WIDTH := 8
  const MATRIX_HEIGHT := 8
  const MATRIX_SIZE := 64
  const WARM_WHITE := "#FFF0D0"

  function ProfileOf(n: JointName): Option<Profile> {
    match n
    case BaseYaw => Some(Profile(0.0, -90.0, 90.0))
    case BasePitch => Some(Profile(-45.0, -45.0, 45.0))
    case ElbowPitch => Some(Profile(105.0, -15.0, 105.0))
    case WristRoll => Some(Profile(0.0, -180.0, 180.0))
    case WristPitch => Some(Profile(45.0, -45.0, 45.0))
    case OtherJoint(_) => None
  }

  /** A known joint and a position within its profile. */
  predicate InLimits(n: JointName, position: real) {
    var profile := ProfileOf(n);
    profile.Some? && profile.value.minimum <= position <= profile.value.maximum
  }

  ghost predicate PoseInLimits(pose: Pose) {
    forall n :: n in pose ==> InLimits(n, pose[n])
  }

  /** Every joint of the device has a position, within its limits. */
  ghost predicate FullPose(pose: Pose) {
    PoseInLimits(pose) && forall n :: ProfileOf(n).Some? ==> n in pose
  }

  function DefaultPose(): (pose: Pose)
    ensures FullPose(pose)
    ensures forall n :: n in pose ==> pose[n] == ProfileOf(n).value.default
  {
    map n | n in JOINT_LIST :: ProfileOf(n).value.default
  }

  function StripOf(mode: StatusMode): StatusStrip {
    match mode
    case Starting => StatusStrip("#FFF0D0", Fade)
    case Resting => StatusStrip("#FFD33D", Breath)
    case Active => StatusStrip("#FFF0D0", Solid)
    case Listening => StatusStrip("#438CFF", Breath)
    case Thinking => StatusStrip("#FFD33D", Marquee)
    case Speaking => StatusStrip("#2F9D68", LevelSweep)
    case ErrorMode => StatusStrip("#FF3B30", Blink)
  }

  function DefaultEvents(): seq<EventType> {
    [CommandAccepted, DeviceErrorEvent, DeviceStateChanged, MotionFinished, MotionProgress,
     MotionStarted, SensorTouch, SensorFace, SensorGesture]
  }

  function DefaultPresets(): seq<Preset> {
    [Preset(WakeUp, Some("唤醒")), Preset(Nod, Some("点头")), Preset(Headshake, Some("摇头")),
     Preset(HappyWiggle, Some("开心摆动")), Preset(LookUp, Some("向上看")), Preset(LookDown, Some("向下看")),
     Preset(LookLeft, Some("向左看")), Preset(LookRight, Some("向右看")), Preset(DanceDemo, Some("舞蹈演示")),
     Preset(Sleep, Some("休眠"))]
  }

  function DefaultLights(): seq<LightCapability> {
    [LightCapability(HeadMatrix, MATRIX_WIDTH, MATRIX_HEIGHT)]
  }

  function DefaultCapabilities(): Capabilities {
    Capabilities(
    map[MotionPlay := ControlScope, MotionRelativeMove := ControlScope, MotionAbsoluteMove := ControlScope,
        LightSolid := ControlScope, LightPaint := ControlScope, LightBrightness := ControlScope,
        StatusSet := SystemScope, DeviceRest := ControlScope, DeviceGetState := ControlScope],
    DefaultEvents(), JOINT_LIST, DefaultPresets(), DefaultLights())
  }

  function ValuesOf(positions: map<JointName, Value>): Pose {
    map n | n in positions && positions[n].Number? :: positions[n].value
  }

  function AsValues(pose: Pose): (values: map<JointName, Value>)
    ensures ValuesOf(values) == pose
    ensures values.Keys == pose.Keys && forall n :: n in values ==> values[n] == Number(pose[n])
  {
    map n | n in pose :: Number(pose[n])
  }

  /** The value of a SimulatorState object. */
  datatype Device = Device(
    deviceId: string,
    revision: int,
    connection: Connection,
    joints: Pose,
    kind: MotionKind,
    action: Option<Action>,
    brightness: real,
    pixels: seq<string>,
    status: StatusMode,
    queueSize: int,
    queueCapacity: int)

  ghost predicate ValidPixels(pixels: seq<string>) {
    |pixels| == MATRIX_SIZE && forall i :: 0 <= i < MATRIX_SIZE ==> StrictColor(pixels[i])
  }

  ghost predicate ValidDevice(d: Device) {
    && d.revision >= 0
    && FullPose(d.joints)
    && (d.kind == Moving <==> d.action.Some?)
    && 0.0 <= d.brightness <= 1.0
    && ValidPixels(d.pixels)
    && 0 <= d.queueSize <= d.queueCapacity
  }

  function JointViews(pose: Pose): map<JointName, JointView> {
    map n | n in pose && ProfileOf(n).Some? ::
      JointView(pose[n], ProfileOf(n).value.minimum, ProfileOf(n).value.maximum)
  }

  /** _build_snapshot at the device's own revision. */
  function SnapshotOf(d: Device): Snapshot {
    Snapshot(d.deviceId, d.revision, d.connection, DefaultCapabilities(),
             MotionView(d.kind, d.action, JointViews(d.joints)),
             LightView(d.brightness, MATRIX_WIDTH, MATRIX_HEIGHT, d.pixels),
             d.status, StripOf(d.status), d.queueSize, d.queueCapacity)
  }

  /** publish_snapshot: the revision moves by exactly one. */
  function Published(d: Device): Device {
    d.(revision := d.revision + 1)
  }

  function PresetRank(name: PresetName): int {
    match name
    case WakeUp => 0 case Nod => 1 case Headshake => 2 case HappyWiggle => 3 case LookUp => 4
    case LookDown => 5 case LookLeft => 6 case LookRight => 7 case DanceDemo => 8 case Sleep => 9
    case OtherPreset(_) => 10
  }

  lemma DefaultPresetsAreValid()
    ensures forall p :: p in DefaultPresets() ==> ValidCaption(p)
    ensures NoDuplicates(PresetNames(DefaultPresets()))
  {
    assert forall i :: 0 <= i < |DefaultPresets()| ==>
      PresetRank(DefaultPresets()[i].name) == i && ValidCaption(DefaultPresets()[i]);
  }

  lemma DefaultCapabilitiesAreValid()
    ensures ValidCapabilities(DefaultCapabilities())
    ensures forall n :: n in Elements(DefaultCapabilities().joints) <==> ProfileOf(n).Some?
    ensures HeadLights(DefaultCapabilities().lights) == DefaultLights()
  {
    DefaultPresetsAreValid();
    assert NoDuplicates(DefaultEvents());
    assert NoDuplicates(JOINT_LIST);
    assert JOINT_LIST[0] == BaseYaw && JOINT_LIST[1] == BasePitch && JOINT_LIST[2] == ElbowPitch
        && JOINT_LIST[3] == WristRoll && JOINT_LIST[4] == WristPitch;
    assert DefaultLights()[1..] == [];
    assert IsHeadLight(DefaultLights()[0]);
    assert Filter(IsHeadLight, DefaultLights()[1..]) == [];
  }

  lemma JointViewsAreValid(pose: Pose)
    requires forall n :: n in pose ==> ProfileOf(n).Some?
    ensures JointViews(pose).Keys == pose.Keys
    ensures (forall n :: n in JointViews(pose) ==> ValidJoint(JointViews(pose)[n])) <==> PoseInLimits(pose)
  {
    var views := JointViews(pose);
    assert forall n :: n in pose ==> n in views && (ValidJoint(views[n]) <==> InLimits(n, pose[n]));
  }

  lemma PublishedMotionIsValid(d: Device)
    requires forall n :: n in d.joints ==> ProfileOf(n).Some?
    ensures ValidMotion(SnapshotOf(d).motion, Elements(DefaultCapabilities().joints)) <==>
      ((d.kind == Moving <==> d.action.Some?) && FullPose(d.joints))
  {
    DefaultCapabilitiesAreValid();
    JointViewsAreValid(d.joints);
    assert d.joints.Keys == Elements(DefaultCapabilities().joints) <==>
      forall n :: ProfileOf(n).Some? ==> n in d.joints;
  }

  lemma PublishedLightIsValid(d: Device)
    ensures ValidLightState(SnapshotOf(d).light, DefaultCapabilities().lights) <==>
      (0.0 <= d.brightness <= 1.0 && ValidPixels(d.pixels))
  {
    DefaultCapabilitiesAreValid();
    assert (forall p :: p in d.pixels ==> StrictColor(p)) <==>
      forall i :: 0 <= i < |d.pixels| ==> StrictColor(d.pixels[i]);
  }

  /**
   The state the simulator publishes passes validation exactly when the stored
   fields are consistent.  Only such a device can be constructed, every mutator
   keeps it so, and therefore publishing never raises.
   */
  lemma PublishedStateIsValid(d: Device)
    requires forall n :: n in d.joints ==> ProfileOf(n).Some?
    ensures ValidState(SnapshotOf(d), Some(d.deviceId)) <==> ValidDevice(d)
  {
    DefaultCapabilitiesAreValid();
    PublishedMotionIsValid(d);
    PublishedLightIsValid(d);
    assert StrictColor(StripOf(d.status).color);
  }

  // ---- the object --------------------------------------------------------------

  class SimulatorState {
    const deviceId: string
    var revision: int
    var connection: Connection
    var joints: Pose
    var motionKind: MotionKind
    var motionAction: Option<Action>
    var brightness: real
    var pixels: seq<string>
    var statusMode: StatusMode
    var queueSize: int
    var queueCapacity: int

    ghost function View(): Device
      reads this
    {
      Device(deviceId, revision, connection, joints, motionKind, motionAction,
             brightness, pixels, statusMode, queueSize, queueCapacity)
    }

    ghost predicate Valid()
      reads this
    {
      ValidDevice(View())
    }

    /** A fresh device at the given pose; default() uses the default pose. */
    constructor (deviceId: string, pose: Pose, capacity: nat)
      requires FullPose(pose)
      ensures Valid()
      ensures View() == Device(deviceId, 0, Ready, pose, Idle, None, 0.5,
                               seq(MATRIX_SIZE, i => WARM_WHITE), Active, 0, capacity)
    {
      this.deviceId := deviceId;
      revision := 0;
      connection := Ready;
      joints := pose;
      motionKind := Idle;
      motionAction := None;
      brightness := 0.5;
      pixels := seq(MATRIX_SIZE, i => WARM_WHITE);
      statusMode := Active;
      queueSize := 0;
      queueCapacity := capacity;
    }

    /** All positions are taken or none is. */
    method SetJoints(positions: map<JointName, Value>) returns (ok: bool)
      requires Valid()
      modifies this
      ensures Valid()
      ensures ok <==> forall n :: n in positions ==> positions[n].Number? && InLimits(n, positions[n].value)
      ensures View() == old(View()).(joints := joints)
      ensures joints == if ok then old(joints) + ValuesOf(positions) else old(joints)
    {
      var validated: Pose := map[];
      var todo := positions.Keys;
      while todo != {}
        invariant todo <= positions.Keys
        invariant validated.Keys == positions.Keys - todo
        invariant forall n :: n in validated ==>
          positions[n].Number? && InLimits(n, positions[n].value) && validated[n] == positions[n].value
        decreases todo
      {
        var n :| n in todo;
        if !positions[n].Number? || !InLimits(n, positions[n].value) {
          return false;
        }
        validated := validated[n := positions[n].value];
        todo := todo - {n};
      }
      assert validated == ValuesOf(positions);
      joints := joints + validated;
      ok := true;
    }

    method SetHeadLight(color: string, level: Value) returns (ok: bool)
      requires Valid()
      modifies this
      ensures Valid()
      ensures ok <==> LooseColor(color) && level.Number? && 0.0 <= level.value <= 1.0
      ensures !ok ==> View() == old(View())
      ensures ok ==> View() == old(View()).(pixels := seq(MATRIX_SIZE, i => UpperCase(color)),
                                            brightness := level.value)
    {
      if !LooseColor(color) || !level.Number? || !(0.0 <= level.value <= 1.0) {
        return false;
      }
      pixels := seq(MATRIX_SIZE, i => UpperCase(color));
      brightness := level.value;
      ok := true;
    }

    method SetHeadBrightness(level: Value) returns (ok: bool)
      requires Valid()
      modifies this
      ensures Valid()
      ensures ok <==> level.Number? && 0.0 <= level.value <= 1.0
      ensures View() == if ok then old(View()).(brightness := level.value) else old(View())
    {
      ok := level.Number? && 0.0 <= level.value <= 1.0;
      if ok {
        brightness := level.value;
      }
    }

    method SetHeadPixels(frame: seq<string>) returns (ok: bool)
      requires Valid()
      modifies this
      ensures Valid()
      ensures ok <==> |frame| == MATRIX_SIZE && forall i :: 0 <= i < |frame| ==> LooseColor(frame[i])
      ensures View() == if ok then old(View()).(pixels := MapSeq(UpperCase, frame)) else old(View())
    {
      if |frame| != MATRIX_SIZE {
        return false;
      }
      var normalized: seq<string> := [];
      for i := 0 to |frame|
        invariant |normalized| == i
        invariant forall k :: 0 <= k < i ==> LooseColor(frame[k]) && normalized[k] == UpperCase(frame[k])
      {
        if !LooseColor(frame[i]) {
          return false;
        }
        normalized := normalized + [UpperCase(frame[i])];
      }
      assert normalized == MapSeq(UpperCase, frame);
      pixels := normalized;
      ok := true;
    }

    /** A moving device needs an action, any other none; the size fits the capacity. */
    method SetMotionAndQueue(kind: MotionKind, action: Option<Action>, size: int, capacity: int) returns (ok: bool)
      requires Valid()
      modifies this
      ensures Valid()
      ensures ok <==> (kind == Moving <==> action.Some?) && 0 <= size <= capacity
      ensures View() == if ok
        then old(View()).(kind := kind, action := action, queueSize := size, queueCapacity := capacity)
        else old(View())
    {
      if (kind == Moving) != action.Some? || size < 0 || capacity < 0 || size > capacity {
        return false;
      }
      motionKind := kind;
      motionAction := action;
      queueSize := size;
      queueCapacity := capacity;
      ok := true;
    }

    method SetCommandQueue(size: int, capacity: int) returns (ok: bool)
      requires Valid()
      modifies this
      ensures Valid()
      ensures ok <==> 0 <= size <= capacity
      ensures View() == if ok then old(View()).(queueSize := size, queueCapacity := capacity) else old(View())
    {
      ok := SetMotionAndQueue(motionKind, motionAction, size, capacity);
    }

    /** Error can only be left through ClearErrorStatus. */
    method SetStatus(mode: Option<StatusMode>) returns (ok: bool)
      requires Valid()
      modifies this
      ensures Valid()
      ensures ok <==> mode.Some? && (old(statusMode) == ErrorMode ==> mode.value == ErrorMode)
      ensures View() == if ok then old(View()).(status := mode.value) else old(View())
    {
      if mode == None || (statusMode == ErrorMode && mode.value != ErrorMode) {
        return false;
      }
      statusMode := mode.value;
      ok := true;
    }

    method ClearErrorStatus(mode: Option<StatusMode>) returns (ok: bool)
      requires Valid()
      modifies this
      ensures Valid()
      ensures ok <==> mode.Some? && mode.value != ErrorMode
      ensures View() == if ok then old(View()).(status := mode.value) else old(View())
    {
      if mode == None || mode.value == ErrorMode {
        return false;
      }
      statusMode := mode.value;
      ok := true;
    }

    /** None stands for the StateValidationError; a consistent device never gets it. */
    method PublishSnapshot() returns (published: Option<Snapshot>)
      requires Valid()
      modifies this
      ensures Valid()
      ensures View() == Published(old(View()))
      ensures published == Some(SnapshotOf(View())) && ValidState(published.value, Some(deviceId))
    {
      var next := revision + 1;
      var candidate := SnapshotOf(Device(deviceId, next, connection, joints, motionKind, motionAction,
                                         brightness, pixels, statusMode, queueSize, queueCapacity));
      var accepted := ValidateState(candidate, Some(deviceId));
      PublishedStateIsValid(Published(View()));
      if !accepted {
        return None;
      }
      revision := next;
      published := Some(candidate);
    }
  }
}
