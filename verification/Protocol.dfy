/**
 The device state of Protocol version 1 and its validation.

 Names, identifiers and timestamps are opaque: a value that has the right JSON
 shape and syntax is one of the constructors below.  What is left of validation
 is everything that relates one field to another or bounds a number.
 */
module Protocol {
  import opened Common

  datatype JointName =
    | BaseYaw | BasePitch | ElbowPitch | WristRoll | WristPitch
    | OtherJoint(text: string)

  datatype PresetName =
    | WakeUp | Nod | Headshake | HappyWiggle | LookUp | LookDown | LookLeft | LookRight
    | DanceDemo | Sleep
    | OtherPreset(text: string)

  datatype Action = AbsoluteMoving | RelativeMoving | EnteringRest | Playing(preset: PresetName)

  datatype CommandType =
    | MotionPlay | MotionRelativeMove | MotionAbsoluteMove
    | LightSolid | LightPaint | LightBrightness
    | StatusSet | DeviceRest | DeviceGetState
    | OtherCommand(text: string)

  datatype EventType =
    | CommandAccepted | SensorTouch | SensorGesture | SensorFace
    | MotionStarted | MotionProgress | MotionFinished | DeviceStateChanged | DeviceErrorEvent
    | OtherEvent(text: string)

  datatype Scope = ControlScope | SystemScope
  datatype Connection = Connecting | Ready | Degraded | Offline
  datatype StatusMode = Starting | Resting | Active | Listening | Thinking | Speaking | ErrorMode
  datatype StatusEffect = Fade | Breath | Solid | Marquee | LevelSweep | Blink
  datatype MotionKind = Idle | Moving | MotionFault
  datatype LightTarget = HeadMatrix | OtherLight(text: string)

  datatype Preset = Preset(name: PresetName, caption: Option<string>)
  datatype LightCapability = LightCapability(target: LightTarget, width: int, height: int)
  datatype Capabilities = Capabilities(
    commands: map<CommandType, Scope>,
    events: seq<EventType>,
    joints: seq<JointName>,
    presets: seq<Preset>,
    lights: seq<LightCapability>)

  datatype JointView = JointView(pos: real, min: real, max: real)
  datatype MotionView = MotionView(kind: MotionKind, action: Option<Action>, joints: map<JointName, JointView>)
  datatype LightView = LightView(brightness: real, width: int, height: int, pixels: seq<string>)
  datatype StatusStrip = StatusStrip(color: string, effect: StatusEffect)

  /** A complete device state, the payload of device.state_changed. */
  datatype Snapshot = Snapshot(
    deviceId: string,
    revision: int,
    connection: Connection,
    capabilities: Capabilities,
    motion: MotionView,
    light: LightView,
    status: StatusMode,
    strip: StatusStrip,
    queueSize: int,
    queueCapacity: int)

  // ---- colours -------------------------------------------------------------

  predicate HexDigit(c: char) {
    '0' <= c <= '9' || 'a' <= c <= 'f' || 'A' <= c <= 'F'
  }

  /** #RRGGBB in either case: what commands may carry. */
  predicate LooseColor(s: string) {
    |s| == 7 && s[0] == '#' && forall i :: 1 <= i < 7 ==> HexDigit(s[i])
  }

  /** #RRGGBB in upper case: what a published state must carry. */
  predicate StrictColor(s: string) {
    |s| == 7 && s[0] == '#' && forall i :: 1 <= i < 7 ==> '0' <= s[i] <= '9' || 'A' <= s[i] <= 'F'
  }

  function UpperChar(c: char): char {
    if 'a' <= c <= 'z' then (c as int - 32) as char else c
  }

  function UpperCase(s: string): (r: string)
    ensures |r| == |s|
    ensures LooseColor(s) ==> StrictColor(r)
  {
    seq(|s|, i requires 0 <= i < |s| => UpperChar(s[i]))
  }

  // ---- what a valid state is -----------------------------------------------

  function PresetNames(presets: seq<Preset>): (names: seq<PresetName>)
    ensures |names| == |presets|
    ensures forall i :: 0 <= i < |presets| ==> names[i] == presets[i].name
  {
    seq(|presets|, i requires 0 <= i < |presets| => presets[i].name)
  }

  predicate ValidCaption(preset: Preset) {
    preset.caption.Some? ==> preset.caption.value != ""
  }

  predicate ValidLight(light: LightCapability) {
    light.width >= 1 && light.height >= 1
  }

  ghost predicate ValidCapabilities(caps: Capabilities) {
    && NoDuplicates(caps.events)
    && NoDuplicates(caps.joints)
    && (forall p :: p in caps.presets ==> ValidCaption(p))
    && NoDuplicates(PresetNames(caps.presets))
    && (forall l :: l in caps.lights ==> ValidLight(l))
  }

  predicate ValidJoint(joint: JointView) {
    joint.min <= joint.pos <= joint.max
  }

  ghost predicate ValidMotion(motion: MotionView, names: set<JointName>) {
    && (motion.kind == Moving <==> motion.action.Some?)
    && motion.joints.Keys == names
    && forall n :: n in motion.joints ==> ValidJoint(motion.joints[n])
  }

  function HeadLights(lights: seq<LightCapability>): seq<LightCapability> {
    Filter(IsHeadLight, lights)
  }

  predicate IsHeadLight(light: LightCapability) {
    light.target == HeadMatrix
  }

  ghost predicate ValidLightState(light: LightView, lights: seq<LightCapability>) {
    && 0.0 <= light.brightness <= 1.0
    && light.width >= 1 && light.height >= 1
    && light.pixels != [] && (forall p :: p in light.pixels ==> StrictColor(p))
    && |light.pixels| == light.width * light.height
    && var head := HeadLights(lights);
       |head| == 1 && head[0].width == light.width && head[0].height == light.height
  }

  /** validate_state: the envelope's device id is checked only when there is one. */
  ghost predicate ValidState(s: Snapshot, envelope: Option<string>) {
    && (envelope.Some? ==> s.deviceId == envelope.value)
    && s.revision >= 0
    && ValidCapabilities(s.capabilities)
    && ValidMotion(s.motion, Elements(s.capabilities.joints))
    && ValidLightState(s.light, s.capabilities.lights)
    && StrictColor(s.strip.color)
    && 0 <= s.queueSize <= s.queueCapacity
  }

  // ---- the checks as they are executed ---------------------------------------

  method CheckUnique<T(==)>(values: seq<T>) returns (ok: bool)
    ensures ok <==> NoDuplicates(values)
  {
    ok := |values| == |Elements(values)|;
    DistinctCount(values);
  }

  method CheckCapabilities(caps: Capabilities) returns (ok: bool, joints: set<JointName>)
    ensures ok <==> ValidCapabilities(caps)
    ensures joints == Elements(caps.joints)
  {
    joints := Elements(caps.joints);
    var eventsOk := CheckUnique(caps.events);
    var jointsOk := CheckUnique(caps.joints);
    if !eventsOk || !jointsOk {
      return false, joints;
    }
    var names: seq<PresetName> := [];
    for i := 0 to |caps.presets|
      invariant forall p :: p in caps.presets[..i] ==> ValidCaption(p)
      invariant names == PresetNames(caps.presets)[..i]
    {
      if !ValidCaption(caps.presets[i]) {
        assert caps.presets[i] in caps.presets;
        return false, joints;
      }
      names := names + [caps.presets[i].name];
      assert caps.presets[..i + 1] == caps.presets[..i] + [caps.presets[i]];
    }
    assert names == PresetNames(caps.presets);
    assert caps.presets[..|caps.presets|] == caps.presets;
    var namesOk := CheckUnique(names);
    if !namesOk {
      return false, joints;
    }
    for i := 0 to |caps.lights|
      invariant forall l :: l in caps.lights[..i] ==> ValidLight(l)
    {
      if !ValidLight(caps.lights[i]) {
        assert caps.lights[i] in caps.lights;
        return false, joints;
      }
      assert caps.lights[..i + 1] == caps.lights[..i] + [caps.lights[i]];
    }
    assert caps.lights[..|caps.lights|] == caps.lights;
    ok := true;
  }

  method CheckMotion(motion: MotionView, names: set<JointName>) returns (ok: bool)
    ensures ok <==> ValidMotion(motion, names)
  {
    if (motion.kind == Moving) != motion.action.Some? || motion.joints.Keys != names {
      return false;
    }
    var todo := motion.joints.Keys;
    while todo != {}
      invariant todo <= motion.joints.Keys
      invariant forall n :: n in motion.joints.Keys - todo ==> ValidJoint(motion.joints[n])
      decreases todo
    {
      var n :| n in todo;
      if !ValidJoint(motion.joints[n]) {
        return false;
      }
      todo := todo - {n};
    }
    ok := true;
  }

  method CheckLight(light: LightView, lights: seq<LightCapability>) returns (ok: bool)
    ensures ok <==> ValidLightState(light, lights)
  {
    if !(0.0 <= light.brightness <= 1.0) || light.width < 1 || light.height < 1 || light.pixels == [] {
      return false;
    }
    for i := 0 to |light.pixels|
      invariant forall p :: p in light.pixels[..i] ==> StrictColor(p)
    {
      if !StrictColor(light.pixels[i]) {
        assert light.pixels[i] in light.pixels;
        return false;
      }
      assert light.pixels[..i + 1] == light.pixels[..i] + [light.pixels[i]];
    }
    assert light.pixels[..|light.pixels|] == light.pixels;
    if |light.pixels| != light.width * light.height {
      return false;
    }
    var head := HeadLights(lights);
    ok := |head| == 1 && head[0].width == light.width && head[0].height == light.height;
  }

  /** The order of the checks is the source's; the verdict is ValidState. */
  method ValidateState(s: Snapshot, envelope: Option<string>) returns (ok: bool)
    ensures ok <==> ValidState(s, envelope)
  {
    if (envelope.Some? && s.deviceId != envelope.value) || s.revision < 0 {
      return false;
    }
    var capsOk, names := CheckCapabilities(s.capabilities);
    if !capsOk {
      return false;
    }
    var motionOk := CheckMotion(s.motion, names);
    if !motionOk {
      return false;
    }
    var lightOk := CheckLight(s.light, s.capabilities.lights);
    if !lightOk {
      return false;
    }
    ok := StrictColor(s.strip.color) && 0 <= s.queueSize && s.queueSize <= s.queueCapacity;
  }
}
