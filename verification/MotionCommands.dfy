/** What each command asks for, what it is refused for, and what its answer then shows. */
module MotionCommands {
  import opened Common
  import opened Protocol
  import opened DeviceModel
  import opened Motion
  import opened MotionInvariant
  import opened MotionLifecycle
  import opened MotionRest

  // ---- colours -------------------------------------------------------------------------------

  /** The value of a hexadecimal digit, or -1. */
  function HexValue(c: char): int {
    if '0' <= c <= '9' then c as int - '0' as int
    else if 'A' <= c <= 'F' then c as int - 'A' as int + 10
    else if 'a' <= c <= 'f' then c as int - 'a' as int + 10
    else -1
  }

  /** A number sign and six hexadecimal digits. */
  predicate IsColour(s: string) {
    |s| == 7 && s[0] == '#' && forall i :: 1 <= i < 7 ==> HexValue(s[i]) >= 0
  }

  /** The same colour, written in capitals. */
  predicate ShownColour(asked: string, shown: string) {
    && IsColour(asked) && |shown| == 7 && shown[0] == '#'
    && forall i :: 1 <= i < 7 ==> HexValue(shown[i]) == HexValue(asked[i]) && !('a' <= shown[i] <= 'f')
  }

  lemma ColoursAreShown(s: string)
    ensures LooseColor(s) <==> IsColour(s)
    ensures IsColour(s) ==> ShownColour(s, UpperCase(s))
  {
    if IsColour(s) {
      assert forall i :: 1 <= i < 7 ==> HexDigit(s[i]);
    }
  }

  /** The type by which a command is known. */
  predicate IsOfType(t: CommandType, body: Body) {
    match t
    case MotionAbsoluteMove => body.Motion? && body.command.AbsoluteMove?
    case MotionRelativeMove => body.Motion? && body.command.RelativeMove?
    case MotionPlay => body.Motion? && body.command.Play?
    case DeviceRest => body.Motion? && body.command.Rest?
    case LightSolid => body.SolidLight?
    case LightPaint => body.PaintLight?
    case LightBrightness => body.DimLight?
    case StatusSet => body.SetMode?
    case DeviceGetState => body.GetState?
    case OtherCommand(text) => body == Unsupported(text)
  }

  // ---- commands that act at once ----------------------------------------------------------------

  /** The target, the colours, the level or the mode can be applied. */
  predicate Applicable(body: Body) {
    match body
    case GetState => true
    case SolidLight(target, color) => target == HeadMatrix && IsColour(color)
    case PaintLight(target, frame) =>
      target == HeadMatrix && |frame| == 64 && forall i :: 0 <= i < |frame| ==> IsColour(frame[i])
    case DimLight(target, level) => target == HeadMatrix && level.Number? && 0.0 <= level.value <= 1.0
    case SetMode(mode) => mode.Some?
    case _ => false
  }

  /** The state published after it, compared with the one before: the rest is as it was, with the next revision. */
  ghost predicate Does(body: Body, a: Snapshot, b: Snapshot) {
    match body
    case GetState => b == a.(revision := a.revision + 1)
    case SolidLight(_, color) =>
      && b == a.(revision := a.revision + 1, light := a.light.(pixels := b.light.pixels))
      && |b.light.pixels| == 64 && forall i :: 0 <= i < 64 ==> ShownColour(color, b.light.pixels[i])
    case PaintLight(_, frame) =>
      && b == a.(revision := a.revision + 1, light := a.light.(pixels := b.light.pixels))
      && |b.light.pixels| == |frame| && forall i :: 0 <= i < |frame| ==> ShownColour(frame[i], b.light.pixels[i])
    case DimLight(_, level) =>
      level.Number? && b == a.(revision := a.revision + 1, light := a.light.(brightness := level.value))
    case SetMode(mode) =>
      mode.Some? && b == a.(revision := a.revision + 1, status := mode.value, strip := b.strip)
    case _ => false
  }

  lemma SolidDoes(dev: Device, target: LightTarget, color: string)
    requires ValidDevice(dev)
    ensures var body := SolidLight(target, color);
      && (Mutated(dev, body).Some? <==> Applicable(body))
      && (Applicable(body) ==> Does(body, SnapshotOf(dev), SnapshotOf(Published(Mutated(dev, body).value))))
  {
    ColoursAreShown(color);
  }

  lemma PaintDoes(dev: Device, target: LightTarget, frame: seq<string>)
    ensures var body := PaintLight(target, frame);
      && (Mutated(dev, body).Some? <==> Applicable(body))
      && (Applicable(body) ==> Does(body, SnapshotOf(dev), SnapshotOf(Published(Mutated(dev, body).value))))
  {
    forall i | 0 <= i < |frame|
      ensures LooseColor(frame[i]) <==> IsColour(frame[i])
      ensures IsColour(frame[i]) ==> ShownColour(frame[i], UpperCase(frame[i]))
    {
      ColoursAreShown(frame[i]);
    }
  }

  /** Applied exactly if it can be; and then it does what it says. */
  lemma MutationDoes(dev: Device, body: Body)
    requires ValidDevice(dev)
    ensures Mutated(dev, body).Some? <==> Applicable(body)
    ensures Applicable(body) ==> Does(body, SnapshotOf(dev), SnapshotOf(Published(Mutated(dev, body).value)))
  {
    match body
    case SolidLight(target, color) => SolidDoes(dev, target, color);
    case PaintLight(target, frame) => PaintDoes(dev, target, frame);
    case _ =>
  }

  /**
   A command that is neither a motion nor unsupported is applied exactly if it
   is for this device and can be; then nothing but the device changes, and the
   state in the answer shows what was asked for.
   */
  lemma ImmediateCommandDoes(q: Queue, c: Command)
    requires Inv(q) && !c.body.Motion?
    ensures var r := Execute(q, c);
      if c.deviceId == q.dev.deviceId && Applicable(c.body) then
        && r == q.(dev := r.dev, trace := r.trace)
        && (exists t :: IsOfType(t, c.body)
              && r.trace == q.trace + [Accepted(c.id, t, false), StateChanged(c.id, SnapshotOf(r.dev))])
        && Does(c.body, SnapshotOf(q.dev), SnapshotOf(r.dev))
      else
        r == q.(trace := q.trace + [
          if c.deviceId != q.dev.deviceId then Error(c.id, WrongDevice, false)
          else if c.body.Unsupported? then Error(c.id, UnsupportedCommand, false)
          else Error(c.id, InvalidCommand, true)])
  {
    MutationDoes(q.dev, c.body);
    assert IsOfType(TypeOf(c.body), c.body);
  }

  // ---- motion commands ---------------------------------------------------------------------------

  /** The targets of a preset, read joint by joint; the presets not named leave the joint alone. */
  function PresetTargets(n: JointName): map<PresetName, real> {
    match n
    case BaseYaw => map[HappyWiggle := 18.0, LookLeft := 42.0, LookRight := -42.0, DanceDemo := 14.0, Sleep := 0.0]
    case BasePitch => map[WakeUp := -10.0, DanceDemo := -8.0, Sleep := -45.0]
    case ElbowPitch => map[WakeUp := 38.0, HappyWiggle := 52.0, DanceDemo := 60.0, Sleep := 105.0]
    case WristRoll => map[Headshake := 18.0, HappyWiggle := -14.0, DanceDemo := 24.0, Sleep := 0.0]
    case WristPitch => map[WakeUp := 8.0, Nod := 18.0, LookUp := -28.0, LookDown := 24.0, Sleep := 45.0]
    case OtherJoint(_) => map[]
  }

  lemma AdvertisedPresets()
    ensures PresetNames(DefaultPresets()) ==
      [WakeUp, Nod, Headshake, HappyWiggle, LookUp, LookDown, LookLeft, LookRight, DanceDemo, Sleep]
  {
  }

  /** Exactly the presets that the device advertises can be played. */
  lemma PresetsAreTheAdvertised(name: PresetName)
    ensures PresetPose(name).Some? <==> name in PresetNames(DefaultPresets())
  {
    AdvertisedPresets();
  }

  lemma PresetsAreTheirTargets(name: PresetName)
    ensures PresetPose(name).Some? ==>
      forall n :: n in PresetPose(name).value <==> name in PresetTargets(n)
    ensures PresetPose(name).Some? ==>
      forall n :: n in PresetPose(name).value ==> PresetPose(name).value[n] == PresetTargets(n)[name]
  {
  }

  /** A duration in milliseconds, and at least one joint; each joint is known and its number finite. */
  predicate MoveIsWellFormed(joints: map<JointName, Value>, duration: Option<int>) {
    && duration.Some? && 0 < duration.value <= 60000 && joints.Keys != {}
    && forall n :: n in joints ==> ProfileOf(n).Some? && joints[n].Number?
  }

  predicate WellFormed(command: MotionCommand, projected: Pose) {
    match command
    case AbsoluteMove(joints, duration) =>
      MoveIsWellFormed(joints, duration) && forall n :: n in joints ==> InLimits(n, joints[n].value)
    case RelativeMove(joints, duration) =>
      && MoveIsWellFormed(joints, duration)
      && forall n :: n in joints ==> n in projected && InLimits(n, projected[n] + joints[n].value)
    case Play(preset) => preset in PresetNames(DefaultPresets())
    case Rest => true
  }

  /** The position that a command names for a joint, if it names the joint. */
  function Goal(command: MotionCommand, projected: Pose, n: JointName): Option<real> {
    match command
    case AbsoluteMove(joints, _) => if n in joints && joints[n].Number? then Some(joints[n].value) else None
    case RelativeMove(joints, _) =>
      if n in joints && n in projected && joints[n].Number? then Some(projected[n] + joints[n].value) else None
    case Play(preset) => if preset in PresetTargets(n) then Some(PresetTargets(n)[preset]) else None
    case Rest => if ProfileOf(n).Some? then Some(ProfileOf(n).value.default) else None
  }

  function AskedDuration(command: MotionCommand): int {
    match command
    case AbsoluteMove(_, duration) => if duration.Some? then duration.value else 0
    case RelativeMove(_, duration) => if duration.Some? then duration.value else 0
    case Play(_) => 600
    case Rest => 600
  }

  function AskedAction(command: MotionCommand): Action {
    match command
    case AbsoluteMove(_, _) => AbsoluteMoving
    case RelativeMove(_, _) => RelativeMoving
    case Play(preset) => Playing(preset)
    case Rest => EnteringRest
  }

  /** The job that a motion command becomes, if it is well formed. */
  lemma PreparedIsAsked(id: Id, command: MotionCommand, projected: Pose)
    ensures Prepare(id, command, projected).Some? <==> WellFormed(command, projected)
    ensures WellFormed(command, projected) ==>
      var job := Prepare(id, command, projected).value;
      && job.id == id && job.durationMs == AskedDuration(command) && job.action == AskedAction(command)
      && (job.resting <==> command.Rest?)
      && (forall n :: n in job.targets <==> Goal(command, projected, n).Some?)
      && (forall n :: n in job.targets ==> Goal(command, projected, n) == Some(job.targets[n]))
  {
    match command
    case AbsoluteMove(joints, _) => assert joints.Keys == {} <==> joints == map[];
    case RelativeMove(joints, _) => assert joints.Keys == {} <==> joints == map[];
    case Play(preset) =>
      PresetsAreTheAdvertised(preset);
      PresetsAreTheirTargets(preset);
      AdvertisedPresets();
    case Rest => assert forall n :: n in JOINT_LIST <==> ProfileOf(n).Some?;
  }

  /** Why an open or closing queue turns a motion command away, in the order in which it looks. */
  function Refusal(q: Queue, c: Command): Option<Event>
    requires c.body.Motion?
  {
    if c.deviceId != q.dev.deviceId then Some(Error(c.id, WrongDevice, false))
    else if !WellFormed(c.body.command, q.projected) then Some(Error(c.id, InvalidCommand, true))
    else if q.stage.Closing? || q.stage.Closed? then Some(Error(c.id, QueueIsClosed, false))
    else if c.id in q.seenIds then Some(Error(c.id, DuplicateCommand, false))
    else if exists j :: j in Live(q) && j.commandType.DeviceRest? then Some(Error(c.id, DeviceIsResting, true))
    else if |q.waiting| >= q.capacity && !c.body.command.Rest? then Some(Error(c.id, QueueIsFull, true))
    else None
  }

  lemma RestIsPendingIff(q: Queue)
    requires JobsInv(q)
    ensures RestPending(q) <==> exists j :: j in Live(q) && j.commandType.DeviceRest?
  {
    forall j | j in Live(q)
      ensures j.resting <==> j.commandType.DeviceRest?
    {
      assert JobOk(j);
    }
  }

  ghost predicate IsAsked(job: Job, c: Command, projected: Pose)
    requires c.body.Motion?
  {
    && job.id == c.id && IsOfType(job.commandType, c.body)
    && job.durationMs == AskedDuration(c.body.command) && job.action == AskedAction(c.body.command)
    && forall n :: if n in job.targets then Goal(c.body.command, projected, n) == Some(job.targets[n])
                   else Goal(c.body.command, projected, n).None?
  }

  lemma PreparedIs(q: Queue, c: Command)
    requires c.body.Motion?
    ensures Prepare(c.id, c.body.command, q.projected).Some? <==> WellFormed(c.body.command, q.projected)
    ensures WellFormed(c.body.command, q.projected) ==>
      var job := Prepare(c.id, c.body.command, q.projected).value;
      IsAsked(job, c, q.projected) && (job.resting <==> c.body.command.Rest?)
  {
    PreparedIsAsked(c.id, c.body.command, q.projected);
    assert WellFormed(c.body.command, q.projected) ==>
      Prepare(c.id, c.body.command, q.projected).value.commandType == TypeOf(c.body);
  }

  lemma RejectionIsRefusal(q: Queue, c: Command, job: Job)
    requires JobsInv(q) && c.body.Motion? && c.deviceId == q.dev.deviceId && WellFormed(c.body.command, q.projected)
    requires job.id == c.id && (job.resting <==> c.body.command.Rest?)
    ensures Refusal(q, c) ==
      if Rejection(q, job).None? then None
      else Some(Error(c.id, Rejection(q, job).value.0, Rejection(q, job).value.1))
  {
    RestIsPendingIff(q);
  }

  /** Refused, or accepted as prepared. */
  lemma EnqueuedOrRefused(q: Queue, c: Command)
    requires JobsInv(q) && c.body.Motion?
    ensures Refusal(q, c).Some? ==> Execute(q, c) == q.(trace := q.trace + [Refusal(q, c).value])
    ensures Refusal(q, c).None? ==>
      && WellFormed(c.body.command, q.projected) && Prepare(c.id, c.body.command, q.projected).Some?
      && Execute(q, c) == Accept(q, Prepare(c.id, c.body.command, q.projected).value)
  {
    PreparedIs(q, c);
    if c.deviceId == q.dev.deviceId && WellFormed(c.body.command, q.projected) {
      RejectionIsRefusal(q, c, Prepare(c.id, c.body.command, q.projected).value);
    }
  }

  /**
   A motion command that is turned away changes nothing and is told the first
   reason that applies; any other one is last in line, alone there if it is a
   rest, as the job that was asked for.
   */
  lemma MotionCommandDoes(q: Queue, c: Command)
    requires Inv(q) && c.body.Motion?
    ensures var r := Execute(q, c);
      var refusal := Refusal(q, c);
      if refusal.Some? then r == q.(trace := q.trace + [refusal.value])
      else
        && r.waiting != [] && r.current == q.current
        && r.waiting[..|r.waiting| - 1] == (if c.body.command.Rest? then [] else q.waiting)
        && IsAsked(r.waiting[|r.waiting| - 1], c, q.projected)
        && NewEvents(q, r) != [] && r.trace == q.trace + NewEvents(q, r)
        && NewEvents(q, r)[0] == Accepted(c.id, r.waiting[|r.waiting| - 1].commandType, true)
  {
    EnqueuedOrRefused(q, c);
    if Refusal(q, c).None? {
      PreparedIs(q, c);
      AcceptEvents(q, Prepare(c.id, c.body.command, q.projected).value);
    }
  }

  // ---- the device's own tables -------------------------------------------------------------------

  /** Exactly the commands that can be carried out are advertised, and only the status is not under control. */
  lemma AdvertisedCommands(t: CommandType)
    ensures t in DefaultCapabilities().commands <==> !t.OtherCommand?
    ensures t in DefaultCapabilities().commands ==>
      (DefaultCapabilities().commands[t] == SystemScope <==> t.StatusSet?)
  {
  }

  /** Joint by joint, where it rests and how far it goes. */
  lemma JointRanges(position: real)
    ensures InLimits(BaseYaw, position) <==> -90.0 <= position <= 90.0
    ensures InLimits(BasePitch, position) <==> -45.0 <= position <= 45.0
    ensures InLimits(ElbowPitch, position) <==> -15.0 <= position <= 105.0
    ensures InLimits(WristRoll, position) <==> -180.0 <= position <= 180.0
    ensures InLimits(WristPitch, position) <==> -45.0 <= position <= 45.0
    ensures DefaultPose() ==
      map[BaseYaw := 0.0, BasePitch := -45.0, ElbowPitch := 105.0, WristRoll := 0.0, WristPitch := 45.0]
  {
    assert DefaultPose().Keys == {BaseYaw, BasePitch, ElbowPitch, WristRoll, WristPitch};
  }

  /** The strip by its effect and by its colour: each tells a status from the others as far as it can. */
  lemma StripTellsTheStatus(mode: StatusMode)
    ensures StripOf(mode).effect == Fade <==> mode == Starting
    ensures StripOf(mode).effect == Solid <==> mode == Active
    ensures StripOf(mode).effect == Marquee <==> mode == Thinking
    ensures StripOf(mode).effect == LevelSweep <==> mode == Speaking
    ensures StripOf(mode).effect == Blink <==> mode == ErrorMode
    ensures StripOf(mode).effect == Breath <==> mode == Resting || mode == Listening
    ensures StripOf(mode).color == "#FFF0D0" <==> mode == Starting || mode == Active
    ensures StripOf(mode).color == "#FFD33D" <==> mode == Resting || mode == Thinking
    ensures StripOf(mode).color == "#438CFF" <==> mode == Listening
    ensures StripOf(mode).color == "#2F9D68" <==> mode == Speaking
    ensures StripOf(mode).color == "#FF3B30" <==> mode == ErrorMode
  {
    assert "#FFF0D0"[3] == 'F' && "#FFD33D"[3] == 'D' && "#FF3B30"[3] == '3';
    assert "#FFF0D0"[1] == "#FFD33D"[1] == "#FF3B30"[1] == 'F' && "#438CFF"[1] == '4' && "#2F9D68"[1] == '2';
  }

  /** A state shows the device as it is. */
  lemma StateShowsTheDevice(d: Device)
    requires FullPose(d.joints) && forall n :: n in d.joints ==> ProfileOf(n).Some?
    ensures var s := SnapshotOf(d);
      && s.deviceId == d.deviceId && s.revision == d.revision && s.connection == d.connection && s.status == d.status
      && s.strip == StripOf(d.status) && s.light.brightness == d.brightness && s.light.pixels == d.pixels
      && s.motion.kind == d.kind && s.motion.action == d.action
      && s.queueSize == d.queueSize && s.queueCapacity == d.queueCapacity
      && s.motion.joints.Keys == d.joints.Keys
      && forall n :: n in d.joints ==>
           s.motion.joints[n] == JointView(d.joints[n], ProfileOf(n).value.minimum, ProfileOf(n).value.maximum)
  {
  }
}
