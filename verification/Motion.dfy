/**
 The motion scheduler as a state machine.

 One step is one stretch of code between two suspension points of the event
 loop.  No locked section of the queue suspends, and subscribers are plain
 functions that do not raise, so the events of a step are all delivered within
 it.  The only place where a command can slip between two parts of one worker
 iteration is after the sleep has been chosen over the interrupt: that is the
 step SleepDone, and the position update that follows it is Tick.
 */
module Motion {
  import opened Common
  import opened Protocol
  import opened DeviceModel

  type Id = nat

  const DEFAULT_DURATION_MS: nat := 600
  const MAX_DURATION_MS: nat := 60000
  const SEEN_COMMAND_LIMIT: nat := 1024

  // ---- commands --------------------------------------------------------------

  /** A duration of None is a duration_ms that is not an integer. */
  datatype MotionCommand =
    | AbsoluteMove(joints: map<JointName, Value>, duration: Option<int>)
    | RelativeMove(joints: map<JointName, Value>, duration: Option<int>)
    | Play(preset: PresetName)
    | Rest

  /** A mode of None is a status mode outside the catalogue. */
  datatype Body =
    | Motion(command: MotionCommand)
    | GetState
    | SolidLight(target: LightTarget, color: string)
    | PaintLight(target: LightTarget, frame: seq<string>)
    | DimLight(target: LightTarget, level: Value)
    | SetMode(mode: Option<StatusMode>)
    | Unsupported(text: string)

  datatype Command = Command(deviceId: string, id: Id, body: Body)

  function TypeOf(body: Body): CommandType {
    match body
    case Motion(AbsoluteMove(_, _)) => MotionAbsoluteMove
    case Motion(RelativeMove(_, _)) => MotionRelativeMove
    case Motion(Play(_)) => MotionPlay
    case Motion(Rest) => DeviceRest
    case GetState => DeviceGetState
    case SolidLight(_, _) => LightSolid
    case PaintLight(_, _) => LightPaint
    case DimLight(_, _) => LightBrightness
    case SetMode(_) => StatusSet
    case Unsupported(text) => OtherCommand(text)
  }

  // ---- events ----------------------------------------------------------------

  datatype ErrorCode =
    | InvalidCommand | QueueIsClosed | DuplicateCommand | DeviceIsResting | QueueIsFull
    | WrongDevice | UnsupportedCommand

  datatype Reason = ForRest | ForShutdown
  datatype Outcome = Completed | Cancelled(reason: Reason) | Failed(error: string)

  datatype Event =
    | Accepted(id: Id, commandType: CommandType, queued: bool)
    | StateChanged(id: Id, state: Snapshot)
    | Started(id: Id, commandType: CommandType, action: Action, durationMs: nat)
    | Progress(id: Id, action: Action, fraction: real, elapsedMs: int, pose: Pose)
    | Finished(id: Id, action: Action, outcome: Outcome, elapsedMs: int, pose: Pose)
    | Error(id: Id, code: ErrorCode, recoverable: bool)

  // ---- jobs ------------------------------------------------------------------

  datatype Job = Job(id: Id, commandType: CommandType, action: Action, targets: Pose, durationMs: nat, resting: bool)

  /**
   A running job: how many of its steps are done, whether the sleep has been
   chosen, where its named joints started, its elapsed_ms, and - only to state
   what a run does - the whole pose it started from.
   */
  datatype Running = Running(job: Job, done: nat, chosen: bool, starts: Pose, elapsedMs: int, origin: Pose)

  function PresetPose(name: PresetName): Option<Pose> {
    match name
    case WakeUp => Some(map[BasePitch := -10.0, ElbowPitch := 38.0, WristPitch := 8.0])
    case Nod => Some(map[WristPitch := 18.0])
    case Headshake => Some(map[WristRoll := 18.0])
    case HappyWiggle => Some(map[BaseYaw := 18.0, ElbowPitch := 52.0, WristRoll := -14.0])
    case LookUp => Some(map[WristPitch := -28.0])
    case LookDown => Some(map[WristPitch := 24.0])
    case LookLeft => Some(map[BaseYaw := 42.0])
    case LookRight => Some(map[BaseYaw := -42.0])
    case DanceDemo => Some(map[BaseYaw := 14.0, BasePitch := -8.0, ElbowPitch := 60.0, WristRoll := 24.0])
    case Sleep => Some(map[BaseYaw := 0.0, BasePitch := -45.0, ElbowPitch := 105.0, WristRoll := 0.0,
                           WristPitch := 45.0])
    case OtherPreset(_) => None
  }

  predicate ValidDuration(duration: Option<int>) {
    duration.Some? && 0 < duration.value <= MAX_DURATION_MS
  }

  /** The joint map itself: not empty, known joints, finite numbers. */
  predicate ValidJointMap(joints: map<JointName, Value>) {
    joints != map[] && forall n :: n in joints ==> ProfileOf(n).Some? && joints[n].Number?
  }

  function AbsoluteTargets(joints: map<JointName, Value>): Option<Pose> {
    if ValidJointMap(joints) && forall n :: n in joints ==> InLimits(n, joints[n].value)
    then Some(map n | n in joints :: joints[n].value)
    else None
  }

  /** A relative move starts from the projected position, not from the actual one. */
  function RelativeTargets(joints: map<JointName, Value>, projected: Pose): Option<Pose>
  {
    if && ValidJointMap(joints)
       && forall n :: n in joints ==> n in projected && InLimits(n, projected[n] + joints[n].value)
    then Some(map n | n in joints :: projected[n] + joints[n].value)
    else None
  }

  /** _prepare; None is any of the errors reported as invalid_command. */
  function Prepare(id: Id, command: MotionCommand, projected: Pose): Option<Job>
  {
    match command
    case AbsoluteMove(joints, duration) =>
      var targets := AbsoluteTargets(joints);
      if ValidDuration(duration) && targets.Some?
      then Some(Job(id, MotionAbsoluteMove, AbsoluteMoving, targets.value, duration.value, false)) else None
    case RelativeMove(joints, duration) =>
      var targets := RelativeTargets(joints, projected);
      if ValidDuration(duration) && targets.Some?
      then Some(Job(id, MotionRelativeMove, RelativeMoving, targets.value, duration.value, false)) else None
    case Play(preset) =>
      var pose := PresetPose(preset);
      if pose.Some? then Some(Job(id, MotionPlay, Playing(preset), pose.value, DEFAULT_DURATION_MS, false)) else None
    case Rest =>
      Some(Job(id, DeviceRest, EnteringRest, DefaultPose(), DEFAULT_DURATION_MS, true))
  }

  // ---- interpolation -----------------------------------------------------------

  function Fraction(done: nat, steps: nat): real
    requires steps > 0
  {
    done as real / steps as real
  }

  /** Linear interpolation; the last step is the target itself. */
  function Interpolate(start: real, target: real, done: nat, steps: nat): real
    requires steps > 0
  {
    if done == steps then target else start + (target - start) * Fraction(done, steps)
  }

  function StartsOf(origin: Pose, targets: Pose): Pose {
    map n | n in targets && n in origin :: origin[n]
  }

  /** The whole pose after `done` of `steps` steps of a job that started at origin. */
  function PoseAfter(origin: Pose, targets: Pose, done: nat, steps: nat): Pose
    requires steps > 0
  {
    map n | n in origin :: if n in targets then Interpolate(origin[n], targets[n], done, steps) else origin[n]
  }

  /** The positions a step writes: the named joints only. */
  function Positions(starts: Pose, targets: Pose, step: nat, steps: nat): Pose
    requires steps > 0
  {
    map n | n in targets && n in starts :: Interpolate(starts[n], targets[n], step, steps)
  }

  /** Python's round: to the nearest integer, ties to the even one. */
  function Round(x: real): int {
    var below := x.Floor;
    var rest := x - below as real;
    if rest < 0.5 || (rest == 0.5 && below % 2 == 0) then below else below + 1
  }

  function RoundedShare(d: real, fraction: real): int {
    Round(d * fraction)
  }

  /** round(duration_ms * fraction). */
  function Elapsed(durationMs: nat, done: nat, steps: nat): int
    requires steps > 0
  {
    RoundedShare(durationMs as real, Fraction(done, steps))
  }

  // ---- the state -----------------------------------------------------------------

  datatype Stage = Open | Closing | Closed

  /**
   The abstract state of engine, queue and device together.  What the source
   keeps beside it - the dictionary of accepted jobs, the id of the rest
   transition, the wake flag - is a function of these fields, as the class in
   MotionQueue shows.
   */
  datatype Queue = Queue(
    dev: Device,
    capacity: nat,
    steps: nat,
    current: Option<Running>,
    waiting: seq<Job>,
    seenOrder: seq<Id>,
    seenIds: set<Id>,
    interrupt: bool,
    projected: Pose,
    stage: Stage,
    trace: seq<Event>)

  function CurrentJob(q: Queue): seq<Job> {
    if q.current.Some? then [q.current.value.job] else []
  }

  /** Every accepted and unfinished job, in acceptance order. */
  function Live(q: Queue): seq<Job> {
    CurrentJob(q) + q.waiting
  }

  function Ids(jobs: seq<Job>): (ids: seq<Id>)
    ensures |ids| == |jobs|
    ensures forall i :: 0 <= i < |jobs| ==> ids[i] == jobs[i].id
  {
    seq(|jobs|, i requires 0 <= i < |jobs| => jobs[i].id)
  }

  function LiveIds(q: Queue): seq<Id> {
    Ids(Live(q))
  }

  /** A device.rest has been accepted and has not finished. */
  predicate RestPending(q: Queue) {
    exists i :: 0 <= i < |Live(q)| && Live(q)[i].resting
  }

  function Emit(q: Queue, events: seq<Event>): Queue {
    q.(trace := q.trace + events)
  }

  function StateEvent(id: Id, dev: Device): Event {
    StateChanged(id, SnapshotOf(dev))
  }

  // ---- accepting -----------------------------------------------------------------

  datatype Window = Window(order: seq<Id>, ids: set<Id>)

  /** _remember_id_locked: a live id that leaves the order stays among the seen ids. */
  function Remember(w: Window, live: seq<Id>, id: Id): Window {
    if |w.order| >= SEEN_COMMAND_LIMIT then
      Window(w.order[1..] + [id], (if w.order[0] in live then w.ids else w.ids - {w.order[0]}) + {id})
    else
      Window(w.order + [id], w.ids + {id})
  }

  function Rejection(q: Queue, job: Job): Option<(ErrorCode, bool)> {
    if q.stage != Open then Some((QueueIsClosed, false))
    else if job.id in q.seenIds then Some((DuplicateCommand, false))
    else if RestPending(q) then Some((DeviceIsResting, true))
    else if !job.resting && |q.waiting| >= q.capacity then Some((QueueIsFull, true))
    else None
  }

  function RestCancellations(jobs: seq<Job>, pose: Pose): seq<Event> {
    if jobs == [] then []
    else [Finished(jobs[0].id, jobs[0].action, Cancelled(ForRest), 0, pose)] + RestCancellations(jobs[1..], pose)
  }

  /** An accepted rest replaces everything that waits; any other job goes last. */
  function Accept(q: Queue, job: Job): Queue {
    var waiting := if job.resting then [job] else q.waiting + [job];
    var live := Ids(CurrentJob(q) + waiting);
    var window := Remember(Window(q.seenOrder, q.seenIds), live, job.id);
    var dev := Published(q.dev.(queueSize := |waiting|, queueCapacity := q.capacity));
    Emit(q.(dev := dev,
            waiting := waiting,
            seenOrder := window.order,
            seenIds := window.ids,
            interrupt := q.interrupt || (job.resting && q.current.Some? && !q.current.value.job.resting),
            projected := (if job.resting then q.dev.joints else q.projected) + job.targets),
         [Accepted(job.id, job.commandType, true), StateEvent(job.id, dev)]
         + if job.resting then RestCancellations(q.waiting, q.dev.joints) else [])
  }

  function Enqueue(q: Queue, id: Id, command: MotionCommand): Queue
  {
    var job := Prepare(id, command, q.projected);
    if job.None? then Emit(q, [Error(id, InvalidCommand, true)])
    else
      var rejection := Rejection(q, job.value);
      if rejection.Some? then Emit(q, [Error(id, rejection.value.0, rejection.value.1)])
      else Accept(q, job.value)
  }

  // ---- immediate commands ----------------------------------------------------------

  /** The change an immediate command makes; None is invalid_command. */
  function Mutated(dev: Device, body: Body): Option<Device> {
    match body
    case GetState => Some(dev)
    case SolidLight(target, color) =>
      if target == HeadMatrix && LooseColor(color) && 0.0 <= dev.brightness <= 1.0
      then Some(dev.(pixels := seq(MATRIX_SIZE, i => UpperCase(color)))) else None
    case PaintLight(target, frame) =>
      if target == HeadMatrix && |frame| == MATRIX_SIZE && forall i :: 0 <= i < |frame| ==> LooseColor(frame[i])
      then Some(dev.(pixels := MapSeq(UpperCase, frame))) else None
    case DimLight(target, level) =>
      if target == HeadMatrix && level.Number? && 0.0 <= level.value <= 1.0
      then Some(dev.(brightness := level.value)) else None
    case SetMode(mode) =>
      if mode.Some? then Some(dev.(status := mode.value)) else None
    case _ => None
  }

  /** SimulatorEngine.execute. */
  function Execute(q: Queue, c: Command): Queue
  {
    if c.deviceId != q.dev.deviceId then Emit(q, [Error(c.id, WrongDevice, false)])
    else if c.body.Motion? then Enqueue(q, c.id, c.body.command)
    else if c.body.Unsupported? then Emit(q, [Error(c.id, UnsupportedCommand, false)])
    else
      var changed := Mutated(q.dev, c.body);
      if changed.None? then Emit(q, [Error(c.id, InvalidCommand, true)])
      else
        var dev := Published(changed.value);
        Emit(q.(dev := dev), [Accepted(c.id, TypeOf(c.body), false), StateEvent(c.id, dev)])
  }

  // ---- the worker -------------------------------------------------------------------

  predicate CanStart(q: Queue) {
    q.stage == Open && q.current.None? && q.waiting != []
  }

  /** The device while a job moves it; a motion wakes a resting device up. */
  function MovingDevice(dev: Device, job: Job, size: int, capacity: nat): Device {
    dev.(status := if !job.resting && dev.status == Resting then Starting else dev.status,
         kind := Moving, action := Some(job.action), queueSize := size, queueCapacity := capacity)
  }

  /** The worker takes the oldest waiting job and begins its first sleep. */
  function Start(q: Queue): Queue
    requires CanStart(q)
  {
    var job := q.waiting[0];
    var dev := Published(MovingDevice(q.dev, job, |q.waiting| - 1, q.capacity));
    var running := Running(job, 0, false, StartsOf(q.dev.joints, job.targets), 0, q.dev.joints);
    Emit(q.(dev := dev, waiting := q.waiting[1..], current := Some(running)),
         [Started(job.id, job.commandType, job.action, job.durationMs), StateEvent(job.id, dev)])
  }

  predicate Sleeping(q: Queue) {
    q.stage == Open && q.current.Some? && !q.current.value.chosen
  }

  /** The sleep ends first; for a job that is not a rest only while the flag is down. */
  predicate CanSleepDone(q: Queue) {
    Sleeping(q) && (q.current.value.job.resting || !q.interrupt)
  }

  function SleepDone(q: Queue): Queue
    requires CanSleepDone(q)
  {
    q.(current := Some(q.current.value.(chosen := true)))
  }

  predicate CanTick(q: Queue) {
    q.stage == Open && q.current.Some? && q.current.value.chosen && q.steps > 0
  }

  function StatusAfter(job: Job, outcome: Outcome, status: StatusMode): StatusMode {
    if outcome == Completed && job.resting then (if status != ErrorMode then Resting else status)
    else if outcome == Completed && status == Starting then Active
    else if outcome.Failed? then ErrorMode
    else status
  }

  function StoppedDevice(dev: Device, job: Job, outcome: Outcome, size: int, capacity: nat): Device {
    dev.(status := StatusAfter(job, outcome, dev.status), kind := if outcome.Failed? then MotionFault else Idle,
         action := None, queueSize := size, queueCapacity := capacity)
  }

  /** _finish_job for the running job. */
  function Finish(q: Queue, outcome: Outcome): Queue
    requires q.current.Some?
  {
    var job := q.current.value.job;
    var dev := Published(StoppedDevice(q.dev, job, outcome, |q.waiting|, q.capacity));
    Emit(q.(dev := dev, current := None, interrupt := q.interrupt && outcome != Cancelled(ForRest)),
         [StateEvent(job.id, dev), Finished(job.id, job.action, outcome, q.current.value.elapsedMs, q.dev.joints)])
  }

  /** The device after a position update: only the named joints are overwritten. */
  function NextDevice(dev: Device, starts: Pose, targets: Pose, step: nat, steps: nat): Device
    requires steps > 0
  {
    dev.(joints := dev.joints + Positions(starts, targets, step, steps))
  }

  /** The position update of a tick, before it is known whether the job is over. */
  function Move(q: Queue): Queue
    requires CanTick(q)
  {
    var r := q.current.value;
    var done := r.done + 1;
    var elapsedMs := Elapsed(r.job.durationMs, done, q.steps);
    var dev := Published(NextDevice(q.dev, r.starts, r.job.targets, r.done + 1, q.steps));
    Emit(q.(dev := dev, current := Some(r.(done := done, chosen := false, elapsedMs := elapsedMs))),
         [Progress(r.job.id, r.job.action, Fraction(done, q.steps), elapsedMs, dev.joints),
          StateEvent(r.job.id, dev)])
  }

  /** One position update; the last one finishes the job without suspending. */
  function Tick(q: Queue): Queue
    requires CanTick(q)
  {
    var moved := Move(q);
    if moved.current.value.done < q.steps then moved else Finish(moved, Completed)
  }

  predicate CanInterrupt(q: Queue) {
    Sleeping(q) && !q.current.value.job.resting && q.interrupt
  }

  function Interrupt(q: Queue): Queue
    requires CanInterrupt(q)
  {
    Finish(q, Cancelled(ForRest))
  }

  predicate CanFail(q: Queue) {
    Sleeping(q)
  }

  /** The clock raises: the only way a job can fail. */
  function Fail(q: Queue, error: string): Queue
    requires CanFail(q)
  {
    Finish(q, Failed(error))
  }

  // ---- closing -----------------------------------------------------------------------

  /** One state event and one cancellation for each unfinished job, in order. */
  function ShutdownEvents(dev: Device, jobs: seq<Job>, elapsedMs: int): seq<Event>
    decreases |jobs|
  {
    if jobs == [] then []
    else
      [StateEvent(jobs[0].id, Published(dev)),
       Finished(jobs[0].id, jobs[0].action, Cancelled(ForShutdown), elapsedMs, dev.joints)]
      + ShutdownEvents(Published(dev), jobs[1..], 0)
  }

  function BeginClose(q: Queue): Queue {
    if q.stage == Open then q.(stage := Closing) else q
  }

  predicate CanFinishClose(q: Queue) {
    q.stage == Closing
  }

  function StoppedForGood(dev: Device, capacity: int): Device {
    dev.(kind := Idle, action := None, queueSize := 0, queueCapacity := capacity)
  }

  function CurrentElapsed(q: Queue): int {
    if q.current.Some? then q.current.value.elapsedMs else 0
  }

  /** The device is stopped before the shutdown of each unfinished job is announced. */
  function CloseLog(q: Queue): seq<Event> {
    ShutdownEvents(StoppedForGood(q.dev, q.capacity), Live(q), CurrentElapsed(q))
  }

  function FinishClose(q: Queue): Queue
    requires CanFinishClose(q)
  {
    var dev := StoppedForGood(q.dev, q.capacity);
    Emit(q.(dev := dev.(revision := dev.revision + |Live(q)|),
            current := None, waiting := [], interrupt := false, projected := dev.joints, stage := Closed),
         CloseLog(q))
  }

  // ---- steps and runs -------------------------------------------------------------------

  datatype Step =
    | DoExecute(command: Command)
    | DoStart | DoSleepDone | DoTick | DoInterrupt | DoFail(error: string)
    | DoBeginClose | DoFinishClose

  predicate Enabled(q: Queue, s: Step) {
    match s
    case DoExecute(_) => true
    case DoStart => CanStart(q)
    case DoSleepDone => CanSleepDone(q)
    case DoTick => CanTick(q)
    case DoInterrupt => CanInterrupt(q)
    case DoFail(_) => CanFail(q)
    case DoBeginClose => true
    case DoFinishClose => CanFinishClose(q)
  }

  function Apply(q: Queue, s: Step): Queue
    requires Enabled(q, s)
  {
    match s
    case DoExecute(c) => Execute(q, c)
    case DoStart => Start(q)
    case DoSleepDone => SleepDone(q)
    case DoTick => Tick(q)
    case DoInterrupt => Interrupt(q)
    case DoFail(error) => Fail(q, error)
    case DoBeginClose => BeginClose(q)
    case DoFinishClose => FinishClose(q)
  }

  /** Every step of the run is enabled when its turn comes. */
  predicate Legal(q: Queue, run: seq<Step>)
    decreases |run|
  {
    run == [] || (Enabled(q, run[0]) && Legal(Apply(q, run[0]), run[1..]))
  }

  function After(q: Queue, run: seq<Step>): Queue
    requires Legal(q, run)
    decreases |run|
  {
    if run == [] then q else After(Apply(q, run[0]), run[1..])
  }

  /** A queue as constructed around a consistent device. */
  ghost predicate Initial(q: Queue) {
    && ValidDevice(q.dev) && q.dev.queueSize == 0 && q.dev.queueCapacity == q.capacity
    && q.capacity > 0 && q.steps > 0
    && q.current.None? && q.waiting == [] && q.seenOrder == [] && q.seenIds == {}
    && !q.interrupt && q.projected == q.dev.joints && q.stage == Open && q.trace == []
  }

  // ---- the structural invariant -------------------------------------------------------------

  ghost predicate JobOk(job: Job) {
    && PoseInLimits(job.targets)
    && 0 < job.durationMs <= MAX_DURATION_MS
    && (job.resting ==> job.targets == DefaultPose())
    && (job.resting <==> job.action == EnteringRest)
    && (job.resting <==> job.commandType == DeviceRest)
  }

  ghost predicate RunningValid(r: Running, dev: Device, steps: nat)
    requires steps > 0
  {
    && r.done < steps
    && FullPose(r.origin)
    && r.starts == StartsOf(r.origin, r.job.targets)
    && dev.joints == PoseAfter(r.origin, r.job.targets, r.done, steps)
  }

  ghost predicate RunningOk(q: Queue)
    requires q.steps > 0
  {
    q.current.Some? ==> RunningValid(q.current.value, q.dev, q.steps)
  }

  /** A rest job is the newest live job, and it waits alone. */
  ghost predicate RestShape(q: Queue) {
    && (forall i :: 0 <= i < |q.waiting| && q.waiting[i].resting ==> |q.waiting| == 1)
    && (q.current.Some? && q.current.value.job.resting ==> q.waiting == [])
  }

  ghost predicate JobsOk(jobs: seq<Job>) {
    NoDuplicates(Ids(jobs)) && forall j :: j in jobs ==> JobOk(j)
  }

  ghost predicate WindowOk(w: Window) {
    && |w.order| <= SEEN_COMMAND_LIMIT
    && NoDuplicates(w.order)
    && forall id :: id in w.order ==> id in w.ids
  }

  /** The live jobs, what is remembered of their ids, and where a rest may stand. */
  ghost predicate JobsInv(q: Queue) {
    && JobsOk(Live(q)) && RestShape(q)
    && WindowOk(Window(q.seenOrder, q.seenIds))
    && (forall j :: j in Live(q) ==> j.id in q.seenIds)
    && (q.stage == Closed ==> Live(q) == [])
  }

  ghost predicate DeviceInv(q: Queue) {
    && q.capacity > 0 && q.steps > 0 && |q.waiting| <= q.capacity
    && ValidDevice(q.dev) && q.dev.queueSize == |q.waiting| && q.dev.queueCapacity == q.capacity
    && (forall n :: ProfileOf(n).Some? ==> n in q.projected)
  }

  ghost predicate Inv(q: Queue) {
    DeviceInv(q) && JobsInv(q) && RunningOk(q)
  }
}
