/** Every step of the scheduler keeps its structural invariant. */
module MotionInvariant {
  import opened Common
  import opened Protocol
  import opened DeviceModel
  import opened Motion

  // ---- arithmetic of interpolation ---------------------------------------------

  lemma FractionBounds(done: nat, steps: nat)
    requires steps > 0 && done <= steps
    ensures 0.0 <= Fraction(done, steps) <= 1.0
    ensures done == steps ==> Fraction(done, steps) == 1.0
  {
  }

  lemma ProductNotNegative(x: real, y: real)
    requires x >= 0.0 && y >= 0.0
    ensures x * y >= 0.0
  {
  }

  lemma Complement(x: real, t: real)
    ensures x * (1.0 - t) == x - x * t
  {
  }

  lemma BetweenConvex(lo: real, hi: real, a: real, b: real, t: real)
    requires lo <= a <= hi && lo <= b <= hi && 0.0 <= t <= 1.0
    ensures lo <= a + (b - a) * t <= hi
  {
    if a <= b {
      var d := b - a;
      ProductNotNegative(d, t);
      ProductNotNegative(d, 1.0 - t);
      Complement(d, t);
      assert 0.0 <= d * t <= d;
    } else {
      var d := a - b;
      ProductNotNegative(d, t);
      ProductNotNegative(d, 1.0 - t);
      Complement(d, t);
      assert 0.0 <= d * t <= d;
      assert (b - a) * t == -(d * t);
    }
  }

  lemma InterpolateInLimits(n: JointName, start: real, target: real, done: nat, steps: nat)
    requires steps > 0 && done <= steps && InLimits(n, start) && InLimits(n, target)
    ensures InLimits(n, Interpolate(start, target, done, steps))
  {
    FractionBounds(done, steps);
    var p := ProfileOf(n).value;
    var f := Fraction(done, steps);
    BetweenConvex(p.minimum, p.maximum, start, target, f);
    var v := Interpolate(start, target, done, steps);
    assert v == start + (target - start) * f;
    assert p.minimum <= v <= p.maximum;
  }

  lemma PoseAfterInLimits(origin: Pose, targets: Pose, done: nat, steps: nat)
    requires steps > 0 && done <= steps && PoseInLimits(origin) && PoseInLimits(targets)
    ensures PoseAfter(origin, targets, done, steps).Keys == origin.Keys
    ensures PoseInLimits(PoseAfter(origin, targets, done, steps))
  {
    forall n | n in origin && n in targets
      ensures InLimits(n, Interpolate(origin[n], targets[n], done, steps))
    {
      InterpolateInLimits(n, origin[n], targets[n], done, steps);
    }
  }

  lemma PoseAfterNothing(origin: Pose, targets: Pose, steps: nat)
    requires steps > 0
    ensures PoseAfter(origin, targets, 0, steps) == origin
  {
  }

  /** The last step lands on the targets themselves. */
  lemma PoseAfterAll(origin: Pose, targets: Pose, steps: nat)
    requires steps > 0 && targets.Keys <= origin.Keys
    ensures PoseAfter(origin, targets, steps, steps) == origin + targets
  {
  }

  lemma OverlayIsPoseAfter(origin: Pose, targets: Pose, done: nat, steps: nat)
    requires steps > 0
    ensures PoseAfter(origin, targets, done, steps) + Positions(StartsOf(origin, targets), targets, done + 1, steps)
         == PoseAfter(origin, targets, done + 1, steps)
  {
  }

  // ---- preparing -----------------------------------------------------------------

  lemma PresetPosesAreInLimits(name: PresetName)
    ensures PresetPose(name).Some? ==> PoseInLimits(PresetPose(name).value)
  {
  }

  lemma PreparedJobIsOk(id: Id, command: MotionCommand, projected: Pose)
    ensures Prepare(id, command, projected).Some? ==>
      var job := Prepare(id, command, projected).value;
      JobOk(job) && job.id == id && (job.resting <==> command.Rest?)
  {
    match command
    case AbsoluteMove(joints, _) =>
    case RelativeMove(joints, _) =>
    case Play(preset) => PresetPosesAreInLimits(preset);
    case Rest =>
  }

  // ---- accepting -------------------------------------------------------------------

  lemma RememberKeepsWindow(w: Window, live: seq<Id>, id: Id)
    requires WindowOk(w) && id !in w.ids
    ensures WindowOk(Remember(w, live, id))
    ensures forall x :: x in live && (x in w.ids || x == id) ==> x in Remember(w, live, id).ids
  {
    if |w.order| >= SEEN_COMMAND_LIMIT {
      var rest := w.order[1..];
      assert w.order == [w.order[0]] + rest;
      assert forall x :: x in rest ==> x in w.order && x != w.order[0];
    }
  }

  lemma AppendKeepsJobsOk(jobs: seq<Job>, job: Job)
    requires JobsOk(jobs) && JobOk(job) && forall j :: j in jobs ==> j.id != job.id
    ensures JobsOk(jobs + [job])
  {
    var all := jobs + [job];
    forall i, k | 0 <= i < k < |all|
      ensures Ids(all)[i] != Ids(all)[k]
    {
      assert all[i] in jobs;
      if k < |jobs| {
        assert Ids(jobs)[i] != Ids(jobs)[k];
      }
    }
  }

  lemma SliceKeepsJobsOk(jobs: seq<Job>, lo: nat, hi: nat)
    requires JobsOk(jobs) && lo <= hi <= |jobs|
    ensures JobsOk(jobs[lo..hi])
  {
    var part := jobs[lo..hi];
    forall i, k | 0 <= i < k < |part|
      ensures Ids(part)[i] != Ids(part)[k]
    {
      assert Ids(jobs)[lo + i] != Ids(jobs)[lo + k];
    }
  }

  /** The live jobs before the one that is being accepted. */
  function Kept(q: Queue, job: Job): seq<Job> {
    if job.resting then CurrentJob(q) else Live(q)
  }

  lemma KeptJobs(q: Queue, job: Job)
    requires JobsInv(q)
    ensures Live(Accept(q, job)) == Kept(q, job) + [job]
    ensures JobsOk(Kept(q, job))
    ensures forall j :: j in Kept(q, job) ==> j in Live(q)
  {
    assert Live(Accept(q, job)) == Kept(q, job) + [job];
    assert Kept(q, job) == Live(q)[0..|Kept(q, job)|];
    SliceKeepsJobsOk(Live(q), 0, |Kept(q, job)|);
  }

  lemma NotPendingHasNoRest(q: Queue)
    requires !RestPending(q)
    ensures forall j :: j in Live(q) ==> !j.resting
    ensures q.current.Some? ==> !q.current.value.job.resting
    ensures forall i :: 0 <= i < |q.waiting| ==> !q.waiting[i].resting
  {
    if q.current.Some? {
      assert q.current.value.job == Live(q)[0];
    }
    assert forall i :: 0 <= i < |q.waiting| ==> q.waiting[i] == Live(q)[|CurrentJob(q)| + i];
  }

  lemma AcceptKeepsJobs(q: Queue, job: Job)
    requires JobsInv(q) && JobOk(job) && Rejection(q, job).None?
    ensures JobsInv(Accept(q, job))
  {
    KeptJobs(q, job);
    NotPendingHasNoRest(q);
    AppendKeepsJobsOk(Kept(q, job), job);
    AcceptKeepsMemory(q, job);
  }

  lemma AcceptKeepsMemory(q: Queue, job: Job)
    requires JobsInv(q) && Rejection(q, job).None?
    ensures var r := Accept(q, job);
      WindowOk(Window(r.seenOrder, r.seenIds)) && forall j :: j in Live(r) ==> j.id in r.seenIds
  {
    KeptJobs(q, job);
    var live := Ids(Kept(q, job) + [job]);
    RememberKeepsWindow(Window(q.seenOrder, q.seenIds), live, job.id);
    var r := Accept(q, job);
    assert Window(r.seenOrder, r.seenIds) == Remember(Window(q.seenOrder, q.seenIds), live, job.id);
    forall j | j in Live(r)
      ensures j.id in r.seenIds
    {
      var i :| 0 <= i < |Live(r)| && Live(r)[i] == j;
      assert live[i] == j.id;
    }
  }

  lemma AcceptKeepsInv(q: Queue, job: Job)
    requires Inv(q) && JobOk(job) && Rejection(q, job).None?
    ensures Inv(Accept(q, job))
  {
    AcceptKeepsJobs(q, job);
  }

  lemma MutatedKeepsDevice(dev: Device, body: Body)
    requires ValidDevice(dev) && Mutated(dev, body).Some?
    ensures var d := Mutated(dev, body).value;
      && ValidDevice(d)
      && d == dev.(pixels := d.pixels, brightness := d.brightness, status := d.status)
  {
  }

  lemma QuietKeepsInv(q: Queue, dev: Device, events: seq<Event>)
    requires Inv(q) && ValidDevice(dev) && dev.joints == q.dev.joints
    requires dev.queueSize == q.dev.queueSize && dev.queueCapacity == q.dev.queueCapacity
    ensures Inv(Emit(q.(dev := dev), events))
  {
    assert Live(Emit(q.(dev := dev), events)) == Live(q);
  }

  /** Events that do not concern the life of a job. */
  predicate Quiet(e: Event) {
    e.Error? || e.StateChanged? || (e.Accepted? && !e.queued)
  }

  /** A command is either accepted as a motion or leaves at most a new device and some quiet events. */
  ghost predicate QuietStep(q: Queue, r: Queue, dev: Device, events: seq<Event>) {
    && r == Emit(q.(dev := dev), events)
    && (forall e :: e in events ==> Quiet(e))
    && ValidDevice(dev)
    && dev == q.dev.(pixels := dev.pixels, brightness := dev.brightness, status := dev.status, revision := dev.revision)
  }

  ghost predicate AcceptStep(q: Queue, r: Queue, c: Command, job: Job) {
    && c.body.Motion? && Prepare(c.id, c.body.command, q.projected) == Some(job)
    && JobOk(job) && job.id == c.id && (job.resting <==> c.body.command.Rest?)
    && Rejection(q, job).None? && r == Accept(q, job)
  }

  lemma ExecuteCases(q: Queue, c: Command)
    requires Inv(q)
    ensures var r := Execute(q, c);
      (exists job :: AcceptStep(q, r, c, job)) || (exists dev, events :: QuietStep(q, r, dev, events))
  {
    var r := Execute(q, c);
    if c.deviceId == q.dev.deviceId && c.body.Motion? {
      PreparedJobIsOk(c.id, c.body.command, q.projected);
      var job := Prepare(c.id, c.body.command, q.projected);
      if job.Some? && Rejection(q, job.value).None? {
        assert AcceptStep(q, r, c, job.value);
        return;
      }
    } else if Mutated(q.dev, c.body).Some? {
      MutatedKeepsDevice(q.dev, c.body);
    }
    assert QuietStep(q, r, r.dev, r.trace[|q.trace|..]);
  }

  lemma ExecuteKeepsInv(q: Queue, c: Command)
    requires Inv(q)
    ensures Inv(Execute(q, c))
  {
    ExecuteCases(q, c);
    var r := Execute(q, c);
    if job :| AcceptStep(q, r, c, job) {
      AcceptKeepsInv(q, job);
    } else {
      var dev, events :| QuietStep(q, r, dev, events);
      QuietKeepsInv(q, dev, events);
    }
  }

  // ---- the worker ---------------------------------------------------------------------

  lemma StartKeepsInv(q: Queue)
    requires Inv(q) && CanStart(q)
    ensures Inv(Start(q)) && Live(Start(q)) == Live(q)
  {
    assert q.waiting == [q.waiting[0]] + q.waiting[1..];
    assert Live(Start(q)) == Live(q);
    PoseAfterNothing(q.dev.joints, q.waiting[0].targets, q.steps);
  }

  lemma RunningJobIsOk(q: Queue)
    requires JobsInv(q) && q.current.Some?
    ensures JobOk(q.current.value.job)
  {
    assert q.current.value.job == Live(q)[0];
  }

  lemma MovedPose(q: Queue, r: Running, done: nat)
    requires Inv(q) && q.current == Some(r) && done <= q.steps
    ensures FullPose(PoseAfter(r.origin, r.job.targets, done, q.steps))
  {
    RunningJobIsOk(q);
    PoseAfterInLimits(r.origin, r.job.targets, done, q.steps);
  }

  /** Overwriting the named joints gives the whole interpolated pose. */
  lemma NextPose(dev: Device, r: Running, steps: nat)
    requires steps > 0 && RunningValid(r, dev, steps)
    ensures NextDevice(dev, r.starts, r.job.targets, r.done + 1, steps).joints
      == PoseAfter(r.origin, r.job.targets, r.done + 1, steps)
  {
    OverlayIsPoseAfter(r.origin, r.job.targets, r.done, steps);
  }

  /** A new pose, whatever it is, keeps the device consistent when it is within the limits. */
  lemma PosedDevice(q: Queue, m: Queue)
    requires DeviceInv(q) && FullPose(m.dev.joints)
    requires m.dev == q.dev.(joints := m.dev.joints, revision := q.dev.revision + 1)
    requires m.capacity == q.capacity && m.steps == q.steps && m.waiting == q.waiting && m.projected == q.projected
    ensures DeviceInv(m)
  {
  }

  lemma SameJobs(q: Queue, r: Queue)
    requires JobsInv(q)
    requires r.waiting == q.waiting && CurrentJob(r) == CurrentJob(q)
    requires r.seenOrder == q.seenOrder && r.seenIds == q.seenIds && r.stage == q.stage
    ensures JobsInv(r) && Live(r) == Live(q)
  {
    assert q.current.Some? ==> CurrentJob(q)[0] == CurrentJob(r)[0];
  }

  lemma MoveKeepsDevice(q: Queue)
    requires Inv(q) && CanTick(q)
    ensures DeviceInv(Move(q))
  {
    var r := q.current.value;
    NextPose(q.dev, r, q.steps);
    MovedPose(q, r, r.done + 1);
    PosedDevice(q, Move(q));
  }

  lemma MoveKeepsJobs(q: Queue)
    requires JobsInv(q) && CanTick(q)
    ensures JobsInv(Move(q)) && Live(Move(q)) == Live(q)
  {
    SameJobs(q, Move(q));
  }

  /** Finishing removes the oldest live job and nothing else. */
  lemma FinishKeepsInv(q: Queue, outcome: Outcome)
    requires DeviceInv(q) && JobsInv(q) && q.current.Some? && q.stage == Open
    ensures Inv(Finish(q, outcome))
    ensures Live(Finish(q, outcome)) == q.waiting == Live(q)[1..]
  {
    assert Live(q) == [q.current.value.job] + q.waiting;
    assert Live(Finish(q, outcome)) == q.waiting == Live(q)[1..];
    SliceKeepsJobsOk(Live(q), 1, |Live(q)|);
    assert Live(q)[1..|Live(q)|] == q.waiting;
  }

  lemma RunningAdvances(r: Running, m: Running, dev: Device, d: Device, steps: nat)
    requires steps > 0 && RunningValid(r, dev, steps) && r.done + 1 < steps
    requires m.job == r.job && m.origin == r.origin && m.starts == r.starts && m.done == r.done + 1
    requires d.joints == NextDevice(dev, r.starts, r.job.targets, r.done + 1, steps).joints
    ensures RunningValid(m, d, steps)
  {
    NextPose(dev, r, steps);
  }

  lemma MoveFields(q: Queue)
    requires CanTick(q)
    ensures var r, m := q.current.value, Move(q);
      && m.current.Some? && m.current.value.job == r.job && m.current.value.origin == r.origin
      && m.current.value.starts == r.starts && m.current.value.done == r.done + 1 && m.steps == q.steps
      && m.dev.joints == NextDevice(q.dev, r.starts, r.job.targets, r.done + 1, q.steps).joints
  {
  }

  lemma MoveKeepsRunning(q: Queue)
    requires CanTick(q) && RunningOk(q) && q.current.value.done + 1 < q.steps
    ensures RunningOk(Move(q))
  {
    MoveFields(q);
    RunningAdvances(q.current.value, Move(q).current.value, q.dev, Move(q).dev, q.steps);
  }

  lemma TickKeepsInv(q: Queue)
    requires Inv(q) && CanTick(q)
    ensures Inv(Tick(q))
  {
    MoveKeepsDevice(q);
    MoveKeepsJobs(q);
    if q.current.value.done + 1 < q.steps {
      MoveKeepsRunning(q);
    } else {
      FinishKeepsInv(Move(q), Completed);
    }
  }

  lemma FinishCloseKeepsInv(q: Queue)
    requires Inv(q) && CanFinishClose(q)
    ensures Inv(FinishClose(q))
  {
    assert Live(FinishClose(q)) == [];
  }

  // ---- all steps and all runs ------------------------------------------------------------

  lemma StepKeepsInv(q: Queue, s: Step)
    requires Inv(q) && Enabled(q, s)
    ensures Inv(Apply(q, s))
  {
    match s
    case DoExecute(c) => ExecuteKeepsInv(q, c);
    case DoStart => StartKeepsInv(q);
    case DoSleepDone => assert Live(SleepDone(q)) == Live(q);
    case DoTick => TickKeepsInv(q);
    case DoInterrupt => FinishKeepsInv(q, Cancelled(ForRest));
    case DoFail(error) => FinishKeepsInv(q, Failed(error));
    case DoBeginClose => assert Live(BeginClose(q)) == Live(q);
    case DoFinishClose => FinishCloseKeepsInv(q);
  }

  lemma InitialInv(q: Queue)
    requires Initial(q)
    ensures Inv(q)
  {
    assert Live(q) == [];
  }

  /** The invariant holds after every legal run, whatever commands arrive when. */
  lemma {:induction false} RunKeepsInv(q: Queue, run: seq<Step>)
    requires Inv(q) && Legal(q, run)
    ensures Inv(After(q, run))
    decreases |run|
  {
    if run != [] {
      StepKeepsInv(q, run[0]);
      RunKeepsInv(Apply(q, run[0]), run[1..]);
    }
  }
}
