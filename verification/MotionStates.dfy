/** What each published state shows, told from the other events of the log. */
module MotionStates {
  import opened Common
  import opened Protocol
  import opened DeviceModel
  import opened Motion
  import opened MotionInvariant
  import opened MotionMonitor
  import opened MotionLifecycle
  import opened MotionRest
  import opened MotionInterrupt

  // ---- a reader of the log ----------------------------------------------------------------

  /** The state shown last, and the types of the commands that were queued. */
  datatype Viewer = Viewer(shown: Snapshot, types: map<Id, CommandType>)

  /** What a command of this type does is called so. */
  predicate Fits(t: CommandType, action: Action) {
    match t
    case MotionAbsoluteMove => action.AbsoluteMoving?
    case MotionRelativeMove => action.RelativeMoving?
    case MotionPlay => action.Playing?
    case DeviceRest => action.EnteringRest?
    case _ => false
  }

  predicate Knows(v: Viewer, id: Id, action: Action) {
    id in v.types && Fits(v.types[id], action)
  }

  /** The joints shown are at these positions. */
  ghost predicate AtPose(views: map<JointName, JointView>, pose: Pose) {
    && views.Keys == pose.Keys
    && forall n :: n in views ==> views[n].pos == pose[n]
  }

  predicate IsLightCommand(t: CommandType) {
    t.LightSolid? || t.LightPaint? || t.LightBrightness?
  }

  /** What an applied command may change: a light command one side of the light, a status command the status. */
  predicate ShowsApplied(a: Snapshot, t: CommandType, b: Snapshot) {
    && b.motion == a.motion && b.queueSize == a.queueSize
    && (b.status == a.status || t.StatusSet?)
    && (b.light == a.light || IsLightCommand(t))
    && (t.LightBrightness? ==> b.light == a.light.(brightness := b.light.brightness))
    && (t.LightSolid? || t.LightPaint? ==> b.light == a.light.(pixels := b.light.pixels))
  }

  /** The status that the end of a job leaves. */
  predicate StatusOnEnd(before: StatusMode, action: Action, outcome: Outcome, after: StatusMode) {
    match outcome
    case Failed(_) => after == ErrorMode
    case Cancelled(_) => after == before
    case Completed =>
      match before
      case ErrorMode => after == ErrorMode
      case Starting => after == if action.EnteringRest? then Resting else Active
      case _ => after == if action.EnteringRest? then Resting else before
  }

  /** Except for its revision, a state differs from the one before only in what its cause says. */
  ghost predicate Shows(v: Viewer, cause: Event, b: Snapshot) {
    var a := v.shown;
    && b == a.(revision := a.revision + 1, motion := b.motion, light := b.light, status := b.status, strip := b.strip,
               queueSize := b.queueSize)
    && (b.status == a.status ==> b.strip == a.strip)
    && match cause
       case Accepted(_, t, queued) =>
         if queued
         then b.motion == a.motion && b.light == a.light && b.status == a.status
              && b.queueSize == if t.DeviceRest? then 1 else a.queueSize + 1
         else ShowsApplied(a, t, b)
       case Started(id, t, action, _) =>
         && Knows(v, id, action) && v.types[id] == t && a.motion.kind != Moving
         && b.motion == MotionView(Moving, Some(action), a.motion.joints) && b.light == a.light
         && b.queueSize == a.queueSize - 1
         && b.status == if a.status.Resting? && !t.DeviceRest? then Starting else a.status
       case Progress(id, action, _, _, pose) =>
         && Knows(v, id, action) && a.motion.kind == Moving && a.motion.action == Some(action)
         && b.motion == a.motion.(joints := b.motion.joints) && AtPose(b.motion.joints, pose)
         && b.light == a.light && b.status == a.status && b.queueSize == a.queueSize
       case Finished(id, action, outcome, _, pose) =>
         && Knows(v, id, action)
         && (outcome == Cancelled(ForShutdown) || (a.motion.kind == Moving && a.motion.action == Some(action)))
         && b.motion == MotionView(if outcome.Failed? then MotionFault else Idle, None, a.motion.joints)
         && AtPose(b.motion.joints, pose) && b.light == a.light
         && StatusOnEnd(a.status, action, outcome, b.status)
         && b.queueSize == if outcome == Cancelled(ForShutdown) then 0 else a.queueSize
       case _ => false
  }

  /**
   Reads a log as stretches of one state and its cause each: an acceptance, a
   start or a progress report stands before its state, the end of a job after
   it.  Refusals and the ends of jobs that a rest replaced stand alone.
   */
  ghost function Tell(v: Viewer, log: seq<Event>): Option<Viewer>
    decreases |log|
  {
    if log == [] then Some(v)
    else
      match log[0]
      case Error(_, _, _) => Tell(v, log[1..])
      case Finished(id, action, outcome, elapsedMs, pose) =>
        if Knows(v, id, action) && outcome == Cancelled(ForRest) && elapsedMs == 0
           && AtPose(v.shown.motion.joints, pose)
        then Tell(v, log[1..]) else None
      case StateChanged(id, state) =>
        if |log| > 1 && log[1].Finished? && log[1].id == id && Shows(v, log[1], state)
        then Tell(v.(shown := state), log[2..]) else None
      case _ =>
        if |log| > 1 && log[1].StateChanged? && log[1].id == log[0].id && Shows(v, log[0], log[1].state)
        then Tell(Viewer(log[1].state, Noted(v, log[0])), log[2..]) else None
  }

  function Noted(v: Viewer, e: Event): map<Id, CommandType> {
    if e.Accepted? && e.queued then v.types[e.id := e.commandType] else v.types
  }

  lemma {:induction false} TellConcat(v: Viewer, first: seq<Event>, second: seq<Event>)
    requires Tell(v, first).Some?
    ensures Tell(v, first + second) == Tell(Tell(v, first).value, second)
    decreases |first|
  {
    var all := first + second;
    if first == [] {
      assert all == second;
    } else if first[0].Error? || first[0].Finished? {
      assert all[1..] == first[1..] + second;
      TellConcat(v, first[1..], second);
    } else {
      assert all[0] == first[0] && all[1] == first[1] && all[2..] == first[2..] + second;
      var next := if first[0].StateChanged? then v.(shown := first[0].state)
                  else Viewer(first[1].state, Noted(v, first[0]));
      TellConcat(next, first[2..], second);
    }
  }

  lemma TellPair(v: Viewer, cause: Event, state: Event)
    requires cause.Accepted? || cause.Started? || cause.Progress?
    requires state.StateChanged? && state.id == cause.id && Shows(v, cause, state.state)
    ensures Tell(v, [cause, state]) == Some(Viewer(state.state, Noted(v, cause)))
  {
    assert [cause, state][2..] == [];
  }

  lemma TellEnd(v: Viewer, state: Event, end: Event)
    requires end.Finished? && state.StateChanged? && state.id == end.id && Shows(v, end, state.state)
    ensures Tell(v, [state, end]) == Some(v.(shown := state.state))
  {
    assert [state, end][2..] == [];
  }

  // ---- the queue as the reader sees it -----------------------------------------------------

  /** The reader has the device's state and the types of all live jobs; the device moves exactly while a job runs. */
  ghost predicate Sees(v: Viewer, q: Queue) {
    && v.shown == SnapshotOf(q.dev)
    && (forall j :: j in Live(q) ==> Knows(v, j.id, j.action) && v.types[j.id] == j.commandType)
    && (q.current.Some? ==> q.dev.kind == Moving && q.dev.action == Some(q.current.value.job.action))
    && (q.current.None? ==> q.dev.kind != Moving)
  }

  /** From what v shows, the log leads to what r is. */
  ghost predicate Explained(v: Viewer, r: Queue, log: seq<Event>) {
    Tell(v, log).Some? && Sees(Tell(v, log).value, r)
  }

  lemma PreparedFits(id: Id, command: MotionCommand, projected: Pose)
    ensures Prepare(id, command, projected).Some? ==>
      var job := Prepare(id, command, projected).value;
      Fits(job.commandType, job.action) && job.commandType == TypeOf(Motion(command))
  {
  }

  lemma PoseIsShown(d: Device)
    requires forall n :: n in d.joints ==> ProfileOf(n).Some?
    ensures AtPose(SnapshotOf(d).motion.joints, d.joints)
  {
  }

  // ---- accepting -----------------------------------------------------------------------------

  lemma {:induction false} ReplacedAreTold(v: Viewer, jobs: seq<Job>, pose: Pose)
    requires forall j :: j in jobs ==> Knows(v, j.id, j.action)
    requires AtPose(v.shown.motion.joints, pose)
    ensures Tell(v, RestCancellations(jobs, pose)) == Some(v)
  {
    if jobs != [] {
      assert jobs[0] in jobs && forall j :: j in jobs[1..] ==> j in jobs;
      ReplacedAreTold(v, jobs[1..], pose);
      var log := RestCancellations(jobs, pose);
      assert log[1..] == RestCancellations(jobs[1..], pose);
    }
  }

  lemma AcceptanceShows(v: Viewer, q: Queue, job: Job)
    requires Inv(q) && Sees(v, q) && (job.resting <==> job.commandType == DeviceRest)
    ensures Shows(v, Accepted(job.id, job.commandType, true), SnapshotOf(Accept(q, job).dev))
  {
  }

  /** The reader after an acceptance. */
  function Took(v: Viewer, q: Queue, job: Job): Viewer {
    Viewer(SnapshotOf(Accept(q, job).dev), v.types[job.id := job.commandType])
  }

  lemma TookKnows(v: Viewer, q: Queue, job: Job)
    requires JobsInv(q) && Sees(v, q) && job.id !in q.seenIds
    ensures forall j :: j in Live(q) ==>
      Knows(Took(v, q, job), j.id, j.action) && Took(v, q, job).types[j.id] == j.commandType
    ensures forall j :: j in q.waiting ==> j in Live(q)
  {
    LiveIdsDiffer(q, job.id);
  }

  lemma AcceptIsRead(v: Viewer, q: Queue, job: Job)
    requires Inv(q) && Sees(v, q) && JobOk(job) && job.id !in q.seenIds && Fits(job.commandType, job.action)
    ensures Tell(v, NewEvents(q, Accept(q, job))) == Some(Took(v, q, job))
  {
    var head := [Accepted(job.id, job.commandType, true), StateEvent(job.id, Accept(q, job).dev)];
    AcceptanceShows(v, q, job);
    TellPair(v, head[0], head[1]);
    AcceptEvents(q, job);
    TookKnows(v, q, job);
    PoseIsShown(q.dev);
    ReplacedAreTold(Took(v, q, job), q.waiting, q.dev.joints);
    TellConcat(v, head, Replaced(q, job));
  }

  lemma AcceptIsSeen(v: Viewer, q: Queue, job: Job)
    requires JobsInv(q) && Sees(v, q) && job.id !in q.seenIds && Fits(job.commandType, job.action)
    ensures Sees(Took(v, q, job), Accept(q, job))
  {
    TookKnows(v, q, job);
    KeptJobs(q, job);
  }

  lemma AcceptIsExplained(v: Viewer, q: Queue, job: Job)
    requires Inv(q) && Sees(v, q) && JobOk(job) && Rejection(q, job).None? && Fits(job.commandType, job.action)
    ensures Explained(v, Accept(q, job), NewEvents(q, Accept(q, job)))
  {
    AcceptIsRead(v, q, job);
    AcceptIsSeen(v, q, job);
  }

  lemma LiveIdsDiffer(q: Queue, id: Id)
    requires JobsInv(q) && id !in q.seenIds
    ensures forall j :: j in Live(q) ==> j.id != id
    ensures forall j :: j in q.waiting ==> j in Live(q)
  {
  }

  lemma MutatedFields(dev: Device, body: Body)
    requires Mutated(dev, body).Some?
    ensures var d, t := Mutated(dev, body).value, TypeOf(body);
      && d == dev.(pixels := d.pixels, brightness := d.brightness, status := d.status)
      && (!t.StatusSet? ==> d.status == dev.status)
      && (!t.LightBrightness? ==> d.brightness == dev.brightness)
      && (!t.LightSolid? && !t.LightPaint? ==> d.pixels == dev.pixels)
  {
  }

  lemma ImmediateShows(v: Viewer, q: Queue, c: Command, d: Device)
    requires Sees(v, q) && Mutated(q.dev, c.body) == Some(d)
    ensures Shows(v, Accepted(c.id, TypeOf(c.body), false), SnapshotOf(Published(d)))
  {
    MutatedFields(q.dev, c.body);
  }

  lemma ImmediateIsExplained(v: Viewer, q: Queue, c: Command, d: Device)
    requires Inv(q) && Sees(v, q) && Mutated(q.dev, c.body) == Some(d)
    ensures var log := [Accepted(c.id, TypeOf(c.body), false), StateEvent(c.id, Published(d))];
      Explained(v, Emit(q.(dev := Published(d)), log), log)
  {
    var log := [Accepted(c.id, TypeOf(c.body), false), StateEvent(c.id, Published(d))];
    ImmediateShows(v, q, c, d);
    TellPair(v, log[0], log[1]);
    MutatedFields(q.dev, c.body);
    assert Live(Emit(q.(dev := Published(d)), log)) == Live(q);
  }

  lemma RefusalIsExplained(v: Viewer, q: Queue, e: Event)
    requires Sees(v, q) && e.Error?
    ensures Explained(v, Emit(q, [e]), [e])
  {
    assert [e][1..] == [] && Live(Emit(q, [e])) == Live(q);
  }

  lemma EnqueueIsExplained(v: Viewer, q: Queue, id: Id, command: MotionCommand)
    requires Inv(q) && Sees(v, q)
    ensures Explained(v, Enqueue(q, id, command), NewEvents(q, Enqueue(q, id, command)))
  {
    var r := Enqueue(q, id, command);
    var job := Prepare(id, command, q.projected);
    PreparedFits(id, command, q.projected);
    PreparedJobIsOk(id, command, q.projected);
    if job.Some? && Rejection(q, job.value).None? {
      AcceptIsExplained(v, q, job.value);
    } else {
      assert NewEvents(q, r) == [NewEvents(q, r)[0]];
      RefusalIsExplained(v, q, NewEvents(q, r)[0]);
    }
  }

  lemma ExecuteIsExplained(v: Viewer, q: Queue, c: Command)
    requires Inv(q) && Sees(v, q)
    ensures Explained(v, Execute(q, c), NewEvents(q, Execute(q, c)))
  {
    var log := NewEvents(q, Execute(q, c));
    if c.deviceId == q.dev.deviceId && c.body.Motion? {
      EnqueueIsExplained(v, q, c.id, c.body.command);
    } else if c.deviceId == q.dev.deviceId && !c.body.Unsupported? && Mutated(q.dev, c.body).Some? {
      var d := Mutated(q.dev, c.body).value;
      ImmediateIsExplained(v, q, c, d);
      assert log == [Accepted(c.id, TypeOf(c.body), false), StateEvent(c.id, Published(d))];
    } else {
      assert log == [log[0]];
      RefusalIsExplained(v, q, log[0]);
    }
  }

  // ---- the worker ------------------------------------------------------------------------------

  lemma StartIsExplained(v: Viewer, q: Queue)
    requires Inv(q) && Sees(v, q) && CanStart(q)
    ensures Explained(v, Start(q), NewEvents(q, Start(q)))
  {
    var r, job := Start(q), q.waiting[0];
    var log := NewEvents(q, r);
    StartKeepsInv(q);
    assert Live(q)[|CurrentJob(q)|] == job && job in Live(q);
    assert JobOk(job);
    assert log == [Started(job.id, job.commandType, job.action, job.durationMs), StateEvent(job.id, r.dev)];
    TellPair(v, log[0], log[1]);
  }

  lemma MoveIsExplained(v: Viewer, q: Queue)
    requires Inv(q) && Sees(v, q) && CanTick(q)
    ensures Explained(v, Move(q), NewEvents(q, Move(q)))
  {
    var m, job := Move(q), q.current.value.job;
    var log := NewEvents(q, m);
    MoveKeepsDevice(q);
    MoveKeepsJobs(q);
    assert Live(q)[0] == job;
    PoseIsShown(m.dev);
    MoveEvents(q);
    assert log == [log[0], log[1]];
    TellPair(v, log[0], log[1]);
    assert Live(m) == Live(q);
  }

  lemma EndShows(v: Viewer, q: Queue, outcome: Outcome)
    requires DeviceInv(q) && JobsInv(q) && Sees(v, q) && q.current.Some? && outcome != Cancelled(ForShutdown)
    ensures var job := q.current.value.job;
      Shows(v, Finished(job.id, job.action, outcome, q.current.value.elapsedMs, q.dev.joints),
            SnapshotOf(Finish(q, outcome).dev))
  {
    assert Live(q)[0] == q.current.value.job;
    assert JobOk(q.current.value.job);
    PoseIsShown(q.dev);
  }

  lemma FinishIsExplained(v: Viewer, q: Queue, outcome: Outcome)
    requires DeviceInv(q) && JobsInv(q) && Sees(v, q) && q.current.Some? && outcome != Cancelled(ForShutdown)
    ensures Explained(v, Finish(q, outcome), NewEvents(q, Finish(q, outcome)))
  {
    var log := NewEvents(q, Finish(q, outcome));
    EndShows(v, q, outcome);
    FinishEvents(q, outcome);
    TellEnd(v, log[0], log[1]);
    assert forall j :: j in q.waiting ==> j in Live(q);
  }

  lemma ExplainedTwice(v: Viewer, m: Queue, r: Queue, first: seq<Event>, second: seq<Event>)
    requires Explained(v, m, first) && Explained(Tell(v, first).value, r, second)
    ensures Explained(v, r, first + second)
  {
    TellConcat(v, first, second);
  }

  lemma TickIsExplained(v: Viewer, q: Queue)
    requires Inv(q) && Sees(v, q) && CanTick(q)
    ensures Explained(v, Tick(q), NewEvents(q, Tick(q)))
  {
    var m := Move(q);
    MoveIsExplained(v, q);
    MoveKeepsDevice(q);
    MoveKeepsJobs(q);
    if q.current.value.done + 1 == q.steps {
      TickEvents(q);
      FinishIsExplained(Tell(v, NewEvents(q, m)).value, m, Completed);
      ExplainedTwice(v, m, Tick(q), NewEvents(q, m), NewEvents(m, Tick(q)));
    } else {
      assert Tick(q) == m;
    }
  }

  lemma SilentIsExplained(v: Viewer, q: Queue, r: Queue)
    requires Sees(v, q) && NewEvents(q, r) == [] && r.dev == q.dev && Live(r) == Live(q)
    requires CurrentJob(r) == CurrentJob(q)
    ensures Explained(v, r, NewEvents(q, r))
  {
    assert q.current.Some? ==> CurrentJob(q)[0] == CurrentJob(r)[0];
  }

  lemma StepIsExplained(v: Viewer, q: Queue, s: Step)
    requires Inv(q) && Sees(v, q) && Enabled(q, s) && !s.DoFinishClose?
    ensures Explained(v, Apply(q, s), NewEvents(q, Apply(q, s)))
  {
    match s
    case DoExecute(c) => ExecuteIsExplained(v, q, c);
    case DoStart => StartIsExplained(v, q);
    case DoSleepDone => SilentIsExplained(v, q, Apply(q, s));
    case DoTick => TickIsExplained(v, q);
    case DoInterrupt => FinishIsExplained(v, q, Cancelled(ForRest));
    case DoFail(error) => FinishIsExplained(v, q, Failed(error));
    case DoBeginClose => SilentIsExplained(v, q, Apply(q, s));
  }

  // ---- closing -----------------------------------------------------------------------------------

  lemma {:induction false} ShutdownIsExplained(v: Viewer, dev: Device, jobs: seq<Job>, elapsedMs: int)
    requires forall j :: j in jobs ==> Knows(v, j.id, j.action)
    requires FullPose(dev.joints) && dev.kind == Idle && dev.action.None? && dev.queueSize == 0
    requires v.shown == SnapshotOf(dev).(motion := v.shown.motion, queueSize := v.shown.queueSize)
    requires v.shown.motion.joints == JointViews(dev.joints)
    ensures Tell(v, ShutdownEvents(dev, jobs, elapsedMs)).Some?
    decreases |jobs|
  {
    if jobs != [] {
      assert jobs[0] in jobs && forall j :: j in jobs[1..] ==> j in jobs;
      var log := ShutdownEvents(dev, jobs, elapsedMs);
      var state, end := StateEvent(jobs[0].id, Published(dev)),
                        Finished(jobs[0].id, jobs[0].action, Cancelled(ForShutdown), elapsedMs, dev.joints);
      PoseIsShown(dev);
      assert Shows(v, end, state.state);
      TellEnd(v, state, end);
      ShutdownIsExplained(v.(shown := state.state), Published(dev), jobs[1..], 0);
      TellConcat(v, [state, end], ShutdownEvents(Published(dev), jobs[1..], 0));
    }
  }

  lemma FinishCloseIsTold(v: Viewer, q: Queue)
    requires Inv(q) && Sees(v, q) && CanFinishClose(q)
    ensures Tell(v, NewEvents(q, FinishClose(q))).Some?
  {
    CloseEvents(q);
    ShutdownIsExplained(v, StoppedForGood(q.dev, q.capacity), Live(q), CurrentElapsed(q));
  }

  // ---- runs -----------------------------------------------------------------------------------------

  lemma {:induction false} RunIsExplained(v: Viewer, q: Queue, run: seq<Step>)
    requires Inv(q) && Sees(v, q) && Legal(q, run) && After(q, run).stage != Closed
    ensures Explained(v, After(q, run), NewEvents(q, After(q, run)))
    decreases |run|
  {
    if run == [] {
      assert NewEvents(q, q) == [];
    } else {
      var m, r := Apply(q, run[0]), After(q, run);
      StepKeepsInv(q, run[0]);
      if run[0].DoFinishClose? {
        ClosedForGood(m, run[1..]);
      }
      StepIsExplained(v, q, run[0]);
      SplitEvents(q, run[0], run[1..]);
      RunIsExplained(Tell(v, NewEvents(q, m)).value, m, run[1..]);
      ExplainedTwice(v, m, r, NewEvents(q, m), NewEvents(m, r));
    }
  }

  /** The reader at the beginning. */
  function NewViewer(q: Queue): Viewer {
    Viewer(SnapshotOf(q.dev), map[])
  }

  /**
   On every run of a queue that is not closed, each state differs from the one
   before exactly in what the event beside it says, and the device is shown
   moving, with the action of the running job, exactly while a job runs.
   */
  lemma EveryStateIsExplained(q: Queue, run: seq<Step>)
    requires Initial(q) && q.dev.kind != Moving && Legal(q, run) && After(q, run).stage != Closed
    ensures Explained(NewViewer(q), After(q, run), After(q, run).trace)
  {
    InitialInv(q);
    assert Live(q) == [];
    RunIsExplained(NewViewer(q), q, run);
    RunIsObserved(q, run);
    assert NewEvents(q, After(q, run)) == After(q, run).trace;
  }

  /** So does each state that closing publishes. */
  lemma ClosingIsExplained(q: Queue, run: seq<Step>)
    requires Initial(q) && q.dev.kind != Moving && Legal(q, run) && CanFinishClose(After(q, run))
    ensures Tell(NewViewer(q), FinishClose(After(q, run)).trace).Some?
  {
    var r := After(q, run);
    EveryStateIsExplained(q, run);
    InitialInv(q);
    RunKeepsInv(q, run);
    CloseEvents(r);
    FinishCloseIsTold(Tell(NewViewer(q), r.trace).value, r);
    TellConcat(NewViewer(q), r.trace, CloseLog(r));
  }

  // ---- a completed motion wakes the device up ----------------------------------------------

  /** The device may rest while a job runs: the job is a rest, or a status command was applied since it started. */
  function MayRest(may: bool, e: Event): bool {
    if e.Started? then e.commandType.DeviceRest?
    else may || (e.Accepted? && !e.queued && e.commandType.StatusSet?)
  }

  /** The state in front of the end of a completed motion. */
  predicate EndsMotion(log: seq<Event>) {
    && |log| > 1 && log[0].StateChanged? && log[1].Finished? && log[1].outcome.Completed?
    && !log[1].action.EnteringRest?
  }

  predicate WakesUp(may: bool, log: seq<Event>)
    decreases |log|
  {
    log == [] || (
      && (EndsMotion(log) ==> !log[0].state.status.Starting? && (log[0].state.status.Resting? ==> may))
      && WakesUp(MayRest(may, log[0]), log[1..]))
  }

  lemma {:induction false} ToldWakesUp(v: Viewer, may: bool, log: seq<Event>)
    requires Tell(v, log).Some?
    requires v.shown.motion.kind == Moving && v.shown.status.Resting? ==> may
    ensures WakesUp(may, log)
    decreases |log|
  {
    if log != [] {
      if log[0].Error? || log[0].Finished? {
        ToldWakesUp(v, may, log[1..]);
      } else {
        var state := if log[0].StateChanged? then log[0].state else log[1].state;
        var next := MayRest(MayRest(may, log[0]), log[1]);
        assert log[1..][1..] == log[2..];
        ToldWakesUp(Viewer(state, Noted(v, log[0])), next, log[2..]);
        assert !EndsMotion(log[1..]);
      }
    }
  }

  /**
   After a completed motion the state shown is never starting, and it is resting
   only if a status command was applied while the motion ran.
   */
  lemma CompletedMotionWakesUp(q: Queue, run: seq<Step>)
    requires Initial(q) && q.dev.kind != Moving && Legal(q, run) && After(q, run).stage != Closed
    ensures WakesUp(false, After(q, run).trace)
  {
    EveryStateIsExplained(q, run);
    ToldWakesUp(NewViewer(q), false, After(q, run).trace);
  }
}
