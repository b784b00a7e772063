/** What subscribers learn: contiguous revisions, valid payloads, and a latest state that is the device itself. */
module MotionPublish {
  import opened Common
  import opened Protocol
  import opened DeviceModel
  import opened Motion
  import opened MotionInvariant
  import opened MotionLifecycle
  import opened MotionRest
  import opened MotionInterrupt

  /** The revision after a log in which each state carries the successor of the one before; None if one does not. */
  function Counted(revision: int, log: seq<Event>): Option<int>
    decreases |log|
  {
    if log == [] then Some(revision)
    else if !log[0].StateChanged? then Counted(revision, log[1..])
    else if log[0].state.revision != revision + 1 then None
    else Counted(revision + 1, log[1..])
  }

  function LatestState(log: seq<Event>): Option<Snapshot> {
    if log == [] then None
    else if log[|log| - 1].StateChanged? then Some(log[|log| - 1].state)
    else LatestState(log[..|log| - 1])
  }

  ghost predicate AllValid(log: seq<Event>, deviceId: string) {
    forall e :: e in log && e.StateChanged? ==> ValidState(e.state, Some(deviceId))
  }

  ghost predicate AllSized(log: seq<Event>, size: int) {
    forall e :: e in log && e.StateChanged? ==> e.state.queueSize == size
  }

  /** The latest state in the log, if there is one, is the state of the device. */
  ghost predicate UpToDate(log: seq<Event>, dev: Device) {
    LatestState(log).Some? ==> LatestState(log).value == SnapshotOf(dev)
  }

  /** A stretch of log that leads from one device to another. */
  ghost predicate Story(dev: Device, log: seq<Event>, after: Device) {
    && Counted(dev.revision, log) == Some(after.revision)
    && AllValid(log, dev.deviceId) && after.deviceId == dev.deviceId
    && UpToDate(log, after)
    && (LatestState(log).None? ==> forall e :: e in log ==> !e.StateChanged?)
  }

  lemma {:induction false} CountedConcat(revision: int, a: seq<Event>, b: seq<Event>)
    requires Counted(revision, a).Some?
    ensures Counted(revision, a + b) == Counted(Counted(revision, a).value, b)
    decreases |a|
  {
    if a == [] {
      assert a + b == b;
    } else {
      assert (a + b)[1..] == a[1..] + b;
      CountedConcat(if a[0].StateChanged? then revision + 1 else revision, a[1..], b);
    }
  }

  lemma {:induction false} LatestConcat(a: seq<Event>, b: seq<Event>)
    ensures LatestState(a + b) == if LatestState(b).Some? then LatestState(b) else LatestState(a)
    decreases |b|
  {
    if b == [] {
      assert a + b == a;
    } else {
      assert (a + b)[..|a + b| - 1] == a + b[..|b| - 1];
      LatestConcat(a, b[..|b| - 1]);
    }
  }

  lemma {:induction false} NoStates(revision: int, log: seq<Event>)
    requires forall e :: e in log ==> !e.StateChanged?
    ensures Counted(revision, log) == Some(revision)
    decreases |log|
  {
    if log != [] {
      assert log[0] in log && forall e :: e in log[1..] ==> e in log;
      NoStates(revision, log[1..]);
    }
  }

  lemma {:induction false} NoLatest(log: seq<Event>)
    requires forall e :: e in log ==> !e.StateChanged?
    ensures LatestState(log) == None
  {
    if log != [] {
      assert log[|log| - 1] in log && forall e :: e in log[..|log| - 1] ==> e in log;
      NoLatest(log[..|log| - 1]);
    }
  }

  lemma SilentStory(dev: Device, log: seq<Event>, after: Device)
    requires forall e :: e in log ==> !e.StateChanged?
    requires after.revision == dev.revision && after.deviceId == dev.deviceId
    ensures Story(dev, log, after)
  {
    NoStates(dev.revision, log);
    NoLatest(log);
  }

  lemma SnapshotFields(d: Device)
    ensures SnapshotOf(d).revision == d.revision && SnapshotOf(d).queueSize == d.queueSize
  {
  }

  lemma OneStateStory(dev: Device, id: Id, after: Device)
    requires after.revision == dev.revision + 1 && after.deviceId == dev.deviceId && ValidDevice(after)
    ensures Story(dev, [StateEvent(id, after)], after) && AllSized([StateEvent(id, after)], after.queueSize)
  {
    PublishedStateIsValid(after);
    SnapshotFields(after);
    var log := [StateEvent(id, after)];
    assert log[0].state == SnapshotOf(after) && log[1..] == [];
    assert Counted(dev.revision, log) == Counted(dev.revision + 1, log[1..]);
    assert LatestState(log) == Some(SnapshotOf(after));
  }

  /** Stories follow one another; a silent one must leave the device as it is. */
  lemma StoryConcat(dev: Device, a: seq<Event>, m: Device, b: seq<Event>, after: Device)
    requires Story(dev, a, m) && Story(m, b, after)
    requires LatestState(b).None? ==> SnapshotOf(m) == SnapshotOf(after)
    ensures Story(dev, a + b, after)
  {
    CountedConcat(dev.revision, a, b);
    LatestConcat(a, b);
  }

  lemma SizedConcat(a: seq<Event>, b: seq<Event>, size: int)
    requires AllSized(a, size) && AllSized(b, size)
    ensures AllSized(a + b, size)
  {
  }

  /** One state among other events. */
  lemma StoryInContext(dev: Device, before: seq<Event>, id: Id, rest: seq<Event>, after: Device)
    requires after.revision == dev.revision + 1 && after.deviceId == dev.deviceId && ValidDevice(after)
    requires forall e :: e in before ==> !e.StateChanged?
    requires forall e :: e in rest ==> !e.StateChanged?
    ensures Story(dev, before + [StateEvent(id, after)] + rest, after)
    ensures LatestState(before + [StateEvent(id, after)] + rest).Some?
    ensures AllSized(before + [StateEvent(id, after)] + rest, after.queueSize)
  {
    OneStateStory(dev, id, after);
    var one := [StateEvent(id, after)];
    SilentStory(dev, before, dev);
    StoryConcat(dev, before, dev, one, after);
    SilentStory(after, rest, after);
    StoryConcat(dev, before + one, after, rest, after);
    NoLatest(rest);
    LatestConcat(before + one, rest);
    LatestConcat(before, one);
  }

  // ---- the steps -----------------------------------------------------------------------------

  /** Each step tells a story whose states all show the number of jobs waiting after it. */
  ghost predicate Told(q: Queue, r: Queue) {
    && Story(q.dev, NewEvents(q, r), r.dev)
    && AllSized(NewEvents(q, r), |r.waiting|)
  }

  lemma AcceptIsTold(q: Queue, job: Job)
    requires Inv(q) && JobOk(job) && Rejection(q, job).None?
    ensures Told(q, Accept(q, job)) && LatestState(NewEvents(q, Accept(q, job))).Some?
  {
    var r := Accept(q, job);
    AcceptKeepsInv(q, job);
    CancellationShape(q.waiting, q.dev.joints);
    var tail := Replaced(q, job);
    StoryInContext(q.dev, [Accepted(job.id, job.commandType, true)], job.id, tail, r.dev);
    AcceptEvents(q, job);
    assert NewEvents(q, r) == [Accepted(job.id, job.commandType, true)] + [StateEvent(job.id, r.dev)] + tail;
  }

  lemma FinishIsTold(q: Queue, outcome: Outcome)
    requires DeviceInv(q) && JobsInv(q) && q.current.Some? && q.stage == Open
    ensures Told(q, Finish(q, outcome)) && LatestState(NewEvents(q, Finish(q, outcome))).Some?
  {
    FinishKeepsInv(q, outcome);
    FinishEvents(q, outcome);
    var r, job := Finish(q, outcome), q.current.value.job;
    var tail := [Finished(job.id, job.action, outcome, q.current.value.elapsedMs, q.dev.joints)];
    StoryInContext(q.dev, [], job.id, tail, r.dev);
    assert NewEvents(q, r) == [] + [StateEvent(job.id, r.dev)] + tail;
  }

  lemma MoveIsTold(q: Queue)
    requires Inv(q) && CanTick(q)
    ensures Told(q, Move(q)) && LatestState(NewEvents(q, Move(q))).Some?
  {
    MoveKeepsDevice(q);
    var m, r := Move(q), q.current.value;
    var head := [Progress(r.job.id, r.job.action, Fraction(r.done + 1, q.steps), m.current.value.elapsedMs,
                          m.dev.joints)];
    StoryInContext(q.dev, head, r.job.id, [], m.dev);
    assert NewEvents(q, m) == head + [StateEvent(r.job.id, m.dev)] + [];
  }

  lemma TickIsTold(q: Queue)
    requires Inv(q) && CanTick(q)
    ensures Told(q, Tick(q)) && LatestState(NewEvents(q, Tick(q))).Some?
  {
    MoveIsTold(q);
    if q.current.value.done + 1 < q.steps {
      assert Tick(q) == Move(q);
    } else {
      TickEvents(q);
      MoveKeepsDevice(q);
      MoveKeepsJobs(q);
      FinishIsTold(Move(q), Completed);
      StoryConcat(q.dev, NewEvents(q, Move(q)), Move(q).dev, NewEvents(Move(q), Tick(q)), Tick(q).dev);
      SizedConcat(NewEvents(q, Move(q)), NewEvents(Move(q), Tick(q)), |q.waiting|);
      LatestConcat(NewEvents(q, Move(q)), NewEvents(Move(q), Tick(q)));
    }
  }

  lemma StartIsTold(q: Queue)
    requires Inv(q) && CanStart(q)
    ensures Told(q, Start(q)) && LatestState(NewEvents(q, Start(q))).Some?
  {
    StartKeepsInv(q);
    var r, job := Start(q), q.waiting[0];
    var head := [Started(job.id, job.commandType, job.action, job.durationMs)];
    StoryInContext(q.dev, head, job.id, [], r.dev);
    assert NewEvents(q, r) == head + [StateEvent(job.id, r.dev)] + [];
  }

  function OneShutdown(dev: Device, job: Job, elapsedMs: int): seq<Event> {
    [StateEvent(job.id, Published(dev)), Finished(job.id, job.action, Cancelled(ForShutdown), elapsedMs, dev.joints)]
  }

  lemma OneShutdownIsTold(dev: Device, job: Job, elapsedMs: int)
    requires ValidDevice(dev)
    ensures var log := OneShutdown(dev, job, elapsedMs);
      Story(dev, log, Published(dev)) && AllSized(log, dev.queueSize) && LatestState(log).Some?
  {
    var last := [Finished(job.id, job.action, Cancelled(ForShutdown), elapsedMs, dev.joints)];
    StoryInContext(dev, [], job.id, last, Published(dev));
    assert OneShutdown(dev, job, elapsedMs) == [] + [StateEvent(job.id, Published(dev))] + last;
  }

  lemma {:induction false} ShutdownIsTold(dev: Device, jobs: seq<Job>, elapsedMs: int)
    requires ValidDevice(dev)
    ensures var log := ShutdownEvents(dev, jobs, elapsedMs);
      && Story(dev, log, dev.(revision := dev.revision + |jobs|)) && AllSized(log, dev.queueSize)
      && (LatestState(log).None? <==> jobs == [])
    decreases |jobs|
  {
    if jobs == [] {
      SilentStory(dev, [], dev);
    } else {
      var next := Published(dev);
      var head := OneShutdown(dev, jobs[0], elapsedMs);
      OneShutdownIsTold(dev, jobs[0], elapsedMs);
      var tail := ShutdownEvents(next, jobs[1..], 0);
      ShutdownIsTold(next, jobs[1..], 0);
      StoryConcat(dev, head, next, tail, dev.(revision := dev.revision + |jobs|));
      SizedConcat(head, tail, dev.queueSize);
      LatestConcat(head, tail);
      assert ShutdownEvents(dev, jobs, elapsedMs) == head + tail;
    }
  }

  /** Only the revision and the name of the first device matter. */
  lemma StoryFrom(dev: Device, other: Device, log: seq<Event>, after: Device)
    requires Story(dev, log, after) && other.revision == dev.revision && other.deviceId == dev.deviceId
    ensures Story(other, log, after)
  {
  }

  lemma StoppedForGoodIsValid(q: Queue)
    requires DeviceInv(q)
    ensures var dev := StoppedForGood(q.dev, q.capacity);
      ValidDevice(dev) && dev.queueSize == 0 && dev.revision == q.dev.revision && dev.deviceId == q.dev.deviceId
  {
  }

  lemma CloseStory(q: Queue)
    requires DeviceInv(q)
    ensures var dev := StoppedForGood(q.dev, q.capacity);
      Story(q.dev, CloseLog(q), dev.(revision := dev.revision + |Live(q)|)) && AllSized(CloseLog(q), 0)
  {
    var dev := StoppedForGood(q.dev, q.capacity);
    StoppedForGoodIsValid(q);
    ShutdownIsTold(dev, Live(q), CurrentElapsed(q));
    StoryFrom(dev, q.dev, CloseLog(q), dev.(revision := dev.revision + |Live(q)|));
  }

  lemma FinishCloseIsTold(q: Queue)
    requires Inv(q) && CanFinishClose(q)
    ensures Told(q, FinishClose(q))
  {
    CloseEvents(q);
    CloseStory(q);
  }

  lemma ImmediateIsTold(q: Queue, c: Command, dev: Device)
    requires Inv(q) && ValidDevice(dev) && dev.deviceId == q.dev.deviceId && dev.revision == q.dev.revision + 1
    requires dev.queueSize == |q.waiting|
    ensures var r := Emit(q.(dev := dev), [Accepted(c.id, TypeOf(c.body), false), StateEvent(c.id, dev)]);
      Told(q, r) && LatestState(NewEvents(q, r)).Some?
  {
    var r := Emit(q.(dev := dev), [Accepted(c.id, TypeOf(c.body), false), StateEvent(c.id, dev)]);
    StoryInContext(q.dev, [Accepted(c.id, TypeOf(c.body), false)], c.id, [], dev);
    assert NewEvents(q, r) == [Accepted(c.id, TypeOf(c.body), false)] + [StateEvent(c.id, dev)] + [];
  }

  /** A command that is refused emits no state and leaves the device alone. */
  predicate Silent(q: Queue, r: Queue) {
    r.dev == q.dev && LatestState(NewEvents(q, r)).None?
  }

  lemma ErrorIsTold(q: Queue, e: Event)
    requires e.Error?
    ensures Told(q, Emit(q, [e])) && Silent(q, Emit(q, [e]))
  {
    assert NewEvents(q, Emit(q, [e])) == [e];
    SilentStory(q.dev, [e], q.dev);
    NoLatest([e]);
  }

  lemma EnqueueIsTold(q: Queue, id: Id, command: MotionCommand)
    requires Inv(q)
    ensures var r := Enqueue(q, id, command);
      Told(q, r) && (Silent(q, r) || LatestState(NewEvents(q, r)).Some?)
  {
    PreparedJobIsOk(id, command, q.projected);
    var job := Prepare(id, command, q.projected);
    if job.None? {
      ErrorIsTold(q, Error(id, InvalidCommand, true));
    } else if Rejection(q, job.value).Some? {
      var rejection := Rejection(q, job.value).value;
      ErrorIsTold(q, Error(id, rejection.0, rejection.1));
    } else {
      AcceptIsTold(q, job.value);
    }
  }

  lemma ExecuteIsTold(q: Queue, c: Command)
    requires Inv(q)
    ensures var r := Execute(q, c);
      Told(q, r) && (Silent(q, r) || LatestState(NewEvents(q, r)).Some?)
  {
    if c.deviceId != q.dev.deviceId {
      ErrorIsTold(q, Error(c.id, WrongDevice, false));
    } else if c.body.Motion? {
      EnqueueIsTold(q, c.id, c.body.command);
    } else if c.body.Unsupported? {
      ErrorIsTold(q, Error(c.id, UnsupportedCommand, false));
    } else if Mutated(q.dev, c.body).None? {
      ErrorIsTold(q, Error(c.id, InvalidCommand, true));
    } else {
      MutatedKeepsDevice(q.dev, c.body);
      ImmediateIsTold(q, c, Published(Mutated(q.dev, c.body).value));
    }
  }

  /**
   Every step tells a story, sized by the jobs that wait after it; unless it
   ends the queue, it tells the latest state whenever it changes the device.
   */
  lemma StepIsTold(q: Queue, s: Step)
    requires Inv(q) && Enabled(q, s)
    ensures Told(q, Apply(q, s))
    ensures s.DoFinishClose? || Silent(q, Apply(q, s)) || LatestState(NewEvents(q, Apply(q, s))).Some?
  {
    match s
    case DoExecute(c) => ExecuteIsTold(q, c);
    case DoStart => StartIsTold(q);
    case DoSleepDone =>
      assert NewEvents(q, Apply(q, s)) == [];
      SilentStory(q.dev, [], q.dev);
    case DoTick => TickIsTold(q);
    case DoInterrupt => FinishIsTold(q, Cancelled(ForRest));
    case DoFail(error) => FinishIsTold(q, Failed(error));
    case DoBeginClose =>
      assert NewEvents(q, Apply(q, s)) == [];
      SilentStory(q.dev, [], q.dev);
    case DoFinishClose => FinishCloseIsTold(q);
  }

  // ---- runs -------------------------------------------------------------------------------------

  /** A log as told to a subscriber who has seen it from the first event. */
  ghost predicate ToldSoFar(revision: int, q: Queue) {
    && Counted(revision, q.trace) == Some(q.dev.revision)
    && AllValid(q.trace, q.dev.deviceId)
    && (q.stage != Closed ==> UpToDate(q.trace, q.dev))
  }

  lemma StepKeepsToldSoFar(revision: int, q: Queue, s: Step)
    requires Inv(q) && Enabled(q, s) && ToldSoFar(revision, q)
    ensures ToldSoFar(revision, Apply(q, s))
  {
    var r := Apply(q, s);
    StepIsTold(q, s);
    StepIsObserved(q, s);
    StageOnlyGrows(q, s);
    CountedConcat(revision, q.trace, NewEvents(q, r));
    LatestConcat(q.trace, NewEvents(q, r));
  }

  lemma StageOnlyGrows(q: Queue, s: Step)
    requires Enabled(q, s)
    ensures s.DoFinishClose? ==> Apply(q, s).stage == Closed
    ensures q.stage == Closed ==> Apply(q, s).stage == Closed
  {
  }

  lemma {:induction false} RunKeepsToldSoFar(revision: int, q: Queue, run: seq<Step>)
    requires Inv(q) && Legal(q, run) && ToldSoFar(revision, q)
    ensures ToldSoFar(revision, After(q, run))
    decreases |run|
  {
    if run != [] {
      StepKeepsToldSoFar(revision, q, run[0]);
      StepKeepsInv(q, run[0]);
      RunKeepsToldSoFar(revision, Apply(q, run[0]), run[1..]);
    }
  }

  /**
   On every run the states emitted by immediate commands, by the queue and by
   closing carry contiguous revisions and are valid; until the queue is closed,
   the latest of them is exactly the device, with as many jobs as wait.
   */
  lemma PublishedStatesFollowTheDevice(q: Queue, run: seq<Step>)
    requires Initial(q) && Legal(q, run)
    ensures var r := After(q, run);
      && Counted(q.dev.revision, r.trace) == Some(r.dev.revision)
      && AllValid(r.trace, r.dev.deviceId)
      && (r.stage != Closed && LatestState(r.trace).Some? ==>
            LatestState(r.trace).value == SnapshotOf(r.dev) && LatestState(r.trace).value.queueSize == |r.waiting|)
  {
    InitialInv(q);
    RunKeepsToldSoFar(q.dev.revision, q, run);
    RunKeepsInv(q, run);
    SnapshotFields(After(q, run).dev);
  }
}
