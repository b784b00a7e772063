/** What a device.rest does to the jobs around it, and what is left of it afterwards. */
module MotionRest {
  import opened Common
  import opened Protocol
  import opened DeviceModel
  import opened Motion
  import opened MotionInvariant
  import opened MotionMonitor
  import opened MotionLifecycle

  // ---- while a rest is pending --------------------------------------------------------

  /** The line is empty or holds just the rest. */
  lemma PendingRestStandsAlone(q: Queue)
    requires Inv(q) && RestPending(q)
    ensures q.waiting == [] || (|q.waiting| == 1 && q.waiting[0].resting)
    ensures q.waiting == [] ==> q.current.Some? && q.current.value.job.resting
  {
    var i :| 0 <= i < |Live(q)| && Live(q)[i].resting;
    if i < |CurrentJob(q)| {
      assert q.current.value.job.resting;
    } else {
      assert q.waiting[i - |CurrentJob(q)|].resting;
    }
  }

  /** Nothing is accepted then, not even another rest. */
  lemma PendingRestBlocks(q: Queue, c: Command)
    requires Inv(q) && RestPending(q)
    ensures Live(Execute(q, c)) == Live(q)
    ensures AcceptedIds(NewEvents(q, Execute(q, c))) == []
  {
    ExecuteCases(q, c);
    var r := Execute(q, c);
    if job :| AcceptStep(q, r, c, job) {
      assert false;
    } else {
      var dev, events :| QuietStep(q, r, dev, events);
      assert NewEvents(q, r) == events;
      QuietIds(events);
      assert Live(r) == Live(q);
    }
  }

  lemma {:induction false} QuietIds(events: seq<Event>)
    requires forall e :: e in events ==> Quiet(e)
    ensures AcceptedIds(events) == [] && StartedIds(events) == []
  {
    if events != [] {
      assert events[0] in events;
      QuietIds(events[1..]);
    }
  }

  // ---- the jobs that waited ---------------------------------------------------------------

  lemma {:induction false} CancellationCounts(jobs: seq<Job>, pose: Pose, id: Id)
    ensures FinishedCount(RestCancellations(jobs, pose), id) == multiset(Ids(jobs))[id]
    ensures AcceptedCount(RestCancellations(jobs, pose), id) == 0
    ensures StartedIds(RestCancellations(jobs, pose)) == [] == AcceptedIds(RestCancellations(jobs, pose))
  {
    if jobs != [] {
      var events := RestCancellations(jobs, pose);
      assert events[0].Finished? && events[0].id == jobs[0].id;
      assert events[1..] == RestCancellations(jobs[1..], pose);
      CancellationCounts(jobs[1..], pose, id);
      assert Ids(jobs) == [jobs[0].id] + Ids(jobs[1..]);
    } else {
      assert Ids(jobs) == [];
    }
  }

  lemma {:induction false} FinishedConcat(a: seq<Event>, b: seq<Event>, id: Id)
    ensures FinishedCount(a + b, id) == FinishedCount(a, id) + FinishedCount(b, id)
  {
    if a == [] {
      assert a + b == b;
    } else {
      assert (a + b)[1..] == a[1..] + b;
      FinishedConcat(a[1..], b, id);
    }
  }

  lemma WaitingIsDistinct(q: Queue, i: nat)
    requires JobsInv(q) && i < |q.waiting|
    ensures multiset(Ids(q.waiting))[q.waiting[i].id] == 1
    ensures q.waiting[i].id in q.seenIds
  {
    assert q.waiting == Live(q)[|CurrentJob(q)|..|Live(q)|];
    SliceKeepsJobsOk(Live(q), |CurrentJob(q)|, |Live(q)|);
    NoDuplicatesCount(Ids(q.waiting), q.waiting[i].id);
    assert Ids(q.waiting)[i] == q.waiting[i].id;
    assert q.waiting[i] in Live(q);
  }

  /** Each job that waits when a rest is accepted is cancelled in that step, once. */
  lemma WaitingJobsAreCancelledOnce(q: Queue, job: Job, i: nat)
    requires Inv(q) && Rejection(q, job).None? && job.resting && i < |q.waiting|
    ensures FinishedCount(NewEvents(q, Accept(q, job)), q.waiting[i].id) == 1
    ensures q.waiting[i].id !in Ids(Accept(q, job).waiting)
  {
    var id := q.waiting[i].id;
    WaitingIsDistinct(q, i);
    AcceptEvents(q, job);
    var head := [Accepted(job.id, job.commandType, true), StateEvent(job.id, Accept(q, job).dev)];
    FinishedConcat(head, RestCancellations(q.waiting, q.dev.joints), id);
    assert head[1..][1..] == [];
    assert FinishedCount(head, id) == 0;
    CancellationCounts(q.waiting, q.dev.joints, id);
  }

  /** However the run goes on, they do not start or end again unless they are accepted anew. */
  lemma ReplacedJobsNeverStart(q: Queue, job: Job, i: nat, run: seq<Step>)
    requires Inv(q) && JobOk(job) && Rejection(q, job).None? && job.resting && i < |q.waiting|
    requires Legal(Accept(q, job), run)
    requires AcceptedCount(NewEvents(Accept(q, job), After(Accept(q, job), run)), q.waiting[i].id) == 0
    ensures q.waiting[i].id !in StartedIds(NewEvents(Accept(q, job), After(Accept(q, job), run)))
    ensures FinishedCount(NewEvents(Accept(q, job), After(Accept(q, job), run)), q.waiting[i].id) == 0
  {
    var r, id := Accept(q, job), q.waiting[i].id;
    AcceptKeepsInv(q, job);
    RunIsObserved(r, run);
    WaitingJobsAreCancelledOnce(q, job, i);
    var log := NewEvents(r, After(r, run));
    NoStartWithoutAcceptance(BoardOf(r), log, id);
    BoardIsDistinct(q);
    assert q.waiting[i] in q.waiting;
    assert OnBoard(BoardOf(r), id) == 0;
    EveryJobEndsOnce(BoardOf(r), log, id);
  }

  // ---- the rest is the next job to start ------------------------------------------------------

  lemma {:induction false} ShutdownStartsNothing(dev: Device, jobs: seq<Job>, elapsedMs: int)
    ensures StartedIds(ShutdownEvents(dev, jobs, elapsedMs)) == []
    decreases |jobs|
  {
    if jobs != [] {
      var last := Finished(jobs[0].id, jobs[0].action, Cancelled(ForShutdown), elapsedMs, dev.joints);
      var group := [StateEvent(jobs[0].id, Published(dev)), last];
      StartedConcat(group, ShutdownEvents(Published(dev), jobs[1..], 0));
      assert group[1..] == [last];
      OneEvent(last);
      ShutdownStartsNothing(Published(dev), jobs[1..], 0);
    }
  }

  lemma TwoStarts(first: Event, second: Event)
    requires !second.Started?
    ensures StartedIds([first, second]) == if first.Started? then [first.id] else []
  {
    assert [first, second][1..] == [second];
    OneEvent(second);
  }

  lemma AcceptStartsNothing(q: Queue, job: Job)
    ensures StartedIds(NewEvents(q, Accept(q, job))) == []
  {
    var head := [Accepted(job.id, job.commandType, true), StateEvent(job.id, Accept(q, job).dev)];
    AcceptEvents(q, job);
    TwoStarts(head[0], head[1]);
    StartedConcat(head, Replaced(q, job));
    CancellationCounts(q.waiting, q.dev.joints, job.id);
  }

  lemma ExecuteStartsNothing(q: Queue, c: Command)
    requires Inv(q)
    ensures StartedIds(NewEvents(q, Execute(q, c))) == []
  {
    ExecuteCases(q, c);
    var r := Execute(q, c);
    if job :| AcceptStep(q, r, c, job) {
      AcceptStartsNothing(q, job);
    } else {
      var dev, events :| QuietStep(q, r, dev, events);
      assert NewEvents(q, r) == events;
      QuietIds(events);
    }
  }

  lemma FinishEvents(q: Queue, outcome: Outcome)
    requires q.current.Some?
    ensures NewEvents(q, Finish(q, outcome)) ==
      [StateEvent(q.current.value.job.id, Finish(q, outcome).dev),
       Finished(q.current.value.job.id, q.current.value.job.action, outcome, q.current.value.elapsedMs, q.dev.joints)]
    ensures StartedIds(NewEvents(q, Finish(q, outcome))) == []
  {
    var events := NewEvents(q, Finish(q, outcome));
    assert events == [events[0], events[1]];
    TwoStarts(events[0], events[1]);
  }

  lemma MoveEvents(q: Queue)
    requires CanTick(q)
    ensures |NewEvents(q, Move(q))| == 2
    ensures NewEvents(q, Move(q))[0].Progress? && NewEvents(q, Move(q))[1].StateChanged?
    ensures StartedIds(NewEvents(q, Move(q))) == []
  {
    var events := NewEvents(q, Move(q));
    assert events == [events[0], events[1]];
    TwoStarts(events[0], events[1]);
  }

  lemma TickEvents(q: Queue)
    requires CanTick(q)
    ensures NewEvents(q, Tick(q)) == NewEvents(q, Move(q)) + NewEvents(Move(q), Tick(q))
    ensures StartedIds(NewEvents(q, Tick(q))) == []
  {
    MoveEvents(q);
    var m, r := Move(q), Tick(q);
    assert NewEvents(q, r) == NewEvents(q, m) + NewEvents(m, r);
    StartedConcat(NewEvents(q, m), NewEvents(m, r));
    if r != m {
      FinishEvents(m, Completed);
    }
  }

  lemma StepStarts(q: Queue, s: Step)
    requires Inv(q) && Enabled(q, s)
    ensures StartedIds(NewEvents(q, Apply(q, s))) == if s.DoStart? then [q.waiting[0].id] else []
  {
    match s
    case DoExecute(c) => ExecuteStartsNothing(q, c);
    case DoStart =>
      var events := NewEvents(q, Start(q));
      assert events == [events[0], events[1]];
      TwoStarts(events[0], events[1]);
    case DoSleepDone => assert NewEvents(q, Apply(q, s)) == [];
    case DoTick => TickEvents(q);
    case DoInterrupt => FinishEvents(q, Cancelled(ForRest));
    case DoFail(error) => FinishEvents(q, Failed(error));
    case DoBeginClose => assert NewEvents(q, Apply(q, s)) == [];
    case DoFinishClose =>
      CloseEvents(q);
      ShutdownStartsNothing(StoppedForGood(q.dev, q.capacity), Live(q), CurrentElapsed(q));
  }

  lemma ClosedStaysClosed(q: Queue, s: Step)
    requires Inv(q) && q.stage == Closed && Enabled(q, s)
    ensures Apply(q, s).stage == Closed && !s.DoStart?
  {
  }

  lemma SplitEvents(q: Queue, s: Step, run: seq<Step>)
    requires Inv(q) && Enabled(q, s) && Legal(Apply(q, s), run)
    ensures NewEvents(q, After(Apply(q, s), run)) == NewEvents(q, Apply(q, s))
      + NewEvents(Apply(q, s), After(Apply(q, s), run))
    ensures StartedIds(NewEvents(q, After(Apply(q, s), run))) ==
            StartedIds(NewEvents(q, Apply(q, s))) + StartedIds(NewEvents(Apply(q, s), After(Apply(q, s), run)))
  {
    StepIsObserved(q, s);
    StepKeepsInv(q, s);
    RunIsObserved(Apply(q, s), run);
    var m, r := Apply(q, s), After(Apply(q, s), run);
    assert NewEvents(q, r) == NewEvents(q, m) + NewEvents(m, r);
    StartedConcat(NewEvents(q, m), NewEvents(m, r));
  }

  lemma {:induction false} ClosedForGood(q: Queue, run: seq<Step>)
    requires Inv(q) && q.stage == Closed && Legal(q, run)
    ensures After(q, run).stage == Closed
    decreases |run|
  {
    if run != [] {
      ClosedStaysClosed(q, run[0]);
      StepKeepsInv(q, run[0]);
      ClosedForGood(Apply(q, run[0]), run[1..]);
    }
  }

  lemma {:induction false} ClosedStartsNothing(q: Queue, run: seq<Step>)
    requires Inv(q) && q.stage == Closed && Legal(q, run)
    ensures StartedIds(NewEvents(q, After(q, run))) == []
    decreases |run|
  {
    if run == [] {
      assert NewEvents(q, q) == [];
    } else {
      ClosedStaysClosed(q, run[0]);
      StepKeepsInv(q, run[0]);
      StepStarts(q, run[0]);
      SplitEvents(q, run[0], run[1..]);
      ClosedStartsNothing(Apply(q, run[0]), run[1..]);
    }
  }

  lemma ExecuteKeepsWaitingRest(q: Queue, c: Command)
    requires Inv(q) && |q.waiting| == 1 && q.waiting[0].resting
    ensures Execute(q, c).waiting == q.waiting
  {
    assert Live(q)[|CurrentJob(q)|] == q.waiting[0];
    PendingRestKeepsLine(q, c);
  }

  lemma PendingRestKeepsLine(q: Queue, c: Command)
    requires RestPending(q)
    ensures Execute(q, c).waiting == q.waiting
  {
  }

  /** Until it starts, nothing but the end of the queue takes a waiting rest out of the line. */
  lemma WaitingRestStays(q: Queue, s: Step)
    requires Inv(q) && Enabled(q, s) && |q.waiting| == 1 && q.waiting[0].resting
    ensures s.DoStart? || Apply(q, s).waiting == q.waiting || Apply(q, s).stage == Closed
  {
    if s.DoExecute? {
      ExecuteKeepsWaitingRest(q, s.command);
    }
  }

  /** Whatever happens after a rest was accepted, the first job that starts is that rest. */
  lemma {:induction false} RestStartsNext(q: Queue, run: seq<Step>)
    requires Inv(q) && |q.waiting| == 1 && q.waiting[0].resting && Legal(q, run)
    ensures var started := StartedIds(NewEvents(q, After(q, run)));
      started == [] || started[0] == q.waiting[0].id
    decreases |run|
  {
    if run == [] {
      assert NewEvents(q, q) == [];
    } else {
      var m := Apply(q, run[0]);
      StepStarts(q, run[0]);
      StepKeepsInv(q, run[0]);
      SplitEvents(q, run[0], run[1..]);
      WaitingRestStays(q, run[0]);
      if run[0].DoStart? {
        assert StartedIds(NewEvents(q, After(q, run)))[0] == q.waiting[0].id;
      } else if m.waiting == q.waiting {
        RestStartsNext(m, run[1..]);
      } else {
        ClosedStartsNothing(m, run[1..]);
      }
    }
  }

  // ---- where a rest ends -------------------------------------------------------------------------

  lemma FullPoseCovers(origin: Pose, targets: Pose)
    requires PoseInLimits(origin) && FullPose(targets)
    ensures origin + targets == targets && targets.Keys >= origin.Keys
    ensures FullPose(origin) ==> origin.Keys == targets.Keys
  {
  }

  lemma LastRestMove(q: Queue)
    requires Inv(q) && CanTick(q) && q.current.value.job.resting && q.current.value.done + 1 == q.steps
    ensures Move(q).dev.joints == DefaultPose()
  {
    var r := q.current.value;
    RunningJobIsOk(q);
    FullPoseCovers(r.origin, r.job.targets);
    NextPose(q.dev, r, q.steps);
    PoseAfterAll(r.origin, r.job.targets, q.steps);
  }

  /** Completing a rest leaves every joint at its default and the device resting, unless it reports an error. */
  lemma RestEndsAtDefault(q: Queue)
    requires Inv(q) && CanTick(q) && q.current.value.job.resting && q.current.value.done + 1 == q.steps
    ensures Tick(q).current.None? && Tick(q).dev.joints == DefaultPose()
    ensures Tick(q).dev.status == if q.dev.status == ErrorMode then ErrorMode else Resting
    ensures Tick(q).dev.kind == Idle && !RestPending(Tick(q)) && Tick(q).waiting == []
  {
    LastRestMove(q);
    assert Live(Tick(q)) == [];
  }

  /** A rest is never interrupted, and a completed one reports the default pose. */
  predicate RestEndOk(e: Event) {
    e.Finished? && e.action == EnteringRest ==>
      e.outcome != Cancelled(ForRest) && (e.outcome == Completed ==> e.pose == DefaultPose())
  }

  lemma {:induction false} CancellationsOk(jobs: seq<Job>, pose: Pose)
    requires forall j :: j in jobs ==> JobOk(j) && !j.resting
    ensures forall e :: e in RestCancellations(jobs, pose) ==> RestEndOk(e)
  {
    if jobs != [] {
      assert jobs[0] in jobs;
      CancellationsOk(jobs[1..], pose);
      var events := RestCancellations(jobs, pose);
      assert events == [events[0]] + RestCancellations(jobs[1..], pose);
    }
  }

  lemma {:induction false} ShutdownOk(dev: Device, jobs: seq<Job>, elapsedMs: int)
    ensures forall e :: e in ShutdownEvents(dev, jobs, elapsedMs) ==> RestEndOk(e)
    decreases |jobs|
  {
    if jobs != [] {
      ShutdownOk(Published(dev), jobs[1..], 0);
    }
  }

  lemma AcceptRestEnds(q: Queue, job: Job)
    requires JobsInv(q) && Rejection(q, job).None?
    ensures forall e :: e in NewEvents(q, Accept(q, job)) ==> RestEndOk(e)
  {
    NotPendingHasNoRest(q);
    forall j | j in q.waiting
      ensures JobOk(j) && !j.resting
    {
      assert j in Live(q);
    }
    CancellationsOk(q.waiting, q.dev.joints);
    AcceptEvents(q, job);
  }

  lemma ExecuteRestEnds(q: Queue, c: Command)
    requires Inv(q)
    ensures forall e :: e in NewEvents(q, Execute(q, c)) ==> RestEndOk(e)
  {
    ExecuteCases(q, c);
    var r := Execute(q, c);
    if job :| AcceptStep(q, r, c, job) {
      AcceptRestEnds(q, job);
    } else {
      var dev, events :| QuietStep(q, r, dev, events);
      assert NewEvents(q, r) == events;
    }
  }

  lemma FinishRestEnds(q: Queue, outcome: Outcome)
    requires q.current.Some? && JobOk(q.current.value.job)
    requires q.current.value.job.resting ==> outcome != Cancelled(ForRest) && q.dev.joints == DefaultPose()
    ensures forall e :: e in NewEvents(q, Finish(q, outcome)) ==> RestEndOk(e)
  {
    FinishEvents(q, outcome);
  }

  lemma MoveRestEnds(q: Queue)
    requires CanTick(q)
    ensures forall e :: e in NewEvents(q, Move(q)) ==> RestEndOk(e)
  {
    MoveEvents(q);
  }

  lemma TickRestEnds(q: Queue)
    requires Inv(q) && CanTick(q)
    ensures forall e :: e in NewEvents(q, Tick(q)) ==> RestEndOk(e)
  {
    TickEvents(q);
    MoveRestEnds(q);
    if q.current.value.done + 1 == q.steps {
      RunningJobIsOk(q);
      if q.current.value.job.resting {
        LastRestMove(q);
      }
      FinishRestEnds(Move(q), Completed);
    }
  }

  lemma StepRestEnds(q: Queue, s: Step)
    requires Inv(q) && Enabled(q, s)
    ensures forall e :: e in NewEvents(q, Apply(q, s)) ==> RestEndOk(e)
  {
    match s
    case DoExecute(c) => ExecuteRestEnds(q, c);
    case DoStart =>
    case DoSleepDone =>
    case DoTick => TickRestEnds(q);
    case DoInterrupt => FinishEvents(q, Cancelled(ForRest)); RunningJobIsOk(q);
    case DoFail(error) => FinishEvents(q, Failed(error));
    case DoBeginClose =>
    case DoFinishClose =>
      CloseEvents(q);
      ShutdownOk(StoppedForGood(q.dev, q.capacity), Live(q), CurrentElapsed(q));
  }

  /** So it is on every run. */
  lemma {:induction false} RestsEndWell(q: Queue, run: seq<Step>)
    requires Inv(q) && Legal(q, run)
    ensures forall e :: e in NewEvents(q, After(q, run)) ==> RestEndOk(e)
    decreases |run|
  {
    if run != [] {
      StepRestEnds(q, run[0]);
      StepKeepsInv(q, run[0]);
      SplitEvents(q, run[0], run[1..]);
      RestsEndWell(Apply(q, run[0]), run[1..]);
    }
  }
}
