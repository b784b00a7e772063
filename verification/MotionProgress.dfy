/** How a job advances: where its joints are after each step, and what its progress reports say. */
module MotionProgress {
  import opened Common
  import opened Protocol
  import opened DeviceModel
  import opened Motion
  import opened MotionInvariant
  import opened MotionMonitor
  import opened MotionLifecycle
  import opened MotionRest
  import opened MotionInterrupt

  // ---- positions ----------------------------------------------------------------------

  /** In every reachable state every joint is known and within its limits. */
  lemma JointsStayWithinLimits(q: Queue, run: seq<Step>, n: JointName)
    requires Initial(q) && Legal(q, run) && ProfileOf(n).Some?
    ensures var joints := After(q, run).dev.joints;
      n in joints && ProfileOf(n).value.minimum <= joints[n] <= ProfileOf(n).value.maximum
  {
    InitialInv(q);
    RunKeepsInv(q, run);
  }

  /** After k steps a named joint has gone the k-th part of its way; the others have not moved. */
  lemma JointsFollowTheLine(q: Queue, n: JointName)
    requires q.steps > 0 && RunningOk(q) && q.current.Some? && n in q.current.value.origin
    ensures var r := q.current.value;
      n in q.dev.joints && q.dev.joints[n] ==
        if n in r.job.targets
        then r.origin[n] + (r.job.targets[n] - r.origin[n]) * Fraction(r.done, q.steps)
        else r.origin[n]
  {
    var r := q.current.value;
    PoseAt(r.origin, r.job.targets, r.done, q.steps, n);
  }

  lemma PoseAt(origin: Pose, targets: Pose, done: nat, steps: nat, n: JointName)
    requires steps > 0 && n in origin
    ensures n in PoseAfter(origin, targets, done, steps)
    ensures PoseAfter(origin, targets, done, steps)[n] ==
      if n in targets then origin[n] + (targets[n] - origin[n]) * Fraction(done, steps) else origin[n]
  {
    if done == steps {
      FractionBounds(done, steps);
    }
  }

  /** The line begins where the device was when the job started. */
  lemma TheLineBeginsHere(q: Queue)
    requires CanStart(q)
    ensures Start(q).current.value.origin == q.dev.joints == Start(q).dev.joints
    ensures Start(q).current.value.done == 0 && Start(q).current.value.job == q.waiting[0]
  {
  }

  /** The last step is the targets themselves. */
  lemma TheLineEndsAtTheTargets(q: Queue)
    requires Inv(q) && CanTick(q) && q.current.value.done + 1 == q.steps
    ensures Tick(q).current.None?
    ensures Tick(q).dev.joints == q.current.value.origin + q.current.value.job.targets
  {
    var r := q.current.value;
    RunningJobIsOk(q);
    NextPose(q.dev, r, q.steps);
    KnownTargets(r.origin, r.job.targets);
    PoseAfterAll(r.origin, r.job.targets, q.steps);
  }

  lemma KnownTargets(origin: Pose, targets: Pose)
    requires FullPose(origin) && PoseInLimits(targets)
    ensures targets.Keys <= origin.Keys
  {
  }

  // ---- time -------------------------------------------------------------------------------

  lemma RoundIsMonotone(x: real, y: real)
    requires x <= y
    ensures Round(x) <= Round(y)
  {
    if x.Floor < y.Floor {
      assert Round(x) <= x.Floor + 1;
    }
  }

  lemma RoundOfWhole(n: int)
    ensures Round(n as real) == n
  {
    assert (n as real).Floor == n;
  }

  lemma LargerShare(d: real, x: real, y: real)
    requires d >= 0.0 && x <= y
    ensures d * x <= d * y
  {
    ProductNotNegative(d, y - x);
    assert d * (y - x) == d * y - d * x;
  }

  lemma RoundedShareGrows(d: real, x: real, y: real)
    requires d >= 0.0 && x <= y
    ensures RoundedShare(d, x) <= RoundedShare(d, y)
  {
    LargerShare(d, x, y);
    RoundIsMonotone(d * x, d * y);
  }

  lemma LargerQuotient(x: real, y: real, d: real)
    requires x <= y && d > 0.0
    ensures x / d <= y / d
  {
    assert x / d == (1.0 / d) * x;
    assert y / d == (1.0 / d) * y;
    LargerShare(1.0 / d, x, y);
  }

  lemma LargerFraction(done: nat, steps: nat)
    requires steps > 0
    ensures Fraction(done, steps) <= Fraction(done + 1, steps)
  {
    var next := done + 1;
    LargerQuotient(done as real, next as real, steps as real);
    assert Fraction(done, steps) == done as real / steps as real;
    assert Fraction(next, steps) == next as real / steps as real;
  }

  lemma ElapsedGrows(durationMs: nat, done: nat, steps: nat)
    requires steps > 0
    ensures Elapsed(durationMs, done, steps) <= Elapsed(durationMs, done + 1, steps)
  {
    LargerFraction(done, steps);
    RoundedShareGrows(durationMs as real, Fraction(done, steps), Fraction(done + 1, steps));
  }

  lemma ElapsedEnds(durationMs: nat, steps: nat)
    requires steps > 0
    ensures Elapsed(durationMs, 0, steps) == 0
    ensures Elapsed(durationMs, steps, steps) == durationMs
  {
    RoundOfWhole(0);
    FractionBounds(steps, steps);
    RoundOfWhole(durationMs);
  }

  // ---- reports ----------------------------------------------------------------------------------

  /** What a reader of the log knows about the running job. */
  datatype Track = NoJob | OnJob(id: Id, durationMs: nat, count: nat, elapsedMs: int)

  /**
   The k-th report of a job says k/steps, its time never falls, and completion
   comes after all the steps, at the full duration; otherwise the job ends with
   the time last reported.
   */
  function Follow(t: Track, e: Event, steps: nat): Option<Track>
    requires steps > 0
  {
    match e
    case Started(id, _, _, durationMs) => if t.NoJob? then Some(OnJob(id, durationMs, 0, 0)) else None
    case Progress(id, _, fraction, elapsedMs, _) =>
      if t.OnJob? && t.id == id && fraction == Fraction(t.count + 1, steps) && t.elapsedMs <= elapsedMs
      then Some(t.(count := t.count + 1, elapsedMs := elapsedMs)) else None
    case Finished(id, _, outcome, elapsedMs, _) =>
      if t.NoJob? || t.id != id then Some(t)
      else if elapsedMs == t.elapsedMs && (outcome == Completed ==> t.count == steps && elapsedMs == t.durationMs)
      then Some(NoJob) else None
    case _ => Some(t)
  }

  function FollowAll(t: Track, log: seq<Event>, steps: nat): Option<Track>
    requires steps > 0
    decreases |log|
  {
    if log == [] then Some(t)
    else
      var next := Follow(t, log[0], steps);
      if next.None? then None else FollowAll(next.value, log[1..], steps)
  }

  lemma {:induction false} FollowConcat(t: Track, a: seq<Event>, b: seq<Event>, steps: nat)
    requires steps > 0 && FollowAll(t, a, steps).Some?
    ensures FollowAll(t, a + b, steps) == FollowAll(FollowAll(t, a, steps).value, b, steps)
    decreases |a|
  {
    if a == [] {
      assert a + b == b;
    } else {
      assert (a + b)[1..] == a[1..] + b;
      FollowConcat(Follow(t, a[0], steps).value, a[1..], b, steps);
    }
  }

  function TrackOf(q: Queue): Track {
    if q.current.None? then NoJob
    else OnJob(q.current.value.job.id, q.current.value.job.durationMs, q.current.value.done, q.current.value.elapsedMs)
  }

  ghost predicate OnTime(q: Queue)
    requires q.steps > 0
  {
    q.current.Some? ==>
      q.current.value.elapsedMs == Elapsed(q.current.value.job.durationMs, q.current.value.done, q.steps)
  }

  ghost predicate Followed(q: Queue, r: Queue)
    requires q.steps > 0
  {
    r.steps == q.steps && OnTime(r) && FollowAll(TrackOf(q), NewEvents(q, r), q.steps) == Some(TrackOf(r))
  }

  /** Events that say nothing about the running job. */
  ghost predicate Beside(t: Track, log: seq<Event>) {
    forall e :: e in log ==> !e.Started? && !e.Progress? && (e.Finished? && t.OnJob? ==> e.id != t.id)
  }

  lemma {:induction false} FollowBeside(t: Track, log: seq<Event>, steps: nat)
    requires steps > 0 && Beside(t, log)
    ensures FollowAll(t, log, steps) == Some(t)
    decreases |log|
  {
    if log != [] {
      assert log[0] in log;
      assert forall e :: e in log[1..] ==> e in log;
      FollowBeside(t, log[1..], steps);
    }
  }

  /** One telling event with others around it. */
  lemma FollowOne(t: Track, before: seq<Event>, e: Event, rest: seq<Event>, steps: nat)
    requires steps > 0 && Beside(t, before) && Follow(t, e, steps).Some? && Beside(Follow(t, e, steps).value, rest)
    ensures FollowAll(t, before + [e] + rest, steps) == Follow(t, e, steps)
  {
    var next := Follow(t, e, steps).value;
    FollowBeside(t, before, steps);
    assert [e][1..] == [];
    assert FollowAll(t, [e], steps) == Some(next);
    FollowConcat(t, before, [e], steps);
    FollowBeside(next, rest, steps);
    FollowConcat(t, before + [e], rest, steps);
  }

  lemma {:induction false} CancellationsBeside(t: Track, jobs: seq<Job>, pose: Pose)
    requires forall j :: j in jobs && t.OnJob? ==> j.id != t.id
    ensures Beside(t, RestCancellations(jobs, pose))
  {
    if jobs != [] {
      assert jobs[0] in jobs && forall j :: j in jobs[1..] ==> j in jobs;
      CancellationsBeside(t, jobs[1..], pose);
    }
  }

  lemma AcceptIsBeside(q: Queue, job: Job)
    requires JobsInv(q)
    ensures Beside(TrackOf(q), NewEvents(q, Accept(q, job)))
  {
    BoardIsDistinct(q);
    CancellationsBeside(TrackOf(q), q.waiting, q.dev.joints);
    AcceptEvents(q, job);
  }

  lemma AcceptIsFollowed(q: Queue, job: Job)
    requires q.steps > 0 && JobsInv(q) && OnTime(q)
    ensures Followed(q, Accept(q, job))
  {
    AcceptIsBeside(q, job);
    FollowBeside(TrackOf(q), NewEvents(q, Accept(q, job)), q.steps);
  }

  lemma ExecuteIsFollowed(q: Queue, c: Command)
    requires Inv(q) && OnTime(q)
    ensures Followed(q, Execute(q, c))
  {
    ExecuteCases(q, c);
    var r := Execute(q, c);
    if job :| AcceptStep(q, r, c, job) {
      AcceptIsFollowed(q, job);
    } else {
      var dev, events :| QuietStep(q, r, dev, events);
      assert NewEvents(q, r) == events;
      FollowBeside(TrackOf(q), events, q.steps);
    }
  }

  lemma StartIsFollowed(q: Queue)
    requires Inv(q) && CanStart(q)
    ensures Followed(q, Start(q))
  {
    var r, job := Start(q), q.waiting[0];
    ElapsedEnds(job.durationMs, q.steps);
    var first := Started(job.id, job.commandType, job.action, job.durationMs);
    FollowOne(NoJob, [], first, [StateEvent(job.id, r.dev)], q.steps);
    assert NewEvents(q, r) == [] + [first] + [StateEvent(job.id, r.dev)];
  }

  lemma FinishIsFollowed(q: Queue, outcome: Outcome)
    requires q.steps > 0 && q.current.Some? && OnTime(q)
    requires outcome == Completed ==> q.current.value.done == q.steps
    ensures Followed(q, Finish(q, outcome))
  {
    FinishEvents(q, outcome);
    ElapsedEnds(q.current.value.job.durationMs, q.steps);
    var job, r := q.current.value.job, Finish(q, outcome);
    var last := Finished(job.id, job.action, outcome, q.current.value.elapsedMs, q.dev.joints);
    FollowOne(TrackOf(q), [StateEvent(job.id, r.dev)], last, [], q.steps);
    assert NewEvents(q, r) == [StateEvent(job.id, r.dev)] + [last] + [];
  }

  lemma MoveIsFollowed(q: Queue)
    requires CanTick(q) && OnTime(q)
    ensures Followed(q, Move(q))
  {
    var r, m := q.current.value, Move(q);
    ElapsedGrows(r.job.durationMs, r.done, q.steps);
    var first := Progress(r.job.id, r.job.action, Fraction(r.done + 1, q.steps), m.current.value.elapsedMs,
                          m.dev.joints);
    FollowOne(TrackOf(q), [], first, [StateEvent(r.job.id, m.dev)], q.steps);
    assert NewEvents(q, m) == [] + [first] + [StateEvent(r.job.id, m.dev)];
  }

  lemma TickIsFollowed(q: Queue)
    requires Inv(q) && CanTick(q) && OnTime(q)
    ensures Followed(q, Tick(q))
  {
    MoveIsFollowed(q);
    if q.current.value.done + 1 < q.steps {
      assert Tick(q) == Move(q);
    } else {
      TickEvents(q);
      FinishIsFollowed(Move(q), Completed);
      FollowConcat(TrackOf(q), NewEvents(q, Move(q)), NewEvents(Move(q), Tick(q)), q.steps);
    }
  }

  lemma {:induction false} ShutdownIsFollowed(t: Track, dev: Device, jobs: seq<Job>, elapsedMs: int, steps: nat)
    requires steps > 0 && NoDuplicates(Ids(jobs))
    requires t.OnJob? ==> jobs != [] && jobs[0].id == t.id && elapsedMs == t.elapsedMs
    ensures FollowAll(t, ShutdownEvents(dev, jobs, elapsedMs), steps) == Some(NoJob)
    decreases |jobs|
  {
    if jobs != [] {
      var state := StateEvent(jobs[0].id, Published(dev));
      var last := Finished(jobs[0].id, jobs[0].action, Cancelled(ForShutdown), elapsedMs, dev.joints);
      FollowOne(t, [state], last, [], steps);
      assert [state] + [last] + [] == [state, last];
      assert Ids(jobs[1..]) == Ids(jobs)[1..];
      FollowConcat(t, [state, last], ShutdownEvents(Published(dev), jobs[1..], 0), steps);
      ShutdownIsFollowed(NoJob, Published(dev), jobs[1..], 0, steps);
    }
  }

  lemma FinishCloseIsFollowed(q: Queue)
    requires Inv(q) && CanFinishClose(q)
    ensures Followed(q, FinishClose(q))
  {
    CloseEvents(q);
    ShutdownIsFollowed(TrackOf(q), StoppedForGood(q.dev, q.capacity), Live(q), CurrentElapsed(q), q.steps);
  }

  lemma StepIsFollowed(q: Queue, s: Step)
    requires Inv(q) && OnTime(q) && Enabled(q, s)
    ensures Followed(q, Apply(q, s))
  {
    match s
    case DoExecute(c) => ExecuteIsFollowed(q, c);
    case DoStart => StartIsFollowed(q);
    case DoSleepDone => assert NewEvents(q, Apply(q, s)) == [];
    case DoTick => TickIsFollowed(q);
    case DoInterrupt => FinishIsFollowed(q, Cancelled(ForRest));
    case DoFail(error) => FinishIsFollowed(q, Failed(error));
    case DoBeginClose => assert NewEvents(q, Apply(q, s)) == [];
    case DoFinishClose => FinishCloseIsFollowed(q);
  }

  lemma {:induction false} RunIsFollowed(q: Queue, run: seq<Step>)
    requires Inv(q) && OnTime(q) && Legal(q, run)
    ensures Followed(q, After(q, run))
    decreases |run|
  {
    if run == [] {
      assert NewEvents(q, q) == [];
    } else {
      var m, r := Apply(q, run[0]), After(q, run);
      StepIsFollowed(q, run[0]);
      StepKeepsInv(q, run[0]);
      RunIsFollowed(m, run[1..]);
      SplitEvents(q, run[0], run[1..]);
      FollowConcat(TrackOf(q), NewEvents(q, m), NewEvents(m, r), q.steps);
    }
  }

  /** On every run the progress reports of every job are in order, and it completes only after all of them. */
  lemma ReportsAreInOrder(q: Queue, run: seq<Step>)
    requires Initial(q) && Legal(q, run)
    ensures FollowAll(NoJob, After(q, run).trace, q.steps).Some?
    ensures FollowAll(NoJob, After(q, run).trace, q.steps).value == TrackOf(After(q, run))
  {
    InitialInv(q);
    RunIsFollowed(q, run);
    RunIsObserved(q, run);
    assert NewEvents(q, After(q, run)) == After(q, run).trace;
  }
}
