/** How often a rest interrupts: accounting over whole runs, and the schedule on which the flag outlives the rest. */
module MotionInterrupt {
  import opened Common
  import opened Protocol
  import opened DeviceModel
  import opened Motion
  import opened MotionInvariant
  import opened MotionMonitor
  import opened MotionLifecycle
  import opened MotionRest

  function RestsAccepted(log: seq<Event>): nat {
    if log == [] then 0
    else
      var first := if log[0].Accepted? && log[0].queued && log[0].commandType == DeviceRest then 1 else 0;
      first + RestsAccepted(log[1..])
  }

  /** The event cancels the job that runs, because of a rest. */
  predicate CutsShort(b: Board, e: Event) {
    e.Finished? && e.outcome == Cancelled(ForRest) && b.running == Some(e.id)
  }

  /** How many running jobs the log says were cancelled because of a rest. */
  function RunningCancels(b: Board, log: seq<Event>): nat
    decreases |log|
  {
    if log == [] || Observe(b, log[0]).None? then 0
    else (if CutsShort(b, log[0]) then 1 else 0) + RunningCancels(Observe(b, log[0]).value, log[1..])
  }

  lemma {:induction false} RunningCancelsConcat(b: Board, first: seq<Event>, second: seq<Event>)
    requires Monitor(b, first).Some?
    ensures RunningCancels(b, first + second)
         == RunningCancels(b, first) + RunningCancels(Monitor(b, first).value, second)
    decreases |first|
  {
    if first == [] {
      assert first + second == second;
    } else {
      assert (first + second)[1..] == first[1..] + second;
      RunningCancelsConcat(Observe(b, first[0]).value, first[1..], second);
    }
  }

  lemma {:induction false} RestsConcat(a: seq<Event>, b: seq<Event>)
    ensures RestsAccepted(a + b) == RestsAccepted(a) + RestsAccepted(b)
  {
    if a == [] {
      assert a + b == b;
    } else {
      assert (a + b)[1..] == a[1..] + b;
      RestsConcat(a[1..], b);
    }
  }

  function Flag(q: Queue): nat {
    if q.interrupt then 1 else 0
  }

  /** What a stretch of log does to the account. */
  ghost predicate Balanced(q: Queue, r: Queue, log: seq<Event>) {
    RunningCancels(BoardOf(q), log) + Flag(r) <= RestsAccepted(log) + Flag(q)
  }

  /** A log in which nothing that runs is cancelled for a rest. */
  lemma {:induction false} NoCancels(b: Board, log: seq<Event>)
    requires forall e :: e in log && e.Finished? && e.outcome == Cancelled(ForRest) ==> b.running != Some(e.id)
    requires forall e :: e in log ==> !e.Started?
    ensures RunningCancels(b, log) == 0
    decreases |log|
  {
    if log != [] && Observe(b, log[0]).Some? {
      assert log[0] in log;
      assert forall e :: e in log[1..] ==> e in log;
      NoCancels(Observe(b, log[0]).value, log[1..]);
    }
  }

  lemma {:induction false} CancellationShape(jobs: seq<Job>, pose: Pose)
    ensures forall e :: e in RestCancellations(jobs, pose) ==> e.Finished? && exists j :: j in jobs && j.id == e.id
  {
    if jobs != [] {
      assert jobs[0] in jobs;
      CancellationShape(jobs[1..], pose);
      assert forall j :: j in jobs[1..] ==> j in jobs;
    }
  }

  lemma {:induction false} ShutdownShape(dev: Device, jobs: seq<Job>, elapsedMs: int)
    ensures forall e :: e in ShutdownEvents(dev, jobs, elapsedMs) ==>
      e.StateChanged? || (e.Finished? && e.outcome == Cancelled(ForShutdown))
    decreases |jobs|
  {
    if jobs != [] {
      ShutdownShape(Published(dev), jobs[1..], 0);
    }
  }

  lemma AcceptIsBalanced(q: Queue, job: Job)
    requires JobsInv(q) && JobOk(job) && Rejection(q, job).None?
    ensures Balanced(q, Accept(q, job), NewEvents(q, Accept(q, job)))
  {
    var r := Accept(q, job);
    var log := NewEvents(q, r);
    BoardIsDistinct(q);
    CancellationShape(q.waiting, q.dev.joints);
    AcceptEvents(q, job);
    NoCancels(BoardOf(q), log);
    assert RestsAccepted(log) >= if job.resting then 1 else 0;
  }

  lemma FinishIsBalanced(q: Queue, outcome: Outcome)
    requires q.current.Some? && (outcome == Cancelled(ForRest) ==> q.interrupt)
    ensures Balanced(q, Finish(q, outcome), NewEvents(q, Finish(q, outcome)))
  {
    FinishEvents(q, outcome);
    var log := NewEvents(q, Finish(q, outcome));
    assert log[1..][1..] == [];
    assert Observe(BoardOf(q), log[0]) == Some(BoardOf(q));
    assert RunningCancels(BoardOf(q), log) == RunningCancels(BoardOf(q), log[1..]);
    assert RunningCancels(BoardOf(q), log[1..]) <= 1;
  }

  lemma MoveIsBalanced(q: Queue)
    requires CanTick(q)
    ensures Balanced(q, Move(q), NewEvents(q, Move(q)))
  {
    MoveEvents(q);
    var log := NewEvents(q, Move(q));
    assert log == [log[0], log[1]];
    NoCancels(BoardOf(q), log);
  }

  lemma BalancedTwice(q: Queue, m: Queue, r: Queue, first: seq<Event>, second: seq<Event>)
    requires Observed(q, m, first) && Balanced(q, m, first) && Balanced(m, r, second)
    ensures Balanced(q, r, first + second)
  {
    RunningCancelsConcat(BoardOf(q), first, second);
    RestsConcat(first, second);
  }

  lemma TickIsBalanced(q: Queue)
    requires Inv(q) && CanTick(q)
    ensures Balanced(q, Tick(q), NewEvents(q, Tick(q)))
  {
    MoveIsBalanced(q);
    MoveIsObserved(q);
    TickEvents(q);
    if q.current.value.done + 1 == q.steps {
      FinishIsBalanced(Move(q), Completed);
      BalancedTwice(q, Move(q), Tick(q), NewEvents(q, Move(q)), NewEvents(Move(q), Tick(q)));
    } else {
      assert Tick(q) == Move(q);
    }
  }

  lemma ExecuteIsBalanced(q: Queue, c: Command)
    requires Inv(q)
    ensures Balanced(q, Execute(q, c), NewEvents(q, Execute(q, c)))
  {
    ExecuteCases(q, c);
    var r := Execute(q, c);
    if job :| AcceptStep(q, r, c, job) {
      AcceptIsBalanced(q, job);
    } else {
      var dev, events :| QuietStep(q, r, dev, events);
      assert NewEvents(q, r) == events;
      NoCancels(BoardOf(q), events);
    }
  }

  lemma FinishCloseIsBalanced(q: Queue)
    requires CanFinishClose(q)
    ensures Balanced(q, FinishClose(q), NewEvents(q, FinishClose(q)))
  {
    CloseEvents(q);
    ShutdownShape(StoppedForGood(q.dev, q.capacity), Live(q), CurrentElapsed(q));
    NoCancels(BoardOf(q), CloseLog(q));
  }

  lemma StartIsBalanced(q: Queue)
    requires CanStart(q)
    ensures Balanced(q, Start(q), NewEvents(q, Start(q)))
  {
    var log := NewEvents(q, Start(q));
    assert log[1..] == [log[1]] && log[1..][1..] == [];
    assert !CutsShort(BoardOf(q), log[0]) && log[0].Started?;
    assert RunningCancels(BoardOf(q), log) == RunningCancels(Observe(BoardOf(q), log[0]).value, log[1..]) == 0;
  }

  lemma StepIsBalanced(q: Queue, s: Step)
    requires Inv(q) && Enabled(q, s)
    ensures Balanced(q, Apply(q, s), NewEvents(q, Apply(q, s)))
  {
    match s
    case DoExecute(c) => ExecuteIsBalanced(q, c);
    case DoStart => StartIsBalanced(q);
    case DoSleepDone => assert NewEvents(q, Apply(q, s)) == [];
    case DoTick => TickIsBalanced(q);
    case DoInterrupt => FinishIsBalanced(q, Cancelled(ForRest));
    case DoFail(error) => FinishIsBalanced(q, Failed(error));
    case DoBeginClose => assert NewEvents(q, Apply(q, s)) == [];
    case DoFinishClose => FinishCloseIsBalanced(q);
  }

  lemma {:induction false} RunIsBalanced(q: Queue, run: seq<Step>)
    requires Inv(q) && Legal(q, run)
    ensures Balanced(q, After(q, run), NewEvents(q, After(q, run)))
    decreases |run|
  {
    if run == [] {
      assert NewEvents(q, q) == [];
    } else {
      var m, r := Apply(q, run[0]), After(q, run);
      StepIsBalanced(q, run[0]);
      StepIsObserved(q, run[0]);
      StepKeepsInv(q, run[0]);
      SplitEvents(q, run[0], run[1..]);
      RunIsBalanced(m, run[1..]);
      BalancedTwice(q, m, r, NewEvents(q, m), NewEvents(m, r));
    }
  }

  /** On every run: running jobs cut short by a rest, plus one while the flag is up, are at most the rests accepted. */
  lemma EachRestInterruptsAtMostOnce(q: Queue, run: seq<Step>)
    requires Initial(q) && Legal(q, run)
    ensures var r := After(q, run);
      RunningCancels(EMPTY_BOARD, r.trace) + Flag(r) <= RestsAccepted(r.trace)
  {
    InitialInv(q);
    RunIsBalanced(q, run);
    RunIsObserved(q, run);
    assert NewEvents(q, After(q, run)) == After(q, run).trace && BoardOf(q) == EMPTY_BOARD;
  }

  /** With the flag down and no rest accepted, no running job is cut short. */
  lemma NoRestNoInterruption(q: Queue, run: seq<Step>)
    requires Inv(q) && Legal(q, run) && !q.interrupt
    requires RestsAccepted(NewEvents(q, After(q, run))) == 0
    ensures RunningCancels(BoardOf(q), NewEvents(q, After(q, run))) == 0 && !After(q, run).interrupt
  {
    RunIsBalanced(q, run);
  }

  // ---- the flag that outlives its rest ----------------------------------------------------

  /** A motion that sleeps with the flag up makes no progress: it is cancelled, or fails, or is shut down. */
  lemma FlagDecides(q: Queue, s: Step)
    requires Inv(q) && Sleeping(q) && q.interrupt && !q.current.value.job.resting && Enabled(q, s)
    ensures s.DoInterrupt? || s.DoFail? || (Apply(q, s).current == q.current && Apply(q, s).interrupt)
  {
    if s.DoExecute? {
      ExecuteCases(q, s.command);
    }
  }

  lemma {:induction false} LegalConcat(q: Queue, first: seq<Step>, second: seq<Step>)
    requires Legal(q, first) && Legal(After(q, first), second)
    ensures Legal(q, first + second) && After(q, first + second) == After(After(q, first), second)
    decreases |first|
  {
    if first == [] {
      assert first + second == second;
    } else {
      assert (first + second)[1..] == first[1..] + second;
      LegalConcat(Apply(q, first[0]), first[1..], second);
    }
  }

  lemma OneStep(q: Queue, s: Step)
    requires Enabled(q, s)
    ensures Legal(q, [s]) && After(q, [s]) == Apply(q, s)
  {
    assert [s][1..] == [];
    assert Legal(Apply(q, s), [s][1..]);
  }

  /** A job is asleep after so many of its steps; the flag may be up only for a rest. */
  ghost predicate Asleep(q: Queue, job: Job, done: nat) {
    && Inv(q) && Sleeping(q) && q.current.value.job == job && q.current.value.done == done
    && (job.resting || !q.interrupt)
  }

  /** What the worker leaves alone. */
  predicate SameOutside(q: Queue, r: Queue) {
    r.interrupt == q.interrupt && r.waiting == q.waiting && r.seenIds == q.seenIds
    && r.steps == q.steps && r.capacity == q.capacity && r.dev.deviceId == q.dev.deviceId && r.stage == q.stage
  }

  lemma OneLap(q: Queue, job: Job, done: nat) returns (run: seq<Step>)
    requires Asleep(q, job, done) && done + 1 < q.steps
    ensures Legal(q, run) && Asleep(After(q, run), job, done + 1) && SameOutside(q, After(q, run))
  {
    OneStep(q, DoSleepDone);
    StepKeepsInv(q, DoSleepDone);
    var m := SleepDone(q);
    OneStep(m, DoTick);
    StepKeepsInv(m, DoTick);
    LegalConcat(q, [DoSleepDone], [DoTick]);
    run := [DoSleepDone] + [DoTick];
  }

  lemma {:induction false} WorkUntil(q: Queue, job: Job, done: nat, goal: nat) returns (run: seq<Step>)
    requires Asleep(q, job, done) && done <= goal < q.steps
    ensures Legal(q, run) && Asleep(After(q, run), job, goal) && SameOutside(q, After(q, run))
    decreases goal - done
  {
    if done == goal {
      run := [];
    } else {
      var lap := OneLap(q, job, done);
      var rest := WorkUntil(After(q, lap), job, done + 1, goal);
      LegalConcat(q, lap, rest);
      run := lap + rest;
    }
  }

  /** An idle queue, still open, that has not seen ids from this one on. */
  ghost predicate Idling(q: Queue, flag: bool, next: Id) {
    Inv(q) && q.stage == Open && Live(q) == [] && q.interrupt == flag && forall id :: id in q.seenIds ==> id < next
  }

  function NodCommand(q: Queue, id: Id): Command {
    Command(q.dev.deviceId, id, Motion(Play(Nod)))
  }

  function NodJob(id: Id): Job {
    Job(id, MotionPlay, Playing(Nod), PresetPose(Nod).value, DEFAULT_DURATION_MS, false)
  }

  function RestJob(id: Id): Job {
    Job(id, DeviceRest, EnteringRest, DefaultPose(), DEFAULT_DURATION_MS, true)
  }

  lemma AcceptedWhenFree(q: Queue, c: Command, job: Job)
    requires Inv(q) && q.stage == Open && !RestPending(q) && c.id !in q.seenIds && q.waiting == []
    requires c.deviceId == q.dev.deviceId && c.body.Motion? && Prepare(c.id, c.body.command, q.projected) == Some(job)
    ensures Execute(q, c) == Accept(q, job) && Inv(Execute(q, c))
  {
    ExecuteKeepsInv(q, c);
    PreparedJobIsOk(c.id, c.body.command, q.projected);
    assert Rejection(q, job).None?;
  }

  lemma NodIsAccepted(q: Queue, flag: bool, id: Id)
    requires Idling(q, flag, id)
    ensures var m := Execute(q, NodCommand(q, id));
      && Inv(m) && m.waiting == [NodJob(id)] && m.current.None? && m.stage == Open
      && m.interrupt == flag && m.steps == q.steps && m.dev.deviceId == q.dev.deviceId
      && (forall x :: x in m.seenIds ==> x < id + 1)
  {
    assert q.waiting == [] by {
      assert |Live(q)| == |CurrentJob(q)| + |q.waiting|;
    }
    AcceptedWhenFree(q, NodCommand(q, id), NodJob(id));
  }

  /** From idleness, a motion is accepted and goes to sleep. */
  lemma BeginNod(q: Queue, flag: bool, id: Id) returns (run: seq<Step>)
    requires Idling(q, flag, id)
    ensures run == [DoExecute(NodCommand(q, id)), DoStart] && Legal(q, run)
    ensures var r := After(q, run);
      && Inv(r) && Sleeping(r) && r.waiting == [] && r.current.value.job == NodJob(id) && r.current.value.done == 0
      && r.interrupt == flag && r.steps == q.steps && r.dev.deviceId == q.dev.deviceId
      && (forall x :: x in r.seenIds ==> x < id + 1)
  {
    var c := NodCommand(q, id);
    NodIsAccepted(q, flag, id);
    OneStep(q, DoExecute(c));
    var m := Execute(q, c);
    OneStep(m, DoStart);
    StepKeepsInv(m, DoStart);
    LegalConcat(q, [DoExecute(c)], [DoStart]);
    run := [DoExecute(c)] + [DoStart];
  }

  /** While a motion runs, a rest is accepted behind it and raises the flag. */
  lemma AcceptRest(q: Queue, id: Id)
    requires Inv(q) && q.stage == Open && q.current.Some? && !q.current.value.job.resting && q.waiting == []
    requires forall x :: x in q.seenIds ==> x < id
    ensures var c := Command(q.dev.deviceId, id, Motion(Rest));
      var r := Execute(q, c);
      && Inv(r) && r.current == q.current && r.waiting == [RestJob(id)] && r.interrupt
      && r.steps == q.steps && r.stage == Open && r.dev.deviceId == q.dev.deviceId
      && (forall x :: x in r.seenIds ==> x < id + 1)
  {
    var c := Command(q.dev.deviceId, id, Motion(Rest));
    assert Live(q) == [q.current.value.job];
    AcceptedWhenFree(q, c, RestJob(id));
  }

  /** The last tick of a job that was chosen before: it completes, and the flag stays as it is. */
  lemma LastTick(q: Queue)
    requires Inv(q) && CanTick(q) && q.current.value.done + 1 == q.steps
    ensures var r := Tick(q);
      Inv(r) && r.current.None? && r.stage == Open && SameOutside(q, r)
  {
    TickKeepsInv(q);
  }

  /** From falling asleep for the last time to completion. */
  lemma LastLap(q: Queue, job: Job) returns (run: seq<Step>)
    requires q.steps > 0 && Asleep(q, job, q.steps - 1)
    ensures Legal(q, run) && Inv(After(q, run)) && After(q, run).current.None? && SameOutside(q, After(q, run))
  {
    OneStep(q, DoSleepDone);
    StepKeepsInv(q, DoSleepDone);
    var m := SleepDone(q);
    OneStep(m, DoTick);
    LastTick(m);
    LegalConcat(q, [DoSleepDone], [DoTick]);
    run := [DoSleepDone] + [DoTick];
  }

  /** A rest that is first in line starts and runs to its end, whether or not the flag is up. */
  lemma RestToItsEnd(q: Queue, id: Id) returns (run: seq<Step>)
    requires Inv(q) && q.stage == Open && q.current.None? && q.waiting == [RestJob(id)]
    ensures Legal(q, run)
    ensures var r := After(q, run);
      Inv(r) && r.stage == Open && Live(r) == [] && r.interrupt == q.interrupt && r.seenIds == q.seenIds
      && r.steps == q.steps && r.dev.deviceId == q.dev.deviceId
  {
    OneStep(q, DoStart);
    StepKeepsInv(q, DoStart);
    var m := Start(q);
    var work := WorkUntil(m, RestJob(id), 0, m.steps - 1);
    var lap := LastLap(After(m, work), RestJob(id));
    LegalConcat(m, work, lap);
    LegalConcat(q, [DoStart], work + lap);
    run := [DoStart] + (work + lap);
    assert Live(After(q, run)) == [];
  }

  /** A motion up to its last sleep, already chosen. */
  lemma NodToLastChoice(q: Queue, id: Id) returns (run: seq<Step>)
    requires Idling(q, false, id)
    ensures Legal(q, run)
    ensures var r := After(q, run);
      && Inv(r) && CanTick(r) && r.waiting == [] && r.current.value.job == NodJob(id)
        && r.current.value.done + 1 == r.steps
      && !r.interrupt && r.steps == q.steps && r.dev.deviceId == q.dev.deviceId
      && (forall x :: x in r.seenIds ==> x < id + 1)
  {
    var begin := BeginNod(q, false, id);
    var m := After(q, begin);
    var work := WorkUntil(m, NodJob(id), 0, m.steps - 1);
    LegalConcat(q, begin, work);
    var a := After(m, work);
    OneStep(a, DoSleepDone);
    StepKeepsInv(a, DoSleepDone);
    LegalConcat(q, begin + work, [DoSleepDone]);
    run := begin + work + [DoSleepDone];
  }

  /** The rest is accepted in between: the motion completes, the rest completes, the flag is still up. */
  lemma FlagOutlivesRest(q: Queue, id: Id) returns (run: seq<Step>)
    requires Inv(q) && CanTick(q) && q.waiting == [] && !q.current.value.job.resting
      && q.current.value.done + 1 == q.steps
    requires forall x :: x in q.seenIds ==> x < id
    ensures Legal(q, run) && Idling(After(q, run), true, id + 1) && After(q, run).dev.deviceId == q.dev.deviceId
  {
    var c := Command(q.dev.deviceId, id, Motion(Rest));
    AcceptRest(q, id);
    var a := Execute(q, c);
    OneStep(q, DoExecute(c));
    LastTick(a);
    OneStep(a, DoTick);
    LegalConcat(q, [DoExecute(c)], [DoTick]);
    var b := Tick(a);
    var end := RestToItsEnd(b, id);
    LegalConcat(q, [DoExecute(c)] + [DoTick], end);
    run := [DoExecute(c)] + [DoTick] + end;
  }

  lemma {:induction false} NoAcceptance(log: seq<Event>)
    requires forall e :: e in log ==> !e.Accepted?
    ensures RestsAccepted(log) == 0
  {
    if log != [] {
      assert log[0] in log && forall e :: e in log[1..] ==> e in log;
      NoAcceptance(log[1..]);
    }
  }

  lemma NodIsNoRest(q: Queue, id: Id)
    ensures RestsAccepted(NewEvents(q, Accept(q, NodJob(id)))) == 0
  {
    var log := NewEvents(q, Accept(q, NodJob(id)));
    assert |log| == 2 && log[0] == Accepted(id, MotionPlay, true) && log[1].StateChanged?;
    NoAcceptance(log[1..]);
  }

  lemma StartIsNoRest(q: Queue)
    requires CanStart(q)
    ensures RestsAccepted(NewEvents(q, Start(q))) == 0
  {
    NoAcceptance(NewEvents(q, Start(q)));
  }

  lemma TwoSteps(q: Queue, s: Step, t: Step)
    requires Inv(q) && Enabled(q, s) && Enabled(Apply(q, s), t)
    ensures Legal(q, [s, t]) && After(q, [s, t]) == Apply(Apply(q, s), t)
    ensures RestsAccepted(NewEvents(q, After(q, [s, t]))) ==
      RestsAccepted(NewEvents(q, Apply(q, s))) + RestsAccepted(NewEvents(Apply(q, s), Apply(Apply(q, s), t)))
  {
    var m := Apply(q, s);
    OneStep(q, s);
    OneStep(m, t);
    SplitRun(q, [s], [t]);
    LegalConcat(q, [s], [t]);
    RestsConcat(NewEvents(q, m), NewEvents(m, Apply(m, t)));
    assert [s] + [t] == [s, t];
  }

  lemma BeginNodEvents(q: Queue, id: Id)
    requires Idling(q, q.interrupt, id)
    ensures var run := [DoExecute(NodCommand(q, id)), DoStart];
      Legal(q, run) && RestsAccepted(NewEvents(q, After(q, run))) == 0
  {
    var c := NodCommand(q, id);
    IdleLine(q);
    AcceptedWhenFree(q, c, NodJob(id));
    var m := Accept(q, NodJob(id));
    assert CanStart(m);
    TwoSteps(q, DoExecute(c), DoStart);
    NodIsNoRest(q, id);
    StartIsNoRest(m);
  }

  lemma IdleLine(q: Queue)
    requires Live(q) == []
    ensures q.waiting == [] && q.current.None?
  {
    assert |Live(q)| == |CurrentJob(q)| + |q.waiting|;
  }

  lemma InterruptEvents(q: Queue)
    requires CanInterrupt(q)
    ensures var log := NewEvents(q, Interrupt(q));
      && RestsAccepted(log) == 0 && log != []
      && log[|log| - 1].Finished? && log[|log| - 1].id == q.current.value.job.id
        && log[|log| - 1].outcome == Cancelled(ForRest)
  {
    FinishEvents(q, Cancelled(ForRest));
    NoAcceptance(NewEvents(q, Interrupt(q)));
  }

  lemma InterruptIsOneCancel(q: Queue)
    requires CanInterrupt(q)
    ensures RunningCancels(BoardOf(q), NewEvents(q, Interrupt(q))) == 1
  {
    FinishEvents(q, Cancelled(ForRest));
    var log := NewEvents(q, Interrupt(q));
    assert log[1..] == [log[1]] && log[1..][1..] == [];
    assert Observe(BoardOf(q), log[0]) == Some(BoardOf(q)) && CutsShort(BoardOf(q), log[1]);
    assert RunningCancels(BoardOf(q), log) == RunningCancels(BoardOf(q), log[1..]);
  }

  /** The next motion is then cut short although no rest is pending when it is accepted. */
  lemma StaleFlagCancels(q: Queue, id: Id) returns (run: seq<Step>)
    requires Idling(q, true, id)
    ensures Legal(q, run)
    ensures var log := NewEvents(q, After(q, run));
      && log != [] && log[|log| - 1].Finished? && log[|log| - 1].id == id
        && log[|log| - 1].outcome == Cancelled(ForRest)
      && RestsAccepted(log) == 0 && RunningCancels(BoardOf(q), log) > 0
  {
    var begin := BeginNod(q, true, id);
    BeginNodEvents(q, id);
    var a := After(q, begin);
    OneStep(a, DoInterrupt);
    InterruptEvents(a);
    SplitRun(q, begin, [DoInterrupt]);
    RestsConcat(NewEvents(q, a), NewEvents(a, Interrupt(a)));
    RunIsObserved(q, begin);
    RunningCancelsConcat(BoardOf(q), NewEvents(q, a), NewEvents(a, Interrupt(a)));
    InterruptIsOneCancel(a);
    run := begin + [DoInterrupt];
  }

  lemma SplitRun(q: Queue, first: seq<Step>, second: seq<Step>)
    requires Inv(q) && Legal(q, first) && Legal(After(q, first), second)
    ensures Legal(q, first + second)
    ensures NewEvents(q, After(q, first + second)) ==
            NewEvents(q, After(q, first)) + NewEvents(After(q, first), After(After(q, first), second))
  {
    LegalConcat(q, first, second);
    RunKeepsInv(q, first);
    RunIsObserved(q, first);
    RunIsObserved(After(q, first), second);
  }

  /** The first half of the schedule: from a new queue to an idle one with the flag up. */
  lemma RestComesLate(q: Queue) returns (run: seq<Step>)
    requires Initial(q)
    ensures Legal(q, run) && Idling(After(q, run), true, 2)
  {
    InitialInv(q);
    assert Live(q) == [];
    var nod := NodToLastChoice(q, 0);
    var rest := FlagOutlivesRest(After(q, nod), 1);
    LegalConcat(q, nod, rest);
    run := nod + rest;
  }

  /**
   From every new queue, whatever its number of steps, there is a run in which a
   motion that was accepted after the only rest had finished is cancelled with
   device_rest.
   */
  lemma MotionAfterRestMayBeCancelled(q: Queue) returns (before: seq<Step>, after: seq<Step>)
    requires Initial(q)
    ensures Legal(q, before + after) && Legal(q, before) && Legal(After(q, before), after)
    ensures Live(After(q, before)) == [] && RestsAccepted(NewEvents(After(q, before), After(q, before + after))) == 0
    ensures var log := After(q, before + after).trace;
      log != [] && log[|log| - 1].Finished? && log[|log| - 1].id == 2 && log[|log| - 1].outcome == Cancelled(ForRest)
  {
    before := RestComesLate(q);
    var b := After(q, before);
    after := StaleFlagCancels(b, 2);
    LegalConcat(q, before, after);
    RunIsObserved(b, after);
  }

  /**
   Exactly when a motion accepted after a rest is safe from it: an idle queue
   accepts no rest and cuts no job short, on whatever run, if and only if its
   interrupt flag is down.
   */
  lemma SafeFromOldRestsIff(q: Queue, id: Id)
    requires Idling(q, q.interrupt, id)
    ensures !q.interrupt <==>
      forall run :: Legal(q, run) && RestsAccepted(NewEvents(q, After(q, run))) == 0 ==>
        RunningCancels(BoardOf(q), NewEvents(q, After(q, run))) == 0
  {
    if q.interrupt {
      var run := StaleFlagCancels(q, id);
    } else {
      forall run | Legal(q, run) && RestsAccepted(NewEvents(q, After(q, run))) == 0
        ensures RunningCancels(BoardOf(q), NewEvents(q, After(q, run))) == 0
      {
        NoRestNoInterruption(q, run);
      }
    }
  }
}
