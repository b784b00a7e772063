/** The queue keeps the discipline that the monitor checks, on every run. */
module MotionLifecycle {
  import opened Common
  import opened Protocol
  import opened DeviceModel
  import opened Motion
  import opened MotionInvariant
  import opened MotionMonitor

  function BoardOf(q: Queue): Board {
    Board(Ids(q.waiting), if q.current.Some? then Some(q.current.value.job.id) else None)
  }

  function NewEvents(q: Queue, r: Queue): seq<Event> {
    if |q.trace| <= |r.trace| then r.trace[|q.trace|..] else []
  }

  /** The log grew by these events, and the monitor follows them from one state to the other. */
  ghost predicate Observed(q: Queue, r: Queue, events: seq<Event>) {
    r.trace == q.trace + events && Monitor(BoardOf(q), events) == Some(BoardOf(r))
  }

  lemma {:induction false} MonitorQuiet(b: Board, events: seq<Event>)
    requires forall e :: e in events ==> Quiet(e)
    ensures Monitor(b, events) == Some(b)
    decreases |events|
  {
    if events != [] {
      assert events[0] in events;
      MonitorQuiet(b, events[1..]);
    }
  }

  lemma {:induction false} MonitorCancellations(jobs: seq<Job>, tail: seq<Id>, running: Option<Id>, pose: Pose)
    requires forall j :: j in jobs ==> running != Some(j.id)
    ensures Monitor(Board(Ids(jobs) + tail, running), RestCancellations(jobs, pose)) == Some(Board(tail, running))
  {
    var line := Ids(jobs) + tail;
    if jobs == [] {
      assert line == tail;
    } else {
      var events := RestCancellations(jobs, pose);
      assert events[0] == Finished(jobs[0].id, jobs[0].action, Cancelled(ForRest), 0, pose);
      assert line[0] == jobs[0].id && jobs[0] in jobs;
      assert line[1..] == Ids(jobs[1..]) + tail;
      assert events[1..] == RestCancellations(jobs[1..], pose);
      MonitorCancellations(jobs[1..], tail, running, pose);
    }
  }

  /** In a consistent queue the ids on the board are pairwise different. */
  lemma BoardIsDistinct(q: Queue)
    requires JobsInv(q)
    ensures forall j :: j in q.waiting ==> BoardOf(q).running != Some(j.id)
    ensures forall id :: id in BoardOf(q).line || BoardOf(q).running == Some(id) ==> id in q.seenIds
  {
    forall j | j in q.waiting
      ensures BoardOf(q).running != Some(j.id) && j.id in q.seenIds
    {
      var i :| 0 <= i < |q.waiting| && q.waiting[i] == j;
      var k := |CurrentJob(q)|;
      assert Live(q)[k + i] == j && Ids(Live(q))[k + i] == j.id;
      if q.current.Some? {
        assert Ids(Live(q))[0] == q.current.value.job.id;
      }
    }
    if q.current.Some? {
      assert Live(q)[0] == q.current.value.job;
    }
    forall id | id in BoardOf(q).line
      ensures id in q.seenIds
    {
      var i :| 0 <= i < |q.waiting| && Ids(q.waiting)[i] == id;
      assert q.waiting[i] in q.waiting;
    }
  }

  /** What an accepted job takes out of the line. */
  function Replaced(q: Queue, job: Job): seq<Event> {
    if job.resting then RestCancellations(q.waiting, q.dev.joints) else []
  }

  lemma AcceptEvents(q: Queue, job: Job)
    ensures NewEvents(q, Accept(q, job)) ==
      [Accepted(job.id, job.commandType, true), StateEvent(job.id, Accept(q, job).dev)] + Replaced(q, job)
  {
  }

  lemma AcceptIsObserved(q: Queue, job: Job)
    requires JobsInv(q) && Rejection(q, job).None?
    ensures Observed(q, Accept(q, job), NewEvents(q, Accept(q, job)))
  {
    BoardIsDistinct(q);
    var b := BoardOf(q);
    var r := Accept(q, job);
    var events := NewEvents(q, r);
    var head := [Accepted(job.id, job.commandType, true), StateEvent(job.id, r.dev)];
    var tail := Replaced(q, job);
    AcceptEvents(q, job);
    assert head[1..][1..] == [];
    var added := Board(b.line + [job.id], b.running);
    assert Monitor(b, head) == Some(added) by {
      assert Observe(b, head[0]) == Some(added);
      assert Monitor(added, head[1..]) == Some(added);
    }
    MonitorConcat(b, head, tail);
    if job.resting {
      MonitorCancellations(q.waiting, [job.id], b.running, q.dev.joints);
      assert Ids([job]) == [job.id];
    } else {
      assert Ids(q.waiting + [job]) == added.line;
    }
  }

  lemma TwoEvents(b: Board, first: Event, second: Event)
    requires Observe(b, first).Some? && Observe(Observe(b, first).value, second).Some?
    ensures Monitor(b, [first, second]) == Observe(Observe(b, first).value, second)
  {
    assert [first, second][1..] == [second] && [second][1..] == [];
    assert Monitor(Observe(b, first).value, [second]) == Observe(Observe(b, first).value, second);
  }

  lemma StartIsObserved(q: Queue)
    requires CanStart(q)
    ensures Observed(q, Start(q), NewEvents(q, Start(q)))
  {
    var job, r := q.waiting[0], Start(q);
    assert Ids(q.waiting)[1..] == Ids(q.waiting[1..]);
    TwoEvents(BoardOf(q), Started(job.id, job.commandType, job.action, job.durationMs), StateEvent(job.id, r.dev));
    assert NewEvents(q, r) == [Started(job.id, job.commandType, job.action, job.durationMs), StateEvent(job.id, r.dev)];
  }

  lemma FinishIsObserved(q: Queue, outcome: Outcome)
    requires q.current.Some?
    ensures Observed(q, Finish(q, outcome), NewEvents(q, Finish(q, outcome)))
  {
    var job, r := q.current.value.job, Finish(q, outcome);
    var last := Finished(job.id, job.action, outcome, q.current.value.elapsedMs, q.dev.joints);
    TwoEvents(BoardOf(q), StateEvent(job.id, r.dev), last);
    assert NewEvents(q, r) == [StateEvent(job.id, r.dev), last];
  }

  lemma MoveIsObserved(q: Queue)
    requires CanTick(q)
    ensures Observed(q, Move(q), NewEvents(q, Move(q)))
  {
    var job, m := q.current.value.job, Move(q);
    var events := NewEvents(q, m);
    assert |events| == 2 && events == [events[0], events[1]];
    TwoEvents(BoardOf(q), events[0], events[1]);
  }

  lemma ObservedTwice(q: Queue, m: Queue, r: Queue, first: seq<Event>, second: seq<Event>)
    requires Observed(q, m, first) && Observed(m, r, second)
    ensures Observed(q, r, first + second)
  {
    MonitorConcat(BoardOf(q), first, second);
  }

  lemma TickIsObserved(q: Queue)
    requires CanTick(q)
    ensures Observed(q, Tick(q), NewEvents(q, Tick(q)))
  {
    MoveIsObserved(q);
    var m, r := Move(q), Tick(q);
    if r != m {
      FinishIsObserved(m, Completed);
      ObservedTwice(q, m, r, NewEvents(q, m), NewEvents(m, r));
      assert NewEvents(q, r) == NewEvents(q, m) + NewEvents(m, r);
    }
  }

  /** Shutting down ends first the running job and then the waiting ones in order. */
  lemma {:induction false} MonitorShutdown(b: Board, dev: Device, jobs: seq<Job>, elapsedMs: int)
    requires Ids(jobs) == (if b.running.Some? then [b.running.value] else []) + b.line
    requires NoDuplicates(Ids(jobs))
    ensures Monitor(b, ShutdownEvents(dev, jobs, elapsedMs)) == Some(EMPTY_BOARD)
    decreases |jobs|
  {
    if jobs == [] {
      assert Ids(jobs) == [];
    } else {
      var id := jobs[0].id;
      var last := Finished(id, jobs[0].action, Cancelled(ForShutdown), elapsedMs, dev.joints);
      var group := [StateEvent(id, Published(dev)), last];
      var next := if b.running.Some? then Board(b.line, None) else Board(b.line[1..], None);
      assert Ids(jobs)[0] == id;
      TwoEvents(b, group[0], last);
      assert Ids(jobs[1..]) == Ids(jobs)[1..] == next.line;
      MonitorConcat(b, group, ShutdownEvents(Published(dev), jobs[1..], 0));
      MonitorShutdown(next, Published(dev), jobs[1..], 0);
    }
  }

  lemma CloseEvents(q: Queue)
    requires CanFinishClose(q)
    ensures NewEvents(q, FinishClose(q)) == CloseLog(q) && FinishClose(q).trace == q.trace + CloseLog(q)
    ensures FinishClose(q).waiting == [] && FinishClose(q).current.None?
  {
  }

  lemma FinishCloseIsObserved(q: Queue)
    requires JobsInv(q) && CanFinishClose(q)
    ensures Observed(q, FinishClose(q), NewEvents(q, FinishClose(q)))
  {
    var b := BoardOf(q);
    assert Ids(Live(q)) == (if b.running.Some? then [b.running.value] else []) + b.line;
    MonitorShutdown(b, StoppedForGood(q.dev, q.capacity), Live(q), CurrentElapsed(q));
    CloseEvents(q);
    assert Ids([]) == [];
  }

  lemma ExecuteIsObserved(q: Queue, c: Command)
    requires Inv(q)
    ensures Observed(q, Execute(q, c), NewEvents(q, Execute(q, c)))
  {
    ExecuteCases(q, c);
    var r := Execute(q, c);
    if job :| AcceptStep(q, r, c, job) {
      AcceptIsObserved(q, job);
    } else {
      var dev, events :| QuietStep(q, r, dev, events);
      assert NewEvents(q, r) == events;
      MonitorQuiet(BoardOf(q), events);
    }
  }

  lemma StepIsObserved(q: Queue, s: Step)
    requires Inv(q) && Enabled(q, s)
    ensures Observed(q, Apply(q, s), NewEvents(q, Apply(q, s)))
  {
    match s
    case DoExecute(c) => ExecuteIsObserved(q, c);
    case DoStart => StartIsObserved(q);
    case DoSleepDone => assert NewEvents(q, Apply(q, s)) == [];
    case DoTick => TickIsObserved(q);
    case DoInterrupt => FinishIsObserved(q, Cancelled(ForRest));
    case DoFail(error) => FinishIsObserved(q, Failed(error));
    case DoBeginClose => assert NewEvents(q, Apply(q, s)) == [];
    case DoFinishClose => FinishCloseIsObserved(q);
  }

  /** What a run emits, and that the monitor accepts it. */
  lemma {:induction false} RunIsObserved(q: Queue, run: seq<Step>)
    requires Inv(q) && Legal(q, run)
    ensures Observed(q, After(q, run), NewEvents(q, After(q, run)))
    decreases |run|
  {
    if run == [] {
      assert NewEvents(q, q) == [];
    } else {
      var m, r := Apply(q, run[0]), After(q, run);
      StepIsObserved(q, run[0]);
      StepKeepsInv(q, run[0]);
      RunIsObserved(m, run[1..]);
      ObservedTwice(q, m, r, NewEvents(q, m), NewEvents(m, r));
      assert NewEvents(q, r) == NewEvents(q, m) + NewEvents(m, r);
    }
  }

  // ---- the theorems --------------------------------------------------------------------

  predicate IsLive(q: Queue, id: Id) {
    id in LiveIds(q)
  }

  lemma LiveOnBoard(q: Queue, id: Id)
    requires JobsInv(q)
    ensures OnBoard(BoardOf(q), id) == if IsLive(q, id) then 1 else 0
  {
    var live, b := Ids(Live(q)), BoardOf(q);
    var head := if b.running.Some? then [b.running.value] else [];
    assert live == head + b.line;
    assert multiset(live) == multiset(head) + multiset(b.line);
    NoDuplicatesCount(live, id);
  }

  lemma {:induction false} NoDuplicatesCount(ids: seq<Id>, id: Id)
    requires NoDuplicates(ids)
    ensures multiset(ids)[id] == if id in ids then 1 else 0
  {
    if ids != [] {
      assert ids == [ids[0]] + ids[1..];
      NoDuplicatesCount(ids[1..], id);
    }
  }

  /**
   Accounting: on every run from a new queue, each id has been accepted exactly
   as often as it has been finished, plus once if it is live.
   */
  lemma AcceptedOnceFinishedOnce(q: Queue, run: seq<Step>, id: Id)
    requires Initial(q) && Legal(q, run)
    ensures var r := After(q, run);
      AcceptedCount(r.trace, id) == FinishedCount(r.trace, id) + if IsLive(r, id) then 1 else 0
  {
    InitialInv(q);
    RunIsObserved(q, run);
    RunKeepsInv(q, run);
    var r := After(q, run);
    assert NewEvents(q, r) == r.trace && BoardOf(q) == EMPTY_BOARD;
    EveryJobEndsOnce(EMPTY_BOARD, r.trace, id);
    LiveOnBoard(r, id);
  }

  /** After closing nothing is live, and every accepted job has been finished. */
  lemma NothingLiveAfterClose(q: Queue, run: seq<Step>, id: Id)
    requires Initial(q) && Legal(q, run) && After(q, run).stage == Closed
    ensures Live(After(q, run)) == []
    ensures AcceptedCount(After(q, run).trace, id) == FinishedCount(After(q, run).trace, id)
  {
    InitialInv(q);
    RunKeepsInv(q, run);
    AcceptedOnceFinishedOnce(q, run, id);
  }

  /**
   Jobs start in acceptance order: the started ids followed by the waiting ones
   are the accepted ids with the ones cancelled in line left out, each as often
   as it was cancelled there.
   */
  lemma StartsInAcceptanceOrder(q: Queue, run: seq<Step>)
    requires Initial(q) && Legal(q, run)
    ensures var r := After(q, run);
      Subsequence(StartedIds(r.trace) + Ids(r.waiting), AcceptedIds(r.trace))
    ensures var r := After(q, run);
      forall id :: multiset(AcceptedIds(r.trace))[id] ==
        multiset(StartedIds(r.trace))[id] + multiset(Ids(r.waiting))[id]
        + multiset(CancelledInLine(EMPTY_BOARD, r.trace))[id]
  {
    InitialInv(q);
    RunIsObserved(q, run);
    var r := After(q, run);
    assert NewEvents(q, r) == r.trace && BoardOf(q) == EMPTY_BOARD;
    ServedInOrder(r.trace);
    AllAreAccountedFor(r.trace);
  }
}
