/** What the interrupt flag remembers, read from the log alone. */
module MotionFlag {
  import opened Common
  import opened Protocol
  import opened DeviceModel
  import opened Motion
  import opened MotionInvariant
  import opened MotionMonitor
  import opened MotionLifecycle
  import opened MotionRest
  import opened MotionInterrupt

  /** A rest is accepted while a job runs. */
  predicate Raises(b: Board, e: Event) {
    e.Accepted? && e.queued && e.commandType == DeviceRest && b.running.Some?
  }

  /** Up from such a rest to the next job that is cut short. */
  function Owed(b: Board, up: bool, log: seq<Event>): bool
    decreases |log|
  {
    if log == [] || Observe(b, log[0]).None? then up
    else
      Owed(Observe(b, log[0]).value, Raises(b, log[0]) || (up && !CutsShort(b, log[0])), log[1..])
  }

  lemma {:induction false} OwedConcat(b: Board, up: bool, first: seq<Event>, second: seq<Event>)
    requires Monitor(b, first).Some?
    ensures Owed(b, up, first + second) == Owed(Monitor(b, first).value, Owed(b, up, first), second)
    decreases |first|
  {
    if first == [] {
      assert first + second == second;
    } else {
      assert (first + second)[1..] == first[1..] + second;
      var next := Raises(b, first[0]) || (up && !CutsShort(b, first[0]));
      OwedConcat(Observe(b, first[0]).value, next, first[1..], second);
    }
  }

  /** The flag goes the way that the events say. */
  ghost predicate Follows(q: Queue, r: Queue, log: seq<Event>) {
    Owed(BoardOf(q), q.interrupt, log) == r.interrupt
  }

  /** A log that neither raises nor clears the flag. */
  lemma {:induction false} NothingOwed(b: Board, up: bool, log: seq<Event>)
    requires forall e :: e in log && e.Finished? && e.outcome == Cancelled(ForRest) ==> b.running != Some(e.id)
    requires forall e :: e in log ==> !e.Started? && !(e.Accepted? && e.queued)
    ensures Owed(b, up, log) == up
    decreases |log|
  {
    if log != [] && Observe(b, log[0]).Some? {
      assert log[0] in log;
      assert forall e :: e in log[1..] ==> e in log;
      NothingOwed(Observe(b, log[0]).value, up, log[1..]);
    }
  }

  lemma RunningIsSpared(q: Queue, pose: Pose)
    requires JobsInv(q)
    ensures forall e :: e in RestCancellations(q.waiting, pose) ==>
      e.Finished? && BoardOf(q).running != Some(e.id)
  {
    BoardIsDistinct(q);
    CancellationShape(q.waiting, pose);
  }

  lemma AcceptLog(q: Queue, job: Job)
    requires JobsInv(q)
    ensures var log := NewEvents(q, Accept(q, job));
      && log != [] && log[0] == Accepted(job.id, job.commandType, true)
      && forall e :: e in log[1..] ==>
           !e.Started? && !e.Accepted? && (e.Finished? ==> BoardOf(q).running != Some(e.id))
  {
    RunningIsSpared(q, q.dev.joints);
    AcceptEvents(q, job);
    assert NewEvents(q, Accept(q, job))[1..] == [StateEvent(job.id, Accept(q, job).dev)] + Replaced(q, job);
  }

  lemma AcceptFollows(q: Queue, job: Job)
    requires JobsInv(q) && JobOk(job) && Rejection(q, job).None?
    ensures Follows(q, Accept(q, job), NewEvents(q, Accept(q, job)))
  {
    var b, log := BoardOf(q), NewEvents(q, Accept(q, job));
    AcceptLog(q, job);
    BoardIsDistinct(q);
    assert q.current.Some? ==> Live(q)[0] == q.current.value.job;
    var next := b.(line := b.line + [job.id]);
    assert Observe(b, log[0]) == Some(next);
    NothingOwed(next, q.interrupt || Raises(b, log[0]), log[1..]);
  }

  lemma OwedOne(b: Board, up: bool, e: Event)
    requires Observe(b, e).Some?
    ensures Owed(b, up, [e]) == (Raises(b, e) || (up && !CutsShort(b, e)))
  {
    assert [e][1..] == [];
  }

  lemma FinishFollows(q: Queue, outcome: Outcome)
    requires q.current.Some?
    ensures Follows(q, Finish(q, outcome), NewEvents(q, Finish(q, outcome)))
  {
    FinishEvents(q, outcome);
    var b, log := BoardOf(q), NewEvents(q, Finish(q, outcome));
    assert log == [log[0]] + [log[1]];
    assert Observe(b, log[0]) == Some(b) && Observe(b, log[1]).Some?;
    OwedOne(b, q.interrupt, log[0]);
    OwedOne(b, q.interrupt, log[1]);
    assert Monitor(b, [log[0]]) == Some(b) by {
      assert [log[0]][1..] == [];
    }
    OwedConcat(b, q.interrupt, [log[0]], [log[1]]);
  }

  lemma MoveFollows(q: Queue)
    requires CanTick(q)
    ensures Follows(q, Move(q), NewEvents(q, Move(q)))
  {
    MoveEvents(q);
    var log := NewEvents(q, Move(q));
    assert log == [log[0], log[1]];
    NothingOwed(BoardOf(q), q.interrupt, log);
  }

  lemma FollowsTwice(q: Queue, m: Queue, r: Queue, first: seq<Event>, second: seq<Event>)
    requires Observed(q, m, first) && Follows(q, m, first) && Follows(m, r, second)
    ensures Follows(q, r, first + second)
  {
    OwedConcat(BoardOf(q), q.interrupt, first, second);
  }

  lemma TickFollows(q: Queue)
    requires Inv(q) && CanTick(q)
    ensures Follows(q, Tick(q), NewEvents(q, Tick(q)))
  {
    MoveFollows(q);
    MoveIsObserved(q);
    TickEvents(q);
    if q.current.value.done + 1 == q.steps {
      FinishFollows(Move(q), Completed);
      FollowsTwice(q, Move(q), Tick(q), NewEvents(q, Move(q)), NewEvents(Move(q), Tick(q)));
    } else {
      assert Tick(q) == Move(q);
    }
  }

  lemma ExecuteFollows(q: Queue, c: Command)
    requires Inv(q)
    ensures Follows(q, Execute(q, c), NewEvents(q, Execute(q, c)))
  {
    ExecuteCases(q, c);
    var r := Execute(q, c);
    if job :| AcceptStep(q, r, c, job) {
      AcceptFollows(q, job);
    } else {
      var dev, events :| QuietStep(q, r, dev, events);
      assert NewEvents(q, r) == events;
      NothingOwed(BoardOf(q), q.interrupt, events);
    }
  }

  lemma StartFollows(q: Queue)
    requires CanStart(q)
    ensures Follows(q, Start(q), NewEvents(q, Start(q)))
  {
    var log := NewEvents(q, Start(q));
    assert log[1..] == [log[1]] && log[0].Started? && log[1].StateChanged?;
    var next := Board(BoardOf(q).line[1..], Some(q.waiting[0].id));
    assert Observe(BoardOf(q), log[0]) == Some(next);
    NothingOwed(next, q.interrupt, log[1..]);
  }

  lemma StepFollows(q: Queue, s: Step)
    requires Inv(q) && Enabled(q, s) && !s.DoFinishClose?
    ensures Follows(q, Apply(q, s), NewEvents(q, Apply(q, s)))
  {
    match s
    case DoExecute(c) => ExecuteFollows(q, c);
    case DoStart => StartFollows(q);
    case DoSleepDone => assert NewEvents(q, Apply(q, s)) == [];
    case DoTick => TickFollows(q);
    case DoInterrupt => FinishFollows(q, Cancelled(ForRest));
    case DoFail(error) => FinishFollows(q, Failed(error));
    case DoBeginClose => assert NewEvents(q, Apply(q, s)) == [];
  }

  lemma {:induction false} RunFollows(q: Queue, run: seq<Step>)
    requires Inv(q) && Legal(q, run) && After(q, run).stage != Closed
    ensures Follows(q, After(q, run), NewEvents(q, After(q, run)))
    decreases |run|
  {
    if run == [] {
      assert NewEvents(q, q) == [];
    } else {
      var m, r := Apply(q, run[0]), After(q, run);
      StepKeepsInv(q, run[0]);
      if run[0].DoFinishClose? {
        ClosedForGood(m, run[1..]);
      }
      StepFollows(q, run[0]);
      StepIsObserved(q, run[0]);
      SplitEvents(q, run[0], run[1..]);
      RunFollows(m, run[1..]);
      FollowsTwice(q, m, r, NewEvents(q, m), NewEvents(m, r));
    }
  }

  // ---- the rest that left the flag up -----------------------------------------------------

  /** At this place a rest came while a job ran, and nothing that ran was cut short since. */
  ghost predicate LeftAt(b: Board, log: seq<Event>, k: nat) {
    && k < |log|
    && var before := Monitor(b, log[..k]);
    && before.Some? && Raises(before.value, log[k]) && Observe(before.value, log[k]).Some?
    && RunningCancels(Observe(before.value, log[k]).value, log[k + 1..]) == 0
  }

  lemma LeftAtLater(b: Board, log: seq<Event>, k: nat)
    requires log != [] && Observe(b, log[0]).Some?
    ensures LeftAt(b, log, k + 1) <==> LeftAt(Observe(b, log[0]).value, log[1..], k)
  {
    if k + 1 < |log| {
      assert log[..k + 1][1..] == log[1..][..k];
      assert log[1..][k + 1..] == log[k + 2..];
    }
  }

  lemma {:induction false} OwedIff(b: Board, up: bool, log: seq<Event>)
    requires Monitor(b, log).Some?
    ensures Owed(b, up, log) <==> (up && RunningCancels(b, log) == 0) || exists k: nat :: LeftAt(b, log, k)
    decreases |log|
  {
    if log != [] {
      var next := Observe(b, log[0]).value;
      var stays := Raises(b, log[0]) || (up && !CutsShort(b, log[0]));
      OwedIff(next, stays, log[1..]);
      assert log[..0] == [];
      assert LeftAt(b, log, 0) <==> Raises(b, log[0]) && RunningCancels(next, log[1..]) == 0;
      if k: nat :| LeftAt(b, log, k) {
        if k > 0 {
          LeftAtLater(b, log, k - 1);
        }
      }
      if k: nat :| LeftAt(next, log[1..], k) {
        LeftAtLater(b, log, k);
      }
    }
  }

  /** The job ended, and not because of a rest. */
  ghost predicate EndedOtherwise(log: seq<Event>, id: Id) {
    exists m :: 0 <= m < |log| && log[m].Finished? && log[m].id == id && log[m].outcome != Cancelled(ForRest)
  }

  lemma {:induction false} RunningEndsOtherwise(b: Board, log: seq<Event>, id: Id)
    requires Monitor(b, log).Some? && b.running == Some(id) && Monitor(b, log).value.running.None?
    requires RunningCancels(b, log) == 0
    ensures EndedOtherwise(log, id)
    decreases |log|
  {
    if log[0].Finished? && log[0].id == id {
      assert !CutsShort(b, log[0]);
    } else {
      RunningEndsOtherwise(Observe(b, log[0]).value, log[1..], id);
      var m :| 0 <= m < |log[1..]| && log[1..][m].Finished? && log[1..][m].id == id
               && log[1..][m].outcome != Cancelled(ForRest);
      assert log[m + 1] == log[1..][m];
    }
  }

  /**
   On every run of a queue that is not closed, the flag is up exactly if the log
   has a rest that came while a job ran and nothing that ran was cut short since.
   */
  lemma FlagIsLeftOver(q: Queue, run: seq<Step>)
    requires Initial(q) && Legal(q, run) && After(q, run).stage != Closed
    ensures After(q, run).interrupt <==> exists k: nat :: LeftAt(EMPTY_BOARD, After(q, run).trace, k)
  {
    InitialInv(q);
    RunFollows(q, run);
    RunIsObserved(q, run);
    var r := After(q, run);
    assert NewEvents(q, r) == r.trace && BoardOf(q) == EMPTY_BOARD;
    OwedIff(EMPTY_BOARD, false, r.trace);
  }

  lemma LeftOverEndedOtherwise(log: seq<Event>, k: nat)
    requires LeftAt(EMPTY_BOARD, log, k) && Monitor(EMPTY_BOARD, log).Some?
    requires Monitor(EMPTY_BOARD, log).value.running.None?
    ensures EndedOtherwise(log[k + 1..], Monitor(EMPTY_BOARD, log[..k]).value.running.value)
  {
    assert log == log[..k] + log[k..] && log[k..][1..] == log[k + 1..];
    MonitorConcat(EMPTY_BOARD, log[..k], log[k..]);
    var b := Monitor(EMPTY_BOARD, log[..k]).value;
    RunningEndsOtherwise(Observe(b, log[k]).value, log[k + 1..], b.running.value);
  }

  /**
   When a motion that an idle queue accepts is safe from the rests before it,
   told from the log: exactly if each rest that came while a job ran was followed
   by a job cut short.  The job that ran when an offending rest came has ended in
   some other way.
   */
  lemma SafeFromOldRestsByHistory(q: Queue, run: seq<Step>, id: Id)
    requires Initial(q) && Legal(q, run) && Idling(After(q, run), After(q, run).interrupt, id)
    ensures var r := After(q, run);
      (forall next :: Legal(r, next) && RestsAccepted(NewEvents(r, After(r, next))) == 0 ==>
         RunningCancels(BoardOf(r), NewEvents(r, After(r, next))) == 0)
      <==> !exists k: nat :: LeftAt(EMPTY_BOARD, r.trace, k)
    ensures var log := After(q, run).trace;
      forall k: nat :: LeftAt(EMPTY_BOARD, log, k) ==>
        EndedOtherwise(log[k + 1..], Monitor(EMPTY_BOARD, log[..k]).value.running.value)
  {
    var r := After(q, run);
    FlagIsLeftOver(q, run);
    SafeFromOldRestsIff(r, id);
    InitialInv(q);
    RunIsObserved(q, run);
    IdleLine(r);
    assert NewEvents(q, r) == r.trace && BoardOf(q) == EMPTY_BOARD;
    forall k: nat | LeftAt(EMPTY_BOARD, r.trace, k)
      ensures EndedOtherwise(r.trace[k + 1..], Monitor(EMPTY_BOARD, r.trace[..k]).value.running.value)
    {
      LeftOverEndedOtherwise(r.trace, k);
    }
  }
}
