/** The bounded memory of accepted ids, and why it never forgets a live one. */
module MotionWindow {
  import opened Common
  import opened Protocol
  import opened DeviceModel
  import opened Motion
  import opened MotionInvariant
  import opened MotionMonitor
  import opened MotionLifecycle
  import opened MotionRest
  import opened MotionInterrupt

  // ---- what each step accepts ---------------------------------------------------------

  lemma {:induction false} NothingAccepted(log: seq<Event>)
    requires forall e :: e in log && e.Accepted? ==> !e.queued
    ensures AcceptedIds(log) == []
  {
    if log != [] {
      assert log[0] in log && forall e :: e in log[1..] ==> e in log;
      NothingAccepted(log[1..]);
    }
  }

  lemma AcceptedBefore(a: seq<Event>, b: seq<Event>)
    requires AcceptedIds(b) == []
    ensures AcceptedIds(a + b) == AcceptedIds(a)
  {
    AcceptedConcat(a, b);
  }

  lemma OneAcceptance(first: Event, rest: seq<Event>)
    requires first.Accepted? && first.queued && AcceptedIds(rest) == []
    ensures AcceptedIds([first] + rest) == [first.id]
  {
    assert ([first] + rest)[1..] == rest;
  }

  lemma AcceptAccepts(q: Queue, job: Job)
    ensures AcceptedIds(NewEvents(q, Accept(q, job))) == [job.id]
  {
    CancellationShape(q.waiting, q.dev.joints);
    var tail := Replaced(q, job);
    var log := [StateEvent(job.id, Accept(q, job).dev)] + tail;
    NothingAccepted(log);
    OneAcceptance(Accepted(job.id, job.commandType, true), log);
    AcceptEvents(q, job);
    assert NewEvents(q, Accept(q, job)) == [Accepted(job.id, job.commandType, true)] + log;
  }

  lemma FinishAccepts(q: Queue, outcome: Outcome)
    requires q.current.Some?
    ensures AcceptedIds(NewEvents(q, Finish(q, outcome))) == []
  {
    FinishEvents(q, outcome);
    NothingAccepted(NewEvents(q, Finish(q, outcome)));
  }

  lemma TickAccepts(q: Queue)
    requires CanTick(q)
    ensures AcceptedIds(NewEvents(q, Tick(q))) == []
  {
    TickEvents(q);
    MoveEvents(q);
    NothingAccepted(NewEvents(q, Move(q)));
    if q.current.value.done + 1 < q.steps {
      assert Tick(q) == Move(q);
    } else {
      FinishAccepts(Move(q), Completed);
      AcceptedBefore(NewEvents(q, Move(q)), NewEvents(Move(q), Tick(q)));
    }
  }

  lemma OtherStepAccepts(q: Queue, s: Step)
    requires Inv(q) && Enabled(q, s) && !s.DoExecute?
    ensures AcceptedIds(NewEvents(q, Apply(q, s))) == []
  {
    match s
    case DoStart => NothingAccepted(NewEvents(q, Apply(q, s)));
    case DoSleepDone =>
    case DoTick => TickAccepts(q);
    case DoInterrupt => FinishAccepts(q, Cancelled(ForRest));
    case DoFail(error) => FinishAccepts(q, Failed(error));
    case DoBeginClose =>
    case DoFinishClose =>
      CloseEvents(q);
      ShutdownShape(StoppedForGood(q.dev, q.capacity), Live(q), CurrentElapsed(q));
      NothingAccepted(NewEvents(q, FinishClose(q)));
  }

  // ---- where the live ids stand among the accepted ones ----------------------------------

  /**
   The live ids are the newest accepted ones; only while a motion finishes in
   front of a waiting rest have the ids between the two been cancelled.
   */
  ghost predicate LiveStand(q: Queue, ids: seq<Id>) {
    || Suffix(LiveIds(q), ids)
    || (&& |q.waiting| == 1 && q.waiting[0].resting && q.current.Some?
        && ids != [] && ids[|ids| - 1] == q.waiting[0].id
        && q.current.value.job.id in Newest(ids, q.capacity + 2))
  }

  lemma NewestOfNewest(ids: seq<Id>, m: nat, n: nat)
    requires m <= n
    ensures Newest(Newest(ids, n), m) == Newest(ids, m)
    ensures forall id :: id in Newest(ids, m) ==> id in Newest(ids, n)
  {
    assert Newest(ids, m) == Newest(Newest(ids, n), m);
  }

  lemma NewestAppend(ids: seq<Id>, id: Id, n: nat)
    ensures Newest(ids + [id], n + 1) == Newest(ids, n) + [id]
  {
  }

  lemma SuffixIsNewest(live: seq<Id>, ids: seq<Id>, n: nat)
    requires Suffix(live, ids) && |live| <= n
    ensures forall id :: id in live ==> id in Newest(ids, n)
  {
    NewestOfNewest(ids, |live|, n);
    assert live == Newest(ids, |live|);
  }

  lemma LiveAmongNewest(q: Queue, ids: seq<Id>)
    requires DeviceInv(q) && LiveStand(q, ids)
    ensures forall id :: id in LiveIds(q) ==> id in Newest(ids, q.capacity + 2)
  {
    assert |LiveIds(q)| == |CurrentJob(q)| + |q.waiting|;
    if Suffix(LiveIds(q), ids) {
      SuffixIsNewest(LiveIds(q), ids, q.capacity + 2);
    } else {
      assert Live(q) == [q.current.value.job, q.waiting[0]];
      assert Newest(ids, q.capacity + 2)[|Newest(ids, q.capacity + 2)| - 1] == ids[|ids| - 1];
    }
  }

  lemma LiveIdsSplit(q: Queue)
    ensures LiveIds(q) == (if q.current.Some? then [q.current.value.job.id] else []) + Ids(q.waiting)
  {
  }

  lemma LastIsSuffix(ids: seq<Id>)
    requires ids != []
    ensures Suffix([ids[|ids| - 1]], ids)
  {
  }

  lemma AppendToSuffix(s: seq<Id>, t: seq<Id>, id: Id)
    requires Suffix(s, t)
    ensures Suffix(s + [id], t + [id])
  {
  }

  lemma AcceptedLine(q: Queue, job: Job)
    ensures Accept(q, job).waiting == (if job.resting then [job] else q.waiting + [job])
    ensures Accept(q, job).current == q.current && Accept(q, job).capacity == q.capacity
  {
  }

  /** A motion is appended to the live jobs. */
  lemma MotionKeepsStand(q: Queue, job: Job, ids: seq<Id>)
    requires !job.resting && Suffix(LiveIds(q), ids)
    ensures LiveStand(Accept(q, job), ids + [job.id])
  {
    AcceptedLine(q, job);
    LiveIdsSplit(q);
    LiveIdsSplit(Accept(q, job));
    assert LiveIds(Accept(q, job)) == LiveIds(q) + [job.id];
    AppendToSuffix(LiveIds(q), ids, job.id);
  }

  /** A rest stands alone, or behind the job that runs. */
  lemma RestKeepsStand(q: Queue, job: Job, ids: seq<Id>)
    requires job.resting && Suffix(LiveIds(q), ids) && |q.waiting| <= q.capacity
    ensures LiveStand(Accept(q, job), ids + [job.id])
  {
    AcceptedLine(q, job);
    if q.current.None? {
      LastIsSuffix(ids + [job.id]);
      LiveIdsSplit(Accept(q, job));
    } else {
      RunningAmongNewest(q, ids);
      NewestAppend(ids, job.id, q.capacity + 1);
    }
  }

  lemma RunningAmongNewest(q: Queue, ids: seq<Id>)
    requires q.current.Some? && Suffix(LiveIds(q), ids) && |q.waiting| <= q.capacity
    ensures q.current.value.job.id in Newest(ids, q.capacity + 1)
  {
    var live := LiveIds(q);
    LiveIdsSplit(q);
    assert |live| == 1 + |q.waiting| && live[0] == q.current.value.job.id;
    SuffixIsNewest(live, ids, q.capacity + 1);
    assert live[0] in live;
  }

  lemma AcceptKeepsStand(q: Queue, job: Job, ids: seq<Id>)
    requires Inv(q) && LiveStand(q, ids) && Rejection(q, job).None?
    ensures LiveStand(Accept(q, job), ids + [job.id])
  {
    NotPendingHasNoRest(q);
    if job.resting {
      RestKeepsStand(q, job, ids);
    } else {
      MotionKeepsStand(q, job, ids);
    }
  }

  lemma EndKeepsStand(q: Queue, r: Queue, ids: seq<Id>)
    requires LiveStand(q, ids) && q.current.Some? && r.current.None? && r.waiting == q.waiting
    ensures LiveStand(r, ids)
  {
    LiveIdsSplit(q);
    LiveIdsSplit(r);
    if Suffix(LiveIds(q), ids) {
      SuffixTail(LiveIds(q), ids);
      assert LiveIds(q)[1..] == LiveIds(r);
    } else {
      LastIsSuffix(ids);
      assert LiveIds(r) == [ids[|ids| - 1]];
    }
  }

  lemma SuffixTail(s: seq<Id>, t: seq<Id>)
    requires Suffix(s, t) && s != []
    ensures Suffix(s[1..], t)
  {
  }

  lemma SameLiveKeepsStand(q: Queue, r: Queue, ids: seq<Id>)
    requires LiveStand(q, ids) && r.capacity == q.capacity && r.waiting == q.waiting && CurrentJob(r) == CurrentJob(q)
    ensures LiveStand(r, ids)
  {
    assert q.current.Some? ==> CurrentJob(q)[0] == CurrentJob(r)[0];
    assert LiveIds(r) == LiveIds(q);
  }

  lemma StartKeepsStand(q: Queue, ids: seq<Id>)
    requires Inv(q) && CanStart(q) && LiveStand(q, ids)
    ensures LiveStand(Start(q), ids)
  {
    StartKeepsInv(q);
  }

  // ---- the memory ------------------------------------------------------------------------

  /** Order and set hold exactly the newest accepted ids. */
  ghost predicate Memory(q: Queue, ids: seq<Id>) {
    && q.seenOrder == Newest(ids, SEEN_COMMAND_LIMIT)
    && q.seenIds == Elements(q.seenOrder)
  }

  ghost predicate WindowInv(q: Queue) {
    LiveStand(q, AcceptedIds(q.trace)) && Memory(q, AcceptedIds(q.trace))
  }

  lemma NewestLimitAppend(ids: seq<Id>, id: Id)
    ensures var order := Newest(ids, SEEN_COMMAND_LIMIT);
      Newest(ids + [id], SEEN_COMMAND_LIMIT) ==
        (if |order| >= SEEN_COMMAND_LIMIT then order[1..] else order) + [id]
  {
  }

  lemma ElementsOf(order: seq<Id>, id: Id)
    ensures Elements(order + [id]) == Elements(order) + {id}
    ensures order != [] && NoDuplicates(order) ==> Elements(order[1..]) == Elements(order) - {order[0]}
  {
    if order != [] && NoDuplicates(order) {
      assert order == [order[0]] + order[1..];
      assert forall x :: x in order[1..] ==> x in order && x != order[0];
    }
  }

  /** Remembering keeps the newest ids as long as the live ones are among them. */
  lemma RememberKeepsMemory(order: seq<Id>, live: seq<Id>, ids: seq<Id>, id: Id)
    requires order == Newest(ids, SEEN_COMMAND_LIMIT) && NoDuplicates(order) && id !in order
    requires forall x :: x in live ==> x in Newest(ids + [id], SEEN_COMMAND_LIMIT)
    ensures var w := Remember(Window(order, Elements(order)), live, id);
      w.order == Newest(ids + [id], SEEN_COMMAND_LIMIT) && w.ids == Elements(w.order)
  {
    NewestLimitAppend(ids, id);
    ElementsOf(order, id);
    if |order| >= SEEN_COMMAND_LIMIT {
      assert order[0] !in order[1..] by {
        assert order == [order[0]] + order[1..];
      }
      assert order[0] !in live;
      ElementsOf(order[1..], id);
    }
  }

  lemma AcceptKeepsWindow(q: Queue, job: Job)
    requires Inv(q) && WindowInv(q) && JobOk(job) && Rejection(q, job).None? && q.capacity + 1 < SEEN_COMMAND_LIMIT
    ensures WindowInv(Accept(q, job))
  {
    var r, ids := Accept(q, job), AcceptedIds(q.trace);
    AcceptAccepts(q, job);
    AcceptedConcat(q.trace, NewEvents(q, r));
    assert AcceptedIds(r.trace) == ids + [job.id];
    AcceptKeepsStand(q, job, ids);
    AcceptKeepsInv(q, job);
    LiveAmongNewest(r, ids + [job.id]);
    NewestOfNewest(ids + [job.id], q.capacity + 2, SEEN_COMMAND_LIMIT);
    RememberKeepsMemory(q.seenOrder, LiveIds(r), ids, job.id);
  }

  /** A step that accepts nothing and leaves the memory alone. */
  lemma WindowFrame(q: Queue, r: Queue, log: seq<Event>)
    requires WindowInv(q) && r.trace == q.trace + log && AcceptedIds(log) == []
    requires LiveStand(r, AcceptedIds(q.trace)) && r.seenOrder == q.seenOrder && r.seenIds == q.seenIds
    ensures WindowInv(r)
  {
    AcceptedBefore(q.trace, log);
  }

  lemma ExecuteKeepsWindow(q: Queue, c: Command)
    requires Inv(q) && WindowInv(q) && q.capacity + 1 < SEEN_COMMAND_LIMIT
    ensures WindowInv(Execute(q, c))
  {
    ExecuteCases(q, c);
    var r := Execute(q, c);
    if job :| AcceptStep(q, r, c, job) {
      AcceptKeepsWindow(q, job);
    } else {
      var dev, events :| QuietStep(q, r, dev, events);
      QuietIds(events);
      SameLiveKeepsStand(q, r, AcceptedIds(q.trace));
      WindowFrame(q, r, events);
    }
  }

  lemma OtherStepKeepsStand(q: Queue, s: Step, ids: seq<Id>)
    requires Inv(q) && LiveStand(q, ids) && Enabled(q, s) && !s.DoExecute?
    ensures LiveStand(Apply(q, s), ids)
  {
    var r := Apply(q, s);
    match s
    case DoStart => StartKeepsStand(q, ids);
    case DoSleepDone => SameLiveKeepsStand(q, r, ids);
    case DoTick => if r.current.None? { EndKeepsStand(q, r, ids); } else { SameLiveKeepsStand(q, r, ids); }
    case DoInterrupt => EndKeepsStand(q, r, ids);
    case DoFail(_) => EndKeepsStand(q, r, ids);
    case DoBeginClose => SameLiveKeepsStand(q, r, ids);
    case DoFinishClose => assert LiveIds(r) == [];
  }

  lemma OtherStepKeepsMemory(q: Queue, s: Step)
    requires Enabled(q, s) && !s.DoExecute?
    ensures Apply(q, s).seenOrder == q.seenOrder && Apply(q, s).seenIds == q.seenIds
    ensures Apply(q, s).trace == q.trace + NewEvents(q, Apply(q, s))
  {
  }

  lemma StepKeepsWindow(q: Queue, s: Step)
    requires Inv(q) && WindowInv(q) && Enabled(q, s) && q.capacity + 1 < SEEN_COMMAND_LIMIT
    ensures WindowInv(Apply(q, s))
  {
    if s.DoExecute? {
      ExecuteKeepsWindow(q, s.command);
    } else {
      OtherStepAccepts(q, s);
      OtherStepKeepsMemory(q, s);
      OtherStepKeepsStand(q, s, AcceptedIds(q.trace));
      WindowFrame(q, Apply(q, s), NewEvents(q, Apply(q, s)));
    }
  }

  lemma StepKeepsSizes(q: Queue, s: Step)
    requires Enabled(q, s)
    ensures Apply(q, s).capacity == q.capacity && Apply(q, s).steps == q.steps
  {
  }

  lemma {:induction false} RunKeepsWindow(q: Queue, run: seq<Step>)
    requires Inv(q) && WindowInv(q) && Legal(q, run) && q.capacity + 1 < SEEN_COMMAND_LIMIT
    ensures WindowInv(After(q, run)) && After(q, run).capacity == q.capacity
    decreases |run|
  {
    if run != [] {
      StepKeepsWindow(q, run[0]);
      StepKeepsSizes(q, run[0]);
      StepKeepsInv(q, run[0]);
      RunKeepsWindow(Apply(q, run[0]), run[1..]);
    }
  }

  lemma InitialWindow(q: Queue)
    requires Initial(q)
    ensures WindowInv(q)
  {
    assert LiveIds(q) == [] && AcceptedIds(q.trace) == [];
    assert Suffix(LiveIds(q), AcceptedIds(q.trace));
  }

  lemma LiveInMemory(q: Queue, ids: seq<Id>)
    requires DeviceInv(q) && LiveStand(q, ids) && q.capacity + 2 <= SEEN_COMMAND_LIMIT
    ensures forall id :: id in LiveIds(q) ==> id in Newest(Newest(ids, SEEN_COMMAND_LIMIT), q.capacity + 2)
  {
    LiveAmongNewest(q, ids);
    NewestOfNewest(ids, q.capacity + 2, SEEN_COMMAND_LIMIT);
  }

  /**
   On every run of a queue whose capacity leaves room for it, what is remembered
   is the newest 1024 accepted ids, and the live ids are among the newest
   capacity + 2 of those.
   */
  lemma MemoryIsTheNewest(q: Queue, run: seq<Step>)
    requires Initial(q) && Legal(q, run) && q.capacity + 1 < 1024
    ensures var r := After(q, run);
      && r.seenOrder == Newest(AcceptedIds(r.trace), 1024)
      && r.seenIds == Elements(r.seenOrder)
      && forall id :: id in LiveIds(r) ==> id in Newest(r.seenOrder, q.capacity + 2)
  {
    InitialInv(q);
    InitialWindow(q);
    RunKeepsWindow(q, run);
    RunKeepsInv(q, run);
    LiveInMemory(After(q, run), AcceptedIds(After(q, run).trace));
  }

  // ---- why the capacity must leave room --------------------------------------------------------

  /** The ids up to this one were accepted: the first runs, the others wait. */
  ghost predicate Filled(q: Queue, n: nat) {
    && q.stage == Open && q.capacity + 1 >= SEEN_COMMAND_LIMIT
    && q.current.Some? && q.current.value.job.id == 0 && n == |q.waiting| + 1 == |q.seenOrder|
    && (forall j :: j in Live(q) ==> !j.resting)
    && (forall i :: 0 <= i < n ==> q.seenOrder[i] == i)
    && (forall id :: id in q.seenIds <==> 0 <= id < n)
  }

  lemma NoRestIsPending(q: Queue)
    requires forall j :: j in Live(q) ==> !j.resting
    ensures !RestPending(q)
  {
  }

  /** The first id is accepted and waits. */
  ghost predicate Opened(q: Queue) {
    && q.stage == Open && q.current.None? && q.waiting == [NodJob(0)]
    && q.seenOrder == [0] && q.seenIds == {0}
  }

  lemma FirstIsAccepted(q: Queue)
    requires Initial(q)
    ensures Opened(Execute(q, NodCommand(q, 0))) && Execute(q, NodCommand(q, 0)).capacity == q.capacity
  {
    InitialInv(q);
    assert Live(q) == [];
    AcceptedWhenFree(q, NodCommand(q, 0), NodJob(0));
  }

  lemma FirstStarts(q: Queue)
    requires Opened(q) && q.capacity + 1 >= SEEN_COMMAND_LIMIT
    ensures CanStart(q) && Filled(Start(q), 1)
  {
    assert Live(Start(q)) == [NodJob(0)];
  }

  lemma FirstFills(q: Queue)
    requires Initial(q) && q.capacity + 1 >= SEEN_COMMAND_LIMIT
    ensures var run := [DoExecute(NodCommand(q, 0)), DoStart];
      Legal(q, run) && Filled(After(q, run), 1)
  {
    InitialInv(q);
    FirstIsAccepted(q);
    FirstStarts(Execute(q, NodCommand(q, 0)));
    TwoSteps(q, DoExecute(NodCommand(q, 0)), DoStart);
  }

  lemma OneMoreFills(q: Queue, n: nat)
    requires Filled(q, n) && n < SEEN_COMMAND_LIMIT
    ensures Filled(Execute(q, NodCommand(q, n)), n + 1)
  {
    NoRestIsPending(q);
    var job := NodJob(n);
    assert Rejection(q, job).None?;
    var r := Accept(q, job);
    assert Execute(q, NodCommand(q, n)) == r;
    assert Live(r) == Live(q) + [job];
  }

  lemma {:induction false} FillUp(q: Queue, n: nat) returns (run: seq<Step>)
    requires Filled(q, n) && n <= SEEN_COMMAND_LIMIT
    ensures Legal(q, run) && Filled(After(q, run), SEEN_COMMAND_LIMIT)
    decreases SEEN_COMMAND_LIMIT - n
  {
    if n == SEEN_COMMAND_LIMIT {
      run := [];
    } else {
      var s := DoExecute(NodCommand(q, n));
      OneMoreFills(q, n);
      var rest := FillUp(Apply(q, s), n + 1);
      run := [s] + rest;
      assert run[1..] == rest;
    }
  }

  /** A rest then pushes the running id out of the order, but not out of the set. */
  lemma RestPushesOut(q: Queue, ids: seq<Id>)
    requires Filled(q, SEEN_COMMAND_LIMIT)
    ensures !Memory(Execute(q, Command(q.dev.deviceId, SEEN_COMMAND_LIMIT, Motion(Rest))), ids)
  {
    NoRestIsPending(q);
    var job := RestJob(SEEN_COMMAND_LIMIT);
    assert Rejection(q, job).None?;
    var r := Accept(q, job);
    assert Execute(q, Command(q.dev.deviceId, SEEN_COMMAND_LIMIT, Motion(Rest))) == r;
    assert Ids(CurrentJob(q) + [job])[0] == 0;
    assert 0 in r.seenIds && r.seenOrder == q.seenOrder[1..] + [job.id];
    assert 0 !in r.seenOrder;
  }

  lemma OutOfRoom(q: Queue) returns (run: seq<Step>)
    requires Initial(q) && q.capacity + 1 >= SEEN_COMMAND_LIMIT
    ensures Legal(q, run) && !Memory(After(q, run), AcceptedIds(After(q, run).trace))
  {
    FirstFills(q);
    var begin := [DoExecute(NodCommand(q, 0)), DoStart];
    var fill := FillUp(After(q, begin), 1);
    LegalConcat(q, begin, fill);
    var full := After(q, begin + fill);
    var rest := DoExecute(Command(full.dev.deviceId, SEEN_COMMAND_LIMIT, Motion(Rest)));
    OneStep(full, rest);
    LegalConcat(q, begin + fill, [rest]);
    run := begin + fill + [rest];
    RestPushesOut(full, AcceptedIds(After(q, run).trace));
  }

  /** The condition on the capacity is exact: with any larger one some run ends with another memory. */
  lemma MemoryIsTheNewestIff(q: Queue)
    requires Initial(q)
    ensures q.capacity + 1 < 1024 <==>
      forall run :: Legal(q, run) ==> Memory(After(q, run), AcceptedIds(After(q, run).trace))
  {
    if q.capacity + 1 < SEEN_COMMAND_LIMIT {
      forall run | Legal(q, run)
        ensures Memory(After(q, run), AcceptedIds(After(q, run).trace))
      {
        MemoryIsTheNewest(q, run);
      }
    } else {
      var run := OutOfRoom(q);
    }
  }

  /** An open queue refuses a well-formed motion as a duplicate exactly if its id is one of the last 1024 accepted. */
  lemma RepeatsAreRefused(q: Queue, run: seq<Step>, c: Command)
    requires Initial(q) && Legal(q, run) && q.capacity + 1 < 1024
    requires var r := After(q, run);
      r.stage == Open && c.deviceId == r.dev.deviceId && c.body.Motion?
        && Prepare(c.id, c.body.command, r.projected).Some?
    ensures var r := After(q, run);
      c.id in Newest(AcceptedIds(r.trace), 1024)
      <==> Execute(r, c) == Emit(r, [Error(c.id, DuplicateCommand, false)])
  {
    MemoryIsTheNewest(q, run);
    var r := After(q, run);
    PreparedJobIsOk(c.id, c.body.command, r.projected);
    var job := Prepare(c.id, c.body.command, r.projected).value;
    if c.id !in r.seenIds {
      RefusalDiffers(r, job);
    }
  }

  lemma RefusalDiffers(q: Queue, job: Job)
    requires job.id !in q.seenIds && q.stage == Open
    ensures Rejection(q, job) != Some((DuplicateCommand, false))
    ensures Rejection(q, job).None? ==> Accept(q, job).trace != q.trace + [Error(job.id, DuplicateCommand, false)]
    ensures Rejection(q, job).Some? ==>
      Emit(q, [Error(job.id, Rejection(q, job).value.0, Rejection(q, job).value.1)])
      != Emit(q, [Error(job.id, DuplicateCommand, false)])
  {
    if Rejection(q, job).None? {
      assert Accept(q, job).trace[|q.trace|].Accepted?;
    } else {
      assert Emit(q, [Error(job.id, Rejection(q, job).value.0, Rejection(q, job).value.1)]).trace[|q.trace|]
          != Emit(q, [Error(job.id, DuplicateCommand, false)]).trace[|q.trace|];
    }
  }

  /** Without any condition on the capacity: a live id is never accepted a second time. */
  lemma LiveIdsAreRemembered(q: Queue, run: seq<Step>)
    requires Initial(q) && Legal(q, run)
    ensures forall id :: id in LiveIds(After(q, run)) ==> id in After(q, run).seenIds
  {
    InitialInv(q);
    RunKeepsInv(q, run);
    var r := After(q, run);
    forall id | id in LiveIds(r)
      ensures id in r.seenIds
    {
      var i :| 0 <= i < |LiveIds(r)| && LiveIds(r)[i] == id;
      assert Live(r)[i] in Live(r);
    }
  }

  /** For this device, well formed, and nothing stands in the way. */
  predicate Acceptable(q: Queue, c: Command) {
    && c.deviceId == q.dev.deviceId && c.body.Motion? && Prepare(c.id, c.body.command, q.projected).Some?
    && q.stage == Open && c.id !in q.seenIds && !RestPending(q)
    && (c.body.command.Rest? || |q.waiting| < q.capacity)
  }

  lemma AcceptanceIsNotQuiet(q: Queue, job: Job)
    ensures exists e :: e in NewEvents(q, Accept(q, job)) && !Quiet(e)
  {
    var first := Accepted(job.id, job.commandType, true);
    AcceptEvents(q, job);
    assert first in NewEvents(q, Accept(q, job)) && !Quiet(first);
  }

  lemma AcceptableIsAccepted(q: Queue, c: Command)
    requires Acceptable(q, c)
    ensures Execute(q, c) == Accept(q, Prepare(c.id, c.body.command, q.projected).value)
  {
    PreparedJobIsOk(c.id, c.body.command, q.projected);
    assert Rejection(q, Prepare(c.id, c.body.command, q.projected).value).None?;
  }

  lemma AcceptedIsAcceptable(q: Queue, c: Command, job: Job)
    requires AcceptStep(q, Execute(q, c), c, job)
    ensures Acceptable(q, c)
  {
    AcceptEvents(q, job);
    OtherDeviceEvents(q, c);
  }

  lemma OtherDeviceEvents(q: Queue, c: Command)
    ensures c.deviceId != q.dev.deviceId ==> NewEvents(q, Execute(q, c)) == [Error(c.id, WrongDevice, false)]
  {
  }

  /** Exactly when a command is accepted as a motion. */
  lemma AcceptedExactlyWhen(q: Queue, c: Command)
    requires Inv(q)
    ensures AcceptedIds(NewEvents(q, Execute(q, c))) == if Acceptable(q, c) then [c.id] else []
  {
    ExecuteCases(q, c);
    var r := Execute(q, c);
    if job :| AcceptStep(q, r, c, job) {
      AcceptAccepts(q, job);
      AcceptedIsAcceptable(q, c, job);
    } else {
      var dev, events :| QuietStep(q, r, dev, events);
      assert NewEvents(q, r) == events;
      QuietIds(events);
      if c.body.Motion? && Prepare(c.id, c.body.command, q.projected).Some? {
        AcceptanceIsNotQuiet(q, Prepare(c.id, c.body.command, q.projected).value);
      }
      assert Acceptable(q, c) ==> r == Accept(q, Prepare(c.id, c.body.command, q.projected).value) by {
        if Acceptable(q, c) {
          AcceptableIsAccepted(q, c);
        }
      }
    }
  }

  // ---- closing -----------------------------------------------------------------------------

  lemma ClosingStep(q: Queue, s: Step)
    requires Inv(q) && q.stage != Open && Enabled(q, s)
    ensures Apply(q, s).stage != Open
    ensures AcceptedIds(NewEvents(q, Apply(q, s))) == [] && StartedIds(NewEvents(q, Apply(q, s))) == []
  {
    StepStarts(q, s);
    if s.DoExecute? {
      AcceptedExactlyWhen(q, s.command);
      ExecuteCases(q, s.command);
    } else {
      OtherStepAccepts(q, s);
    }
  }

  lemma {:induction false} ClosingRun(q: Queue, run: seq<Step>)
    requires Inv(q) && q.stage != Open && Legal(q, run)
    ensures After(q, run).stage != Open
    ensures AcceptedIds(NewEvents(q, After(q, run))) == [] && StartedIds(NewEvents(q, After(q, run))) == []
    decreases |run|
  {
    if run == [] {
      assert NewEvents(q, q) == [];
    } else {
      var m, r := Apply(q, run[0]), After(q, run);
      ClosingStep(q, run[0]);
      StepKeepsInv(q, run[0]);
      ClosingRun(m, run[1..]);
      SplitEvents(q, run[0], run[1..]);
      AcceptedConcat(NewEvents(q, m), NewEvents(m, r));
      StartedConcat(NewEvents(q, m), NewEvents(m, r));
    }
  }

  /**
   As soon as closing begins, no motion is accepted and no job starts any more, on
   whatever run; closing itself only marks the queue, and at its end nothing is
   left: no job, no interruption, and a projection that is the actual pose.
   */
  lemma ClosingQueueTakesNothing(q: Queue, run: seq<Step>)
    requires Inv(q) && Legal(BeginClose(q), run)
    ensures BeginClose(q) == q.(stage := BeginClose(q).stage)
    ensures var m, r := BeginClose(q), After(BeginClose(q), run);
      r.stage != Open && AcceptedIds(NewEvents(m, r)) == [] && StartedIds(NewEvents(m, r)) == []
    ensures CanFinishClose(q) ==>
      var r := FinishClose(q);
      r.stage == Closed && Live(r) == [] && !r.interrupt && r.projected == r.dev.joints == q.dev.joints
  {
    StepKeepsInv(q, DoBeginClose);
    ClosingRun(BeginClose(q), run);
  }
}
