/**
 The queue as an object.  Its fields are the source's; the abstract state of
 module Motion is computed from them, and each method is proved to make exactly
 one abstract step.
 */
module MotionQueueObject {
  import opened Common
  import opened Protocol
  import opened DeviceModel
  import opened Motion
  import opened MotionInvariant

  /** What the subscribers of the endpoint have been given so far. */
  class EventLog {
    ghost var events: seq<Event>

    constructor ()
      ensures events == []
    {
      events := [];
    }

    method Publish(group: seq<Event>)
      modifies this
      ensures events == old(events) + group
    {
      events := events + group;
    }
  }

  // ---- the dictionary of accepted jobs -----------------------------------------

  /** A dictionary keeps insertion order; popping a key removes that entry. */
  function Without(jobs: seq<Job>, id: Id): seq<Job> {
    if jobs == [] then []
    else (if jobs[0].id == id then [] else [jobs[0]]) + Without(jobs[1..], id)
  }

  predicate HasKey(jobs: seq<Job>, id: Id) {
    exists i :: 0 <= i < |jobs| && jobs[i].id == id
  }

  lemma {:induction false} WithoutAbsent(jobs: seq<Job>, id: Id)
    requires forall j :: j in jobs ==> j.id != id
    ensures Without(jobs, id) == jobs
  {
    if jobs != [] {
      assert jobs == [jobs[0]] + jobs[1..];
      WithoutAbsent(jobs[1..], id);
    }
  }

  lemma {:induction false} WithoutMiddle(head: seq<Job>, job: Job, tail: seq<Job>)
    requires forall j :: j in head || j in tail ==> j.id != job.id
    ensures Without(head + [job] + tail, job.id) == head + tail
  {
    var all := head + [job] + tail;
    if head == [] {
      assert all[1..] == tail;
      WithoutAbsent(tail, job.id);
    } else {
      assert all[1..] == head[1..] + [job] + tail;
      WithoutMiddle(head[1..], job, tail);
      assert head + tail == [head[0]] + (head[1..] + tail);
    }
  }

  /** With distinct ids, only the job named goes. */
  lemma DropOne(head: seq<Job>, jobs: seq<Job>, i: nat)
    requires i < |jobs| && NoDuplicates(Ids(head + jobs))
    ensures Without(head + jobs[i..], jobs[i].id) == head + jobs[i + 1..]
  {
    var all := head + jobs;
    assert forall k :: 0 <= k < |all| && k != |head| + i ==> Ids(all)[k] != Ids(all)[|head| + i];
    assert all[..|head|] == head;
    assert all[|head| + i + 1..] == jobs[i + 1..];
    assert head + jobs[i..] == head + [jobs[i]] + jobs[i + 1..];
    WithoutMiddle(head, jobs[i], jobs[i + 1..]);
  }

  lemma PopOldest(jobs: seq<Job>)
    requires JobsOk(jobs) && jobs != []
    ensures Without(jobs, jobs[0].id) == jobs[1..]
  {
    forall j | j in jobs[1..]
      ensures j.id != jobs[0].id
    {
      var i :| 0 <= i < |jobs| - 1 && jobs[1..][i] == j;
      assert Ids(jobs)[0] != Ids(jobs)[i + 1];
    }
    WithoutAbsent(jobs[1..], jobs[0].id);
  }

  // ---- what the remaining fields are a function of -------------------------------

  /** The id of the rest transition: the newest live job, if that is a rest. */
  function RestIdOf(live: seq<Job>): Option<Id> {
    if live != [] && live[|live| - 1].resting then Some(live[|live| - 1].id) else None
  }

  lemma RestIdTellsPending(q: Queue)
    requires RestShape(q)
    ensures RestIdOf(Live(q)).Some? <==> RestPending(q)
  {
    var live := Live(q);
    if RestPending(q) {
      var i :| 0 <= i < |live| && live[i].resting;
      assert i >= |CurrentJob(q)| ==> live[i] == q.waiting[i - |CurrentJob(q)|];
      assert i == |live| - 1;
    }
  }

  /** The fields of the object that are not part of the abstract state. */
  datatype Private = Private(
    accepted: seq<Job>, restId: Option<Id>, wake: bool, worker: bool)

  /** They agree with the live jobs and with the progress of the running one. */
  ghost predicate Agree(q: Queue, p: Private) {
    && p.accepted == Live(q)
    && p.restId == RestIdOf(Live(q))
    && (q.stage != Closed ==> p.wake == (q.waiting != []))
    && (q.stage != Closed && Live(q) != [] ==> p.worker)
  }

  lemma AgreeAfterAccept(q: Queue, p: Private, job: Job)
    requires Inv(q) && Agree(q, p) && JobOk(job) && Rejection(q, job).None?
    ensures Agree(Accept(q, job), p.(accepted := (if job.resting then CurrentJob(q) else p.accepted) + [job],
                                     restId := if job.resting then Some(job.id) else p.restId,
                                     wake := true, worker := true))
  {
    KeptJobs(q, job);
    RestIdTellsPending(q);
    var live := Live(Accept(q, job));
    assert live[|live| - 1] == job;
  }

  lemma AgreeAfterStart(q: Queue, p: Private)
    requires Inv(q) && CanStart(q) && Agree(q, p)
    ensures Agree(Start(q), p.(wake := q.waiting[1..] != []))
  {
    StartKeepsInv(q);
  }

  lemma RestIdAfterFinish(q: Queue)
    requires RestShape(q) && q.current.Some?
    ensures var job := q.current.value.job;
      RestIdOf(q.waiting) == if job.resting && RestIdOf(Live(q)) == Some(job.id) then None else RestIdOf(Live(q))
  {
    var live := Live(q);
    if q.waiting != [] {
      assert q.waiting[|q.waiting| - 1] == live[|live| - 1];
    } else {
      assert live == [q.current.value.job];
    }
  }

  lemma AgreeAfterFinish(q: Queue, p: Private, outcome: Outcome)
    requires JobsInv(q) && q.current.Some? && q.stage == Open && Agree(q, p)
    ensures var job := q.current.value.job;
      && HasKey(p.accepted, job.id)
      && Agree(Finish(q, outcome),
               p.(accepted := Without(p.accepted, job.id),
                  restId := if job.resting && p.restId == Some(job.id) then None else p.restId))
  {
    var live := Live(q);
    assert live[0] == q.current.value.job && live[1..] == q.waiting;
    PopOldest(live);
    RestIdAfterFinish(q);
    var r := Finish(q, outcome);
    assert Live(r) == q.waiting;
  }

  // ---- the object ------------------------------------------------------------------

  class MotionQueue {
    const state: SimulatorState
    const log: EventLog
    const capacity: nat
    const steps: nat
    var waiting: seq<Job>
    var accepted: seq<Job>
    var seenOrder: seq<Id>
    var seenIds: set<Id>
    var current: Option<Job>
    var projected: Pose
    var restId: Option<Id>
    var interrupt: bool
    var wake: bool
    var worker: bool
    var closed: bool
    var closeDone: bool
    // the worker's own variables between two suspension points
    var done: nat
    var chosen: bool
    var starts: Pose
    var elapsedMs: int
    ghost var origin: Pose

    ghost function View(): Queue
      reads this, state, log
    {
      Queue(state.View(), capacity, steps,
            if current.Some? then Some(Running(current.value, done, chosen, starts, elapsedMs, origin)) else None,
            waiting, seenOrder, seenIds, interrupt, projected,
            if !closed then Open else if !closeDone then Closing else Closed,
            log.events)
    }

    ghost function Hidden(): Private
      reads this
    {
      Private(accepted, restId, wake, worker)
    }

    ghost predicate Valid()
      reads this, state, log
    {
      Inv(View()) && Agree(View(), Hidden()) && (closeDone ==> closed)
    }

    constructor (state: SimulatorState, log: EventLog, capacity: nat, steps: nat)
      requires state.Valid() && capacity > 0 && steps > 0 && log.events == []
      modifies state
      ensures Valid() && Initial(View())
      ensures this.state == state && this.log == log && this.capacity == capacity && this.steps == steps
      ensures state.View() == old(state.View()).(queueSize := 0, queueCapacity := capacity)
    {
      this.state := state;
      this.log := log;
      this.capacity := capacity;
      this.steps := steps;
      waiting, accepted, seenOrder, seenIds := [], [], [], {};
      current, restId, interrupt := None, None, false;
      wake, worker, closed, closeDone := false, false, false, false;
      done, chosen, starts, elapsedMs := 0, false, map[], 0;
      origin := map[];
      projected := state.joints;
      new;
      var sized := state.SetCommandQueue(0, capacity);
      InitialInv(View());
    }

    // ---- pieces shared by the steps --------------------------------------------------

    /** _state_event: publishing does not raise, because the device is consistent. */
    method StateEventFor(id: Id) returns (event: Event)
      requires state.Valid()
      modifies state
      ensures state.Valid() && state.View() == Published(old(state.View()))
      ensures event == StateEvent(id, state.View())
    {
      var snapshot := state.PublishSnapshot();
      event := StateChanged(id, snapshot.value);
    }

    method RememberId(id: Id)
      modifies this`seenOrder, this`seenIds
      ensures Window(seenOrder, seenIds) == Remember(Window(old(seenOrder), old(seenIds)), Ids(accepted), id)
    {
      if |seenOrder| >= SEEN_COMMAND_LIMIT {
        var expired := seenOrder[0];
        seenOrder := seenOrder[1..];
        if !HasKey(accepted, expired) {
          seenIds := seenIds - {expired};
        }
        assert HasKey(accepted, expired) <==> expired in Ids(accepted) by {
          assert forall i :: 0 <= i < |accepted| ==> Ids(accepted)[i] == accepted[i].id;
        }
      }
      seenOrder := seenOrder + [id];
      seenIds := seenIds + {id};
    }

    /** Removes every waiting job from the dictionary. */
    method DropWaiting()
      requires JobsOk(Live(View())) && accepted == Live(View())
      modifies this`accepted
      ensures accepted == CurrentJob(View())
    {
      ghost var head := CurrentJob(View());
      for i := 0 to |waiting|
        invariant accepted == head + waiting[i..]
      {
        DropOne(head, waiting, i);
        accepted := Without(accepted, waiting[i].id);
      }
    }

    method CancelledForRest(jobs: seq<Job>) returns (events: seq<Event>)
      ensures events == RestCancellations(jobs, state.joints)
    {
      events := [];
      for i := 0 to |jobs|
        invariant events + RestCancellations(jobs[i..], state.joints) == RestCancellations(jobs, state.joints)
      {
        events := events + [Finished(jobs[i].id, jobs[i].action, Cancelled(ForRest), 0, state.joints)];
        assert jobs[i..][1..] == jobs[i + 1..];
      }
      assert RestCancellations(jobs[|jobs|..], state.joints) == [];
    }

    // ---- commands ----------------------------------------------------------------------

    method Replace(job: Job)
      modifies this`waiting, this`accepted, this`seenOrder, this`seenIds, this`restId, this`projected, this`worker,
        this`wake
      ensures waiting == [job] && accepted == old(accepted) + [job]
      ensures Window(seenOrder, seenIds) == Remember(Window(old(seenOrder), old(seenIds)), Ids(accepted), job.id)
      ensures restId == Some(job.id) && projected == state.joints + job.targets && worker && wake
    {
      waiting := [job];
      accepted := accepted + [job];
      RememberId(job.id);
      restId := Some(job.id);
      projected := state.joints + job.targets;
      worker := true;
      wake := true;
    }

    method TakeRest(job: Job)
      requires state.Valid() && capacity > 0 && job.resting && accepted == CurrentJob(View())
      modifies this, state, log
      ensures View() == Accept(old(View()), job)
      ensures Hidden() == Private(old(accepted) + [job], Some(job.id), true, true)
      ensures closeDone == old(closeDone)
    {
      ghost var before := View();
      ReplaceAndTell(job);
      IsAcceptedRest(before, View(), job);
    }

    /** The same field by field. */
    method ReplaceAndTell(job: Job)
      requires state.Valid() && capacity > 0
      modifies this`waiting, this`accepted, this`seenOrder, this`seenIds, this`restId, this`projected, this`worker,
        this`wake
      modifies this`interrupt, state, log
      ensures waiting == [job] && accepted == old(accepted) + [job] && restId == Some(job.id) && worker && wake
      ensures Window(seenOrder, seenIds) == Remember(Window(old(seenOrder), old(seenIds)), Ids(accepted), job.id)
      ensures projected == old(state.joints) + job.targets
      ensures interrupt == (old(interrupt) || (current.Some? && !current.value.resting))
      ensures state.View() == Published(old(state.View()).(queueSize := 1, queueCapacity := capacity))
      ensures log.events == old(log.events)
        + ([Accepted(job.id, job.commandType, true), StateEvent(job.id, state.View())]
           + RestCancellations(old(waiting), old(state.joints)))
    {
      var finished := CancelledForRest(waiting);
      Replace(job);
      TellRest(job, finished);
      RaiseInterrupt();
    }

    /** Only a running motion is to be interrupted. */
    method RaiseInterrupt()
      modifies this`interrupt
      ensures interrupt == (old(interrupt) || (current.Some? && !current.value.resting))
    {
      if current.Some? && !current.value.resting {
        interrupt := true;
      }
    }

    method TellRest(job: Job, finished: seq<Event>)
      requires state.Valid() && |waiting| <= capacity
      modifies state, log
      ensures state.Valid()
      ensures state.View() == Published(old(state.View()).(queueSize := |waiting|, queueCapacity := capacity))
      ensures log.events == old(log.events)
        + ([Accepted(job.id, job.commandType, true), StateEvent(job.id, state.View())] + finished)
    {
      var stateEvent := AnnounceSize(job.id);
      log.Publish([Accepted(job.id, job.commandType, true), stateEvent] + finished);
    }

    /** set_command_queue followed by the state event. */
    method AnnounceSize(id: Id) returns (event: Event)
      requires state.Valid() && |waiting| <= capacity
      modifies state
      ensures state.Valid()
      ensures state.View() == Published(old(state.View()).(queueSize := |waiting|, queueCapacity := capacity))
      ensures event == StateEvent(id, state.View())
    {
      var sized := state.SetCommandQueue(|waiting|, capacity);
      event := StateEventFor(id);
    }

    method Append(job: Job)
      modifies this`waiting, this`accepted, this`seenOrder, this`seenIds, this`projected, this`worker, this`wake
      ensures waiting == old(waiting) + [job] && accepted == old(accepted) + [job]
      ensures Window(seenOrder, seenIds) == Remember(Window(old(seenOrder), old(seenIds)), Ids(accepted), job.id)
      ensures projected == old(projected) + job.targets && worker && wake
    {
      waiting := waiting + [job];
      accepted := accepted + [job];
      RememberId(job.id);
      projected := projected + job.targets;
      worker := true;
      wake := true;
    }

    method TakeMotion(job: Job)
      requires state.Valid() && |waiting| < capacity && !job.resting
      requires accepted == Live(View())
      modifies this, state, log
      ensures View() == Accept(old(View()), job)
      ensures Hidden() == old(Hidden()).(accepted := old(accepted) + [job], wake := true, worker := true)
      ensures closeDone == old(closeDone)
    {
      assert accepted + [job] == CurrentJob(View()) + (waiting + [job]);
      Append(job);
      var stateEvent := AnnounceSize(job.id);
      log.Publish([Accepted(job.id, job.commandType, true), stateEvent]);
    }

    method Refuse(id: Id, code: ErrorCode, recoverable: bool)
      requires Valid()
      modifies log
      ensures Valid() && View() == Emit(old(View()), [Error(id, code, recoverable)])
    {
      ghost var before := View();
      log.Publish([Error(id, code, recoverable)]);
      QuietKeepsInv(before, before.dev, [Error(id, code, recoverable)]);
    }

    /** The first reason that applies to refuse a prepared job. */
    method CheckJob(job: Job) returns (rejection: Option<(ErrorCode, bool)>)
      requires Valid()
      ensures rejection == Rejection(View(), job)
    {
      RestIdTellsPending(View());
      if closed {
        return Some((QueueIsClosed, false));
      }
      if job.id in seenIds {
        return Some((DuplicateCommand, false));
      }
      if restId.Some? {
        return Some((DeviceIsResting, true));
      }
      if !job.resting && |waiting| >= capacity {
        return Some((QueueIsFull, true));
      }
      rejection := None;
    }

    /** One command: prepared and accepted, or refused. */
    method Enqueue(id: Id, command: MotionCommand)
      requires Valid()
      modifies this, state, log
      ensures Valid() && View() == Motion.Enqueue(old(View()), id, command)
    {
      PreparedJobIsOk(id, command, projected);
      var prepared := Prepare(id, command, projected);
      if prepared.None? {
        Refuse(id, InvalidCommand, true);
        return;
      }
      var rejection := CheckJob(prepared.value);
      if rejection.Some? {
        Refuse(id, rejection.value.0, rejection.value.1);
      } else {
        Take(prepared.value);
      }
    }

    /** A rest replaces what waits; any other job is appended. */
    method Take(job: Job)
      requires Valid() && JobOk(job) && Rejection(View(), job).None?
      modifies this, state, log
      ensures Valid() && View() == Accept(old(View()), job)
    {
      AcceptKeepsInv(View(), job);
      AgreeAfterAccept(View(), Hidden(), job);
      if job.resting {
        DropWaiting();
        TakeRest(job);
      } else {
        TakeMotion(job);
      }
    }

    // ---- the worker -----------------------------------------------------------------------

    method Pop()
      requires waiting != []
      modifies this`waiting, this`current, this`wake, this`done, this`chosen, this`starts, this`elapsedMs, this`origin
      ensures waiting == old(waiting)[1..] && current == Some(old(waiting)[0])
      ensures wake == if waiting == [] then false else old(wake)
      ensures done == 0 && !chosen && elapsedMs == 0
      ensures origin == state.joints && starts == StartsOf(state.joints, old(waiting)[0].targets)
    {
      var job := waiting[0];
      waiting := waiting[1..];
      current := Some(job);
      if waiting == [] {
        wake := false;
      }
      done, chosen, elapsedMs := 0, false, 0;
      starts := map n | n in job.targets && n in state.joints :: state.joints[n];
      origin := state.joints;
    }

    method AnnounceMoving(job: Job) returns (event: Event)
      requires state.Valid() && |waiting| <= capacity
      modifies state
      ensures state.Valid() && state.View() == Published(MovingDevice(old(state.View()), job, |waiting|, capacity))
      ensures event == StateEvent(job.id, state.View())
    {
      if !job.resting && state.statusMode == Resting {
        var status := state.SetStatus(Some(Starting));
      }
      var moving := state.SetMotionAndQueue(Moving, Some(job.action), |waiting|, capacity);
      event := StateEventFor(job.id);
    }

    method TakeOldest()
      requires !closed && current.None? && waiting != []
      requires state.Valid() && |waiting| <= capacity
      modifies this, state, log
      ensures View() == Start(old(View()))
      ensures Hidden() == old(Hidden()).(wake := if waiting == [] then false else old(wake))
      ensures closeDone == old(closeDone)
    {
      ghost var before := View();
      var job := waiting[0];
      Pop();
      var stateEvent := AnnounceMoving(job);
      log.Publish([Started(job.id, job.commandType, job.action, job.durationMs), stateEvent]);
      IsStart(before, View());
    }

    /** The worker wakes, takes the oldest job and announces it. */
    method StartJob()
      requires Valid() && !closed && current.None? && wake
      modifies this, state, log
      ensures Valid() && CanStart(old(View())) && View() == Start(old(View()))
    {
      StartKeepsInv(View());
      AgreeAfterStart(View(), Hidden());
      TakeOldest();
    }

    /** The clock's sleep is chosen over the interrupt. */
    method ChooseSleep()
      requires Valid() && CanSleepDone(View())
      modifies this`chosen
      ensures Valid() && View() == SleepDone(old(View()))
    {
      ghost var before := View();
      StepKeepsInv(before, DoSleepDone);
      chosen := true;
      assert Live(View()) == Live(before);
    }

    method AnnounceStopped(job: Job, outcome: Outcome) returns (event: Event)
      requires state.Valid() && |waiting| <= capacity
      modifies state
      ensures state.Valid()
      ensures state.View() == Published(StoppedDevice(old(state.View()), job, outcome, |waiting|, capacity))
      ensures event == StateEvent(job.id, state.View())
    {
      if outcome == Completed && job.resting {
        if state.statusMode != ErrorMode {
          var status := state.SetStatus(Some(Resting));
        }
      } else if outcome == Completed && state.statusMode == Starting {
        var status := state.SetStatus(Some(Active));
      } else if outcome.Failed? {
        var status := state.SetStatus(Some(ErrorMode));
      }
      var kind := if outcome.Failed? then MotionFault else Idle;
      var stopped := state.SetMotionAndQueue(kind, None, |waiting|, capacity);
      event := StateEventFor(job.id);
    }

    method SettleRest(job: Job, outcome: Outcome)
      modifies this`interrupt, this`restId
      ensures interrupt == (old(interrupt) && outcome != Cancelled(ForRest))
      ensures restId == if job.resting && old(restId) == Some(job.id) then None else old(restId)
    {
      if outcome == Cancelled(ForRest) {
        interrupt := false;
      }
      if job.resting && restId == Some(job.id) {
        restId := None;
      }
    }

    method RetireJob(outcome: Outcome)
      requires current.Some? && HasKey(accepted, current.value.id)
      requires state.Valid() && |waiting| <= capacity
      modifies this, state, log
      ensures View() == Finish(old(View()), outcome)
      ensures var job := old(current).value;
        Hidden() == old(Hidden()).(accepted := Without(old(accepted), job.id),
                                   restId := if job.resting && old(restId) == Some(job.id) then None else old(restId))
      ensures closeDone == old(closeDone)
    {
      ghost var before := View();
      var job := current.value;
      if !HasKey(accepted, job.id) {
        return;
      }
      accepted := Without(accepted, job.id);
      current := None;
      var stateEvent := AnnounceStopped(job, outcome);
      log.Publish([stateEvent, Finished(job.id, job.action, outcome, elapsedMs, state.joints)]);
      SettleRest(job, outcome);
      IsFinish(before, View(), outcome);
    }

    method FinishJob(outcome: Outcome)
      requires Valid() && !closed && current.Some?
      modifies this, state, log
      ensures Valid() && View() == Finish(old(View()), outcome)
    {
      FinishKeepsInv(View(), outcome);
      AgreeAfterFinish(View(), Hidden(), outcome);
      RetireJob(outcome);
    }

    /** The positions of the named joints, computed once with the fraction done. */
    method MoveJoints(job: Job) returns (event: Event)
      requires steps > 0 && PoseInLimits(Positions(starts, job.targets, done + 1, steps))
      requires state.Valid()
      modifies state
      ensures state.Valid()
      ensures state.View() == Published(NextDevice(old(state.View()), starts, job.targets, done + 1, steps))
      ensures event == StateEvent(job.id, state.View())
    {
      var positions := Positions(starts, job.targets, done + 1, steps);
      var moved := state.SetJoints(AsValues(positions));
      event := StateEventFor(job.id);
    }

    method Advance(job: Job)
      requires current == Some(job) && CanTick(View())
      requires PoseInLimits(Positions(starts, job.targets, done + 1, steps))
      requires state.Valid()
      modifies state, log, this`done, this`chosen, this`elapsedMs
      ensures state.Valid()
      ensures View() == Move(old(View()))
    {
      var stateEvent := MoveJoints(job);
      elapsedMs := Elapsed(job.durationMs, done + 1, steps);
      done, chosen := done + 1, false;
      log.Publish([Progress(job.id, job.action, Fraction(done, steps), elapsedMs, state.joints), stateEvent]);
    }

    /** One interpolation step, announced; the last one completes the job. */
    method TickJob()
      requires Valid() && CanTick(View())
      modifies this, state, log
      ensures Valid() && View() == Tick(old(View()))
    {
      TickKeepsInv(View());
      AgreeAfterTick(View(), Hidden());
      AdvanceOrComplete();
    }

    method AdvanceOrComplete()
      requires Inv(View()) && CanTick(View()) && HasKey(accepted, current.value.id)
      modifies this, state, log
      ensures View() == Tick(old(View()))
      ensures Hidden() == AfterTick(old(View()), old(Hidden())) && closeDone == old(closeDone)
    {
      TickIsSafe(View());
      Advance(current.value);
      if done == steps {
        RetireJob(Completed);
      }
    }

    /** The flag that an accepted rest raised stops a motion in its sleep. */
    method InterruptJob()
      requires Valid() && CanInterrupt(View())
      modifies this, state, log
      ensures Valid() && View() == Interrupt(old(View()))
    {
      FinishJob(Cancelled(ForRest));
    }

    method FailJob(error: string)
      requires Valid() && CanFail(View())
      modifies this, state, log
      ensures Valid() && View() == Fail(old(View()), error)
    {
      FinishJob(Failed(error));
    }

    // ---- closing ------------------------------------------------------------------------------

    method StartClosing()
      requires Valid()
      modifies this`closed
      ensures Valid() && View() == BeginClose(old(View()))
    {
      ghost var before := View();
      StepKeepsInv(before, DoBeginClose);
      closed := true;
      assert Live(View()) == Live(before);
    }

    method Abandon()
      requires steps > 0 && closed && !closeDone
      requires state.Valid()
      requires accepted == Live(View())
      modifies this, state, log
      ensures View() == FinishClose(old(View()))
      ensures Hidden() == old(Hidden()).(accepted := [], restId := None, worker := false)
      ensures closeDone && closed
    {
      var unfinished := accepted;
      var elapsed := if current.Some? then elapsedMs else 0;
      Clear();
      TellShutdown(unfinished, elapsed);
    }

    method Clear()
      modifies this`accepted, this`waiting, this`current, this`restId, this`interrupt, this`projected, this`worker,
        this`closeDone
      ensures accepted == [] && waiting == [] && current == None && restId == None && !interrupt
      ensures projected == state.joints && !worker && closeDone
    {
      accepted, waiting := [], [];
      current, restId, interrupt := None, None, false;
      projected := state.joints;
      worker, closeDone := false, true;
    }

    method TellShutdown(unfinished: seq<Job>, elapsed: int)
      requires state.Valid()
      modifies state, log
      ensures var dev := StoppedForGood(old(state.View()), capacity);
        && state.View() == dev.(revision := dev.revision + |unfinished|)
        && log.events == old(log.events) + ShutdownEvents(dev, unfinished, elapsed)
    {
      var stopped := state.SetMotionAndQueue(Idle, None, 0, capacity);
      var events := ShutdownGroup(unfinished, elapsed);
      log.Publish(events);
    }

    method ShutdownGroup(unfinished: seq<Job>, elapsed: int) returns (events: seq<Event>)
      requires state.Valid()
      modifies state
      ensures state.Valid() && state.View() == old(state.View()).(revision := old(state.View()).revision + |unfinished|)
      ensures events == ShutdownEvents(old(state.View()), unfinished, elapsed)
    {
      ghost var dev := state.View();
      events := [];
      var ms := elapsed;
      for i := 0 to |unfinished|
        invariant state.Valid() && state.View() == dev.(revision := dev.revision + i)
        invariant ms == if i == 0 then elapsed else 0
        invariant events + ShutdownEvents(state.View(), unfinished[i..], ms) == ShutdownEvents(dev, unfinished, elapsed)
      {
        ghost var d := state.View();
        ghost var left := unfinished[i..];
        var stateEvent := StateEventFor(unfinished[i].id);
        var group := [stateEvent,
                      Finished(unfinished[i].id, unfinished[i].action, Cancelled(ForShutdown), ms, state.joints)];
        assert left[1..] == unfinished[i + 1..];
        assert ShutdownEvents(d, left, ms) == group + ShutdownEvents(state.View(), unfinished[i + 1..], 0);
        assert (events + group) + ShutdownEvents(state.View(), unfinished[i + 1..], 0)
            == events + ShutdownEvents(d, left, ms);
        events := events + group;
        ms := 0;
      }
      assert unfinished[|unfinished|..] == [];
    }

    method FinishClosing()
      requires Valid() && CanFinishClose(View())
      modifies this, state, log
      ensures Valid() && View() == FinishClose(old(View())) && !worker && accepted == []
    {
      FinishCloseKeepsInv(View());
      Abandon();
      assert Live(View()) == [];
    }
  }

  // ---- steps, field by field ---------------------------------------------------------------------

  lemma IsAcceptedRest(q: Queue, r: Queue, job: Job)
    requires job.resting
    requires r.dev == Published(q.dev.(queueSize := 1, queueCapacity := q.capacity))
    requires r.waiting == [job] && r.projected == q.dev.joints + job.targets
    requires Window(r.seenOrder, r.seenIds)
          == Remember(Window(q.seenOrder, q.seenIds), Ids(CurrentJob(q) + [job]), job.id)
    requires r.interrupt == (q.interrupt || (q.current.Some? && !q.current.value.job.resting))
    requires r.trace == q.trace + ([Accepted(job.id, job.commandType, true), StateEvent(job.id, r.dev)]
                                   + RestCancellations(q.waiting, q.dev.joints))
    requires r.capacity == q.capacity && r.steps == q.steps && r.current == q.current && r.stage == q.stage
    ensures r == Accept(q, job)
  {
  }

  lemma IsFinish(q: Queue, r: Queue, outcome: Outcome)
    requires q.current.Some?
    requires r.dev == Published(StoppedDevice(q.dev, q.current.value.job, outcome, |q.waiting|, q.capacity))
    requires r.trace == q.trace + [StateEvent(q.current.value.job.id, r.dev),
                                   Finished(q.current.value.job.id, q.current.value.job.action, outcome,
                                            q.current.value.elapsedMs, q.dev.joints)]
    requires r.current == None && r.interrupt == (q.interrupt && outcome != Cancelled(ForRest))
    requires r.capacity == q.capacity && r.steps == q.steps && r.waiting == q.waiting && r.seenOrder == q.seenOrder
    requires r.seenIds == q.seenIds && r.projected == q.projected && r.stage == q.stage
    ensures r == Finish(q, outcome)
  {
  }

  lemma IsStart(q: Queue, r: Queue)
    requires CanStart(q)
    requires r.dev == Published(MovingDevice(q.dev, q.waiting[0], |q.waiting| - 1, q.capacity))
    requires r.waiting == q.waiting[1..]
    requires r.current == Some(Running(q.waiting[0], 0, false, StartsOf(q.dev.joints, q.waiting[0].targets), 0,
                                       q.dev.joints))
    requires r.trace == q.trace
      + [Started(q.waiting[0].id, q.waiting[0].commandType, q.waiting[0].action, q.waiting[0].durationMs),
                                   StateEvent(q.waiting[0].id, r.dev)]
    requires r.capacity == q.capacity && r.steps == q.steps && r.seenOrder == q.seenOrder && r.seenIds == q.seenIds
    requires r.interrupt == q.interrupt && r.projected == q.projected && r.stage == q.stage
    ensures r == Start(q)
  {
  }

  // ---- what a tick of the object needs ---------------------------------------------------------

  lemma PositionsInLimits(origin: Pose, targets: Pose, step: nat, steps: nat)
    requires steps > 0 && step <= steps && PoseInLimits(origin) && PoseInLimits(targets)
    ensures PoseInLimits(Positions(StartsOf(origin, targets), targets, step, steps))
  {
    forall n | n in targets && n in origin
      ensures InLimits(n, Interpolate(origin[n], targets[n], step, steps))
    {
      InterpolateInLimits(n, origin[n], targets[n], step, steps);
    }
  }

  lemma TickIsSafe(q: Queue)
    requires Inv(q) && CanTick(q)
    ensures PoseInLimits(Positions(q.current.value.starts, q.current.value.job.targets, q.current.value.done + 1,
                                   q.steps))
  {
    var r := q.current.value;
    RunningJobIsOk(q);
    PositionsInLimits(r.origin, r.job.targets, r.done + 1, q.steps);
  }

  /** What a tick leaves in the private fields. */
  function AfterTick(q: Queue, p: Private): Private
    requires q.current.Some?
  {
    var job := q.current.value.job;
    if q.current.value.done + 1 < q.steps then p
    else p.(accepted := Without(p.accepted, job.id),
            restId := if job.resting && p.restId == Some(job.id) then None else p.restId)
  }

  lemma AgreeAfterTick(q: Queue, p: Private)
    requires Inv(q) && CanTick(q) && Agree(q, p)
    ensures HasKey(p.accepted, q.current.value.job.id)
    ensures Agree(Tick(q), AfterTick(q, p))
  {
    MoveKeepsJobs(q);
    AgreeAfterFinish(Move(q), p, Completed);
  }
}
