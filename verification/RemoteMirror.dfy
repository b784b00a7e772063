/** A remote target: its copy of the device state, and the task that recovers it after a gap or a disconnection. */
module RemoteMirror {
  import opened Common
  import opened Protocol

  // ---- the recovery task -----------------------------------------------------------------

  /** Where the task is suspended, and how many times it has slept. */
  datatype Phase = Asking | Waiting | Pausing
  datatype Resync = Resync(phase: Phase, delay: real, pauses: nat)

  function Min(a: real, b: real): real {
    if a <= b then a else b
  }

  /** base doubled n times. */
  function Doubled(base: real, n: nat): real {
    if n == 0 then base else 2.0 * Doubled(base, n - 1)
  }

  datatype Remote = Remote(
    latest: Option<Snapshot>,
    stale: bool,
    floor: Option<int>,
    resync: Option<Resync>,
    closed: bool,
    baseDelay: real,
    maxDelay: real,
    delivered: seq<Snapshot>)

  function EnsureResync(t: Remote): Remote {
    if t.closed || t.resync.Some? then t else t.(resync := Some(Resync(Asking, t.baseDelay, 0)))
  }

  // ---- events --------------------------------------------------------------------------------

  function Hold(t: Remote, state: Snapshot): Remote {
    t.(latest := Some(state), stale := false, floor := None)
  }

  function Raised(t: Remote, revision: int): Remote {
    t.(stale := true, floor := if t.floor.None? || revision > t.floor.value then Some(revision) else t.floor)
  }

  /** A valid state of this device arrives; delivered only records it. */
  function Deliver(t: Remote, state: Snapshot): Remote {
    var r := t.(delivered := t.delivered + [state]);
    if t.latest.None? then Hold(r, state)
    else if t.stale then
      if t.floor.Some? && state.revision < t.floor.value then EnsureResync(r) else Hold(r, state)
    else if state.revision <= t.latest.value.revision then r
    else if state.revision > t.latest.value.revision + 1 then EnsureResync(Raised(r, state.revision))
    else Hold(r, state)
  }

  datatype DeviceEvent = StateEvent(state: Snapshot, valid: bool) | OtherEvent

  /** _on_event: events of a closed target, of another device, and invalid states are dropped. */
  function OnEvent(t: Remote, mine: bool, e: DeviceEvent): Remote {
    if t.closed || !mine || e.OtherEvent? || !e.valid then t else Deliver(t, e.state)
  }

  /** Whether the target's own subscribers get the event: everything but what was dropped and what is not news. */
  predicate Passed(t: Remote, mine: bool, e: DeviceEvent) {
    !t.closed && mine &&
    (e.OtherEvent? || (e.valid && (t.latest.None? || t.stale || e.state.revision > t.latest.value.revision)))
  }

  /** A command finds the device disconnected. */
  function Lose(t: Remote): Remote {
    EnsureResync(t.(stale := true, floor := None, delivered := []))
  }

  // ---- the task's steps --------------------------------------------------------------------------

  /**
   What ends a suspension: the request returns, the state arrives or does not,
   the pause is over.  Broke stands for a pause that raises, when it is asked
   for or later; nothing catches that.
   */
  datatype Wake = Answered | Failed | Arrived | TimedOut | Paused | Broke

  predicate CanWake(t: Remote, w: Wake) {
    && t.resync.Some?
    && match t.resync.value.phase
       case Asking => w == Answered || w == Failed || w == Broke
       case Waiting => w == Arrived || w == TimedOut || w == Broke
       case Pausing => w == Arrived || w == Paused || w == Broke
  }

  function Settled(t: Remote, next: Resync): Option<Resync> {
    if t.stale && !t.closed then Some(next) else None
  }

  /** The task goes on from where it was suspended to its next suspension, or ends. */
  function Continue(t: Remote, w: Wake): Remote
    requires CanWake(t, w)
  {
    var task := t.resync.value;
    var next :=
      if w == Broke then None else
      match task.phase
      case Asking =>
        if w == Answered then (if t.stale then Some(task.(phase := Waiting)) else None)
        else Settled(t, task.(phase := Pausing))
      case Waiting => Settled(t, task.(phase := Pausing))
      case Pausing => Settled(t, Resync(Asking, Min(t.maxDelay, task.delay * 2.0), task.pauses + 1));
    t.(resync := next)
  }

  // ---- runs ---------------------------------------------------------------------------------------

  datatype Step = DoEvent(mine: bool, event: DeviceEvent) | DoLose | DoWake(wake: Wake) | DoClose

  predicate Enabled(t: Remote, s: Step) {
    match s
    case DoEvent(_, _) => true
    case DoLose => true
    case DoWake(w) => CanWake(t, w)
    case DoClose => true
  }

  /** Closing cancels the task. */
  function Apply(t: Remote, s: Step): Remote
    requires Enabled(t, s)
  {
    match s
    case DoEvent(mine, e) => OnEvent(t, mine, e)
    case DoLose => Lose(t)
    case DoWake(w) => Continue(t, w)
    case DoClose => t.(closed := true, resync := None)
  }

  predicate Legal(t: Remote, run: seq<Step>)
    decreases |run|
  {
    run == [] || (Enabled(t, run[0]) && Legal(Apply(t, run[0]), run[1..]))
  }

  function After(t: Remote, run: seq<Step>): Remote
    requires Legal(t, run)
    decreases |run|
  {
    if run == [] then t else After(Apply(t, run[0]), run[1..])
  }

  predicate Initial(t: Remote) {
    && t.latest.None? && t.stale && t.floor.None? && t.resync.None? && !t.closed && t.delivered == []
    && 0.0 < t.baseDelay <= t.maxDelay
  }

  /** This state was delivered, and none was delivered with a larger revision. */
  ghost predicate GreatestDelivered(t: Remote, revision: int) {
    && (exists i :: 0 <= i < |t.delivered| && t.delivered[i].revision == revision)
    && forall i :: 0 <= i < |t.delivered| ==> t.delivered[i].revision <= revision
  }

  ghost predicate Inv(t: Remote) {
    && (t.latest.None? ==> t.stale && t.floor.None? && t.delivered == [])
    && (!t.stale ==> t.floor.None? && t.latest.value in t.delivered && GreatestDelivered(t, t.latest.value.revision))
    && (t.stale && t.floor.None? ==> t.delivered == [])
    && (t.floor.Some? ==> GreatestDelivered(t, t.floor.value) && t.latest.value.revision + 1 < t.floor.value)
    && (t.resync.Some? ==> t.resync.value.delay == Min(t.maxDelay, Doubled(t.baseDelay, t.resync.value.pauses)))
    && 0.0 < t.baseDelay <= t.maxDelay
    && (t.closed ==> t.resync.None?)
  }

  lemma DeliveredMore(t: Remote, state: Snapshot, r: Remote)
    requires r.delivered == t.delivered + [state]
    ensures state in r.delivered && forall s :: s in t.delivered ==> s in r.delivered
    ensures (forall i :: 0 <= i < |t.delivered| ==> t.delivered[i].revision <= state.revision)
      ==> GreatestDelivered(r, state.revision)
    ensures forall n :: GreatestDelivered(t, n) && state.revision <= n ==> GreatestDelivered(r, n)
  {
    assert r.delivered[|t.delivered|] == state;
    forall n | GreatestDelivered(t, n) && state.revision <= n
      ensures GreatestDelivered(r, n)
    {
      var i :| 0 <= i < |t.delivered| && t.delivered[i].revision == n;
      assert r.delivered[i].revision == n;
    }
  }

  /** Doubling and capping at each step is doubling throughout and capping at the end. */
  lemma {:induction false} NextDelay(base: real, most: real, n: nat)
    requires 0.0 < base <= most
    ensures 0.0 < Doubled(base, n)
    ensures Min(most, Min(most, Doubled(base, n)) * 2.0) == Min(most, Doubled(base, n + 1))
  {
    if n > 0 {
      NextDelay(base, most, n - 1);
    }
  }

  lemma DeliverKeepsInv(t: Remote, state: Snapshot)
    requires Inv(t) && !t.closed
    ensures Inv(Deliver(t, state))
  {
    var r := Deliver(t, state);
    DeliveredMore(t, state, r);
  }

  lemma WakeKeepsInv(t: Remote, w: Wake)
    requires Inv(t) && CanWake(t, w)
    ensures Inv(Continue(t, w))
  {
    NextDelay(t.baseDelay, t.maxDelay, t.resync.value.pauses);
  }

  lemma StepKeepsInv(t: Remote, s: Step)
    requires Inv(t) && Enabled(t, s)
    ensures Inv(Apply(t, s))
  {
    match s
    case DoEvent(mine, e) =>
      if !t.closed && e.StateEvent? {
        DeliverKeepsInv(t, e.state);
      }
    case DoLose =>
    case DoWake(w) => WakeKeepsInv(t, w);
    case DoClose =>
  }

  lemma {:induction false} RunKeepsInv(t: Remote, run: seq<Step>)
    requires Inv(t) && Legal(t, run)
    ensures Inv(After(t, run))
    decreases |run|
  {
    if run != [] {
      StepKeepsInv(t, run[0]);
      RunKeepsInv(Apply(t, run[0]), run[1..]);
    }
  }

  /**
   On every run, counting the valid states delivered since the device was last
   lost: a target that is not stale holds one of the greatest revision; one that
   is stale after a gap knows that greatest revision, which is ahead of the one
   it holds; and one that is stale without a floor has had no delivery.
   */
  lemma HeldIsGreatest(t: Remote, run: seq<Step>)
    requires Initial(t) && Legal(t, run)
    ensures var r := After(t, run);
      if !r.stale then
        r.latest.Some? && r.latest.value in r.delivered && r.floor.None?
        && forall s :: s in r.delivered ==> s.revision <= r.latest.value.revision
      else if r.floor.Some? then
        && r.latest.Some? && r.latest.value.revision < r.floor.value
        && (exists s :: s in r.delivered && s.revision == r.floor.value)
        && forall s :: s in r.delivered ==> s.revision <= r.floor.value
      else r.delivered == []
  {
    RunKeepsInv(t, run);
    var r := After(t, run);
    if r.floor.Some? {
      var i :| 0 <= i < |r.delivered| && r.delivered[i].revision == r.floor.value;
      assert r.delivered[i] in r.delivered;
    }
  }

  /** A target that has had a state, is stale and not closed has its recovery task under way. */
  predicate UnderWay(t: Remote) {
    t.stale && t.latest.Some? && !t.closed ==> t.resync.Some?
  }

  /** A pause raises while the target still needs its recovery. */
  predicate Breaks(t: Remote, s: Step) {
    s == DoWake(Broke) && t.stale && t.latest.Some? && !t.closed
  }

  /** The one step after which nobody recovers a stale target. */
  lemma StepKeepsUnderWay(t: Remote, s: Step)
    requires Inv(t) && UnderWay(t) && Enabled(t, s)
    ensures UnderWay(Apply(t, s)) <==> !Breaks(t, s)
  {
  }

  predicate SomePauseBreaks(t: Remote, run: seq<Step>)
    requires Legal(t, run)
    decreases |run|
  {
    run != [] && (Breaks(t, run[0]) || SomePauseBreaks(Apply(t, run[0]), run[1..]))
  }

  /** Recovery is under way in every state that the run passes through. */
  predicate AlwaysUnderWay(t: Remote, run: seq<Step>)
    requires Legal(t, run)
    decreases |run|
  {
    UnderWay(t) && (run == [] || AlwaysUnderWay(Apply(t, run[0]), run[1..]))
  }

  lemma {:induction false} AlwaysUnderWayIff(t: Remote, run: seq<Step>)
    requires Inv(t) && UnderWay(t) && Legal(t, run)
    ensures AlwaysUnderWay(t, run) <==> !SomePauseBreaks(t, run)
    ensures AlwaysUnderWay(t, run) ==> UnderWay(After(t, run))
    decreases |run|
  {
    if run != [] {
      StepKeepsUnderWay(t, run[0]);
      StepKeepsInv(t, run[0]);
      if UnderWay(Apply(t, run[0])) {
        AlwaysUnderWayIff(Apply(t, run[0]), run[1..]);
      }
    }
  }

  /**
   A stale target has its recovery task under way throughout a run exactly if no
   pause raises while it is needed; and on every run the task pauses for the base
   delay doubled and capped.
   */
  lemma RecoveryIsUnderWay(t: Remote, run: seq<Step>)
    requires Initial(t) && Legal(t, run)
    ensures var r := After(t, run);
      && (AlwaysUnderWay(t, run) <==> !SomePauseBreaks(t, run))
      && (!SomePauseBreaks(t, run) ==> UnderWay(r))
      && (r.resync.Some? ==> r.resync.value.delay == Min(t.maxDelay, Doubled(t.baseDelay, r.resync.value.pauses)))
  {
    RunKeepsInv(t, run);
    RunKeepsDelays(t, run);
    AlwaysUnderWayIff(t, run);
  }

  /** A run that leaves a stale target without recovery. */
  lemma LeftWithoutRecovery(t: Remote, state: Snapshot)
    requires Initial(t)
    ensures var run := [DoEvent(true, StateEvent(state, true)), DoLose, DoWake(Broke)];
      Legal(t, run) && !UnderWay(After(t, run)) && After(t, run).latest == Some(state)
  {
    var run := [DoEvent(true, StateEvent(state, true)), DoLose, DoWake(Broke)];
    var a := Apply(t, run[0]);
    var b := Apply(a, run[1]);
    var c := Apply(b, run[2]);
    assert run[1..][1..][1..] == [];
    assert Legal(c, run[1..][1..][1..]);
    assert Legal(b, run[1..][1..]);
    assert Legal(a, run[1..]);
    assert After(t, run) == After(a, run[1..]) == After(b, run[1..][1..]) == After(c, run[1..][1..][1..]) == c;
  }

  /** A target left without recovery starts it again, or recovers, with the next delivery, and with the next loss. */
  lemma RecoveryStartsAgain(t: Remote, state: Snapshot)
    requires Inv(t) && t.stale && t.latest.Some? && !t.closed
    ensures UnderWay(Deliver(t, state)) && UnderWay(Lose(t))
  {
  }

  lemma {:induction false} RunKeepsDelays(t: Remote, run: seq<Step>)
    requires Legal(t, run)
    ensures After(t, run).baseDelay == t.baseDelay && After(t, run).maxDelay == t.maxDelay
    decreases |run|
  {
    if run != [] {
      RunKeepsDelays(Apply(t, run[0]), run[1..]);
    }
  }

  /** Within a stale period the target recovers with exactly the deliveries that clear the floor. */
  lemma RecoversIff(t: Remote, state: Snapshot)
    requires Inv(t) && t.stale
    ensures !Deliver(t, state).stale <==>
      forall i :: 0 <= i < |t.delivered| ==> t.delivered[i].revision <= state.revision
    ensures !Deliver(t, state).stale ==> Deliver(t, state).latest == Some(state)
  {
    if t.floor.Some? {
      var i :| 0 <= i < |t.delivered| && t.delivered[i].revision == t.floor.value;
    }
  }

  // ---- what counts, what is passed on, and what is shown -------------------------------------

  /** Only a valid state of this device counts as a delivery, until the target is closed; nothing else changes it. */
  lemma OnlyOwnStatesCount(t: Remote, mine: bool, e: DeviceEvent)
    ensures var r := OnEvent(t, mine, e);
      if !t.closed && mine && e.StateEvent? && e.valid
      then r == Deliver(t, e.state) && r.delivered == t.delivered + [e.state]
      else r == t
  {
  }

  /**
   A valid state is passed on exactly if the target was stale or had none, or if
   it changes what the target holds or knows to be missing; other events of this
   device always are, and those of another never.
   */
  lemma PassedOnExactlyWhen(t: Remote, mine: bool, e: DeviceEvent)
    requires Inv(t)
    ensures Passed(t, mine, e) <==>
      && !t.closed && mine
      && (e.OtherEvent?
          || (e.valid && (t.stale || Deliver(t, e.state).latest != t.latest || Deliver(t, e.state).floor != t.floor)))
  {
  }

  /** A recovery task under way is left alone by whatever arrives; one that is needed begins with a request. */
  lemma RecoveryIsNotRestarted(t: Remote, state: Snapshot)
    requires !t.closed
    ensures t.resync.Some? ==> Deliver(t, state).resync == t.resync == Lose(t).resync
    ensures t.resync.None? ==> Lose(t).resync == Some(Resync(Asking, t.baseDelay, 0))
    ensures t.resync.None? && Deliver(t, state).resync.Some? ==>
      Deliver(t, state).stale && Deliver(t, state).resync == Some(Resync(Asking, t.baseDelay, 0))
  {
  }

  /** One stretch of the recovery task leads from one way of waiting to the next, and pauses between two requests. */
  predicate Leads(before: Resync, w: Wake, after: Resync) {
    match after.phase
    case Waiting => before.phase.Asking? && w.Answered? && after.pauses == before.pauses && after.delay == before.delay
    case Pausing =>
      && ((before.phase.Asking? && w.Failed?) || before.phase.Waiting?)
      && after.pauses == before.pauses && after.delay == before.delay
    case Asking => before.phase.Pausing? && after.pauses == before.pauses + 1
  }

  /** The task ends exactly if its pause raises or nothing is left to recover; otherwise it goes on in this order. */
  lemma WakeLeadsOn(t: Remote, w: Wake)
    requires Inv(t) && CanWake(t, w)
    ensures var r := Continue(t, w);
      && r == t.(resync := r.resync)
      && (r.resync.Some? <==> w != Broke && t.stale)
      && (r.resync.Some? ==> Leads(t.resync.value, w, r.resync.value))
  {
  }

  /** Offline is shown exactly for a target that is not connected, degraded for one that is, but stale. */
  lemma ConnectionShown(connected: bool, stale: bool)
    ensures LiveConnection(connected, stale).Offline? <==> !connected
    ensures LiveConnection(connected, stale).Degraded? <==> connected && stale
    ensures LiveConnection(connected, stale).Ready? <==> connected && !stale
  {
  }

  // ---- the object ---------------------------------------------------------------------------------------

  /** What the router sees: offline, degraded or ready. */
  function LiveConnection(connected: bool, stale: bool): Connection {
    if !connected then Offline else if stale then Degraded else Ready
  }

  class RemoteTarget {
    const deviceId: string
    const baseDelay: real
    const maxDelay: real
    var latestSnapshot: Option<Snapshot>
    var snapshotStale: bool
    var recoveryFloor: Option<int>
    var resync: Option<Resync>
    var closed: bool
    ghost var delivered: seq<Snapshot>

    ghost function View(): Remote
      reads this
    {
      Remote.Remote(latestSnapshot, snapshotStale, recoveryFloor, resync, closed, baseDelay, maxDelay, delivered)
    }

    ghost predicate Valid()
      reads this
    {
      Inv(View())
    }

    constructor (deviceId: string, baseDelay: real, maxDelay: real)
      requires 0.0 < baseDelay <= maxDelay
      ensures Valid() && Initial(View()) && this.deviceId == deviceId
      ensures this.baseDelay == baseDelay && this.maxDelay == maxDelay
    {
      this.deviceId := deviceId;
      this.baseDelay := baseDelay;
      this.maxDelay := maxDelay;
      latestSnapshot := None;
      snapshotStale := true;
      recoveryFloor, resync, closed := None, None, false;
      delivered := [];
    }

    method EnsureResyncTask()
      modifies this`resync
      ensures View() == EnsureResync(old(View()))
    {
      if closed || resync.Some? {
        return;
      }
      resync := Some(Resync(Asking, baseDelay, 0));
    }

    method RaiseRecoveryFloor(revision: int)
      modifies this`recoveryFloor
      ensures recoveryFloor ==
        if old(recoveryFloor).None? || revision > old(recoveryFloor).value then Some(revision) else old(recoveryFloor)
    {
      if recoveryFloor.None? || revision > recoveryFloor.value {
        recoveryFloor := Some(revision);
      }
    }

    method HoldState(state: Snapshot)
      modifies this`latestSnapshot, this`snapshotStale, this`recoveryFloor
      ensures View() == Hold(old(View()), state)
    {
      latestSnapshot := Some(state);
      snapshotStale := false;
      recoveryFloor := None;
    }

    /** The state part of _on_event. */
    method TakeState(state: Snapshot) returns (passed: bool)
      modifies this
      ensures View() == Deliver(old(View()), state)
      ensures passed <==>
        old(latestSnapshot).None? || old(snapshotStale)
        || state.revision > old(latestSnapshot).value.revision
    {
      delivered := delivered + [state];
      passed := true;
      if latestSnapshot.None? {
        HoldState(state);
      } else if snapshotStale {
        if recoveryFloor.Some? && state.revision < recoveryFloor.value {
          EnsureResyncTask();
        } else {
          HoldState(state);
        }
      } else if state.revision <= latestSnapshot.value.revision {
        passed := false;
      } else if state.revision > latestSnapshot.value.revision + 1 {
        snapshotStale := true;
        RaiseRecoveryFloor(state.revision);
        EnsureResyncTask();
      } else {
        HoldState(state);
      }
    }

    method OnStateEvent(eventDevice: Option<string>, state: Snapshot) returns (passed: bool)
      requires Valid()
      modifies this
      ensures var e := StateEvent(state, ValidState(state, Some(deviceId)));
        var mine := eventDevice.None? || eventDevice.value == deviceId;
        Valid() && View() == OnEvent(old(View()), mine, e) && passed == Passed(old(View()), mine, e)
    {
      if closed || (eventDevice.Some? && eventDevice.value != deviceId) {
        return false;
      }
      var ok := ValidateState(state, Some(deviceId));
      if !ok {
        return false;
      }
      DeliverKeepsInv(View(), state);
      passed := TakeState(state);
    }

    method LoseDevice()
      requires Valid()
      modifies this
      ensures Valid() && View() == Lose(old(View()))
    {
      StepKeepsInv(View(), DoLose);
      snapshotStale := true;
      recoveryFloor := None;
      delivered := [];
      EnsureResyncTask();
    }

    /** One stretch of _resync_state between two suspensions. */
    method ContinueResync(w: Wake)
      requires Valid() && CanWake(View(), w)
      modifies this
      ensures Valid() && View() == Continue(old(View()), w)
    {
      WakeKeepsInv(View(), w);
      var task := resync.value;
      if w == Broke {
        resync := None;
        return;
      }
      if task.phase == Asking && w == Answered {
        resync := if snapshotStale then Some(task.(phase := Waiting)) else None;
        return;
      }
      if closed || !snapshotStale {
        resync := None;
        return;
      }
      if task.phase == Pausing {
        resync := Some(Resync(Asking, Min(maxDelay, task.delay * 2.0), task.pauses + 1));
      } else {
        resync := Some(task.(phase := Pausing));
      }
    }

    method Close()
      requires Valid()
      modifies this
      ensures Valid() && View() == Apply(old(View()), DoClose)
    {
      closed := true;
      resync := None;
    }

    /** snapshot(): the held state with the live connection; a target without one raises. */
    method Snapshot(connected: bool) returns (r: Option<Snapshot>)
      requires Valid()
      ensures r.Some? <==> View().latest.Some?
      ensures r.Some? ==>
        r.value == latestSnapshot.value.(connection := LiveConnection(connected && !closed, snapshotStale))
      ensures r.Some? && r.value.connection == Ready ==>
        connected && !closed && forall s :: s in delivered ==> s.revision <= r.value.revision
    {
      if latestSnapshot.None? {
        return None;
      }
      r := Some(latestSnapshot.value.(connection := LiveConnection(connected && !closed, snapshotStale)));
    }
  }
}
