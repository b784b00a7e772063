/** The router as an object: its fields change in place, one abstract step at a time. */
module RouterObject {
  import opened Common
  import opened Protocol
  import opened Routing
  import opened RouterSafety

  /** What a snapshot call or an event payload brings before validation. */
  datatype Raw = Unreadable | Shapeless(revision: Option<int>) | Shaped(state: Snapshot)

  ghost function ReadingOf(raw: Raw): Reading {
    match raw
    case Unreadable => Raised
    case Shapeless(revision) => Partial(revision)
    case Shaped(state) => if ValidState(state, Some(state.deviceId)) then Complete(state)
      else Partial(Some(state.revision))
  }

  /** _valid_full_snapshot. */
  method Read(raw: Raw) returns (reading: Reading)
    ensures reading == ReadingOf(raw)
  {
    match raw
    case Unreadable => reading := Raised;
    case Shapeless(revision) => reading := Partial(revision);
    case Shaped(state) =>
      var ok := ValidateState(state, Some(state.deviceId));
      reading := if ok then Complete(state) else Partial(Some(state.revision));
  }

  class TargetRouter {
    const targets: set<TargetId>
    var activeTargetId: Option<TargetId>
    var targetEpoch: nat
    var currentState: Option<Snapshot>
    var stateStale: bool
    var transportStale: bool
    var staleRevisionFloor: Option<int>
    var starting: bool
    var started: bool
    var startFailed: bool
    var closed: bool
    var inflight: map<TaskId, (TargetId, nat)>
    var activations: seq<Activation>
    var activeUnsubscribe: Option<nat>
    // selections between their phases: local variables of the calls under way
    var selections: map<SelectionId, Selection>
    ghost var history: seq<Note>

    ghost function Picture(): Mirror
      reads this`currentState, this`stateStale, this`transportStale, this`staleRevisionFloor, this`history
    {
      Mirror(currentState, stateStale, transportStale, staleRevisionFloor, history)
    }

    ghost function View(): Router
      reads this
    {
      Router(targets, activeTargetId, targetEpoch, Picture(), starting, started, startFailed, closed,
                    inflight, activations, activeUnsubscribe, selections)
    }

    ghost predicate Valid()
      reads this
    {
      Inv(View())
    }

    constructor (targets: set<TargetId>, activeTargetId: Option<TargetId>)
      ensures Valid() && Initial(View()) && View().targets == targets && View().active == activeTargetId
    {
      this.targets := targets;
      this.activeTargetId := activeTargetId;
      targetEpoch := if activeTargetId.Some? then 1 else 0;
      currentState := None;
      stateStale, transportStale, staleRevisionFloor := false, false, None;
      starting, started, startFailed, closed := false, false, false, false;
      inflight, activations, activeUnsubscribe, selections := map[], [], None, map[];
      history := [];
    }

    // ---- the mirror ------------------------------------------------------------------------

    method LoseTransport()
      modifies this`stateStale, this`transportStale, this`staleRevisionFloor, this`history
      ensures Picture() == MarkLost(old(Picture()))
    {
      stateStale := true;
      transportStale := true;
      staleRevisionFloor := None;
      history := history + [Lost];
    }

    method Take(state: Snapshot)
      modifies this`currentState, this`stateStale, this`transportStale, this`staleRevisionFloor, this`history
      ensures Picture() == Adopt(old(Picture()), state)
    {
      currentState := Some(state);
      stateStale := false;
      transportStale := false;
      staleRevisionFloor := None;
      history := history + [Adopted(state.revision)];
    }

    method RaiseStaleRevisionFloor(revision: int)
      modifies this`staleRevisionFloor, this`history
      ensures Picture() == RaiseFloor(old(Picture()), revision)
    {
      if staleRevisionFloor.None? || revision > staleRevisionFloor.value {
        staleRevisionFloor := Some(revision);
      }
      history := history + [Gap(revision)];
    }

    method AuthoritativeSnapshot(view: TargetView, revision: int, current: int, reset: bool)
      returns (r: Option<Snapshot>)
      ensures r == Authoritative(Picture(), view, revision, current, reset)
    {
      if !view.reading.Complete? || view.stale {
        return None;
      }
      if view.reading.state.revision != revision {
        return None;
      }
      if !reset && revision <= current {
        return None;
      }
      if !reset && staleRevisionFloor.Some? && revision < staleRevisionFloor.value {
        return None;
      }
      r := Some(view.reading.state);
    }

    method ProcessStateUpdate(payload: Reading, view: TargetView)
      returns (forward: bool, diagnostic: Option<RouterError>)
      requires currentState.Some?
      modifies this`currentState, this`stateStale, this`transportStale, this`staleRevisionFloor, this`history
      ensures Processed(Picture(), forward, diagnostic) == ProcessState(old(Picture()), payload, view)
    {
      forward, diagnostic := false, None;
      var parsed := RevisionOf(payload);
      if parsed.None? {
        return;
      }
      var revision, current := parsed.value, currentState.value.revision;
      if transportStale {
        var reset := AuthoritativeSnapshot(view, revision, current, true);
        if reset.Some? {
          Take(reset.value);
          forward := true;
          return;
        }
      }
      if revision <= current {
        return;
      }
      if revision > current + 1 {
        RaiseStaleRevisionFloor(revision);
      }
      var state := AuthoritativeSnapshot(view, revision, current, false);
      if state.Some? && (stateStale || revision > current + 1) {
        Take(state.value);
        forward := true;
      } else if stateStale || revision > current + 1 {
        stateStale := true;
        diagnostic := Some(RevisionGap);
        forward := true;
      } else if !payload.Complete? {
        stateStale := true;
        diagnostic := Some(InvalidState);
      } else {
        Take(payload.state);
        forward := true;
      }
    }

    /** _process_target_event, once its activation is ready. */
    method ProcessTargetEvent(k: nat, e: TargetEvent, view: TargetView)
      returns (forward: bool, diagnostic: Option<RouterError>)
      requires Valid() && Enabled(View(), DoEvent(k, e, view))
      modifies this
      ensures Valid() && View() == Routing.Apply(old(View()), DoEvent(k, e, view))
      ensures forward == ProcessEvent(old(View()), old(View()).activations[k], e, view).forward
      ensures diagnostic == ProcessEvent(old(View()), old(View()).activations[k], e, view).diagnostic
    {
      StepKeepsInv(View(), DoEvent(k, e, view));
      forward, diagnostic := false, None;
      var a := activations[k];
      if !a.committed || closed || activeTargetId != Some(a.target) || a.epoch != targetEpoch {
        return;
      }
      match e
      case OtherUpdate => forward := true;
      case StateUpdate(payload) => forward, diagnostic := ProcessStateUpdate(payload, view);
    }

    /** A state shown as ready is fresh, and nothing but the connection is changed in it. */
    method Snapshot(connection: Option<Connection>) returns (shown: Option<Snapshot>)
      requires Valid()
      modifies this
      ensures Valid() && View() == Look(old(View()), connection)
      ensures shown == Shown(old(View()), connection)
      ensures shown.Some? <==> currentState.Some?
      ensures shown.Some? ==> shown.value == currentState.value.(connection := shown.value.connection)
      ensures shown.Some? && shown.value.connection == Ready ==> !stateStale
    {
      StepKeepsInv(View(), DoLook(connection));
      NoticeConnection(connection);
      if currentState.None? {
        return None;
      }
      var state := currentState.value;
      if activeTargetId.Some? && connection.Some? && connection.value != Connecting {
        state := state.(connection := connection.value);
      }
      if stateStale && state.connection == Ready {
        state := state.(connection := Degraded);
      }
      shown := Some(state);
    }

    method NoticeConnection(connection: Option<Connection>)
      modifies this`stateStale, this`transportStale, this`staleRevisionFloor, this`history
      ensures View() == Look(old(View()), connection)
    {
      if activeTargetId.Some? && (connection == Some(Degraded) || connection == Some(Offline)) {
        LoseTransport();
      }
    }

    // ---- starting and closing ------------------------------------------------------------------

    /** Subscribes a handler of its own to the target. */
    method Activate(target: TargetId, epoch: nat) returns (k: nat)
      modifies this`activations
      ensures k == |old(activations)| && activations == old(activations) + [Activation(target, epoch, false, false)]
    {
      k := |activations|;
      activations := activations + [Activation(target, epoch, false, false)];
    }

    method PrepareStart(targetsStart: bool, view: TargetView, subscribes: bool)
      requires Valid() && CanPrepareStart(View())
      modifies this
      ensures Valid() && View() == Routing.PrepareStart(old(View()), targetsStart, view, subscribes)
    {
      StepKeepsInv(View(), DoPrepareStart(targetsStart, view, subscribes));
      starting := true;
      if !targetsStart {
        startFailed, closed := true, true;
      } else if activeTargetId.Some? {
        if !view.reading.Complete? || !subscribes {
          startFailed, closed := true, true;
        } else {
          var k := Activate(activeTargetId.value, targetEpoch);
          var startup := Selection(activeTargetId.value, activeTargetId, targetEpoch, k, view.reading.state);
          selections := selections[STARTUP := startup];
        }
      }
    }

    method BeginMirror(state: Snapshot, stale: bool, lost: bool)
      modifies this`currentState, this`stateStale, this`transportStale, this`staleRevisionFloor, this`history
      ensures Picture() == Begin(old(Picture()), state, stale, lost)
    {
      currentState := Some(state);
      stateStale := stale;
      transportStale := lost;
      staleRevisionFloor := None;
      history := history + [Began(state.revision, lost)];
    }

    /** A pending selection is decided: its handler may go on, and knows whether it was committed. */
    method Decide(id: SelectionId, committed: bool)
      requires id in selections && selections[id].activation < |activations|
      modifies this`selections, this`activations
      ensures selections == old(selections) - {id}
      ensures activations == SetActivation(old(View()), old(selections)[id].activation, committed).activations
    {
      var k := selections[id].activation;
      selections := selections - {id};
      activations := activations[k := activations[k].(committed := committed, ready := true)];
    }

    method CommitStart(targetStale: bool)
      requires Valid() && CanCommitStart(View())
      modifies this
      ensures Valid() && View() == Routing.CommitStart(old(View()), targetStale)
    {
      StepKeepsInv(View(), DoCommitStart(targetStale));
      if STARTUP !in selections {
        if !closed {
          started := true;
        }
        return;
      }
      assert SelectionOk(View(), STARTUP);
      DecideStart(targetStale);
    }

    method DecideStart(targetStale: bool)
      requires STARTUP in selections && selections[STARTUP].activation < |activations|
      modifies this
      ensures View() == Routing.CommitStart(old(View()), targetStale)
    {
      var s := selections[STARTUP];
      Decide(STARTUP, !closed);
      if !closed {
        started := true;
        BeginMirror(s.state, targetStale, transportStale);
        activeUnsubscribe := Some(s.activation);
      }
    }

    method Close()
      requires Valid()
      modifies this
      ensures Valid() && View() == Routing.Apply(old(View()), DoClose)
    {
      StepKeepsInv(View(), DoClose);
      closed := true;
    }

    // ---- selecting -------------------------------------------------------------------------------

    method CheckSelection(leaseOk: bool, target: TargetId) returns (error: Option<RouterError>)
      ensures error == SelectionError(View(), leaseOk, target)
    {
      if closed {
        return Some(if startFailed then StartFailed else RouterClosed);
      }
      if !started {
        return Some(RouterNotStarted);
      }
      if !leaseOk {
        return Some(InvalidControlLease);
      }
      if target !in targets {
        return Some(UnknownTarget);
      }
      if activeTargetId == Some(target) {
        return None;
      }
      if exists t :: t in inflight && inflight[t].1 == targetEpoch {
        return Some(TargetBusy);
      }
      if currentState.Some? && (currentState.value.motion.kind == Moving || currentState.value.queueSize > 0) {
        return Some(TargetBusy);
      }
      error := None;
    }

    method BeginSelection(id: SelectionId, leaseOk: bool, target: TargetId, view: TargetView, subscribes: bool)
      returns (result: SelectResult)
      requires Valid() && id != STARTUP && id !in selections
      modifies this
      ensures Valid() && View() == BeginSelect(old(View()), id, leaseOk, target, view, subscribes)
      ensures result == BeginResult(old(View()), leaseOk, target, view, subscribes)
    {
      BeginSelectKeepsInv(View(), id, leaseOk, target, view, subscribes);
      result := TrySelection(id, leaseOk, target, view, subscribes);
    }

    method TrySelection(id: SelectionId, leaseOk: bool, target: TargetId, view: TargetView, subscribes: bool)
      returns (result: SelectResult)
      requires id != STARTUP && id !in selections
      modifies this
      ensures View() == BeginSelect(old(View()), id, leaseOk, target, view, subscribes)
      ensures result == BeginResult(old(View()), leaseOk, target, view, subscribes)
    {
      var error := CheckSelection(leaseOk, target);
      if error.Some? {
        return SelectRefused(error.value);
      }
      if activeTargetId == Some(target) {
        return Selected(targetEpoch);
      }
      match view.reading
      case Raised => result := SelectRefused(TargetSnapshotFailed);
      case Partial(_) => result := SelectRefused(InvalidTargetSnapshot);
      case Complete(state) =>
        if !subscribes {
          return SelectRefused(TargetSubscriptionFailed);
        }
        var k := Activate(target, targetEpoch + 1);
        selections := selections[id := Selection(target, activeTargetId, targetEpoch, k, state)];
        result := Prepared;
    }

    method CommitSelection(id: SelectionId, leaseOk: bool, targetStale: bool) returns (result: SelectResult)
      requires Valid() && id != STARTUP && id in selections
      modifies this
      ensures Valid() && View() == CommitSelect(old(View()), id, leaseOk, targetStale)
      ensures var error := CommitError(old(View()), old(View()).selections[id], leaseOk);
        result == if error.Some? then SelectRefused(error.value) else Selected(old(targetEpoch) + 1)
    {
      CommitSelectKeepsInv(View(), id, leaseOk, targetStale);
      assert SelectionOk(View(), id);
      result := DecideSelection(id, leaseOk, targetStale);
    }

    /** Everything that was checked at first, and that nothing was selected since. */
    method CheckCommit(s: Selection, leaseOk: bool) returns (error: Option<RouterError>)
      ensures error == CommitError(View(), s, leaseOk)
    {
      error := CheckSelection(leaseOk, s.target);
      if error.None? && (activeTargetId != s.previous || targetEpoch != s.previousEpoch) {
        error := Some(StaleTargetEpoch);
      }
    }

    method DecideSelection(id: SelectionId, leaseOk: bool, targetStale: bool) returns (result: SelectResult)
      requires id in selections && selections[id].activation < |activations|
      modifies this
      ensures View() == CommitSelect(old(View()), id, leaseOk, targetStale)
      ensures var error := CommitError(old(View()), old(View()).selections[id], leaseOk);
        result == if error.Some? then SelectRefused(error.value) else Selected(old(targetEpoch) + 1)
    {
      ghost var before := View();
      var s := selections[id];
      var error := CheckCommit(s, leaseOk);
      Decide(id, error.None?);
      if error.Some? {
        return SelectRefused(error.value);
      }
      Switch(s, targetStale);
      IsCommitted(before, View(), id, leaseOk, targetStale);
      result := Selected(targetEpoch);
    }

    method Switch(s: Selection, targetStale: bool)
      modifies this`activeTargetId, this`targetEpoch, this`activeUnsubscribe
      modifies this`currentState, this`stateStale, this`transportStale, this`staleRevisionFloor, this`history
      ensures activeTargetId == Some(s.target) && targetEpoch == s.previousEpoch + 1
      ensures activeUnsubscribe == Some(s.activation)
      ensures Picture() == Begin(old(Picture()), s.state, targetStale, targetStale)
    {
      activeTargetId := Some(s.target);
      targetEpoch := s.previousEpoch + 1;
      BeginMirror(s.state, targetStale, targetStale);
      activeUnsubscribe := Some(s.activation);
    }

    // ---- routing -----------------------------------------------------------------------------------

    /** _route_error. */
    method CheckRoute(leaseOk: bool, epoch: nat, c: Routed, view: TargetView) returns (error: Option<RouterError>)
      modifies this`stateStale, this`transportStale, this`staleRevisionFloor, this`history
      ensures Picture() == Noticed(old(View()), leaseOk, epoch, view)
      ensures error == RouteError(old(View()), leaseOk, epoch, c, view)
    {
      if closed {
        return Some(if startFailed then StartFailed else RouterClosed);
      }
      if !started {
        return Some(RouterNotStarted);
      }
      if !leaseOk {
        return Some(InvalidControlLease);
      }
      if epoch != targetEpoch {
        return Some(StaleTargetEpoch);
      }
      if activeTargetId.None? {
        return Some(NoActiveTarget);
      }
      if view.stale {
        LoseTransport();
      }
      if stateStale && c.commandType != DeviceGetState {
        return Some(StateStale);
      }
      if c.deviceId.Some? && c.deviceId.value != view.deviceId {
        return Some(TargetMismatch);
      }
      var commands := if currentState.Some? then currentState.value.capabilities.commands else map[];
      if c.commandType != DeviceGetState && c.commandType !in commands {
        return Some(UnsupportedCapability);
      }
      if c.commandType in commands && commands[c.commandType] == SystemScope {
        return Some(SystemCommandForbidden);
      }
      error := None;
    }

    method BeginRoute(task: TaskId, leaseOk: bool, epoch: nat, c: Routed, view: TargetView)
      returns (error: Option<RouterError>)
      requires Valid() && task !in inflight
      modifies this
      ensures Valid() && View() == Routing.BeginRoute(old(View()), task, leaseOk, epoch, c, view)
      ensures error == RouteError(old(View()), leaseOk, epoch, c, view)
    {
      RouteKeepsInv(View(), task, leaseOk, epoch, c, view);
      error := EnterRoute(task, leaseOk, epoch, c, view);
    }

    method EnterRoute(task: TaskId, leaseOk: bool, epoch: nat, c: Routed, view: TargetView)
      returns (error: Option<RouterError>)
      modifies this`inflight, this`stateStale, this`transportStale, this`staleRevisionFloor, this`history
      ensures View() == Routing.BeginRoute(old(View()), task, leaseOk, epoch, c, view)
      ensures error == RouteError(old(View()), leaseOk, epoch, c, view)
    {
      ghost var before := View();
      error := CheckRoute(leaseOk, epoch, c, view);
      if error.None? {
        inflight := inflight[task := (activeTargetId.value, epoch)];
      }
      IsBegunRoute(before, View(), task, leaseOk, epoch, c, view);
    }

    method EndRoute(task: TaskId)
      requires Valid() && task in inflight
      modifies this
      ensures Valid() && View() == Routing.EndRoute(old(View()), task)
    {
      StepKeepsInv(View(), DoEndRoute(task));
      inflight := inflight - {task};
    }
  }

  // ---- steps, field by field ---------------------------------------------------------------------

  lemma IsCommitted(r: Router, p: Router, id: SelectionId, leaseOk: bool, stale: bool)
    requires id in r.selections && r.selections[id].activation < |r.activations|
    requires CommitError(r, r.selections[id], leaseOk).None?
    requires p.active == Some(r.selections[id].target) && p.epoch == r.selections[id].previousEpoch + 1
    requires p.mirror == Begin(r.mirror, r.selections[id].state, stale, stale)
    requires p.subscription == Some(r.selections[id].activation) && p.selections == r.selections - {id}
    requires p.activations == SetActivation(r, r.selections[id].activation, true).activations
    requires p.targets == r.targets && p.starting == r.starting && p.started == r.started
    requires p.startFailed == r.startFailed && p.closed == r.closed && p.inflight == r.inflight
    ensures p == CommitSelect(r, id, leaseOk, stale)
  {
  }

  lemma IsBegunRoute(r: Router, p: Router, task: TaskId, leaseOk: bool, epoch: nat, c: Routed, view: TargetView)
    requires p == r.(mirror := Noticed(r, leaseOk, epoch, view), inflight := p.inflight)
    requires r.active.None? ==> RouteError(r, leaseOk, epoch, c, view).Some?
    requires p.inflight ==
      if RouteError(r, leaseOk, epoch, c, view).Some? then r.inflight
      else r.inflight[task := (r.active.value, epoch)]
    ensures p == Routing.BeginRoute(r, task, leaseOk, epoch, c, view)
  {
  }
}
