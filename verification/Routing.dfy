/**
 The target router: one active target, two-phase switches guarded by an epoch,
 and a mirror of the active target's state.

 A selection is two steps with anything in between; an event of any activation,
 current or not, may be processed at any time once the activation is ready.
 What a target answers in a step is a parameter of that step.
 */
module Routing {
  import opened Common
  import opened Protocol

  type TargetId = string
  type TaskId = nat
  type SelectionId = nat

  /** A snapshot or an event payload: complete and valid, or at best a revision. */
  datatype Reading = Raised | Partial(revision: Option<int>) | Complete(state: Snapshot)

  /** What the active target says within one step. */
  datatype TargetView = TargetView(reading: Reading, stale: bool, connection: Option<Connection>, deviceId: string)

  datatype RouterError =
    | RouterClosed | StartFailed | RouterNotStarted | InvalidControlLease | UnknownTarget | TargetBusy
    | InvalidTargetSnapshot | TargetSnapshotFailed | TargetSubscriptionFailed | StaleTargetEpoch
    | NoActiveTarget | StateStale | TargetMismatch | UnsupportedCapability | SystemCommandForbidden
    | RevisionGap | InvalidState

  /** The dictionary a subscription's handler shares with the selection that made it. */
  datatype Activation = Activation(target: TargetId, epoch: nat, committed: bool, ready: bool)

  /** A selection between its two phases. */
  datatype Selection = Selection(target: TargetId, previous: Option<TargetId>, previousEpoch: nat, activation: nat,
                                 state: Snapshot)

  /** What happens to the mirror, in order. */
  datatype Note =
    | Began(revision: int, lost: bool)
    | Lost
    | Gap(revision: int)
    | Adopted(revision: int)

  /** The router's picture of the active target. */
  datatype Mirror = Mirror(state: Option<Snapshot>, stale: bool, transportStale: bool, floor: Option<int>,
                           history: seq<Note>)

  datatype Router = Router(
    targets: set<TargetId>,
    active: Option<TargetId>,
    epoch: nat,
    mirror: Mirror,
    starting: bool,
    started: bool,
    startFailed: bool,
    closed: bool,
    inflight: map<TaskId, (TargetId, nat)>,
    activations: seq<Activation>,
    subscription: Option<nat>,
    selections: map<SelectionId, Selection>)

  function TerminalError(r: Router): RouterError {
    if r.startFailed then StartFailed else RouterClosed
  }

  // ---- the mirror -----------------------------------------------------------------------

  function RevisionOf(reading: Reading): Option<int> {
    match reading
    case Raised => None
    case Partial(revision) => if revision.Some? && revision.value >= 0 then revision else None
    case Complete(state) => Some(state.revision)
  }

  function MarkLost(m: Mirror): Mirror {
    Mirror(m.state, true, true, None, m.history + [Lost])
  }

  function Adopt(m: Mirror, state: Snapshot): Mirror {
    Mirror(Some(state), false, false, None, m.history + [Adopted(state.revision)])
  }

  function RaiseFloor(m: Mirror, revision: int): Mirror {
    m.(floor := if m.floor.None? || revision > m.floor.value then Some(revision) else m.floor,
       history := m.history + [Gap(revision)])
  }

  /** The mirror at the beginning of a selection. */
  function Begin(m: Mirror, state: Snapshot, stale: bool, lost: bool): Mirror {
    Mirror(Some(state), stale, lost, None, m.history + [Began(state.revision, lost)])
  }

  /** _authoritative_snapshot: the target's own state, if it is the one the event announces. */
  function Authoritative(m: Mirror, view: TargetView, revision: int, current: int, reset: bool): Option<Snapshot> {
    if && view.reading.Complete? && !view.stale && view.reading.state.revision == revision
       && (reset || (revision > current && (m.floor.None? || revision >= m.floor.value)))
    then Some(view.reading.state) else None
  }

  /** The mirror after a state event, whether the event is forwarded, and what is reported with it. */
  datatype Processed = Processed(mirror: Mirror, forward: bool, diagnostic: Option<RouterError>)

  function ProcessState(m: Mirror, payload: Reading, view: TargetView): Processed
    requires m.state.Some?
  {
    var current := m.state.value.revision;
    if RevisionOf(payload).None? then Processed(m, false, None)
    else
      var revision := RevisionOf(payload).value;
      var reset := Authoritative(m, view, revision, current, true);
      if m.transportStale && reset.Some? then Processed(Adopt(m, reset.value), true, None)
      else if revision <= current then Processed(m, false, None)
      else
        var gap := revision > current + 1;
        var raised := if gap then RaiseFloor(m, revision) else m;
        var state := Authoritative(raised, view, revision, current, false);
        if state.Some? && (m.stale || gap) then Processed(Adopt(raised, state.value), true, None)
        else if m.stale || gap then Processed(raised.(stale := true), true, Some(RevisionGap))
        else if !payload.Complete? then Processed(m.(stale := true), false, Some(InvalidState))
        else Processed(Adopt(m, payload.state), true, None)
  }

  /** An event other than a state update carries nothing the router looks at. */
  datatype TargetEvent = StateUpdate(payload: Reading) | OtherUpdate

  predicate IsCurrent(r: Router, a: Activation) {
    !r.closed && r.active == Some(a.target) && a.epoch == r.epoch
  }

  function ProcessEvent(r: Router, a: Activation, e: TargetEvent, view: TargetView): Processed {
    if !a.committed || !IsCurrent(r, a) then Processed(r.mirror, false, None)
    else
      match e
      case OtherUpdate => Processed(r.mirror, true, None)
      case StateUpdate(payload) =>
        if r.mirror.state.None? then Processed(r.mirror, false, None) else ProcessState(r.mirror, payload, view)
  }

  /** snapshot(): asking for the state notices a connection that is not ready. */
  function Look(r: Router, connection: Option<Connection>): Router {
    if r.active.Some? && (connection == Some(Degraded) || connection == Some(Offline))
    then r.(mirror := MarkLost(r.mirror)) else r
  }

  /** What snapshot() shows: the live connection, and never a ready one over a stale state. */
  function Shown(r: Router, connection: Option<Connection>): Option<Snapshot> {
    var live := r.active.Some? && connection.Some? && connection.value != Connecting;
    var looked := Look(r, connection).mirror;
    if looked.state.None? then None
    else
      var state := if live then looked.state.value.(connection := connection.value) else looked.state.value;
      Some(if looked.stale && state.connection == Ready then state.(connection := Degraded) else state)
  }

  // ---- starting ---------------------------------------------------------------------------

  function AddActivation(r: Router, target: TargetId, epoch: nat): Router {
    r.(activations := r.activations + [Activation(target, epoch, false, false)])
  }

  function SetActivation(r: Router, k: nat, committed: bool): Router {
    if k < |r.activations|
    then r.(activations := r.activations[k := r.activations[k].(committed := committed, ready := true)])
    else r
  }

  const STARTUP: SelectionId := 0

  /** The router may have been closed since start was called; then the second half commits nothing. */
  predicate CanPrepareStart(r: Router) {
    !r.starting && !r.started
  }

  /** _start up to the point where all targets run and the active one's snapshot and subscription are there. */
  function PrepareStart(r: Router, targetsStart: bool, view: TargetView, subscribes: bool): Router {
    if !targetsStart then r.(starting := true, startFailed := true, closed := true)
    else if r.active.None? then r.(starting := true)
    else if !view.reading.Complete? || !subscribes then r.(starting := true, startFailed := true, closed := true)
    else
      var selection := Selection(r.active.value, r.active, r.epoch, |r.activations|, view.reading.state);
      AddActivation(r, r.active.value, r.epoch).(starting := true, selections := r.selections[STARTUP := selection])
  }

  predicate CanCommitStart(r: Router) {
    r.starting && !r.started && !r.startFailed && (r.active.Some? ==> STARTUP in r.selections)
  }

  /** transportStale is left as it is. */
  function CommitStart(r: Router, stale: bool): Router {
    if STARTUP !in r.selections then (if r.closed then r else r.(started := true))
    else
      var s := r.selections[STARTUP];
      var done := SetActivation(r, s.activation, !r.closed).(selections := r.selections - {STARTUP});
      if r.closed then done
      else done.(started := true, mirror := Begin(r.mirror, s.state, stale, r.mirror.transportStale),
                 subscription := Some(s.activation))
  }

  // ---- selecting ---------------------------------------------------------------------------

  predicate Busy(r: Router) {
    || (exists t :: t in r.inflight && r.inflight[t].1 == r.epoch)
    || (r.mirror.state.Some? && (r.mirror.state.value.motion.kind == Moving || r.mirror.state.value.queueSize > 0))
  }

  function SelectionError(r: Router, leaseOk: bool, target: TargetId): Option<RouterError> {
    if r.closed then Some(TerminalError(r))
    else if !r.started then Some(RouterNotStarted)
    else if !leaseOk then Some(InvalidControlLease)
    else if target !in r.targets then Some(UnknownTarget)
    else if r.active == Some(target) then None
    else if Busy(r) then Some(TargetBusy)
    else None
  }

  datatype SelectResult = Selected(epoch: nat) | Prepared | SelectRefused(error: RouterError)

  /** First phase with the preparation: check, read the target, subscribe. */
  function BeginResult(r: Router, leaseOk: bool, target: TargetId, view: TargetView, subscribes: bool): SelectResult {
    var error := SelectionError(r, leaseOk, target);
    if error.Some? then SelectRefused(error.value)
    else if r.active == Some(target) then Selected(r.epoch)
    else if view.reading.Raised? then SelectRefused(TargetSnapshotFailed)
    else if !view.reading.Complete? then SelectRefused(InvalidTargetSnapshot)
    else if !subscribes then SelectRefused(TargetSubscriptionFailed)
    else Prepared
  }

  function BeginSelect(r: Router, id: SelectionId, leaseOk: bool, target: TargetId, view: TargetView,
                       subscribes: bool): Router {
    if BeginResult(r, leaseOk, target, view, subscribes).Prepared? then
      AddActivation(r, target, r.epoch + 1).(
        selections := r.selections[id := Selection(target, r.active, r.epoch, |r.activations|, view.reading.state)])
    else r
  }

  function CommitError(r: Router, s: Selection, leaseOk: bool): Option<RouterError> {
    var error := SelectionError(r, leaseOk, s.target);
    if error.Some? then error
    else if r.active != s.previous || r.epoch != s.previousEpoch then Some(StaleTargetEpoch)
    else None
  }

  /** Second phase: everything is checked again, then the switch is made at once. */
  function CommitSelect(r: Router, id: SelectionId, leaseOk: bool, stale: bool): Router
    requires id in r.selections
  {
    var s := r.selections[id];
    var ok := CommitError(r, s, leaseOk).None?;
    var done := SetActivation(r, s.activation, ok).(selections := r.selections - {id});
    if !ok then done
    else done.(active := Some(s.target), epoch := s.previousEpoch + 1, mirror := Begin(r.mirror, s.state, stale, stale),
               subscription := Some(s.activation))
  }

  // ---- routing -------------------------------------------------------------------------------

  datatype Routed = Routed(commandType: CommandType, deviceId: Option<string>)

  /** A command of the right epoch notices that its target has lost its state. */
  function Noticed(r: Router, leaseOk: bool, epoch: nat, view: TargetView): Mirror {
    if !r.closed && r.started && leaseOk && epoch == r.epoch && r.active.Some? && view.stale
    then MarkLost(r.mirror) else r.mirror
  }

  function RouteError(r: Router, leaseOk: bool, epoch: nat, c: Routed, view: TargetView): Option<RouterError> {
    var n := Noticed(r, leaseOk, epoch, view);
    if r.closed then Some(TerminalError(r))
    else if !r.started then Some(RouterNotStarted)
    else if !leaseOk then Some(InvalidControlLease)
    else if epoch != r.epoch then Some(StaleTargetEpoch)
    else if r.active.None? then Some(NoActiveTarget)
    else if n.stale && c.commandType != DeviceGetState then Some(StateStale)
    else if c.deviceId.Some? && c.deviceId.value != view.deviceId then Some(TargetMismatch)
    else
      var commands := if r.mirror.state.Some? then r.mirror.state.value.capabilities.commands else map[];
      if c.commandType != DeviceGetState && c.commandType !in commands then Some(UnsupportedCapability)
      else if c.commandType in commands && commands[c.commandType] == SystemScope then Some(SystemCommandForbidden)
      else None
  }

  function BeginRoute(r: Router, task: TaskId, leaseOk: bool, epoch: nat, c: Routed, view: TargetView): Router {
    var n := r.(mirror := Noticed(r, leaseOk, epoch, view));
    if RouteError(r, leaseOk, epoch, c, view).Some? || r.active.None? then n
    else n.(inflight := r.inflight[task := (r.active.value, epoch)])
  }

  function EndRoute(r: Router, task: TaskId): Router {
    r.(inflight := r.inflight - {task})
  }

  // ---- steps and runs ---------------------------------------------------------------------------

  datatype Step =
    | DoPrepareStart(targetsStart: bool, view: TargetView, subscribes: bool)
    | DoCommitStart(targetStale: bool)
    | DoBeginSelect(selection: SelectionId, leaseOk: bool, target: TargetId, view: TargetView, subscribes: bool)
    | DoCommitSelect(selection: SelectionId, leaseOk: bool, targetStale: bool)
    | DoBeginRoute(task: TaskId, leaseOk: bool, epoch: nat, command: Routed, view: TargetView)
    | DoEndRoute(task: TaskId)
    | DoEvent(activation: nat, event: TargetEvent, view: TargetView)
    | DoLook(connection: Option<Connection>)
    | DoClose
    | DoDetach

  predicate Enabled(r: Router, s: Step) {
    match s
    case DoPrepareStart(_, _, _) => CanPrepareStart(r)
    case DoCommitStart(_) => CanCommitStart(r)
    case DoBeginSelect(id, _, _, _, _) => id != STARTUP && id !in r.selections
    case DoCommitSelect(id, _, _) => id != STARTUP && id in r.selections
    case DoBeginRoute(task, _, _, _, _) => task !in r.inflight
    case DoEndRoute(task) => task in r.inflight
    case DoEvent(k, _, _) => k < |r.activations| && r.activations[k].ready
    case DoLook(_) => true
    case DoClose => true
    case DoDetach => r.closed
  }

  function Apply(r: Router, s: Step): Router
    requires Enabled(r, s)
  {
    match s
    case DoPrepareStart(targetsStart, view, subscribes) => PrepareStart(r, targetsStart, view, subscribes)
    case DoCommitStart(stale) => CommitStart(r, stale)
    case DoBeginSelect(id, leaseOk, target, view, subscribes) => BeginSelect(r, id, leaseOk, target, view, subscribes)
    case DoCommitSelect(id, leaseOk, stale) => CommitSelect(r, id, leaseOk, stale)
    case DoBeginRoute(task, leaseOk, epoch, command, view) => BeginRoute(r, task, leaseOk, epoch, command, view)
    case DoEndRoute(task) => EndRoute(r, task)
    case DoEvent(k, e, view) => r.(mirror := ProcessEvent(r, r.activations[k], e, view).mirror)
    case DoLook(connection) => Look(r, connection)
    case DoClose => r.(closed := true)
    case DoDetach => r.(subscription := None)
  }

  predicate Legal(r: Router, run: seq<Step>)
    decreases |run|
  {
    run == [] || (Enabled(r, run[0]) && Legal(Apply(r, run[0]), run[1..]))
  }

  function After(r: Router, run: seq<Step>): Router
    requires Legal(r, run)
    decreases |run|
  {
    if run == [] then r else After(Apply(r, run[0]), run[1..])
  }

  predicate Initial(r: Router) {
    && r.epoch == (if r.active.Some? then 1 else 0)
    && r.mirror == Mirror(None, false, false, None, [])
    && !r.starting && !r.started && !r.startFailed && !r.closed
    && r.inflight == map[] && r.activations == [] && r.subscription.None? && r.selections == map[]
  }
}
