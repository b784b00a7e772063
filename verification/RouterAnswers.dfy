/** What the router answers to a selection, a command or a state update, told from what its caller can see. */
module RouterAnswers {
  import opened Common
  import opened Protocol
  import opened Routing
  import opened RouterSafety

  /** Closed for good, after a failed start or not. */
  predicate SaysClosed(r: Router, e: RouterError) {
    if r.startFailed then e.StartFailed? else e.RouterClosed?
  }

  // ---- selections -----------------------------------------------------------------------------

  predicate MaySelect(r: Router, leaseOk: bool, target: TargetId) {
    !r.closed && r.started && leaseOk && target in r.targets
  }

  /**
   The first phase: prepared exactly if the router runs, the lease holds, the
   target is another registered one, nothing is going on at the active one, and
   the new one has a valid state and can be subscribed to.
   */
  lemma PreparedExactlyWhen(r: Router, leaseOk: bool, target: TargetId, view: TargetView, subscribes: bool)
    requires Inv(r)
    ensures BeginResult(r, leaseOk, target, view, subscribes).Prepared? <==>
      (&& !r.closed && r.started && leaseOk && target in r.targets && r.active != Some(target)
       && r.inflight == map[]
       && (r.mirror.state.Some? ==>
             r.mirror.state.value.motion.kind != Moving && r.mirror.state.value.queueSize <= 0)
       && view.reading.Complete? && subscribes)
  {
    QuietIffNotBusy(r);
  }

  /** Why a selection is refused, by what stands in its way first. */
  predicate RefusesSelection(r: Router, leaseOk: bool, target: TargetId, e: RouterError) {
    match e
    case RouterNotStarted => !r.closed && !r.started
    case InvalidControlLease => !r.closed && r.started && !leaseOk
    case UnknownTarget => !r.closed && r.started && leaseOk && target !in r.targets
    case TargetBusy => MaySelect(r, leaseOk, target) && r.active != Some(target) && !Quiet(r)
    case _ => r.closed && SaysClosed(r, e)
  }

  /** Why a target cannot be prepared. */
  predicate RefusesPreparation(view: TargetView, subscribes: bool, e: RouterError) {
    match e
    case TargetSnapshotFailed => view.reading.Raised?
    case InvalidTargetSnapshot => view.reading.Partial?
    case TargetSubscriptionFailed => view.reading.Complete? && !subscribes
    case _ => false
  }

  lemma FirstPhaseAnswers(r: Router, leaseOk: bool, target: TargetId, view: TargetView, subscribes: bool)
    requires Inv(r)
    ensures match BeginResult(r, leaseOk, target, view, subscribes)
            case Selected(epoch) => MaySelect(r, leaseOk, target) && r.active == Some(target) && epoch == r.epoch
            case Prepared => true
            case SelectRefused(e) =>
              || RefusesSelection(r, leaseOk, target, e)
              || (MaySelect(r, leaseOk, target) && r.active != Some(target) && Quiet(r)
                  && RefusesPreparation(view, subscribes, e))
  {
    QuietIffNotBusy(r);
  }

  /** The second phase is refused for the same reasons, or because another selection was faster. */
  lemma SecondPhaseAnswers(r: Router, s: Selection, leaseOk: bool)
    requires Inv(r)
    ensures var e := CommitError(r, s, leaseOk);
      if e.None? then
        MaySelect(r, leaseOk, s.target) && r.active == s.previous && r.epoch == s.previousEpoch
        && (r.active == Some(s.target) || Quiet(r))
      else
        || RefusesSelection(r, leaseOk, s.target, e.value)
        || (e.value.StaleTargetEpoch? && MaySelect(r, leaseOk, s.target) && (r.active == Some(s.target) || Quiet(r))
            && (r.active != s.previous || r.epoch != s.previousEpoch))
  {
    QuietIffNotBusy(r);
  }

  // ---- commands --------------------------------------------------------------------------------

  predicate MayRoute(r: Router, leaseOk: bool, epoch: nat) {
    !r.closed && r.started && leaseOk && epoch == r.epoch && r.active.Some?
  }

  /** Only the query may go to a target whose state is stale. */
  predicate FreshEnough(r: Router, c: Routed, view: TargetView) {
    c.commandType.DeviceGetState? || !(r.mirror.stale || view.stale)
  }

  predicate Addressed(c: Routed, view: TargetView) {
    c.deviceId.None? || c.deviceId.value == view.deviceId
  }

  /** The scope that the state held advertises for the command. */
  function ScopeOf(r: Router, t: CommandType): Option<Scope> {
    if r.mirror.state.Some? && t in r.mirror.state.value.capabilities.commands
    then Some(r.mirror.state.value.capabilities.commands[t]) else None
  }

  /** Why a command is refused, by what stands in its way first. */
  predicate RefusesRoute(r: Router, leaseOk: bool, epoch: nat, c: Routed, view: TargetView, e: RouterError) {
    match e
    case RouterNotStarted => !r.closed && !r.started
    case InvalidControlLease => !r.closed && r.started && !leaseOk
    case StaleTargetEpoch => !r.closed && r.started && leaseOk && epoch != r.epoch
    case NoActiveTarget => !r.closed && r.started && leaseOk && epoch == r.epoch && r.active.None?
    case StateStale => MayRoute(r, leaseOk, epoch) && !FreshEnough(r, c, view)
    case TargetMismatch => MayRoute(r, leaseOk, epoch) && FreshEnough(r, c, view) && !Addressed(c, view)
    case UnsupportedCapability =>
      && MayRoute(r, leaseOk, epoch) && FreshEnough(r, c, view) && Addressed(c, view)
      && !c.commandType.DeviceGetState? && ScopeOf(r, c.commandType).None?
    case SystemCommandForbidden =>
      && MayRoute(r, leaseOk, epoch) && FreshEnough(r, c, view) && Addressed(c, view)
      && ScopeOf(r, c.commandType) == Some(SystemScope)
    case _ => r.closed && SaysClosed(r, e)
  }

  /** Nothing stands in the way of the command. */
  predicate LetThrough(r: Router, leaseOk: bool, epoch: nat, c: Routed, view: TargetView) {
    && MayRoute(r, leaseOk, epoch) && FreshEnough(r, c, view) && Addressed(c, view)
    && (c.commandType.DeviceGetState? || ScopeOf(r, c.commandType).Some?)
    && ScopeOf(r, c.commandType) != Some(SystemScope)
  }

  /** The refusal, the command in flight and the loss that was noticed on the way. */
  lemma RouteAnswers(r: Router, task: TaskId, leaseOk: bool, epoch: nat, c: Routed, view: TargetView)
    requires Inv(r) && task !in r.inflight
    ensures var e := RouteError(r, leaseOk, epoch, c, view);
      var p := BeginRoute(r, task, leaseOk, epoch, c, view);
      && (e.None? <==> LetThrough(r, leaseOk, epoch, c, view))
      && (e.Some? ==> RefusesRoute(r, leaseOk, epoch, c, view, e.value) && p.inflight == r.inflight)
      && (e.None? ==> p.inflight == r.inflight[task := (r.active.value, r.epoch)])
      && p == r.(inflight := p.inflight, mirror := p.mirror)
      && p.mirror.state == r.mirror.state
      && (if MayRoute(r, leaseOk, epoch) && view.stale
          then p.mirror.stale && p.mirror.transportStale && p.mirror.floor.None?
          else p.mirror == r.mirror)
  {
  }

  // ---- state updates ---------------------------------------------------------------------------

  /** The target itself has a fresh state of this revision. */
  predicate Vouches(view: TargetView, revision: int) {
    view.reading.Complete? && !view.stale && view.reading.state.revision == revision
  }

  /** A revision that an event may carry: at least 0, unless a whole valid state comes with it. */
  predicate Announces(payload: Reading, revision: int) {
    match payload
    case Raised => false
    case Partial(carried) => carried == Some(revision) && revision >= 0
    case Complete(state) => revision == state.revision
  }

  /** Not below any gap seen, this one included. */
  predicate Clears(m: Mirror, revision: int) {
    m.floor.None? || m.floor.value <= revision
  }

  /** One update of the subscribed target, whose revision is announced. */
  ghost predicate Answers(m: Mirror, payload: Reading, view: TargetView, revision: int, p: Processed)
    requires m.state.Some?
  {
    var held := m.state.value.revision;
    var behind := m.stale || revision > held + 1;
    if m.transportStale && Vouches(view, revision) then
      p.forward && p.diagnostic.None? && Fresh(p.mirror, view.reading)
    else if revision <= held then
      !p.forward && p.diagnostic.None? && p.mirror == m
    else if behind && Vouches(view, revision) && Clears(m, revision) then
      p.forward && p.diagnostic.None? && Fresh(p.mirror, view.reading)
    else if behind then
      && p.forward && p.diagnostic == Some(RevisionGap)
      && p.mirror.state == m.state && p.mirror.stale && p.mirror.transportStale == m.transportStale
      && (revision <= held + 1 ==> p.mirror.floor == m.floor)
      && (revision > held + 1 ==> p.mirror.floor == Some(Larger(m.floor, revision)))
    else if !payload.Complete? then
      && !p.forward && p.diagnostic == Some(InvalidState)
      && p.mirror.state == m.state && p.mirror.stale && p.mirror.floor == m.floor
      && p.mirror.transportStale == m.transportStale
    else
      p.forward && p.diagnostic.None? && Fresh(p.mirror, payload)
  }

  function Larger(floor: Option<int>, revision: int): int {
    if floor.Some? && floor.value >= revision then floor.value else revision
  }

  /** The mirror holds this state and nothing is amiss. */
  predicate Fresh(m: Mirror, reading: Reading) {
    reading.Complete? && m.state == Some(reading.state) && !m.stale && !m.transportStale && m.floor.None?
  }

  /**
   What a state update does and whether it is passed on: through the committed
   current subscription as its revision and the target's own state say, through
   any other nothing.
   */
  lemma UpdateAnswers(r: Router, k: nat, payload: Reading, view: TargetView)
    requires Inv(r) && k < |r.activations|
    ensures var p := ProcessEvent(r, r.activations[k], StateUpdate(payload), view);
      if r.closed || r.subscription != Some(k) then p == Processed(r.mirror, false, None)
      else
        && r.mirror.state.Some?
        && ((forall revision :: !Announces(payload, revision)) ==> p == Processed(r.mirror, false, None))
        && forall revision :: Announces(payload, revision) ==> Answers(r.mirror, payload, view, revision, p)
  {
    var p := ProcessEvent(r, r.activations[k], StateUpdate(payload), view);
    forall revision | Announces(payload, revision)
      ensures RevisionOf(payload) == Some(revision)
    {
    }
    if RevisionOf(payload).Some? {
      assert Announces(payload, RevisionOf(payload).value);
    }
  }

  // ---- starting, asking and closing ---------------------------------------------------------------

  /** Start-up goes on exactly if the targets start and the active one can be prepared; else the router is closed. */
  lemma StartAnswers(r: Router, targetsStart: bool, view: TargetView, subscribes: bool)
    requires Inv(r) && CanPrepareStart(r)
    ensures var p := PrepareStart(r, targetsStart, view, subscribes);
      && p.starting && !p.started && p.mirror == r.mirror && p.active == r.active && p.epoch == r.epoch
      && (if targetsStart && (r.active.None? || (view.reading.Complete? && subscribes))
          then p.startFailed == r.startFailed && p.closed == r.closed && (r.active.Some? ==> STARTUP in p.selections)
          else p.startFailed && p.closed)
  {
  }

  /** The router has started exactly if it was not closed meanwhile; then it shows the prepared state as it is. */
  lemma StartEnds(r: Router, stale: bool)
    requires Inv(r) && CanCommitStart(r)
    ensures var p := CommitStart(r, stale);
      && (p.started <==> !r.closed) && p.closed == r.closed && p.active == r.active && p.epoch == r.epoch
      && STARTUP !in p.selections
      && (r.active.Some? && !r.closed ==>
            && p.mirror.state == Some(r.selections[STARTUP].state) && p.mirror.stale == stale
            && p.mirror.transportStale == r.mirror.transportStale && p.mirror.floor.None?
            && p.subscription == Some(r.selections[STARTUP].activation))
      && (r.closed || r.active.None? ==> p.mirror == r.mirror && p.subscription == r.subscription)
  {
    if STARTUP in r.selections {
      assert SelectionOk(r, STARTUP);
    }
  }

  /** The state is shown with the connection that the target reports, or as degraded if it is stale instead of ready. */
  lemma ShownAnswers(r: Router, connection: Option<Connection>)
    ensures var reported := r.active.Some? && connection.Some? && !connection.value.Connecting?;
      var shown := Shown(r, connection);
      && (shown.Some? <==> r.mirror.state.Some?)
      && (shown.Some? ==>
            var c := if reported then connection.value else r.mirror.state.value.connection;
            shown.value == r.mirror.state.value.(connection := if c.Ready? && r.mirror.stale then Degraded else c))
  {
    LookAnswers(r, connection);
  }

  /** Asking notices a lost connection: the mirror is then stale, its transport too, and no gap is remembered. */
  lemma LookAnswers(r: Router, connection: Option<Connection>)
    ensures var p := Look(r, connection);
      && p == r.(mirror := p.mirror) && p.mirror.state == r.mirror.state
      && if r.active.Some? && (connection == Some(Degraded) || connection == Some(Offline))
         then p.mirror.stale && p.mirror.transportStale && p.mirror.floor.None?
         else p == r
  {
  }

  lemma StepStaysClosed(r: Router, s: Step)
    requires Inv(r) && Enabled(r, s) && r.closed
    ensures var p := Apply(r, s);
      && p.closed && p.active == r.active && p.epoch == r.epoch
      && p.inflight.Keys <= r.inflight.Keys
      && (s.DoEvent? || s.DoCommitSelect? || s.DoBeginRoute? || s.DoCommitStart? ==> p.mirror == r.mirror)
  {
  }

  /** Once closed, a router selects and routes nothing any more, on whatever run. */
  lemma {:induction false} ClosedForGood(r: Router, run: seq<Step>)
    requires Inv(r) && r.closed && Legal(r, run)
    ensures var p := After(r, run);
      && p.closed && p.active == r.active && p.epoch == r.epoch
      && p.inflight.Keys <= r.inflight.Keys
    decreases |run|
  {
    if run != [] {
      StepStaysClosed(r, run[0]);
      StepKeepsInv(r, run[0]);
      ClosedForGood(Apply(r, run[0]), run[1..]);
    }
  }

  /** Closing takes effect at once: from then on the router is closed, and once detached without subscription. */
  lemma ClosingCloses(r: Router, run: seq<Step>)
    requires Inv(r) && Legal(Apply(r, DoClose), run)
    ensures var p := After(Apply(r, DoClose), run);
      p.closed && p.active == r.active && p.epoch == r.epoch && p.inflight.Keys <= r.inflight.Keys
    ensures r.closed ==> Apply(r, DoDetach) == r.(subscription := None)
  {
    StepKeepsInv(r, DoClose);
    ClosedForGood(Apply(r, DoClose), run);
  }

  // ---- what is in flight ---------------------------------------------------------------------------

  /** The tasks under way after a step: let through and not back yet. */
  function Onward(r: Router, s: Step, tasks: set<TaskId>): set<TaskId> {
    match s
    case DoBeginRoute(task, leaseOk, epoch, c, view) =>
      if LetThrough(r, leaseOk, epoch, c, view) then tasks + {task} else tasks
    case DoEndRoute(task) => tasks - {task}
    case _ => tasks
  }

  function UnderWay(r: Router, run: seq<Step>, tasks: set<TaskId>): set<TaskId>
    requires Legal(r, run)
    decreases |run|
  {
    if run == [] then tasks else UnderWay(Apply(r, run[0]), run[1..], Onward(r, run[0], tasks))
  }

  lemma StepInflight(r: Router, s: Step)
    requires Inv(r) && Enabled(r, s)
    ensures Apply(r, s).inflight.Keys == Onward(r, s, r.inflight.Keys)
  {
    match s
    case DoBeginRoute(task, leaseOk, epoch, c, view) => RouteAnswers(r, task, leaseOk, epoch, c, view);
    case DoCommitSelect(id, leaseOk, stale) => SwitchLeavesNothingInFlight(r, id, leaseOk, stale);
    case DoEndRoute(task) => assert EndRoute(r, task).inflight.Keys == r.inflight.Keys - {task};
    case _ =>
  }

  /** On every run the commands in flight are those let through that are not back. */
  lemma {:induction false} InflightIsUnderWay(r: Router, run: seq<Step>)
    requires Inv(r) && Legal(r, run)
    ensures After(r, run).inflight.Keys == UnderWay(r, run, r.inflight.Keys)
    decreases |run|
  {
    if run != [] {
      StepInflight(r, run[0]);
      StepKeepsInv(r, run[0]);
      InflightIsUnderWay(Apply(r, run[0]), run[1..]);
    }
  }
}
