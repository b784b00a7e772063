/** No interleaving lets an old target, an old command or an old subscription act on the current selection. */
module RouterSafety {
  import opened Common
  import opened Protocol
  import opened Routing

  /** Commands in flight belong to the current selection. */
  ghost predicate InflightOk(r: Router) {
    && (r.inflight.Keys != {} ==> r.active.Some?)
    && forall t :: t in r.inflight ==> r.inflight[t] == (r.active.value, r.epoch)
  }

  /** Of the committed activations at most one has the current epoch: the one subscribed to. */
  ghost predicate ActivationsOk(r: Router) {
    && (forall k :: 0 <= k < |r.activations| && r.activations[k].committed ==> r.activations[k].epoch <= r.epoch)
    && (!r.closed ==>
          forall k :: 0 <= k < |r.activations| && r.activations[k].committed && r.activations[k].epoch == r.epoch ==>
            r.subscription == Some(k))
    && (forall k :: 0 <= k < |r.activations| && r.activations[k].committed ==> r.activations[k].ready)
  }

  ghost predicate SubscriptionOk(r: Router) {
    && (r.subscription.Some? ==>
          var k := r.subscription.value;
          && r.mirror.state.Some? && k < |r.activations| && r.activations[k].committed
          && r.activations[k].epoch == r.epoch && r.active == Some(r.activations[k].target))
    && (r.started && r.active.Some? ==> r.mirror.state.Some?)
    && (!r.started ==>
          && r.subscription.None? && r.inflight == map[]
          && forall k :: 0 <= k < |r.activations| ==> !r.activations[k].committed)
  }

  /** A pending selection has an activation of its own that is not ready yet. */
  ghost predicate SelectionOk(r: Router, id: SelectionId)
    requires id in r.selections
  {
    var s := r.selections[id];
    && s.activation < |r.activations|
    && !r.activations[s.activation].committed && !r.activations[s.activation].ready
    && r.activations[s.activation].target == s.target
    && r.activations[s.activation].epoch == (if id == STARTUP then s.previousEpoch else s.previousEpoch + 1)
    && (id != STARTUP ==> s.previous != Some(s.target) && r.started)
    && (id == STARTUP ==>
          && r.active == s.previous == Some(s.target) && r.epoch == s.previousEpoch
          && r.starting && !r.started)
  }

  ghost predicate SelectionsOk(r: Router) {
    && (forall id :: id in r.selections ==> SelectionOk(r, id))
    && (forall a, b :: a in r.selections && b in r.selections ==>
          r.selections[a].activation == r.selections[b].activation ==> a == b)
  }

  ghost predicate Inv(r: Router) {
    InflightOk(r) && ActivationsOk(r) && SubscriptionOk(r) && SelectionsOk(r)
  }

  lemma InitialInv(r: Router)
    requires Initial(r)
    ensures Inv(r)
  {
  }

  /** Fields that no selection depends on may change freely. */
  lemma SelectionsFrame(r: Router, p: Router)
    requires SelectionsOk(r) && p.selections == r.selections && p.activations == r.activations
    requires p.active == r.active && p.epoch == r.epoch && p.starting == r.starting && p.started == r.started
    ensures SelectionsOk(p)
  {
    assert forall id :: id in p.selections ==> SelectionOk(r, id) && SelectionOk(p, id);
  }

  lemma MirrorKeepsInv(r: Router, m: Mirror)
    requires Inv(r) && (r.mirror.state.Some? ==> m.state.Some?)
    ensures Inv(r.(mirror := m))
  {
    SelectionsFrame(r, r.(mirror := m));
  }

  lemma ProcessedHasState(r: Router, a: Activation, e: TargetEvent, view: TargetView)
    requires r.mirror.state.Some?
    ensures ProcessEvent(r, a, e, view).mirror.state.Some?
  {
  }

  lemma RouteKeepsInv(r: Router, task: TaskId, leaseOk: bool, epoch: nat, c: Routed, view: TargetView)
    requires Inv(r) && task !in r.inflight
    ensures Inv(BeginRoute(r, task, leaseOk, epoch, c, view))
  {
    SelectionsFrame(r, BeginRoute(r, task, leaseOk, epoch, c, view));
  }

  lemma StartKeepsInv(r: Router, s: Step)
    requires Inv(r) && Enabled(r, s) && (s.DoPrepareStart? || s.DoCommitStart?)
    ensures Inv(Apply(r, s))
  {
    var p := Apply(r, s);
    assert forall id :: id in r.selections ==> SelectionOk(r, id);
  }

  lemma BeginSelectKeepsInv(r: Router, id: SelectionId, leaseOk: bool, target: TargetId, view: TargetView,
                            subscribes: bool)
    requires Inv(r) && id != STARTUP && id !in r.selections
    ensures Inv(BeginSelect(r, id, leaseOk, target, view, subscribes))
  {
    var p := BeginSelect(r, id, leaseOk, target, view, subscribes);
    assert forall x :: x in r.selections ==> SelectionOk(r, x);
    assert forall x :: x in r.selections ==> SelectionOk(p, x);
  }

  lemma NotBusyIsIdle(r: Router)
    requires InflightOk(r)
    ensures Busy(r) || r.inflight == map[]
  {
    assert forall t :: t in r.inflight ==> Busy(r);
  }

  /** Deciding one selection leaves the others as they are. */
  lemma DecideKeepsSelections(r: Router, id: SelectionId, committed: bool, p: Router)
    requires SelectionsOk(r) && id in r.selections && id != STARTUP && r.started
    requires p.selections == r.selections - {id}
    requires p.activations == SetActivation(r, r.selections[id].activation, committed).activations
    requires p.started == r.started
    ensures SelectionsOk(p)
  {
    assert SelectionOk(r, id);
    assert forall x :: x in r.selections ==> SelectionOk(r, x);
  }

  lemma CommitSelectKeepsInv(r: Router, id: SelectionId, leaseOk: bool, stale: bool)
    requires Inv(r) && id != STARTUP && id in r.selections
    ensures Inv(CommitSelect(r, id, leaseOk, stale))
  {
    var p := CommitSelect(r, id, leaseOk, stale);
    assert SelectionOk(r, id);
    DecideKeepsSelections(r, id, CommitError(r, r.selections[id], leaseOk).None?, p);
    NotBusyIsIdle(r);
  }

  lemma StepKeepsInv(r: Router, s: Step)
    requires Inv(r) && Enabled(r, s)
    ensures Inv(Apply(r, s))
  {
    match s
    case DoPrepareStart(_, _, _) => StartKeepsInv(r, s);
    case DoCommitStart(_) => StartKeepsInv(r, s);
    case DoBeginSelect(id, leaseOk, target, view, subscribes) =>
      BeginSelectKeepsInv(r, id, leaseOk, target, view, subscribes);
    case DoCommitSelect(id, leaseOk, stale) => CommitSelectKeepsInv(r, id, leaseOk, stale);
    case DoBeginRoute(task, leaseOk, epoch, c, view) => RouteKeepsInv(r, task, leaseOk, epoch, c, view);
    case DoEndRoute(_) => SelectionsFrame(r, Apply(r, s));
    case DoEvent(k, e, view) =>
      if r.mirror.state.Some? {
        ProcessedHasState(r, r.activations[k], e, view);
      }
      MirrorKeepsInv(r, ProcessEvent(r, r.activations[k], e, view).mirror);
    case DoLook(_) => MirrorKeepsInv(r, Apply(r, s).mirror);
    case DoClose => SelectionsFrame(r, Apply(r, s));
    case DoDetach => SelectionsFrame(r, Apply(r, s));
  }

  lemma {:induction false} RunKeepsInv(r: Router, run: seq<Step>)
    requires Inv(r) && Legal(r, run)
    ensures Inv(After(r, run))
    decreases |run|
  {
    if run != [] {
      StepKeepsInv(r, run[0]);
      RunKeepsInv(Apply(r, run[0]), run[1..]);
    }
  }

  // ---- commands in flight -----------------------------------------------------------------

  /** Whatever interleaves, a command in flight belongs to the active target and the current epoch. */
  lemma InflightBelongsToSelection(r: Router, run: seq<Step>, task: TaskId)
    requires Initial(r) && Legal(r, run) && task in After(r, run).inflight
    ensures After(r, run).active.Some?
    ensures After(r, run).inflight[task] == (After(r, run).active.value, After(r, run).epoch)
  {
    InitialInv(r);
    RunKeepsInv(r, run);
  }

  /** A command gets under way exactly under the lease, at the current epoch, with a fresh state and an allowed type. */
  lemma RouteIsGuarded(r: Router, task: TaskId, leaseOk: bool, epoch: nat, c: Routed, view: TargetView)
    requires Inv(r) && task !in r.inflight
    ensures task in BeginRoute(r, task, leaseOk, epoch, c, view).inflight <==>
      (&& !r.closed && r.started && leaseOk && epoch == r.epoch && r.active.Some?
       && (c.commandType == DeviceGetState || (!r.mirror.stale && !view.stale))
       && (c.deviceId.None? || c.deviceId.value == view.deviceId)
       && (c.commandType == DeviceGetState || c.commandType in r.mirror.state.value.capabilities.commands)
       && (c.commandType in r.mirror.state.value.capabilities.commands ==>
             r.mirror.state.value.capabilities.commands[c.commandType] == ControlScope))
  {
  }

  // ---- switching ---------------------------------------------------------------------------

  /** No command is in flight, and the state held shows no motion and no job waiting. */
  predicate Quiet(r: Router) {
    && r.inflight == map[]
    && (r.mirror.state.Some? ==>
          !r.mirror.state.value.motion.kind.Moving? && r.mirror.state.value.queueSize <= 0)
  }

  lemma QuietIffNotBusy(r: Router)
    requires InflightOk(r)
    ensures Quiet(r) <==> !Busy(r)
  {
    NotBusyIsIdle(r);
  }

  /**
   The second phase switches exactly if nothing has changed, no command is in
   flight, and the target left is shown neither moving nor with jobs waiting.
   */
  lemma SwitchLeavesNothingInFlight(r: Router, id: SelectionId, leaseOk: bool, stale: bool)
    requires Inv(r) && id in r.selections && id != STARTUP
    ensures var p := CommitSelect(r, id, leaseOk, stale);
      var s := r.selections[id];
      if !r.closed && leaseOk && s.target in r.targets && r.active == s.previous && r.epoch == s.previousEpoch
        && r.inflight == map[]
        && (r.mirror.state.Some? ==>
              r.mirror.state.value.motion.kind != Moving && r.mirror.state.value.queueSize <= 0)
      then p.active == Some(s.target) && p.epoch == r.epoch + 1 && p.subscription == Some(s.activation)
           && p.mirror.state == Some(s.state) && p.inflight == map[] == r.inflight
      else p.active == r.active && p.epoch == r.epoch && p.subscription == r.subscription
           && p.mirror == r.mirror && p.inflight == r.inflight
  {
    assert SelectionOk(r, id);
    QuietIffNotBusy(r);
  }

  lemma StepGrowsEpoch(r: Router, s: Step)
    requires Inv(r) && Enabled(r, s)
    ensures r.epoch <= Apply(r, s).epoch <= r.epoch + 1
    ensures Apply(r, s).epoch == r.epoch ==> Apply(r, s).active == r.active
  {
    if s.DoCommitSelect? {
      SwitchLeavesNothingInFlight(r, s.selection, s.leaseOk, s.targetStale);
    }
  }

  /** Epochs only grow, and an epoch has one target. */
  lemma {:induction false} EpochsOnlyGrow(r: Router, run: seq<Step>)
    requires Inv(r) && Legal(r, run)
    ensures r.epoch <= After(r, run).epoch
    ensures After(r, run).epoch == r.epoch ==> After(r, run).active == r.active
    decreases |run|
  {
    if run != [] {
      StepGrowsEpoch(r, run[0]);
      StepKeepsInv(r, run[0]);
      EpochsOnlyGrow(Apply(r, run[0]), run[1..]);
    }
  }

  /** Every step that changes the target or the epoch leaves a target that nothing is going on at. */
  ghost predicate SwitchesQuietly(r: Router, run: seq<Step>)
    requires Legal(r, run)
    decreases |run|
  {
    run == [] || (
      var p := Apply(r, run[0]);
      && (p.active != r.active || p.epoch != r.epoch ==> Quiet(r))
      && SwitchesQuietly(p, run[1..]))
  }

  lemma StepSwitchesQuietly(r: Router, s: Step)
    requires Inv(r) && Enabled(r, s)
    ensures Apply(r, s).active != r.active || Apply(r, s).epoch != r.epoch ==> Quiet(r)
  {
    if s.DoCommitSelect? {
      SwitchLeavesNothingInFlight(r, s.selection, s.leaseOk, s.targetStale);
    }
  }

  lemma {:induction false} RunSwitchesQuietly(r: Router, run: seq<Step>)
    requires Inv(r) && Legal(r, run)
    ensures SwitchesQuietly(r, run)
    decreases |run|
  {
    if run != [] {
      StepSwitchesQuietly(r, run[0]);
      StepKeepsInv(r, run[0]);
      RunSwitchesQuietly(Apply(r, run[0]), run[1..]);
    }
  }

  /** On every run, no target is left while a command is in flight, it moves, or jobs wait for it. */
  lemma TargetsAreLeftQuietly(r: Router, run: seq<Step>)
    requires Initial(r) && Legal(r, run)
    ensures SwitchesQuietly(r, run)
  {
    InitialInv(r);
    RunSwitchesQuietly(r, run);
  }

  // ---- subscriptions --------------------------------------------------------------------------

  /** An event acts only through the committed subscription of the current epoch; that one's events always do. */
  lemma OnlyTheSubscriptionActs(r: Router, k: nat, e: TargetEvent, view: TargetView)
    requires Inv(r) && k < |r.activations|
    ensures var p := ProcessEvent(r, r.activations[k], e, view);
      p.forward || p.mirror != r.mirror || p.diagnostic.Some? ==> !r.closed && r.subscription == Some(k)
    ensures ProcessEvent(r, r.activations[k], OtherUpdate, view).forward <==> !r.closed && r.subscription == Some(k)
  {
  }

  lemma ActivationsKeepTheirEpoch(r: Router, s: Step, k: nat)
    requires Inv(r) && Enabled(r, s) && k < |r.activations|
    ensures k < |Apply(r, s).activations|
    ensures Apply(r, s).activations[k].epoch == r.activations[k].epoch
  {
    match s
    case DoPrepareStart(_, _, _) =>
    case DoCommitStart(_) =>
    case DoBeginSelect(_, _, _, _, _) =>
    case DoCommitSelect(id, leaseOk, _) =>
      assert SelectionOk(r, id);
      SetKeepsEpoch(r, r.selections[id].activation, CommitError(r, r.selections[id], leaseOk).None?, k);
    case DoBeginRoute(_, _, _, _, _) =>
    case DoEndRoute(_) =>
    case DoEvent(_, _, _) =>
    case DoLook(_) =>
    case DoClose =>
    case DoDetach =>
  }

  lemma SetKeepsEpoch(r: Router, n: nat, committed: bool, k: nat)
    requires k < |r.activations|
    ensures k < |SetActivation(r, n, committed).activations|
    ensures SetActivation(r, n, committed).activations[k].epoch == r.activations[k].epoch
  {
  }

  lemma {:induction false} RunKeepsActivation(r: Router, run: seq<Step>, k: nat)
    requires Inv(r) && Legal(r, run) && k < |r.activations|
    ensures k < |After(r, run).activations|
    ensures After(r, run).activations[k].epoch == r.activations[k].epoch
    decreases |run|
  {
    if run != [] {
      ActivationsKeepTheirEpoch(r, run[0], k);
      StepKeepsInv(r, run[0]);
      RunKeepsActivation(Apply(r, run[0]), run[1..], k);
    }
  }

  /** Once an epoch has passed, its subscription is mute for good, however late its events are processed. */
  lemma OldSubscriptionIsMute(r: Router, run: seq<Step>, k: nat, e: TargetEvent, view: TargetView)
    requires Inv(r) && Legal(r, run) && k < |r.activations| && r.activations[k].epoch < r.epoch
    ensures k < |After(r, run).activations|
    ensures var p := ProcessEvent(After(r, run), After(r, run).activations[k], e, view);
      !p.forward && p.mirror == After(r, run).mirror && p.diagnostic.None?
  {
    RunKeepsInv(r, run);
    EpochsOnlyGrow(r, run);
    RunKeepsActivation(r, run, k);
  }
}
