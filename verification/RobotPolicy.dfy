/**
 The agent's robot service: it lets one device call run at a time, and decides
 from its own copy of the device state which calls may begin.
 */
module RobotPolicy {
  import opened Common
  import opened Protocol

  /** A call under way, named by the position at which it began. */
  datatype Call = PlayMovement(name: PresetName) | SetLightColor | SetLightBrightness | EnterRestState
  datatype Holder = Calling(call: Call, id: nat) | Synchronizing

  /** What an observer of the service sees. */
  datatype Entry =
    | Began(call: Call, id: nat)
    | Ended(call: Call, id: nat, ok: bool)
    | Accepted(state: Snapshot)
    | Rejected(state: Snapshot)
    | Invalidated

  datatype Service = Service(
    state: Option<Snapshot>,
    lastRevision: Option<int>,
    restPending: bool,
    ready: bool,
    lock: Option<Holder>,
    asked: nat,
    log: seq<Entry>)

  const INITIAL: Service := Service(None, None, false, false, None, 0, [])

  function Invalidate(s: Service): Service {
    s.(state := None, lastRevision := None, restPending := false, ready := false, log := s.log + [Invalidated])
  }

  /** _on_state: None is a payload that is not a valid state of this device. */
  function OnState(s: Service, payload: Option<Snapshot>): Service {
    if payload.None? then s.(state := None, ready := false)
    else
      var state := payload.value;
      var usable := (s.lastRevision.None? || state.revision == s.lastRevision.value + 1)
                    && (state.connection == Ready || state.connection == Degraded);
      if usable
      then s.(lastRevision := Some(state.revision), state := Some(state), ready := true,
              restPending := s.restPending && state.status != Resting, log := s.log + [Accepted(state)])
      else s.(lastRevision := Some(state.revision), state := None, ready := false, log := s.log + [Rejected(state)])
  }

  predicate Advertised(state: Snapshot, tool: CommandType) {
    tool in state.capabilities.commands && state.capabilities.commands[tool] == ControlScope
  }

  predicate HasPreset(state: Snapshot, name: PresetName) {
    exists i :: 0 <= i < |state.capabilities.presets| && state.capabilities.presets[i].name == name
  }

  predicate HasHeadLight(state: Snapshot) {
    exists i :: 0 <= i < |state.capabilities.lights| && state.capabilities.lights[i].target == HeadMatrix
  }

  /** The checks made under the lock; those made before it can only refuse more. */
  predicate Permitted(s: Service, c: Call, connected: bool) {
    && connected && s.state.Some?
    && var state := s.state.value;
       match c
       case PlayMovement(name) =>
         !s.restPending && (state.status == Resting ==> name == WakeUp) && Advertised(state, MotionPlay)
           && HasPreset(state, name)
       case SetLightColor => Advertised(state, LightSolid) && HasHeadLight(state)
       case SetLightBrightness => Advertised(state, LightBrightness) && HasHeadLight(state)
       case EnterRestState => Advertised(state, DeviceRest) && state.status != Resting
  }

  /** A rest call looks at the flag once, before it waits for the lock, and not again. */
  function AskRest(s: Service): Service {
    if s.restPending then s else s.(asked := s.asked + 1)
  }

  /** A call gets the lock: it begins, or is refused. */
  function GetLock(s: Service, c: Call, connected: bool): Service
    requires c.EnterRestState? ==> s.asked > 0
  {
    Begin(if c.EnterRestState? then s.(asked := s.asked - 1) else s, c, connected)
  }

  function Begin(s: Service, c: Call, connected: bool): Service {
    if Permitted(s, c, connected) then
      s.(lock := Some(Calling(c, |s.log|)), log := s.log + [Began(c, |s.log|)],
          restPending := s.restPending || c.EnterRestState?)
    else if !connected then s.(state := None)
    else s
  }

  function End(s: Service, ok: bool): Service
    requires s.lock.Some? && s.lock.value.Calling?
  {
    var held := s.lock.value;
    s.(lock := None, restPending := s.restPending && !(held.call.EnterRestState? && !ok),
       log := s.log + [Ended(held.call, held.id, ok)])
  }

  function BeginSync(s: Service, connected: bool): Service {
    if connected then Invalidate(s).(lock := Some(Synchronizing)) else Invalidate(s)
  }

  datatype SyncOutcome = Answered | TimedOut | RequestFailed

  function EndSync(s: Service, outcome: SyncOutcome): Service {
    if outcome.TimedOut? then Invalidate(s).(lock := None) else s.(lock := None)
  }

  datatype Step =
    | DoState(payload: Option<Snapshot>)
    | DoInvalidate
    | DoDetach
    | DoAskRest
    | DoBegin(call: Call, connected: bool)
    | DoEnd(ok: bool)
    | DoBeginSync(connected: bool)
    | DoEndSync(outcome: SyncOutcome)

  predicate Enabled(s: Service, step: Step) {
    match step
    case DoBegin(c, _) => s.lock.None? && (c.EnterRestState? ==> s.asked > 0)
    case DoEnd(_) => s.lock.Some? && s.lock.value.Calling?
    case DoBeginSync(_) => s.lock.None?
    case DoEndSync(outcome) => s.lock == Some(Synchronizing) && (outcome.Answered? ==> s.ready)
    case _ => true
  }

  function Apply(s: Service, step: Step): Service
    requires Enabled(s, step)
  {
    match step
    case DoState(payload) => OnState(s, payload)
    case DoInvalidate => Invalidate(s)
    case DoDetach => s.(state := None, ready := false)
    case DoAskRest => AskRest(s)
    case DoBegin(c, connected) => GetLock(s, c, connected)
    case DoEnd(ok) => End(s, ok)
    case DoBeginSync(connected) => BeginSync(s, connected)
    case DoEndSync(outcome) => EndSync(s, outcome)
  }

  predicate Legal(s: Service, run: seq<Step>)
    decreases |run|
  {
    run == [] || (Enabled(s, run[0]) && Legal(Apply(s, run[0]), run[1..]))
  }

  function After(s: Service, run: seq<Step>): Service
    requires Legal(s, run)
    decreases |run|
  {
    if run == [] then s else After(Apply(s, run[0]), run[1..])
  }

  // ---- the rest gate, read from the log ----------------------------------------------------

  /** Is a rest under way?  None: a movement began while it was. */
  function Gate(closed: bool, e: Entry): Option<bool> {
    match e
    case Began(call, _) => if call.EnterRestState? then Some(true) else if call.PlayMovement? && closed then None
      else Some(closed)
    case Ended(call, _, ok) => Some(closed && !(call.EnterRestState? && !ok))
    case Accepted(state) => Some(closed && state.status != Resting)
    case Rejected(_) => Some(closed)
    case Invalidated => Some(false)
  }

  function GateAll(closed: bool, log: seq<Entry>): Option<bool>
    decreases |log|
  {
    if log == [] then Some(closed)
    else
      var next := Gate(closed, log[0]);
      if next.None? then None else GateAll(next.value, log[1..])
  }

  lemma {:induction false} GateMore(closed: bool, log: seq<Entry>, e: Entry)
    requires GateAll(closed, log).Some?
    ensures GateAll(closed, log + [e]) == Gate(GateAll(closed, log).value, e)
    decreases |log|
  {
    if log == [] {
      assert log + [e] == [e] && [e][1..] == [];
    } else {
      assert (log + [e])[1..] == log[1..] + [e];
      GateMore(Gate(closed, log[0]).value, log[1..], e);
    }
  }

  lemma StepKeepsGate(s: Service, step: Step)
    requires Enabled(s, step) && GateAll(false, s.log) == Some(s.restPending)
    ensures GateAll(false, Apply(s, step).log) == Some(Apply(s, step).restPending)
  {
    var r := Apply(s, step);
    if r.log != s.log {
      GateMore(false, s.log, r.log[|s.log|]);
      assert r.log == s.log + [r.log[|s.log|]];
    }
  }

  lemma {:induction false} RunKeepsGate(s: Service, run: seq<Step>)
    requires Legal(s, run) && GateAll(false, s.log) == Some(s.restPending)
    ensures GateAll(false, After(s, run).log) == Some(After(s, run).restPending)
    decreases |run|
  {
    if run != [] {
      StepKeepsGate(s, run[0]);
      RunKeepsGate(Apply(s, run[0]), run[1..]);
    }
  }

  /**
   On every run no movement begins between a rest call and the first of: an
   accepted resting state, an invalidation, or the failure of a rest call.
   */
  lemma NoMovementDuringRest(run: seq<Step>)
    requires Legal(INITIAL, run)
    ensures GateAll(false, After(INITIAL, run).log).Some?
  {
    RunKeepsGate(INITIAL, run);
  }

  // ---- the same for each rest call by itself ---------------------------------------------------

  /** The rest calls that are under way, each until its own failure; None: a movement began while one was. */
  function Watch(open: set<nat>, e: Entry): Option<set<nat>> {
    match e
    case Began(call, id) =>
      if call.EnterRestState? then Some(open + {id}) else if call.PlayMovement? && open != {} then None else Some(open)
    case Ended(call, id, ok) => Some(if call.EnterRestState? && !ok then open - {id} else open)
    case Accepted(state) => Some(if state.status == Resting then {} else open)
    case Rejected(_) => Some(open)
    case Invalidated => Some({})
  }

  function WatchAll(open: set<nat>, log: seq<Entry>): Option<set<nat>>
    decreases |log|
  {
    if log == [] then Some(open)
    else
      var next := Watch(open, log[0]);
      if next.None? then None else WatchAll(next.value, log[1..])
  }

  lemma {:induction false} WatchMore(open: set<nat>, log: seq<Entry>, e: Entry)
    requires WatchAll(open, log).Some?
    ensures WatchAll(open, log + [e]) == Watch(WatchAll(open, log).value, e)
    decreases |log|
  {
    if log == [] {
      assert log + [e] == [e] && [e][1..] == [];
    } else {
      assert (log + [e])[1..] == log[1..] + [e];
      WatchMore(Watch(open, log[0]).value, log[1..], e);
    }
  }

  /** The rest calls under way, as long as no movement began during one. */
  function UnderWay(s: Service): Option<set<nat>> {
    WatchAll({}, s.log)
  }

  lemma StepIsWatched(s: Service, step: Step)
    requires Enabled(s, step) && UnderWay(s).Some?
    ensures var r := Apply(s, step);
      if r.log == s.log then UnderWay(r) == UnderWay(s)
      else |r.log| == |s.log| + 1 && UnderWay(r) == Watch(UnderWay(s).value, r.log[|s.log|])
  {
    var r := Apply(s, step);
    if r.log != s.log {
      WatchMore({}, s.log, r.log[|s.log|]);
      assert r.log == s.log + [r.log[|s.log|]];
    }
  }

  /** The flag stands for every rest call that is under way. */
  predicate Guards(s: Service) {
    UnderWay(s).Some? && (s.restPending <==> UnderWay(s).value != {})
  }

  /** A rest call fails while another is under way. */
  predicate FailsBesideAnother(s: Service, step: Step)
    requires Enabled(s, step)
  {
    && step.DoEnd? && !step.ok && s.lock.value.call.EnterRestState?
    && UnderWay(s).Some? && UnderWay(s).value - {s.lock.value.id} != {}
  }

  /** Each step keeps the flag in force, except such a failure. */
  lemma StepKeepsGuard(s: Service, step: Step)
    requires Enabled(s, step) && Guards(s)
    ensures Guards(Apply(s, step)) <==> !FailsBesideAnother(s, step)
  {
    StepIsWatched(s, step);
  }

  predicate SomeRestFailsBesideAnother(s: Service, run: seq<Step>)
    requires Legal(s, run)
    decreases |run|
  {
    run != [] && (FailsBesideAnother(s, run[0]) || SomeRestFailsBesideAnother(Apply(s, run[0]), run[1..]))
  }

  predicate AlwaysGuards(s: Service, run: seq<Step>)
    requires Legal(s, run)
    decreases |run|
  {
    Guards(s) && (run == [] || AlwaysGuards(Apply(s, run[0]), run[1..]))
  }

  lemma {:induction false} AlwaysGuardsIff(s: Service, run: seq<Step>)
    requires Legal(s, run) && Guards(s)
    ensures AlwaysGuards(s, run) <==> !SomeRestFailsBesideAnother(s, run)
    ensures AlwaysGuards(s, run) ==> Guards(After(s, run))
    decreases |run|
  {
    if run != [] {
      StepKeepsGuard(s, run[0]);
      if Guards(Apply(s, run[0])) {
        AlwaysGuardsIff(Apply(s, run[0]), run[1..]);
      }
    }
  }

  /**
   The flag stands for the rests under way throughout a run exactly if no rest
   call fails while another is under way; and then no movement begins during any
   of them, each counted until its own failure.
   */
  lemma NoMovementDuringEachRest(run: seq<Step>)
    requires Legal(INITIAL, run)
    ensures AlwaysGuards(INITIAL, run) <==> !SomeRestFailsBesideAnother(INITIAL, run)
    ensures !SomeRestFailsBesideAnother(INITIAL, run) ==> UnderWay(After(INITIAL, run)).Some?
  {
    AlwaysGuardsIff(INITIAL, run);
  }

  // ---- exactly when the gate holds from here on --------------------------------------------------

  /** No rest call fails. */
  predicate NoRestFails(s: Service, run: seq<Step>)
    requires Legal(s, run)
    decreases |run|
  {
    run == [] || (
      && !(run[0].DoEnd? && !run[0].ok && s.lock.value.call.EnterRestState?)
      && NoRestFails(Apply(s, run[0]), run[1..]))
  }

  /** If a rest is under way, the flag is up. */
  predicate Shut(s: Service) {
    UnderWay(s).Some? && (UnderWay(s).value == {} || s.restPending)
  }

  lemma {:induction false} ShutStaysShut(s: Service, run: seq<Step>)
    requires Legal(s, run) && NoRestFails(s, run) && Shut(s)
    ensures Shut(After(s, run))
    decreases |run|
  {
    if run != [] {
      StepIsWatched(s, run[0]);
      ShutStaysShut(Apply(s, run[0]), run[1..]);
    }
  }

  /** While the service synchronises no rest is under way: it began by forgetting them. */
  predicate QuietSync(s: Service) {
    s.lock == Some(Synchronizing) && UnderWay(s).Some? ==> UnderWay(s).value == {}
  }

  lemma {:induction false} WatchedFront(open: set<nat>, log: seq<Entry>, e: Entry)
    requires WatchAll(open, log).None?
    ensures WatchAll(open, log + [e]).None?
    decreases |log|
  {
    assert (log + [e])[1..] == log[1..] + [e];
    if Watch(open, log[0]).Some? {
      WatchedFront(Watch(open, log[0]).value, log[1..], e);
    }
  }

  lemma StepKeepsQuietSync(s: Service, step: Step)
    requires Enabled(s, step) && QuietSync(s)
    ensures QuietSync(Apply(s, step))
  {
    var r := Apply(s, step);
    if UnderWay(s).Some? {
      StepIsWatched(s, step);
    } else if r.log != s.log {
      WatchedFront({}, s.log, r.log[|s.log|]);
      assert r.log == s.log + [r.log[|s.log|]];
    }
  }

  lemma {:induction false} RunKeepsQuietSync(s: Service, run: seq<Step>)
    requires Legal(s, run) && QuietSync(s)
    ensures QuietSync(After(s, run))
    decreases |run|
  {
    if run != [] {
      StepKeepsQuietSync(s, run[0]);
      RunKeepsQuietSync(Apply(s, run[0]), run[1..]);
    }
  }

  /** A state in which the device can be moved. */
  predicate Movable(state: Snapshot) {
    && (state.connection == Ready || state.connection == Degraded) && state.status != Resting
    && Advertised(state, MotionPlay) && HasPreset(state, Nod)
  }

  /** Whoever holds the lock is done, the next state comes in, and a movement is called. */
  function NextMovement(s: Service, device: Snapshot): seq<Step> {
    var next := device.(revision := if s.lastRevision.Some? then s.lastRevision.value + 1 else device.revision);
    (if s.lock.Some? then [DoEnd(true)] else []) + [DoState(Some(next)), DoBegin(PlayMovement(Nod), true)]
  }

  lemma TheLockIsFreed(s: Service)
    requires s.lock.Some? && s.lock.value.Calling? && UnderWay(s).Some?
    ensures var r := End(s, true);
      r.lock.None? && r.restPending == s.restPending && r.lastRevision == s.lastRevision && UnderWay(r) == UnderWay(s)
  {
    StepIsWatched(s, DoEnd(true));
  }

  lemma OpenWithFreeLock(s: Service, device: Snapshot)
    requires s.lock.None? && UnderWay(s).Some? && !Shut(s) && Movable(device)
    ensures var run := NextMovement(s, device);
      Legal(s, run) && NoRestFails(s, run) && UnderWay(After(s, run)).None?
  {
    var run := NextMovement(s, device);
    assert run == [run[0], run[1]];
    var a := Apply(s, run[0]);
    StepIsWatched(s, run[0]);
    var b := Apply(a, run[1]);
    StepIsWatched(a, run[1]);
    RunFrom(a, run[1], []);
    RunFrom(s, run[0], [run[1]]);
    assert [run[1]] + [] == [run[1]] && run == [run[0]] + [run[1]];
    assert NoRestFails(b, []) && NoRestFails(a, run[1..]);
  }

  lemma OpenLetsAMovementIn(s: Service, device: Snapshot)
    requires UnderWay(s).Some? && !Shut(s) && QuietSync(s) && Movable(device)
    ensures var run := NextMovement(s, device);
      Legal(s, run) && NoRestFails(s, run) && UnderWay(After(s, run)).None?
  {
    if s.lock.None? {
      OpenWithFreeLock(s, device);
    } else {
      var a := End(s, true);
      TheLockIsFreed(s);
      OpenWithFreeLock(a, device);
      RunFrom(s, DoEnd(true), NextMovement(a, device));
      var run := NextMovement(s, device);
      assert run == [DoEnd(true)] + NextMovement(a, device) && run[1..] == NextMovement(a, device);
    }
  }

  /**
   Exactly when the gate holds from a reachable state on: as long as no rest call
   fails, no movement begins during a rest, on whatever continuation, if and only
   if no rest is under way or the flag is up.
   */
  lemma GateHoldsIff(run: seq<Step>, device: Snapshot)
    requires Legal(INITIAL, run) && UnderWay(After(INITIAL, run)).Some? && Movable(device)
    ensures var s := After(INITIAL, run);
      (UnderWay(s).value == {} || s.restPending) <==>
      forall next :: Legal(s, next) && NoRestFails(s, next) ==> UnderWay(After(s, next)).Some?
  {
    var s := After(INITIAL, run);
    if Shut(s) {
      forall next | Legal(s, next) && NoRestFails(s, next)
        ensures UnderWay(After(s, next)).Some?
      {
        ShutStaysShut(s, next);
      }
    } else {
      RunKeepsQuietSync(INITIAL, run);
      OpenLetsAMovementIn(s, device);
    }
  }

  // ---- a run in which it does not hold -----------------------------------------------------------

  lemma RunFrom(s: Service, step: Step, run: seq<Step>)
    requires Enabled(s, step) && Legal(Apply(s, step), run)
    ensures Legal(s, [step] + run) && After(s, [step] + run) == After(Apply(s, step), run)
  {
    assert ([step] + run)[1..] == run;
  }

  /** Two rest calls wait while a movement is called; the device refuses the second while the first is under way. */
  function Overlap(state: Snapshot): seq<Step> {
    [DoState(Some(state)), DoBegin(PlayMovement(Nod), true), DoAskRest, DoAskRest, DoEnd(true)]
    + [DoBegin(EnterRestState, true), DoEnd(true), DoBegin(EnterRestState, true), DoEnd(false)]
  }

  function OverlapLog(state: Snapshot): seq<Entry> {
    [Accepted(state), Began(PlayMovement(Nod), 1), Ended(PlayMovement(Nod), 1, true),
     Began(EnterRestState, 3), Ended(EnterRestState, 3, true), Began(EnterRestState, 5),
       Ended(EnterRestState, 5, false)]
  }

  lemma TwoRests(s: Service)
    requires s.asked == 2 && s.lock.None? && !s.restPending && Permitted(s, EnterRestState, true)
    ensures var run := [DoBegin(EnterRestState, true), DoEnd(true), DoBegin(EnterRestState, true), DoEnd(false)];
      Legal(s, run) && After(s, run) ==
        s.(asked := 0, log := s.log + [Began(EnterRestState, |s.log|), Ended(EnterRestState, |s.log|, true),
                                       Began(EnterRestState, |s.log| + 2), Ended(EnterRestState, |s.log| + 2, false)])
  {
    var s1 := GetLock(s, EnterRestState, true);
    var s2 := End(s1, true);
    var s3 := GetLock(s2, EnterRestState, true);
    RunFrom(s3, DoEnd(false), []);
    RunFrom(s2, DoBegin(EnterRestState, true), [DoEnd(false)]);
    RunFrom(s1, DoEnd(true), [DoBegin(EnterRestState, true)] + [DoEnd(false)]);
    RunFrom(s, DoBegin(EnterRestState, true), [DoEnd(true)] + ([DoBegin(EnterRestState, true)] + [DoEnd(false)]));
    assert [DoEnd(false)] + [] == [DoEnd(false)];
    assert [DoBegin(EnterRestState, true), DoEnd(true), DoBegin(EnterRestState, true), DoEnd(false)]
        == [DoBegin(EnterRestState, true)] + ([DoEnd(true)] + ([DoBegin(EnterRestState, true)] + [DoEnd(false)]));
  }

  lemma Waits(state: Snapshot)
    requires (state.connection == Ready || state.connection == Degraded) && state.status != Resting
    requires Advertised(state, MotionPlay) && HasPreset(state, Nod)
    ensures var run := [DoState(Some(state)), DoBegin(PlayMovement(Nod), true), DoAskRest, DoAskRest, DoEnd(true)];
      Legal(INITIAL, run) && After(INITIAL, run) ==
        Service(Some(state), Some(state.revision), false, true, None, 2,
                [Accepted(state), Began(PlayMovement(Nod), 1), Ended(PlayMovement(Nod), 1, true)])
  {
    var s1 := OnState(INITIAL, Some(state));
    var s2 := GetLock(s1, PlayMovement(Nod), true);
    var s3 := AskRest(s2);
    var s4 := AskRest(s3);
    RunFrom(s4, DoEnd(true), []);
    RunFrom(s3, DoAskRest, [DoEnd(true)]);
    RunFrom(s2, DoAskRest, [DoAskRest] + [DoEnd(true)]);
    RunFrom(s1, DoBegin(PlayMovement(Nod), true), [DoAskRest] + ([DoAskRest] + [DoEnd(true)]));
    RunFrom(INITIAL, DoState(Some(state)),
            [DoBegin(PlayMovement(Nod), true)] + ([DoAskRest] + ([DoAskRest] + [DoEnd(true)])));
    assert [DoEnd(true)] + [] == [DoEnd(true)];
    assert [DoState(Some(state)), DoBegin(PlayMovement(Nod), true), DoAskRest, DoAskRest, DoEnd(true)]
        == [DoState(Some(state))]
          + ([DoBegin(PlayMovement(Nod), true)] + ([DoAskRest] + ([DoAskRest] + [DoEnd(true)])));
  }

  lemma {:induction false} LegalConcat(s: Service, first: seq<Step>, second: seq<Step>)
    requires Legal(s, first) && Legal(After(s, first), second)
    ensures Legal(s, first + second) && After(s, first + second) == After(After(s, first), second)
    decreases |first|
  {
    if first == [] {
      assert first + second == second;
    } else {
      assert (first + second)[1..] == first[1..] + second;
      LegalConcat(Apply(s, first[0]), first[1..], second);
    }
  }

  lemma OverlapRuns(state: Snapshot)
    requires (state.connection == Ready || state.connection == Degraded) && state.status != Resting
    requires Advertised(state, DeviceRest) && Advertised(state, MotionPlay) && HasPreset(state, Nod)
    ensures Legal(INITIAL, Overlap(state))
    ensures After(INITIAL, Overlap(state))
      == Service(Some(state), Some(state.revision), false, true, None, 0, OverlapLog(state))
  {
    var waits := [DoState(Some(state)), DoBegin(PlayMovement(Nod), true), DoAskRest, DoAskRest, DoEnd(true)];
    Waits(state);
    TwoRests(After(INITIAL, waits));
    LegalConcat(INITIAL, waits,
                [DoBegin(EnterRestState, true), DoEnd(true), DoBegin(EnterRestState, true), DoEnd(false)]);
  }

  lemma OverlapIsWatched(state: Snapshot)
    requires state.status != Resting
    ensures WatchAll({}, OverlapLog(state)) == Some({3})
  {
    var l1 := [Accepted(state)];
    var l2 := l1 + [Began(PlayMovement(Nod), 1)];
    var l3 := l2 + [Ended(PlayMovement(Nod), 1, true)];
    var l4 := l3 + [Began(EnterRestState, 3)];
    var l5 := l4 + [Ended(EnterRestState, 3, true)];
    var l6 := l5 + [Began(EnterRestState, 5)];
    var none: set<nat> := {};
    assert [] + [Accepted(state)] == l1;
    assert WatchAll({}, []) == Some({}) && WatchAll({}, l1) == Some({});
    WatchMore({}, l1, Began(PlayMovement(Nod), 1));
    WatchMore({}, l2, Ended(PlayMovement(Nod), 1, true));
    WatchMore({}, l3, Began(EnterRestState, 3));
    assert none + {3} == {3};
    WatchMore({}, l4, Ended(EnterRestState, 3, true));
    WatchMore({}, l5, Began(EnterRestState, 5));
    WatchMore({}, l6, Ended(EnterRestState, 5, false));
    assert {3} + {5} - {5} == {3};
    assert OverlapLog(state) == l6 + [Ended(EnterRestState, 5, false)];
  }

  /**
   When they do overlap it does not: a second rest call that had passed the first
   check before the first one began, and is then refused by the device, lowers
   the flag, and a movement begins while the first rest is still under way.
   */
  lemma OverlappingRestsOpenTheGate(state: Snapshot)
    requires (state.connection == Ready || state.connection == Degraded) && state.status != Resting
    requires Advertised(state, DeviceRest) && Advertised(state, MotionPlay) && HasPreset(state, Nod)
    ensures Legal(INITIAL, Overlap(state)) && Enabled(After(INITIAL, Overlap(state)), DoBegin(PlayMovement(Nod), true))
    ensures UnderWay(Apply(After(INITIAL, Overlap(state)), DoBegin(PlayMovement(Nod), true))).None?
  {
    OverlapRuns(state);
    OverlapIsWatched(state);
    var s := After(INITIAL, Overlap(state));
    WatchMore({}, s.log, Began(PlayMovement(Nod), 7));
  }

  // ---- what the service knows ------------------------------------------------------------------------

  /** The states delivered since the last invalidation, whether they were accepted or not. */
  function Delivered(log: seq<Entry>): seq<Snapshot> {
    if log == [] then []
    else
      var e := log[|log| - 1];
      if e.Invalidated? then []
      else Delivered(log[..|log| - 1]) + (if e.Accepted? || e.Rejected? then [e.state] else [])
  }

  lemma DeliveredMore(log: seq<Entry>, e: Entry)
    ensures Delivered(log + [e]) ==
      if e.Invalidated? then [] else Delivered(log) + (if e.Accepted? || e.Rejected? then [e.state] else [])
  {
    assert (log + [e])[..|log|] == log;
  }

  /** The state held was delivered last: the first since the invalidation, or the successor of the one before. */
  ghost predicate Informed(s: Service) {
    var d := Delivered(s.log);
    && s.lastRevision == (if d == [] then None else Some(d[|d| - 1].revision))
    && (s.state.Some? ==>
          && d != [] && s.state.value == d[|d| - 1]
          && (|d| == 1 || d[|d| - 1].revision == d[|d| - 2].revision + 1)
          && (s.state.value.connection == Ready || s.state.value.connection == Degraded))
  }

  /** Calls come and go; what is known stays, or is dropped. */
  lemma InformedBeside(s: Service, r: Service, e: Entry)
    requires Informed(s) && (r.log == s.log || (r.log == s.log + [e] && (e.Began? || e.Ended?)))
    requires r.lastRevision == s.lastRevision && (r.state == s.state || r.state.None?)
    ensures Informed(r)
  {
    DeliveredMore(s.log, e);
  }

  lemma InvalidateInformed(s: Service, r: Service)
    requires r.log == s.log + [Invalidated] && r.state.None? && r.lastRevision.None?
    ensures Informed(r)
  {
    DeliveredMore(s.log, Invalidated);
  }

  lemma StateKeepsInformed(s: Service, payload: Option<Snapshot>)
    requires Informed(s)
    ensures Informed(OnState(s, payload))
  {
    if payload.Some? {
      DeliveredMore(s.log, Accepted(payload.value));
      DeliveredMore(s.log, Rejected(payload.value));
    }
  }

  lemma StepKeepsInformed(s: Service, step: Step)
    requires Enabled(s, step) && Informed(s)
    ensures Informed(Apply(s, step))
  {
    var r := Apply(s, step);
    match step
    case DoState(payload) => StateKeepsInformed(s, payload);
    case DoInvalidate => InvalidateInformed(s, r);
    case DoDetach => InformedBeside(s, r, Began(SetLightColor, 0));
    case DoAskRest => InformedBeside(s, r, Began(SetLightColor, 0));
    case DoBegin(c, _) => InformedBeside(s, r, Began(c, |s.log|));
    case DoEnd(ok) => InformedBeside(s, r, Ended(s.lock.value.call, s.lock.value.id, ok));
    case DoBeginSync(_) => InvalidateInformed(s, r);
    case DoEndSync(outcome) =>
      if outcome.TimedOut? {
        InvalidateInformed(s, r);
      } else {
        InformedBeside(s, r, Began(SetLightColor, 0));
      }
  }

  lemma {:induction false} RunKeepsInformed(s: Service, run: seq<Step>)
    requires Legal(s, run) && Informed(s)
    ensures Informed(After(s, run))
    decreases |run|
  {
    if run != [] {
      StepKeepsInformed(s, run[0]);
      RunKeepsInformed(Apply(s, run[0]), run[1..]);
    }
  }

  /**
   A call begins only on the state delivered last, and only if no update is
   missing before it: it is the first since the service was (re)synchronised, or
   its revision continues the previous delivery.
   */
  lemma CallsNeedContiguousState(run: seq<Step>, c: Call, connected: bool)
    requires Legal(INITIAL, run) && After(INITIAL, run).lock.None?
    requires Begin(After(INITIAL, run), c, connected).lock.Some?
    ensures var s := After(INITIAL, run);
      var d := Delivered(s.log);
      && connected && d != [] && s.state == Some(d[|d| - 1])
      && (|d| == 1 || d[|d| - 1].revision == d[|d| - 2].revision + 1)
      && (d[|d| - 1].connection == Ready || d[|d| - 1].connection == Degraded)
  {
    RunKeepsInformed(INITIAL, run);
  }

  // ---- which calls may begin -----------------------------------------------------------------------

  /** What the log tells: the revision delivered last, and the state accepted last unless it was dropped since. */
  datatype Knowledge = Knowledge(last: Option<int>, held: Option<Snapshot>)

  const IGNORANT: Knowledge := Knowledge(None, None)

  /** The first state, or the next one, of a device that can be reached. */
  predicate Usable(k: Knowledge, state: Snapshot) {
    && (k.last.Some? ==> state.revision == k.last.value + 1)
    && !state.connection.Connecting? && !state.connection.Offline?
  }

  predicate Controls(state: Snapshot, tool: CommandType) {
    tool in state.capabilities.commands && state.capabilities.commands[tool].ControlScope?
  }

  /** A device in this state can do what is called for; a resting one can only wake up. */
  predicate CanDo(state: Snapshot, c: Call) {
    match c
    case PlayMovement(name) =>
      && Controls(state, MotionPlay) && name in PresetNames(state.capabilities.presets)
      && !(state.status.Resting? && name != WakeUp)
    case SetLightColor =>
      Controls(state, LightSolid) && exists l :: l in state.capabilities.lights && l.target.HeadMatrix?
    case SetLightBrightness =>
      Controls(state, LightBrightness) && exists l :: l in state.capabilities.lights && l.target.HeadMatrix?
    case EnterRestState => Controls(state, DeviceRest) && !state.status.Resting?
  }

  /** States are accepted exactly if they are usable; calls begin only on a held state in which the device can do it. */
  function Learn(k: Knowledge, e: Entry): Option<Knowledge> {
    match e
    case Accepted(state) => if Usable(k, state) then Some(Knowledge(Some(state.revision), Some(state))) else None
    case Rejected(state) => if Usable(k, state) then None else Some(Knowledge(Some(state.revision), None))
    case Invalidated => Some(IGNORANT)
    case Began(call, _) => if k.held.Some? && CanDo(k.held.value, call) then Some(k) else None
    case Ended(_, _, _) => Some(k)
  }

  function LearnAll(log: seq<Entry>): Option<Knowledge> {
    if log == [] then Some(IGNORANT)
    else
      var before := LearnAll(log[..|log| - 1]);
      if before.None? then None else Learn(before.value, log[|log| - 1])
  }

  lemma LearnMore(log: seq<Entry>, e: Entry)
    ensures LearnAll(log + [e]) == if LearnAll(log).None? then None else Learn(LearnAll(log).value, e)
  {
    assert (log + [e])[..|log|] == log;
  }

  lemma CanDoIff(s: Service, c: Call, connected: bool)
    ensures Permitted(s, c, connected) <==>
      connected && s.state.Some? && CanDo(s.state.value, c) && (c.PlayMovement? ==> !s.restPending)
  {
    if s.state.Some? {
      var caps := s.state.value.capabilities;
      assert c.PlayMovement? && HasPreset(s.state.value, c.name) ==> exists i ::
          0 <= i < |caps.presets| && PresetNames(caps.presets)[i] == c.name;
      assert c.PlayMovement? && c.name in PresetNames(caps.presets) ==> exists i ::
          0 <= i < |caps.presets| && caps.presets[i].name == c.name;
    }
  }

  /** The service knows what the log tells, or less. */
  ghost predicate Learned(s: Service) {
    var k := LearnAll(s.log);
    && k.Some? && s.lastRevision == k.value.last
    && (s.state.Some? ==> s.state == k.value.held && s.ready)
    && (s.ready ==> k.value.held.Some?)
  }

  /** One more entry, after which the service still knows at most what the log tells. */
  lemma EntryKeepsLearned(s: Service, r: Service, e: Entry)
    requires Learned(s) && r.log == s.log + [e]
    requires var k := Learn(LearnAll(s.log).value, e);
      && k.Some? && r.lastRevision == k.value.last
      && (r.state.Some? ==> r.state == k.value.held && r.ready) && (r.ready ==> k.value.held.Some?)
    ensures Learned(r)
  {
    LearnMore(s.log, e);
  }

  lemma StateKeepsLearned(s: Service, payload: Option<Snapshot>)
    requires Learned(s)
    ensures Learned(OnState(s, payload))
  {
    var r := OnState(s, payload);
    if payload.Some? {
      EntryKeepsLearned(s, r, r.log[|s.log|]);
    }
  }

  lemma BeginKeepsLearned(s: Service, c: Call, connected: bool)
    requires Learned(s)
    ensures Learned(Begin(s, c, connected))
  {
    CanDoIff(s, c, connected);
    if Permitted(s, c, connected) {
      EntryKeepsLearned(s, Begin(s, c, connected), Began(c, |s.log|));
    }
  }

  lemma InvalidateKeepsLearned(s: Service)
    requires Learned(s)
    ensures Learned(Invalidate(s))
  {
    EntryKeepsLearned(s, Invalidate(s), Invalidated);
  }

  lemma StepKeepsLearned(s: Service, step: Step)
    requires Enabled(s, step) && Learned(s)
    ensures Learned(Apply(s, step))
  {
    match step
    case DoState(payload) => StateKeepsLearned(s, payload);
    case DoInvalidate => InvalidateKeepsLearned(s);
    case DoDetach =>
    case DoAskRest =>
    case DoBegin(c, connected) =>
      BeginKeepsLearned(if c.EnterRestState? then s.(asked := s.asked - 1) else s, c, connected);
    case DoEnd(ok) => EntryKeepsLearned(s, End(s, ok), Ended(s.lock.value.call, s.lock.value.id, ok));
    case DoBeginSync(_) =>
      InvalidateKeepsLearned(s);
      LockKeepsLearned(Invalidate(s), Apply(s, step));
    case DoEndSync(outcome) =>
      InvalidateKeepsLearned(s);
      LockKeepsLearned(if outcome.TimedOut? then Invalidate(s) else s, Apply(s, step));
  }

  lemma LockKeepsLearned(s: Service, r: Service)
    requires Learned(s) && r == s.(lock := r.lock)
    ensures Learned(r)
  {
  }

  lemma {:induction false} RunKeepsLearned(s: Service, run: seq<Step>)
    requires Legal(s, run) && Learned(s)
    ensures Learned(After(s, run))
    decreases |run|
  {
    if run != [] {
      StepKeepsLearned(s, run[0]);
      RunKeepsLearned(Apply(s, run[0]), run[1..]);
    }
  }

  /**
   On every run: exactly the usable states are accepted, and a call begins only
   on the state accepted last, not dropped since, in which the device can do it;
   a resting device is only ever called to wake up.  A synchronisation is answered
   only after a state was accepted since it began.
   */
  lemma CallsFitTheState(run: seq<Step>)
    requires Legal(INITIAL, run)
    ensures LearnAll(After(INITIAL, run).log).Some?
    ensures var s := After(INITIAL, run);
      Enabled(s, DoEndSync(Answered)) ==> LearnAll(s.log).value.held.Some?
  {
    RunKeepsLearned(INITIAL, run);
  }

  /** The converse: a call that gets the lock begins exactly if it may. */
  lemma CallBeginsExactlyWhen(s: Service, c: Call, connected: bool)
    requires s.lock.None? && (c.EnterRestState? ==> s.asked > 0)
    ensures var r := GetLock(s, c, connected);
      if connected && s.state.Some? && CanDo(s.state.value, c) && !(c.PlayMovement? && s.restPending) then
        && r.lock == Some(Calling(c, |s.log|)) && r.log == s.log + [Began(c, |s.log|)]
        && r.restPending == (s.restPending || c.EnterRestState?) && r.state == s.state
      else
        && r.lock.None? && r.log == s.log && r.restPending == s.restPending
        && r.state == (if connected then s.state else None)
  {
    CanDoIff(s, c, connected);
  }

  // ---- waiting and detaching --------------------------------------------------------------------------

  /** Rest calls that found the flag down and have not got the lock yet. */
  function Waiting(s: Service, run: seq<Step>, waiting: int): int
    requires Legal(s, run)
    decreases |run|
  {
    if run == [] then waiting
    else
      var next :=
        match run[0]
        case DoAskRest => if s.restPending then waiting else waiting + 1
        case DoBegin(c, _) => if c.EnterRestState? then waiting - 1 else waiting
        case _ => waiting;
      Waiting(Apply(s, run[0]), run[1..], next)
  }

  /** On every run exactly the rest calls wait for the lock that found the flag down when they asked. */
  lemma {:induction false} RestsWaitIfTheFlagWasDown(s: Service, run: seq<Step>)
    requires Legal(s, run)
    ensures After(s, run).asked == Waiting(s, run, s.asked)
    decreases |run|
  {
    if run != [] {
      RestsWaitIfTheFlagWasDown(Apply(s, run[0]), run[1..]);
    }
  }

  /** Steps that do not bring a usable state. */
  predicate Blind(s: Service, run: seq<Step>)
    requires Legal(s, run)
    decreases |run|
  {
    run == [] || (
      && (run[0].DoState? && run[0].payload.Some? ==> !Usable(Knowledge(s.lastRevision, None), run[0].payload.value))
      && Blind(Apply(s, run[0]), run[1..]))
  }

  lemma {:induction false} NothingBeginsBlind(s: Service, run: seq<Step>)
    requires s.state.None? && Legal(s, run) && Blind(s, run)
    ensures After(s, run).state.None?
    ensures After(s, run).lock.Some? && s.lock.None? ==> After(s, run).lock == Some(Synchronizing)
    ensures After(s, run).lock.Some? && After(s, run).lock.value.Calling? ==> After(s, run).lock == s.lock
    decreases |run|
  {
    if run != [] {
      NothingBeginsBlind(Apply(s, run[0]), run[1..]);
    }
  }

  /**
   After detaching, an invalid payload, or a synchronisation that begins, no call
   begins until a usable state has come.
   */
  lemma NothingBeginsUntilAState(s: Service, step: Step, run: seq<Step>)
    requires step.DoDetach? || step.DoInvalidate? || step == DoState(None) || step.DoBeginSync?
    requires Enabled(s, step) && Legal(Apply(s, step), run) && Blind(Apply(s, step), run)
    ensures After(Apply(s, step), run).state.None? && !Apply(s, step).ready
    ensures var r := After(Apply(s, step), run);
      r.lock.Some? && r.lock.value.Calling? ==> r.lock == s.lock
  {
    NothingBeginsBlind(Apply(s, step), run);
  }
}
