/** How the router's mirror advances: read from its history, and what staleness means. */
module RouterMirror {
  import opened Common
  import opened Protocol
  import opened Routing
  import opened RouterSafety

  // ---- an independent reading of the history ------------------------------------------------

  /** The revision held, the gaps seen since it was adopted, and whether the transport was lost since. */
  datatype Watched = Nothing | Watched(revision: int, gaps: seq<int>, lost: bool)

  /** Until the transport is lost, only larger revisions are adopted, at or above every gap seen since the last one. */
  function Watch(w: Watched, n: Note): Option<Watched> {
    match n
    case Began(revision, lost) => Some(Watched(revision, [], lost))
    case Lost => if w.Nothing? then Some(w) else Some(Watched(w.revision, [], true))
    case Gap(revision) =>
      if w.Nothing? || revision <= w.revision + 1 then None else Some(w.(gaps := w.gaps + [revision]))
    case Adopted(revision) =>
      if w.Nothing? then None
      else if w.lost then Some(Watched(revision, [], false))
      else if w.revision < revision && forall g :: g in w.gaps ==> g <= revision then Some(Watched(revision, [], false))
      else None
  }

  function WatchAll(w: Watched, history: seq<Note>): Option<Watched>
    decreases |history|
  {
    if history == [] then Some(w)
    else
      var next := Watch(w, history[0]);
      if next.None? then None else WatchAll(next.value, history[1..])
  }

  lemma {:induction false} WatchMore(w: Watched, history: seq<Note>, n: Note)
    requires WatchAll(w, history).Some?
    ensures WatchAll(w, history + [n]) == Watch(WatchAll(w, history).value, n)
    decreases |history|
  {
    if history == [] {
      assert [n][1..] == [];
      assert history + [n] == [n];
    } else {
      assert (history + [n])[1..] == history[1..] + [n];
      WatchMore(Watch(w, history[0]).value, history[1..], n);
    }
  }

  /** The largest gap, if there is one. */
  function Largest(gaps: seq<int>): Option<int> {
    if gaps == [] then None
    else
      var rest := Largest(gaps[..|gaps| - 1]);
      if rest.None? || gaps[|gaps| - 1] > rest.value then Some(gaps[|gaps| - 1]) else rest
  }

  lemma {:induction false} LargestIsLargest(gaps: seq<int>)
    ensures Largest(gaps).None? <==> gaps == []
    ensures forall g :: g in gaps ==> Largest(gaps).Some? && g <= Largest(gaps).value
    ensures gaps != [] ==> Largest(gaps).value in gaps
  {
    if gaps != [] {
      LargestIsLargest(gaps[..|gaps| - 1]);
      assert gaps == gaps[..|gaps| - 1] + [gaps[|gaps| - 1]];
    }
  }

  lemma LargestOfMore(gaps: seq<int>, g: int)
    ensures Largest(gaps + [g]) == if Largest(gaps).None? || g > Largest(gaps).value then Some(g) else Largest(gaps)
  {
    assert (gaps + [g])[..|gaps|] == gaps;
  }

  /** The mirror is what the history says: its revision, its loss, and a floor that is the largest gap. */
  ghost predicate Follows(m: Mirror, w: Watched) {
    && WatchAll(Nothing, m.history) == Some(w)
    && (w.Nothing? <==> m.state.None?)
    && (w.Watched? ==> w.revision == m.state.value.revision && w.lost == m.transportStale && m.floor == Largest(w.gaps))
  }

  ghost predicate Faithful(m: Mirror) {
    && (exists w :: Follows(m, w))
    && (!m.stale ==> m.floor.None?)
    && (m.state.None? ==> m.floor.None?)
  }

  lemma BeginIsFaithful(m: Mirror, state: Snapshot, stale: bool, lost: bool)
    requires Faithful(m)
    ensures Faithful(Begin(m, state, stale, lost))
  {
    var w :| Follows(m, w);
    WatchMore(Nothing, m.history, Began(state.revision, lost));
    assert Follows(Begin(m, state, stale, lost), Watched(state.revision, [], lost));
  }

  lemma LostIsFaithful(m: Mirror)
    requires Faithful(m)
    ensures Faithful(MarkLost(m))
  {
    var w :| Follows(m, w);
    WatchMore(Nothing, m.history, Lost);
    assert Follows(MarkLost(m), if w.Nothing? then w else Watched(w.revision, [], true));
  }

  lemma RaiseFollows(m: Mirror, w: Watched, revision: int)
    requires Follows(m, w) && m.state.Some? && revision > m.state.value.revision + 1
    ensures Follows(RaiseFloor(m, revision), w.(gaps := w.gaps + [revision]))
  {
    WatchMore(Nothing, m.history, Gap(revision));
    LargestOfMore(w.gaps, revision);
  }

  lemma AdoptFollows(m: Mirror, w: Watched, state: Snapshot)
    requires Follows(m, w) && m.state.Some?
    requires m.transportStale
      || (m.state.value.revision < state.revision && (m.floor.None? || m.floor.value <= state.revision))
    ensures Follows(Adopt(m, state), Watched(state.revision, [], false))
  {
    WatchMore(Nothing, m.history, Adopted(state.revision));
    LargestIsLargest(w.gaps);
  }

  /** Processing a state update keeps the mirror faithful. */
  lemma ProcessIsFaithful(m: Mirror, payload: Reading, view: TargetView)
    requires Faithful(m) && m.state.Some?
    ensures Faithful(ProcessState(m, payload, view).mirror)
  {
    var w :| Follows(m, w);
    var p := ProcessState(m, payload, view).mirror;
    if p != m && RevisionOf(payload).Some? {
      var revision := RevisionOf(payload).value;
      var current := m.state.value.revision;
      var gap := revision > current + 1;
      var raised := if gap then RaiseFloor(m, revision) else m;
      var reset := Authoritative(m, view, revision, current, true);
      if m.transportStale && reset.Some? {
        AdoptFollows(m, w, reset.value);
        assert Follows(p, Watched(reset.value.revision, [], false));
      } else {
        if gap {
          RaiseFollows(m, w, revision);
        }
        var w' := if gap then w.(gaps := w.gaps + [revision]) else w;
        assert Follows(raised, w');
        AfterGap(raised, w', m, payload, view);
      }
    }
  }

  /** What follows once the floor stands. */
  lemma AfterGap(raised: Mirror, w: Watched, m: Mirror, payload: Reading, view: TargetView)
    requires m.state.Some? && RevisionOf(payload).Some? && Faithful(m)
    requires var revision := RevisionOf(payload).value;
      && revision > m.state.value.revision
      && raised == (if revision > m.state.value.revision + 1 then RaiseFloor(m, revision) else m)
      && !(m.transportStale && Authoritative(m, view, revision, m.state.value.revision, true).Some?)
    requires Follows(raised, w)
    ensures Faithful(ProcessState(m, payload, view).mirror)
  {
    var p := ProcessState(m, payload, view).mirror;
    if p.state == raised.state && p.history == raised.history {
      assert Follows(p, w);
    } else {
      AdoptFollows(raised, w, p.state.value);
      assert Follows(p, Watched(p.state.value.revision, [], false));
    }
  }

  lemma EventIsFaithful(r: Router, a: Activation, e: TargetEvent, view: TargetView)
    requires Faithful(r.mirror)
    ensures Faithful(ProcessEvent(r, a, e, view).mirror)
  {
    if e.StateUpdate? && r.mirror.state.Some? {
      ProcessIsFaithful(r.mirror, e.payload, view);
    }
  }

  lemma StepKeepsFaithful(r: Router, s: Step)
    requires Enabled(r, s) && Faithful(r.mirror)
    ensures Faithful(Apply(r, s).mirror)
  {
    match s
    case DoPrepareStart(_, _, _) =>
    case DoCommitStart(stale) =>
      if STARTUP in r.selections {
        BeginIsFaithful(r.mirror, r.selections[STARTUP].state, stale, r.mirror.transportStale);
      }
    case DoBeginSelect(_, _, _, _, _) =>
    case DoCommitSelect(id, _, stale) => BeginIsFaithful(r.mirror, r.selections[id].state, stale, stale);
    case DoBeginRoute(_, _, _, _, _) => LostIsFaithful(r.mirror);
    case DoEndRoute(_) =>
    case DoEvent(k, e, view) => EventIsFaithful(r, r.activations[k], e, view);
    case DoLook(_) => LostIsFaithful(r.mirror);
    case DoClose =>
    case DoDetach =>
  }

  lemma {:induction false} RunKeepsFaithful(r: Router, run: seq<Step>)
    requires Faithful(r.mirror) && Legal(r, run)
    ensures Faithful(After(r, run).mirror)
    decreases |run|
  {
    if run != [] {
      StepKeepsFaithful(r, run[0]);
      RunKeepsFaithful(Apply(r, run[0]), run[1..]);
    }
  }

  /**
   On every run from a new router the history passes the watch: within an epoch
   and between losses of the transport, adopted revisions strictly grow and clear
   every gap; a router that is not stale has no floor, and a floor is the largest
   gap since the last adoption.
   */
  lemma AdoptionsGrow(r: Router, run: seq<Step>)
    requires Initial(r) && Legal(r, run)
    ensures var m := After(r, run).mirror;
      && WatchAll(Nothing, m.history).Some?
      && (!m.stale ==> m.floor.None?)
      && (m.state.Some? ==>
            var w := WatchAll(Nothing, m.history).value;
            w.Watched? && w.revision == m.state.value.revision && m.floor == Largest(w.gaps))
  {
    assert Follows(r.mirror, Nothing);
    RunKeepsFaithful(r, run);
    var w :| Follows(After(r, run).mirror, w);
  }

  // ---- the two ways to adopt --------------------------------------------------------------------

  /**
   While the transport is up, a state is adopted in one of two ways: the event's
   own payload, exactly one ahead of a mirror that is not stale; or the target's
   own state with exactly the event's revision, to close a gap or end staleness,
   and not below the floor.
   */
  lemma AdoptionCases(m: Mirror, payload: Reading, view: TargetView)
    requires m.state.Some? && !m.transportStale && (!m.stale ==> m.floor.None?)
    requires ProcessState(m, payload, view).mirror.state != m.state
    ensures var s := ProcessState(m, payload, view).mirror.state.value;
      && RevisionOf(payload) == Some(s.revision) && m.state.value.revision < s.revision
      && ((payload == Complete(s) && !m.stale && s.revision == m.state.value.revision + 1)
          || (view.reading == Complete(s) && !view.stale && (m.stale || s.revision > m.state.value.revision + 1)
              && (m.floor.Some? ==> m.floor.value <= s.revision)))
    ensures !ProcessState(m, payload, view).mirror.stale
  {
  }

  /** Staleness ends with an event exactly if the target itself vouches for the event's revision. */
  lemma LeavingStaleness(m: Mirror, payload: Reading, view: TargetView)
    requires m.state.Some? && m.stale
    ensures !ProcessState(m, payload, view).mirror.stale <==>
      (&& RevisionOf(payload).Some? && view.reading.Complete? && !view.stale
       && view.reading.state.revision == RevisionOf(payload).value
       && (m.transportStale || (m.state.value.revision < RevisionOf(payload).value
                                && (m.floor.None? || m.floor.value <= RevisionOf(payload).value))))
  {
  }

  // ---- transport-stale implies stale: exactly when -------------------------------------------------

  predicate Coherent(m: Mirror) {
    m.transportStale ==> m.stale
  }

  lemma ProcessKeepsCoherent(m: Mirror, payload: Reading, view: TargetView)
    requires Coherent(m) && m.state.Some?
    ensures Coherent(ProcessState(m, payload, view).mirror)
  {
  }

  lemma EventKeepsCoherent(r: Router, a: Activation, e: TargetEvent, view: TargetView)
    requires Coherent(r.mirror)
    ensures Coherent(ProcessEvent(r, a, e, view).mirror)
  {
    if e.StateUpdate? && r.mirror.state.Some? {
      ProcessKeepsCoherent(r.mirror, e.payload, view);
    }
  }

  /** The end of start-up with the transport marked lost before and a target that is not stale. */
  predicate StartsIncoherent(r: Router, s: Step) {
    s.DoCommitStart? && STARTUP in r.selections && !r.closed && r.mirror.transportStale && !s.targetStale
  }

  /** Only the end of start-up can break it, and does so exactly if the transport was marked lost before. */
  lemma StepKeepsCoherent(r: Router, s: Step)
    requires Enabled(r, s) && Coherent(r.mirror)
    ensures Coherent(Apply(r, s).mirror) <==>
      !StartsIncoherent(r, s)
  {
    match s
    case DoPrepareStart(_, _, _) =>
    case DoCommitStart(_) =>
    case DoBeginSelect(_, _, _, _, _) =>
    case DoCommitSelect(_, _, _) =>
    case DoBeginRoute(_, _, _, _, _) =>
    case DoEndRoute(_) =>
    case DoEvent(k, e, view) => EventKeepsCoherent(r, r.activations[k], e, view);
    case DoLook(_) =>
    case DoClose =>
    case DoDetach =>
  }

  /** Some step of the run is such a start-up. */
  predicate SomeStartIsIncoherent(r: Router, run: seq<Step>)
    requires Legal(r, run)
    decreases |run|
  {
    run != [] && (StartsIncoherent(r, run[0]) || SomeStartIsIncoherent(Apply(r, run[0]), run[1..]))
  }

  /** Every state that the run passes through is coherent. */
  predicate AlwaysCoherent(r: Router, run: seq<Step>)
    requires Legal(r, run)
    decreases |run|
  {
    Coherent(r.mirror) && (run == [] || AlwaysCoherent(Apply(r, run[0]), run[1..]))
  }

  /** Exactly when a whole run is coherent. */
  lemma {:induction false} AlwaysCoherentIff(r: Router, run: seq<Step>)
    requires Coherent(r.mirror) && Legal(r, run)
    ensures AlwaysCoherent(r, run) <==> !SomeStartIsIncoherent(r, run)
    decreases |run|
  {
    if run != [] {
      StepKeepsCoherent(r, run[0]);
      if Coherent(Apply(r, run[0]).mirror) {
        AlwaysCoherentIff(Apply(r, run[0]), run[1..]);
      }
    }
  }

  /** No snapshot was taken of a target that was not ready before the router had started. */
  predicate NotLookedAtTooEarly(r: Router, run: seq<Step>)
    requires Legal(r, run)
    decreases |run|
  {
    run == [] || (
      && (run[0].DoLook? && !r.started ==> Look(r, run[0].connection) == r)
      && NotLookedAtTooEarly(Apply(r, run[0]), run[1..]))
  }

  lemma EventBeforeStart(r: Router, k: nat, e: TargetEvent, view: TargetView)
    requires SubscriptionOk(r) && !r.started && k < |r.activations|
    ensures ProcessEvent(r, r.activations[k], e, view).mirror == r.mirror
  {
    assert !r.activations[k].committed;
  }

  /** Before the router has started, only looking can mark the transport lost. */
  lemma OnlyLooksLose(r: Router, s: Step)
    requires SubscriptionOk(r) && Enabled(r, s) && !Apply(r, s).started
    requires s.DoLook? ==> Look(r, s.connection) == r
    ensures !r.started && Apply(r, s).mirror.transportStale == r.mirror.transportStale
  {
    if s.DoEvent? {
      EventBeforeStart(r, s.activation, s.event, s.view);
    }
  }

  lemma {:induction false} RunKeepsCoherent(r: Router, run: seq<Step>)
    requires Inv(r) && Coherent(r.mirror) && Legal(r, run) && NotLookedAtTooEarly(r, run)
    requires !r.started ==> !r.mirror.transportStale
    ensures Coherent(After(r, run).mirror)
    decreases |run|
  {
    if run != [] {
      StepKeepsCoherent(r, run[0]);
      if !Apply(r, run[0]).started {
        OnlyLooksLose(r, run[0]);
      }
      StepKeepsInv(r, run[0]);
      RunKeepsCoherent(Apply(r, run[0]), run[1..]);
    }
  }

  /** A router nobody asked for a snapshot before it had started is stale whenever its transport is. */
  lemma TransportStaleImpliesStale(r: Router, run: seq<Step>)
    requires Initial(r) && Legal(r, run) && NotLookedAtTooEarly(r, run)
    ensures Coherent(After(r, run).mirror)
  {
    InitialInv(r);
    RunKeepsCoherent(r, run);
  }

  /** The run that shows the condition is needed: asked too early, the router starts transport-stale but not stale. */
  lemma LookedAtTooEarly(r: Router, state: Snapshot)
    requires Initial(r) && r.active.Some?
    ensures var view := TargetView(Complete(state), false, Some(Degraded), "");
      var run := [DoLook(Some(Degraded)), DoPrepareStart(true, view, true), DoCommitStart(false)];
      Legal(r, run) && !Coherent(After(r, run).mirror)
  {
    var view := TargetView(Complete(state), false, Some(Degraded), "");
    var run := [DoLook(Some(Degraded)), DoPrepareStart(true, view, true), DoCommitStart(false)];
    var a := Apply(r, run[0]);
    var b := Apply(a, run[1]);
    var c := Apply(b, run[2]);
    assert run[1..][1..][1..] == [];
    assert Legal(c, run[1..][1..][1..]);
    assert Legal(b, run[1..][1..]);
    assert Legal(a, run[1..]);
    assert After(r, run) == After(a, run[1..]) == After(b, run[1..][1..]) == After(c, run[1..][1..][1..]) == c;
  }
}
