/** The console hub: many sessions, of which one at a time controls the device. */
module Hub {
  import opened Common
  import opened Lease

  /** The lease, the lease each session has stored, and the sessions that are connected. */
  datatype HubState = HubState(lease: State, stored: map<Session, Option<Grant>>, clients: set<Session>)

  /** Four successive readings of the clock; a call takes as many of them as it needs. */
  datatype Readings = Readings(first: Time, second: Time, third: Time, fourth: Time)

  predicate InOrder(s: State, t: Readings) {
    s.now <= t.first <= t.second <= t.third <= t.fourth
  }

  function Held(h: HubState, held: Option<Grant>, now: Time): HubState {
    h.(lease := h.lease.(held := held, now := now))
  }

  function Stored(h: HubState, s: Session): Option<Grant> {
    if s in h.stored then h.stored[s] else None
  }

  function Keep(r: LeaseResult): Option<Grant> {
    if r.Granted? then Some(r.grant) else None
  }

  /** acquire_control with the result stored for the session. */
  function Acquired(h: HubState, s: Session, token: Token, at: Time, later: Time, ttl: Time): HubState {
    var r := AcquireResult(h.lease.held, s, token, at, later, ttl);
    h.(lease := Lease.Apply(h.lease, DoAcquire(s, token, at, later), ttl), stored := h.stored[s := Keep(r)])
  }

  /** _ConsoleHub.add: a new session takes the lease if it is free. */
  function Add(h: HubState, s: Session, token: Token, t: Readings, ttl: Time): HubState {
    Acquired(h, s, token, t.first, t.second, ttl).(clients := h.clients + {s})
  }

  function TakeResult(h: HubState, s: Session, token: Token, t: Readings, ttl: Time): LeaseResult {
    var owner := Active(h.lease.held, t.first);
    if owner.Some? && owner.value.owner == s && Stored(h, s).Some? then Granted(Stored(h, s).value)
    else if owner.Some? && (owner.value.owner !in h.clients || Stored(h, owner.value.owner).None?)
      then Refused(Unavailable)
    else if owner.Some? && !Validates(owner, Lease.Held(Stored(h, owner.value.owner).value), t.second)
      then Refused(InvalidLease)
    else AcquireResult(None, s, token, t.third, t.fourth, ttl)
  }

  /** take_control itself: the owner's lease is released before the taker acquires. */
  function Handover(h: HubState, s: Session, token: Token, t: Readings, ttl: Time): HubState {
    var owner := Active(h.lease.held, t.first);
    if owner.Some? && ((owner.value.owner == s && Stored(h, s).Some?)
                       || owner.value.owner !in h.clients || Stored(h, owner.value.owner).None?)
    then Held(h, owner, t.first)
    else if owner.Some? && !Validates(owner, Lease.Held(Stored(h, owner.value.owner).value), t.second)
    then Held(h, Active(owner, t.second), t.second)
    else
      var released := if owner.Some? then h.stored[owner.value.owner := None] else h.stored;
      HubState(Lease.Apply(h.lease.(held := None), DoAcquire(s, token, t.third, t.fourth), ttl), released[s := None],
               h.clients)
  }

  /** The taker stores a grant; a refusal with invalid_control_lease makes it drop what it had. */
  function Take(h: HubState, s: Session, token: Token, t: Readings, ttl: Time): HubState {
    var m := Handover(h, s, token, t, ttl);
    match TakeResult(h, s, token, t, ttl)
    case Granted(grant) => m.(stored := m.stored[s := Some(grant)])
    case Refused(error) => if error == InvalidLease then m.(stored := m.stored[s := None]) else m
  }

  /** console.renew_control; a session without a stored lease is read-only. */
  function Renew(h: HubState, s: Session, t: Readings, ttl: Time): HubState {
    if Stored(h, s).None? then h
    else
      var c := Lease.Held(Stored(h, s).value);
      h.(lease := Lease.Apply(h.lease, DoRenew(c, t.first, t.second), ttl),
         stored := h.stored[s := Keep(RenewResult(h.lease.held, c, t.first, t.second, ttl))])
  }

  const INVALID_CONTROL_LEASE := "invalid_control_lease"

  /**
   _send_router_error: what drops a stored lease is the code, whoever it comes
   from.  A device may answer a routed command with any code.
   */
  function SendError(h: HubState, s: Session, code: string): HubState
    requires s in h.stored
  {
    if code == INVALID_CONTROL_LEASE then h.(stored := h.stored[s := None]) else h
  }

  /** Any other call with the stored lease: a refused credential is dropped. */
  function Use(h: HubState, s: Session, t: Readings): HubState {
    if Stored(h, s).None? then h
    else
      var c := Lease.Held(Stored(h, s).value);
      var r := Held(h, Active(h.lease.held, t.first), t.first);
      if Validates(h.lease.held, c, t.first) then r else SendError(r, s, INVALID_CONTROL_LEASE)
  }

  /** _remove_core: the session leaves and gives its lease back. */
  function Remove(h: HubState, s: Session, t: Readings): HubState {
    var gone := h.(clients := h.clients - {s});
    if Stored(h, s).None? then gone
    else
      var c := Lease.Held(Stored(h, s).value);
      Held(gone, if Validates(h.lease.held, c, t.first) then None else Active(h.lease.held, t.first), t.first)
        .(stored := h.stored[s := None])
  }

  datatype HubStep =
    | DoAdd(session: Session, token: Token, t: Readings)
    | DoTake(session: Session, token: Token, t: Readings)
    | DoRenewal(session: Session, t: Readings)
    | DoUse(session: Session, t: Readings)
    | DoDeviceError(session: Session, code: string, t: Readings)
    | DoRemove(session: Session, t: Readings)

  function Apply(h: HubState, step: HubStep, ttl: Time): HubState
    requires Allowed(h, step)
  {
    match step
    case DoAdd(s, token, t) => Add(h, s, token, t, ttl)
    case DoTake(s, token, t) => Take(h, s, token, t, ttl)
    case DoRenewal(s, t) => Renew(h, s, t, ttl)
    case DoUse(s, t) => Use(h, s, t)
    case DoDeviceError(s, code, _) => SendError(h, s, code)
    case DoRemove(s, t) => Remove(h, s, t)
  }

  /** Session ids and tokens are fresh; a session that has left may still have a message under way. */
  predicate Allowed(h: HubState, step: HubStep) {
    && InOrder(h.lease, step.t)
    && (step.DoAdd? ==> step.session !in h.stored && step.token !in h.lease.issued)
    && (step.DoTake? ==> step.session in h.stored && step.token !in h.lease.issued)
    && (!step.DoAdd? ==> step.session in h.stored)
  }

  predicate Legal(h: HubState, run: seq<HubStep>, ttl: Time)
    decreases |run|
  {
    run == [] || (Allowed(h, run[0]) && Legal(Apply(h, run[0], ttl), run[1..], ttl))
  }

  function After(h: HubState, run: seq<HubStep>, ttl: Time): HubState
    requires Legal(h, run, ttl)
    decreases |run|
  {
    if run == [] then h else After(Apply(h, run[0], ttl), run[1..], ttl)
  }

  /** A stored lease names its session; the owner of the lease in force has stored that one or none. */
  ghost predicate Inv(h: HubState) {
    && Lease.Ok(h.lease)
    && h.clients <= h.stored.Keys
    && (forall s :: s in h.stored && h.stored[s].Some? ==>
          h.stored[s].value.owner == s && h.stored[s].value.token in h.lease.issued)
    && (Active(h.lease.held, h.lease.now).Some? && Stored(h, h.lease.held.value.owner).Some? ==>
          Stored(h, h.lease.held.value.owner) == h.lease.held)
  }

  /** The owner of the lease in force has it stored. */
  predicate OwnerHasIt(h: HubState) {
    Active(h.lease.held, h.lease.now).Some? ==> Stored(h, h.lease.held.value.owner) == h.lease.held
  }

  predicate Empty(h: HubState) {
    h.lease.held.None? && h.stored == map[] && h.clients == {}
  }

  /** Acquiring over a free lease, with what the others have stored kept or dropped. */
  lemma FreshGrantKeepsInv(h: HubState, s: Session, token: Token, t: Readings, ttl: Time,
                           stored: map<Session, Option<Grant>>)
    requires Inv(h) && s in h.stored && InOrder(h.lease, t) && token !in h.lease.issued
    requires stored.Keys == h.stored.Keys
    requires forall x :: x in stored ==> stored[x].None? || stored[x] == h.stored[x]
    ensures var r := AcquireResult(None, s, token, t.third, t.fourth, ttl);
      Inv(HubState(Lease.Apply(h.lease.(held := None), DoAcquire(s, token, t.third, t.fourth), ttl),
                   stored[s := Keep(r)], h.clients))
  {
  }

  lemma TakeKeepsInv(h: HubState, s: Session, token: Token, t: Readings, ttl: Time)
    requires Inv(h) && Allowed(h, DoTake(s, token, t))
    ensures Inv(Take(h, s, token, t, ttl))
  {
    var owner := Active(h.lease.held, t.first);
    var released := if owner.Some? then h.stored[owner.value.owner := None] else h.stored;
    if TakeResult(h, s, token, t, ttl).Granted? && !(owner.Some? && owner.value.owner == s) {
      FreshGrantKeepsInv(h, s, token, t, ttl, released);
      var r := AcquireResult(None, s, token, t.third, t.fourth, ttl);
      assert released[s := None][s := Keep(r)] == released[s := Keep(r)];
    }
  }

  lemma AddKeepsInv(h: HubState, s: Session, token: Token, t: Readings, ttl: Time)
    requires Inv(h) && Allowed(h, DoAdd(s, token, t))
    ensures Inv(Add(h, s, token, t, ttl))
  {
  }

  lemma RenewKeepsInv(h: HubState, s: Session, t: Readings, ttl: Time)
    requires Inv(h) && Allowed(h, DoRenewal(s, t))
    ensures Inv(Renew(h, s, t, ttl))
  {
  }

  lemma UseKeepsInv(h: HubState, s: Session, t: Readings)
    requires Inv(h) && Allowed(h, DoUse(s, t))
    ensures Inv(Use(h, s, t))
  {
  }

  lemma ErrorKeepsInv(h: HubState, s: Session, code: string)
    requires Inv(h) && s in h.stored
    ensures Inv(SendError(h, s, code))
  {
  }

  lemma RemoveKeepsInv(h: HubState, s: Session, t: Readings)
    requires Inv(h) && Allowed(h, DoRemove(s, t))
    ensures Inv(Remove(h, s, t))
  {
  }

  lemma StepKeepsInv(h: HubState, step: HubStep, ttl: Time)
    requires Inv(h) && Allowed(h, step)
    ensures Inv(Apply(h, step, ttl))
  {
    match step
    case DoAdd(s, token, t) => AddKeepsInv(h, s, token, t, ttl);
    case DoTake(s, token, t) => TakeKeepsInv(h, s, token, t, ttl);
    case DoRenewal(s, t) => RenewKeepsInv(h, s, t, ttl);
    case DoUse(s, t) => UseKeepsInv(h, s, t);
    case DoDeviceError(s, code, _) => ErrorKeepsInv(h, s, code);
    case DoRemove(s, t) => RemoveKeepsInv(h, s, t);
  }

  lemma {:induction false} RunKeepsInv(h: HubState, run: seq<HubStep>, ttl: Time)
    requires Inv(h) && Legal(h, run, ttl)
    ensures Inv(After(h, run, ttl))
    decreases |run|
  {
    if run != [] {
      StepKeepsInv(h, run[0], ttl);
      RunKeepsInv(Apply(h, run[0], ttl), run[1..], ttl);
    }
  }

  /** In every reachable state at most one session's stored lease is accepted, and it is the owner's. */
  lemma OneController(h: HubState, run: seq<HubStep>, ttl: Time, a: Session, b: Session, now: Time)
    requires Empty(h) && Legal(h, run, ttl)
    requires var r := After(h, run, ttl);
      && Stored(r, a).Some? && Validates(r.lease.held, Lease.Held(Stored(r, a).value), now)
      && Stored(r, b).Some? && Validates(r.lease.held, Lease.Held(Stored(r, b).value), now)
    ensures a == b == After(h, run, ttl).lease.held.value.owner
  {
    RunKeepsInv(h, run, ttl);
  }

  /**
   After a successful hand-over the taker's stored lease is the one in force:
   it is accepted until it expires, and no other session's is.
   */
  lemma TakerAloneControls(h: HubState, s: Session, token: Token, t: Readings, ttl: Time, other: Session, now: Time)
    requires Inv(h) && Allowed(h, DoTake(s, token, t)) && TakeResult(h, s, token, t, ttl).Granted?
    ensures var r := Take(h, s, token, t, ttl);
      && Stored(r, s) == r.lease.held == Some(TakeResult(h, s, token, t, ttl).grant)
      && (Validates(r.lease.held, Lease.Held(Stored(r, s).value), now) <==> now < r.lease.held.value.expiresAt)
      && (Stored(r, other).Some? && Validates(r.lease.held, Lease.Held(Stored(r, other).value), now) ==> other == s)
  {
    StepKeepsInv(h, DoTake(s, token, t), ttl);
  }

  /**
   The hand-over succeeds exactly if the lease is free, or stored by its owner
   who is the taker or is connected until it is released.
   */
  lemma TakeSucceedsIff(h: HubState, s: Session, token: Token, t: Readings, ttl: Time)
    requires Inv(h) && Allowed(h, DoTake(s, token, t)) && ValidToken(token) && !Blank(s)
    ensures var owner := Active(h.lease.held, t.first);
      TakeResult(h, s, token, t, ttl).Granted? <==>
        (owner.None?
         || (Stored(h, owner.value.owner).Some?
             && (owner.value.owner == s || (owner.value.owner in h.clients && t.second < owner.value.expiresAt))))
  {
  }

  // ---- keeping control -------------------------------------------------------------------------

  predicate InControl(h: HubState, s: Session) {
    h.lease.held.Some? && h.lease.held.value.owner == s && Stored(h, s) == h.lease.held
  }

  /** A device's answer makes the session drop its stored lease. */
  predicate DropsStored(step: HubStep, s: Session) {
    step.DoDeviceError? && step.session == s && step.code == INVALID_CONTROL_LEASE
  }

  /**
   Before it expires, a session in control loses it exactly by leaving, by
   another's taking it while it is connected, or by a device's error that bears
   the code of an invalid lease.
   */
  lemma ControlIsKept(h: HubState, step: HubStep, ttl: Time, s: Session)
    requires Inv(h) && Allowed(h, step) && ttl > 0.0
    requires InControl(h, s) && step.t.fourth < h.lease.held.value.expiresAt
    ensures InControl(Apply(h, step, ttl), s) <==>
      && !(step.DoRemove? && step.session == s)
      && !(step.DoTake? && step.session != s && s in h.clients)
      && !DropsStored(step, s)
    ensures InControl(Apply(h, step, ttl), s) ==>
      Apply(h, step, ttl).lease.held.value.token == h.lease.held.value.token
  {
  }

  /** The step that separates a lease in force from its owner. */
  predicate Separates(h: HubState, step: HubStep) {
    Active(h.lease.held, h.lease.now).Some? && DropsStored(step, h.lease.held.value.owner)
  }

  lemma StepKeepsOwner(h: HubState, step: HubStep, ttl: Time)
    requires Inv(h) && OwnerHasIt(h) && Allowed(h, step)
    ensures OwnerHasIt(Apply(h, step, ttl)) <==> !Separates(h, step)
  {
  }

  predicate SomeStepSeparates(h: HubState, run: seq<HubStep>, ttl: Time)
    requires Legal(h, run, ttl)
    decreases |run|
  {
    run != [] && (Separates(h, run[0]) || SomeStepSeparates(Apply(h, run[0], ttl), run[1..], ttl))
  }

  predicate OwnerAlwaysHasIt(h: HubState, run: seq<HubStep>, ttl: Time)
    requires Legal(h, run, ttl)
    decreases |run|
  {
    OwnerHasIt(h) && (run == [] || OwnerAlwaysHasIt(Apply(h, run[0], ttl), run[1..], ttl))
  }

  /**
   Throughout a run the lease in force is the one its owner has stored, exactly
   if no device answers the owner with the code of an invalid lease.
   */
  lemma {:induction false} OwnerAlwaysHasItIff(h: HubState, run: seq<HubStep>, ttl: Time)
    requires Inv(h) && OwnerHasIt(h) && Legal(h, run, ttl)
    ensures OwnerAlwaysHasIt(h, run, ttl) <==> !SomeStepSeparates(h, run, ttl)
    decreases |run|
  {
    if run != [] {
      StepKeepsInv(h, run[0], ttl);
      StepKeepsOwner(h, run[0], ttl);
      if OwnerHasIt(Apply(h, run[0], ttl)) {
        OwnerAlwaysHasItIff(Apply(h, run[0], ttl), run[1..], ttl);
      }
    }
  }

  function ConnectAndDrop(s: Session, token: Token, t: Readings): seq<HubStep> {
    var late := Readings(t.fourth, t.fourth, t.fourth, t.fourth);
    [DoAdd(s, token, t), DoDeviceError(s, INVALID_CONTROL_LEASE, late)]
  }

  /**
   A run that shows it: the only session connects, its command is answered so,
   and until the lease expires nobody can take control, not even that session.
   */
  lemma LeaseWithoutHolder(h: HubState, s: Session, token: Token, t: Readings, ttl: Time)
    requires Empty(h) && InOrder(h.lease, t) && ValidToken(token) && token !in h.lease.issued && !Blank(s)
    requires Lease.Ok(h.lease) && ttl > 0.0
    ensures var run := ConnectAndDrop(s, token, t);
      && Legal(h, run, ttl)
      && var r := After(h, run, ttl);
      && r.clients == {s} && Active(r.lease.held, t.second) == Some(Grant(s, token, t.second + ttl))
      && Stored(r, s).None?
      && forall x: Session, other: Token, u: Readings :: Allowed(r, DoTake(x, other, u)) && u.first < t.second + ttl ==>
           TakeResult(r, x, other, u, ttl) == Refused(Unavailable)
  {
    var run := ConnectAndDrop(s, token, t);
    var a := Apply(h, run[0], ttl);
    var b := Apply(a, run[1], ttl);
    assert run[1..] == [run[1]] && run[1..][1..] == [];
    assert Legal(a, run[1..], ttl);
    assert After(h, run, ttl) == After(a, run[1..], ttl) == After(b, run[1..][1..], ttl) == b;
  }

  // ---- what a session has stored, and who is connected ------------------------------------------

  /** The stored lease of a session is in force at this time. */
  predicate InForce(h: HubState, s: Session, now: Time) {
    && Stored(h, s).Some? && h.lease.held.Some? && now < h.lease.held.value.expiresAt
    && Stored(h, s).value.token == h.lease.held.value.token
  }

  lemma InForceIff(h: HubState, s: Session, now: Time)
    requires Inv(h) && h.lease.now <= now && Stored(h, s).Some?
    ensures Validates(h.lease.held, Lease.Held(Stored(h, s).value), now) <==>
      InForce(h, s, now) && h.lease.held.value.owner == s
  {
  }

  /**
   What a session has stored after its own step: a renewed lease if it was in
   force, nothing if it was not; the same lease after a call that was let
   through; nothing once it has left.
   */
  lemma StoredAfter(h: HubState, step: HubStep, ttl: Time)
    requires Inv(h) && Allowed(h, step)
    ensures var s, r := step.session, Apply(h, step, ttl);
      match step
      case DoRenewal(_, t) =>
        if InForce(h, s, t.first) && h.lease.held.value.owner == s
        then Stored(r, s) == r.lease.held == Some(Grant(s, h.lease.held.value.token, t.second + ttl))
        else Stored(r, s).None?
      case DoUse(_, t) =>
        if InForce(h, s, t.first) && h.lease.held.value.owner == s
        then Stored(r, s) == Stored(h, s) && r.lease.held == h.lease.held
        else Stored(r, s).None?
      case DoRemove(_, t) =>
        Stored(r, s).None? && (InForce(h, s, t.first) && h.lease.held.value.owner == s ==> r.lease.held.None?)
      case DoDeviceError(_, code, _) =>
        Stored(r, s) == (if code == "invalid_control_lease" then None else Stored(h, s)) && r.lease == h.lease
      case _ => true
    ensures !step.DoTake? ==>
      forall x :: x in h.stored && x != step.session ==> Stored(Apply(h, step, ttl), x) == Stored(h, x)
  {
    if Stored(h, step.session).Some? {
      InForceIff(h, step.session, step.t.first);
    }
  }

  /** Why take_control is refused, and what the sessions then have stored. */
  lemma TakeAnswers(h: HubState, s: Session, token: Token, t: Readings, ttl: Time)
    requires Inv(h) && Allowed(h, DoTake(s, token, t)) && TakeResult(h, s, token, t, ttl).Refused?
    ensures var owner := Active(h.lease.held, t.first);
      var r := Take(h, s, token, t, ttl);
      match TakeResult(h, s, token, t, ttl).error
      case Unavailable =>
        && owner.Some?
        && (Stored(h, owner.value.owner).None? || (owner.value.owner != s && owner.value.owner !in h.clients))
        && r.stored == h.stored && r.lease.held == h.lease.held
      case InvalidLease =>
        && ((owner.Some? && owner.value.expiresAt <= t.second) || !ValidToken(token))
        && Stored(r, s).None?
      case InvalidSession => Blank(s) && Stored(r, s).None?
  {
  }

  /** The sessions that connected and have not left. */
  function Connected(start: set<Session>, run: seq<HubStep>): set<Session> {
    if run == [] then start
    else
      var before := Connected(start, run[..|run| - 1]);
      match run[|run| - 1]
      case DoAdd(s, _, _) => before + {s}
      case DoRemove(s, _) => before - {s}
      case _ => before
  }

  lemma {:induction false} ConnectedFrom(start: set<Session>, first: HubStep, run: seq<HubStep>)
    ensures Connected(start, [first] + run) == Connected(Connected(start, [first]), run)
  {
    if run != [] {
      assert ([first] + run)[..|run|] == [first] + run[..|run| - 1];
      ConnectedFrom(start, first, run[..|run| - 1]);
    } else {
      assert [first] + run == [first];
    }
  }

  lemma {:induction false} ClientsAreTheConnected(h: HubState, run: seq<HubStep>, ttl: Time)
    requires Legal(h, run, ttl)
    ensures After(h, run, ttl).clients == Connected(h.clients, run)
    decreases |run|
  {
    if run != [] {
      assert run == [run[0]] + run[1..];
      assert [run[0]][..0] == [];
      ConnectedFrom(h.clients, run[0], run[1..]);
      ClientsAreTheConnected(Apply(h, run[0], ttl), run[1..], ttl);
    }
  }
}
