/** Single-owner control: a renewable lease behind an opaque token. */
module Lease {
  import opened Common

  type Session = string
  type Token = string
  /** A reading of the monotonic clock, or a span of it. */
  type Time = real

  datatype Grant = Grant(owner: Session, token: Token, expiresAt: Time)

  /** A caller presents a grant it was given, a bare token, or something else. */
  datatype Credential = Held(grant: Grant) | Bare(token: Token) | Other

  datatype LeaseError = InvalidSession | Unavailable | InvalidLease
  datatype LeaseResult = Granted(grant: Grant) | Refused(error: LeaseError)

  /** What Python's str.strip takes for white space. */
  predicate Space(c: char) {
    || '\t' <= c <= '\r' || '\U{1c}' <= c <= ' ' || c == '\U{85}' || c == '\U{a0}' || c == '\U{1680}'
    || '\U{2000}' <= c <= '\U{200a}' || c == '\U{2028}' || c == '\U{2029}' || c == '\U{202f}'
    || c == '\U{205f}' || c == '\U{3000}'
  }

  predicate Blank(s: string) {
    forall i :: 0 <= i < |s| ==> Space(s[i])
  }

  predicate TokenChar(c: char) {
    'A' <= c <= 'Z' || 'a' <= c <= 'z' || '0' <= c <= '9' || c == '_' || c == '-'
  }

  predicate ValidToken(token: Token) {
    token != "" && forall i :: 0 <= i < |token| ==> TokenChar(token[i])
  }

  /** What is left of a grant at a reading of the clock. */
  function Active(held: Option<Grant>, now: Time): Option<Grant> {
    if held.Some? && now >= held.value.expiresAt then None else held
  }

  predicate Matches(c: Credential, g: Grant) {
    match c
    case Held(grant) => ValidToken(grant.token) && grant.token == g.token && grant.owner == g.owner
    case Bare(token) => ValidToken(token) && token == g.token
    case Other => false
  }

  /** The credential is accepted at this reading. */
  predicate Validates(held: Option<Grant>, c: Credential, now: Time) {
    Active(held, now).Some? && Matches(c, held.value)
  }

  function TokenOf(c: Credential): Option<Token> {
    match c
    case Held(grant) => Some(grant.token)
    case Bare(token) => Some(token)
    case Other => None
  }

  /** The object: the clock is read anew wherever the source reads it. */
  class ControlLease {
    const ttl: Time
    var grant: Option<Grant>

    constructor (ttl: Time)
      requires ttl > 0.0
      ensures this.ttl == ttl && grant == None
    {
      this.ttl := ttl;
      grant := None;
    }

    method Expire(now: Time)
      modifies this
      ensures grant == Active(old(grant), now)
    {
      if grant.Some? && now >= grant.value.expiresAt {
        grant := None;
      }
    }

    method Owner(now: Time) returns (owner: Option<Session>)
      modifies this
      ensures grant == Active(old(grant), now)
      ensures owner == if grant.Some? then Some(grant.value.owner) else None
    {
      Expire(now);
      owner := if grant.None? then None else Some(grant.value.owner);
    }

    /** now and later are two readings; token is what the token factory returned. */
    method Acquire(owner: Session, token: Token, now: Time, later: Time) returns (r: LeaseResult)
      modifies this
      ensures r == AcquireResult(old(grant), owner, token, now, later, ttl)
      ensures grant == if r.Granted? then Some(r.grant) else if Blank(owner) then old(grant)
        else Active(old(grant), now)
    {
      if Blank(owner) {
        return Refused(InvalidSession);
      }
      Expire(now);
      if grant.Some? {
        return Refused(Unavailable);
      }
      if !ValidToken(token) {
        return Refused(InvalidLease);
      }
      grant := Some(Grant(owner, token, later + ttl));
      r := Granted(grant.value);
    }

    method Validate(c: Credential, now: Time) returns (ok: bool)
      modifies this
      ensures ok == Validates(old(grant), c, now)
      ensures grant == Active(old(grant), now)
    {
      Expire(now);
      if grant.None? {
        return false;
      }
      match c
      case Held(held) => ok := ValidToken(held.token) && held.token == grant.value.token
        && held.owner == grant.value.owner;
      case Bare(token) => ok := ValidToken(token) && token == grant.value.token;
      case Other => ok := false;
    }

    method Renew(c: Credential, now: Time, later: Time) returns (r: LeaseResult)
      modifies this
      ensures r == RenewResult(old(grant), c, now, later, ttl)
      ensures grant == if r.Granted? then Some(r.grant) else Active(old(grant), now)
    {
      var ok := Validate(c, now);
      if !ok {
        return Refused(InvalidLease);
      }
      grant := Some(Grant(grant.value.owner, grant.value.token, later + ttl));
      r := Granted(grant.value);
    }

    method Release(c: Credential, now: Time) returns (ok: bool)
      modifies this
      ensures ok == Validates(old(grant), c, now)
      ensures grant == if ok then None else Active(old(grant), now)
    {
      ok := Validate(c, now);
      if ok {
        grant := None;
      }
    }
  }

  function AcquireResult(held: Option<Grant>, owner: Session, token: Token, now: Time, later: Time,
                         ttl: Time): LeaseResult {
    if Blank(owner) then Refused(InvalidSession)
    else if Active(held, now).Some? then Refused(Unavailable)
    else if !ValidToken(token) then Refused(InvalidLease)
    else Granted(Grant(owner, token, later + ttl))
  }

  function RenewResult(held: Option<Grant>, c: Credential, now: Time, later: Time, ttl: Time): LeaseResult {
    if Validates(held, c, now) then Granted(Grant(held.value.owner, held.value.token, later + ttl))
      else Refused(InvalidLease)
  }

  // ---- runs --------------------------------------------------------------------------------

  /** The lease with what is needed to speak about a run: the last reading and every token ever made. */
  datatype State = State(held: Option<Grant>, now: Time, issued: set<Token>)

  /** Each step ends at its last reading of the clock. */
  datatype Step =
    | DoAcquire(owner: Session, token: Token, at: Time, later: Time)
    | DoRenew(credential: Credential, at: Time, later: Time)
    | DoRelease(credential: Credential, at: Time)
    | DoValidate(credential: Credential, at: Time)

  function Apply(s: State, step: Step, ttl: Time): State {
    match step
    case DoAcquire(owner, token, at, later) =>
      var r := AcquireResult(s.held, owner, token, at, later, ttl);
      State(if r.Granted? then Some(r.grant) else if Blank(owner) then s.held else Active(s.held, at), later,
            if r.Granted? then s.issued + {token} else s.issued)
    case DoRenew(c, at, later) =>
      var r := RenewResult(s.held, c, at, later, ttl);
      s.(held := if r.Granted? then Some(r.grant) else Active(s.held, at), now := later)
    case DoRelease(c, at) =>
      s.(held := if Validates(s.held, c, at) then None else Active(s.held, at), now := at)
    case DoValidate(c, at) =>
      s.(held := Active(s.held, at), now := at)
  }

  /** The clock does not go back, and the token factory does not repeat itself. */
  predicate Allowed(s: State, step: Step) {
    match step
    case DoAcquire(_, token, at, later) => s.now <= at <= later && token !in s.issued
    case DoRenew(_, at, later) => s.now <= at <= later
    case DoRelease(_, at) => s.now <= at
    case DoValidate(_, at) => s.now <= at
  }

  predicate Legal(s: State, run: seq<Step>, ttl: Time)
    decreases |run|
  {
    run == [] || (Allowed(s, run[0]) && Legal(Apply(s, run[0], ttl), run[1..], ttl))
  }

  function After(s: State, run: seq<Step>, ttl: Time): State
    decreases |run|
  {
    if run == [] then s else After(Apply(s, run[0], ttl), run[1..], ttl)
  }

  predicate Ok(s: State) {
    s.held.Some? ==> s.held.value.token in s.issued && ValidToken(s.held.value.token) && !Blank(s.held.value.owner)
  }

  lemma StepKeepsOk(s: State, step: Step, ttl: Time)
    requires Ok(s) && Allowed(s, step)
    ensures Ok(Apply(s, step, ttl)) && s.now <= Apply(s, step, ttl).now && s.issued <= Apply(s, step, ttl).issued
  {
  }

  lemma {:induction false} RunKeepsOk(s: State, run: seq<Step>, ttl: Time)
    requires Ok(s) && Legal(s, run, ttl)
    ensures Ok(After(s, run, ttl)) && s.now <= After(s, run, ttl).now && s.issued <= After(s, run, ttl).issued
    decreases |run|
  {
    if run != [] {
      StepKeepsOk(s, run[0], ttl);
      RunKeepsOk(Apply(s, run[0], ttl), run[1..], ttl);
    }
  }

  /** Two credentials that are accepted at the same time are for one and the same grant. */
  lemma AtMostOneCredential(held: Option<Grant>, a: Credential, b: Credential, now: Time)
    requires Validates(held, a, now) && Validates(held, b, now)
    ensures TokenOf(a) == TokenOf(b) == Some(held.value.token)
    ensures a.Held? && b.Held? ==> a.grant.owner == b.grant.owner
  {
  }

  /** No grant with this token is in force. */
  predicate Dead(s: State, token: Token) {
    token in s.issued && (Active(s.held, s.now).Some? ==> s.held.value.token != token)
  }

  lemma DeadStaysDead(s: State, step: Step, token: Token, ttl: Time)
    requires Ok(s) && Allowed(s, step) && Dead(s, token)
    ensures Dead(Apply(s, step, ttl), token)
  {
  }

  lemma {:induction false} DeadForGood(s: State, run: seq<Step>, token: Token, ttl: Time)
    requires Ok(s) && Legal(s, run, ttl) && Dead(s, token)
    ensures Dead(After(s, run, ttl), token)
    decreases |run|
  {
    if run != [] {
      StepKeepsOk(s, run[0], ttl);
      DeadStaysDead(s, run[0], token, ttl);
      DeadForGood(Apply(s, run[0], ttl), run[1..], token, ttl);
    }
  }

  /** A credential whose grant was released or has expired is never accepted again. */
  lemma NeverAcceptedAgain(s: State, c: Credential, run: seq<Step>, later: Time, ttl: Time)
    requires Ok(s) && Legal(s, run, ttl) && After(s, run, ttl).now <= later
    requires TokenOf(c).Some? && TokenOf(c).value in s.issued
    requires Active(s.held, s.now).None? || s.held.value.token != TokenOf(c).value
    ensures !Validates(After(s, run, ttl).held, c, later)
  {
    DeadForGood(s, run, TokenOf(c).value, ttl);
  }

  /** Releasing and expiring are such ends. */
  lemma EndsOfAGrant(s: State, c: Credential, at: Time, ttl: Time)
    requires Ok(s) && s.now <= at && TokenOf(c).Some? && s.held.Some? && s.held.value.token == TokenOf(c).value
    ensures Validates(s.held, c, at) ==> Dead(Apply(s, DoRelease(c, at), ttl), TokenOf(c).value)
    ensures at >= s.held.value.expiresAt ==> Dead(Apply(s, DoValidate(c, at), ttl), TokenOf(c).value)
  {
  }

  /** A renewed grant has the same owner and token, and a full span ahead. */
  lemma RenewalKeepsOwnerAndToken(s: State, c: Credential, at: Time, later: Time, ttl: Time)
    requires Ok(s) && Allowed(s, DoRenew(c, at, later)) && Validates(s.held, c, at) && ttl > 0.0
    ensures var r := Apply(s, DoRenew(c, at, later), ttl);
      && r.held.Some? && r.held.value.owner == s.held.value.owner && r.held.value.token == s.held.value.token
      && forall t :: Validates(r.held, c, t) <==> t < later + ttl
  {
  }

  /** Without expiry the owner changes only over a release: nobody can acquire over a grant in force. */
  lemma OwnershipIsExclusive(s: State, step: Step, ttl: Time)
    requires Ok(s) && Allowed(s, step) && ttl > 0.0
    requires s.held.Some? && Active(s.held, step.at).Some?
    ensures var r := Apply(s, step, ttl);
      || (step.DoRelease? && Matches(step.credential, s.held.value) && r.held.None?)
      || (r.held.Some? && r.held.value.owner == s.held.value.owner && r.held.value.token == s.held.value.token)
  {
  }

  /** Who gets the lease, and what the others are told. */
  lemma AcquireAnswers(held: Option<Grant>, owner: Session, token: Token, now: Time, later: Time, ttl: Time)
    ensures match AcquireResult(held, owner, token, now, later, ttl)
            case Granted(grant) =>
              && !Blank(owner) && (held.None? || held.value.expiresAt <= now) && ValidToken(token)
              && grant.owner == owner && grant.token == token && grant.expiresAt == later + ttl
            case Refused(InvalidSession) => Blank(owner)
            case Refused(Unavailable) => !Blank(owner) && held.Some? && now < held.value.expiresAt
            case Refused(InvalidLease) =>
              !Blank(owner) && (held.None? || held.value.expiresAt <= now) && !ValidToken(token)
  {
  }
}
