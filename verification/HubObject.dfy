/** The hub as an object: a dictionary of client objects whose stored leases change in place. */
module HubObject {
  import opened Common
  import opened Lease
  import opened Hub

  class ConsoleClient {
    const sessionId: Session
    var lease: Option<Grant>
    var closed: bool

    constructor (sessionId: Session, lease: Option<Grant>)
      ensures this.sessionId == sessionId && this.lease == lease && !closed
    {
      this.sessionId := sessionId;
      this.lease := lease;
      closed := false;
    }
  }

  class ConsoleHub {
    const control: ControlLease
    var clients: map<Session, ConsoleClient>
    // every client that was ever connected, and the run so far
    ghost var everyone: map<Session, ConsoleClient>
    ghost var now: Time
    ghost var issued: set<Token>

    ghost predicate Shape()
      reads this
    {
      && (forall s :: s in everyone ==> everyone[s].sessionId == s)
      && (forall s :: s in clients ==> s in everyone && clients[s] == everyone[s])
    }

    ghost function Leases(): map<Session, Option<Grant>>
      reads this`everyone, everyone.Values`lease
    {
      map s | s in everyone :: everyone[s].lease
    }

    ghost function View(): HubState
      reads this, control, everyone.Values`lease
    {
      HubState(State(control.grant, now, issued), Leases(), clients.Keys)
    }

    ghost predicate Valid()
      reads this, control, everyone.Values`lease
    {
      Shape() && Hub.Inv(View())
    }

    constructor (control: ControlLease, now: Time)
      requires control.grant == None
      ensures Valid() && Empty(View()) && this.control == control && this.now == now
    {
      this.control := control;
      clients := map[];
      everyone := map[];
      this.now := now;
      issued := {};
    }

    /** What a client has stored. */
    method Store(client: ConsoleClient, lease: Option<Grant>)
      requires Shape() && client in everyone.Values
      modifies client`lease
      ensures client.lease == lease && Leases() == old(Leases())[client.sessionId := lease]
    {
      client.lease := lease;
      assert Leases() == old(Leases())[client.sessionId := lease];
    }

    method Register(client: ConsoleClient)
      requires Shape() && client.sessionId !in everyone
      modifies this`clients, this`everyone
      ensures Shape() && everyone == old(everyone)[client.sessionId := client]
      ensures Leases() == old(Leases())[client.sessionId := client.lease]
      ensures clients == old(clients)[client.sessionId := client]
    {
      clients := clients[client.sessionId := client];
      everyone := everyone[client.sessionId := client];
      assert Leases() == old(Leases())[client.sessionId := client.lease];
    }

    method AcquireLease(s: Session, token: Token, at: Time, later: Time) returns (r: LeaseResult)
      modifies this`now, this`issued, control
      ensures r == AcquireResult(old(control.grant), s, token, at, later, control.ttl)
      ensures State(control.grant, now, issued)
           == Lease.Apply(old(State(control.grant, now, issued)), DoAcquire(s, token, at, later), control.ttl)
    {
      r := control.Acquire(s, token, at, later);
      now := later;
      issued := if r.Granted? then issued + {token} else issued;
    }

    method Connect(s: Session, token: Token, t: Readings) returns (client: ConsoleClient)
      requires Valid() && Hub.Allowed(View(), DoAdd(s, token, t))
      modifies this, control
      ensures Valid() && View() == Add(old(View()), s, token, t, control.ttl)
      ensures fresh(client) && client.sessionId == s && everyone == old(everyone)[s := client]
    {
      AddKeepsInv(View(), s, token, t, control.ttl);
      var r := AcquireLease(s, token, t.first, t.second);
      client := new ConsoleClient(s, if r.Granted? then Some(r.grant) else None);
      assert Leases() == old(Leases());
      Register(client);
    }

    /** take_control, and what the caller does with its result. */
    method TakeControl(client: ConsoleClient, token: Token, t: Readings) returns (r: LeaseResult)
      requires Valid() && client in everyone.Values && Hub.Allowed(View(), DoTake(client.sessionId, token, t))
      modifies this, control, everyone.Values`lease
      ensures Valid() && View() == Take(old(View()), client.sessionId, token, t, control.ttl)
      ensures r == TakeResult(old(View()), client.sessionId, token, t, control.ttl)
      ensures everyone == old(everyone)
    {
      TakeKeepsInv(View(), client.sessionId, token, t, control.ttl);
      r := Handover(client, token, t);
      if r.Granted? {
        Store(client, Some(r.grant));
      } else if r.error == InvalidLease {
        Store(client, None);
      }
    }

    method Handover(client: ConsoleClient, token: Token, t: Readings) returns (r: LeaseResult)
      requires Shape() && client in everyone.Values
      modifies this`now, this`issued, control, everyone.Values`lease
      ensures Shape()
      ensures r == TakeResult(old(View()), client.sessionId, token, t, control.ttl)
      ensures View() == Hub.Handover(old(View()), client.sessionId, token, t, control.ttl)
    {
      var owner := control.Owner(t.first);
      now := t.first;
      if owner == Some(client.sessionId) && client.lease.Some? {
        return Granted(client.lease.value);
      }
      if owner.Some? {
        if owner.value !in clients || clients[owner.value].lease.None? {
          return Refused(Unavailable);
        }
        var released := ReleaseOf(clients[owner.value], t.second);
        if !released {
          return Refused(InvalidLease);
        }
      }
      r := Claim(client, token, t);
    }

    /** The taker drops what it had stored and acquires. */
    method Claim(client: ConsoleClient, token: Token, t: Readings) returns (r: LeaseResult)
      requires Shape() && client in everyone.Values
      modifies this`now, this`issued, control, client`lease
      ensures r == AcquireResult(old(control.grant), client.sessionId, token, t.third, t.fourth, control.ttl)
      ensures View().lease == Lease.Apply(old(View()).lease, DoAcquire(client.sessionId, token, t.third, t.fourth),
                                          control.ttl)
      ensures Leases() == old(Leases())[client.sessionId := None]
    {
      Store(client, None);
      r := AcquireLease(client.sessionId, token, t.third, t.fourth);
    }

    /** The previous owner's lease is released and taken from it. */
    method ReleaseOf(previous: ConsoleClient, at: Time) returns (released: bool)
      requires Shape() && previous in everyone.Values && previous.lease.Some?
      modifies this`now, control, previous`lease
      ensures released == Validates(old(control.grant), Lease.Held(old(previous.lease).value), at)
      ensures now == at && control.grant == if released then None else Active(old(control.grant), at)
      ensures Leases() == if released then old(Leases())[previous.sessionId := None] else old(Leases())
    {
      released := control.Release(Lease.Held(previous.lease.value), at);
      now := at;
      if released {
        Store(previous, None);
      }
    }

    method RenewControl(client: ConsoleClient, t: Readings)
      requires Valid() && client in everyone.Values && Hub.Allowed(View(), DoRenewal(client.sessionId, t))
      modifies this, control, client
      ensures Valid() && View() == Renew(old(View()), client.sessionId, t, control.ttl)
      ensures everyone == old(everyone)
    {
      RenewKeepsInv(View(), client.sessionId, t, control.ttl);
      if client.lease.None? {
        return;
      }
      var r := RenewLease(client.lease.value, t.first, t.second);
      Store(client, if r.Granted? then Some(r.grant) else None);
    }

    method RenewLease(grant: Grant, at: Time, later: Time) returns (r: LeaseResult)
      modifies this`now, control
      ensures r == RenewResult(old(control.grant), Lease.Held(grant), at, later, control.ttl)
      ensures State(control.grant, now, issued)
           == Lease.Apply(old(State(control.grant, now, issued)), DoRenew(Lease.Held(grant), at, later), control.ttl)
    {
      r := control.Renew(Lease.Held(grant), at, later);
      now := later;
    }

    /** The lease check of a routed call, and _send_router_error when it refuses. */
    method UseControl(client: ConsoleClient, t: Readings) returns (ok: bool)
      requires Valid() && client in everyone.Values && Hub.Allowed(View(), DoUse(client.sessionId, t))
      modifies this, control, client
      ensures Valid() && View() == Use(old(View()), client.sessionId, t)
      ensures ok <==>
        (old(client.lease).Some? && Validates(old(control.grant), Lease.Held(old(client.lease).value), t.first))
      ensures everyone == old(everyone)
    {
      UseKeepsInv(View(), client.sessionId, t);
      if client.lease.None? {
        return false;
      }
      ok := control.Validate(Lease.Held(client.lease.value), t.first);
      now := t.first;
      if !ok {
        SendRouterError(client, INVALID_CONTROL_LEASE);
      }
    }

    /** _send_router_error: the code alone decides whether the stored lease is dropped. */
    method SendRouterError(client: ConsoleClient, code: string)
      requires Shape() && client in everyone.Values
      modifies client`lease
      ensures View() == SendError(old(View()), client.sessionId, code)
    {
      if code == INVALID_CONTROL_LEASE {
        Store(client, None);
      }
    }

    /** A routed command is answered with an error of the device, whose code is passed on as it is. */
    method AnswerDeviceError(client: ConsoleClient, code: string, t: Readings)
      requires Valid() && client in everyone.Values && Hub.Allowed(View(), DoDeviceError(client.sessionId, code, t))
      modifies client`lease
      ensures Valid() && View() == Hub.Apply(old(View()), DoDeviceError(client.sessionId, code, t), control.ttl)
    {
      ErrorKeepsInv(View(), client.sessionId, code);
      SendRouterError(client, code);
    }

    /** The lease is released if it is still valid, and dropped in any case. */
    method GiveBack(client: ConsoleClient, at: Time)
      requires Shape() && client in everyone.Values && client.lease.Some?
      modifies this`now, control, client`lease
      ensures now == at
      ensures control.grant ==
        if Validates(old(control.grant), Lease.Held(old(client.lease).value), at) then None
          else Active(old(control.grant), at)
      ensures Leases() == old(Leases())[client.sessionId := None]
    {
      ghost var before := Leases();
      var released := ReleaseOf(client, at);
      Store(client, None);
      assert Leases() == before[client.sessionId := None];
    }

    method Unregister(s: Session)
      requires Shape()
      modifies this`clients
      ensures Shape() && clients.Keys == old(clients).Keys - {s}
    {
      clients := clients - {s};
    }

    method Disconnect(client: ConsoleClient, t: Readings)
      requires Valid() && client in everyone.Values && Hub.Allowed(View(), DoRemove(client.sessionId, t))
      modifies this, control, client
      ensures Valid() && View() == Remove(old(View()), client.sessionId, t)
      ensures everyone == old(everyone) && client.closed
    {
      RemoveKeepsInv(View(), client.sessionId, t);
      Leave(client, t.first);
    }

    method Leave(client: ConsoleClient, at: Time)
      requires Shape() && client in everyone.Values
      modifies this`clients, this`now, control, client
      ensures Shape() && View() == Remove(old(View()), client.sessionId, Readings(at, at, at, at)) && client.closed
    {
      client.closed := true;
      Unregister(client.sessionId);
      if client.lease.Some? {
        GiveBack(client, at);
      }
    }
  }
}
