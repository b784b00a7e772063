/** The socket as an object: its fields and what it has dispatched. */
module ConsoleSocketObject {
  import opened Common
  import opened ConsoleStore
  import opened ConsoleSocket

  class BrowserSocket {
    var socket: Option<Generation>
    var reconnectTimer: bool
    var reconnectAttempt: nat
    var generation: Generation
    var observedEpoch: Option<int>
    var observedRevision: Option<int>
    var stopped: bool
    // the store behind the dispatch callback
    var store: Store

    ghost function Fields(): Socket
      reads this`socket, this`reconnectTimer, this`reconnectAttempt, this`generation
      reads this`observedEpoch, this`observedRevision, this`stopped
    {
      Socket(socket, generation, reconnectTimer, reconnectAttempt, observedEpoch, observedRevision, stopped)
    }

    ghost function View(): Console
      reads this
    {
      Console(Fields(), store)
    }

    ghost predicate Valid()
      reads this
    {
      SocketOk(Fields())
    }

    constructor ()
      ensures Valid() && View() == Console(INITIAL_SOCKET, INITIAL_STORE)
    {
      socket, reconnectTimer, reconnectAttempt, generation := None, false, 0, 0;
      observedEpoch, observedRevision, stopped := None, None, true;
      store := INITIAL_STORE;
    }

    method Dispatch(a: Action)
      modifies this`store
      ensures store == Reduce(old(store), a)
    {
      store := Reduce(store, a);
    }

    method Retire()
      modifies this`socket, this`generation
      ensures Fields() == RetireSocket(old(Fields()))
    {
      if socket.None? {
        return;
      }
      socket := None;
      generation := generation + 1;
    }

    method ResetSeen()
      modifies this`observedEpoch, this`observedRevision
      ensures Fields() == ResetObservation(old(Fields()))
    {
      observedEpoch := None;
      observedRevision := None;
    }

    method Schedule()
      modifies this`reconnectTimer, this`reconnectAttempt
      ensures Fields() == ScheduleReconnect(old(Fields()))
    {
      if stopped || reconnectTimer {
        return;
      }
      reconnectAttempt := reconnectAttempt + 1;
      reconnectTimer := true;
    }

    method Open(opens: bool, meta: Metadata)
      modifies this
      ensures View() == OpenSocket(old(View()), opens, meta)
    {
      if stopped || socket.Some? {
        return;
      }
      Dispatch(BeginConnecting);
      generation := generation + 1;
      if !opens {
        Dispatch(ProtocolError(SOCKET_OPEN_FAILED, None, meta));
        Schedule();
        return;
      }
      socket := Some(generation);
    }

    method Connect(opens: bool, meta: Metadata)
      requires Valid()
      modifies this
      ensures Valid() && View() == ConsoleSocket.Connect(old(View()), opens, meta)
    {
      StepKeepsSocketOk(View(), DoConnect(opens, meta));
      stopped := false;
      reconnectTimer := false;
      Retire();
      ResetSeen();
      Open(opens, meta);
    }

    method Close()
      requires Valid()
      modifies this
      ensures Valid() && View() == ConsoleSocket.Close(old(View()))
    {
      StepKeepsSocketOk(View(), DoClose);
      stopped := true;
      reconnectTimer := false;
      Retire();
      ResetSeen();
    }

    method OnTimer(opens: bool, meta: Metadata)
      requires Valid() && reconnectTimer
      modifies this
      ensures Valid() && View() == TimerFires(old(View()), opens, meta)
    {
      StepKeepsSocketOk(View(), DoTimer(opens, meta));
      reconnectTimer := false;
      Open(opens, meta);
    }

    /** observeRevision: true means that an update is missing. */
    method ObserveRevision(m: Message) returns (gap: bool)
      modifies this`observedEpoch, this`observedRevision
      ensures Observation(observedEpoch, observedRevision, gap) == Observe(old(Fields()), m)
    {
      match m
      case Hello(_, _, _, epoch, state) =>
        observedEpoch := Some(epoch);
        observedRevision := Some(state.revision);
        gap := false;
      case FullState(_, epoch, state) =>
        if observedEpoch.None? || epoch > observedEpoch.value {
          observedEpoch := Some(epoch);
          observedRevision := Some(state.revision);
        } else if epoch == observedEpoch.value && (observedRevision.None? || state.revision >= observedRevision.value) {
          observedRevision := Some(state.revision);
        }
        gap := false;
      case Routed(routed) =>
        if !routed.event.kind.StateChanged? || Some(routed.epoch) != observedEpoch {
          return false;
        }
        var revision := routed.event.kind.state.revision;
        if observedRevision.None? || revision <= observedRevision.value {
          return false;
        }
        if revision > observedRevision.value + 1 {
          return true;
        }
        observedRevision := Some(revision);
        gap := false;
      case _ =>
        gap := false;
    }

    method HandleMessage(g: Generation, m: Message, meta: Metadata)
      requires Valid()
      modifies this
      ensures Valid() && View() == OnMessage(old(View()), g, m, meta)
    {
      StepKeepsSocketOk(View(), DoMessage(g, m, meta));
      if stopped || socket != Some(g) || generation != g {
        return;
      }
      if m.Hello? {
        reconnectAttempt := 0;
      }
      Dispatch(Incoming(m, meta));
      var gap := ObserveRevision(m);
      if gap {
        Retire();
        ResetSeen();
        Schedule();
      }
    }

    method HandleMalformed(g: Generation, json: bool, meta: Metadata)
      requires Valid()
      modifies this
      ensures Valid() && View() == OnMalformed(old(View()), g, json, meta)
    {
      if !stopped && socket == Some(g) && generation == g {
        Dispatch(ProtocolError(if json then INVALID_MESSAGE else INVALID_JSON, None, meta));
      }
    }

    method HandleClose(g: Generation)
      requires Valid()
      modifies this
      ensures Valid() && View() == OnClose(old(View()), g)
    {
      StepKeepsSocketOk(View(), DoSocketClosed(g));
      if stopped || socket != Some(g) || generation != g {
        return;
      }
      socket := None;
      generation := generation + 1;
      ResetSeen();
      Dispatch(Closed);
      Schedule();
    }

    method Send(command: Option<(string, CommandType)>, outcome: Sending, meta: Metadata) returns (sent: bool)
      requires Valid()
      modifies this
      ensures Valid() && View() == ConsoleSocket.Send(old(View()), command, outcome, meta)
      ensures sent <==> socket.Some? && outcome.SentOut?
    {
      var id := if command.Some? then Some(command.value.0) else None;
      if socket.None? || outcome.NotOpen? {
        Dispatch(LocalSendFailed(SOCKET_NOT_OPEN, id, meta));
        return false;
      }
      if outcome.SendFailed? {
        Dispatch(LocalSendFailed(SOCKET_SEND_FAILED, id, meta));
        return false;
      }
      if command.Some? {
        Dispatch(LocalCommandSent(command.value.0, command.value.1));
      }
      sent := true;
    }
  }
}
