/**
 The browser's socket: it watches the messages it hands to the store, and
 decides on its own when the stream has a gap.
 */
module ConsoleSocket {
  import opened Common
  import opened ConsoleStore

  /** A socket is named by the generation it was opened in; its handlers carry that name. */
  type Generation = nat

  datatype Socket = Socket(
    socket: Option<Generation>,
    generation: Generation,
    timer: bool,
    attempt: nat,
    observedEpoch: Option<int>,
    observedRevision: Option<int>,
    stopped: bool)

  /** The socket together with the store that its dispatches drive. */
  datatype Console = Console(s: Socket, store: Store)

  const INITIAL_SOCKET: Socket := Socket(None, 0, false, 0, None, None, true)

  predicate IsCurrent(s: Socket, g: Generation) {
    !s.stopped && s.socket == Some(g) && s.generation == g
  }

  function Dispatch(c: Console, a: Action): Console {
    c.(store := Reduce(c.store, a))
  }

  function ResetObservation(s: Socket): Socket {
    s.(observedEpoch := None, observedRevision := None)
  }

  function RetireSocket(s: Socket): Socket {
    if s.socket.None? then s else s.(socket := None, generation := s.generation + 1)
  }

  function ScheduleReconnect(s: Socket): Socket {
    if s.stopped || s.timer then s else s.(timer := true, attempt := s.attempt + 1)
  }

  const SOCKET_OPEN_FAILED: ConsoleError := ConsoleError("socket_open_failed", "", true)
  const INVALID_JSON: ConsoleError := ConsoleError("invalid_json", "", true)
  const INVALID_MESSAGE: ConsoleError := ConsoleError("invalid_message", "", true)
  const SOCKET_NOT_OPEN: ConsoleError := ConsoleError("socket_not_open", "console socket is not open", true)
  const SOCKET_SEND_FAILED: ConsoleError := ConsoleError("socket_send_failed", "", true)

  /** openSocket; the factory may raise. */
  function OpenSocket(c: Console, opens: bool, meta: Metadata): Console {
    if c.s.stopped || c.s.socket.Some? then c
    else
      var g := c.s.generation + 1;
      var begun := Dispatch(c.(s := c.s.(generation := g)), BeginConnecting);
      if opens then begun.(s := begun.s.(socket := Some(g)))
      else
        var told := Dispatch(begun, ProtocolError(SOCKET_OPEN_FAILED, None, meta));
        told.(s := ScheduleReconnect(told.s))
  }

  function Connect(c: Console, opens: bool, meta: Metadata): Console {
    OpenSocket(c.(s := ResetObservation(RetireSocket(c.s.(stopped := false, timer := false)))), opens, meta)
  }

  function Close(c: Console): Console {
    c.(s := ResetObservation(RetireSocket(c.s.(stopped := true, timer := false))))
  }

  function TimerFires(c: Console, opens: bool, meta: Metadata): Console {
    OpenSocket(c.(s := c.s.(timer := false)), opens, meta)
  }

  /** observeRevision: what is seen now, and whether there is a gap. */
  datatype Observation = Observation(epoch: Option<int>, revision: Option<int>, gap: bool)

  function Observe(s: Socket, m: Message): Observation {
    var same := Observation(s.observedEpoch, s.observedRevision, false);
    match m
    case Hello(_, _, _, epoch, state) => Observation(Some(epoch), Some(state.revision), false)
    case FullState(_, epoch, state) =>
      if s.observedEpoch.None? || epoch > s.observedEpoch.value
        then Observation(Some(epoch), Some(state.revision), false)
      else if epoch == s.observedEpoch.value && (s.observedRevision.None? || state.revision >= s.observedRevision.value)
      then Observation(s.observedEpoch, Some(state.revision), false)
      else same
    case Routed(routed) =>
      if !routed.event.kind.StateChanged? || Some(routed.epoch) != s.observedEpoch then same
      else
        var revision := routed.event.kind.state.revision;
        if s.observedRevision.None? || revision <= s.observedRevision.value then same
        else if revision > s.observedRevision.value + 1 then same.(gap := true)
        else Observation(s.observedEpoch, Some(revision), false)
    case _ => same
  }

  function Observing(s: Socket, m: Message): Socket {
    var o := Observe(s, m);
    var greeted := if m.Hello? then s.(attempt := 0) else s;
    var seen := greeted.(observedEpoch := o.epoch, observedRevision := o.revision);
    if o.gap then ScheduleReconnect(ResetObservation(RetireSocket(seen))) else seen
  }

  /** handleMessage: first to the store, then observed; a gap retires the socket. */
  function OnMessage(c: Console, g: Generation, m: Message, meta: Metadata): Console {
    if !IsCurrent(c.s, g) then c
    else Console(Observing(c.s, m), Reduce(c.store, Incoming(m, meta)))
  }

  /** Text that is not JSON, and JSON or binary data that is not a message. */
  function OnMalformed(c: Console, g: Generation, json: bool, meta: Metadata): Console {
    if !IsCurrent(c.s, g) then c
    else Dispatch(c, ProtocolError(if json then INVALID_MESSAGE else INVALID_JSON, None, meta))
  }

  function OnClose(c: Console, g: Generation): Console {
    if !IsCurrent(c.s, g) then c
    else
      var told := Dispatch(c.(s := ResetObservation(c.s.(socket := None, generation := c.s.generation + 1))), Closed);
      told.(s := ScheduleReconnect(told.s))
  }

  datatype Sending = SentOut | NotOpen | SendFailed

  function Send(c: Console, command: Option<(string, CommandType)>, outcome: Sending, meta: Metadata): Console {
    var id := if command.Some? then Some(command.value.0) else None;
    if c.s.socket.None? || outcome.NotOpen? then Dispatch(c, LocalSendFailed(SOCKET_NOT_OPEN, id, meta))
    else if outcome.SendFailed? then Dispatch(c, LocalSendFailed(SOCKET_SEND_FAILED, id, meta))
    else if command.Some? then Dispatch(c, LocalCommandSent(command.value.0, command.value.1))
    else c
  }

  datatype Step =
    | DoConnect(opens: bool, meta: Metadata)
    | DoClose
    | DoTimer(opens: bool, meta: Metadata)
    | DoMessage(g: Generation, message: Message, meta: Metadata)
    | DoMalformed(g: Generation, json: bool, meta: Metadata)
    | DoSocketClosed(g: Generation)
    | DoSend(command: Option<(string, CommandType)>, outcome: Sending, meta: Metadata)
    | DoTargets(targets: seq<TargetSummary>)

  predicate Enabled(c: Console, step: Step) {
    step.DoTimer? ==> c.s.timer
  }

  function Apply(c: Console, step: Step): Console {
    match step
    case DoConnect(opens, meta) => Connect(c, opens, meta)
    case DoClose => Close(c)
    case DoTimer(opens, meta) => TimerFires(c, opens, meta)
    case DoMessage(g, m, meta) => OnMessage(c, g, m, meta)
    case DoMalformed(g, json, meta) => OnMalformed(c, g, json, meta)
    case DoSocketClosed(g) => OnClose(c, g)
    case DoSend(command, outcome, meta) => Send(c, command, outcome, meta)
    case DoTargets(targets) => Dispatch(c, TargetsLoaded(targets))
  }

  predicate Legal(c: Console, run: seq<Step>)
    decreases |run|
  {
    run == [] || (Enabled(c, run[0]) && Legal(Apply(c, run[0]), run[1..]))
  }

  function After(c: Console, run: seq<Step>): Console
    decreases |run|
  {
    if run == [] then c else After(Apply(c, run[0]), run[1..])
  }

  // ---- a retired socket ------------------------------------------------------------------

  /** A socket is of the current generation, none is kept after stopping, and somebody will reconnect otherwise. */
  predicate SocketOk(s: Socket) {
    && (s.socket.Some? ==> s.socket.value == s.generation && !s.timer && !s.stopped)
    && (s.stopped ==> !s.timer)
    && (!s.stopped ==> s.socket.Some? || s.timer)
    && (s.socket.None? ==> s.observedEpoch.None? && s.observedRevision.None?)
    && (s.observedEpoch.None? <==> s.observedRevision.None?)
  }

  lemma StepKeepsSocketOk(c: Console, step: Step)
    requires SocketOk(c.s) && Enabled(c, step)
    ensures SocketOk(Apply(c, step).s) && c.s.generation <= Apply(c, step).s.generation
    ensures !IsCurrent(c.s, c.s.generation) && Apply(c, step).s.generation == c.s.generation ==>
      !IsCurrent(Apply(c, step).s, c.s.generation)
  {
  }

  predicate Retired(s: Socket, g: Generation) {
    g <= s.generation && !IsCurrent(s, g)
  }

  lemma {:induction false} RetiredForGood(c: Console, run: seq<Step>, g: Generation)
    requires SocketOk(c.s) && Legal(c, run) && Retired(c.s, g)
    ensures SocketOk(After(c, run).s) && Retired(After(c, run).s, g)
    decreases |run|
  {
    if run != [] {
      StepKeepsSocketOk(c, run[0]);
      RetiredForGood(Apply(c, run[0]), run[1..], g);
    }
  }

  /** Whatever happens later, nothing a retired socket delivers reaches the store. */
  lemma RetiredSocketIsMute(c: Console, run: seq<Step>, g: Generation, m: Message, json: bool, meta: Metadata)
    requires SocketOk(c.s) && Legal(c, run) && Retired(c.s, g)
    ensures var r := After(c, run);
      OnMessage(r, g, m, meta) == r && OnMalformed(r, g, json, meta) == r && OnClose(r, g) == r
  {
    RetiredForGood(c, run, g);
  }

  // ---- agreement ------------------------------------------------------------------------------

  /** Each socket is greeted before anything else that parses: nothing but a hello while nothing is observed. */
  predicate HelloFirst(c: Console, run: seq<Step>)
    decreases |run|
  {
    run == [] || (
      && (run[0].DoMessage? && IsCurrent(c.s, run[0].g) && c.s.observedEpoch.None? ==> run[0].message.Hello?)
      && HelloFirst(Apply(c, run[0]), run[1..]))
  }

  /** What the socket has observed is what the store shows. */
  ghost predicate Agree(c: Console) {
    c.s.observedEpoch.Some? ==>
      && c.store.connection == Online && c.store.deviceState.Some?
      && c.s.observedEpoch == Some(c.store.targetEpoch)
      && c.s.observedRevision == Some(c.store.deviceState.value.revision)
      && c.store.deviceState.value.revision >= 0
  }

  /** The parser lets only states with a revision of at least 0 through. */
  predicate Parsed(m: Message) {
    match m
    case Hello(_, _, _, _, state) => state.revision >= 0
    case FullState(_, _, state) => state.revision >= 0
    case Routed(routed) => routed.event.kind.StateChanged? ==> routed.event.kind.state.revision >= 0
    case _ => true
  }

  predicate AllParsed(run: seq<Step>) {
    forall step :: step in run && step.DoMessage? ==> Parsed(step.message)
  }

  /** What the store makes of a message, as far as the comparison goes. */
  lemma ReducedState(s: Store, m: Message, meta: Metadata)
    requires s.deviceState.Some? && Parsed(m)
    ensures var r := ReduceIncoming(s, m, meta);
      match m
      case Hello(_, _, _, epoch, state) => r.connection == Online && r.targetEpoch == epoch
        && r.deviceState == Some(state)
      case FullState(_, epoch, state) =>
        if epoch < s.targetEpoch || (epoch == s.targetEpoch && state.revision <= s.deviceState.value.revision)
          then r == s
        else r.connection == Online && r.targetEpoch == epoch && r.deviceState == Some(state)
      case Routed(routed) =>
        r.targetEpoch == s.targetEpoch &&
        if routed.epoch != s.targetEpoch || !routed.event.kind.StateChanged?
           || routed.event.kind.state.revision <= s.deviceState.value.revision
        then r.connection == s.connection && r.deviceState == s.deviceState
        else if routed.event.kind.state.revision == s.deviceState.value.revision + 1
        then r.connection == Online && r.deviceState == Some(routed.event.kind.state)
        else r.connection == Stale && r.deviceState == s.deviceState
      case _ => r.connection == s.connection && r.targetEpoch == s.targetEpoch && r.deviceState == s.deviceState
  {
  }

  /**
   One message on a greeted, current socket: the two agree afterwards, and the
   store goes stale exactly if the socket retires itself.
   */
  lemma MessageKeepsAgreement(c: Console, g: Generation, m: Message, meta: Metadata)
    requires SocketOk(c.s) && Agree(c) && IsCurrent(c.s, g) && Parsed(m)
    requires c.s.observedEpoch.Some? || m.Hello?
    ensures var r := OnMessage(c, g, m, meta);
      && Agree(r)
      && (r.s.observedEpoch.Some? <==> r.s.socket.Some?)
      && (r.store.connection == Stale <==> r.s.socket.None?)
      && (r.s.socket.None? ==> Retired(r.s, g))
  {
    if m.Hello? {
    } else {
      ReducedState(c.store, m, meta);
    }
  }

  lemma StepKeepsAgreement(c: Console, step: Step)
    requires SocketOk(c.s) && Agree(c) && Enabled(c, step)
    requires step.DoMessage? ==> Parsed(step.message)
    requires step.DoMessage? && IsCurrent(c.s, step.g) && c.s.observedEpoch.None? ==> step.message.Hello?
    ensures Agree(Apply(c, step))
  {
    if step.DoMessage? && IsCurrent(c.s, step.g) {
      MessageKeepsAgreement(c, step.g, step.message, step.meta);
    }
  }

  lemma {:induction false} RunKeepsAgreement(c: Console, run: seq<Step>)
    requires SocketOk(c.s) && Agree(c) && Legal(c, run) && HelloFirst(c, run) && AllParsed(run)
    ensures SocketOk(After(c, run).s) && Agree(After(c, run))
    decreases |run|
  {
    if run != [] {
      assert run[0] in run && forall step :: step in run[1..] ==> step in run;
      StepKeepsAgreement(c, run[0]);
      StepKeepsSocketOk(c, run[0]);
      RunKeepsAgreement(Apply(c, run[0]), run[1..]);
    }
  }

  /**
   On every run of connecting, losing, reconnecting, sending and receiving in
   which each socket is greeted first, the socket and the store agree on epoch
   and revision; a browser that is not stopped has a socket or a reconnect due.
   */
  lemma SocketAndStoreAgree(run: seq<Step>)
    requires Legal(Console(INITIAL_SOCKET, INITIAL_STORE), run)
      && HelloFirst(Console(INITIAL_SOCKET, INITIAL_STORE), run)
    requires AllParsed(run)
    ensures var c := After(Console(INITIAL_SOCKET, INITIAL_STORE), run);
      && (c.s.observedEpoch.Some? ==>
            c.store.deviceState.Some? && c.s.observedEpoch == Some(c.store.targetEpoch)
            && c.s.observedRevision == Some(c.store.deviceState.value.revision))
      && (c.s.observedEpoch.Some? ==> c.s.socket.Some?)
      && (!c.s.stopped ==> c.s.socket.Some? || c.s.timer)
  {
    RunKeepsAgreement(Console(INITIAL_SOCKET, INITIAL_STORE), run);
  }

  /** The same at a message: agreement before and after it, and a common verdict on the gap. */
  lemma CommonVerdict(run: seq<Step>, g: Generation, m: Message, meta: Metadata)
    requires Legal(Console(INITIAL_SOCKET, INITIAL_STORE), run)
      && HelloFirst(Console(INITIAL_SOCKET, INITIAL_STORE), run)
    requires AllParsed(run) && Parsed(m)
    requires var c := After(Console(INITIAL_SOCKET, INITIAL_STORE), run);
      IsCurrent(c.s, g) && (c.s.observedEpoch.Some? || m.Hello?)
    ensures var r := OnMessage(After(Console(INITIAL_SOCKET, INITIAL_STORE), run), g, m, meta);
      && (r.store.connection == Stale <==> r.s.socket.None?)
      && (r.s.socket.Some? ==>
            r.store.deviceState.Some? && r.s.observedEpoch == Some(r.store.targetEpoch)
            && r.s.observedRevision == Some(r.store.deviceState.value.revision))
      && (r.s.socket.None? ==> r.s.timer && Retired(r.s, g))
  {
    RunKeepsAgreement(Console(INITIAL_SOCKET, INITIAL_STORE), run);
    MessageKeepsAgreement(After(Console(INITIAL_SOCKET, INITIAL_STORE), run), g, m, meta);
  }

  /**
   Without the greeting they may disagree: a late state of an older epoch is
   observed by the new socket and ignored by the store.
   */
  lemma NoGreetingNoAgreement(c: Console, g: Generation, target: Option<string>, epoch: int, state: DeviceState,
                              meta: Metadata)
    requires SocketOk(c.s) && IsCurrent(c.s, g) && c.s.observedEpoch.None?
    requires c.store.deviceState.Some?
    ensures var r := OnMessage(c, g, FullState(target, epoch, state), meta);
      (r.s.observedEpoch == Some(r.store.targetEpoch)
        && r.s.observedRevision == Some(r.store.deviceState.value.revision))
      <==> (epoch > c.store.targetEpoch
        || (epoch == c.store.targetEpoch && state.revision >= c.store.deviceState.value.revision))
  {
  }

  // ---- what the store is told, and how often it is tried again -----------------------------------

  /** A report of the socket itself, with this code. */
  predicate Reports(error: ConsoleError, code: string) {
    error.code == code && error.recoverable
  }

  /** The actions that a step hands to the store. */
  predicate Dispatches(c: Console, step: Step, told: seq<Action>) {
    match step
    case DoConnect(opens, meta) => Opening(told, opens, meta)
    case DoTimer(opens, meta) => Opening(told, opens, meta)
    case DoClose => told == []
    case DoMessage(g, m, meta) => told == if c.s.socket == Some(g) then [Incoming(m, meta)] else []
    case DoMalformed(g, json, meta) =>
      if c.s.socket != Some(g) then told == []
      else
        && |told| == 1 && told[0].ProtocolError? && told[0].requestId.None? && told[0].meta == meta
        && Reports(told[0].error, if json then "invalid_message" else "invalid_json")
    case DoSocketClosed(g) => told == if c.s.socket == Some(g) then [Closed] else []
    case DoSend(command, outcome, meta) =>
      if c.s.socket.Some? && outcome.SentOut? then
        told == if command.Some? then [LocalCommandSent(command.value.0, command.value.1)] else []
      else
        && |told| == 1 && told[0].LocalSendFailed? && told[0].meta == meta
        && told[0].requestId == (if command.Some? then Some(command.value.0) else None)
        && Reports(told[0].error,
                   if c.s.socket.Some? && outcome.SendFailed? then "socket_send_failed" else "socket_not_open")
    case DoTargets(targets) => told == [TargetsLoaded(targets)]
  }

  predicate Opening(told: seq<Action>, opens: bool, meta: Metadata) {
    && |told| == (if opens then 1 else 2) && told[0] == BeginConnecting
    && (!opens ==>
          && told[1].ProtocolError? && told[1].requestId.None? && told[1].meta == meta
          && Reports(told[1].error, "socket_open_failed"))
  }

  /** The message leaves a revision of the observed epoch out. */
  predicate Skips(s: Socket, m: Message) {
    && m.Routed? && m.routed.event.kind.StateChanged? && s.observedEpoch == Some(m.routed.epoch)
    && s.observedRevision.Some? && m.routed.event.kind.state.revision > s.observedRevision.value + 1
  }

  /** The step loses the socket that the browser wants, so that it is tried again. */
  predicate LosesSocket(c: Console, step: Step) {
    match step
    case DoConnect(opens, _) => !opens
    case DoTimer(opens, _) => !opens
    case DoMessage(g, m, _) => c.s.socket == Some(g) && Skips(c.s, m)
    case DoSocketClosed(g) => c.s.socket == Some(g)
    case _ => false
  }

  lemma TellTwo(store: Store, told: seq<Action>)
    requires 1 <= |told| <= 2
    ensures ReduceAll(store, told) ==
      if |told| == 1 then Reduce(store, told[0]) else Reduce(Reduce(store, told[0]), told[1])
  {
    var rest := told[1..];
    assert ReduceAll(store, told) == ReduceAll(Reduce(store, told[0]), rest);
    if |told| == 2 {
      assert rest[1..] == [] && rest[0] == told[1];
      assert ReduceAll(Reduce(store, told[0]), rest) == ReduceAll(Reduce(Reduce(store, told[0]), told[1]), rest[1..]);
    }
  }

  /** What a step tells the store, as a list. */
  function Telling(c: Console, step: Step): seq<Action> {
    match step
    case DoConnect(opens, meta) =>
      [BeginConnecting] + if opens then [] else [ProtocolError(SOCKET_OPEN_FAILED, None, meta)]
    case DoTimer(opens, meta) =>
      [BeginConnecting] + if opens then [] else [ProtocolError(SOCKET_OPEN_FAILED, None, meta)]
    case DoClose => []
    case DoMessage(g, m, meta) => if c.s.socket == Some(g) then [Incoming(m, meta)] else []
    case DoMalformed(g, json, meta) =>
      if c.s.socket == Some(g) then [ProtocolError(if json then INVALID_MESSAGE else INVALID_JSON, None, meta)] else []
    case DoSocketClosed(g) => if c.s.socket == Some(g) then [Closed] else []
    case DoSend(command, outcome, meta) =>
      var id := if command.Some? then Some(command.value.0) else None;
      if c.s.socket.Some? && outcome.SentOut?
      then (if command.Some? then [LocalCommandSent(command.value.0, command.value.1)] else [])
      else [LocalSendFailed(if c.s.socket.Some? && outcome.SendFailed? then SOCKET_SEND_FAILED else SOCKET_NOT_OPEN,
                            id, meta)]
    case DoTargets(targets) => [TargetsLoaded(targets)]
  }

  lemma TellingDispatches(c: Console, step: Step)
    ensures Dispatches(c, step, Telling(c, step))
  {
  }

  lemma StoreIsTold(c: Console, step: Step)
    requires SocketOk(c.s) && Enabled(c, step)
    ensures Apply(c, step).store == ReduceAll(c.store, Telling(c, step))
  {
    var told := Telling(c, step);
    if told != [] {
      TellTwo(c.store, told);
    }
  }

  /**
   A step changes the store by the actions that it hands over and by nothing
   else; the attempts are counted from the last greeting, one for each socket
   lost, and then the timer is set.
   */
  lemma StepTellsTheStore(c: Console, step: Step)
    requires SocketOk(c.s) && Enabled(c, step)
    ensures exists told :: Dispatches(c, step, told) && Apply(c, step).store == ReduceAll(c.store, told)
    ensures var greeted := step.DoMessage? && c.s.socket == Some(step.g) && step.message.Hello?;
      var r := Apply(c, step).s;
      && r.attempt == (if greeted then 0 else c.s.attempt) + (if LosesSocket(c, step) then 1 else 0)
      && (LosesSocket(c, step) ==> r.timer && r.socket.None?)
      && (step.DoConnect? && step.opens ==> r.socket.Some? && r.socket != c.s.socket)
  {
    TellingDispatches(c, step);
    StoreIsTold(c, step);
  }
}
