/** The browser's picture of the console: a reducer over actions. */
module ConsoleStore {
  import opened Common

  const CONSOLE_EVENT_LIMIT := 200
  const ERROR_RECORD_LIMIT := 200
  const COMMAND_RECORD_LIMIT := 200

  datatype ConnectionStatus = Connecting | Online | Stale | Offline
  datatype LeaseState = ReadOnly | Controller(expiresAt: real)
  datatype TargetSummary = TargetSummary(id: string, active: bool, description: string)
  datatype DeviceState = DeviceState(revision: int, content: string)

  datatype CommandStatus = Sent | Accepted | Started | InProgress | Finished | Failed
  datatype ErrorText = ErrorText(code: Option<string>, message: Option<string>)
  datatype CommandRecord = CommandRecord(
    requestId: string, deviceCommandId: string, commandType: CommandType, status: CommandStatus,
    progress: Option<real>, eventIds: seq<string>, error: Option<ErrorText>)

  /** Motion commands are the ones named motion.* and device.rest. */
  datatype CommandType = MotionCommand(name: string) | OtherCommand(name: string)

  datatype ConsoleError = ConsoleError(code: string, message: string, recoverable: bool)
  datatype ErrorRecord = ErrorRecord(id: string, time: int, error: ConsoleError, requestId: Option<string>)
  datatype Metadata = Metadata(errorId: string, receivedAt: int)

  /** The event types the store tells apart; the last stands for every other name. */
  datatype EventKind =
    | StateChanged(state: DeviceState)
    | CommandAccepted
    | SomethingStarted
    | SomethingProgressed
    | SomethingFinished(failed: bool)
    | DeviceError
    | SomethingWrong
    | SomethingElse

  /** The fields of a payload that are looked at when they have the right type. */
  datatype Details = Details(progress: Option<real>, code: Option<string>, message: Option<string>,
                             recoverable: Option<bool>)
  datatype DeviceEvent = DeviceEvent(id: string, kind: EventKind, correlationId: Option<string>, details: Details)
  datatype RoutedEvent = RoutedEvent(targetId: string, epoch: int, event: DeviceEvent, error: Option<ConsoleError>)

  datatype Message =
    | Hello(sessionId: string, lease: LeaseState, target: Option<string>, epoch: int, state: DeviceState)
    | FullState(target: Option<string>, epoch: int, state: DeviceState)
    | Routed(routed: RoutedEvent)
    | Problem(error: ConsoleError, requestId: Option<string>)
    | Control(lease: LeaseState)

  datatype Action =
    | BeginConnecting
    | Closed
    | Incoming(message: Message, meta: Metadata)
    | ProtocolError(error: ConsoleError, requestId: Option<string>, meta: Metadata)
    | LocalSendFailed(error: ConsoleError, requestId: Option<string>, meta: Metadata)
    | LocalCommandSent(id: string, commandType: CommandType)
    | TargetsLoaded(targets: seq<TargetSummary>)

  datatype Store = Store(
    connection: ConnectionStatus,
    sessionId: Option<string>,
    lease: LeaseState,
    targets: seq<TargetSummary>,
    activeTargetId: Option<string>,
    targetEpoch: int,
    deviceState: Option<DeviceState>,
    events: seq<RoutedEvent>,
    errors: seq<ErrorRecord>,
    lastError: Option<ErrorRecord>,
    pendingCommands: seq<CommandRecord>,
    commandTimeline: seq<CommandRecord>)

  const INITIAL_STORE: Store :=
    Store(Offline, None, ReadOnly, [], None, 0, None, [], [], None, [], [])

  /** An absent or empty id does not count. */
  function Present(id: Option<string>): Option<string> {
    if id == Some("") then None else id
  }

  predicate IsTerminal(status: CommandStatus) {
    status.Finished? || status.Failed?
  }

  predicate Pending(record: CommandRecord) {
    !IsTerminal(record.status)
  }

  function MarkActive(target: Option<string>): TargetSummary -> TargetSummary {
    (t: TargetSummary) => t.(active := Some(t.id) == target)
  }

  function AppendError(s: Store, error: ConsoleError, meta: Metadata, requestId: Option<string>): Store {
    var record := ErrorRecord(meta.errorId, meta.receivedAt, error, Present(requestId));
    s.(lastError := Some(record), errors := Newest(s.errors + [record], ERROR_RECORD_LIMIT))
  }

  function AppendEvent(s: Store, routed: RoutedEvent): Store {
    s.(events := Newest(s.events + [routed], CONSOLE_EVENT_LIMIT))
  }

  // ---- commands ----------------------------------------------------------------------

  function NotRequest(id: string): CommandRecord -> bool {
    (record: CommandRecord) => record.requestId != id
  }

  function AddCommand(records: seq<CommandRecord>, id: string, commandType: CommandType): seq<CommandRecord> {
    Newest(Filter(NotRequest(id), records) + [CommandRecord(id, id, commandType, Sent, None, [], None)],
           COMMAND_RECORD_LIMIT)
  }

  function AddLocalCommand(s: Store, id: string, commandType: CommandType): Store {
    s.(pendingCommands := AddCommand(s.pendingCommands, id, commandType),
       commandTimeline := AddCommand(s.commandTimeline, id, commandType))
  }

  predicate Concerns(record: CommandRecord, id: string) {
    record.requestId == id || record.deviceCommandId == id
  }

  /** The status an event gives a record; None leaves the record alone. */
  function StatusAfter(record: CommandRecord, kind: EventKind): Option<CommandStatus> {
    if IsTerminal(record.status) then Some(record.status)
    else
      match kind
      case StateChanged(_) => Some(if record.commandType.MotionCommand? then record.status else Finished)
      case CommandAccepted => Some(Accepted)
      case SomethingStarted => Some(Started)
      case SomethingProgressed => Some(InProgress)
      case SomethingFinished(failed) => Some(if failed then Failed else Finished)
      case DeviceError => Some(Failed)
      case SomethingWrong => Some(Failed)
      case SomethingElse => None
  }

  function Either(first: Option<string>, second: Option<string>): Option<string> {
    if first.Some? then first else second
  }

  function ErrorAfter(record: CommandRecord, status: CommandStatus, d: Details): Option<ErrorText> {
    if status.Failed? && (d.code.Some? || d.message.Some?) then
      var before := if record.error.Some? then record.error.value else ErrorText(None, None);
      Some(ErrorText(Either(d.code, before.code), Either(d.message, before.message)))
    else record.error
  }

  function Correlated(record: CommandRecord, id: string, e: DeviceEvent): CommandRecord {
    var status := StatusAfter(record, e.kind);
    if !Concerns(record, id) || status.None? then record
    else record.(status := status.value, eventIds := record.eventIds + [e.id],
                 progress := if e.details.progress.Some? then e.details.progress else record.progress,
                 error := ErrorAfter(record, status.value, e.details))
  }

  function Correlator(id: string, e: DeviceEvent): CommandRecord -> CommandRecord {
    (record: CommandRecord) => Correlated(record, id, e)
  }

  /** Both lists are updated alike; what has become terminal is no longer pending. */
  function UpdateCommands(s: Store, update: CommandRecord -> CommandRecord): Store {
    s.(pendingCommands := Filter(Pending, MapSeq(update, s.pendingCommands)),
       commandTimeline := MapSeq(update, s.commandTimeline))
  }

  function CorrelateCommand(s: Store, e: DeviceEvent): Store {
    var id := Present(e.correlationId);
    if id.None? then s else UpdateCommands(s, Correlator(id.value, e))
  }

  function FailedRecord(record: CommandRecord, id: string, error: ConsoleError): CommandRecord {
    if Concerns(record, id)
    then record.(status := Failed, error := Some(ErrorText(Some(error.code), Some(error.message))))
    else record
  }

  function Failer(id: string, error: ConsoleError): CommandRecord -> CommandRecord {
    (record: CommandRecord) => FailedRecord(record, id, error)
  }

  function FailCommand(s: Store, id: string, error: ConsoleError): Store {
    UpdateCommands(s, Failer(id, error))
  }

  // ---- messages ---------------------------------------------------------------------------

  function ShowState(s: Store, target: Option<string>, epoch: int, state: DeviceState): Store {
    s.(connection := Online, activeTargetId := target, targetEpoch := epoch, deviceState := Some(state),
       lastError := None, targets := MapSeq(MarkActive(target), s.targets))
  }

  function ReduceFullState(s: Store, target: Option<string>, epoch: int, state: DeviceState): Store {
    if epoch < s.targetEpoch then s
    else if epoch == s.targetEpoch && s.deviceState.Some? && state.revision <= s.deviceState.value.revision then s
    else ShowState(s, target, epoch, state)
  }

  /** The wording of the message, which names both revisions, is not modelled. */
  const REVISION_GAP: ConsoleError := ConsoleError("revision_gap", "state revision gap", true)

  function RevisionGap(s: Store, meta: Metadata): Store {
    AppendError(s.(connection := Stale), REVISION_GAP, meta, None)
  }

  function ReduceStateEvent(s: Store, routed: RoutedEvent, state: DeviceState, meta: Metadata): Store {
    if s.deviceState.None? || state.revision < 0 then s
    else if state.revision <= s.deviceState.value.revision then CorrelateCommand(s, routed.event)
    else if state.revision > s.deviceState.value.revision + 1 then CorrelateCommand(RevisionGap(s, meta), routed.event)
    else
      var next := AppendEvent(s.(connection := Online, deviceState := Some(state), lastError := None), routed);
      var noted := if routed.error.Some? then AppendError(next, routed.error.value, meta, None) else next;
      CorrelateCommand(noted, routed.event)
  }

  function DeviceErrorOf(d: Details): ConsoleError {
    ConsoleError(if d.code.Some? then d.code.value else "device_error",
                 if d.message.Some? then d.message.value else "device command failed",
                 if d.recoverable.Some? then d.recoverable.value else true)
  }

  function ReduceEvent(s: Store, routed: RoutedEvent, meta: Metadata): Store {
    if routed.epoch != s.targetEpoch then s
    else if routed.event.kind.StateChanged? then ReduceStateEvent(s, routed, routed.event.kind.state, meta)
    else
      var next := CorrelateCommand(AppendEvent(s, routed), routed.event);
      if routed.event.kind.DeviceError?
        then AppendError(next, DeviceErrorOf(routed.event.details), meta, routed.event.correlationId)
      else if routed.error.Some? then AppendError(next, routed.error.value, meta, routed.event.correlationId)
      else next
  }

  predicate LosesControl(code: string) {
    code == "invalid_control_lease" || code == "read_only"
  }

  function ReduceIncoming(s: Store, m: Message, meta: Metadata): Store {
    match m
    case Hello(sessionId, lease, target, epoch, state) =>
      ShowState(s, target, epoch, state).(sessionId := Some(sessionId), lease := lease)
    case FullState(target, epoch, state) => ReduceFullState(s, target, epoch, state)
    case Routed(routed) => ReduceEvent(s, routed, meta)
    case Problem(error, requestId) =>
      var next := AppendError(if LosesControl(error.code) then s.(lease := ReadOnly) else s, error, meta, requestId);
      if Present(requestId).Some? then FailCommand(next, requestId.value, error) else next
    case Control(lease) => s.(lease := lease, lastError := None)
  }

  function Reduce(s: Store, a: Action): Store {
    match a
    case BeginConnecting => s.(connection := Connecting)
    case Closed => s.(connection := if s.deviceState.None? then Offline else Stale, lease := ReadOnly)
    case Incoming(message, meta) => ReduceIncoming(s, message, meta)
    case ProtocolError(error, requestId, meta) => AppendError(s, error, meta, requestId)
    case LocalSendFailed(error, requestId, meta) => AppendError(s, error, meta, requestId)
    case LocalCommandSent(id, commandType) => AddLocalCommand(s, id, commandType)
    case TargetsLoaded(targets) => s.(targets := targets)
  }

  function ReduceAll(s: Store, actions: seq<Action>): Store
    decreases |actions|
  {
    if actions == [] then s else ReduceAll(Reduce(s, actions[0]), actions[1..])
  }

  // ---- the two command lists ------------------------------------------------------------------

  ghost predicate UniqueRequests(records: seq<CommandRecord>) {
    forall i, j :: 0 <= i < j < |records| ==> records[i].requestId != records[j].requestId
  }

  /** The pending records are open, and end with exactly the open ones of the timeline, in its order. */
  ghost predicate CommandsOk(pending: seq<CommandRecord>, timeline: seq<CommandRecord>) {
    && (forall record :: record in pending ==> Pending(record))
    && UniqueRequests(pending) && UniqueRequests(timeline)
    && Suffix(Filter(Pending, timeline), pending)
    && |pending| <= COMMAND_RECORD_LIMIT && |timeline| <= COMMAND_RECORD_LIMIT
  }

  lemma {:induction false} MapConcat(f: CommandRecord -> CommandRecord, a: seq<CommandRecord>, b: seq<CommandRecord>)
    ensures MapSeq(f, a + b) == MapSeq(f, a) + MapSeq(f, b)
  {
  }

  lemma SplitSuffix<T>(s: seq<T>, t: seq<T>)
    requires Suffix(s, t)
    ensures t == t[..|t| - |s|] + s
  {
  }

  lemma SuffixOfConcat<T>(a: seq<T>, b: seq<T>)
    ensures Suffix(b, a + b)
  {
  }

  lemma FilterKeepsSuffix(keep: CommandRecord -> bool, s: seq<CommandRecord>, t: seq<CommandRecord>)
    requires Suffix(s, t)
    ensures Suffix(Filter(keep, s), Filter(keep, t))
  {
    SplitSuffix(s, t);
    FilterConcat(keep, t[..|t| - |s|], s);
    SuffixOfConcat(Filter(keep, t[..|t| - |s|]), Filter(keep, s));
  }

  lemma MapKeepsSuffix(f: CommandRecord -> CommandRecord, s: seq<CommandRecord>, t: seq<CommandRecord>)
    requires Suffix(s, t)
    ensures Suffix(MapSeq(f, s), MapSeq(f, t))
  {
    SplitSuffix(s, t);
    MapConcat(f, t[..|t| - |s|], s);
    SuffixOfConcat(MapSeq(f, t[..|t| - |s|]), MapSeq(f, s));
  }

  lemma {:induction false} FiltersCommute(p: CommandRecord -> bool, q: CommandRecord -> bool, s: seq<CommandRecord>)
    ensures Filter(p, Filter(q, s)) == Filter(q, Filter(p, s))
  {
    if s != [] {
      FiltersCommute(p, q, s[1..]);
      FilterConcat(p, if q(s[0]) then [s[0]] else [], Filter(q, s[1..]));
      FilterConcat(q, if p(s[0]) then [s[0]] else [], Filter(p, s[1..]));
      assert [s[0]][1..] == [];
    }
  }

  lemma {:induction false} FilterOfAll(keep: CommandRecord -> bool, s: seq<CommandRecord>)
    requires forall record :: record in s ==> keep(record)
    ensures Filter(keep, s) == s
  {
    if s != [] {
      assert s[0] in s && s == [s[0]] + s[1..];
      FilterOfAll(keep, s[1..]);
    }
  }

  lemma {:induction false} FilterKeepsUnique(keep: CommandRecord -> bool, s: seq<CommandRecord>)
    requires UniqueRequests(s)
    ensures UniqueRequests(Filter(keep, s))
  {
    if s != [] {
      FilterKeepsUnique(keep, s[1..]);
      FilterMembers(keep, s[1..]);
      var rest := Filter(keep, s[1..]);
      assert forall i :: 0 <= i < |rest| ==> rest[i] in rest;
    }
  }

  // ---- adding -------------------------------------------------------------------------------------

  lemma AddKeepsUnique(records: seq<CommandRecord>, id: string, commandType: CommandType)
    requires UniqueRequests(records)
    ensures UniqueRequests(AddCommand(records, id, commandType))
  {
    var rest := Filter(NotRequest(id), records);
    FilterKeepsUnique(NotRequest(id), records);
    FilterMembers(NotRequest(id), records);
    assert forall i :: 0 <= i < |rest| ==> rest[i] in rest;
  }

  lemma NewestOfSuffix<T>(s: seq<T>, t: seq<T>, n: nat)
    requires Suffix(s, t) && |s| <= n
    ensures Suffix(s, Newest(t, n))
  {
  }

  lemma PendingOfNewest(records: seq<CommandRecord>, n: nat)
    ensures Suffix(Filter(Pending, Newest(records, n)), Filter(Pending, records))
  {
    assert Suffix(Newest(records, n), records);
    FilterKeepsSuffix(Pending, Newest(records, n), records);
  }

  lemma SuffixTransitive<T>(a: seq<T>, b: seq<T>, c: seq<T>)
    requires Suffix(a, b) && Suffix(b, c)
    ensures Suffix(a, c)
  {
  }

  lemma AddKeepsSuffix(pending: seq<CommandRecord>, timeline: seq<CommandRecord>, id: string, commandType: CommandType)
    requires Suffix(Filter(Pending, timeline), pending)
    ensures Suffix(Filter(Pending, AddCommand(timeline, id, commandType)), AddCommand(pending, id, commandType))
  {
    var keep, one := NotRequest(id), [CommandRecord(id, id, commandType, Sent, None, [], None)];
    var p, t := Filter(keep, pending) + one, Filter(keep, timeline) + one;
    FilterKeepsSuffix(keep, Filter(Pending, timeline), pending);
    FiltersCommute(Pending, keep, timeline);
    FilterConcat(Pending, Filter(keep, timeline), one);
    FilterOfAll(Pending, one);
    assert Suffix(Filter(Pending, t), p);
    PendingOfNewest(t, COMMAND_RECORD_LIMIT);
    SuffixTransitive(Filter(Pending, Newest(t, COMMAND_RECORD_LIMIT)), Filter(Pending, t), p);
    FilterMembers(Pending, Newest(t, COMMAND_RECORD_LIMIT));
    NewestOfSuffix(Filter(Pending, Newest(t, COMMAND_RECORD_LIMIT)), p, COMMAND_RECORD_LIMIT);
  }

  lemma AddKeepsCommands(pending: seq<CommandRecord>, timeline: seq<CommandRecord>, id: string,
                         commandType: CommandType)
    requires CommandsOk(pending, timeline)
    ensures CommandsOk(AddCommand(pending, id, commandType), AddCommand(timeline, id, commandType))
  {
    AddKeepsUnique(pending, id, commandType);
    AddKeepsUnique(timeline, id, commandType);
    AddKeepsSuffix(pending, timeline, id, commandType);
    FilterMembers(NotRequest(id), pending);
  }

  // ---- updating ---------------------------------------------------------------------------------------

  /** An update keeps ids and never reopens a record. */
  ghost predicate Harmless(update: CommandRecord -> CommandRecord) {
    forall record {:trigger update(record)} ::
      update(record).requestId == record.requestId && (!Pending(record) ==> !Pending(update(record)))
  }

  lemma {:induction false} PendingOfUpdated(update: CommandRecord -> CommandRecord, s: seq<CommandRecord>)
    requires Harmless(update)
    ensures Filter(Pending, MapSeq(update, s)) == Filter(Pending, MapSeq(update, Filter(Pending, s)))
  {
    if s != [] {
      PendingOfUpdated(update, s[1..]);
      var first := if Pending(s[0]) then [s[0]] else [];
      MapConcat(update, first, Filter(Pending, s[1..]));
      FilterConcat(Pending, MapSeq(update, first), MapSeq(update, Filter(Pending, s[1..])));
      assert MapSeq(update, s) == [update(s[0])] + MapSeq(update, s[1..]);
      FilterConcat(Pending, [update(s[0])], MapSeq(update, s[1..]));
      assert [update(s[0])][1..] == [];
      assert Pending(s[0]) ==> MapSeq(update, first) == [update(s[0])];
    }
  }

  lemma UpdateKeepsUnique(records: seq<CommandRecord>, update: CommandRecord -> CommandRecord)
    requires UniqueRequests(records) && Harmless(update)
    ensures UniqueRequests(MapSeq(update, records)) && UniqueRequests(Filter(Pending, MapSeq(update, records)))
  {
    FilterKeepsUnique(Pending, MapSeq(update, records));
  }

  lemma UpdateKeepsSuffix(pending: seq<CommandRecord>, timeline: seq<CommandRecord>,
                          update: CommandRecord -> CommandRecord)
    requires Suffix(Filter(Pending, timeline), pending) && Harmless(update)
    ensures Suffix(Filter(Pending, MapSeq(update, timeline)), Filter(Pending, MapSeq(update, pending)))
  {
    PendingOfUpdated(update, timeline);
    MapKeepsSuffix(update, Filter(Pending, timeline), pending);
    FilterKeepsSuffix(Pending, MapSeq(update, Filter(Pending, timeline)), MapSeq(update, pending));
  }

  lemma UpdateKeepsCommands(pending: seq<CommandRecord>, timeline: seq<CommandRecord>,
                            update: CommandRecord -> CommandRecord)
    requires CommandsOk(pending, timeline) && Harmless(update)
    ensures CommandsOk(Filter(Pending, MapSeq(update, pending)), MapSeq(update, timeline))
  {
    UpdateKeepsUnique(pending, update);
    UpdateKeepsUnique(timeline, update);
    UpdateKeepsSuffix(pending, timeline, update);
    FilterMembers(Pending, MapSeq(update, pending));
  }

  ghost predicate StoreOk(s: Store) {
    CommandsOk(s.pendingCommands, s.commandTimeline)
    && |s.events| <= CONSOLE_EVENT_LIMIT && |s.errors| <= ERROR_RECORD_LIMIT
  }

  lemma CorrelateKeepsOk(s: Store, e: DeviceEvent)
    requires StoreOk(s)
    ensures StoreOk(CorrelateCommand(s, e))
  {
    var id := Present(e.correlationId);
    if id.Some? {
      UpdateKeepsCommands(s.pendingCommands, s.commandTimeline, Correlator(id.value, e));
    }
  }

  lemma FailKeepsOk(s: Store, id: string, error: ConsoleError)
    requires StoreOk(s)
    ensures StoreOk(FailCommand(s, id, error))
  {
    UpdateKeepsCommands(s.pendingCommands, s.commandTimeline, Failer(id, error));
  }

  lemma EventKeepsOk(s: Store, routed: RoutedEvent, meta: Metadata)
    requires StoreOk(s)
    ensures StoreOk(ReduceEvent(s, routed, meta))
  {
    if routed.epoch == s.targetEpoch {
      if routed.event.kind.StateChanged? {
        StateEventKeepsOk(s, routed, routed.event.kind.state, meta);
      } else {
        CorrelateKeepsOk(AppendEvent(s, routed), routed.event);
      }
    }
  }

  lemma StateEventKeepsOk(s: Store, routed: RoutedEvent, state: DeviceState, meta: Metadata)
    requires StoreOk(s)
    ensures StoreOk(ReduceStateEvent(s, routed, state, meta))
  {
    if s.deviceState.Some? && state.revision >= 0 {
      CorrelateKeepsOk(s, routed.event);
      CorrelateKeepsOk(RevisionGap(s, meta), routed.event);
      var next := AppendEvent(s.(connection := Online, deviceState := Some(state), lastError := None), routed);
      var told := if routed.error.Some? then AppendError(next, routed.error.value, meta, None) else next;
      CorrelateKeepsOk(told, routed.event);
    }
  }

  lemma ReduceKeepsOk(s: Store, a: Action)
    requires StoreOk(s)
    ensures StoreOk(Reduce(s, a))
  {
    match a
    case LocalCommandSent(id, commandType) => AddKeepsCommands(s.pendingCommands, s.commandTimeline, id, commandType);
    case Incoming(Routed(routed), meta) => EventKeepsOk(s, routed, meta);
    case Incoming(Problem(error, requestId), meta) =>
      if Present(requestId).Some? {
        var told := AppendError(if LosesControl(error.code) then s.(lease := ReadOnly) else s, error, meta, requestId);
        FailKeepsOk(told, requestId.value, error);
      }
    case _ =>
  }

  lemma {:induction false} ReduceAllKeepsOk(s: Store, actions: seq<Action>)
    requires StoreOk(s)
    ensures StoreOk(ReduceAll(s, actions))
    decreases |actions|
  {
    if actions != [] {
      ReduceKeepsOk(s, actions[0]);
      ReduceAllKeepsOk(Reduce(s, actions[0]), actions[1..]);
    }
  }

  /**
   After any actions whatever, the open records of the timeline are the end of
   the pending list; ids are unique in both, and nothing pending is finished.
   */
  lemma OpenCommandsArePending(actions: seq<Action>)
    ensures var s := ReduceAll(INITIAL_STORE, actions);
      && Suffix(Filter(Pending, s.commandTimeline), s.pendingCommands)
      && UniqueRequests(s.pendingCommands) && UniqueRequests(s.commandTimeline)
      && (forall record :: record in s.pendingCommands ==> !IsTerminal(record.status))
      && |s.pendingCommands| <= 200 && |s.commandTimeline| <= 200
  {
    ReduceAllKeepsOk(INITIAL_STORE, actions);
  }

  // ---- when a command stops being pending ---------------------------------------------------

  predicate HasRequest(records: seq<CommandRecord>, id: string) {
    exists i :: 0 <= i < |records| && records[i].requestId == id
  }

  /** Records are made with their request id as device command id. */
  ghost predicate OneId(records: seq<CommandRecord>) {
    forall record :: record in records ==> record.deviceCommandId == record.requestId
  }

  /** This action answers the command for good: an event that ends it, or an error that names it. */
  predicate Answers(s: Store, a: Action, id: string, commandType: CommandType) {
    match a
    case Incoming(Routed(routed), _) =>
      && routed.epoch == s.targetEpoch && Present(routed.event.correlationId) == Some(id)
      && (match routed.event.kind
          case StateChanged(state) => s.deviceState.Some? && state.revision >= 0 && !commandType.MotionCommand?
          case SomethingFinished(_) => true
          case DeviceError => true
          case SomethingWrong => true
          case _ => false)
    case Incoming(Problem(_, requestId), _) => Present(requestId) == Some(id)
    case _ => false
  }

  lemma {:induction false} UpdatedRequests(update: CommandRecord -> CommandRecord, s: seq<CommandRecord>, id: string)
    requires Harmless(update)
    ensures HasRequest(Filter(Pending, MapSeq(update, s)), id) <==>
      exists i :: 0 <= i < |s| && s[i].requestId == id && Pending(update(s[i]))
  {
    var mapped := MapSeq(update, s);
    FilterMembers(Pending, mapped);
    var kept := Filter(Pending, mapped);
    if HasRequest(kept, id) {
      var i :| 0 <= i < |kept| && kept[i].requestId == id;
      assert kept[i] in kept;
      var j :| 0 <= j < |mapped| && mapped[j] == kept[i];
      assert mapped[j] == update(s[j]);
    }
    if i :| 0 <= i < |s| && s[i].requestId == id && Pending(update(s[i])) {
      assert mapped[i] in mapped && mapped[i] in kept;
      var j :| 0 <= j < |kept| && kept[j] == mapped[i];
    }
  }

  lemma CorrelatedRequests(s: Store, e: DeviceEvent, k: nat)
    requires StoreOk(s) && OneId(s.pendingCommands) && k < |s.pendingCommands|
    ensures HasRequest(CorrelateCommand(s, e).pendingCommands, s.pendingCommands[k].requestId) <==>
      !(Present(e.correlationId) == Some(s.pendingCommands[k].requestId)
        && StatusAfter(s.pendingCommands[k], e.kind).Some?
          && IsTerminal(StatusAfter(s.pendingCommands[k], e.kind).value))
  {
    var p, record := s.pendingCommands, s.pendingCommands[k];
    assert record in p;
    var cid := Present(e.correlationId);
    if cid.Some? {
      UpdatedRequests(Correlator(cid.value, e), p, record.requestId);
    }
  }

  /** Only the correlation of an event that is let through changes the pending list. */
  lemma EventPending(s: Store, routed: RoutedEvent, meta: Metadata)
    ensures ReduceEvent(s, routed, meta).pendingCommands ==
      if routed.epoch == s.targetEpoch
         && (routed.event.kind.StateChanged? ==> s.deviceState.Some? && routed.event.kind.state.revision >= 0)
      then CorrelateCommand(s, routed.event).pendingCommands else s.pendingCommands
  {
  }

  lemma RoutedUntilAnswered(s: Store, routed: RoutedEvent, meta: Metadata, k: nat)
    requires StoreOk(s) && OneId(s.pendingCommands) && k < |s.pendingCommands|
    ensures HasRequest(ReduceEvent(s, routed, meta).pendingCommands, s.pendingCommands[k].requestId) <==>
      !Answers(s, Incoming(Routed(routed), meta), s.pendingCommands[k].requestId, s.pendingCommands[k].commandType)
  {
    assert s.pendingCommands[k] in s.pendingCommands;
    EventPending(s, routed, meta);
    CorrelatedRequests(s, routed.event, k);
  }

  lemma FailedUntilAnswered(s: Store, id: string, error: ConsoleError, k: nat)
    requires StoreOk(s) && OneId(s.pendingCommands) && k < |s.pendingCommands|
    ensures HasRequest(FailCommand(s, id, error).pendingCommands, s.pendingCommands[k].requestId) <==>
      id != s.pendingCommands[k].requestId
  {
    assert s.pendingCommands[k] in s.pendingCommands;
    UpdatedRequests(Failer(id, error), s.pendingCommands, s.pendingCommands[k].requestId);
  }

  /** Every other action leaves the pending list as it is. */
  lemma OtherwisePending(s: Store, a: Action)
    requires !a.LocalCommandSent? && !(a.Incoming? && (a.message.Routed? || a.message.Problem?))
    ensures Reduce(s, a).pendingCommands == s.pendingCommands
  {
  }

  /** A problem fails the command it names, if it names one. */
  lemma ProblemPending(s: Store, error: ConsoleError, requestId: Option<string>, meta: Metadata)
    ensures ReduceIncoming(s, Problem(error, requestId), meta).pendingCommands ==
      if Present(requestId).Some? then FailCommand(s, requestId.value, error).pendingCommands else s.pendingCommands
  {
  }

  /** Sending one more than the limit drops the oldest pending command, answered or not. */
  predicate CrowdsOut(s: Store, a: Action, k: nat) {
    a.LocalCommandSent? && k == 0 && |s.pendingCommands| == COMMAND_RECORD_LIMIT && !HasRequest(s.pendingCommands, a.id)
  }

  lemma FirstOrRest(records: seq<CommandRecord>, id: string)
    requires records != []
    ensures HasRequest(records, id) <==> records[0].requestId == id || HasRequest(records[1..], id)
  {
    if HasRequest(records, id) && records[0].requestId != id {
      var i :| 0 <= i < |records| && records[i].requestId == id;
      assert records[1..][i - 1].requestId == id;
    }
    if HasRequest(records[1..], id) {
      var i :| 0 <= i < |records| - 1 && records[1..][i].requestId == id;
      assert records[i + 1].requestId == id;
    }
  }

  lemma {:induction false} WithoutRequest(records: seq<CommandRecord>, id: string)
    ensures HasRequest(records, id) ==> |Filter(NotRequest(id), records)| < |records|
    ensures !HasRequest(records, id) ==> Filter(NotRequest(id), records) == records
  {
    if records != [] {
      FirstOrRest(records, id);
      WithoutRequest(records[1..], id);
      FilterMembers(NotRequest(id), records[1..]);
      assert records == [records[0]] + records[1..];
    }
  }

  lemma RequestIsThere(records: seq<CommandRecord>, record: CommandRecord)
    requires record in records
    ensures HasRequest(records, record.requestId)
  {
    var i :| 0 <= i < |records| && records[i] == record;
    assert records[i].requestId == record.requestId;
  }

  lemma SentKeepsPending(records: seq<CommandRecord>, id: string, commandType: CommandType, k: nat)
    requires UniqueRequests(records) && k < |records| <= COMMAND_RECORD_LIMIT
    ensures HasRequest(AddCommand(records, id, commandType), records[k].requestId) <==>
      !(k == 0 && |records| == COMMAND_RECORD_LIMIT && !HasRequest(records, id))
  {
    var kept := Filter(NotRequest(id), records);
    var sent := CommandRecord(id, id, commandType, Sent, None, [], None);
    var r := AddCommand(records, id, commandType);
    WithoutRequest(records, id);
    FilterMembers(NotRequest(id), records);
    assert r[|r| - 1] == sent;
    if HasRequest(records, id) {
      assert r == kept + [sent];
      RequestIsThere(r, if records[k].requestId == id then sent else records[k]);
    } else if |records| < COMMAND_RECORD_LIMIT {
      assert r[k] == records[k];
    } else if k > 0 {
      assert r[k - 1] == records[k];
    } else {
      assert r == records[1..] + [sent];
      assert HasRequest(records, records[0].requestId);
    }
  }

  /**
   A pending command leaves the list exactly when it is answered, by the end of
   its motion, by the next state for any other command, or by an error, or when
   it is the oldest and crowded out.
   */
  lemma PendingUntilAnswered(s: Store, a: Action, k: nat)
    requires StoreOk(s) && OneId(s.pendingCommands) && k < |s.pendingCommands|
    ensures HasRequest(Reduce(s, a).pendingCommands, s.pendingCommands[k].requestId) <==>
      !Answers(s, a, s.pendingCommands[k].requestId, s.pendingCommands[k].commandType) && !CrowdsOut(s, a, k)
  {
    assert HasRequest(s.pendingCommands, s.pendingCommands[k].requestId);
    match a
    case Incoming(Routed(routed), meta) => RoutedUntilAnswered(s, routed, meta, k);
    case Incoming(Problem(error, requestId), meta) =>
      ProblemPending(s, error, requestId, meta);
      if Present(requestId).Some? {
        FailedUntilAnswered(s, requestId.value, error, k);
      }
    case LocalCommandSent(id, commandType) => SentKeepsPending(s.pendingCommands, id, commandType, k);
    case _ => OtherwisePending(s, a);
  }

  /** A command that was just sent is the newest pending one. */
  lemma SentCommandIsPending(s: Store, id: string, commandType: CommandType)
    ensures var p := Reduce(s, LocalCommandSent(id, commandType)).pendingCommands;
      p != [] && p[|p| - 1].requestId == id && p[|p| - 1].status == Sent
    ensures OneId(s.pendingCommands) ==> OneId(Reduce(s, LocalCommandSent(id, commandType)).pendingCommands)
  {
    FilterMembers(NotRequest(id), s.pendingCommands);
  }

  lemma {:induction false} MappedOneId(update: CommandRecord -> CommandRecord, s: seq<CommandRecord>)
    requires OneId(s)
    requires forall record {:trigger update(record)} ::
      update(record).requestId == record.requestId && update(record).deviceCommandId == record.deviceCommandId
    ensures OneId(Filter(Pending, MapSeq(update, s)))
  {
    var mapped := MapSeq(update, s);
    FilterMembers(Pending, mapped);
    forall record | record in mapped
      ensures record.deviceCommandId == record.requestId
    {
      var i :| 0 <= i < |mapped| && mapped[i] == record;
      assert s[i] in s;
    }
  }

  lemma ReduceKeepsOneId(s: Store, a: Action)
    requires OneId(s.pendingCommands)
    ensures OneId(Reduce(s, a).pendingCommands)
  {
    match a
    case LocalCommandSent(id, commandType) => SentCommandIsPending(s, id, commandType);
    case Incoming(Routed(routed), _) =>
      var id := Present(routed.event.correlationId);
      if id.Some? {
        MappedOneId(Correlator(id.value, routed.event), s.pendingCommands);
      }
    case Incoming(Problem(error, requestId), _) =>
      if Present(requestId).Some? {
        MappedOneId(Failer(requestId.value, error), s.pendingCommands);
      }
    case _ =>
  }

  lemma {:induction false} ReduceAllKeepsOneId(s: Store, actions: seq<Action>)
    requires OneId(s.pendingCommands)
    ensures OneId(ReduceAll(s, actions).pendingCommands)
    decreases |actions|
  {
    if actions != [] {
      ReduceKeepsOneId(s, actions[0]);
      ReduceAllKeepsOneId(Reduce(s, actions[0]), actions[1..]);
    }
  }

  /**
   After any actions whatever, the next one takes a command off the pending list
   exactly if it answers it or crowds it out.
   */
  lemma CommandsArePendingUntilAnswered(actions: seq<Action>, a: Action, k: nat)
    requires k < |ReduceAll(INITIAL_STORE, actions).pendingCommands|
    ensures var s := ReduceAll(INITIAL_STORE, actions);
      HasRequest(Reduce(s, a).pendingCommands, s.pendingCommands[k].requestId) <==>
        !Answers(s, a, s.pendingCommands[k].requestId, s.pendingCommands[k].commandType) && !CrowdsOut(s, a, k)
  {
    ReduceAllKeepsOk(INITIAL_STORE, actions);
    ReduceAllKeepsOneId(INITIAL_STORE, actions);
    PendingUntilAnswered(ReduceAll(INITIAL_STORE, actions), a, k);
  }

  lemma {:induction false} ReduceLast(s: Store, actions: seq<Action>, a: Action)
    ensures ReduceAll(s, actions + [a]) == Reduce(ReduceAll(s, actions), a)
    decreases |actions|
  {
    if actions == [] {
      assert actions + [a] == [a] && [a][1..] == [];
    } else {
      assert (actions + [a])[1..] == actions[1..] + [a];
      ReduceLast(Reduce(s, actions[0]), actions[1..], a);
    }
  }

  // ---- a list too long ------------------------------------------------------------------------

  function Name(n: nat): string {
    seq(n, i => 'a')
  }

  /** So many commands are sent, with different ids. */
  function Burst(n: nat, commandType: CommandType): seq<Action> {
    seq(n, i requires 0 <= i < n => LocalCommandSent(Name(i), commandType))
  }

  lemma NextNameIsAppended(records: seq<CommandRecord>, commandType: CommandType)
    requires |records| < COMMAND_RECORD_LIMIT && forall k :: 0 <= k < |records| ==> records[k].requestId == Name(k)
    ensures var name := Name(|records|);
      AddCommand(records, name, commandType) == records + [CommandRecord(name, name, commandType, Sent, None, [], None)]
  {
    assert forall k :: 0 <= k < |records| ==> |records[k].requestId| == k;
    WithoutRequest(records, Name(|records|));
  }

  lemma {:induction false} BurstIsPending(n: nat, commandType: CommandType)
    requires n <= COMMAND_RECORD_LIMIT
    ensures var p := ReduceAll(INITIAL_STORE, Burst(n, commandType)).pendingCommands;
      |p| == n && forall k :: 0 <= k < n ==> p[k].requestId == Name(k)
  {
    if n > 0 {
      BurstIsPending(n - 1, commandType);
      var before := Burst(n - 1, commandType);
      var records := ReduceAll(INITIAL_STORE, before).pendingCommands;
      assert Burst(n, commandType) == before + [LocalCommandSent(Name(n - 1), commandType)];
      ReduceLast(INITIAL_STORE, before, LocalCommandSent(Name(n - 1), commandType));
      NextNameIsAppended(records, commandType);
    }
  }

  /** A burst of 201 commands that shows it: the first leaves the list, and nothing has answered it. */
  lemma FirstIsCrowdedOut(commandType: CommandType)
    ensures var s := ReduceAll(INITIAL_STORE, Burst(COMMAND_RECORD_LIMIT, commandType));
      var a := LocalCommandSent(Name(COMMAND_RECORD_LIMIT), commandType);
      && HasRequest(s.pendingCommands, Name(0)) && !HasRequest(Reduce(s, a).pendingCommands, Name(0))
      && !Answers(s, a, Name(0), commandType)
  {
    var burst := Burst(COMMAND_RECORD_LIMIT, commandType);
    BurstIsPending(COMMAND_RECORD_LIMIT, commandType);
    var p := ReduceAll(INITIAL_STORE, burst).pendingCommands;
    assert p[0].requestId == Name(0);
    assert forall k :: 0 <= k < COMMAND_RECORD_LIMIT ==> |p[k].requestId| == k;
    CommandsArePendingUntilAnswered(burst, LocalCommandSent(Name(COMMAND_RECORD_LIMIT), commandType), 0);
  }

  // ---- what is shown never goes back -----------------------------------------------------------

  /** Epoch first, then revision. */
  predicate NotBehind(before: Store, after: Store) {
    || before.deviceState.None?
    || before.targetEpoch < after.targetEpoch
    || (before.targetEpoch == after.targetEpoch && after.deviceState.Some?
        && before.deviceState.value.revision <= after.deviceState.value.revision)
  }

  lemma ShownNeverGoesBack(s: Store, a: Action)
    requires !(a.Incoming? && a.message.Hello?)
    ensures NotBehind(s, Reduce(s, a))
    ensures s.deviceState.Some? ==> Reduce(s, a).deviceState.Some?
  {
  }

  /** Between two greetings the shown epoch and revision only advance, whatever arrives in whatever order. */
  lemma {:induction false} ShownOnlyAdvances(s: Store, actions: seq<Action>)
    requires forall a :: a in actions ==> !(a.Incoming? && a.message.Hello?)
    ensures NotBehind(s, ReduceAll(s, actions))
    ensures s.deviceState.Some? ==> ReduceAll(s, actions).deviceState.Some?
    decreases |actions|
  {
    if actions != [] {
      assert actions[0] in actions && forall a :: a in actions[1..] ==> a in actions;
      ShownNeverGoesBack(s, actions[0]);
      ShownOnlyAdvances(Reduce(s, actions[0]), actions[1..]);
    }
  }

  /** The role last granted, unless it was lost since. */
  function LastRole(actions: seq<Action>): LeaseState {
    if actions == [] then ReadOnly
    else
      match actions[|actions| - 1]
      case Incoming(Hello(_, lease, _, _, _), _) => lease
      case Incoming(Control(lease), _) => lease
      case Incoming(Problem(error, _), _) =>
        if error.code == "invalid_control_lease" || error.code == "read_only" then ReadOnly
          else LastRole(actions[..|actions| - 1])
      case Closed => ReadOnly
      case _ => LastRole(actions[..|actions| - 1])
  }

  lemma ReducedLease(s: Store, a: Action)
    ensures Reduce(s, a).lease ==
      match a
      case Incoming(Hello(_, lease, _, _, _), _) => lease
      case Incoming(Control(lease), _) => lease
      case Incoming(Problem(error, _), _) => if LosesControl(error.code) then ReadOnly else s.lease
      case Closed => ReadOnly
      case _ => s.lease
  {
  }

  /** The store shows control exactly as last granted: no later refusal and no disconnection has taken it. */
  lemma {:induction false} RoleIsTheLastGranted(actions: seq<Action>)
    ensures ReduceAll(INITIAL_STORE, actions).lease == LastRole(actions)
  {
    if actions != [] {
      var front, last := actions[..|actions| - 1], actions[|actions| - 1];
      assert actions == front + [last];
      RoleIsTheLastGranted(front);
      ReduceLast(INITIAL_STORE, front, last);
      ReducedLease(ReduceAll(INITIAL_STORE, front), last);
    }
  }
}
