/** What the browser shows of commands, errors and events, told from everything that was ever dispatched. */
module ConsoleHistory {
  import opened Common
  import opened ConsoleStore

  // ---- the epoch and revision shown -------------------------------------------------------

  /** The epoch the console is in, and the revision it shows. */
  datatype Context = Context(epoch: int, revision: Option<int>)

  const NO_CONTEXT: Context := Context(0, None)

  /** A state belongs here and is the one to show next. */
  predicate IsNext(c: Context, epoch: int, revision: int) {
    epoch == c.epoch && c.revision.Some? && revision >= 0 && revision == c.revision.value + 1
  }

  /** A full state is taken unless it is behind. */
  predicate IsAhead(c: Context, epoch: int, revision: int) {
    epoch > c.epoch || (epoch == c.epoch && (c.revision.None? || revision > c.revision.value))
  }

  function Enter(c: Context, a: Action): Context {
    match a
    case Incoming(Hello(_, _, _, epoch, state), _) => Context(epoch, Some(state.revision))
    case Incoming(FullState(_, epoch, state), _) =>
      if IsAhead(c, epoch, state.revision) then Context(epoch, Some(state.revision)) else c
    case Incoming(Routed(routed), _) =>
      if routed.event.kind.StateChanged? && IsNext(c, routed.epoch, routed.event.kind.state.revision)
      then c.(revision := Some(routed.event.kind.state.revision)) else c
    case _ => c
  }

  function ContextOf(actions: seq<Action>): Context {
    if actions == [] then NO_CONTEXT
    else Enter(ContextOf(actions[..|actions| - 1]), actions[|actions| - 1])
  }

  predicate InContext(s: Store, c: Context) {
    && s.targetEpoch == c.epoch && (s.deviceState.Some? <==> c.revision.Some?)
    && (s.deviceState.Some? ==> s.deviceState.value.revision == c.revision.value)
  }

  lemma EventEnters(s: Store, c: Context, routed: RoutedEvent, meta: Metadata)
    requires InContext(s, c)
    ensures InContext(ReduceEvent(s, routed, meta), Enter(c, Incoming(Routed(routed), meta)))
  {
  }

  lemma MessageEnters(s: Store, c: Context, m: Message, meta: Metadata)
    requires InContext(s, c)
    ensures InContext(ReduceIncoming(s, m, meta), Enter(c, Incoming(m, meta)))
  {
    if m.Routed? {
      EventEnters(s, c, m.routed, meta);
    }
  }

  lemma ReduceEnters(s: Store, c: Context, a: Action)
    requires InContext(s, c)
    ensures InContext(Reduce(s, a), Enter(c, a))
  {
    if a.Incoming? {
      MessageEnters(s, c, a.message, a.meta);
    }
  }

  // ---- one command ------------------------------------------------------------------------------

  /** What has been said about a command since it was sent last. */
  datatype Told = Untold | Told(commandType: CommandType, status: CommandStatus, progress: Option<real>,
                                events: seq<string>, code: Option<string>, message: Option<string>, wrong: bool)

  predicate Over(t: Told) {
    t.Told? && (t.status == Finished || t.status == Failed)
  }

  /** An event of the console's epoch that names the command; states do not count without one shown, or malformed. */
  predicate Names(c: Context, a: Action, id: string) {
    && a.Incoming? && a.message.Routed?
    && var routed := a.message.routed;
    && routed.epoch == c.epoch && id != "" && routed.event.correlationId == Some(id)
    && (routed.event.kind.StateChanged? ==> c.revision.Some? && routed.event.kind.state.revision >= 0)
  }

  predicate Blames(a: Action, id: string) {
    a.Incoming? && a.message.Problem? && id != "" && a.message.requestId == Some(id)
  }

  /** An event says nothing of a command that is not over if it is of no kind that concerns one. */
  predicate Tells(t: Told, kind: EventKind) {
    Over(t) || !kind.SomethingElse?
  }

  /** The status once the event has come: what is over stays so, and a state ends what is not a motion. */
  function Says(t: Told, kind: EventKind): CommandStatus
    requires t.Told?
  {
    if Over(t) then t.status
    else
      match kind
      case CommandAccepted => Accepted
      case SomethingStarted => Started
      case SomethingProgressed => InProgress
      case SomethingFinished(failed) => if failed then Failed else Finished
      case DeviceError => Failed
      case SomethingWrong => Failed
      case StateChanged(_) => if t.commandType.OtherCommand? then Finished else t.status
      case SomethingElse => t.status
  }

  function Latest<T>(before: Option<T>, now: Option<T>): Option<T> {
    if now.None? then before else now
  }

  /** The code and the message of a failure are those told last. */
  function Hear(t: Told, id: string, c: Context, a: Action): Told {
    if a.LocalCommandSent? && a.id == id then Told(a.commandType, Sent, None, [], None, None, false)
    else if t.Untold? then t
    else if Blames(a, id) then
      t.(status := Failed, code := Some(a.message.error.code), message := Some(a.message.error.message), wrong := true)
    else if Names(c, a, id) && Tells(t, a.message.routed.event.kind) then
      var event := a.message.routed.event;
      var next := t.(status := Says(t, event.kind), events := t.events + [event.id],
                     progress := Latest(t.progress, event.details.progress));
      if Says(t, event.kind) == Failed && (event.details.code.Some? || event.details.message.Some?)
      then next.(code := Latest(t.code, event.details.code), message := Latest(t.message, event.details.message),
                 wrong := true)
      else next
    else t
  }

  function ToldOf(actions: seq<Action>, id: string): Told {
    if actions == [] then Untold
    else
      var before := actions[..|actions| - 1];
      Hear(ToldOf(before, id), id, ContextOf(before), actions[|actions| - 1])
  }

  /** The record is what was told. */
  predicate Recorded(record: CommandRecord, t: Told) {
    && t.Told? && record.deviceCommandId == record.requestId
    && record.commandType == t.commandType && record.status == t.status && record.progress == t.progress
    && record.eventIds == t.events
    && record.error == if t.wrong then Some(ErrorText(t.code, t.message)) else None
  }

  /** Whether there is an error to show, its parts are known only with it. */
  predicate Orderly(t: Told) {
    t.Told? && !t.wrong ==> t.code.None? && t.message.None?
  }

  lemma {:induction false} ToldIsOrderly(actions: seq<Action>, id: string)
    ensures Orderly(ToldOf(actions, id))
  {
    if actions != [] {
      ToldIsOrderly(actions[..|actions| - 1], id);
    }
  }

  ghost predicate AllRecorded(records: seq<CommandRecord>, told: string -> Told) {
    forall record :: record in records ==> Recorded(record, told(record.requestId))
  }

  // ---- a step ----------------------------------------------------------------------------------

  lemma CorrelatedIsHeard(record: CommandRecord, t: Told, id: string, c: Context, a: Action)
    requires Recorded(record, t) && Orderly(t) && Names(c, a, id)
    ensures record.requestId == id ==>
      Recorded(Correlated(record, id, a.message.routed.event), Hear(t, record.requestId, c, a))
    ensures record.requestId != id ==>
      Correlated(record, id, a.message.routed.event) == record && Hear(t, record.requestId, c, a) == t
    ensures Correlated(record, id, a.message.routed.event).requestId == record.requestId
  {
  }

  lemma FailedIsHeard(record: CommandRecord, t: Told, id: string, c: Context, a: Action)
    requires Recorded(record, t) && Blames(a, id)
    ensures record.requestId == id ==>
      Recorded(FailedRecord(record, id, a.message.error), Hear(t, record.requestId, c, a))
    ensures record.requestId != id ==>
      FailedRecord(record, id, a.message.error) == record && Hear(t, record.requestId, c, a) == t
    ensures FailedRecord(record, id, a.message.error).requestId == record.requestId
  {
  }

  /** What one action makes of the timeline. */
  lemma TimelineOf(s: Store, c: Context, a: Action)
    requires InContext(s, c)
    ensures var r := Reduce(s, a).commandTimeline;
      match a
      case LocalCommandSent(id, commandType) => r == AddCommand(s.commandTimeline, id, commandType)
      case Incoming(Routed(routed), _) =>
        var id := Present(routed.event.correlationId);
        r == if id.Some? && Names(c, a, id.value) then MapSeq(Correlator(id.value, routed.event), s.commandTimeline)
             else s.commandTimeline
      case Incoming(Problem(error, requestId), _) =>
        var id := Present(requestId);
        r == if id.Some? then MapSeq(Failer(id.value, error), s.commandTimeline) else s.commandTimeline
      case _ => r == s.commandTimeline
  {
  }

  lemma AddIsRecorded(records: seq<CommandRecord>, told: string -> Told, heard: string -> Told,
                      id: string, commandType: CommandType)
    requires AllRecorded(records, told)
    requires heard(id) == Told(commandType, Sent, None, [], None, None, false)
    requires forall x :: x != id ==> heard(x) == told(x)
    ensures AllRecorded(AddCommand(records, id, commandType), heard)
  {
    FilterMembers(NotRequest(id), records);
    var sent := CommandRecord(id, id, commandType, Sent, None, [], None);
    var all := Filter(NotRequest(id), records) + [sent];
    assert AllRecorded(all, heard);
    assert forall record :: record in Newest(all, COMMAND_RECORD_LIMIT) ==> record in all;
  }

  lemma MappedAreRecorded(records: seq<CommandRecord>, update: CommandRecord -> CommandRecord, heard: string -> Told)
    requires forall record :: record in records ==> Recorded(update(record), heard(update(record).requestId))
    ensures AllRecorded(MapSeq(update, records), heard)
  {
    var mapped := MapSeq(update, records);
    forall record | record in mapped
      ensures Recorded(record, heard(record.requestId))
    {
      var i :| 0 <= i < |mapped| && mapped[i] == record;
      assert records[i] in records;
    }
  }

  lemma StepIsRecorded(s: Store, c: Context, a: Action, told: string -> Told, heard: string -> Told)
    requires InContext(s, c) && AllRecorded(s.commandTimeline, told)
    requires forall id :: Orderly(told(id)) && heard(id) == Hear(told(id), id, c, a)
    ensures AllRecorded(Reduce(s, a).commandTimeline, heard)
  {
    TimelineOf(s, c, a);
    var records := s.commandTimeline;
    if a.LocalCommandSent? {
      AddIsRecorded(records, told, heard, a.id, a.commandType);
    } else if a.Incoming? && a.message.Routed? && Present(a.message.routed.event.correlationId).Some?
              && Names(c, a, a.message.routed.event.correlationId.value) {
      var id, event := a.message.routed.event.correlationId.value, a.message.routed.event;
      forall record | record in records
        ensures Recorded(Correlated(record, id, event), heard(Correlated(record, id, event).requestId))
      {
        CorrelatedIsHeard(record, told(record.requestId), id, c, a);
      }
      MappedAreRecorded(records, Correlator(id, event), heard);
    } else if a.Incoming? && a.message.Problem? && Present(a.message.requestId).Some? {
      var id := a.message.requestId.value;
      forall record | record in records
        ensures Recorded(FailedRecord(record, id, a.message.error),
                         heard(FailedRecord(record, id, a.message.error).requestId))
      {
        FailedIsHeard(record, told(record.requestId), id, c, a);
      }
      MappedAreRecorded(records, Failer(id, a.message.error), heard);
    }
  }

  // ---- after any actions -----------------------------------------------------------------------

  lemma {:induction false} ReducedInContext(actions: seq<Action>)
    ensures InContext(ReduceAll(INITIAL_STORE, actions), ContextOf(actions))
  {
    if actions != [] {
      var n := |actions| - 1;
      assert actions == actions[..n] + [actions[n]];
      ReducedInContext(actions[..n]);
      ReduceLast(INITIAL_STORE, actions[..n], actions[n]);
      ReduceEnters(ReduceAll(INITIAL_STORE, actions[..n]), ContextOf(actions[..n]), actions[n]);
    }
  }

  /**
   After any actions whatever, each record of the timeline shows of its command
   what the actions have said since it was sent last: its type, status and
   progress, the events that were counted, and the code and message of its error.
   */
  lemma {:induction false} TimelineShowsWhatWasSaid(actions: seq<Action>)
    ensures AllRecorded(ReduceAll(INITIAL_STORE, actions).commandTimeline, id => ToldOf(actions, id))
  {
    if actions != [] {
      var n := |actions| - 1;
      var before := actions[..n];
      assert actions == before + [actions[n]];
      TimelineShowsWhatWasSaid(before);
      ReducedInContext(before);
      ReduceLast(INITIAL_STORE, before, actions[n]);
      forall id
        ensures Orderly(ToldOf(before, id))
      {
        ToldIsOrderly(before, id);
      }
      StepIsRecorded(ReduceAll(INITIAL_STORE, before), ContextOf(before), actions[n],
                     id => ToldOf(before, id), id => ToldOf(actions, id));
    }
  }

  // ---- which commands are shown -------------------------------------------------------------------

  function Without(ids: seq<string>, id: string): seq<string> {
    if ids == [] then []
    else (if ids[0] == id then [] else [ids[0]]) + Without(ids[1..], id)
  }

  /** The ids of the commands sent, each at the place where it was sent last. */
  function SentIds(actions: seq<Action>): seq<string> {
    if actions == [] then []
    else
      var before := SentIds(actions[..|actions| - 1]);
      var a := actions[|actions| - 1];
      if a.LocalCommandSent? then Newest(Without(before, a.id) + [a.id], 200) else before
  }

  function RequestIds(records: seq<CommandRecord>): (ids: seq<string>)
    ensures |ids| == |records| && forall i :: 0 <= i < |ids| ==> ids[i] == records[i].requestId
  {
    seq(|records|, i requires 0 <= i < |records| => records[i].requestId)
  }

  lemma {:induction false} FilteredIds(records: seq<CommandRecord>, id: string)
    ensures RequestIds(Filter(NotRequest(id), records)) == Without(RequestIds(records), id)
  {
    if records != [] {
      FilteredIds(records[1..], id);
      assert RequestIds(records)[1..] == RequestIds(records[1..]);
      var rest := Filter(NotRequest(id), records[1..]);
      assert RequestIds([records[0]] + rest) == [records[0].requestId] + RequestIds(rest);
    }
  }

  lemma AddedIds(records: seq<CommandRecord>, id: string, commandType: CommandType)
    ensures RequestIds(AddCommand(records, id, commandType)) == Newest(Without(RequestIds(records), id) + [id], 200)
  {
    FilteredIds(records, id);
    var kept := Filter(NotRequest(id), records);
    var all := kept + [CommandRecord(id, id, commandType, Sent, None, [], None)];
    assert RequestIds(all) == RequestIds(kept) + [id];
    assert RequestIds(Newest(all, 200)) == Newest(RequestIds(all), 200);
  }

  lemma StepKeepsIds(s: Store, a: Action)
    requires !a.LocalCommandSent?
    ensures RequestIds(Reduce(s, a).commandTimeline) == RequestIds(s.commandTimeline)
  {
    var c := Context(s.targetEpoch, if s.deviceState.Some? then Some(s.deviceState.value.revision) else None);
    TimelineOf(s, c, a);
  }

  /** After any actions the timeline has the last 200 commands sent, in the order in which they were sent last. */
  lemma {:induction false} TimelineIsWhatWasSent(actions: seq<Action>)
    ensures RequestIds(ReduceAll(INITIAL_STORE, actions).commandTimeline) == SentIds(actions)
  {
    if actions != [] {
      var n := |actions| - 1;
      assert actions == actions[..n] + [actions[n]];
      TimelineIsWhatWasSent(actions[..n]);
      ReduceLast(INITIAL_STORE, actions[..n], actions[n]);
      var s := ReduceAll(INITIAL_STORE, actions[..n]);
      if actions[n].LocalCommandSent? {
        AddedIds(s.commandTimeline, actions[n].id, actions[n].commandType);
      } else {
        StepKeepsIds(s, actions[n]);
      }
    }
  }

  // ---- errors and events ----------------------------------------------------------------------------

  function Record(error: ConsoleError, requestId: Option<string>, meta: Metadata): ErrorRecord {
    ErrorRecord(meta.errorId, meta.receivedAt, error, if requestId == Some("") then None else requestId)
  }

  /** What an error of the device says, with what it leaves unsaid. */
  function Complaint(d: Details): ConsoleError {
    ConsoleError(if d.code.None? then "device_error" else d.code.value,
                 if d.message.None? then "device command failed" else d.message.value,
                 d.recoverable != Some(false))
  }

  /** A state of the console's epoch that leaves a revision out. */
  predicate LeavesGap(c: Context, routed: RoutedEvent) {
    && routed.event.kind.StateChanged? && routed.epoch == c.epoch && c.revision.Some?
    && routed.event.kind.state.revision >= 0 && routed.event.kind.state.revision > c.revision.value + 1
  }

  /** An event that the list of events shows: of the console's epoch, and a state only if it is the next. */
  predicate Listed(c: Context, routed: RoutedEvent) {
    && routed.epoch == c.epoch
    && (routed.event.kind.StateChanged? ==> IsNext(c, routed.epoch, routed.event.kind.state.revision))
  }

  /** The error that an action reports. */
  function Reports(c: Context, a: Action): Option<ErrorRecord> {
    match a
    case ProtocolError(error, requestId, meta) => Some(Record(error, requestId, meta))
    case LocalSendFailed(error, requestId, meta) => Some(Record(error, requestId, meta))
    case Incoming(Problem(error, requestId), meta) => Some(Record(error, requestId, meta))
    case Incoming(Routed(routed), meta) =>
      if LeavesGap(c, routed) then Some(Record(ConsoleError("revision_gap", REVISION_GAP.message, true), None, meta))
      else if !Listed(c, routed) then None
      else if routed.event.kind.DeviceError? then
        Some(Record(Complaint(routed.event.details), routed.event.correlationId, meta))
      else if routed.error.None? then None
      else
        Some(Record(routed.error.value,
                    if routed.event.kind.StateChanged? then None else routed.event.correlationId, meta))
    case _ => None
  }

  /** A greeting, a state that is taken and a change of control make the last error go away. */
  predicate Clears(c: Context, a: Action) {
    match a
    case Incoming(Hello(_, _, _, _, _), _) => true
    case Incoming(Control(_), _) => true
    case Incoming(FullState(_, epoch, state), _) => IsAhead(c, epoch, state.revision)
    case Incoming(Routed(routed), _) => routed.event.kind.StateChanged? && Listed(c, routed)
    case _ => false
  }

  function ReportedBy(actions: seq<Action>): seq<ErrorRecord> {
    if actions == [] then []
    else
      var before := actions[..|actions| - 1];
      var error := Reports(ContextOf(before), actions[|actions| - 1]);
      ReportedBy(before) + if error.Some? then [error.value] else []
  }

  function LastReport(actions: seq<Action>): Option<ErrorRecord> {
    if actions == [] then None
    else
      var before := actions[..|actions| - 1];
      var c, a := ContextOf(before), actions[|actions| - 1];
      if Reports(c, a).Some? then Reports(c, a) else if Clears(c, a) then None else LastReport(before)
  }

  function ListedBy(actions: seq<Action>): seq<RoutedEvent> {
    if actions == [] then []
    else
      var before := actions[..|actions| - 1];
      var a := actions[|actions| - 1];
      var listed := a.Incoming? && a.message.Routed? && Listed(ContextOf(before), a.message.routed);
      ListedBy(before) + if listed then [a.message.routed] else []
  }

  lemma NewestMore<T>(all: seq<T>, x: T, n: nat)
    requires n > 0
    ensures Newest(Newest(all, n) + [x], n) == Newest(all + [x], n)
  {
  }

  lemma StepReports(s: Store, c: Context, a: Action)
    requires InContext(s, c)
    ensures var r := Reduce(s, a);
      && r.errors == (if Reports(c, a).Some? then Newest(s.errors + [Reports(c, a).value], 200) else s.errors)
      && r.lastError == (if Reports(c, a).Some? then Reports(c, a) else if Clears(c, a) then None else s.lastError)
  {
  }

  lemma StepLists(s: Store, c: Context, a: Action)
    requires InContext(s, c)
    ensures Reduce(s, a).events ==
      if a.Incoming? && a.message.Routed? && Listed(c, a.message.routed) then Newest(s.events + [a.message.routed], 200)
      else s.events
  {
  }

  /**
   After any actions the errors shown are the newest 200 that were reported, the
   events the newest 200 that count, and the last error is the one reported last
   unless something has made it go away since.
   */
  lemma {:induction false} ErrorsAndEventsAreTheNewest(actions: seq<Action>)
    ensures var s := ReduceAll(INITIAL_STORE, actions);
      && s.errors == Newest(ReportedBy(actions), 200) && s.events == Newest(ListedBy(actions), 200)
      && s.lastError == LastReport(actions)
  {
    if actions != [] {
      var n := |actions| - 1;
      var before, a := actions[..n], actions[n];
      assert actions == before + [a];
      ErrorsAndEventsAreTheNewest(before);
      ReducedInContext(before);
      ReduceLast(INITIAL_STORE, before, a);
      var s, c := ReduceAll(INITIAL_STORE, before), ContextOf(before);
      StepReports(s, c, a);
      StepLists(s, c, a);
      if Reports(c, a).Some? {
        NewestMore(ReportedBy(before), Reports(c, a).value, 200);
      }
      if a.Incoming? && a.message.Routed? {
        NewestMore(ListedBy(before), a.message.routed, 200);
      }
    }
  }

  // ---- the rest of the picture --------------------------------------------------------------------

  /** The action brings a state of the device that is shown from now on, and says which target it is of. */
  function Takes(c: Context, a: Action): Option<DeviceState> {
    match a
    case Incoming(Hello(_, _, _, _, state), _) => Some(state)
    case Incoming(FullState(_, epoch, state), _) => if IsAhead(c, epoch, state.revision) then Some(state) else None
    case Incoming(Routed(routed), _) =>
      if routed.event.kind.StateChanged? && Listed(c, routed) then Some(routed.event.kind.state) else None
    case _ => None
  }

  function TargetIn(c: Context, a: Action): Option<Option<string>> {
    match a
    case Incoming(Hello(_, _, target, _, _), _) => Some(target)
    case Incoming(FullState(target, epoch, state), _) =>
      if IsAhead(c, epoch, state.revision) then Some(target) else None
    case _ => None
  }

  /** The connection: the last thing that happened to it. */
  function ConnectionOf(actions: seq<Action>): ConnectionStatus {
    if actions == [] then Offline
    else
      var before, a := actions[..|actions| - 1], actions[|actions| - 1];
      var c := ContextOf(before);
      if a.BeginConnecting? then Connecting
      else if a.Closed? then (if c.revision.None? then Offline else Stale)
      else if Takes(c, a).Some? then Online
      else if a.Incoming? && a.message.Routed? && LeavesGap(c, a.message.routed) then Stale
      else ConnectionOf(before)
  }

  /** The state shown: the one taken last. */
  function StateOf(actions: seq<Action>): Option<DeviceState> {
    if actions == [] then None
    else
      var before, a := actions[..|actions| - 1], actions[|actions| - 1];
      var taken := Takes(ContextOf(before), a);
      if taken.Some? then taken else StateOf(before)
  }

  function SessionOf(actions: seq<Action>): Option<string> {
    if actions == [] then None
    else
      match actions[|actions| - 1]
      case Incoming(Hello(sessionId, _, _, _, _), _) => Some(sessionId)
      case _ => SessionOf(actions[..|actions| - 1])
  }

  /** The active target: the one that came with the last full state. */
  function TargetOf(actions: seq<Action>): Option<string> {
    if actions == [] then None
    else
      var before, a := actions[..|actions| - 1], actions[|actions| - 1];
      var target := TargetIn(ContextOf(before), a);
      if target.Some? then target.value else TargetOf(before)
  }

  /** The targets loaded last, of which exactly the active one is marked once a full state has come. */
  predicate TargetsShown(actions: seq<Action>, targets: seq<TargetSummary>)
    decreases |actions|
  {
    if actions == [] then targets == []
    else
      var before, a := actions[..|actions| - 1], actions[|actions| - 1];
      var target := TargetIn(ContextOf(before), a);
      if a.TargetsLoaded? then targets == a.targets
      else if target.Some? then
        && (forall t :: t in targets ==> (t.active <==> target.value == Some(t.id)))
        && TargetsNamed(before, Named(targets))
      else TargetsShown(before, targets)
  }

  /** The targets apart from their marks. */
  function Named(targets: seq<TargetSummary>): (named: seq<(string, string)>)
    ensures |named| == |targets|
    ensures forall i :: 0 <= i < |named| ==> named[i] == (targets[i].id, targets[i].description)
  {
    seq(|targets|, i requires 0 <= i < |targets| => (targets[i].id, targets[i].description))
  }

  predicate TargetsNamed(actions: seq<Action>, named: seq<(string, string)>)
    decreases |actions|
  {
    if actions == [] then named == []
    else if actions[|actions| - 1].TargetsLoaded? then named == Named(actions[|actions| - 1].targets)
    else TargetsNamed(actions[..|actions| - 1], named)
  }

  lemma HeaderStep(s: Store, c: Context, a: Action)
    requires InContext(s, c)
    ensures var r := Reduce(s, a);
      && r.connection == (if a.BeginConnecting? then Connecting
                          else if a.Closed? then (if c.revision.None? then Offline else Stale)
                          else if Takes(c, a).Some? then Online
                          else if a.Incoming? && a.message.Routed? && LeavesGap(c, a.message.routed) then Stale
                          else s.connection)
      && r.deviceState == (if Takes(c, a).Some? then Takes(c, a) else s.deviceState)
  {
  }

  lemma TargetStep(s: Store, c: Context, a: Action)
    requires InContext(s, c)
    ensures var r := Reduce(s, a);
      && r.activeTargetId == (if TargetIn(c, a).Some? then TargetIn(c, a).value else s.activeTargetId)
      && r.sessionId == (if a.Incoming? && a.message.Hello? then Some(a.message.sessionId) else s.sessionId)
      && (a.TargetsLoaded? ==> r.targets == a.targets)
      && (!a.TargetsLoaded? ==> Named(r.targets) == Named(s.targets))
      && (TargetIn(c, a).Some? ==> forall t :: t in r.targets ==> (t.active <==> TargetIn(c, a).value == Some(t.id)))
      && (TargetIn(c, a).None? && !a.TargetsLoaded? ==> r.targets == s.targets)
  {
    if TargetIn(c, a).Some? {
      MarkedTargets(s.targets, TargetIn(c, a).value);
    }
  }

  lemma MarkedTargets(targets: seq<TargetSummary>, target: Option<string>)
    ensures Named(MapSeq(MarkActive(target), targets)) == Named(targets)
    ensures forall t :: t in MapSeq(MarkActive(target), targets) ==> (t.active <==> target == Some(t.id))
  {
  }

  /** After any actions the connection and the state shown are those that came last. */
  lemma {:induction false} ConnectionIsTheLast(actions: seq<Action>)
    ensures var s := ReduceAll(INITIAL_STORE, actions);
      s.connection == ConnectionOf(actions) && s.deviceState == StateOf(actions)
  {
    if actions != [] {
      var n := |actions| - 1;
      assert actions == actions[..n] + [actions[n]];
      ConnectionIsTheLast(actions[..n]);
      ReducedInContext(actions[..n]);
      ReduceLast(INITIAL_STORE, actions[..n], actions[n]);
      HeaderStep(ReduceAll(INITIAL_STORE, actions[..n]), ContextOf(actions[..n]), actions[n]);
    }
  }

  /** After any actions session, active target and the list of targets with its mark are those that came last. */
  lemma {:induction false} TargetsAreTheLast(actions: seq<Action>)
    ensures var s := ReduceAll(INITIAL_STORE, actions);
      && s.sessionId == SessionOf(actions) && s.activeTargetId == TargetOf(actions)
      && TargetsShown(actions, s.targets) && TargetsNamed(actions, Named(s.targets))
  {
    if actions != [] {
      var n := |actions| - 1;
      assert actions == actions[..n] + [actions[n]];
      TargetsAreTheLast(actions[..n]);
      ReducedInContext(actions[..n]);
      ReduceLast(INITIAL_STORE, actions[..n], actions[n]);
      TargetStep(ReduceAll(INITIAL_STORE, actions[..n]), ContextOf(actions[..n]), actions[n]);
    }
  }
}
