/** The browser's picture of the agent: a reducer that assembles streamed responses. */
module AgentStore {
  import opened Common

  const AGENT_MESSAGE_LIMIT := 100
  const AGENT_TOOL_PROGRESS_LIMIT := 100

  datatype Connection = Connecting | Online | Offline
  datatype DraftStatus = Streaming | Interrupted
  datatype Draft = Draft(
    requestId: string, responseId: string, text: string, status: DraftStatus, startedAt: string, error: Option<string>)

  datatype Role = User | Agent
  datatype ChatMessage = ChatMessage(id: string, role: Role, text: string, timestamp: string)

  datatype ToolStatus = Running | ToolCompleted | ToolFailed
  datatype ToolProgress = ToolProgress(
    requestId: string, responseId: string, toolCallId: string, toolName: string, status: ToolStatus,
    correlationId: Option<string>, disposition: Option<string>, error: Option<string>)

  datatype Model = Model(name: Option<string>, status: string)
  datatype ServerState = ServerState(phase: string, deviceConnected: bool, queueSize: int, queueCapacity: int,
                                     model: Model)

  datatype Store = Store(
    connection: Connection, sessionId: Option<string>, server: ServerState,
    messages: seq<ChatMessage>, drafts: seq<Draft>, tools: seq<ToolProgress>, error: Option<string>)

  datatype Action =
    | BeginConnecting
    | Closed
    | LocalError(text: string)
    | Hello(sessionId: string, server: ServerState, history: seq<ChatMessage>)
    | NewState(server: ServerState)
    | Message(message: ChatMessage)
    | AgentError(text: string)
    | RequestAccepted
    | Started(requestId: string, id: string, receivedAt: Option<string>)
    | Delta(requestId: string, id: string, text: string, receivedAt: Option<string>)
    | Completed(id: string, receivedAt: Option<string>)
    | Failed(requestId: string, id: string, text: string, receivedAt: Option<string>)
    | Tool(progress: ToolProgress)

  predicate HasMessage(messages: seq<ChatMessage>, id: string) {
    exists i :: 0 <= i < |messages| && messages[i].id == id
  }

  function UniqueMessages(messages: seq<ChatMessage>): seq<ChatMessage> {
    if messages == [] then []
    else
      var front, last := messages[..|messages| - 1], messages[|messages| - 1];
      UniqueMessages(front) + if HasMessage(front, last.id) then [] else [last]
  }

  function AppendMessage(messages: seq<ChatMessage>, message: ChatMessage): seq<ChatMessage> {
    if HasMessage(messages, message.id) then messages else Newest(messages + [message], AGENT_MESSAGE_LIMIT)
  }

  function FindDraft(drafts: seq<Draft>, id: string): Option<Draft> {
    if drafts == [] then None
    else if drafts[0].responseId == id then Some(drafts[0])
    else FindDraft(drafts[1..], id)
  }

  function ReplaceDraft(drafts: seq<Draft>, next: Draft): seq<Draft> {
    if drafts == [] then []
    else if drafts[0].responseId == next.responseId then [next] + drafts[1..]
    else [drafts[0]] + ReplaceDraft(drafts[1..], next)
  }

  function UpsertDraft(drafts: seq<Draft>, next: Draft): seq<Draft> {
    if FindDraft(drafts, next.responseId).None? then Newest(drafts + [next], AGENT_MESSAGE_LIMIT)
    else ReplaceDraft(drafts, next)
  }

  function WithoutDraft(drafts: seq<Draft>, id: string): seq<Draft> {
    if drafts == [] then []
    else (if drafts[0].responseId == id then [] else [drafts[0]]) + WithoutDraft(drafts[1..], id)
  }

  function ReplaceTool(tools: seq<ToolProgress>, next: ToolProgress): seq<ToolProgress> {
    if tools == [] then []
    else if tools[0].toolCallId == next.toolCallId then [next] + tools[1..]
    else [tools[0]] + ReplaceTool(tools[1..], next)
  }

  function UpsertTool(tools: seq<ToolProgress>, next: ToolProgress): seq<ToolProgress> {
    if exists i :: 0 <= i < |tools| && tools[i].toolCallId == next.toolCallId then ReplaceTool(tools, next)
    else Newest(tools + [next], AGENT_TOOL_PROGRESS_LIMIT)
  }

  function Or(first: Option<string>, second: string): string {
    if first.Some? then first.value else second
  }

  function NewDraft(requestId: string, id: string, receivedAt: Option<string>): Draft {
    Draft(requestId, id, "", Streaming, Or(receivedAt, ""), None)
  }

  function DraftFor(drafts: seq<Draft>, requestId: string, id: string, receivedAt: Option<string>): Draft {
    var existing := FindDraft(drafts, id);
    if existing.Some? then existing.value else NewDraft(requestId, id, receivedAt)
  }

  function Reduce(s: Store, a: Action): Store {
    match a
    case BeginConnecting => s.(connection := Connecting, error := None)
    case Closed =>
      s.(connection := Offline, sessionId := None,
         server := s.server.(deviceConnected := false, model := Model(None, "disabled")))
    case LocalError(text) => s.(error := Some(text))
    case Hello(sessionId, server, history) =>
      Store(Online, Some(sessionId), server, Newest(UniqueMessages(history), AGENT_MESSAGE_LIMIT), [], [], None)
    case NewState(server) => s.(server := server)
    case Message(message) =>
      s.(messages := AppendMessage(s.messages, message), drafts := WithoutDraft(s.drafts, message.id))
    case AgentError(text) => s.(error := Some(text))
    case RequestAccepted => s.(error := None)
    case Started(requestId, id, receivedAt) =>
      if HasMessage(s.messages, id) || FindDraft(s.drafts, id).Some? then s
      else s.(drafts := Newest(s.drafts + [NewDraft(requestId, id, receivedAt)], AGENT_MESSAGE_LIMIT))
    case Delta(requestId, id, text, receivedAt) =>
      var draft := DraftFor(s.drafts, requestId, id, receivedAt);
      if HasMessage(s.messages, id) || !draft.status.Streaming? then s
      else s.(drafts := UpsertDraft(s.drafts, draft.(text := draft.text + text)))
    case Completed(id, receivedAt) =>
      var draft := FindDraft(s.drafts, id);
      if draft.None? then s
      else
        var message := ChatMessage(id, Agent, draft.value.text, Or(receivedAt, draft.value.startedAt));
        s.(messages := if draft.value.text == "" then s.messages else AppendMessage(s.messages, message),
           drafts := WithoutDraft(s.drafts, id))
    case Failed(requestId, id, text, receivedAt) =>
      var draft := DraftFor(s.drafts, requestId, id, receivedAt);
      s.(drafts := UpsertDraft(s.drafts, draft.(status := Interrupted, error := Some(text))), error := Some(text))
    case Tool(progress) => s.(tools := UpsertTool(s.tools, progress))
  }

  function ReduceAll(s: Store, actions: seq<Action>): Store {
    if actions == [] then s
    else Reduce(ReduceAll(s, actions[..|actions| - 1]), actions[|actions| - 1])
  }

  // ---- well-formed streams --------------------------------------------------------------------

  /** The responses being streamed, in the order they started, and every id used so far. */
  datatype Streams = Streams(open: seq<string>, used: set<string>)

  function Close(open: seq<string>, id: string): seq<string> {
    if open == [] then []
    else (if open[0] == id then [] else [open[0]]) + Close(open[1..], id)
  }

  /** Each response starts once under a new id, then streams, then completes; at most 100 stream at a time. */
  function Follow(w: Streams, a: Action): Option<Streams> {
    match a
    case Started(_, id, _) =>
      if id in w.used || |w.open| >= AGENT_MESSAGE_LIMIT then None else Some(Streams(w.open + [id], w.used + {id}))
    case Delta(_, id, _, _) => if id in w.open then Some(w) else None
    case Completed(id, _) => if id in w.open then Some(w.(open := Close(w.open, id))) else None
    case Message(message) => if message.id in w.used then None else Some(w.(used := w.used + {message.id}))
    case Hello(_, _, _) => None
    case Failed(_, _, _, _) => None
    case _ => Some(w)
  }

  function FollowAll(w: Streams, actions: seq<Action>): Option<Streams> {
    if actions == [] then Some(w)
    else
      var before := FollowAll(w, actions[..|actions| - 1]);
      if before.None? then None else Follow(before.value, actions[|actions| - 1])
  }

  // ---- what the actions say, without any drafts --------------------------------------------------

  datatype Line = Line(id: string, text: string)

  function Lines(messages: seq<ChatMessage>): (lines: seq<Line>)
    ensures |lines| == |messages|
    ensures forall i :: 0 <= i < |messages| ==> lines[i] == Line(messages[i].id, messages[i].text)
  {
    seq(|messages|, i requires 0 <= i < |messages| => Line(messages[i].id, messages[i].text))
  }

  /** The concatenation of a response's own deltas. */
  function TextOf(actions: seq<Action>, id: string): string {
    if actions == [] then ""
    else
      var last := actions[|actions| - 1];
      TextOf(actions[..|actions| - 1], id) + if last.Delta? && last.id == id then last.text else ""
  }

  /** One line for each response that said something, in the order of completion, among the plain messages. */
  function Spoken(actions: seq<Action>): seq<Line> {
    if actions == [] then []
    else
      var front, last := actions[..|actions| - 1], actions[|actions| - 1];
      Spoken(front) +
      if last.Completed? && TextOf(front, last.id) != "" then [Line(last.id, TextOf(front, last.id))]
      else if last.Message? then [Line(last.message.id, last.message.text)]
      else []
  }

  // ---- the invariant -------------------------------------------------------------------------------

  ghost predicate DraftsOk(drafts: seq<Draft>, open: seq<string>, actions: seq<Action>) {
    && |drafts| == |open| <= AGENT_MESSAGE_LIMIT && NoDuplicates(open)
    && forall i :: 0 <= i < |open| ==>
         drafts[i].responseId == open[i] && drafts[i].status.Streaming? && drafts[i].text == TextOf(actions, open[i])
  }

  /** Ids of messages are used ones, and none is still streaming. */
  ghost predicate IdsOk(messages: seq<ChatMessage>, w: Streams) {
    && (forall i :: 0 <= i < |messages| ==> messages[i].id in w.used && messages[i].id !in w.open)
    && (forall id :: id in w.open ==> id in w.used)
  }

  ghost predicate Inv(start: Store, s: Store, w: Streams, actions: seq<Action>) {
    && DraftsOk(s.drafts, w.open, actions)
    && IdsOk(s.messages, w)
    && Lines(s.messages) == Newest(Lines(start.messages) + Spoken(actions), AGENT_MESSAGE_LIMIT)
    && (forall id :: id !in w.used ==> TextOf(actions, id) == "")
  }

  lemma {:induction false} FindOpen(drafts: seq<Draft>, open: seq<string>, actions: seq<Action>, id: string)
    requires DraftsOk(drafts, open, actions)
    ensures FindDraft(drafts, id).Some? <==> id in open
    ensures FindDraft(drafts, id).Some? ==>
      var d := FindDraft(drafts, id).value;
      d.responseId == id && d.status.Streaming? && d.text == TextOf(actions, id)
  {
    if open != [] {
      assert open == [open[0]] + open[1..];
      if open[0] != id {
        FindOpen(drafts[1..], open[1..], actions, id);
      }
    }
  }

  lemma {:induction false} CloseMembers(open: seq<string>, id: string)
    ensures |Close(open, id)| <= |open|
    ensures forall x :: x in Close(open, id) <==> x in open && x != id
  {
    if open != [] {
      assert open == [open[0]] + open[1..];
      CloseMembers(open[1..], id);
    }
  }

  lemma {:induction false} CloseOpen(open: seq<string>, id: string)
    requires NoDuplicates(open)
    ensures NoDuplicates(Close(open, id)) && |Close(open, id)| <= |open|
    ensures forall x :: x in Close(open, id) <==> x in open && x != id
  {
    CloseMembers(open, id);
    if open != [] {
      CloseOpen(open[1..], id);
      if open[0] != id {
        PrependDistinct(open[0], Close(open[1..], id));
      }
    }
  }

  lemma {:induction false} CloseAbsent(open: seq<string>, id: string)
    requires id !in open
    ensures Close(open, id) == open
  {
    if open != [] {
      assert open == [open[0]] + open[1..];
      CloseAbsent(open[1..], id);
    }
  }

  lemma {:induction false} WithoutOk(drafts: seq<Draft>, open: seq<string>, actions: seq<Action>, id: string)
    requires DraftsOk(drafts, open, actions)
    ensures DraftsOk(WithoutDraft(drafts, id), Close(open, id), actions)
  {
    CloseOpen(open, id);
    if open != [] {
      assert open == [open[0]] + open[1..];
      WithoutOk(drafts[1..], open[1..], actions, id);
    }
  }

  lemma {:induction false} ReplaceOk(drafts: seq<Draft>, open: seq<string>, next: Draft)
    requires |drafts| == |open| && NoDuplicates(open)
    requires forall i :: 0 <= i < |open| ==> drafts[i].responseId == open[i]
    ensures |ReplaceDraft(drafts, next)| == |open|
    ensures forall i :: 0 <= i < |open| ==>
      ReplaceDraft(drafts, next)[i] == if open[i] == next.responseId then next else drafts[i]
  {
    if open != [] {
      ReplaceOk(drafts[1..], open[1..], next);
      var r := ReplaceDraft(drafts, next);
      if open[0] == next.responseId {
        assert forall i :: 1 <= i < |open| ==> open[i] != open[0];
      } else {
        assert r == [drafts[0]] + ReplaceDraft(drafts[1..], next);
      }
    }
  }

  lemma TextMore(actions: seq<Action>, a: Action, id: string)
    ensures TextOf(actions + [a], id) == TextOf(actions, id) + if a.Delta? && a.id == id then a.text else ""
  {
    assert (actions + [a])[..|actions|] == actions;
  }

  lemma SpokenMore(actions: seq<Action>, a: Action)
    ensures Spoken(actions + [a]) == Spoken(actions) +
      if a.Completed? && TextOf(actions, a.id) != "" then [Line(a.id, TextOf(actions, a.id))]
      else if a.Message? then [Line(a.message.id, a.message.text)]
      else []
  {
    assert (actions + [a])[..|actions|] == actions;
  }

  /** Actions other than deltas leave every text as it is. */
  lemma SameTexts(drafts: seq<Draft>, open: seq<string>, actions: seq<Action>, a: Action)
    requires DraftsOk(drafts, open, actions) && !a.Delta?
    ensures DraftsOk(drafts, open, actions + [a])
    ensures forall id :: TextOf(actions + [a], id) == TextOf(actions, id)
  {
    forall id
      ensures TextOf(actions + [a], id) == TextOf(actions, id)
    {
      TextMore(actions, a, id);
    }
  }

  lemma NewestPlusOne(before: seq<Line>, line: Line, n: nat)
    requires n > 0
    ensures Newest(Newest(before, n) + [line], n) == Newest(before + [line], n)
  {
  }

  lemma AppendLine(start: Store, messages: seq<ChatMessage>, actions: seq<Action>, message: ChatMessage)
    requires Lines(messages) == Newest(Lines(start.messages) + Spoken(actions), AGENT_MESSAGE_LIMIT)
    requires !HasMessage(messages, message.id)
    ensures Lines(AppendMessage(messages, message))
         == Newest(Lines(start.messages) + (Spoken(actions) + [Line(message.id, message.text)]), AGENT_MESSAGE_LIMIT)
  {
    var before := Lines(start.messages) + Spoken(actions);
    NewestPlusOne(before, Line(message.id, message.text), AGENT_MESSAGE_LIMIT);
    assert before + [Line(message.id, message.text)]
        == Lines(start.messages) + (Spoken(actions) + [Line(message.id, message.text)]);
    assert Lines(messages + [message]) == Lines(messages) + [Line(message.id, message.text)];
    LinesOfNewest(messages + [message], AGENT_MESSAGE_LIMIT);
  }

  lemma LinesOfNewest(messages: seq<ChatMessage>, n: nat)
    ensures Lines(Newest(messages, n)) == Newest(Lines(messages), n)
  {
  }

  /** What each kind of action does to the drafts. */
  lemma StartedKeepsDrafts(s: Store, w: Streams, actions: seq<Action>, a: Action)
    requires a.Started? && DraftsOk(s.drafts, w.open, actions) && a.id !in w.open && |w.open| < AGENT_MESSAGE_LIMIT
    requires TextOf(actions, a.id) == "" && !HasMessage(s.messages, a.id)
    ensures DraftsOk(Reduce(s, a).drafts, w.open + [a.id], actions + [a]) && Reduce(s, a).messages == s.messages
  {
    FindOpen(s.drafts, w.open, actions, a.id);
    SameTexts(s.drafts, w.open, actions, a);
    assert Reduce(s, a).drafts == s.drafts + [NewDraft(a.requestId, a.id, a.receivedAt)];
  }

  lemma DeltaKeepsDrafts(s: Store, w: Streams, actions: seq<Action>, a: Action)
    requires a.Delta? && DraftsOk(s.drafts, w.open, actions) && a.id in w.open && !HasMessage(s.messages, a.id)
    ensures DraftsOk(Reduce(s, a).drafts, w.open, actions + [a]) && Reduce(s, a).messages == s.messages
  {
    FindOpen(s.drafts, w.open, actions, a.id);
    var draft := FindDraft(s.drafts, a.id).value;
    var next := draft.(text := draft.text + a.text);
    ReplaceOk(s.drafts, w.open, next);
    assert Reduce(s, a).drafts == ReplaceDraft(s.drafts, next);
    forall i | 0 <= i < |w.open|
      ensures TextOf(actions + [a], w.open[i]) == TextOf(actions, w.open[i]) + if a.id == w.open[i] then a.text else ""
    {
      TextMore(actions, a, w.open[i]);
    }
  }

  lemma NotYetSaid(messages: seq<ChatMessage>, w: Streams, id: string)
    requires IdsOk(messages, w) && (id in w.open || id !in w.used)
    ensures !HasMessage(messages, id)
  {
  }

  lemma UnusedTexts(w: Streams, w': Streams, actions: seq<Action>, a: Action)
    requires forall id :: id !in w.used ==> TextOf(actions, id) == ""
    requires w.used <= w'.used && (a.Delta? ==> a.id in w.used)
    ensures forall id :: id !in w'.used ==> TextOf(actions + [a], id) == ""
  {
    forall id | id !in w'.used
      ensures TextOf(actions + [a], id) == ""
    {
      TextMore(actions, a, id);
    }
  }

  lemma AppendedIds(messages: seq<ChatMessage>, message: ChatMessage, w: Streams)
    requires IdsOk(messages, w) && message.id in w.used && message.id !in w.open
    ensures IdsOk(AppendMessage(messages, message), w)
  {
  }

  lemma CompletedKeepsInv(start: Store, s: Store, w: Streams, actions: seq<Action>, a: Action)
    requires Inv(start, s, w, actions) && a.Completed? && a.id in w.open
    ensures Inv(start, Reduce(s, a), w.(open := Close(w.open, a.id)), actions + [a])
  {
    var w', r := w.(open := Close(w.open, a.id)), Reduce(s, a);
    FindOpen(s.drafts, w.open, actions, a.id);
    WithoutOk(s.drafts, w.open, actions, a.id);
    SameTexts(WithoutDraft(s.drafts, a.id), w'.open, actions, a);
    CloseOpen(w.open, a.id);
    SpokenMore(actions, a);
    NotYetSaid(s.messages, w, a.id);
    assert IdsOk(s.messages, w');
    var draft := FindDraft(s.drafts, a.id).value;
    if draft.text != "" {
      var message := ChatMessage(a.id, Agent, draft.text, Or(a.receivedAt, draft.startedAt));
      AppendLine(start, s.messages, actions, message);
      AppendedIds(s.messages, message, w');
    } else {
      assert Spoken(actions + [a]) == Spoken(actions);
    }
    UnusedTexts(w, w', actions, a);
  }

  lemma MessageKeepsInv(start: Store, s: Store, w: Streams, actions: seq<Action>, a: Action)
    requires Inv(start, s, w, actions) && a.Message? && a.message.id !in w.used
    ensures Inv(start, Reduce(s, a), w.(used := w.used + {a.message.id}), actions + [a])
  {
    var w' := w.(used := w.used + {a.message.id});
    assert a.message.id !in w.open;
    WithoutOk(s.drafts, w.open, actions, a.message.id);
    CloseAbsent(w.open, a.message.id);
    SameTexts(WithoutDraft(s.drafts, a.message.id), w.open, actions, a);
    SpokenMore(actions, a);
    NotYetSaid(s.messages, w, a.message.id);
    AppendLine(start, s.messages, actions, a.message);
    AppendedIds(s.messages, a.message, w');
    UnusedTexts(w, w', actions, a);
  }

  /** Nothing is streamed or said. */
  lemma OtherKeepsInv(start: Store, s: Store, w: Streams, actions: seq<Action>, a: Action)
    requires Inv(start, s, w, actions) && Follow(w, a) == Some(w)
    requires !a.Started? && !a.Delta? && !a.Completed? && !a.Message?
    ensures Inv(start, Reduce(s, a), w, actions + [a])
  {
    SpokenMore(actions, a);
    assert Spoken(actions + [a]) == Spoken(actions);
    SameTexts(s.drafts, w.open, actions, a);
    UnusedTexts(w, w, actions, a);
  }

  lemma StartedKeepsInv(start: Store, s: Store, w: Streams, actions: seq<Action>, a: Action)
    requires Inv(start, s, w, actions) && a.Started? && a.id !in w.used && |w.open| < AGENT_MESSAGE_LIMIT
    ensures Inv(start, Reduce(s, a), Streams(w.open + [a.id], w.used + {a.id}), actions + [a])
  {
    SpokenMore(actions, a);
    assert Spoken(actions + [a]) == Spoken(actions);
    NotYetSaid(s.messages, w, a.id);
    StartedKeepsDrafts(s, w, actions, a);
    UnusedTexts(w, Streams(w.open + [a.id], w.used + {a.id}), actions, a);
  }

  lemma DeltaKeepsInv(start: Store, s: Store, w: Streams, actions: seq<Action>, a: Action)
    requires Inv(start, s, w, actions) && a.Delta? && a.id in w.open
    ensures Inv(start, Reduce(s, a), w, actions + [a])
  {
    SpokenMore(actions, a);
    assert Spoken(actions + [a]) == Spoken(actions);
    NotYetSaid(s.messages, w, a.id);
    DeltaKeepsDrafts(s, w, actions, a);
    UnusedTexts(w, w, actions, a);
  }

  lemma StepKeepsInv(start: Store, s: Store, w: Streams, actions: seq<Action>, a: Action)
    requires Inv(start, s, w, actions) && Follow(w, a).Some?
    ensures Inv(start, Reduce(s, a), Follow(w, a).value, actions + [a])
  {
    match a
    case Started(_, _, _) => StartedKeepsInv(start, s, w, actions, a);
    case Delta(_, _, _, _) => DeltaKeepsInv(start, s, w, actions, a);
    case Completed(_, _) => CompletedKeepsInv(start, s, w, actions, a);
    case Message(_) => MessageKeepsInv(start, s, w, actions, a);
    case _ => OtherKeepsInv(start, s, w, actions, a);
  }

  lemma {:induction false} RunKeepsInv(start: Store, actions: seq<Action>, w: Streams)
    requires Inv(start, start, w, []) && FollowAll(w, actions).Some?
    ensures Inv(start, ReduceAll(start, actions), FollowAll(w, actions).value, actions)
  {
    if actions != [] {
      var front, last := actions[..|actions| - 1], actions[|actions| - 1];
      RunKeepsInv(start, front, w);
      assert actions == front + [last];
      StepKeepsInv(start, ReduceAll(start, front), FollowAll(w, front).value, front, last);
    }
  }

  ghost predicate Fresh(start: Store) {
    start.drafts == [] && |start.messages| <= AGENT_MESSAGE_LIMIT
  }

  function IdsOf(messages: seq<ChatMessage>): set<string> {
    set i | 0 <= i < |messages| :: messages[i].id
  }

  /**
   Whatever the interleaving of well-formed streams, with plain messages, tool
   reports and state changes in between: once every response has completed there
   is no draft left, and the messages are the newest 100 of the earlier ones
   followed by one line for each response that said something, in the order of
   completion, with exactly its own deltas joined.
   */
  lemma StreamsBecomeMessages(start: Store, actions: seq<Action>)
    requires Fresh(start) && FollowAll(Streams([], IdsOf(start.messages)), actions).Some?
    requires FollowAll(Streams([], IdsOf(start.messages)), actions).value.open == []
    ensures var s := ReduceAll(start, actions);
      && s.drafts == []
      && Lines(s.messages) == Newest(Lines(start.messages) + Spoken(actions), AGENT_MESSAGE_LIMIT)
      && (|start.messages| + |Spoken(actions)| <= AGENT_MESSAGE_LIMIT
        ==> Lines(s.messages) == Lines(start.messages) + Spoken(actions))
  {
    RunKeepsInv(start, actions, Streams([], IdsOf(start.messages)));
  }

  /** While a response streams, its draft holds what it has said so far. */
  lemma DraftsHoldWhatWasSaid(start: Store, actions: seq<Action>, i: nat)
    requires Fresh(start) && FollowAll(Streams([], IdsOf(start.messages)), actions).Some?
    requires i < |FollowAll(Streams([], IdsOf(start.messages)), actions).value.open|
    ensures var s := ReduceAll(start, actions);
      var open := FollowAll(Streams([], IdsOf(start.messages)), actions).value.open;
      i < |s.drafts| && s.drafts[i].responseId == open[i] && s.drafts[i].text == TextOf(actions, open[i])
  {
    RunKeepsInv(start, actions, Streams([], IdsOf(start.messages)));
  }

  /** Why streams are limited: with a hundred of them, one more drops the oldest draft and what it said. */
  lemma OneStreamTooMany(start: Store, s: Store, w: Streams, actions: seq<Action>, a: Action)
    requires Inv(start, s, w, actions) && a.Started? && a.id !in w.used && |w.open| == AGENT_MESSAGE_LIMIT
    ensures Reduce(s, a).drafts == s.drafts[1..] + [NewDraft(a.requestId, a.id, a.receivedAt)]
    ensures FindDraft(Reduce(s, a).drafts, w.open[0]).None?
  {
    FindOpen(s.drafts, w.open, actions, a.id);
    NotYetSaid(s.messages, w, a.id);
    var r := s.drafts[1..] + [NewDraft(a.requestId, a.id, a.receivedAt)];
    assert Reduce(s, a).drafts == r;
    assert w.open[0] in w.open && w.open[0] in w.used;
    NoDraft(r, w.open[0]);
  }

  lemma {:induction false} NoDraft(drafts: seq<Draft>, id: string)
    requires forall i :: 0 <= i < |drafts| ==> drafts[i].responseId != id
    ensures FindDraft(drafts, id).None?
  {
    if drafts != [] {
      NoDraft(drafts[1..], id);
    }
  }

  /** Appending and greeting keep message ids unique. */
  ghost predicate UniqueIds(messages: seq<ChatMessage>) {
    forall i, j :: 0 <= i < j < |messages| ==> messages[i].id != messages[j].id
  }

  lemma {:induction false} UniqueMessagesAre(messages: seq<ChatMessage>)
    ensures UniqueIds(UniqueMessages(messages))
    ensures forall id :: HasMessage(UniqueMessages(messages), id) <==> HasMessage(messages, id)
  {
    if messages != [] {
      var front, last := messages[..|messages| - 1], messages[|messages| - 1];
      UniqueMessagesAre(front);
      assert messages == front + [last] && UniqueMessages(front) + [] == UniqueMessages(front);
      forall id
        ensures HasMessage(UniqueMessages(messages), id) <==> HasMessage(messages, id)
      {
        HasMore(front, last, id);
        HasMore(UniqueMessages(front), last, id);
      }
      assert !HasMessage(front, last.id) ==>
        forall i :: 0 <= i < |UniqueMessages(front)| ==> UniqueMessages(front)[i].id != last.id;
    }
  }

  lemma HasMore(messages: seq<ChatMessage>, message: ChatMessage, id: string)
    ensures HasMessage(messages + [message], id) <==> HasMessage(messages, id) || message.id == id
  {
    var all := messages + [message];
    if HasMessage(messages, id) {
      var i :| 0 <= i < |messages| && messages[i].id == id;
      assert all[i].id == id;
    } else if message.id == id {
      assert all[|messages|].id == id;
    }
  }

  lemma ReduceKeepsUnique(s: Store, a: Action)
    requires UniqueIds(s.messages)
    ensures UniqueIds(Reduce(s, a).messages)
  {
    if a.Hello? {
      UniqueMessagesAre(a.history);
    }
  }
}
