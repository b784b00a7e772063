/** What the browser shows of the agent, told from everything that was ever dispatched. */
module AgentHistory {
  import opened Common
  import opened AgentStore

  // ---- the first of each id --------------------------------------------------------------

  function Others(messages: seq<ChatMessage>, id: string): (others: seq<ChatMessage>)
    ensures |others| <= |messages|
  {
    if messages == [] then []
    else (if messages[0].id == id then [] else [messages[0]]) + Others(messages[1..], id)
  }

  /** Each message but the later ones of the same id. */
  function FirstOnes(messages: seq<ChatMessage>): seq<ChatMessage>
    decreases |messages|
  {
    if messages == [] then [] else [messages[0]] + FirstOnes(Others(messages[1..], messages[0].id))
  }

  lemma {:induction false} OthersMore(messages: seq<ChatMessage>, id: string, last: ChatMessage)
    ensures Others(messages + [last], id) == Others(messages, id) + if last.id == id then [] else [last]
    ensures id != last.id ==> (HasMessage(Others(messages, id), last.id) <==> HasMessage(messages, last.id))
  {
    if messages == [] {
      assert messages + [last] == [last];
    } else {
      assert (messages + [last])[1..] == messages[1..] + [last];
      OthersMore(messages[1..], id, last);
      HasFirst(messages, last.id);
      if messages[0].id != id {
        HasFirst(Others(messages, id), last.id);
        assert Others(messages, id)[1..] == Others(messages[1..], id);
      } else {
        assert Others(messages, id) == Others(messages[1..], id);
      }
    }
  }

  lemma HasFirst(messages: seq<ChatMessage>, id: string)
    requires messages != []
    ensures HasMessage(messages, id) <==> messages[0].id == id || HasMessage(messages[1..], id)
  {
    if HasMessage(messages, id) && messages[0].id != id {
      var i :| 0 <= i < |messages| && messages[i].id == id;
      assert messages[1..][i - 1].id == id;
    }
    if HasMessage(messages[1..], id) {
      var i :| 0 <= i < |messages| - 1 && messages[1..][i].id == id;
      assert messages[i + 1].id == id;
    }
  }

  lemma {:induction false} FirstOnesMore(messages: seq<ChatMessage>, last: ChatMessage)
    ensures FirstOnes(messages + [last]) == FirstOnes(messages) + if HasMessage(messages, last.id) then [] else [last]
    decreases |messages|
  {
    if messages == [] {
      assert messages + [last] == [last] && [last][1..] == [];
    } else {
      var first, rest := messages[0], messages[1..];
      assert (messages + [last])[1..] == rest + [last];
      OthersMore(rest, first.id, last);
      HasFirst(messages, last.id);
      if last.id != first.id {
        FirstOnesMore(Others(rest, first.id), last);
      } else {
        assert Others(rest + [last], first.id) == Others(rest, first.id);
      }
    }
  }

  lemma {:induction false} UniqueAreFirstOnes(messages: seq<ChatMessage>)
    ensures UniqueMessages(messages) == FirstOnes(messages)
  {
    if messages != [] {
      var front, last := messages[..|messages| - 1], messages[|messages| - 1];
      assert messages == front + [last];
      UniqueAreFirstOnes(front);
      FirstOnesMore(front, last);
    }
  }

  // ---- the responses and the messages ----------------------------------------------------------

  /** What a response has said and whether it broke off, from its first word on. */
  datatype Speech = Silent | Speaking(requestId: string, since: string, text: string, failure: Option<string>)

  function At(receivedAt: Option<string>): string {
    match receivedAt
    case Some(time) => time
    case None => ""
  }

  /** A message is put last, unless one of its id is there. */
  function Put(messages: seq<ChatMessage>, message: ChatMessage): seq<ChatMessage> {
    if exists m :: m in messages && m.id == message.id then messages else Newest(messages + [message], 100)
  }

  /** The messages said so far; a response says its text when it completes, if it has any. */
  function SaidBy(start: seq<ChatMessage>, actions: seq<Action>): seq<ChatMessage>
    decreases |actions|, 0
  {
    if actions == [] then start
    else
      var before := actions[..|actions| - 1];
      match actions[|actions| - 1]
      case Hello(_, _, history) => Newest(FirstOnes(history), 100)
      case Message(message) => Put(SaidBy(start, before), message)
      case Completed(id, receivedAt) =>
        var speech := SpeechOf(start, before, id);
        if speech.Silent? || speech.text == "" then SaidBy(start, before)
        else
          var time := if receivedAt.Some? then receivedAt.value else speech.since;
          Put(SaidBy(start, before), ChatMessage(id, Agent, speech.text, time))
      case _ => SaidBy(start, before)
  }

  /** A response that was said as a message is not heard again; one that broke off says nothing more. */
  function SpeechOf(start: seq<ChatMessage>, actions: seq<Action>, id: string): Speech
    decreases |actions|, 1
  {
    if actions == [] then Silent
    else
      var before := actions[..|actions| - 1];
      var speech := SpeechOf(start, before, id);
      var said := exists m :: m in SaidBy(start, before) && m.id == id;
      match actions[|actions| - 1]
      case Hello(_, _, _) => Silent
      case Message(message) => if message.id == id then Silent else speech
      case Completed(x, _) => if x == id then Silent else speech
      case Started(requestId, x, receivedAt) =>
        if x == id && speech.Silent? && !said then Speaking(requestId, At(receivedAt), "", None) else speech
      case Delta(requestId, x, text, receivedAt) =>
        if x != id || said then speech
        else if speech.Silent? then Speaking(requestId, At(receivedAt), text, None)
        else if speech.failure.None? then speech.(text := speech.text + text)
        else speech
      case Failed(requestId, x, reason, receivedAt) =>
        if x != id then speech
        else if speech.Silent? then Speaking(requestId, At(receivedAt), "", Some(reason))
        else speech.(failure := Some(reason))
      case _ => speech
  }

  /** The draft that shows a speech. */
  function DraftOf(id: string, speech: Speech): Option<Draft> {
    match speech
    case Silent => None
    case Speaking(requestId, since, text, failure) =>
      Some(Draft(requestId, id, text, if failure.None? then Streaming else Interrupted, since, failure))
  }

  /** There was always room for one more draft. */
  predicate Roomy(start: Store, actions: seq<Action>) {
    actions == [] || (
      && Roomy(start, actions[..|actions| - 1])
      && |ReduceAll(start, actions[..|actions| - 1]).drafts| < 100)
  }

  // ---- drafts by id ------------------------------------------------------------------------------

  lemma {:induction false} FindAppended(drafts: seq<Draft>, next: Draft, id: string)
    ensures FindDraft(drafts + [next], id) ==
      if FindDraft(drafts, id).Some? then FindDraft(drafts, id)
      else if next.responseId == id then Some(next) else None
  {
    if drafts == [] {
      assert drafts + [next] == [next] && [next][1..] == [];
    } else {
      assert (drafts + [next])[1..] == drafts[1..] + [next];
      FindAppended(drafts[1..], next, id);
    }
  }

  lemma {:induction false} FindReplaced(drafts: seq<Draft>, next: Draft, id: string)
    ensures FindDraft(ReplaceDraft(drafts, next), id) ==
      if next.responseId == id && FindDraft(drafts, id).Some? then Some(next) else FindDraft(drafts, id)
  {
    if drafts != [] {
      var replaced := ReplaceDraft(drafts, next);
      if drafts[0].responseId == next.responseId {
        assert replaced[1..] == drafts[1..];
      } else {
        FindReplaced(drafts[1..], next, id);
        assert replaced[1..] == ReplaceDraft(drafts[1..], next);
      }
    }
  }

  lemma {:induction false} FindWithout(drafts: seq<Draft>, gone: string, id: string)
    ensures FindDraft(WithoutDraft(drafts, gone), id) == if id == gone then None else FindDraft(drafts, id)
  {
    if drafts != [] {
      FindWithout(drafts[1..], gone, id);
      if drafts[0].responseId != gone {
        assert WithoutDraft(drafts, gone)[1..] == WithoutDraft(drafts[1..], gone);
      } else {
        assert WithoutDraft(drafts, gone) == WithoutDraft(drafts[1..], gone);
      }
    }
  }

  lemma FindUpserted(drafts: seq<Draft>, next: Draft, id: string)
    requires |drafts| < 100
    ensures FindDraft(UpsertDraft(drafts, next), id) ==
      if next.responseId == id then Some(next) else FindDraft(drafts, id)
  {
    FindAppended(drafts, next, id);
    FindReplaced(drafts, next, id);
  }

  lemma HasIff(messages: seq<ChatMessage>, id: string)
    ensures HasMessage(messages, id) <==> exists m :: m in messages && m.id == id
  {
    if m :| m in messages && m.id == id {
      var i :| 0 <= i < |messages| && messages[i] == m;
      assert messages[i].id == id;
    }
  }

  lemma PutIsAppend(messages: seq<ChatMessage>, message: ChatMessage)
    ensures AppendMessage(messages, message) == Put(messages, message)
  {
    HasIff(messages, message.id);
  }

  ghost predicate Shows(s: Store, start: seq<ChatMessage>, actions: seq<Action>) {
    && s.messages == SaidBy(start, actions)
    && forall id :: FindDraft(s.drafts, id) == DraftOf(id, SpeechOf(start, actions, id))
  }

  // ---- a step --------------------------------------------------------------------------------------

  lemma Before(actions: seq<Action>, a: Action)
    ensures (actions + [a])[..|actions + [a]| - 1] == actions && (actions + [a])[|actions + [a]| - 1] == a
  {
  }

  lemma MessagesStep(s: Store, start: seq<ChatMessage>, actions: seq<Action>, a: Action)
    requires Shows(s, start, actions)
    ensures Reduce(s, a).messages == SaidBy(start, actions + [a])
  {
    Before(actions, a);
    match a
    case Hello(_, _, history) => UniqueAreFirstOnes(history);
    case Message(message) => PutIsAppend(s.messages, message);
    case Completed(id, receivedAt) =>
      var speech := SpeechOf(start, actions, id);
      assert FindDraft(s.drafts, id) == DraftOf(id, speech);
      if speech.Speaking? {
        var time := if receivedAt.Some? then receivedAt.value else speech.since;
        PutIsAppend(s.messages, ChatMessage(id, Agent, speech.text, time));
      }
    case _ =>
  }

  /** The draft of one id after an action that may add to it. */
  lemma SpeechStep(s: Store, start: seq<ChatMessage>, actions: seq<Action>, a: Action, id: string)
    requires Shows(s, start, actions) && |s.drafts| < 100 && (a.Started? || a.Delta? || a.Failed?)
    ensures FindDraft(Reduce(s, a).drafts, id) == DraftOf(id, SpeechOf(start, actions + [a], id))
  {
    Before(actions, a);
    HasIff(s.messages, a.id);
    var speech := SpeechOf(start, actions, a.id);
    assert FindDraft(s.drafts, a.id) == DraftOf(a.id, speech);
    match a
    case Started(requestId, x, receivedAt) => FindAppended(s.drafts, NewDraft(requestId, x, receivedAt), id);
    case Delta(requestId, x, text, receivedAt) =>
      var draft := DraftFor(s.drafts, requestId, x, receivedAt);
      assert "" + text == text;
      FindUpserted(s.drafts, draft.(text := draft.text + text), id);
    case Failed(requestId, x, reason, receivedAt) =>
      var draft := DraftFor(s.drafts, requestId, x, receivedAt);
      FindUpserted(s.drafts, draft.(status := Interrupted, error := Some(reason)), id);
  }

  lemma SilenceStep(s: Store, start: seq<ChatMessage>, actions: seq<Action>, a: Action, id: string)
    requires Shows(s, start, actions) && !a.Started? && !a.Delta? && !a.Failed?
    ensures FindDraft(Reduce(s, a).drafts, id) == DraftOf(id, SpeechOf(start, actions + [a], id))
  {
    Before(actions, a);
    match a
    case Message(message) => FindWithout(s.drafts, message.id, id);
    case Completed(x, _) =>
      FindWithout(s.drafts, x, id);
      assert FindDraft(s.drafts, x) == DraftOf(x, SpeechOf(start, actions, x));
    case _ =>
  }

  lemma StepShows(s: Store, start: seq<ChatMessage>, actions: seq<Action>, a: Action)
    requires Shows(s, start, actions) && |s.drafts| < 100
    ensures Shows(Reduce(s, a), start, actions + [a])
  {
    MessagesStep(s, start, actions, a);
    forall id
      ensures FindDraft(Reduce(s, a).drafts, id) == DraftOf(id, SpeechOf(start, actions + [a], id))
    {
      if a.Started? || a.Delta? || a.Failed? {
        SpeechStep(s, start, actions, a, id);
      } else {
        SilenceStep(s, start, actions, a, id);
      }
    }
  }

  /**
   After any actions whatever, well-formed streams or not, as long as there was
   room for one more draft: the messages are those said, with author and time,
   and each response has exactly the draft that its own actions make of it.
   */
  lemma {:induction false} ChatShowsWhatWasSaid(start: Store, actions: seq<Action>)
    requires start.drafts == [] && Roomy(start, actions)
    ensures Shows(ReduceAll(start, actions), start.messages, actions)
  {
    if actions != [] {
      var before, a := actions[..|actions| - 1], actions[|actions| - 1];
      assert actions == before + [a];
      ChatShowsWhatWasSaid(start, before);
      StepShows(ReduceAll(start, before), start.messages, before, a);
    }
  }

  // ---- tool calls ------------------------------------------------------------------------------------

  /** The progress of a call that was told last since the greeting. */
  function ToolTold(actions: seq<Action>, id: string): Option<ToolProgress> {
    if actions == [] then None
    else
      match actions[|actions| - 1]
      case Tool(progress) =>
        if progress.toolCallId == id then Some(progress) else ToolTold(actions[..|actions| - 1], id)
      case Hello(_, _, _) => None
      case _ => ToolTold(actions[..|actions| - 1], id)
  }

  ghost predicate ToolsOk(tools: seq<ToolProgress>, actions: seq<Action>) {
    && |tools| <= 100
    && (forall i, j :: 0 <= i < j < |tools| ==> tools[i].toolCallId != tools[j].toolCallId)
    && forall i :: 0 <= i < |tools| ==> ToolTold(actions, tools[i].toolCallId) == Some(tools[i])
  }

  lemma {:induction false} ReplacedTools(tools: seq<ToolProgress>, next: ToolProgress)
    requires forall i, j :: 0 <= i < j < |tools| ==> tools[i].toolCallId != tools[j].toolCallId
    ensures |ReplaceTool(tools, next)| == |tools|
    ensures forall i :: 0 <= i < |tools| ==>
      ReplaceTool(tools, next)[i] == if tools[i].toolCallId == next.toolCallId then next else tools[i]
  {
    if tools != [] {
      ReplacedTools(tools[1..], next);
    }
  }

  /** A known call is updated in its place, a new one comes last. */
  lemma UpsertedTools(tools: seq<ToolProgress>, next: ToolProgress)
    requires |tools| <= 100
    requires forall i, j :: 0 <= i < j < |tools| ==> tools[i].toolCallId != tools[j].toolCallId
    ensures var r := UpsertTool(tools, next);
      && |r| <= 100 && next in r
      && (forall i, j :: 0 <= i < j < |r| ==> r[i].toolCallId != r[j].toolCallId)
      && forall t :: t in r ==> t == next || (t in tools && t.toolCallId != next.toolCallId)
  {
    var r := UpsertTool(tools, next);
    if i :| 0 <= i < |tools| && tools[i].toolCallId == next.toolCallId {
      ReplacedTools(tools, next);
      assert r[i] == next;
    } else {
      assert r[|r| - 1] == next;
    }
  }

  lemma StepKeepsTools(s: Store, actions: seq<Action>, a: Action)
    requires ToolsOk(s.tools, actions)
    ensures ToolsOk(Reduce(s, a).tools, actions + [a])
    ensures a.Tool? ==> a.progress in Reduce(s, a).tools
  {
    Before(actions, a);
    if a.Tool? {
      UpsertedTools(s.tools, a.progress);
    }
  }

  /**
   After any actions at most a hundred calls are shown, each once and as it was
   told last since the greeting; the one told just now is among them.
   */
  lemma {:induction false} ToolsShowWhatWasTold(start: Store, actions: seq<Action>)
    requires start.tools == []
    ensures ToolsOk(ReduceAll(start, actions).tools, actions)
    ensures actions != [] && actions[|actions| - 1].Tool? ==>
      actions[|actions| - 1].progress in ReduceAll(start, actions).tools
  {
    if actions != [] {
      var before, a := actions[..|actions| - 1], actions[|actions| - 1];
      assert actions == before + [a];
      ToolsShowWhatWasTold(start, before);
      StepKeepsTools(ReduceAll(start, before), before, a);
    }
  }

  /** The calls told of since the greeting, in the order of their first report; the newest hundred. */
  function Calls(actions: seq<Action>): seq<string> {
    if actions == [] then []
    else
      var before := Calls(actions[..|actions| - 1]);
      match actions[|actions| - 1]
      case Hello(_, _, _) => []
      case Tool(progress) =>
        if progress.toolCallId in before then before else Newest(before + [progress.toolCallId], 100)
      case _ => before
  }

  function CallIds(tools: seq<ToolProgress>): (ids: seq<string>)
    ensures |ids| == |tools| && forall i :: 0 <= i < |ids| ==> ids[i] == tools[i].toolCallId
  {
    seq(|tools|, i requires 0 <= i < |tools| => tools[i].toolCallId)
  }

  lemma {:induction false} ReplacedCalls(tools: seq<ToolProgress>, next: ToolProgress)
    ensures CallIds(ReplaceTool(tools, next)) == CallIds(tools)
  {
    if tools != [] {
      var rest := tools[1..];
      ReplacedCalls(rest, next);
      assert CallIds(tools) == [tools[0].toolCallId] + CallIds(rest);
      var r := ReplaceTool(tools, next);
      assert CallIds(r) == [r[0].toolCallId] + CallIds(r[1..]);
    }
  }

  lemma UpsertedCalls(tools: seq<ToolProgress>, next: ToolProgress)
    ensures CallIds(UpsertTool(tools, next)) ==
      if next.toolCallId in CallIds(tools) then CallIds(tools)
      else Newest(CallIds(tools) + [next.toolCallId], 100)
  {
    if exists i :: 0 <= i < |tools| && tools[i].toolCallId == next.toolCallId {
      var i :| 0 <= i < |tools| && tools[i].toolCallId == next.toolCallId;
      assert CallIds(tools)[i] == next.toolCallId;
      ReplacedCalls(tools, next);
    } else {
      assert forall i :: 0 <= i < |tools| ==> CallIds(tools)[i] != next.toolCallId;
      assert CallIds(tools + [next]) == CallIds(tools) + [next.toolCallId];
      assert CallIds(Newest(tools + [next], 100)) == Newest(CallIds(tools + [next]), 100);
    }
  }

  /** After any actions the calls shown are the newest hundred told of, in the order in which they came up. */
  lemma {:induction false} CallsAreTheNewest(start: Store, actions: seq<Action>)
    requires start.tools == []
    ensures CallIds(ReduceAll(start, actions).tools) == Calls(actions)
  {
    if actions != [] {
      var n := |actions| - 1;
      CallsAreTheNewest(start, actions[..n]);
      if actions[n].Tool? {
        UpsertedCalls(ReduceAll(start, actions[..n]).tools, actions[n].progress);
      }
    }
  }

  // ---- the rest of the picture -------------------------------------------------------------------------

  predicate TouchesError(a: Action) {
    a.BeginConnecting? || a.LocalError? || a.Hello? || a.AgentError? || a.RequestAccepted? || a.Failed?
  }

  /** The error told last, unless a new connection, a greeting or an accepted request came after it. */
  function ErrorTold(start: Option<string>, actions: seq<Action>): Option<string> {
    if actions == [] then start
    else
      match actions[|actions| - 1]
      case LocalError(text) => Some(text)
      case AgentError(text) => Some(text)
      case Failed(_, _, text, _) => Some(text)
      case a => if TouchesError(a) then None else ErrorTold(start, actions[..|actions| - 1])
  }

  /** The connection, the session, and whether the device and a model can be there. */
  function ConnectionTold(start: Connection, actions: seq<Action>): Connection {
    if actions == [] then start
    else
      match actions[|actions| - 1]
      case BeginConnecting => Connecting
      case Closed => Offline
      case Hello(_, _, _) => Online
      case _ => ConnectionTold(start, actions[..|actions| - 1])
  }

  function SessionTold(start: Option<string>, actions: seq<Action>): Option<string> {
    if actions == [] then start
    else
      match actions[|actions| - 1]
      case Closed => None
      case Hello(sessionId, _, _) => Some(sessionId)
      case _ => SessionTold(start, actions[..|actions| - 1])
  }

  /** The server's state told last; once closed, without device and model. */
  function ServerTold(start: ServerState, actions: seq<Action>): ServerState {
    if actions == [] then start
    else
      match actions[|actions| - 1]
      case Closed =>
        var before := ServerTold(start, actions[..|actions| - 1]);
        ServerState(before.phase, false, before.queueSize, before.queueCapacity, Model(None, "disabled"))
      case Hello(_, server, _) => server
      case NewState(server) => server
      case _ => ServerTold(start, actions[..|actions| - 1])
  }

  lemma HeaderStep(s: Store, a: Action)
    ensures var r := Reduce(s, a);
      && r.connection == (if a.BeginConnecting? then Connecting else if a.Closed? then Offline
                          else if a.Hello? then Online else s.connection)
      && r.sessionId == (if a.Closed? then None else if a.Hello? then Some(a.sessionId) else s.sessionId)
      && r.server == (if a.Closed? then s.server.(deviceConnected := false, model := Model(None, "disabled"))
                      else if a.Hello? || a.NewState? then a.server else s.server)
      && r.error == (if a.LocalError? || a.AgentError? || a.Failed? then Some(a.text)
                     else if TouchesError(a) then None else s.error)
  {
  }

  lemma {:induction false} ConnectionShowsWhatWasTold(start: Store, actions: seq<Action>)
    ensures ReduceAll(start, actions).connection == ConnectionTold(start.connection, actions)
    ensures ReduceAll(start, actions).sessionId == SessionTold(start.sessionId, actions)
  {
    if actions != [] {
      var n := |actions| - 1;
      ConnectionShowsWhatWasTold(start, actions[..n]);
      HeaderStep(ReduceAll(start, actions[..n]), actions[n]);
    }
  }

  lemma {:induction false} ServerShowsWhatWasTold(start: Store, actions: seq<Action>)
    ensures ReduceAll(start, actions).server == ServerTold(start.server, actions)
    ensures ReduceAll(start, actions).error == ErrorTold(start.error, actions)
  {
    if actions != [] {
      var n := |actions| - 1;
      ServerShowsWhatWasTold(start, actions[..n]);
      HeaderStep(ReduceAll(start, actions[..n]), actions[n]);
    }
  }

  /** After any actions the connection, the session, the server's state and the error are those told last. */
  lemma PictureShowsWhatWasTold(start: Store, actions: seq<Action>)
    ensures var s := ReduceAll(start, actions);
      && s.error == ErrorTold(start.error, actions) && s.connection == ConnectionTold(start.connection, actions)
      && s.sessionId == SessionTold(start.sessionId, actions) && s.server == ServerTold(start.server, actions)
  {
    ConnectionShowsWhatWasTold(start, actions);
    ServerShowsWhatWasTold(start, actions);
  }
}
