// The reducer of gui/shared/event-reducer.ts, from numbered events to the rendered chat.
module EventReducer {
  import opened ChatEvents
  import opened Options

  function Key(m: RenderMessage): string {
    ScopedId(m.sessionId, m.id)
  }

  /** The index has exactly the keys of the messages, each with its position; so no key repeats. */
  ghost predicate Indexed(messages: seq<RenderMessage>, index: map<string, nat>) {
    && (forall i :: 0 <= i < |messages| ==> Key(messages[i]) in index && index[Key(messages[i])] == i)
    && (forall k :: k in index ==> index[k] < |messages| && Key(messages[index[k]]) == k)
  }

  // ---------------------------------------------------------------- one event

  function Max(a: int, b: int): int {
    if a >= b then a else b
  }

  function LastSeqOf(s: RenderState, sessionId: string): int {
    if sessionId in s.lastSeqBySession then s.lastSeqBySession[sessionId] else 0
  }

  function EventKey(e: ChatEvent): (string, int) {
    (e.sessionId, e.seqNo)
  }

  /** The bookkeeping of a new event: its number, and a gap if numbers are missing before it. */
  function Admit(s: RenderState, e: ChatEvent): RenderState {
    var last := LastSeqOf(s, e.sessionId);
    s.(gaps := if e.seqNo > last + 1 && last != 0 then s.gaps + [Gap(last + 1, e.seqNo)] else s.gaps,
       seenSeq := s.seenSeq + {EventKey(e)},
       lastSeqBySession := s.lastSeqBySession[e.sessionId := Max(last, e.seqNo)],
       lastSeq := Max(s.lastSeq, e.seqNo))
  }

  function NewMessage(sessionId: string, id: string, role: Role): RenderMessage {
    RenderMessage(id, sessionId, role, false, [], "", None, None, None)
  }

  function WithMessage(s: RenderState, sessionId: string, id: string, role: Role): (r: RenderState)
    requires Indexed(s.messages, s.messageById)
    ensures Indexed(r.messages, r.messageById) && ScopedId(sessionId, id) in r.messageById
    ensures s.messages <= r.messages
  {
    var key := ScopedId(sessionId, id);
    if key in s.messageById then s
    else s.(messages := s.messages + [NewMessage(sessionId, id, role)],
            messageById := s.messageById[key := |s.messages|])
  }

  function WithThinking(s: RenderState, sessionId: string, runId: string): (r: RenderState)
    ensures ScopedId(sessionId, runId) in r.thinking
  {
    var key := ScopedId(sessionId, runId);
    if key in s.thinking then s else s.(thinking := s.thinking[key := RenderThinking(runId, sessionId, false, "")])
  }

  /** What an event does to its message, once the message exists. */
  function EditMessage(m: RenderMessage, body: Body): (r: RenderMessage)
    ensures Key(r) == Key(m)
  {
    match body
    case MessageDelta(_, text) => m.(completed := false, text := m.text + text, content := [TextPart(m.text + text)])
    case MessageCompleted(_, content, attachments) =>
      m.(completed := true, content := content, text := ContentText(content), attachments := attachments)
    case CustomMessage(_, customType, content, details) =>
      m.(completed := true, content := content, text := ContentText(content), customType := Some(customType),
         details := Some(details))
    case _ => m
  }

  function EditThinking(t: RenderThinking, body: Body): RenderThinking {
    match body
    case ThinkingDelta(_, text) => t.(completed := false, text := t.text + text)
    case ThinkingCompleted(_, finalText) =>
      t.(completed := true, text := if finalText.Some? then finalText.value else t.text)
    case _ => t
  }

  function EditTool(t: RenderTool, body: Body): RenderTool {
    match body
    case ToolDelta(_, chunk) => t.(chunks := t.chunks + [chunk])
    case ToolCompleted(_, output) =>
      t.(status := if output.isError then ToolHasFailed else ToolDone, output := Some(output))
    case ToolFailed(_, error) => t.(status := ToolHasFailed, error := Some(error))
    case _ => t
  }

  function EditRun(r: RenderRun, body: Body): RenderRun {
    match body
    case RunCompleted(_, usage) => r.(status := RunDone, usage := Some(usage))
    case RunFailed(_, error) => r.(status := RunHasFailed, error := Some(error))
    case _ => r
  }

  lemma IndexedAfterEdit(messages: seq<RenderMessage>, index: map<string, nat>, i: nat, m: RenderMessage)
    requires Indexed(messages, index) && i < |messages| && Key(m) == Key(messages[i])
    ensures Indexed(messages[i := m], index)
  {
  }

  function StartRun(s: RenderState, sessionId: string, runId: string): RenderState {
    s.(runs := s.runs[ScopedId(sessionId, runId) := RenderRun(runId, sessionId, RunRunning, None, None)],
       session := Some(if s.session.Some? then s.session.value.(id := sessionId) else Session(sessionId, None, None)))
  }

  function StartTool(s: RenderState, sessionId: string, tool: RenderTool): (r: RenderState)
    requires Indexed(s.messages, s.messageById)
    ensures Indexed(r.messages, r.messageById)
  {
    var ready := WithMessage(s, sessionId, tool.messageId, Assistant);
    ready.(tools := ready.tools[ScopedId(sessionId, tool.id) := tool])
  }

  function EditMessageAt(s: RenderState, sessionId: string, id: string, body: Body): (r: RenderState)
    requires Indexed(s.messages, s.messageById)
    requires body.MessageDelta? || body.MessageCompleted? || body.CustomMessage?
    ensures Indexed(r.messages, r.messageById)
  {
    var ready := WithMessage(s, sessionId, id, Assistant);
    var i := ready.messageById[ScopedId(sessionId, id)];
    IndexedAfterEdit(ready.messages, ready.messageById, i, EditMessage(ready.messages[i], body));
    ready.(messages := ready.messages[i := EditMessage(ready.messages[i], body)])
  }

  function EditThinkingAt(s: RenderState, sessionId: string, runId: string, body: Body): RenderState {
    var key, ready := ScopedId(sessionId, runId), WithThinking(s, sessionId, runId);
    ready.(thinking := ready.thinking[key := EditThinking(ready.thinking[key], body)])
  }

  function EditToolAt(s: RenderState, sessionId: string, toolCallId: string, body: Body): RenderState {
    var key := ScopedId(sessionId, toolCallId);
    if key in s.tools then s.(tools := s.tools[key := EditTool(s.tools[key], body)]) else s
  }

  function EditRunAt(s: RenderState, sessionId: string, runId: string, body: Body): RenderState {
    var key := ScopedId(sessionId, runId);
    if key in s.runs then s.(runs := s.runs[key := EditRun(s.runs[key], body)]) else s
  }

  function Render(s: RenderState, sessionId: string, body: Body): (r: RenderState)
    requires Indexed(s.messages, s.messageById)
    ensures Indexed(r.messages, r.messageById)
  {
    hide Indexed;
    match body
    case RunStarted(runId) => StartRun(s, sessionId, runId)
    case ThinkingDelta(runId, _) => EditThinkingAt(s, sessionId, runId, body)
    case ThinkingCompleted(runId, _) => EditThinkingAt(s, sessionId, runId, body)
    case MessageCreated(id, role) => WithMessage(s, sessionId, id, role)
    case MessageDelta(id, _) => EditMessageAt(s, sessionId, id, body)
    case MessageCompleted(id, _, _) => EditMessageAt(s, sessionId, id, body)
    case CustomMessage(id, _, _, _) => EditMessageAt(s, sessionId, id, body)
    case ToolStarted(toolCallId, messageId, name, input) =>
      StartTool(s, sessionId, RenderTool(toolCallId, sessionId, messageId, name, input, ToolRunning, [], None, None))
    case ToolDelta(toolCallId, _) => EditToolAt(s, sessionId, toolCallId, body)
    case ToolCompleted(toolCallId, _) => EditToolAt(s, sessionId, toolCallId, body)
    case ToolFailed(toolCallId, _) => EditToolAt(s, sessionId, toolCallId, body)
    case RunCompleted(runId, _) => EditRunAt(s, sessionId, runId, body)
    case RunFailed(runId, _) => EditRunAt(s, sessionId, runId, body)
    case SessionUpdated(title, updatedAt) => s.(session := Some(Session(sessionId, title, Some(updatedAt))))
  }

  /** An event already seen changes nothing. The index stays exact. */
  function Apply(s: RenderState, e: ChatEvent): (r: RenderState)
    requires Indexed(s.messages, s.messageById)
    ensures Indexed(r.messages, r.messageById)
  {
    if EventKey(e) in s.seenSeq then s else Render(Admit(s, e), e.sessionId, e.body)
  }

  // ---------------------------------------------------------------- the mutable state

  class ChatRender {
    var lastSeq: int
    var seenSeq: set<(string, int)>
    var lastSeqBySession: map<string, int>
    var messages: seq<RenderMessage>
    var messageById: map<string, nat>
    var tools: map<string, RenderTool>
    var runs: map<string, RenderRun>
    var thinking: map<string, RenderThinking>
    var session: Option<Session>
    var gaps: seq<Gap>

    ghost predicate Valid()
      reads this
    {
      Indexed(messages, messageById)
    }

    function Value(): RenderState
      reads this
    {
      RenderState(lastSeq, seenSeq, lastSeqBySession, messages, messageById, tools, runs, thinking, session, gaps)
    }

    /** `createChatRenderState`. */
    constructor ()
      ensures Valid() && Value() == EMPTY
    {
      lastSeq, seenSeq, lastSeqBySession, messages, messageById := 0, {}, map[], [], map[];
      tools, runs, thinking, session, gaps := map[], map[], map[], None, [];
    }

    /** `cloneState`: the index is built again from the copied messages. */
    constructor Clone(state: ChatRender)
      requires state.Valid()
      ensures Valid() && Value() == state.Value()
    {
      lastSeq, seenSeq, lastSeqBySession, messages :=
        state.lastSeq, state.seenSeq, state.lastSeqBySession, state.messages;
      tools, runs, thinking, session, gaps := state.tools, state.runs, state.thinking, state.session, state.gaps;
      messageById := map[];
      new;
      hide Indexed;
      ghost var copied := state.messages;
      NothingIsIndexed();
      for i := 0 to |messages|
        invariant messages == copied && i <= |copied|
        invariant Indexed(copied[..i], messageById)
        invariant Value() == state.Value().(messageById := messageById)
      {
        IndexGrows(copied, state.messageById, i, messageById);
        messageById := messageById[Key(messages[i]) := i];
      }
      assert copied[..|copied|] == copied;
      IndexIsUnique(copied, messageById, state.messageById);
    }

    method EnsureMessage(sessionId: string, id: string, role: Role) returns (i: nat)
      requires Valid()
      modifies this`messages, this`messageById
      ensures Valid() && Value() == WithMessage(old(Value()), sessionId, id, role)
      ensures i == messageById[ScopedId(sessionId, id)] && i < |messages|
    {
      var key := ScopedId(sessionId, id);
      if key in messageById {
        return messageById[key];
      }
      i := |messages|;
      messageById := messageById[key := i];
      messages := messages + [NewMessage(sessionId, id, role)];
    }

    method EnsureThinking(sessionId: string, runId: string)
      modifies this`thinking
      ensures Value() == WithThinking(old(Value()), sessionId, runId)
    {
      var key := ScopedId(sessionId, runId);
      if key !in thinking {
        thinking := thinking[key := RenderThinking(runId, sessionId, false, "")];
      }
    }

    method AdmitEvent(e: ChatEvent)
      modifies this`gaps, this`seenSeq, this`lastSeqBySession, this`lastSeq
      ensures Value() == Admit(old(Value()), e)
    {
      var sessionLastSeq := if e.sessionId in lastSeqBySession then lastSeqBySession[e.sessionId] else 0;
      if e.seqNo > sessionLastSeq + 1 && sessionLastSeq != 0 {
        gaps := gaps + [Gap(sessionLastSeq + 1, e.seqNo)];
      }
      seenSeq := seenSeq + {EventKey(e)};
      lastSeqBySession := lastSeqBySession[e.sessionId := Max(sessionLastSeq, e.seqNo)];
      lastSeq := Max(lastSeq, e.seqNo);
    }

    method EditMessageIn(sessionId: string, messageId: string, body: Body)
      requires Valid() && (body.MessageDelta? || body.MessageCompleted? || body.CustomMessage?)
      modifies this`messages, this`messageById
      ensures Valid() && Value() == EditMessageAt(old(Value()), sessionId, messageId, body)
    {
      hide Indexed;
      var i := EnsureMessage(sessionId, messageId, Assistant);
      var m := EditedMessage(messages[i], body);
      IndexedAfterEdit(messages, messageById, i, m);
      messages := messages[i := m];
    }

    method StartRunAt(sessionId: string, runId: string)
      modifies this`runs, this`session
      ensures Value() == StartRun(old(Value()), sessionId, runId)
    {
      runs := runs[ScopedId(sessionId, runId) := RenderRun(runId, sessionId, RunRunning, None, None)];
      session := Some(if session.Some? then session.value.(id := sessionId) else Session(sessionId, None, None));
    }

    method StartToolAt(sessionId: string, tool: RenderTool)
      requires Valid()
      modifies this`messages, this`messageById, this`tools
      ensures Valid() && Value() == StartTool(old(Value()), sessionId, tool)
    {
      hide WithMessage, Indexed;
      var _ := EnsureMessage(sessionId, tool.messageId, Assistant);
      tools := tools[ScopedId(sessionId, tool.id) := tool];
    }

    method EditTool(sessionId: string, toolCallId: string, body: Body)
      modifies this`tools
      ensures Value() == EditToolAt(old(Value()), sessionId, toolCallId, body)
    {
      var key := ScopedId(sessionId, toolCallId);
      if key in tools {
        var tool := tools[key];
        match body {
          case ToolDelta(_, chunk) =>
            tool := tool.(chunks := tool.chunks + [chunk]);
          case ToolCompleted(_, output) =>
            tool := tool.(status := if output.isError then ToolHasFailed else ToolDone);
            tool := tool.(output := Some(output));
          case ToolFailed(_, error) =>
            tool := tool.(status := ToolHasFailed, error := Some(error));
          case _ =>
        }
        tools := tools[key := tool];
      }
    }

    method EditRun(sessionId: string, runId: string, body: Body)
      modifies this`runs
      ensures Value() == EditRunAt(old(Value()), sessionId, runId, body)
    {
      var key := ScopedId(sessionId, runId);
      if key in runs {
        match body {
          case RunCompleted(_, usage) =>
            runs := runs[key := runs[key].(status := RunDone, usage := Some(usage))];
          case RunFailed(_, error) =>
            runs := runs[key := runs[key].(status := RunHasFailed, error := Some(error))];
          case _ =>
        }
      }
    }

    /** The switch on the event type. */
    method RenderBody(sessionId: string, body: Body)
      requires Valid()
      modifies this
      ensures Valid() && Value() == Render(old(Value()), sessionId, body)
    {
      hide Render, Indexed;
      match body {
        case RunStarted(_) =>
          RenderRunBody(sessionId, body);
        case ThinkingDelta(_, _) =>
          RenderRunBody(sessionId, body);
        case ThinkingCompleted(_, _) =>
          RenderRunBody(sessionId, body);
        case MessageCreated(_, _) =>
          RenderMessageBody(sessionId, body);
        case MessageDelta(_, _) =>
          RenderMessageBody(sessionId, body);
        case MessageCompleted(_, _, _) =>
          RenderMessageBody(sessionId, body);
        case CustomMessage(_, _, _, _) =>
          RenderMessageBody(sessionId, body);
        case ToolStarted(_, _, _, _) =>
          RenderToolBody(sessionId, body);
        case ToolDelta(_, _) =>
          RenderToolBody(sessionId, body);
        case ToolCompleted(_, _) =>
          RenderToolBody(sessionId, body);
        case ToolFailed(_, _) =>
          RenderToolBody(sessionId, body);
        case RunCompleted(_, _) =>
          RenderRunBody(sessionId, body);
        case RunFailed(_, _) =>
          RenderRunBody(sessionId, body);
        case SessionUpdated(_, _) =>
          RenderRunBody(sessionId, body);
      }
    }

    method RenderMessageBody(sessionId: string, body: Body)
      requires Valid() && (body.MessageCreated? || body.MessageDelta? || body.MessageCompleted? || body.CustomMessage?)
      modifies this`messages, this`messageById
      ensures Valid() && Value() == Render(old(Value()), sessionId, body)
    {
      hide WithMessage, EditMessageAt, Indexed;
      if body.MessageCreated? {
        var _ := EnsureMessage(sessionId, body.messageId, body.role);
      } else {
        EditMessageIn(sessionId, body.messageId, body);
      }
    }

    method RenderToolBody(sessionId: string, body: Body)
      requires Valid() && (body.ToolStarted? || body.ToolDelta? || body.ToolCompleted? || body.ToolFailed?)
      modifies this`messages, this`messageById, this`tools
      ensures Valid() && Value() == Render(old(Value()), sessionId, body)
    {
      hide StartTool, EditToolAt, Indexed;
      if body.ToolStarted? {
        var tool := RenderTool(body.toolCallId, sessionId, body.messageId, body.name, body.input, ToolRunning, [],
                               None, None);
        StartToolAt(sessionId, tool);
      } else {
        EditTool(sessionId, body.toolCallId, body);
      }
    }

    /** Runs, their thinking, and the session. */
    method RenderRunBody(sessionId: string, body: Body)
      requires Valid()
      requires body.RunStarted? || body.RunCompleted? || body.RunFailed? || body.ThinkingDelta? ||
               body.ThinkingCompleted? || body.SessionUpdated?
      modifies this`runs, this`thinking, this`session
      ensures Valid() && Value() == Render(old(Value()), sessionId, body)
    {
      hide StartRun, EditThinkingAt, EditRunAt, Indexed;
      if body.RunStarted? {
        StartRunAt(sessionId, body.runId);
      } else if body.SessionUpdated? {
        session := Some(Session(sessionId, body.title, Some(body.updatedAt)));
      } else if body.ThinkingDelta? || body.ThinkingCompleted? {
        RenderThinkingBody(sessionId, body.runId, body);
      } else {
        EditRun(sessionId, body.runId, body);
      }
    }

    method RenderThinkingBody(sessionId: string, runId: string, body: Body)
      modifies this`thinking
      ensures Value() == EditThinkingAt(old(Value()), sessionId, runId, body)
    {
      EnsureThinking(sessionId, runId);
      var key := ScopedId(sessionId, runId);
      var t := thinking[key];
      match body {
        case ThinkingDelta(_, text) =>
          t := t.(completed := false, text := t.text + text);
        case ThinkingCompleted(_, finalText) =>
          t := t.(completed := true);
          if finalText.Some? {
            t := t.(text := finalText.value);
          }
        case _ =>
      }
      thinking := thinking[key := t];
    }
  }

  method EditedMessage(m: RenderMessage, body: Body) returns (r: RenderMessage)
    requires body.MessageDelta? || body.MessageCompleted? || body.CustomMessage?
    ensures r == EditMessage(m, body)
  {
    r := m;
    match body {
      case MessageDelta(_, text) =>
        r := r.(completed := false, text := r.text + text);
        r := r.(content := [TextPart(r.text)]);
      case MessageCompleted(_, content, attachments) =>
        r := r.(completed := true, content := content);
        r := r.(text := ContentText(content), attachments := attachments);
      case CustomMessage(_, customType, content, details) =>
        r := r.(completed := true, content := content, text := ContentText(content));
        r := r.(customType := Some(customType), details := Some(details));
    }
  }

  /** `applyChatEvent`: the old state object is left alone, and returned itself for a repeated event. */
  method ApplyChatEvent(state: ChatRender, e: ChatEvent) returns (next: ChatRender)
    requires state.Valid()
    ensures next.Valid() && next.Value() == Apply(state.Value(), e)
    ensures if EventKey(e) in state.seenSeq then next == state else fresh(next)
  {
    if EventKey(e) in state.seenSeq {
      return state;
    }
    next := new ChatRender.Clone(state);
    next.AdmitEvent(e);
    next.RenderBody(e.sessionId, e.body);
  }

  lemma NothingIsIndexed()
    ensures Indexed([], map[])
  {
  }

  lemma KeyIsNew(messages: seq<RenderMessage>, index: map<string, nat>, i: nat, built: map<string, nat>)
    requires Indexed(messages, index) && i < |messages| && Indexed(messages[..i], built)
    ensures Key(messages[i]) !in built
  {
  }

  lemma IndexGrows(messages: seq<RenderMessage>, index: map<string, nat>, i: nat, built: map<string, nat>)
    requires Indexed(messages, index) && i < |messages| && Indexed(messages[..i], built)
    ensures Indexed(messages[..i + 1], built[Key(messages[i]) := i])
  {
    KeyIsNew(messages, index, i, built);
    assert messages[..i + 1] == messages[..i] + [messages[i]];
  }

  /** Messages have only one exact index. */
  lemma IndexIsUnique(messages: seq<RenderMessage>, a: map<string, nat>, b: map<string, nat>)
    requires Indexed(messages, a) && Indexed(messages, b)
    ensures a == b
  {
  }

  // ---------------------------------------------------------------- a list of events

  /** The comparator: events of different sessions are left in their order. */
  function Compare(a: ChatEvent, b: ChatEvent): int {
    if a.sessionId == b.sessionId then a.seqNo - b.seqNo else 0
  }

  function Insert(e: ChatEvent, events: seq<ChatEvent>): seq<ChatEvent>
    decreases |events|
  {
    if events == [] then [e]
    else if Compare(events[0], e) < 0 then [events[0]] + Insert(e, events[1..])
    else [e] + events
  }

  /** A stable sort. */
  function Sort(events: seq<ChatEvent>): seq<ChatEvent>
    decreases |events|
  {
    if events == [] then [] else Insert(events[0], Sort(events[1..]))
  }

  function Fold(s: RenderState, events: seq<ChatEvent>): (r: RenderState)
    requires Indexed(s.messages, s.messageById)
    ensures Indexed(r.messages, r.messageById)
    decreases |events|
  {
    if events == [] then s else Fold(Apply(s, events[0]), events[1..])
  }

  lemma EmptyIsIndexed()
    ensures Indexed(EMPTY.messages, EMPTY.messageById)
  {
  }

  function Reduce(events: seq<ChatEvent>): (r: RenderState)
    ensures Indexed(r.messages, r.messageById)
  {
    Fold(EMPTY, Sort(events))
  }

  method ReduceChatEvents(events: seq<ChatEvent>) returns (state: ChatRender)
    ensures state.Valid() && fresh(state) && state.Value() == Reduce(events)
  {
    var sorted := Sort(events);
    state := new ChatRender();
    for i := 0 to |sorted|
      invariant state.Valid() && fresh(state)
      invariant Fold(EMPTY, sorted) == Fold(state.Value(), sorted[i..])
    {
      assert sorted[i..][1..] == sorted[i + 1..];
      state := ApplyChatEvent(state, sorted[i]);
    }
    assert sorted[|sorted|..] == [];
  }

  // ---------------------------------------------------------------- order and repetition

  ghost predicate OneSession(events: seq<ChatEvent>) {
    forall i, j :: 0 <= i < j < |events| ==> events[i].sessionId == events[j].sessionId
  }

  ghost predicate NumberDeterminesEvent(events: seq<ChatEvent>) {
    forall a, b :: a in events && b in events && a.seqNo == b.seqNo ==> a == b
  }

  ghost predicate Ascending(events: seq<ChatEvent>) {
    forall i, j :: 0 <= i < j < |events| ==> events[i].seqNo <= events[j].seqNo
  }

  ghost predicate SameElements(a: seq<ChatEvent>, b: seq<ChatEvent>) {
    forall e :: e in a <==> e in b
  }

  lemma {:induction false} InsertAscending(e: ChatEvent, events: seq<ChatEvent>)
    requires Ascending(events) && forall x :: x in events ==> x.sessionId == e.sessionId
    ensures Ascending(Insert(e, events)) && SameElements(Insert(e, events), [e] + events)
    decreases |events|
  {
    if events != [] {
      InsertAscending(e, events[1..]);
      var r := Insert(e, events);
      assert events == [events[0]] + events[1..];
      if Compare(events[0], e) < 0 {
        forall j | 0 < j < |r| ensures r[0].seqNo <= r[j].seqNo {
          assert r[j] in Insert(e, events[1..]);
        }
      }
    }
  }

  lemma {:induction false} SortAscending(events: seq<ChatEvent>)
    requires OneSession(events)
    ensures Ascending(Sort(events)) && SameElements(Sort(events), events)
    decreases |events|
  {
    if events != [] {
      SortAscending(events[1..]);
      InsertAscending(events[0], Sort(events[1..]));
      assert events == [events[0]] + events[1..];
    }
  }

  lemma RenderKeepsSeen(s: RenderState, sessionId: string, body: Body)
    requires Indexed(s.messages, s.messageById)
    ensures Render(s, sessionId, body).seenSeq == s.seenSeq
  {
    hide Indexed, ScopedId, EditMessage, EditTool, EditRun, EditThinking;
  }

  /** Applying an event makes it seen, and nothing is forgotten. */
  lemma ApplyRemembers(s: RenderState, e: ChatEvent)
    requires Indexed(s.messages, s.messageById)
    ensures EventKey(e) in Apply(s, e).seenSeq && s.seenSeq <= Apply(s, e).seenSeq
  {
    hide Indexed, Render;
    if EventKey(e) !in s.seenSeq {
      RenderKeepsSeen(Admit(s, e), e.sessionId, e.body);
    }
  }

  /** A repeated first event is as good as one. */
  lemma FoldRepeated(s: RenderState, events: seq<ChatEvent>)
    requires Indexed(s.messages, s.messageById) && |events| >= 2 && events[0] == events[1]
    ensures Fold(s, events) == Fold(s, events[1..])
  {
    hide Indexed, Render, Admit;
    var e, once := events[0], Apply(s, events[0]);
    ApplyRemembers(s, e);
    assert Apply(once, e) == once;
    assert events[1..][0] == e && events[1..][1..] == events[2..];
    assert Fold(s, events) == Fold(once, events[1..]) == Fold(Apply(once, e), events[2..]);
  }

  /** Two ascending lists of the same events, with numbers that determine them. */
  ghost predicate Alike(a: seq<ChatEvent>, b: seq<ChatEvent>) {
    Ascending(a) && Ascending(b) && SameElements(a, b) && NumberDeterminesEvent(a)
  }

  lemma AlikeHeads(a: seq<ChatEvent>, b: seq<ChatEvent>)
    requires Alike(a, b)
    ensures a == [] <==> b == []
    ensures a != [] ==> a[0] == b[0]
    ensures Alike(b, a)
  {
    assert |a| > 0 ==> a[0] in b && a[0] in a;
    assert |b| > 0 ==> b[0] in a && b[0] in b;
  }

  lemma AlikeWithoutRepeated(a: seq<ChatEvent>, b: seq<ChatEvent>)
    requires Alike(a, b) && |a| >= 2 && a[0] == a[1]
    ensures Alike(a[1..], b)
  {
  }

  lemma FirstIsAlone(events: seq<ChatEvent>)
    requires |events| > 0 && Ascending(events) && NumberDeterminesEvent(events)
    requires |events| >= 2 ==> events[1] != events[0]
    ensures events[0] !in events[1..]
  {
  }

  lemma RestsHaveSameElements(a: seq<ChatEvent>, b: seq<ChatEvent>)
    requires SameElements(a, b) && a != [] && b != [] && a[0] == b[0] && a[0] !in a[1..] && b[0] !in b[1..]
    ensures SameElements(a[1..], b[1..])
  {
    assert a == [a[0]] + a[1..] && b == [b[0]] + b[1..];
    forall e ensures e in a[1..] <==> e in b[1..] {
      assert e in a <==> e in b;
    }
  }

  lemma AlikeRests(a: seq<ChatEvent>, b: seq<ChatEvent>)
    requires Alike(a, b) && a != [] && b != []
    requires (|a| >= 2 ==> a[1] != a[0]) && (|b| >= 2 ==> b[1] != b[0])
    ensures Alike(a[1..], b[1..])
  {
    hide SameElements;
    AlikeHeads(a, b);
    FirstIsAlone(a);
    FirstIsAlone(b);
    RestsHaveSameElements(a, b);
    assert forall e :: e in a[1..] ==> e in a;
  }

  lemma {:induction false} FoldAlike(s: RenderState, a: seq<ChatEvent>, b: seq<ChatEvent>)
    requires Indexed(s.messages, s.messageById) && Alike(a, b)
    ensures Fold(s, a) == Fold(s, b)
    decreases |a| + |b|
  {
    hide Indexed, Apply, Alike;
    AlikeHeads(a, b);
    if a != [] {
      if |a| >= 2 && a[1] == a[0] {
        FoldRepeated(s, a);
        AlikeWithoutRepeated(a, b);
        FoldAlike(s, a[1..], b);
      } else if |b| >= 2 && b[1] == b[0] {
        FoldRepeated(s, b);
        AlikeWithoutRepeated(b, a);
        AlikeHeads(b[1..], a);
        FoldAlike(s, a, b[1..]);
      } else {
        AlikeRests(a, b);
        FoldAlike(Apply(s, a[0]), a[1..], b[1..]);
      }
    }
  }

  /** The events of one session may arrive in any order and any number of times: if a number always
      means the same event, the chat is the same. */
  lemma ReduceIgnoresOrderAndRepetition(a: seq<ChatEvent>, b: seq<ChatEvent>)
    requires OneSession(a) && OneSession(b) && SameElements(a, b) && NumberDeterminesEvent(a)
    ensures Reduce(a) == Reduce(b)
  {
    hide Sort, Fold;
    SortAscending(a);
    SortAscending(b);
    FoldAlike(EMPTY, Sort(a), Sort(b));
  }

  /** Two sessions do not commute: the last run to start names the session. */
  lemma TwoSessionsDoNotCommute() returns (a: ChatEvent, b: ChatEvent)
    ensures NumberDeterminesEvent([a]) && NumberDeterminesEvent([b])
    ensures a.sessionId != b.sessionId && Reduce([a, b]).session != Reduce([b, a]).session
  {
    a, b := ChatEvent("a", 1, RunStarted("r")), ChatEvent("b", 1, RunStarted("r"));
    hide Apply, Reduce;
    EmptyIsIndexed();
    ReducePair(a, b);
    ReducePair(b, a);
    StartNamesSession(EMPTY, a);
    StartNamesSession(EMPTY, b);
    StartNamesSession(Apply(EMPTY, a), b);
    StartNamesSession(Apply(EMPTY, b), a);
  }

  /** A new event that starts a run names the session. */
  lemma StartNamesSession(s: RenderState, e: ChatEvent)
    requires Indexed(s.messages, s.messageById) && e.body.RunStarted? && EventKey(e) !in s.seenSeq
    ensures var r := Apply(s, e);
            r.session.Some? && r.session.value.id == e.sessionId && r.seenSeq == s.seenSeq + {EventKey(e)}
  {
    hide Indexed;
  }

  lemma ReducePair(a: ChatEvent, b: ChatEvent)
    requires a.sessionId != b.sessionId
    ensures Reduce([a, b]) == Apply(Apply(EMPTY, a), b)
  {
    hide Apply;
    assert [a, b][1..] == [b] && [b][1..] == [];
    assert Sort([b]) == Insert(b, []) == [b];
    assert Insert(a, [b]) == [a, b];
    assert Sort([a, b]) == [a, b];
    assert Fold(EMPTY, [a, b]) == Fold(Apply(EMPTY, a), [b]) == Fold(Apply(Apply(EMPTY, a), b), []);
  }
}
