// What one event does to each field of the rendered chat, for every kind of event of
// gui/shared/event-reducer.ts.
module EventFields {
  import opened ChatEvents
  import opened EventReducer
  import opened Options

  // ---------------------------------------------------------------- what an event touches

  function MessageKey(sessionId: string, body: Body): Option<string> {
    match body
    case MessageCreated(id, _) => Some(ScopedId(sessionId, id))
    case MessageDelta(id, _) => Some(ScopedId(sessionId, id))
    case MessageCompleted(id, _, _) => Some(ScopedId(sessionId, id))
    case CustomMessage(id, _, _, _) => Some(ScopedId(sessionId, id))
    case ToolStarted(_, id, _, _) => Some(ScopedId(sessionId, id))
    case _ => None
  }

  function ToolKey(sessionId: string, body: Body): Option<string> {
    if body.ToolStarted? || body.ToolDelta? || body.ToolCompleted? || body.ToolFailed?
    then Some(ScopedId(sessionId, body.toolCallId)) else None
  }

  function RunKey(sessionId: string, body: Body): Option<string> {
    if body.RunStarted? || body.RunCompleted? || body.RunFailed? || body.ThinkingDelta? || body.ThinkingCompleted?
    then Some(ScopedId(sessionId, body.runId)) else None
  }

  // ---------------------------------------------------------------- field by field

  function NewTool(sessionId: string, body: Body): RenderTool
    requires body.ToolStarted?
  {
    RenderTool(body.toolCallId, sessionId, body.messageId, body.name, body.input, ToolRunning, [], None, None)
  }

  function ToolsAfter(tools: map<string, RenderTool>, sessionId: string, body: Body): map<string, RenderTool> {
    match ToolKey(sessionId, body)
    case None => tools
    case Some(key) =>
      if body.ToolStarted? then tools[key := NewTool(sessionId, body)]
      else if key in tools then tools[key := EditTool(tools[key], body)]
      else tools
  }

  function RunsAfter(runs: map<string, RenderRun>, sessionId: string, body: Body): map<string, RenderRun> {
    match RunKey(sessionId, body)
    case None => runs
    case Some(key) =>
      if body.RunStarted? then runs[key := RenderRun(body.runId, sessionId, RunRunning, None, None)]
      else if (body.RunCompleted? || body.RunFailed?) && key in runs then runs[key := EditRun(runs[key], body)]
      else runs
  }

  function ThinkingAfter(
    thinking: map<string, RenderThinking>, sessionId: string, body: Body): map<string, RenderThinking>
  {
    if !body.ThinkingDelta? && !body.ThinkingCompleted? then thinking
    else
      var key := ScopedId(sessionId, body.runId);
      var known := if key in thinking then thinking[key] else RenderThinking(body.runId, sessionId, false, "");
      thinking[key := EditThinking(known, body)]
  }

  function SessionAfter(session: Option<Session>, sessionId: string, body: Body): Option<Session> {
    match body
    case RunStarted(_) => Some(if session.Some? then session.value.(id := sessionId)
                               else Session(sessionId, None, None))
    case SessionUpdated(title, updatedAt) => Some(Session(sessionId, title, Some(updatedAt)))
    case _ => session
  }

  datatype Shelf = Shelf(messages: seq<RenderMessage>, index: map<string, nat>)

  /** The message an event creates where there is none. */
  function BlankMessage(sessionId: string, body: Body): RenderMessage
    requires MessageKey(sessionId, body).Some?
  {
    NewMessage(sessionId, body.messageId, if body.MessageCreated? then body.role else Assistant)
  }

  function ShelfAfter(shelf: Shelf, sessionId: string, body: Body): Shelf
    requires Indexed(shelf.messages, shelf.index)
  {
    match MessageKey(sessionId, body)
    case None => shelf
    case Some(key) =>
      if key in shelf.index then
        var i := shelf.index[key];
        shelf.(messages := shelf.messages[i := EditMessage(shelf.messages[i], body)])
      else Shelf(shelf.messages + [EditMessage(BlankMessage(sessionId, body), body)],
                 shelf.index[key := |shelf.messages|])
  }

  predicate SameAdmission(r: RenderState, t: RenderState) {
    r.seenSeq == t.seenSeq && r.lastSeq == t.lastSeq && r.lastSeqBySession == t.lastSeqBySession && r.gaps == t.gaps
  }

  /** The fields that r has, as the body changes those of s. */
  predicate HasFields(r: RenderState, s: RenderState, sessionId: string, body: Body) {
    && SameAdmission(r, s)
    && r.tools == ToolsAfter(s.tools, sessionId, body) && r.runs == RunsAfter(s.runs, sessionId, body)
    && r.thinking == ThinkingAfter(s.thinking, sessionId, body) && r.session == SessionAfter(s.session, sessionId, body)
  }

  predicate SameShelf(r: RenderState, s: RenderState) {
    r.messages == s.messages && r.messageById == s.messageById
  }

  // ---------------------------------------------------------------- the kinds of events

  predicate IsMessageBody(body: Body) {
    body.MessageCreated? || body.MessageDelta? || body.MessageCompleted? || body.CustomMessage?
  }

  predicate IsToolBody(body: Body) {
    body.ToolStarted? || body.ToolDelta? || body.ToolCompleted? || body.ToolFailed?
  }

  predicate IsRunBody(body: Body) {
    body.RunStarted? || body.RunCompleted? || body.RunFailed?
  }

  function MessageRender(s: RenderState, sessionId: string, body: Body): RenderState
    requires Indexed(s.messages, s.messageById) && IsMessageBody(body)
  {
    if body.MessageCreated? then WithMessage(s, sessionId, body.messageId, body.role)
    else EditMessageAt(s, sessionId, body.messageId, body)
  }

  function ToolRender(s: RenderState, sessionId: string, body: Body): RenderState
    requires Indexed(s.messages, s.messageById) && IsToolBody(body)
  {
    if body.ToolStarted? then StartTool(s, sessionId, NewTool(sessionId, body))
    else EditToolAt(s, sessionId, body.toolCallId, body)
  }

  function RunRender(s: RenderState, sessionId: string, body: Body): RenderState
    requires IsRunBody(body)
  {
    if body.RunStarted? then StartRun(s, sessionId, body.runId) else EditRunAt(s, sessionId, body.runId, body)
  }

  /** Which of these the switch takes. */
  lemma Dispatched(s: RenderState, sessionId: string, body: Body)
    requires Indexed(s.messages, s.messageById)
    ensures IsMessageBody(body) ==> Render(s, sessionId, body) == MessageRender(s, sessionId, body)
    ensures IsToolBody(body) ==> Render(s, sessionId, body) == ToolRender(s, sessionId, body)
    ensures IsRunBody(body) ==> Render(s, sessionId, body) == RunRender(s, sessionId, body)
    ensures body.ThinkingDelta? || body.ThinkingCompleted? ==>
              Render(s, sessionId, body) == EditThinkingAt(s, sessionId, body.runId, body)
    ensures body.SessionUpdated? ==>
              Render(s, sessionId, body) == s.(session := SessionAfter(s.session, sessionId, body))
  {
    hide Indexed, WithMessage, EditMessageAt, StartTool, EditToolAt, StartRun, EditRunAt, EditThinkingAt;
  }

  lemma OthersUntouched(s: RenderState, sessionId: string, body: Body)
    ensures !IsToolBody(body) ==> ToolsAfter(s.tools, sessionId, body) == s.tools
    ensures !IsRunBody(body) ==> RunsAfter(s.runs, sessionId, body) == s.runs
    ensures !body.ThinkingDelta? && !body.ThinkingCompleted? ==>
              ThinkingAfter(s.thinking, sessionId, body) == s.thinking
    ensures !body.RunStarted? && !body.SessionUpdated? ==> SessionAfter(s.session, sessionId, body) == s.session
  {
    hide ScopedId, EditTool, EditRun, EditThinking;
  }

  lemma MessagesOnly(s: RenderState, sessionId: string, body: Body)
    requires Indexed(s.messages, s.messageById) && IsMessageBody(body)
    ensures var r := MessageRender(s, sessionId, body);
            SameAdmission(r, s) && r.tools == s.tools && r.runs == s.runs && r.thinking == s.thinking &&
            r.session == s.session
  {
    hide Indexed, ScopedId, EditMessage;
  }

  lemma ToolStartsOnly(s: RenderState, sessionId: string, body: Body)
    requires Indexed(s.messages, s.messageById) && body.ToolStarted?
    ensures var r := StartTool(s, sessionId, NewTool(sessionId, body));
            SameAdmission(r, s) && r.tools == ToolsAfter(s.tools, sessionId, body) && r.runs == s.runs &&
            r.thinking == s.thinking && r.session == s.session
  {
    hide Indexed, ScopedId;
  }

  lemma ToolEditsOnly(s: RenderState, sessionId: string, body: Body)
    requires IsToolBody(body) && !body.ToolStarted?
    ensures var r := EditToolAt(s, sessionId, body.toolCallId, body);
            SameAdmission(r, s) && SameShelf(r, s) && r.tools == ToolsAfter(s.tools, sessionId, body) &&
            r.runs == s.runs && r.thinking == s.thinking && r.session == s.session
  {
    hide ScopedId, EditTool;
  }

  lemma RunsOnly(s: RenderState, sessionId: string, body: Body)
    requires IsRunBody(body)
    ensures var r := RunRender(s, sessionId, body);
            SameAdmission(r, s) && SameShelf(r, s) && r.runs == RunsAfter(s.runs, sessionId, body) &&
            r.tools == s.tools && r.thinking == s.thinking && r.session == SessionAfter(s.session, sessionId, body)
  {
    hide ScopedId, EditRun;
  }

  lemma ThinkingOnly(s: RenderState, sessionId: string, body: Body)
    requires body.ThinkingDelta? || body.ThinkingCompleted?
    ensures var r := EditThinkingAt(s, sessionId, body.runId, body);
            SameAdmission(r, s) && SameShelf(r, s) && r.thinking == ThinkingAfter(s.thinking, sessionId, body) &&
            r.tools == s.tools && r.runs == s.runs && r.session == s.session
  {
    hide ScopedId, EditThinking;
  }

  /** Every event changes each field as specified. */
  lemma FieldsRendered(s: RenderState, sessionId: string, body: Body)
    requires Indexed(s.messages, s.messageById)
    ensures HasFields(Render(s, sessionId, body), s, sessionId, body)
  {
    hide Indexed, Render, MessageRender, RunRender, StartTool, EditToolAt, EditThinkingAt, ToolsAfter, RunsAfter,
         ThinkingAfter, SessionAfter, SameShelf;
    Dispatched(s, sessionId, body);
    OthersUntouched(s, sessionId, body);
    if IsMessageBody(body) {
      MessagesOnly(s, sessionId, body);
    } else if body.ToolStarted? {
      ToolStartsOnly(s, sessionId, body);
    } else if IsToolBody(body) {
      ToolEditsOnly(s, sessionId, body);
    } else if IsRunBody(body) {
      RunsOnly(s, sessionId, body);
    } else if !body.SessionUpdated? {
      ThinkingOnly(s, sessionId, body);
    }
  }

  // ---------------------------------------------------------------- the messages

  lemma OthersKeepShelf(s: RenderState, sessionId: string, body: Body)
    requires Indexed(s.messages, s.messageById) && !IsMessageBody(body) && !body.ToolStarted?
    ensures SameShelf(Render(s, sessionId, body), s)
  {
    hide Indexed, Render, RunRender, EditToolAt, EditThinkingAt, ToolsAfter, RunsAfter, ThinkingAfter, SessionAfter,
         SameAdmission;
    Dispatched(s, sessionId, body);
    if IsToolBody(body) {
      ToolEditsOnly(s, sessionId, body);
    } else if IsRunBody(body) {
      RunsOnly(s, sessionId, body);
    } else if !body.SessionUpdated? {
      ThinkingOnly(s, sessionId, body);
    }
  }

  lemma EditedShelf(s: RenderState, sessionId: string, body: Body)
    requires Indexed(s.messages, s.messageById) && (body.MessageDelta? || body.MessageCompleted? || body.CustomMessage?)
    ensures var r := EditMessageAt(s, sessionId, body.messageId, body);
            Shelf(r.messages, r.messageById) == ShelfAfter(Shelf(s.messages, s.messageById), sessionId, body)
  {
    hide ScopedId, EditMessage;
  }

  lemma CreatedShelf(s: RenderState, sessionId: string, body: Body)
    requires Indexed(s.messages, s.messageById) && (body.MessageCreated? || body.ToolStarted?)
    ensures var role := if body.MessageCreated? then body.role else Assistant;
            var r := WithMessage(s, sessionId, body.messageId, role);
            Shelf(r.messages, r.messageById) == ShelfAfter(Shelf(s.messages, s.messageById), sessionId, body)
  {
    hide ScopedId;
  }

  lemma StartedShelf(s: RenderState, sessionId: string, body: Body)
    requires Indexed(s.messages, s.messageById) && body.ToolStarted?
    ensures SameShelf(StartTool(s, sessionId, NewTool(sessionId, body)),
                      WithMessage(s, sessionId, body.messageId, Assistant))
  {
    hide Indexed, ScopedId, WithMessage;
  }

  lemma ShelfRendered(s: RenderState, sessionId: string, body: Body)
    requires Indexed(s.messages, s.messageById)
    ensures var r := Render(s, sessionId, body);
            Shelf(r.messages, r.messageById) == ShelfAfter(Shelf(s.messages, s.messageById), sessionId, body)
  {
    hide Indexed, Render, WithMessage, EditMessageAt, StartTool, EditToolAt;
    Dispatched(s, sessionId, body);
    if body.ToolStarted? {
      StartedShelf(s, sessionId, body);
      CreatedShelf(s, sessionId, body);
      hide ShelfAfter;
    } else if body.MessageCreated? {
      CreatedShelf(s, sessionId, body);
      hide ShelfAfter;
    } else if IsMessageBody(body) {
      EditedShelf(s, sessionId, body);
      hide ShelfAfter;
    } else {
      OthersKeepShelf(s, sessionId, body);
    }
  }
}
