// The whole rendered chat of one session, field by field, as its numbered events tell it: each field
// is read back from the end of the list, without any of the reducer's own edits.
module ChatStories {
  import opened ChatEvents
  import opened ChatView
  import opened EventFields
  import opened EventReducer
  import opened Options

  // ---------------------------------------------------------------- tools

  /** The latest start of the tool: what it gives is what is shown, and its story begins anew there. */
  function LastStart(events: seq<ChatEvent>, id: string): (start: Option<Body>)
    ensures start.Some? ==> Starts(start.value, id)
    decreases |events|
  {
    if events == [] then None
    else
      var prior, body := events[..|events| - 1], events[|events| - 1].body;
      if Starts(body, id) then Some(body) else LastStart(prior, id)
  }

  function StatusTold(events: seq<ChatEvent>, id: string): ToolStatus
    decreases |events|
  {
    if events == [] then ToolRunning
    else
      var prior, body := events[..|events| - 1], events[|events| - 1].body;
      if Starts(body, id) then ToolRunning
      else if body.ToolFailed? && body.toolCallId == id then ToolHasFailed
      else if body.ToolCompleted? && body.toolCallId == id then if body.output.isError then ToolHasFailed else ToolDone
      else StatusTold(prior, id)
  }

  /** The chunks since the latest start, in order. */
  function ChunksTold(events: seq<ChatEvent>, id: string): seq<string>
    decreases |events|
  {
    if events == [] then []
    else
      var prior, body := events[..|events| - 1], events[|events| - 1].body;
      if Starts(body, id) then []
      else if body.ToolDelta? && body.toolCallId == id then ChunksTold(prior, id) + [body.chunk]
      else ChunksTold(prior, id)
  }

  function OutputTold(events: seq<ChatEvent>, id: string): Option<ToolOutput>
    decreases |events|
  {
    if events == [] then None
    else
      var prior, body := events[..|events| - 1], events[|events| - 1].body;
      if Starts(body, id) then None
      else if body.ToolCompleted? && body.toolCallId == id then Some(body.output)
      else OutputTold(prior, id)
  }

  function ErrorTold(events: seq<ChatEvent>, id: string): Option<string>
    decreases |events|
  {
    if events == [] then None
    else
      var prior, body := events[..|events| - 1], events[|events| - 1].body;
      if Starts(body, id) then None
      else if body.ToolFailed? && body.toolCallId == id then Some(body.error)
      else ErrorTold(prior, id)
  }

  function ToolOf(s: RenderState, sessionId: string, id: string): Option<RenderTool> {
    var key := ScopedId(sessionId, id);
    if key in s.tools then Some(s.tools[key]) else None
  }

  function ToolTold(events: seq<ChatEvent>, sessionId: string, id: string): Option<RenderTool> {
    match LastStart(events, id)
    case None => None
    case Some(start) =>
      Some(RenderTool(id, sessionId, start.messageId, start.name, start.input, StatusTold(events, id),
                      ChunksTold(events, id), OutputTold(events, id), ErrorTold(events, id)))
  }

  /** A tool is shown if an event started it, with what its latest start gave; status, chunks, output
      and error are those its own events have told since. */
  lemma {:induction false} ShownTool(events: seq<ChatEvent>, sessionId: string, start: int, id: string)
    requires Numbered(events, sessionId, start)
    ensures ToolOf(Fold(EMPTY, events), sessionId, id) == ToolTold(events, sessionId, id)
    decreases |events|
  {
    hide Indexed, Render, Numbered, ToolTold, ToolOf;
    EmptyIsIndexed();
    if events == [] {
      NoToolYet(sessionId, id);
    } else {
      var prior, e := events[..|events| - 1], events[|events| - 1];
      NumberedStep(events, sessionId, start);
      ShownTool(prior, sessionId, start, id);
      ToolRendered(Fold(EMPTY, prior), events, sessionId, id);
    }
  }

  lemma NoToolYet(sessionId: string, id: string)
    ensures ToolOf(Fold(EMPTY, []), sessionId, id) == ToolTold([], sessionId, id)
  {
  }

  lemma ToolRendered(s: RenderState, events: seq<ChatEvent>, sessionId: string, id: string)
    requires events != [] && Indexed(s.messages, s.messageById)
    requires ToolOf(s, sessionId, id) == ToolTold(events[..|events| - 1], sessionId, id)
    ensures var e := events[|events| - 1];
            ToolOf(Render(Admit(s, e), sessionId, e.body), sessionId, id) == ToolTold(events, sessionId, id)
  {
    hide Indexed, ScopedId, Render, RunsAfter, ThinkingAfter, SessionAfter;
    var e := events[|events| - 1];
    FieldsRendered(Admit(s, e), sessionId, e.body);
    if IsToolBody(e.body) {
      ScopedIdInjective(sessionId, e.body.toolCallId, id);
    }
  }

  // ---------------------------------------------------------------- runs, thinking, session

  function UsageTold(events: seq<ChatEvent>, runId: string): Option<string>
    decreases |events|
  {
    if events == [] then None
    else
      var prior, body := events[..|events| - 1], events[|events| - 1].body;
      if body.RunStarted? && body.runId == runId then None
      else if body.RunCompleted? && body.runId == runId then Some(body.usage)
      else UsageTold(prior, runId)
  }

  function RunErrorTold(events: seq<ChatEvent>, runId: string): Option<string>
    decreases |events|
  {
    if events == [] then None
    else
      var prior, body := events[..|events| - 1], events[|events| - 1].body;
      if body.RunStarted? && body.runId == runId then None
      else if body.RunFailed? && body.runId == runId then Some(body.error)
      else RunErrorTold(prior, runId)
  }

  function RunOf(s: RenderState, sessionId: string, runId: string): Option<RenderRun> {
    var key := ScopedId(sessionId, runId);
    if key in s.runs then Some(s.runs[key]) else None
  }

  function ThinkingOf(s: RenderState, sessionId: string, runId: string): Option<RenderThinking> {
    var key := ScopedId(sessionId, runId);
    if key in s.thinking then Some(s.thinking[key]) else None
  }

  function WholeRunTold(events: seq<ChatEvent>, sessionId: string, runId: string): Option<RenderRun> {
    var usage, error := UsageTold(events, runId), RunErrorTold(events, runId);
    match RunTold(events, runId).0
    case Unknown => None
    case InProgress => Some(RenderRun(runId, sessionId, RunRunning, usage, error))
    case Succeeded => Some(RenderRun(runId, sessionId, RunDone, usage, error))
    case HasFailed => Some(RenderRun(runId, sessionId, RunHasFailed, usage, error))
  }

  function WholeThinkingTold(events: seq<ChatEvent>, sessionId: string, runId: string): Option<RenderThinking> {
    match RunTold(events, runId).1
    case NoThought => None
    case Thought(completed, text) => Some(RenderThinking(runId, sessionId, completed, text))
  }

  /** A run and its thinking are shown, whole, as their own events have told them. */
  lemma {:induction false} ShownRun(events: seq<ChatEvent>, sessionId: string, start: int, runId: string)
    requires Numbered(events, sessionId, start)
    ensures RunOf(Fold(EMPTY, events), sessionId, runId) == WholeRunTold(events, sessionId, runId)
    ensures ThinkingOf(Fold(EMPTY, events), sessionId, runId) == WholeThinkingTold(events, sessionId, runId)
    decreases |events|
  {
    hide Indexed, Render, Numbered, WholeRunTold, RunOf, WholeThinkingTold, ThinkingOf;
    EmptyIsIndexed();
    if events == [] {
      NoRunYet(sessionId, runId);
    } else {
      var prior, e := events[..|events| - 1], events[|events| - 1];
      NumberedStep(events, sessionId, start);
      ShownRun(prior, sessionId, start, runId);
      RunRendered(Fold(EMPTY, prior), events, sessionId, runId);
      ThinkingRendered(Fold(EMPTY, prior), events, sessionId, runId);
    }
  }

  lemma NoRunYet(sessionId: string, runId: string)
    ensures RunOf(Fold(EMPTY, []), sessionId, runId) == WholeRunTold([], sessionId, runId)
    ensures ThinkingOf(Fold(EMPTY, []), sessionId, runId) == WholeThinkingTold([], sessionId, runId)
  {
  }

  lemma RunRendered(s: RenderState, events: seq<ChatEvent>, sessionId: string, runId: string)
    requires events != [] && Indexed(s.messages, s.messageById)
    requires RunOf(s, sessionId, runId) == WholeRunTold(events[..|events| - 1], sessionId, runId)
    ensures var e := events[|events| - 1];
            RunOf(Render(Admit(s, e), sessionId, e.body), sessionId, runId) == WholeRunTold(events, sessionId, runId)
  {
    hide Indexed, ScopedId, Render, ToolsAfter, ThinkingAfter, SessionAfter, ThoughtAfter;
    var e := events[|events| - 1];
    FieldsRendered(Admit(s, e), sessionId, e.body);
    if IsRunBody(e.body) {
      ScopedIdInjective(sessionId, e.body.runId, runId);
    }
  }

  lemma ThinkingRendered(s: RenderState, events: seq<ChatEvent>, sessionId: string, runId: string)
    requires events != [] && Indexed(s.messages, s.messageById)
    requires ThinkingOf(s, sessionId, runId) == WholeThinkingTold(events[..|events| - 1], sessionId, runId)
    ensures var e := events[|events| - 1];
            ThinkingOf(Render(Admit(s, e), sessionId, e.body), sessionId, runId)
            == WholeThinkingTold(events, sessionId, runId)
  {
    hide Indexed, ScopedId, Render, ToolsAfter, RunsAfter, SessionAfter, ProgressAfter;
    var e := events[|events| - 1];
    FieldsRendered(Admit(s, e), sessionId, e.body);
    if e.body.ThinkingDelta? || e.body.ThinkingCompleted? {
      ScopedIdInjective(sessionId, e.body.runId, runId);
    }
  }

  predicate IsNamed(events: seq<ChatEvent>) {
    exists i :: 0 <= i < |events| && (events[i].body.RunStarted? || events[i].body.SessionUpdated?)
  }

  /** The latest update of the session: its title and its time. */
  function LastUpdate(events: seq<ChatEvent>): (Option<string>, Option<string>)
    decreases |events|
  {
    if events == [] then (None, None)
    else
      var prior, body := events[..|events| - 1], events[|events| - 1].body;
      if body.SessionUpdated? then (body.title, Some(body.updatedAt)) else LastUpdate(prior)
  }

  function SessionTold(events: seq<ChatEvent>, sessionId: string): Option<Session> {
    if IsNamed(events) then Some(Session(sessionId, LastUpdate(events).0, LastUpdate(events).1)) else None
  }

  /** The session is known from the first run or update on, and a run keeps the title of the last update. */
  lemma {:induction false} ShownSession(events: seq<ChatEvent>, sessionId: string, start: int)
    requires Numbered(events, sessionId, start)
    ensures Fold(EMPTY, events).session == SessionTold(events, sessionId)
    decreases |events|
  {
    hide Indexed, Render, Numbered, SessionTold;
    EmptyIsIndexed();
    if events == [] {
      NoSessionYet(sessionId);
    } else {
      var prior, e := events[..|events| - 1], events[|events| - 1];
      NumberedStep(events, sessionId, start);
      ShownSession(prior, sessionId, start);
      SessionRendered(Fold(EMPTY, prior), events, sessionId);
    }
  }

  lemma NoSessionYet(sessionId: string)
    ensures Fold(EMPTY, []).session == SessionTold([], sessionId)
  {
  }

  lemma SessionRendered(s: RenderState, events: seq<ChatEvent>, sessionId: string)
    requires events != [] && Indexed(s.messages, s.messageById)
    requires s.session == SessionTold(events[..|events| - 1], sessionId)
    ensures var e := events[|events| - 1];
            Render(Admit(s, e), sessionId, e.body).session == SessionTold(events, sessionId)
  {
    hide Indexed, ScopedId, Render, ToolsAfter, RunsAfter, ThinkingAfter;
    var prior, e := events[..|events| - 1], events[|events| - 1];
    FieldsRendered(Admit(s, e), sessionId, e.body);
    NamedAppend(events);
    UnnamedHasNoUpdate(prior);
    hide IsNamed;
  }

  lemma NamedAppend(events: seq<ChatEvent>)
    requires events != []
    ensures var prior, body := events[..|events| - 1], events[|events| - 1].body;
            IsNamed(events) <==> body.RunStarted? || body.SessionUpdated? || IsNamed(prior)
  {
    var prior := events[..|events| - 1];
    assert forall i :: 0 <= i < |prior| ==> prior[i] == events[i];
  }

  lemma {:induction false} UnnamedHasNoUpdate(events: seq<ChatEvent>)
    ensures !IsNamed(events) ==> LastUpdate(events) == (None, None)
    decreases |events|
  {
    if events != [] {
      NamedAppend(events);
      UnnamedHasNoUpdate(events[..|events| - 1]);
      hide IsNamed;
    }
  }

  // ---------------------------------------------------------------- messages

  predicate Mentions(body: Body) {
    body.MessageCreated? || body.MessageDelta? || body.MessageCompleted? || body.CustomMessage? || body.ToolStarted?
  }

  /** The ids of the messages, each at its first mention. */
  function Mentioned(events: seq<ChatEvent>): seq<string>
    decreases |events|
  {
    if events == [] then []
    else
      var ids, body := Mentioned(events[..|events| - 1]), events[|events| - 1].body;
      if Mentions(body) && body.messageId !in ids then ids + [body.messageId] else ids
  }

  /** The role is given by the first mention, and is the assistant's unless the message is created with it. */
  function RoleTold(events: seq<ChatEvent>, id: string): Option<Role>
    decreases |events|
  {
    if events == [] then None
    else
      var before, body := RoleTold(events[..|events| - 1], id), events[|events| - 1].body;
      if before.None? && Mentions(body) && body.messageId == id
      then Some(if body.MessageCreated? then body.role else Assistant)
      else before
  }

  function ContentTold(events: seq<ChatEvent>, id: string): seq<Content>
    decreases |events|
  {
    if events == [] then []
    else
      var prior, body := events[..|events| - 1], events[|events| - 1].body;
      if Closes(body, id) then body.content
      else if Streams(body, id) then
        var before := ShownBy(prior, id);
        [TextPart((if before.Present? then before.text else "") + body.text)]
      else ContentTold(prior, id)
  }

  function AttachmentsTold(events: seq<ChatEvent>, id: string): Option<seq<Attachment>>
    decreases |events|
  {
    if events == [] then None
    else
      var prior, body := events[..|events| - 1], events[|events| - 1].body;
      if body.MessageCompleted? && body.messageId == id then body.attachments else AttachmentsTold(prior, id)
  }

  /** The latest custom message of this id: its type and its details. */
  function CustomTold(events: seq<ChatEvent>, id: string): (Option<string>, Option<Details>)
    decreases |events|
  {
    if events == [] then (None, None)
    else
      var prior, body := events[..|events| - 1], events[|events| - 1].body;
      if body.CustomMessage? && body.messageId == id then (Some(body.customType), Some(body.details))
      else CustomTold(prior, id)
  }

  function MessageTold(events: seq<ChatEvent>, sessionId: string, id: string): Option<RenderMessage> {
    match (RoleTold(events, id), ShownBy(events, id))
    case (Some(role), Present(completed, text)) =>
      Some(RenderMessage(id, sessionId, role, completed, ContentTold(events, id), text, AttachmentsTold(events, id),
                         CustomTold(events, id).0, CustomTold(events, id).1))
    case _ => None
  }

  /** What an event does to the message of this id, in terms of the message before. */
  lemma MessageRendered(s: RenderState, sessionId: string, body: Body, id: string)
    requires Indexed(s.messages, s.messageById)
    ensures var m := MessageOf(s, sessionId, id);
            var m' := MessageOf(Render(s, sessionId, body), sessionId, id);
            if !Mentions(body) || body.messageId != id then m' == m
            else if m.Some? then m' == Some(EditMessage(m.value, body))
            else m' == Some(EditMessage(BlankMessage(sessionId, body), body))
  {
    hide Indexed, Render, WithMessage, EditMessageAt, StartTool, EditToolAt, MessageOf, SameShelf, SessionAfter,
         ScopedId;
    Dispatched(s, sessionId, body);
    if body.ToolStarted? {
      StartedShelf(s, sessionId, body);
      SameShelfShows(Render(s, sessionId, body), WithMessage(s, sessionId, body.messageId, Assistant),
                     sessionId, id);
      WithMessageShows(s, sessionId, body.messageId, Assistant, id);
    } else if body.MessageCreated? {
      WithMessageShows(s, sessionId, body.messageId, body.role, id);
    } else if IsMessageBody(body) {
      EditMessageShows(s, sessionId, body.messageId, body, id);
    } else {
      OthersKeepShelf(s, sessionId, body);
      SameShelfShows(Render(s, sessionId, body), s, sessionId, id);
    }
  }

  /** A message without a mention has no story, and one with a mention is shown. */
  lemma {:induction false} UntoldMessage(events: seq<ChatEvent>, id: string)
    ensures RoleTold(events, id).None? <==> ShownBy(events, id).Absent?
    ensures RoleTold(events, id).None? ==>
              ContentTold(events, id) == [] && AttachmentsTold(events, id).None? &&
                CustomTold(events, id) == (None, None)
    decreases |events|
  {
    if events != [] {
      UntoldMessage(events[..|events| - 1], id);
    }
  }

  lemma MessageStep(s: RenderState, events: seq<ChatEvent>, sessionId: string, id: string)
    requires events != [] && Indexed(s.messages, s.messageById)
    requires MessageOf(s, sessionId, id) == MessageTold(events[..|events| - 1], sessionId, id)
    ensures MessageOf(Render(s, sessionId, events[|events| - 1].body), sessionId, id)
            == MessageTold(events, sessionId, id)
  {
    hide Indexed, Render, MessageOf, ScopedId, ContentText;
    UntoldMessage(events[..|events| - 1], id);
    MessageRendered(s, sessionId, events[|events| - 1].body, id);
  }

  /** A message is shown from its first mention on, whole, as its own events have told it. */
  lemma {:induction false} ShownMessage(events: seq<ChatEvent>, sessionId: string, start: int, id: string)
    requires Numbered(events, sessionId, start)
    ensures MessageOf(Fold(EMPTY, events), sessionId, id) == MessageTold(events, sessionId, id)
    decreases |events|
  {
    hide Indexed, Render, Numbered, MessageOf, MessageTold;
    EmptyIsIndexed();
    if events == [] {
      NoMessageYet(sessionId, id);
    } else {
      var prior, e := events[..|events| - 1], events[|events| - 1];
      NumberedStep(events, sessionId, start);
      ShownMessage(prior, sessionId, start, id);
      AdmitKeepsMessages(Fold(EMPTY, prior), e, sessionId, id);
      MessageStep(Admit(Fold(EMPTY, prior), e), events, sessionId, id);
    }
  }

  lemma NoMessageYet(sessionId: string, id: string)
    ensures MessageOf(Fold(EMPTY, []), sessionId, id) == MessageTold([], sessionId, id)
  {
  }

  predicate InOrder(messages: seq<RenderMessage>, sessionId: string, ids: seq<string>) {
    |messages| == |ids| && forall i :: 0 <= i < |ids| ==> messages[i].id == ids[i] && messages[i].sessionId == sessionId
  }

  lemma EditKeepsId(m: RenderMessage, body: Body)
    ensures EditMessage(m, body).id == m.id && EditMessage(m, body).sessionId == m.sessionId
  {
    hide ContentText;
  }

  lemma OrderStep(s: RenderState, sessionId: string, body: Body, ids: seq<string>)
    requires Indexed(s.messages, s.messageById) && InOrder(s.messages, sessionId, ids)
    ensures InOrder(Render(s, sessionId, body).messages, sessionId,
                    if Mentions(body) && body.messageId !in ids then ids + [body.messageId] else ids)
  {
    hide Render, ScopedId, EditMessage, NewMessage, Indexed;
    ShelfRendered(s, sessionId, body);
    if Mentions(body) {
      KeyIsMentioned(s, sessionId, body.messageId, ids);
      var key := ScopedId(sessionId, body.messageId);
      if key in s.messageById {
        IndexIsBelow(s, key);
        EditKeepsId(s.messages[s.messageById[key]], body);
      } else {
        BlankMessageId(sessionId, body);
        EditKeepsId(BlankMessage(sessionId, body), body);
      }
    }
  }

  lemma IndexIsBelow(s: RenderState, key: string)
    requires Indexed(s.messages, s.messageById) && key in s.messageById
    ensures s.messageById[key] < |s.messages|
  {
  }

  lemma BlankMessageId(sessionId: string, body: Body)
    requires Mentions(body)
    ensures BlankMessage(sessionId, body).id == body.messageId && BlankMessage(sessionId, body).sessionId == sessionId
  {
  }

  lemma KeyIsMentioned(s: RenderState, sessionId: string, id: string, ids: seq<string>)
    requires Indexed(s.messages, s.messageById) && InOrder(s.messages, sessionId, ids)
    ensures ScopedId(sessionId, id) in s.messageById <==> id in ids
  {
    hide ScopedId;
    if ScopedId(sessionId, id) in s.messageById {
      ScopedIdInjective(sessionId, ids[s.messageById[ScopedId(sessionId, id)]], id);
    }
    if id in ids {
      var i :| 0 <= i < |ids| && ids[i] == id;
      assert Key(s.messages[i]) == ScopedId(sessionId, id);
    }
  }

  lemma {:induction false} MessageOrder(events: seq<ChatEvent>, sessionId: string, start: int)
    requires Numbered(events, sessionId, start)
    ensures InOrder(Fold(EMPTY, events).messages, sessionId, Mentioned(events))
    decreases |events|
  {
    hide Indexed, Render, Numbered, InOrder;
    EmptyIsIndexed();
    if events == [] {
      assert InOrder(EMPTY.messages, sessionId, []) by { NothingInOrder(sessionId); }
    } else {
      var prior, e := events[..|events| - 1], events[|events| - 1];
      NumberedStep(events, sessionId, start);
      MessageOrder(prior, sessionId, start);
      OrderStep(Admit(Fold(EMPTY, prior), e), sessionId, e.body, Mentioned(prior));
    }
  }

  lemma NothingInOrder(sessionId: string)
    ensures InOrder([], sessionId, [])
  {
  }

  /** The chat shows one message for each mentioned id, in the order of their first mention, each whole
      as its own events have told it. */
  lemma ShownMessageList(events: seq<ChatEvent>, sessionId: string, start: int)
    requires Numbered(events, sessionId, start)
    ensures var messages, ids := Fold(EMPTY, events).messages, Mentioned(events);
            |messages| == |ids| &&
            forall i :: 0 <= i < |ids| ==> Some(messages[i]) == MessageTold(events, sessionId, ids[i])
  {
    hide Render, Numbered, ScopedId, MessageTold, Apply;
    EmptyIsIndexed();
    MessageOrder(events, sessionId, start);
    var s, ids := Fold(EMPTY, events), Mentioned(events);
    forall i | 0 <= i < |ids| ensures Some(s.messages[i]) == MessageTold(events, sessionId, ids[i]) {
      ShownMessage(events, sessionId, start, ids[i]);
      assert Key(s.messages[i]) == ScopedId(sessionId, ids[i]);
    }
  }

  // ---------------------------------------------------------------- numbers and gaps, any sessions

  /** The highest number so far, of one session or of all. */
  function Highest(events: seq<ChatEvent>, sessionId: Option<string>): (highest: nat)
    decreases |events|
  {
    if events == [] then 0
    else
      var before, e := Highest(events[..|events| - 1], sessionId), events[|events| - 1];
      if (sessionId == None || sessionId == Some(e.sessionId)) && e.seqNo > before then e.seqNo else before
  }

  /** A gap is told where an event skips numbers behind the highest of its session. */
  function GapsTold(events: seq<ChatEvent>): seq<Gap>
    decreases |events|
  {
    if events == [] then []
    else
      var prior, e := events[..|events| - 1], events[|events| - 1];
      var highest := Highest(prior, Some(e.sessionId));
      GapsTold(prior) + if 0 < highest && highest + 1 < e.seqNo then [Gap(highest + 1, e.seqNo)] else []
  }

  ghost predicate NumbersTold(s: RenderState, events: seq<ChatEvent>) {
    && s.gaps == GapsTold(events) && s.lastSeq == Highest(events, None)
    && (forall id :: LastSeqOf(s, id) == Highest(events, Some(id)))
    && (forall k :: k in s.seenSeq ==> k.1 <= Highest(events, Some(k.0)) && k.1 <= Highest(events, None))
  }

  lemma NumbersStep(s: RenderState, prior: seq<ChatEvent>, e: ChatEvent)
    requires NumbersTold(s, prior)
    ensures NumbersTold(if EventKey(e) in s.seenSeq then s else Admit(s, e), prior + [e])
  {
    hide GapsTold;
    HighestStep(prior, e);
    GapsStep(prior, e);
  }

  lemma HighestStep(prior: seq<ChatEvent>, e: ChatEvent)
    ensures forall id :: var before := Highest(prior, id);
            Highest(prior + [e], id) ==
            if (id == None || id == Some(e.sessionId)) && e.seqNo > before then e.seqNo else before
  {
    assert (prior + [e])[..|prior|] == prior;
  }

  lemma GapsStep(prior: seq<ChatEvent>, e: ChatEvent)
    ensures var highest := Highest(prior, Some(e.sessionId));
            GapsTold(prior + [e])
            == GapsTold(prior) + if 0 < highest && highest + 1 < e.seqNo then [Gap(highest + 1, e.seqNo)] else []
  {
    hide Highest;
    var events := prior + [e];
    assert events[..|events| - 1] == prior && events[|events| - 1] == e;
  }

  /** Whatever the sessions and the order of the events: the highest numbers and the gaps are told by
      the numbers alone, and repeated events tell nothing. */
  lemma {:induction false} ShownGaps(events: seq<ChatEvent>)
    ensures NumbersTold(Fold(EMPTY, events), events)
    decreases |events|
  {
    hide Indexed, Render, NumbersTold;
    EmptyIsIndexed();
    if events == [] {
      NoNumbersYet();
    } else {
      var prior, e := events[..|events| - 1], events[|events| - 1];
      assert events == prior + [e];
      ShownGaps(prior);
      var s := Fold(EMPTY, prior);
      FoldAppend(EMPTY, prior, e);
      NumbersStep(s, prior, e);
      hide EventKey;
      if EventKey(e) !in s.seenSeq {
        NumbersRendered(Admit(s, e), e.sessionId, e.body, events);
      }
    }
  }

  lemma NoNumbersYet()
    ensures NumbersTold(Fold(EMPTY, []), [])
  {
  }

  lemma NumbersRendered(s: RenderState, sessionId: string, body: Body, events: seq<ChatEvent>)
    requires Indexed(s.messages, s.messageById) && NumbersTold(s, events)
    ensures NumbersTold(Render(s, sessionId, body), events)
  {
    hide Indexed, Render, ToolsAfter, RunsAfter, ThinkingAfter, SessionAfter, Highest, GapsTold;
    FieldsRendered(s, sessionId, body);
  }
}
