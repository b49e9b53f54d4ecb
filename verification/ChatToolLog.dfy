// The tools of a reloaded chat, each read off the session log alone: what the log last says of its id.
module ChatToolLog {
  import opened ChatComposition
  import opened ChatEvents
  import opened ChatProjection
  import opened ChatStories
  import opened ChatTranscript
  import opened ChatView
  import opened EventFields
  import opened EventReducer
  import opened Options
  import opened SessionLog

  const MISSING_RESULT :=
    "Tool call did not finish. The run may have been interrupted before OpenCandle received a tool result."

  // ---------------------------------------------------------------- what the log says

  /** The call of this id in a shown reply, the last one if there are several. */
  function LastCall(parts: seq<Part>, id: string): (call: Option<Part>)
    ensures call.Some? ==> call.value.CallBlock? && call.value.id == id
    decreases |parts|
  {
    if parts == [] then None
    else
      var part := parts[|parts| - 1];
      if part.CallBlock? && part.id == id then Some(part) else LastCall(parts[..|parts| - 1], id)
  }

  /** A reply shows its calls unless it ended in an error that is not a Stop of the user. */
  function CallIn(stopped: set<string>, e: Entry, id: string): (call: Option<Part>)
    ensures call.Some? ==> e.AssistantEntry? && call.value.CallBlock? && call.value.id == id
  {
    if e.AssistantEntry? && (e.stop.ErrorStop? ==> e.id in stopped) then LastCall(e.parts, id) else None
  }

  /** A result belongs to the call it names; without a name its entry stands for the call. */
  predicate Answers(e: Entry, id: string) {
    e.ToolResultEntry? && id == if e.toolCallId == "" then "tool-" + e.id else e.toolCallId
  }

  predicate Answered(entries: seq<Entry>, id: string) {
    exists i :: 0 <= i < |entries| && Answers(entries[i], id)
  }

  predicate Called(stopped: set<string>, entries: seq<Entry>, id: string) {
    exists i :: 0 <= i < |entries| && CallIn(stopped, entries[i], id).Some?
  }

  /** A call starts its tool anew. */
  function Begun(sessionId: string, messageId: string, call: Option<Part>,
      before: Option<RenderTool>): Option<RenderTool>
    requires call.Some? ==> call.value.CallBlock?
  {
    if call.None? then before
    else Some(RenderTool(call.value.id, sessionId, messageId, call.value.name, call.value.arguments, ToolRunning, [],
                         None, None))
  }

  /** A result starts the tool if the log has not shown its call. */
  function Ended(sessionId: string, e: Entry, id: string, called: bool, before: Option<RenderTool>): Option<RenderTool>
    requires e.ToolResultEntry?
  {
    var named := if e.toolName == "" then "tool" else e.toolName;
    var t := if called && before.Some? then before.value
             else RenderTool(id, sessionId, e.id, named, e.input, ToolRunning, [], None, None);
    if e.isError then Some(t.(status := ToolHasFailed, error := Some(e.text)))
    else Some(t.(status := ToolDone, output := Some(ToolOutput(e.output, false))))
  }

  /** The tool as the log tells it, from its first entry to its last. */
  function Logged(stopped: set<string>, entries: seq<Entry>, sessionId: string, id: string): Option<RenderTool>
    decreases |entries|
  {
    if entries == [] then None
    else
      var prior, e := entries[..|entries| - 1], entries[|entries| - 1];
      var before := Logged(stopped, prior, sessionId, id);
      if Answers(e, id) then Ended(sessionId, e, id, Called(stopped, prior, id), before)
      else Begun(sessionId, e.id, CallIn(stopped, e, id), before)
  }

  /** In the end, a call that no result ever answered is marked as failed. */
  function Marked(tool: Option<RenderTool>, mark: bool): Option<RenderTool> {
    if mark && tool.Some? then
      Some(tool.value.(status := ToolHasFailed, error := Some(MISSING_RESULT)))
    else tool
  }

  // ---------------------------------------------------------------- one pushed event

  lemma ToldAppend(events: seq<ChatEvent>, e: ChatEvent, sessionId: string, id: string)
    ensures var before, after := ToolTold(events, sessionId, id), ToolTold(events + [e], sessionId, id);
            && (!IsToolBody(e.body) || e.body.toolCallId != id ==> after == before)
            && (Starts(e.body, id) ==>
                after == Some(RenderTool(id, sessionId, e.body.messageId, e.body.name, e.body.input, ToolRunning, [],
                                         None, None)))
            && (e.body.ToolCompleted? && e.body.toolCallId == id && before.Some? ==>
                after == Some(before.value.(status := if e.body.output.isError then ToolHasFailed else ToolDone,
                                            output := Some(e.body.output))))
            && (e.body.ToolFailed? && e.body.toolCallId == id && before.Some? ==>
                after == Some(before.value.(status := ToolHasFailed, error := Some(e.body.error))))
            && (before.None? && !Starts(e.body, id) ==> after.None?)
  {
    var all := events + [e];
    assert all[..|all| - 1] == events && all[|all| - 1] == e;
  }

  ghost predicate SameStory(a: seq<ChatEvent>, b: seq<ChatEvent>, id: string) {
    && LastStart(a, id) == LastStart(b, id) && StatusTold(a, id) == StatusTold(b, id)
    && ChunksTold(a, id) == ChunksTold(b, id)
    && OutputTold(a, id) == OutputTold(b, id) && ErrorTold(a, id) == ErrorTold(b, id)
  }

  lemma StoryStep(a: seq<ChatEvent>, b: seq<ChatEvent>, id: string)
    requires a != [] && b != [] && SameStory(a[..|a| - 1], b[..|b| - 1], id)
    requires var d, e := a[|a| - 1], b[|b| - 1]; d == e || (!IsToolBody(d.body) && !IsToolBody(e.body))
    ensures SameStory(a, b, id)
  {
  }

  lemma {:induction false} StoryPatched(events: seq<ChatEvent>, k: nat, e: ChatEvent, id: string)
    requires k < |events| && !IsToolBody(events[k].body) && !IsToolBody(e.body)
    ensures SameStory(events[k := e], events, id)
    decreases |events|
  {
    hide SameStory;
    var last := |events| - 1;
    var prior := events[..last];
    if k == last {
      SameStoryHolds(prior, id);
      assert events[k := e][..last] == prior;
    } else {
      StoryPatched(prior, k, e, id);
      assert events[k := e][..last] == prior[k := e];
    }
    StoryStep(events[k := e], events, id);
  }

  lemma SameStoryHolds(events: seq<ChatEvent>, id: string)
    ensures SameStory(events, events, id)
  {
  }

  // ---------------------------------------------------------------- the entries that say nothing of tools

  /** What is told of the tool so far. */
  function Tool(c: Context, p: Projector, id: string): Option<RenderTool> {
    ToolTold(p.events, c.sessionId, id)
  }

  lemma PushTells(c: Context, p: Projector, body: Body, id: string)
    ensures var before, after := Tool(c, p, id), Tool(c, Push(c, p, body), id);
            && (!IsToolBody(body) || body.toolCallId != id ==> after == before)
            && (Starts(body, id) ==>
                after == Some(RenderTool(id, c.sessionId, body.messageId, body.name, body.input, ToolRunning, [],
                                         None, None)))
            && (body.ToolCompleted? && body.toolCallId == id && before.Some? ==>
                after == Some(before.value.(status := if body.output.isError then ToolHasFailed else ToolDone,
                                            output := Some(body.output))))
            && (body.ToolFailed? && body.toolCallId == id && before.Some? ==>
                after == Some(before.value.(status := ToolHasFailed, error := Some(body.error))))
            && (before.None? && !Starts(body, id) ==> after.None?)
  {
    ToldAppend(p.events, ChatEvent(c.sessionId, p.seqNo, body), c.sessionId, id);
  }

  lemma UserInputTells(c: Context, p: Projector, e: Entry, start: int, id: string)
    requires e.UserInputEntry? && Shaped(c, p, start)
    ensures Tool(c, OnUserInput(p, e), id) == Tool(c, p, id)
  {
    hide UserContent, OriginalInputText, LastStart, StatusTold, ChunksTold, OutputTold, ErrorTold;
    if p.afterUser {
      var k := p.lastUser.value;
      StoryPatched(p.events, k, OnUserInput(p, e).events[k], id);
    }
  }

  lemma UserTells(c: Context, p: Projector, e: Entry, id: string)
    requires e.UserEntry?
    ensures Tool(c, OnUser(c, p, e), id) == Tool(c, p, id)
  {
    hide UserContent, StringField, MessageText, Chips, ToolTold;
    var turn := p.(notice := false);
    var created := Push(c, turn, MessageCreated(e.id, User));
    PushTells(c, turn, MessageCreated(e.id, User), id);
    PushTells(c, created, MessageCompleted(e.id, UserContent(e.content, p.original), Chips(p.attachments)), id);
    if e.id in c.steps {
      var told := if c.steps[e.id].preserveUserTurn then PushUser(c, turn, e) else turn.(afterUser := false);
      PushTells(c, told, CustomMessage(WorkflowStepId(e.id), "opencandle-workflow-step", UserContent(e.content, None),
                                       Step(c.steps[e.id])), id);
    }
  }

  lemma RunCancelledTells(c: Context, p: Projector, e: Entry, id: string)
    requires e.RunCancelledEntry?
    ensures Tool(c, OnRunCancelled(c, p, e), id) == Tool(c, p, id)
  {
    hide StringField, Chips, ToolTold;
    var text := if p.original.Some? then p.original else StringField(e.text);
    var cleared := p.(original := None, attachments := [], afterUser := false);
    if text.Some? {
      var created := MessageCreated(CancelledUserId(e.id), User);
      PushTells(c, cleared, created, id);
      PushTells(c, Push(c, cleared, created),
                MessageCompleted(CancelledUserId(e.id), [TextPart(text.value)], Chips(p.attachments)), id);
    }
    var told := if text.Some? then PushCancelledUser(c, cleared, e.id, text.value, p.attachments) else cleared;
    PushTells(c, told, CustomMessage(e.id, RUN_CANCELLED, [TextPart(RUN_STOPPED_EARLY)], Cancelled(e.data, text)), id);
  }

  lemma NoticeTells(c: Context, p: Projector, e: Entry, id: string)
    requires e.CustomMessageEntry? || e.RunStoppedEntry?
    ensures Tool(c, OnEntry(c, p, e), id) == Tool(c, p, id)
  {
    hide StringField, ToolTold;
    var after := OnEntry(c, p, e);
    if |after.events| > |p.events| {
      PushTells(c, p, after.events[|p.events|].body, id);
    }
  }

  lemma QuietEntryTells(c: Context, p: Projector, e: Entry, start: int, id: string)
    requires Shaped(c, p, start) && !e.AssistantEntry? && !e.ToolResultEntry?
    ensures Tool(c, OnEntry(c, p, e), id) == Tool(c, p, id)
  {
    hide Shaped, ToolTold, OnUserInput, OnUser, OnRunCancelled, OnCustomMessage, OnRunStopped;
    if e.UserInputEntry? {
      UserInputTells(c, p, e, start, id);
    } else if e.UserEntry? {
      UserTells(c, p, e, id);
    } else if e.RunCancelledEntry? {
      RunCancelledTells(c, p, e, id);
    } else if e.CustomMessageEntry? || e.RunStoppedEntry? {
      NoticeTells(c, p, e, id);
    }
  }

  // ---------------------------------------------------------------- replies and results

  lemma {:induction false} CallsTell(c: Context, p: Projector, messageId: string, parts: seq<Part>, id: string)
    ensures Tool(c, PushCalls(c, p, messageId, parts), id)
            == Begun(c.sessionId, messageId, LastCall(parts, id), Tool(c, p, id))
    decreases |parts|
  {
    hide ToolTold, PutPending;
    if parts != [] {
      var prior, part := parts[..|parts| - 1], parts[|parts| - 1];
      CallsTell(c, p, messageId, prior, id);
      if part.CallBlock? {
        var q := PushCalls(c, p, messageId, prior);
        PushTells(c, q.(seen := q.seen + {part.id}, pending := PutPending(q.pending, part.id, part.name)),
                  ToolStarted(part.id, messageId, part.name, part.arguments), id);
      }
    }
  }

  lemma AnswerTells(c: Context, p: Projector, e: Entry, id: string)
    requires e.AssistantEntry?
    ensures Tool(c, PushAnswer(c, p, e), id) == Begun(c.sessionId, e.id, LastCall(e.parts, id), Tool(c, p, id))
  {
    hide ToolTold, AssistantContent, PushCalls, Begun;
    var created := Push(c, p, MessageCreated(e.id, Assistant));
    PushTells(c, p, MessageCreated(e.id, Assistant), id);
    CallsTell(c, created, e.id, e.parts, id);
    PushTells(c, PushCalls(c, created, e.id, e.parts), MessageCompleted(e.id, AssistantContent(e.parts), None), id);
  }

  lemma StoppedTells(c: Context, p: Projector, e: Entry, partial: bool, id: string)
    ensures Tool(c, PushStopped(c, p, e, partial), id) == Tool(c, p, id)
  {
    hide ToolTold;
    var after := PushStopped(c, p, e, partial);
    PushTells(c, p, after.events[|p.events|].body, id);
  }

  lemma {:induction false} InvisibleHasNoCall(parts: seq<Part>, id: string)
    requires !HasVisibleContent(parts)
    ensures LastCall(parts, id).None?
    decreases |parts|
  {
    if parts != [] {
      var prior := parts[..|parts| - 1];
      assert forall i :: 0 <= i < |prior| ==> prior[i] == parts[i];
      assert !VisiblePart(parts[|parts| - 1]);
      InvisibleHasNoCall(prior, id);
    }
  }

  lemma ReplyTells(c: Context, p: Projector, e: Entry, id: string)
    requires e.AssistantEntry?
    ensures Tool(c, OnAssistant(c, p, e), id)
            == Begun(c.sessionId, e.id, CallIn(c.userStopped.Keys, e, id), Tool(c, p, id))
  {
    hide ToolTold, PushAnswer, PushStopped, HasVisibleContent, LastCall;
    var q := p.(afterUser := false);
    if ShownAsFailure(c, e) {
      PushTells(c, q.(notice := true),
                CustomMessage(ModelErrorId(e.id), MODEL_RUN_FAILED, [TextPart(FailureText(e.stop))],
                              ModelFailure(e.provider, e.model, p.retryPrompt)), id);
    } else if ShownAsStopped(c, e) && !HasVisibleContent(e.parts) {
      InvisibleHasNoCall(e.parts, id);
      StoppedTells(c, q, e, false, id);
    } else {
      AnswerTells(c, q, e, id);
      StoppedTells(c, PushAnswer(c, q, e), e, true, id);
    }
  }

  lemma ResultTells(c: Context, p: Projector, e: Entry, id: string)
    requires e.ToolResultEntry? && (id in p.seen ==> Tool(c, p, id).Some?)
    ensures Tool(c, OnToolResult(c, p, e), id)
            == if Answers(e, id) then Ended(c.sessionId, e, id, id in p.seen, Tool(c, p, id)) else Tool(c, p, id)
  {
    hide ToolTold, DropPending;
    var rid := ResultId(e);
    var q := p.(afterUser := false, resolved := p.resolved + {rid}, pending := DropPending(p.pending, rid));
    var start := ToolStarted(rid, e.id, if e.toolName != "" then e.toolName else "tool", e.input);
    PushTells(c, q, start, id);
    PushTells(c, Push(c, q, start), ResultBody(e), id);
    PushTells(c, q, ResultBody(e), id);
  }

  // ---------------------------------------------------------------- the whole log

  lemma {:induction false} CallsOfMeaning(parts: seq<Part>, id: string)
    ensures CallOp(id) in CallsOf(parts) <==> LastCall(parts, id).Some?
    ensures ResultOp(id) !in CallsOf(parts)
    decreases |parts|
  {
    if parts != [] {
      CallsOfMeaning(parts[..|parts| - 1], id);
    }
  }

  lemma EntryOpsMeaning(c: Context, e: Entry, id: string)
    ensures CallOp(id) in EntryOps(c, e) <==> CallIn(c.userStopped.Keys, e, id).Some?
    ensures ResultOp(id) in EntryOps(c, e) <==> Answers(e, id)
  {
    hide CallsOf, LastCall;
    if e.AssistantEntry? {
      CallsOfMeaning(e.parts, id);
    }
  }

  lemma SaidAppend(stopped: set<string>, entries: seq<Entry>, id: string)
    requires entries != []
    ensures var prior, e := entries[..|entries| - 1], entries[|entries| - 1];
            (Called(stopped, entries, id) <==> Called(stopped, prior, id) || CallIn(stopped, e, id).Some?) &&
            (Answered(entries, id) <==> Answered(prior, id) || Answers(e, id))
  {
    hide CallIn, Answers;
    var prior := entries[..|entries| - 1];
    assert forall i :: 0 <= i < |prior| ==> prior[i] == entries[i];
  }

  lemma {:induction false} OpsMeaning(c: Context, entries: seq<Entry>, id: string)
    ensures CallOp(id) in Ops(c, entries) <==> Called(c.userStopped.Keys, entries, id)
    ensures ResultOp(id) in Ops(c, entries) <==> Answered(entries, id)
    decreases |entries|
  {
    if entries != [] {
      OpsMeaning(c, entries[..|entries| - 1], id);
      EntryOpsMeaning(c, entries[|entries| - 1], id);
      SaidAppend(c.userStopped.Keys, entries, id);
      hide EntryOps, Called, Answered, CallIn, Answers;
    }
  }

  lemma {:induction false} UnansweredEndsInCall(ops: seq<Op>, id: string)
    requires ResultOp(id) !in ops
    ensures EndsInCall(ops, id) <==> CallOp(id) in ops
    decreases |ops|
  {
    if ops != [] {
      UnansweredEndsInCall(ops[..|ops| - 1], id);
    }
  }

  lemma {:induction false} CalledIsLogged(stopped: set<string>, entries: seq<Entry>, sessionId: string, id: string)
    ensures Logged(stopped, entries, sessionId, id).Some? <==> Called(stopped, entries, id) || Answered(entries, id)
    decreases |entries|
  {
    if entries != [] {
      CalledIsLogged(stopped, entries[..|entries| - 1], sessionId, id);
      SaidAppend(stopped, entries, id);
      hide Called, Answered, CallIn;
    }
  }

  lemma EntryTells(c: Context, p: Projector, e: Entry, start: int, id: string)
    requires Shaped(c, p, start) && (id in p.seen ==> Tool(c, p, id).Some?)
    ensures Tool(c, OnEntry(c, p, e), id)
            == if Answers(e, id) then Ended(c.sessionId, e, id, id in p.seen, Tool(c, p, id))
               else Begun(c.sessionId, e.id, CallIn(c.userStopped.Keys, e, id), Tool(c, p, id))
  {
    hide Shaped, Tool, Ended, OnAssistant, OnToolResult, OnUserInput, OnUser, OnRunCancelled, OnCustomMessage,
         OnRunStopped, LastCall;
    if e.AssistantEntry? {
      ReplyTells(c, p, e, id);
    } else if e.ToolResultEntry? {
      ResultTells(c, p, e, id);
    } else {
      QuietEntryTells(c, p, e, start, id);
    }
  }

  lemma {:induction false} EntriesTell(c: Context, r: Request, entries: seq<Entry>, id: string)
    requires c.sessionId == r.sessionId
    ensures Tool(c, OnEntries(c, Begin(c, r.title, r.updatedAt, r.startSeq), entries), id)
            == Logged(c.userStopped.Keys, entries, r.sessionId, id)
    decreases |entries|
  {
    hide Tool, OnEntry, Shaped, Knows, Ops, Begin, Called, Answered;
    var begun := Begin(c, r.title, r.updatedAt, r.startSeq);
    BeginKnows(c, r, id);
    if entries == [] {
      BeginTells(c, r, id);
    } else {
      var prior, e := entries[..|entries| - 1], entries[|entries| - 1];
      var p := OnEntries(c, begun, prior);
      EntriesTell(c, r, prior, id);
      OnEntriesShaped(c, begun, r.startSeq, prior);
      SeenIsCalled(c, r, prior, id);
      CalledIsLogged(c.userStopped.Keys, prior, r.sessionId, id);
      EntryTells(c, p, e, r.startSeq, id);
    }
  }

  lemma BeginTells(c: Context, r: Request, id: string)
    ensures Tool(c, Begin(c, r.title, r.updatedAt, r.startSeq), id).None?
  {
    var empty := Projector([], r.startSeq, {}, {}, [], None, [], false, None, None, false);
    PushTells(c, empty, SessionUpdated(r.title, r.updatedAt), id);
  }

  /** What the loop keeps of an id, said of the log. */
  lemma SeenIsCalled(c: Context, r: Request, entries: seq<Entry>, id: string)
    ensures var p := OnEntries(c, Begin(c, r.title, r.updatedAt, r.startSeq), entries);
            (id in p.seen <==> Called(c.userStopped.Keys, entries, id)) &&
            (id in p.resolved <==> Answered(entries, id)) &&
            (id !in p.resolved ==> (HasPending(p.pending, id) <==> id in p.seen))
  {
    hide OnEntries, Shaped, Begin, Ops, Called, Answered, HasPending, EndsInCall, Running, Numbered, NoDeltas;
    BeginKnows(c, r, id);
    OnEntriesKnows(c, Begin(c, r.title, r.updatedAt, r.startSeq), entries, r.startSeq, id);
    OpsMeaning(c, entries, id);
    if ResultOp(id) !in Ops(c, entries) {
      UnansweredEndsInCall(Ops(c, entries), id);
    }
  }

  lemma {:induction false} MarkingTells(c: Context, p: Projector, n: nat, id: string)
    requires n <= |p.pending|
    ensures Tool(c, MarkUnresolved(c, p, n), id) == Marked(Tool(c, p, id), MarkedBy(p, n, id))
    decreases n
  {
    hide Tool;
    if n > 0 {
      MarkingTells(c, p, n - 1, id);
      assert MarkedBy(p, n, id) <==> MarkedBy(p, n - 1, id) || (p.pending[n - 1].id == id && id !in p.resolved);
      assert NOT_FINISHED == MISSING_RESULT by { SameText(); }
      PushTells(c, MarkUnresolved(c, p, n - 1), ToolFailed(p.pending[n - 1].id, NOT_FINISHED), id);
    }
  }

  lemma SameText()
    ensures NOT_FINISHED == MISSING_RESULT
  {
  }

  /** After a reload every tool is shown as the log tells it: whole, and only if the log has a call or
      a result of its id. A call that no result answers anywhere is marked as not finished. */
  lemma ReloadShowsTool(entries: seq<Entry>, r: Request, id: string)
    ensures ToolOf(Reduce(Project(entries, r)), r.sessionId, id)
            == Marked(Logged(UserStopped(entries).Keys, entries, r.sessionId, id),
                      r.markUnresolved && !Answered(entries, id))
  {
    hide Indexed, Numbered, NoDeltas, Reduce, Fold, ToolOf, ToolTold, OnEntries, MarkUnresolved, Logged, Answered,
         Called, UserStopped, Begin;
    var c := ContextOf(entries, r.sessionId);
    var p := OnEntries(c, Begin(c, r.title, r.updatedAt, r.startSeq), entries);
    ReducedProjection(entries, r);
    ShownTool(Project(entries, r), r.sessionId, r.startSeq, id);
    EntriesTell(c, r, entries, id);
    SeenIsCalled(c, r, entries, id);
    CalledIsLogged(c.userStopped.Keys, entries, r.sessionId, id);
    MarkingTells(c, p, |p.pending|, id);
    assert MarkedBy(p, |p.pending|, id) <==> HasPending(p.pending, id) && id !in p.resolved;
  }

  // ---------------------------------------------------------------- the last word

  /** Entry i is the last that calls the tool or answers it. */
  ghost predicate LastWord(stopped: set<string>, entries: seq<Entry>, id: string, i: int) {
    && 0 <= i < |entries| && (Answers(entries[i], id) || CallIn(stopped, entries[i], id).Some?)
    && forall j :: i < j < |entries| ==> !Answers(entries[j], id) && CallIn(stopped, entries[j], id).None?
  }

  lemma {:induction false} LoggedByLastWord(stopped: set<string>, entries: seq<Entry>, sessionId: string, id: string,
      i: int)
    requires LastWord(stopped, entries, id, i)
    ensures Logged(stopped, entries, sessionId, id) == Logged(stopped, entries[..i + 1], sessionId, id)
    decreases |entries|
  {
    var prior, last := entries[..|entries| - 1], entries[|entries| - 1];
    if i == |entries| - 1 {
      assert entries[..i + 1] == entries;
    } else {
      assert forall j :: 0 <= j < |prior| ==> prior[j] == entries[j];
      hide CallIn, Answers;
      LoggedByLastWord(stopped, prior, sessionId, id, i);
      assert prior[..i + 1] == entries[..i + 1];
    }
  }

  /** A reload shows no chunks: a log keeps none. */
  lemma {:induction false} NothingIsChunked(stopped: set<string>, entries: seq<Entry>, sessionId: string, id: string)
    ensures var t := Logged(stopped, entries, sessionId, id);
            t.Some? ==> t.value.chunks == [] && t.value.id == id && t.value.sessionId == sessionId
    decreases |entries|
  {
    if entries != [] {
      NothingIsChunked(stopped, entries[..|entries| - 1], sessionId, id);
      hide Called, Answers;
    }
  }

  /** After a reload a tool shows what the last entry about it says. A result gives the status, with its
      output or with its text as the error. A call shows as running, or as not finished if the reload
      marks such calls and no result in the log, not even an earlier one, answers its id. */
  lemma LastWordIsShown(entries: seq<Entry>, r: Request, id: string, i: int)
    requires LastWord(UserStopped(entries).Keys, entries, id, i)
    ensures var tool, e := ToolOf(Reduce(Project(entries, r)), r.sessionId, id), entries[i];
            tool.Some? && tool.value.chunks == [] &&
            if e.ToolResultEntry? then
              if e.isError then tool.value.status == ToolHasFailed && tool.value.error == Some(e.text)
              else tool.value.status == ToolDone && tool.value.output == Some(ToolOutput(e.output, false))
            else
              var call, lost := CallIn(UserStopped(entries).Keys, e, id).value, r.markUnresolved &&
                  !Answered(entries, id);
              tool.value == RenderTool(id, r.sessionId, e.id, call.name, call.arguments,
                                       if lost then ToolHasFailed else ToolRunning, [], None,
                                       if lost then Some(MISSING_RESULT) else None)
  {
    hide Project, Reduce, ToolOf, UserStopped, Called, CallIn, Answered;
    var stopped := UserStopped(entries).Keys;
    ReloadShowsTool(entries, r, id);
    LoggedByLastWord(stopped, entries, r.sessionId, id, i);
    NothingIsChunked(stopped, entries, r.sessionId, id);
    if Answers(entries[i], id) {
      AnsweredAt(entries, id, i);
    }
    assert entries[..i + 1][..i] == entries[..i];
  }

  lemma AnsweredAt(entries: seq<Entry>, id: string, i: int)
    requires 0 <= i < |entries| && Answers(entries[i], id)
    ensures Answered(entries, id)
  {
  }
}
