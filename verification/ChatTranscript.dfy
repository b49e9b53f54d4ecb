// Projecting a session log and rendering the events: which tools still run and which messages
// still stream in the end, in terms of the log alone.
module ChatTranscript {
  import opened ChatEvents
  import opened ChatProjection
  import opened ChatView
  import opened EventReducer
  import opened Options
  import opened SessionLog

  // ---------------------------------------------------------------- what the log says

  datatype Op = CallOp(id: string) | ResultOp(id: string)

  function CallsOf(parts: seq<Part>): seq<Op>
    decreases |parts|
  {
    if parts == [] then []
    else CallsOf(parts[..|parts| - 1]) + if parts[|parts| - 1].CallBlock? then [CallOp(parts[|parts| - 1].id)] else []
  }

  /** The tool calls and results of an entry; a reply shown as a failure shows no calls. */
  function EntryOps(c: Context, e: Entry): seq<Op> {
    if e.AssistantEntry? && !ShownAsFailure(c, e) then CallsOf(e.parts)
    else if e.ToolResultEntry? then [ResultOp(ResultId(e))]
    else []
  }

  function Ops(c: Context, entries: seq<Entry>): seq<Op>
    decreases |entries|
  {
    if entries == [] then [] else Ops(c, entries[..|entries| - 1]) + EntryOps(c, entries[|entries| - 1])
  }

  /** The last thing the log has about this id is a call. */
  predicate EndsInCall(ops: seq<Op>, id: string)
    decreases |ops|
  {
    ops != [] && (ops[|ops| - 1] == CallOp(id) || (ops[|ops| - 1] != ResultOp(id) && EndsInCall(ops[..|ops| - 1], id)))
  }

  /** A call reuses the id of an earlier result, and no result comes after it. */
  ghost predicate ReusesResult(ops: seq<Op>, id: string) {
    exists i, j :: 0 <= i < j < |ops| && ops[i] == ResultOp(id) && UnansweredAt(ops, j, id)
  }

  ghost predicate UnansweredAt(ops: seq<Op>, j: int, id: string) {
    0 <= j < |ops| && ops[j] == CallOp(id) && forall k :: j < k < |ops| ==> ops[k] != ResultOp(id)
  }

  lemma {:induction false} EndsInCallMeaning(ops: seq<Op>, id: string)
    ensures EndsInCall(ops, id) <==> exists j :: UnansweredAt(ops, j, id)
    decreases |ops|
  {
    if ops != [] {
      var prior, last := ops[..|ops| - 1], |ops| - 1;
      EndsInCallMeaning(prior, id);
      assert ops[last] == CallOp(id) ==> UnansweredAt(ops, last, id);
      assert forall j :: 0 <= j < last && ops[last] != ResultOp(id) && UnansweredAt(prior, j, id) ==>
          UnansweredAt(ops, j, id);
      assert forall j :: 0 <= j < last && UnansweredAt(ops, j, id) ==>
          UnansweredAt(prior, j, id) && ops[last] != ResultOp(id);
    }
  }

  lemma ReuseMeaning(ops: seq<Op>, id: string)
    ensures ReusesResult(ops, id) <==> ResultOp(id) in ops && EndsInCall(ops, id)
  {
    EndsInCallMeaning(ops, id);
    if ResultOp(id) in ops && EndsInCall(ops, id) {
      var i :| 0 <= i < |ops| && ops[i] == ResultOp(id);
      var j :| UnansweredAt(ops, j, id);
      assert i < j;
    }
  }

  /** The entry is a tool result whose id no earlier shown call has. */
  predicate IsOrphan(c: Context, before: seq<Entry>, e: Entry) {
    e.ToolResultEntry? && CallOp(ResultId(e)) !in Ops(c, before)
  }

  function Orphans(c: Context, entries: seq<Entry>): set<string>
    decreases |entries|
  {
    if entries == [] then {}
    else
      var before, e := entries[..|entries| - 1], entries[|entries| - 1];
      Orphans(c, before) + if IsOrphan(c, before, e) then {e.id} else {}
  }

  // ---------------------------------------------------------------- one pushed event

  predicate Quiet(body: Body) {
    !body.ToolStarted? && !body.ToolCompleted? && !body.ToolFailed?
  }

  lemma PushTools(c: Context, p: Projector, body: Body, id: string)
    ensures Running(Push(c, p, body).events, id) <==> Starts(body, id) || (!Ends(body, id) && Running(p.events, id))
  {
  }

  lemma PushMessages(c: Context, p: Projector, body: Body, messageId: string)
    ensures Opened(Push(c, p, body).events, messageId) <==> Opened(p.events, messageId) || Opens(body, messageId)
    ensures Closed(Push(c, p, body).events, messageId) <==> Closed(p.events, messageId) || Closes(body, messageId)
  {
    var after := Push(c, p, body).events;
    assert after[|p.events|].body == body;
    assert forall i :: 0 <= i < |p.events| ==> after[i] == p.events[i];
  }

  // ---------------------------------------------------------------- the shape of the event list

  /** The events are numbered, no delta is among them, and the remembered user message is one. */
  ghost predicate Shaped(c: Context, p: Projector, start: int) {
    && Numbered(p.events, c.sessionId, start) && p.seqNo == start + |p.events| && NoDeltas(p.events)
    && (p.lastUser.Some? ==> p.lastUser.value < |p.events| && p.events[p.lastUser.value].body.MessageCompleted?)
    && (p.afterUser ==> p.lastUser.Some?)
  }

  lemma PushShaped(c: Context, p: Projector, start: int, body: Body)
    requires Shaped(c, p, start) && !body.MessageDelta?
    ensures Shaped(c, Push(c, p, body), start)
  {
  }

  lemma {:induction false} PushCallsShaped(c: Context, p: Projector, start: int, messageId: string, parts: seq<Part>)
    requires Shaped(c, p, start)
    ensures Shaped(c, PushCalls(c, p, messageId, parts), start)
    decreases |parts|
  {
    if parts != [] {
      PushCallsShaped(c, p, start, messageId, parts[..|parts| - 1]);
    }
  }

  lemma PushAnswerShaped(c: Context, p: Projector, start: int, e: Entry)
    requires Shaped(c, p, start) && e.AssistantEntry?
    ensures Shaped(c, PushAnswer(c, p, e), start)
  {
    hide Shaped, PushCalls, AssistantContent;
    var created := Push(c, p, MessageCreated(e.id, Assistant));
    PushShaped(c, p, start, MessageCreated(e.id, Assistant));
    PushCallsShaped(c, created, start, e.id, e.parts);
    PushShaped(c, PushCalls(c, created, e.id, e.parts), start, MessageCompleted(e.id, AssistantContent(e.parts), None));
  }

  lemma OnAssistantShaped(c: Context, p: Projector, start: int, e: Entry)
    requires Shaped(c, p, start) && e.AssistantEntry?
    ensures Shaped(c, OnAssistant(c, p, e), start)
  {
    hide Shaped, PushAnswer, HasVisibleContent, PushStopped;
    var q := p.(afterUser := false);
    FlagsShaped(c, p, q, start);
    PushAnswerShaped(c, q, start, e);
    if ShownAsFailure(c, e) {
      FlagsShaped(c, q, q.(notice := true), start);
      PushShaped(c, q.(notice := true), start,
                 CustomMessage(ModelErrorId(e.id), MODEL_RUN_FAILED, [TextPart(FailureText(e.stop))],
                               ModelFailure(e.provider, e.model, p.retryPrompt)));
    } else {
      PushStoppedShaped(c, q, start, e, false);
      PushStoppedShaped(c, PushAnswer(c, q, e), start, e, true);
    }
  }

  lemma FlagsShaped(c: Context, p: Projector, q: Projector, start: int)
    requires Shaped(c, p, start) && q.events == p.events && q.seqNo == p.seqNo && q.lastUser == p.lastUser
    requires !q.afterUser || p.afterUser
    ensures Shaped(c, q, start)
  {
    hide Numbered, NoDeltas;
  }

  lemma PushStoppedShaped(c: Context, p: Projector, start: int, e: Entry, partial: bool)
    requires Shaped(c, p, start)
    ensures Shaped(c, PushStopped(c, p, e, partial), start)
  {
    hide Shaped;
    var after := PushStopped(c, p, e, partial);
    var body := after.events[|p.events|].body;
    PushShaped(c, p, start, body);
    FlagsShaped(c, Push(c, p, body), after, start);
  }

  lemma OnCustomMessageShaped(c: Context, p: Projector, start: int, e: Entry)
    requires Shaped(c, p, start) && e.CustomMessageEntry?
    ensures Shaped(c, OnCustomMessage(c, p, e), start)
  {
    hide Shaped;
    var after := OnCustomMessage(c, p, e);
    var q := p.(afterUser := false, notice := after.notice);
    FlagsShaped(c, p, q, start);
    PushShaped(c, q, start, after.events[|p.events|].body);
  }

  lemma OnRunStoppedShaped(c: Context, p: Projector, start: int, e: Entry)
    requires Shaped(c, p, start) && e.RunStoppedEntry?
    ensures Shaped(c, OnRunStopped(c, p, e), start)
  {
    hide Shaped, StringField;
    var after, q := OnRunStopped(c, p, e), p.(afterUser := false, notice := true);
    if p.notice {
      FlagsShaped(c, p, after, start);
    } else {
      FlagsShaped(c, p, q, start);
      PushShaped(c, q, start, after.events[|p.events|].body);
    }
  }

  lemma OnToolResultShaped(c: Context, p: Projector, start: int, e: Entry)
    requires Shaped(c, p, start) && e.ToolResultEntry?
    ensures Shaped(c, OnToolResult(c, p, e), start)
  {
    hide Shaped, ResultBody, ResultId, DropPending;
    var id := ResultId(e);
    var q := p.(afterUser := false, resolved := p.resolved + {id}, pending := DropPending(p.pending, id));
    var begin := ToolStarted(id, e.id, if e.toolName != "" then e.toolName else "tool", e.input);
    ResultIsNoDelta(e);
    FlagsShaped(c, p, q, start);
    PushShaped(c, q, start, begin);
    PushShaped(c, q, start, ResultBody(e));
    PushShaped(c, Push(c, q, begin), start, ResultBody(e));
  }

  lemma OnUserInputShaped(c: Context, p: Projector, start: int, e: Entry)
    requires Shaped(c, p, start) && e.UserInputEntry?
    ensures Shaped(c, OnUserInput(p, e), start)
  {
  }

  lemma OnUserShaped(c: Context, p: Projector, start: int, e: Entry)
    requires Shaped(c, p, start) && e.UserEntry?
    ensures Shaped(c, OnUser(c, p, e), start)
  {
    hide UserContent, StringField, MessageText, Chips;
  }

  lemma OnRunCancelledShaped(c: Context, p: Projector, start: int, e: Entry)
    requires Shaped(c, p, start) && e.RunCancelledEntry?
    ensures Shaped(c, OnRunCancelled(c, p, e), start)
  {
    hide StringField, Chips;
  }

  lemma OnEntryShaped(c: Context, p: Projector, start: int, e: Entry)
    requires Shaped(c, p, start)
    ensures Shaped(c, OnEntry(c, p, e), start)
  {
    hide Shaped, OnUserInput, OnUser, OnAssistant, OnRunCancelled, OnToolResult, OnCustomMessage, OnRunStopped;
    match e
    case UserInputEntry(_, _, _) => OnUserInputShaped(c, p, start, e);
    case CustomMessageEntry(_, _, _, _) => OnCustomMessageShaped(c, p, start, e);
    case RunStoppedEntry(_, _, _) => OnRunStoppedShaped(c, p, start, e);
    case UserEntry(_, _) => OnUserShaped(c, p, start, e);
    case AssistantEntry(_, _, _, _, _) => OnAssistantShaped(c, p, start, e);
    case RunCancelledEntry(_, _, _) => OnRunCancelledShaped(c, p, start, e);
    case ToolResultEntry(_, _, _, _, _, _, _) => OnToolResultShaped(c, p, start, e);
    case OtherMessageEntry(_) =>
    case _ => FlagsShaped(c, p, p.(afterUser := false), start);
  }

  lemma ResultIsNoDelta(e: Entry)
    requires e.ToolResultEntry?
    ensures !ResultBody(e).MessageDelta? && (ResultBody(e).ToolCompleted? || ResultBody(e).ToolFailed?) &&
            ResultBody(e).toolCallId == ResultId(e)
  {
  }

  lemma {:induction false} OnEntriesShaped(c: Context, p: Projector, start: int, entries: seq<Entry>)
    requires Shaped(c, p, start)
    ensures Shaped(c, OnEntries(c, p, entries), start)
    decreases |entries|
  {
    hide Shaped, OnEntry;
    if entries != [] {
      OnEntriesShaped(c, p, start, entries[..|entries| - 1]);
      OnEntryShaped(c, OnEntries(c, p, entries[..|entries| - 1]), start, entries[|entries| - 1]);
    }
  }

  lemma {:induction false} MarkUnresolvedShaped(c: Context, p: Projector, start: int, n: nat)
    requires Shaped(c, p, start) && n <= |p.pending|
    ensures Shaped(c, MarkUnresolved(c, p, n), start)
    decreases n
  {
    hide Shaped;
    if n > 0 {
      MarkUnresolvedShaped(c, p, start, n - 1);
      PushShaped(c, MarkUnresolved(c, p, n - 1), start, ToolFailed(p.pending[n - 1].id, NOT_FINISHED));
    }
  }

  /** Every projection numbers its events one after the other from the requested start. */
  lemma ProjectionIsNumbered(entries: seq<Entry>, r: Request)
    ensures Numbered(Project(entries, r), r.sessionId, r.startSeq) && NoDeltas(Project(entries, r))
  {
    hide OnEntries, MarkUnresolved, ContextOf;
    var c := ContextOf(entries, r.sessionId);
    var begun := Begin(c, r.title, r.updatedAt, r.startSeq);
    ContextSession(entries, r.sessionId);
    assert Shaped(c, begun, r.startSeq);
    OnEntriesShaped(c, begun, r.startSeq, entries);
    var p := OnEntries(c, begun, entries);
    MarkUnresolvedShaped(c, p, r.startSeq, |p.pending|);
  }

  lemma ContextSession(entries: seq<Entry>, sessionId: string)
    ensures ContextOf(entries, sessionId).sessionId == sessionId
  {
  }

  // ---------------------------------------------------------------- the tools

  ghost predicate DistinctPending(pending: seq<PendingCall>) {
    forall i, j :: 0 <= i < j < |pending| ==> pending[i].id != pending[j].id
  }

  lemma {:induction false} PutPendingMeaning(pending: seq<PendingCall>, id: string, name: string, other: string)
    ensures HasPending(PutPending(pending, id, name), other) <==> other == id || HasPending(pending, other)
    decreases |pending|
  {
    var r := PutPending(pending, id, name);
    if pending == [] {
      assert r[0].id == id;
    } else {
      assert pending == [pending[0]] + pending[1..];
      HasPendingSplit(pending, other);
      HasPendingSplit(r, other);
      if pending[0].id != id {
        PutPendingMeaning(pending[1..], id, name, other);
        assert r[1..] == PutPending(pending[1..], id, name);
      } else {
        assert r[1..] == pending[1..];
      }
    }
  }

  lemma HasPendingSplit(pending: seq<PendingCall>, id: string)
    requires pending != []
    ensures HasPending(pending, id) <==> pending[0].id == id || HasPending(pending[1..], id)
  {
  }

  lemma {:induction false} PutPendingDistinct(pending: seq<PendingCall>, id: string, name: string)
    requires DistinctPending(pending)
    ensures DistinctPending(PutPending(pending, id, name))
    decreases |pending|
  {
    if pending != [] && pending[0].id != id {
      PutPendingDistinct(pending[1..], id, name);
      PutPendingMeaning(pending[1..], id, name, pending[0].id);
      FirstNotInRest(pending);
      DistinctCons(pending[0], PutPending(pending[1..], id, name));
    } else if pending != [] {
      assert PutPending(pending, id, name)[1..] == pending[1..];
    }
  }

  lemma DistinctCons(first: PendingCall, rest: seq<PendingCall>)
    requires DistinctPending(rest) && !HasPending(rest, first.id)
    ensures DistinctPending([first] + rest)
  {
  }

  lemma {:induction false} DropPendingMeaning(pending: seq<PendingCall>, id: string, other: string)
    requires DistinctPending(pending)
    ensures HasPending(DropPending(pending, id), other) <==> other != id && HasPending(pending, other)
    ensures DistinctPending(DropPending(pending, id))
    decreases |pending|
  {
    if pending != [] {
      var rest, r := pending[1..], DropPending(pending, id);
      HasPendingSplit(pending, other);
      FirstNotInRest(pending);
      if pending[0].id == id {
        assert HasPending(rest, id) <==> HasPending(rest, pending[0].id);
      } else {
        DropPendingMeaning(rest, id, other);
        DropPendingMeaning(rest, id, pending[0].id);
        assert r == [pending[0]] + DropPending(rest, id);
        assert r[1..] == DropPending(rest, id);
        HasPendingSplit(r, other);
        DistinctCons(pending[0], DropPending(rest, id));
      }
    }
  }

  lemma FirstNotInRest(pending: seq<PendingCall>)
    requires pending != [] && DistinctPending(pending)
    ensures !HasPending(pending[1..], pending[0].id) && DistinctPending(pending[1..])
  {
  }

  /** What the loop knows of one tool id, in terms of the log so far. */
  ghost predicate Knows(p: Projector, ops: seq<Op>, id: string) {
    && (HasPending(p.pending, id) <==> EndsInCall(ops, id))
    && (Running(p.events, id) <==> EndsInCall(ops, id))
    && (id in p.resolved <==> ResultOp(id) in ops)
    && (id in p.seen <==> CallOp(id) in ops)
  }

  predicate SameTools(p: Projector, q: Projector) {
    p.pending == q.pending && p.resolved == q.resolved && p.seen == q.seen
  }

  lemma OpsAppend(ops: seq<Op>, op: Op, id: string)
    ensures EndsInCall(ops + [op], id) <==> op == CallOp(id) || (op != ResultOp(id) && EndsInCall(ops, id))
  {
  }

  lemma PushCallKnows(c: Context, p: Projector, messageId: string, part: Part, ops: seq<Op>, id: string)
    requires Knows(p, ops, id) && part.CallBlock?
    ensures Knows(PushCall(c, p, messageId, part), ops + [CallOp(part.id)], id)
    ensures DistinctPending(p.pending) ==> DistinctPending(PushCall(c, p, messageId, part).pending)
  {
    hide Running, EndsInCall, HasPending, PutPending;
    if DistinctPending(p.pending) {
      PutPendingDistinct(p.pending, part.id, part.name);
    }
    PutPendingMeaning(p.pending, part.id, part.name, id);
    OpsAppend(ops, CallOp(part.id), id);
    PushTools(c, p.(seen := p.seen + {part.id}, pending := PutPending(p.pending, part.id, part.name)),
              ToolStarted(part.id, messageId, part.name, part.arguments), id);
  }

  lemma {:induction false} PushCallsKnows(c: Context, p: Projector, messageId: string, parts: seq<Part>, ops: seq<Op>,
      id: string)
    requires Knows(p, ops, id) && DistinctPending(p.pending)
    ensures Knows(PushCalls(c, p, messageId, parts), ops + CallsOf(parts), id)
    ensures DistinctPending(PushCalls(c, p, messageId, parts).pending)
    decreases |parts|
  {
    hide Knows, DistinctPending;
    if parts == [] {
      assert ops + CallsOf(parts) == ops;
    } else {
      var prior, part := parts[..|parts| - 1], parts[|parts| - 1];
      PushCallsKnows(c, p, messageId, prior, ops, id);
      if part.CallBlock? {
        PushCallKnows(c, PushCalls(c, p, messageId, prior), messageId, part, ops + CallsOf(prior), id);
        assert ops + CallsOf(parts) == (ops + CallsOf(prior)) + [CallOp(part.id)];
      } else {
        assert CallsOf(parts) == CallsOf(prior);
      }
    }
  }

  /** A quiet event changes nothing that is known of the tools. */
  lemma QuietPush(c: Context, p: Projector, body: Body, ops: seq<Op>, id: string)
    requires Quiet(body) && Knows(p, ops, id)
    ensures Knows(Push(c, p, body), ops, id)
  {
  }

  lemma KnowsOnly(p: Projector, q: Projector, ops: seq<Op>, id: string)
    requires Knows(p, ops, id) && p.events == q.events && SameTools(p, q)
    ensures Knows(q, ops, id)
  {
  }

  lemma PushAnswerKnows(c: Context, p: Projector, e: Entry, ops: seq<Op>, id: string)
    requires e.AssistantEntry? && Knows(p, ops, id) && DistinctPending(p.pending)
    ensures Knows(PushAnswer(c, p, e), ops + CallsOf(e.parts), id) && DistinctPending(PushAnswer(c, p, e).pending)
  {
    hide Knows, AssistantContent, PushCalls, DistinctPending;
    var created := Push(c, p, MessageCreated(e.id, Assistant));
    QuietPush(c, p, MessageCreated(e.id, Assistant), ops, id);
    PushCallsKnows(c, created, e.id, e.parts, ops, id);
    QuietPush(c, PushCalls(c, created, e.id, e.parts), MessageCompleted(e.id, AssistantContent(e.parts), None),
              ops + CallsOf(e.parts), id);
  }

  lemma PushStoppedKnows(c: Context, p: Projector, e: Entry, partial: bool, ops: seq<Op>, id: string)
    requires Knows(p, ops, id)
    ensures Knows(PushStopped(c, p, e, partial), ops, id) && PushStopped(c, p, e, partial).pending == p.pending
  {
  }

  lemma {:induction false} InvisibleHasNoCalls(parts: seq<Part>)
    requires !HasVisibleContent(parts)
    ensures CallsOf(parts) == []
    decreases |parts|
  {
    if parts != [] {
      var prior := parts[..|parts| - 1];
      assert forall i :: 0 <= i < |prior| ==> prior[i] == parts[i];
      assert !VisiblePart(parts[|parts| - 1]);
      InvisibleHasNoCalls(prior);
    }
  }

  lemma OnAssistantKnows(c: Context, p: Projector, e: Entry, ops: seq<Op>, id: string)
    requires e.AssistantEntry? && Knows(p, ops, id) && DistinctPending(p.pending)
    ensures Knows(OnAssistant(c, p, e), ops + EntryOps(c, e), id) && DistinctPending(OnAssistant(c, p, e).pending)
  {
    hide Knows, DistinctPending, PushAnswer, PushStopped, HasVisibleContent, CallsOf;
    var q := p.(afterUser := false);
    KnowsOnly(p, q, ops, id);
    KnowsOnly(p, q.(notice := true), ops, id);
    assert ops + [] == ops;
    if ShownAsFailure(c, e) {
      QuietPush(c, q.(notice := true),
                CustomMessage(ModelErrorId(e.id), MODEL_RUN_FAILED, [TextPart(FailureText(e.stop))],
                                                     ModelFailure(e.provider, e.model, p.retryPrompt)), ops, id);
    } else if ShownAsStopped(c, e) && !HasVisibleContent(e.parts) {
      InvisibleHasNoCalls(e.parts);
      PushStoppedKnows(c, q, e, false, ops, id);
    } else {
      PushAnswerKnows(c, q, e, ops, id);
      PushStoppedKnows(c, PushAnswer(c, q, e), e, true, ops + CallsOf(e.parts), id);
    }
  }

  lemma OnToolResultKnows(c: Context, p: Projector, e: Entry, ops: seq<Op>, id: string)
    requires e.ToolResultEntry? && Knows(p, ops, id) && DistinctPending(p.pending)
    ensures Knows(OnToolResult(c, p, e), ops + [ResultOp(ResultId(e))], id) &&
            DistinctPending(OnToolResult(c, p, e).pending)
  {
    hide Running, EndsInCall, HasPending, DropPending, ResultId, ResultBody, DistinctPending;
    var rid := ResultId(e);
    var q := p.(afterUser := false, resolved := p.resolved + {rid}, pending := DropPending(p.pending, rid));
    var start := ToolStarted(rid, e.id, if e.toolName != "" then e.toolName else "tool", e.input);
    ResultIsNoDelta(e);
    DropPendingMeaning(p.pending, rid, id);
    OpsAppend(ops, ResultOp(rid), id);
    PushTools(c, q, start, id);
    PushTools(c, Push(c, q, start), ResultBody(e), id);
    PushTools(c, q, ResultBody(e), id);
  }

  lemma {:induction false} PatchedTools(events: seq<ChatEvent>, k: nat, e: ChatEvent, id: string)
    requires k < |events| && Quiet(events[k].body) && Quiet(e.body)
    ensures Running(events[k := e], id) <==> Running(events, id)
    decreases |events|
  {
    var last := |events| - 1;
    if k == last {
      assert events[k := e][..last] == events[..last];
    } else {
      assert events[k := e][..last] == events[..last][k := e];
      PatchedTools(events[..last], k, e, id);
    }
  }

  lemma OnUserInputKnows(c: Context, p: Projector, e: Entry, start: int, ops: seq<Op>, id: string)
    requires e.UserInputEntry? && Knows(p, ops, id) && Shaped(c, p, start)
    ensures Knows(OnUserInput(p, e), ops, id) && SameTools(p, OnUserInput(p, e))
  {
    hide UserContent, OriginalInputText, Running, EndsInCall, HasPending;
    if p.afterUser {
      var k := p.lastUser.value;
      PatchedTools(p.events, k, OnUserInput(p, e).events[k], id);
    }
  }

  lemma OnUserKnows(c: Context, p: Projector, e: Entry, ops: seq<Op>, id: string)
    requires e.UserEntry? && Knows(p, ops, id)
    ensures Knows(OnUser(c, p, e), ops, id) && SameTools(p, OnUser(c, p, e))
  {
    hide UserContent, StringField, MessageText, Chips, Running, EndsInCall, HasPending;
    var turn := p.(notice := false);
    var created := Push(c, turn, MessageCreated(e.id, User));
    var completed := MessageCompleted(e.id, UserContent(e.content, p.original), Chips(p.attachments));
    PushTools(c, turn, MessageCreated(e.id, User), id);
    PushTools(c, created, completed, id);
    if e.id in c.steps {
      var told := if c.steps[e.id].preserveUserTurn then PushUser(c, turn, e) else turn.(afterUser := false);
      PushTools(c, told, CustomMessage(WorkflowStepId(e.id), "opencandle-workflow-step", UserContent(e.content, None),
                                       Step(c.steps[e.id])), id);
    }
  }

  lemma OnRunCancelledKnows(c: Context, p: Projector, e: Entry, ops: seq<Op>, id: string)
    requires e.RunCancelledEntry? && Knows(p, ops, id)
    ensures Knows(OnRunCancelled(c, p, e), ops, id) && SameTools(p, OnRunCancelled(c, p, e))
  {
    hide StringField, Chips, Running, EndsInCall, HasPending;
    var text := if p.original.Some? then p.original else StringField(e.text);
    var cleared := p.(original := None, attachments := [], afterUser := false);
    if text.Some? {
      var created := MessageCreated(CancelledUserId(e.id), User);
      PushTools(c, cleared, created, id);
      PushTools(c, Push(c, cleared, created),
                MessageCompleted(CancelledUserId(e.id), [TextPart(text.value)], Chips(p.attachments)), id);
    }
    var told := if text.Some? then PushCancelledUser(c, cleared, e.id, text.value, p.attachments) else cleared;
    PushTools(c, told, CustomMessage(e.id, RUN_CANCELLED, [TextPart(RUN_STOPPED_EARLY)], Cancelled(e.data, text)), id);
  }

  lemma OnNoticeKnows(c: Context, p: Projector, e: Entry, ops: seq<Op>, id: string)
    requires Knows(p, ops, id) && (e.CustomMessageEntry? || e.RunStoppedEntry?)
    ensures Knows(OnEntry(c, p, e), ops, id) && SameTools(p, OnEntry(c, p, e))
  {
    hide StringField, Running, EndsInCall, HasPending;
    var after := OnEntry(c, p, e);
    if |after.events| > |p.events| {
      PushTools(c, p, after.events[|p.events|].body, id);
    }
  }

  lemma OnEntryKnows(c: Context, p: Projector, e: Entry, start: int, ops: seq<Op>, id: string)
    requires Knows(p, ops, id) && Shaped(c, p, start) && DistinctPending(p.pending)
    ensures Knows(OnEntry(c, p, e), ops + EntryOps(c, e), id) && DistinctPending(OnEntry(c, p, e).pending)
  {
    hide Knows, Shaped, DistinctPending, OnUserInput, OnUser, OnAssistant, OnRunCancelled, OnToolResult,
         OnCustomMessage, OnRunStopped, CallsOf;
    assert ops + [] == ops;
    match e
    case UserInputEntry(_, _, _) => OnUserInputKnows(c, p, e, start, ops, id);
    case UserEntry(_, _) => OnUserKnows(c, p, e, ops, id);
    case AssistantEntry(_, _, _, _, _) => OnAssistantKnows(c, p, e, ops, id);
    case RunCancelledEntry(_, _, _) => OnRunCancelledKnows(c, p, e, ops, id);
    case ToolResultEntry(_, _, _, _, _, _, _) => OnToolResultKnows(c, p, e, ops, id);
    case CustomMessageEntry(_, _, _, _) => OnNoticeKnows(c, p, e, ops, id);
    case RunStoppedEntry(_, _, _) => OnNoticeKnows(c, p, e, ops, id);
    case _ => KnowsOnly(p, OnEntry(c, p, e), ops, id);
  }

  lemma {:induction false} OnEntriesKnows(c: Context, p: Projector, entries: seq<Entry>, start: int, id: string)
    requires Knows(p, [], id) && Shaped(c, p, start) && p.pending == []
    ensures Knows(OnEntries(c, p, entries), Ops(c, entries), id) && DistinctPending(OnEntries(c, p, entries).pending)
    decreases |entries|
  {
    hide Knows, Shaped, OnEntry, EntryOps;
    if entries != [] {
      var prior := entries[..|entries| - 1];
      OnEntriesKnows(c, p, prior, start, id);
      OnEntriesShaped(c, p, start, prior);
      OnEntryKnows(c, OnEntries(c, p, prior), entries[|entries| - 1], start, Ops(c, prior), id);
    }
  }

  // ---------------------------------------------------------------- the marking of unresolved calls

  predicate MarkedBy(p: Projector, n: nat, id: string)
    requires n <= |p.pending|
  {
    exists i :: 0 <= i < n && p.pending[i].id == id && id !in p.resolved
  }

  lemma {:induction false} MarkUnresolvedTools(c: Context, p: Projector, n: nat, id: string)
    requires n <= |p.pending|
    ensures Running(MarkUnresolved(c, p, n).events, id) <==> Running(p.events, id) && !MarkedBy(p, n, id)
    decreases n
  {
    hide Running;
    if n > 0 {
      MarkUnresolvedTools(c, p, n - 1, id);
      assert MarkedBy(p, n, id) <==> MarkedBy(p, n - 1, id) || (p.pending[n - 1].id == id && id !in p.resolved);
      PushTools(c, MarkUnresolved(c, p, n - 1), ToolFailed(p.pending[n - 1].id, NOT_FINISHED), id);
    }
  }

  /** A tool is left running exactly if the log ends its id with a call that reuses the id of an
      earlier result; without the marking, if the log ends it with a call. */
  lemma RunningAfterProjection(entries: seq<Entry>, r: Request, id: string)
    ensures var ops := Ops(ContextOf(entries, r.sessionId), entries);
            Running(Project(entries, r), id) <==> if r.markUnresolved then ReusesResult(ops, id)
              else EndsInCall(ops, id)
  {
    hide OnEntries, MarkUnresolved, ContextOf, Ops, Running, EndsInCall, ReusesResult;
    var c := ContextOf(entries, r.sessionId);
    var begun := Begin(c, r.title, r.updatedAt, r.startSeq);
    var p := OnEntries(c, begun, entries);
    var ops := Ops(c, entries);
    BeginKnows(c, r, id);
    OnEntriesKnows(c, begun, entries, r.startSeq, id);
    MarkUnresolvedTools(c, p, |p.pending|, id);
    assert MarkedBy(p, |p.pending|, id) <==> HasPending(p.pending, id) && id !in p.resolved;
    ReuseMeaning(ops, id);
  }

  lemma BeginKnows(c: Context, r: Request, id: string)
    ensures var begun := Begin(c, r.title, r.updatedAt, r.startSeq);
            Knows(begun, [], id) && Shaped(c, begun, r.startSeq) && begun.pending == []
  {
  }

  // ---------------------------------------------------------------- the messages

  /** The message ids under which an entry is shown complete. */
  predicate CloserId(e: Entry, messageId: string) {
    (messageId == e.id && !e.ToolResultEntry?) || messageId == CancelledUserId(e.id) || messageId == StoppedId(e.id)
    || messageId == ModelErrorId(e.id) || messageId == WorkflowStepId(e.id)
  }

  /** From p to q, only this entry's ids are closed, and only an orphan opens what it does not close. */
  ghost predicate Tells(p: Projector, q: Projector, e: Entry, orphan: bool, messageId: string) {
    && (Opened(p.events, messageId) ==> Opened(q.events, messageId))
    && (Closed(p.events, messageId) ==> Closed(q.events, messageId))
    && (Closed(q.events, messageId) ==> Closed(p.events, messageId) || CloserId(e, messageId))
    && (Opened(q.events, messageId) ==>
        Opened(p.events, messageId) || Closed(q.events, messageId) || (orphan && messageId == e.id))
    && (orphan && messageId == e.id ==> Opened(q.events, messageId))
  }

  lemma {:induction false} PushCallsMessages(c: Context, p: Projector, id: string, parts: seq<Part>, messageId: string)
    ensures var q := PushCalls(c, p, id, parts);
            (Closed(q.events, messageId) <==> Closed(p.events, messageId)) &&
              (Opened(p.events, messageId) ==> Opened(q.events, messageId)) &&
            (Opened(q.events, messageId) ==> Opened(p.events, messageId) || messageId == id)
    decreases |parts|
  {
    hide Opened, Closed;
    if parts != [] {
      var prior, part := parts[..|parts| - 1], parts[|parts| - 1];
      PushCallsMessages(c, p, id, prior, messageId);
      if part.CallBlock? {
        var q := PushCalls(c, p, id, prior);
        PushMessages(c, q.(seen := q.seen + {part.id}, pending := PutPending(q.pending, part.id, part.name)),
                     ToolStarted(part.id, id, part.name, part.arguments), messageId);
      }
    }
  }

  lemma PushAnswerTells(c: Context, p: Projector, e: Entry, messageId: string)
    requires e.AssistantEntry?
    ensures Tells(p, PushAnswer(c, p, e), e, false, messageId)
  {
    hide Opened, Closed, AssistantContent, PushCalls;
    var created := Push(c, p, MessageCreated(e.id, Assistant));
    PushMessages(c, p, MessageCreated(e.id, Assistant), messageId);
    PushCallsMessages(c, created, e.id, e.parts, messageId);
    PushMessages(c, PushCalls(c, created, e.id, e.parts), MessageCompleted(e.id, AssistantContent(e.parts), None),
                 messageId);
  }

  lemma PushNoticeTells(c: Context, p: Projector, q: Projector, body: Body, e: Entry, messageId: string)
    requires q.events == Push(c, p, body).events && body.CustomMessage? && CloserId(e, body.messageId)
    ensures Tells(p, q, e, false, messageId)
  {
    hide Opened, Closed, CloserId;
    PushMessages(c, p, body, messageId);
  }

  lemma TellsCompose(p: Projector, q: Projector, r: Projector, e: Entry, messageId: string)
    requires Tells(p, q, e, false, messageId) && Tells(q, r, e, false, messageId)
    ensures Tells(p, r, e, false, messageId)
  {
  }

  lemma TellsNothing(p: Projector, q: Projector, e: Entry, messageId: string)
    requires p.events == q.events
    ensures Tells(p, q, e, false, messageId)
  {
  }

  lemma OnAssistantTells(c: Context, p: Projector, e: Entry, messageId: string)
    requires e.AssistantEntry?
    ensures Tells(p, OnAssistant(c, p, e), e, false, messageId)
  {
    hide Tells, HasVisibleContent, PushAnswer;
    var q, after := p.(afterUser := false), OnAssistant(c, p, e);
    TellsNothing(p, q, e, messageId);
    if ShownAsFailure(c, e) {
      if e.id in c.superseded {
        TellsNothing(p, after, e, messageId);
      } else {
        PushNoticeTells(c, p, after, after.events[|p.events|].body, e, messageId);
      }
    } else if ShownAsStopped(c, e) && !HasVisibleContent(e.parts) {
      PushNoticeTells(c, p, after, after.events[|p.events|].body, e, messageId);
    } else {
      var answered := PushAnswer(c, q, e);
      PushAnswerTells(c, q, e, messageId);
      TellsCompose(p, q, answered, e, messageId);
      if ShownAsStopped(c, e) {
        PushNoticeTells(c, answered, after, after.events[|answered.events|].body, e, messageId);
        TellsCompose(p, answered, after, e, messageId);
      }
    }
  }

  lemma OnToolResultTells(c: Context, p: Projector, e: Entry, messageId: string)
    requires e.ToolResultEntry?
    ensures Tells(p, OnToolResult(c, p, e), e, ResultId(e) !in p.seen, messageId)
  {
    hide Opened, Closed, CloserId, ResultId, ResultBody, DropPending;
    var rid := ResultId(e);
    var q := p.(afterUser := false, resolved := p.resolved + {rid}, pending := DropPending(p.pending, rid));
    var start := ToolStarted(rid, e.id, if e.toolName != "" then e.toolName else "tool", e.input);
    ResultIsNoDelta(e);
    PushMessages(c, q, start, messageId);
    PushMessages(c, Push(c, q, start), ResultBody(e), messageId);
    PushMessages(c, q, ResultBody(e), messageId);
  }

  lemma PatchedMessages(events: seq<ChatEvent>, k: nat, e: ChatEvent, messageId: string)
    requires k < |events| && events[k].body.MessageCompleted? && e.body.MessageCompleted? &&
             events[k].body.messageId == e.body.messageId
    ensures Opened(events[k := e], messageId) <==> Opened(events, messageId)
    ensures Closed(events[k := e], messageId) <==> Closed(events, messageId)
  {
    var after := events[k := e];
    assert forall i :: 0 <= i < |events| ==> (Opens(after[i].body, messageId) <==> Opens(events[i].body, messageId));
    assert forall i :: 0 <= i < |events| ==> (Closes(after[i].body, messageId) <==> Closes(events[i].body, messageId));
  }

  lemma OnUserInputTells(c: Context, p: Projector, e: Entry, start: int, messageId: string)
    requires e.UserInputEntry? && Shaped(c, p, start)
    ensures Tells(p, OnUserInput(p, e), e, false, messageId)
  {
    hide UserContent, OriginalInputText, Opened, Closed, CloserId, NoDeltas, Numbered;
    if p.afterUser {
      var k := p.lastUser.value;
      PatchedMessages(p.events, k, OnUserInput(p, e).events[k], messageId);
    }
  }

  lemma PushPairTells(c: Context, p: Projector, id: string, role: Role, content: seq<Content>,
      attachments: Option<seq<Attachment>>, e: Entry, messageId: string)
    requires CloserId(e, id)
    ensures Tells(p, Push(c, Push(c, p, MessageCreated(id, role)), MessageCompleted(id, content, attachments)), e,
                  false, messageId)
  {
    hide Opened, Closed, CloserId;
    PushMessages(c, p, MessageCreated(id, role), messageId);
    PushMessages(c, Push(c, p, MessageCreated(id, role)), MessageCompleted(id, content, attachments), messageId);
  }

  lemma OnUserTells(c: Context, p: Projector, e: Entry, messageId: string)
    requires e.UserEntry?
    ensures Tells(p, OnUser(c, p, e), e, false, messageId)
  {
    hide UserContent, StringField, MessageText, Chips, Tells;
    var turn, after := p.(notice := false), OnUser(c, p, e);
    var told := if e.id !in c.steps || c.steps[e.id].preserveUserTurn then PushUser(c, turn, e)
        else turn.(afterUser := false);
    TellsNothing(p, turn, e, messageId);
    TellsNothing(p, turn.(afterUser := false), e, messageId);
    var content := UserContent(e.content, p.original);
    var pair := Push(c, Push(c, turn, MessageCreated(e.id, User)),
                     MessageCompleted(e.id, content, Chips(p.attachments)));
    PushPairTells(c, turn, e.id, User, content, Chips(p.attachments), e, messageId);
    TellsCompose(p, turn, pair, e, messageId);
    TellsNothing(pair, PushUser(c, turn, e), e, messageId);
    TellsCompose(p, pair, PushUser(c, turn, e), e, messageId);
    if e.id in c.steps {
      PushNoticeTells(c, told, after, after.events[|told.events|].body, e, messageId);
    } else {
      TellsNothing(told, after, e, messageId);
    }
    TellsCompose(p, told, after, e, messageId);
  }

  lemma OnRunCancelledTells(c: Context, p: Projector, e: Entry, messageId: string)
    requires e.RunCancelledEntry?
    ensures Tells(p, OnRunCancelled(c, p, e), e, false, messageId)
  {
    hide StringField, Chips, Tells;
    var text := if p.original.Some? then p.original else StringField(e.text);
    var cleared := p.(original := None, attachments := [], afterUser := false);
    var told := if text.Some? then PushCancelledUser(c, cleared, e.id, text.value, p.attachments) else cleared;
    var after := OnRunCancelled(c, p, e);
    TellsNothing(p, cleared, e, messageId);
    if text.Some? {
      PushPairTells(c, cleared, CancelledUserId(e.id), User, [TextPart(text.value)], Chips(p.attachments), e,
                    messageId);
      TellsCompose(p, cleared, told, e, messageId);
    }
    PushNoticeTells(c, told, after, after.events[|told.events|].body, e, messageId);
    TellsCompose(p, told, after, e, messageId);
  }

  lemma OnNoticeTells(c: Context, p: Projector, e: Entry, messageId: string)
    requires e.CustomMessageEntry? || e.RunStoppedEntry?
    ensures Tells(p, OnEntry(c, p, e), e, false, messageId)
  {
    hide StringField, Tells;
    var after := OnEntry(c, p, e);
    if |after.events| > |p.events| {
      PushNoticeTells(c, p, after, after.events[|p.events|].body, e, messageId);
    } else {
      TellsNothing(p, after, e, messageId);
    }
  }

  lemma OnEntryTells(c: Context, p: Projector, e: Entry, start: int, messageId: string)
    requires Shaped(c, p, start)
    ensures Tells(p, OnEntry(c, p, e), e, e.ToolResultEntry? && ResultId(e) !in p.seen, messageId)
  {
    hide Tells, Shaped, OnUserInput, OnUser, OnAssistant, OnRunCancelled, OnToolResult, OnCustomMessage, OnRunStopped;
    match e
    case UserInputEntry(_, _, _) => OnUserInputTells(c, p, e, start, messageId);
    case UserEntry(_, _) => OnUserTells(c, p, e, messageId);
    case AssistantEntry(_, _, _, _, _) => OnAssistantTells(c, p, e, messageId);
    case RunCancelledEntry(_, _, _) => OnRunCancelledTells(c, p, e, messageId);
    case ToolResultEntry(_, _, _, _, _, _, _) => OnToolResultTells(c, p, e, messageId);
    case CustomMessageEntry(_, _, _, _) => OnNoticeTells(c, p, e, messageId);
    case RunStoppedEntry(_, _, _) => OnNoticeTells(c, p, e, messageId);
    case _ => TellsNothing(p, OnEntry(c, p, e), e, messageId);
  }

  ghost predicate ClosedByLog(entries: seq<Entry>, messageId: string) {
    exists e :: e in entries && CloserId(e, messageId)
  }

  /** The open messages of the events so far are those of orphan results. */
  ghost predicate Open(p: Projector, orphans: set<string>, entries: seq<Entry>, messageId: string) {
    && (Opened(p.events, messageId) ==> Closed(p.events, messageId) || messageId in orphans)
    && (messageId in orphans ==> Opened(p.events, messageId))
    && (Closed(p.events, messageId) ==> ClosedByLog(entries, messageId))
  }

  lemma OpenStep(p: Projector, q: Projector, orphans: set<string>, entries: seq<Entry>, e: Entry, orphan: bool,
      messageId: string)
    requires Open(p, orphans, entries, messageId) && Tells(p, q, e, orphan, messageId)
    ensures Open(q, orphans + (if orphan then {e.id} else {}), entries + [e], messageId)
  {
  }

  lemma {:induction false} OnEntriesOpen(c: Context, p: Projector, entries: seq<Entry>, start: int, messageId: string)
    requires Shaped(c, p, start) && p.pending == [] && Open(p, {}, [], messageId)
    requires forall id :: Knows(p, [], id)
    ensures Open(OnEntries(c, p, entries), Orphans(c, entries), entries, messageId)
    decreases |entries|
  {
    hide Knows, Shaped, OnEntry, Open, Tells, Ops;
    if entries != [] {
      var prior, e := entries[..|entries| - 1], entries[|entries| - 1];
      var q := OnEntries(c, p, prior);
      OnEntriesOpen(c, p, prior, start, messageId);
      OnEntriesShaped(c, p, start, prior);
      OnEntryTells(c, q, e, start, messageId);
      if e.ToolResultEntry? {
        OnEntriesKnows(c, p, prior, start, ResultId(e));
        KnowsSeen(q, Ops(c, prior), ResultId(e));
      }
      OpenStep(q, OnEntry(c, q, e), Orphans(c, prior), prior, e, IsOrphan(c, prior, e), messageId);
      assert prior + [e] == entries;
    }
  }

  lemma KnowsSeen(p: Projector, ops: seq<Op>, id: string)
    requires Knows(p, ops, id)
    ensures id in p.seen <==> CallOp(id) in ops
  {
  }

  lemma {:induction false} MarkUnresolvedMessages(c: Context, p: Projector, n: nat, messageId: string)
    requires n <= |p.pending|
    ensures Opened(MarkUnresolved(c, p, n).events, messageId) <==> Opened(p.events, messageId)
    ensures Closed(MarkUnresolved(c, p, n).events, messageId) <==> Closed(p.events, messageId)
    decreases n
  {
    hide Opened, Closed;
    if n > 0 {
      MarkUnresolvedMessages(c, p, n - 1, messageId);
      PushMessages(c, MarkUnresolved(c, p, n - 1), ToolFailed(p.pending[n - 1].id, NOT_FINISHED), messageId);
    }
  }

  lemma OpenAfterProjection(entries: seq<Entry>, r: Request, messageId: string)
    ensures var events, orphans := Project(entries, r), Orphans(ContextOf(entries, r.sessionId), entries);
            (Opened(events, messageId) && !Closed(events, messageId)
             <==> messageId in orphans && !Closed(events, messageId)) &&
            (Closed(events, messageId) ==> ClosedByLog(entries, messageId))
  {
    hide OnEntries, MarkUnresolved, ContextOf, Orphans, Opened, Closed, Knows, Shaped, ClosedByLog;
    var c := ContextOf(entries, r.sessionId);
    var begun := Begin(c, r.title, r.updatedAt, r.startSeq);
    var p := OnEntries(c, begun, entries);
    forall id ensures Knows(begun, [], id) && Shaped(c, begun, r.startSeq) && begun.pending == [] {
      BeginKnows(c, r, id);
    }
    BeginOpen(c, r, messageId);
    OnEntriesOpen(c, begun, entries, r.startSeq, messageId);
    MarkUnresolvedMessages(c, p, |p.pending|, messageId);
  }

  lemma BeginOpen(c: Context, r: Request, messageId: string)
    ensures var begun := Begin(c, r.title, r.updatedAt, r.startSeq);
            Open(begun, {}, [], messageId) && Shaped(c, begun, r.startSeq) && begun.pending == []
  {
  }
}
