// What a browser shows of a list of consecutively numbered events of one session: which tools
// run, which messages stream, and with which text, each read off the events themselves.
module ChatView {
  import opened ChatEvents
  import opened EventFields
  import opened EventReducer
  import opened Options

  ghost predicate Numbered(events: seq<ChatEvent>, sessionId: string, start: int) {
    forall i :: 0 <= i < |events| ==> events[i].sessionId == sessionId && events[i].seqNo == start + i
  }

  // ---------------------------------------------------------------- the fold, from its end

  lemma {:induction false} FoldAppend(s: RenderState, events: seq<ChatEvent>, e: ChatEvent)
    requires Indexed(s.messages, s.messageById)
    ensures Fold(s, events + [e]) == Apply(Fold(s, events), e)
    decreases |events|
  {
    hide Indexed, Apply;
    if events == [] {
      assert [e][1..] == [];
      assert events + [e] == [e];
      assert Fold(Apply(s, e), []) == Apply(s, e);
    } else {
      assert (events + [e])[1..] == events[1..] + [e];
      FoldAppend(Apply(s, events[0]), events[1..], e);
    }
  }

  /** Consecutive numbers are all admitted, and no gap is ever reported, wherever they start. */
  lemma {:induction false} NumberedFold(events: seq<ChatEvent>, sessionId: string, start: int)
    requires Numbered(events, sessionId, start)
    ensures var r := Fold(EMPTY, events);
            r.gaps == [] && r.lastSeqBySession.Keys <= {sessionId} &&
            LastSeqOf(r, sessionId) == (if events == [] then 0 else Max(0, start + |events| - 1)) &&
            forall k :: k in r.seenSeq ==> k.1 < start + |events|
    decreases |events|
  {
    hide Indexed, Render;
    EmptyIsIndexed();
    if events != [] {
      var prior, e := events[..|events| - 1], events[|events| - 1];
      assert events == prior + [e];
      NumberedFold(prior, sessionId, start);
      var before := Fold(EMPTY, prior);
      FoldAppend(EMPTY, prior, e);
      assert EventKey(e) !in before.seenSeq;
      RenderKeepsNumbers(Admit(before, e), sessionId, e.body);
    }
  }

  lemma RenderKeepsNumbers(s: RenderState, sessionId: string, body: Body)
    requires Indexed(s.messages, s.messageById)
    ensures var r := Render(s, sessionId, body);
            r.gaps == s.gaps && r.lastSeqBySession == s.lastSeqBySession && r.seenSeq == s.seenSeq
  {
    hide Indexed, Render, ToolsAfter, RunsAfter, ThinkingAfter, SessionAfter;
    FieldsRendered(s, sessionId, body);
  }

  lemma NumberedStep(events: seq<ChatEvent>, sessionId: string, start: int)
    requires events != [] && Numbered(events, sessionId, start)
    ensures var prior, e := events[..|events| - 1], events[|events| - 1];
            Numbered(prior, sessionId, start) &&
              Fold(EMPTY, events) == Render(Admit(Fold(EMPTY, prior), e), sessionId, e.body)
  {
    hide Indexed, Render;
    EmptyIsIndexed();
    var prior, e := events[..|events| - 1], events[|events| - 1];
    assert events == prior + [e];
    NumberedFold(prior, sessionId, start);
    FoldAppend(EMPTY, prior, e);
    assert EventKey(e) !in Fold(EMPTY, prior).seenSeq;
  }

  // ---------------------------------------------------------------- running tools

  predicate ShowsRunning(s: RenderState, sessionId: string, toolCallId: string) {
    var key := ScopedId(sessionId, toolCallId);
    key in s.tools && s.tools[key].status == ToolRunning
  }

  predicate Starts(body: Body, toolCallId: string) {
    body.ToolStarted? && body.toolCallId == toolCallId
  }

  predicate Ends(body: Body, toolCallId: string) {
    (body.ToolCompleted? || body.ToolFailed?) && body.toolCallId == toolCallId
  }

  /** The tool was started and has not ended since. */
  predicate Running(events: seq<ChatEvent>, toolCallId: string)
    decreases |events|
  {
    events != [] &&
    var prior, body := events[..|events| - 1], events[|events| - 1].body;
    Starts(body, toolCallId) || (!Ends(body, toolCallId) && Running(prior, toolCallId))
  }

  lemma RenderTools(s: RenderState, sessionId: string, body: Body, toolCallId: string)
    requires Indexed(s.messages, s.messageById)
    ensures ShowsRunning(Render(s, sessionId, body), sessionId, toolCallId) <==>
            Starts(body, toolCallId) || (!Ends(body, toolCallId) && ShowsRunning(s, sessionId, toolCallId))
  {
    hide Indexed, ScopedId, Render, RunsAfter, ThinkingAfter, SessionAfter;
    FieldsRendered(s, sessionId, body);
    if IsToolBody(body) {
      ScopedIdInjective(sessionId, body.toolCallId, toolCallId);
    }
  }

  lemma {:induction false} ShownTools(events: seq<ChatEvent>, sessionId: string, start: int, toolCallId: string)
    requires Numbered(events, sessionId, start)
    ensures ShowsRunning(Fold(EMPTY, events), sessionId, toolCallId) <==> Running(events, toolCallId)
    decreases |events|
  {
    hide Indexed, Render, Numbered;
    EmptyIsIndexed();
    if events != [] {
      var prior, e := events[..|events| - 1], events[|events| - 1];
      NumberedStep(events, sessionId, start);
      ShownTools(prior, sessionId, start, toolCallId);
      RenderTools(Admit(Fold(EMPTY, prior), e), sessionId, e.body, toolCallId);
    }
  }

  // ---------------------------------------------------------------- runs and thinking

  /** A run and its thinking as one list of events tells them. */
  datatype Progress = Unknown | InProgress | Succeeded | HasFailed

  datatype Thought = NoThought | Thought(completed: bool, text: string)

  function ProgressAfter(before: Progress, body: Body, runId: string): Progress {
    if body.RunStarted? && body.runId == runId then InProgress
    else if body.RunCompleted? && body.runId == runId && before != Unknown then Succeeded
    else if body.RunFailed? && body.runId == runId && before != Unknown then HasFailed
    else before
  }

  function ThoughtAfter(before: Thought, body: Body, runId: string): Thought {
    var text := if before.Thought? then before.text else "";
    if body.ThinkingDelta? && body.runId == runId then Thought(false, text + body.text)
    else if body.ThinkingCompleted? && body.runId == runId
      then Thought(true, if body.finalText.Some? then body.finalText.value else text)
    else before
  }

  function RunTold(events: seq<ChatEvent>, runId: string): (Progress, Thought)
    decreases |events|
  {
    if events == [] then (Unknown, NoThought)
    else
      var before, body := RunTold(events[..|events| - 1], runId), events[|events| - 1].body;
      (ProgressAfter(before.0, body, runId), ThoughtAfter(before.1, body, runId))
  }

  function ProgressOf(status: RunStatus): Progress {
    match status
    case RunRunning => InProgress
    case RunDone => Succeeded
    case RunHasFailed => HasFailed
  }

  function RunShown(s: RenderState, sessionId: string, runId: string): (Progress, Thought) {
    var key := ScopedId(sessionId, runId);
    (if key in s.runs then ProgressOf(s.runs[key].status) else Unknown,
     if key in s.thinking then Thought(s.thinking[key].completed, s.thinking[key].text) else NoThought)
  }

  lemma RenderRuns(s: RenderState, sessionId: string, body: Body, runId: string)
    requires Indexed(s.messages, s.messageById)
    ensures var before, after := RunShown(s, sessionId, runId), RunShown(Render(s, sessionId, body), sessionId, runId);
            after == (ProgressAfter(before.0, body, runId), ThoughtAfter(before.1, body, runId))
  {
    hide Indexed, ScopedId, Render, ToolsAfter, SessionAfter;
    FieldsRendered(s, sessionId, body);
    if IsRunBody(body) || body.ThinkingDelta? || body.ThinkingCompleted? {
      ScopedIdInjective(sessionId, body.runId, runId);
    }
  }

  /** Status and thinking of a run are what its own events tell, untouched by other runs. */
  lemma {:induction false} ShownRuns(events: seq<ChatEvent>, sessionId: string, start: int, runId: string)
    requires Numbered(events, sessionId, start)
    ensures RunShown(Fold(EMPTY, events), sessionId, runId) == RunTold(events, runId)
    decreases |events|
  {
    hide Indexed, Render, Numbered, ProgressAfter, ThoughtAfter;
    EmptyIsIndexed();
    if events != [] {
      var prior, e := events[..|events| - 1], events[|events| - 1];
      NumberedStep(events, sessionId, start);
      ShownRuns(prior, sessionId, start, runId);
      RenderRuns(Admit(Fold(EMPTY, prior), e), sessionId, e.body, runId);
    }
  }

  // ---------------------------------------------------------------- streaming messages

  function MessageOf(s: RenderState, sessionId: string, messageId: string): Option<RenderMessage>
    requires Indexed(s.messages, s.messageById)
  {
    var key := ScopedId(sessionId, messageId);
    if key in s.messageById then Some(s.messages[s.messageById[key]]) else None
  }

  predicate Opens(body: Body, messageId: string) {
    (body.MessageCreated? || body.ToolStarted?) && body.messageId == messageId
  }

  predicate Closes(body: Body, messageId: string) {
    (body.MessageCompleted? || body.CustomMessage?) && body.messageId == messageId
  }

  predicate Streams(body: Body, messageId: string) {
    body.MessageDelta? && body.messageId == messageId
  }

  /** A message as one list of events tells it: does it exist, is it complete, what is its text. */
  datatype Shown = Absent | Present(completed: bool, text: string)

  function ShownAfter(before: Shown, body: Body, messageId: string): Shown {
    if Closes(body, messageId) then Present(true, ContentText(body.content))
    else if Streams(body, messageId) then Present(false, (if before.Present? then before.text else "") + body.text)
    else if Opens(body, messageId) && before.Absent? then Present(false, "")
    else before
  }

  function ShownBy(events: seq<ChatEvent>, messageId: string): Shown
    decreases |events|
  {
    if events == [] then Absent
    else ShownAfter(ShownBy(events[..|events| - 1], messageId), events[|events| - 1].body, messageId)
  }

  function Seen(m: Option<RenderMessage>): Shown {
    match m
    case None => Absent
    case Some(message) => Present(message.completed, message.text)
  }

  lemma WithMessageShows(s: RenderState, sessionId: string, id: string, role: Role, messageId: string)
    requires Indexed(s.messages, s.messageById)
    ensures var m, m' := MessageOf(s, sessionId, messageId),
            MessageOf(WithMessage(s, sessionId, id, role), sessionId, messageId);
            m' == if m == None && id == messageId then Some(NewMessage(sessionId, id, role)) else m
  {
    ScopedIdInjective(sessionId, id, messageId);
    hide ScopedId;
  }

  lemma EditMessageShows(s: RenderState, sessionId: string, id: string, body: Body, messageId: string)
    requires Indexed(s.messages, s.messageById)
    requires body.MessageDelta? || body.MessageCompleted? || body.CustomMessage?
    ensures var m, m' := MessageOf(s, sessionId, messageId),
            MessageOf(EditMessageAt(s, sessionId, id, body), sessionId, messageId);
            m' == if id != messageId then m
                  else Some(EditMessage(if m.Some? then m.value else NewMessage(sessionId, id, Assistant), body))
  {
    WithMessageShows(s, sessionId, id, Assistant, messageId);
    ScopedIdInjective(sessionId, id, messageId);
    hide ScopedId, EditMessage;
  }

  lemma RenderMessages(s: RenderState, sessionId: string, body: Body, messageId: string)
    requires Indexed(s.messages, s.messageById)
    ensures Seen(MessageOf(Render(s, sessionId, body), sessionId, messageId))
            == ShownAfter(Seen(MessageOf(s, sessionId, messageId)), body, messageId)
  {
    hide Indexed, Render, WithMessage, EditMessageAt, StartTool, EditToolAt, MessageOf, SameShelf, SessionAfter;
    Dispatched(s, sessionId, body);
    if body.ToolStarted? {
      StartedShelf(s, sessionId, body);
      SameShelfShows(Render(s, sessionId, body), WithMessage(s, sessionId, body.messageId, Assistant),
                     sessionId, messageId);
      WithMessageShows(s, sessionId, body.messageId, Assistant, messageId);
    } else if body.MessageCreated? {
      WithMessageShows(s, sessionId, body.messageId, body.role, messageId);
    } else if IsMessageBody(body) {
      EditMessageShows(s, sessionId, body.messageId, body, messageId);
    } else {
      OthersKeepShelf(s, sessionId, body);
      SameShelfShows(Render(s, sessionId, body), s, sessionId, messageId);
    }
  }

  lemma SameShelfShows(r: RenderState, s: RenderState, sessionId: string, messageId: string)
    requires Indexed(r.messages, r.messageById) && Indexed(s.messages, s.messageById) && SameShelf(r, s)
    ensures MessageOf(r, sessionId, messageId) == MessageOf(s, sessionId, messageId)
  {
    hide ScopedId;
  }

  /** The rendered message is what its own events tell; the events of others do not touch it. */
  lemma {:induction false} ShownMessages(events: seq<ChatEvent>, sessionId: string, start: int, messageId: string)
    requires Numbered(events, sessionId, start)
    ensures Seen(MessageOf(Fold(EMPTY, events), sessionId, messageId)) == ShownBy(events, messageId)
    decreases |events|
  {
    hide Indexed, Render, Numbered, MessageOf, ShownAfter;
    EmptyIsIndexed();
    if events == [] {
      NothingShown(sessionId, messageId);
    } else {
      var prior, e := events[..|events| - 1], events[|events| - 1];
      NumberedStep(events, sessionId, start);
      ShownMessages(prior, sessionId, start, messageId);
      RenderMessages(Admit(Fold(EMPTY, prior), e), sessionId, e.body, messageId);
      AdmitKeepsMessages(Fold(EMPTY, prior), e, sessionId, messageId);
    }
  }

  lemma NothingShown(sessionId: string, messageId: string)
    ensures Seen(MessageOf(Fold(EMPTY, []), sessionId, messageId)) == Absent
  {
  }

  lemma AdmitKeepsMessages(s: RenderState, e: ChatEvent, sessionId: string, messageId: string)
    requires Indexed(s.messages, s.messageById)
    ensures MessageOf(Admit(s, e), sessionId, messageId) == MessageOf(s, sessionId, messageId)
  {
  }

  ghost predicate Opened(events: seq<ChatEvent>, messageId: string) {
    exists i :: 0 <= i < |events| && Opens(events[i].body, messageId)
  }

  ghost predicate Closed(events: seq<ChatEvent>, messageId: string) {
    exists i :: 0 <= i < |events| && Closes(events[i].body, messageId)
  }

  ghost predicate NoDeltas(events: seq<ChatEvent>) {
    forall i :: 0 <= i < |events| ==> !events[i].body.MessageDelta?
  }

  /** Without deltas a message streams exactly if something opened it and nothing closed it. */
  lemma {:induction false} StreamingWithoutDeltas(events: seq<ChatEvent>, messageId: string)
    requires NoDeltas(events)
    ensures ShownBy(events, messageId).Absent? <==> !Opened(events, messageId) && !Closed(events, messageId)
    ensures ShownBy(events, messageId).Present? && !ShownBy(events, messageId).completed <==>
            Opened(events, messageId) && !Closed(events, messageId)
    decreases |events|
  {
    if events != [] {
      var prior, e := events[..|events| - 1], events[|events| - 1];
      StreamingWithoutDeltas(prior, messageId);
      assert Opened(events, messageId) <==> Opened(prior, messageId) || Opens(e.body, messageId) by {
        assert forall i :: 0 <= i < |prior| ==> prior[i] == events[i];
      }
      assert Closed(events, messageId) <==> Closed(prior, messageId) || Closes(e.body, messageId) by {
        assert forall i :: 0 <= i < |prior| ==> prior[i] == events[i];
      }
    }
  }

  /** Sorting changes nothing of a numbered list. */
  lemma {:induction false} NumberedIsSorted(events: seq<ChatEvent>, sessionId: string, start: int)
    requires Numbered(events, sessionId, start)
    ensures Sort(events) == events
    decreases |events|
  {
    if events != [] {
      NumberedIsSorted(events[1..], sessionId, start + 1);
      assert events == [events[0]] + events[1..];
    }
  }
}
