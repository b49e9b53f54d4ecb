// Reload: a session log is projected to events and the events are reduced to a chat.
module ChatComposition {
  import opened ChatEvents
  import opened ChatProjection
  import opened ChatTranscript
  import opened ChatView
  import opened EventFields
  import opened EventReducer
  import opened Options
  import opened SessionLog

  // ---------------------------------------------------------------- only one session

  ghost predicate OfSession(s: RenderState, sessionId: string) {
    forall k :: k in s.tools ==> k == ScopedId(sessionId, s.tools[k].id)
  }

  lemma RenderOfSession(s: RenderState, sessionId: string, body: Body)
    requires Indexed(s.messages, s.messageById) && OfSession(s, sessionId)
    ensures OfSession(Render(s, sessionId, body), sessionId)
  {
    hide Indexed, ScopedId, Render, RunsAfter, ThinkingAfter, SessionAfter;
    FieldsRendered(s, sessionId, body);
  }

  lemma {:induction false} FoldOfSession(events: seq<ChatEvent>, sessionId: string, start: int)
    requires Numbered(events, sessionId, start)
    ensures OfSession(Fold(EMPTY, events), sessionId)
    decreases |events|
  {
    hide Indexed, Render, Numbered;
    EmptyIsIndexed();
    if events != [] {
      var prior, e := events[..|events| - 1], events[|events| - 1];
      NumberedStep(events, sessionId, start);
      FoldOfSession(prior, sessionId, start);
      RenderOfSession(Admit(Fold(EMPTY, prior), e), sessionId, e.body);
    }
  }

  // ---------------------------------------------------------------- reload

  predicate Streaming(s: RenderState, sessionId: string, messageId: string)
    requires Indexed(s.messages, s.messageById)
  {
    MessageOf(s, sessionId, messageId).Some? && !MessageOf(s, sessionId, messageId).value.completed
  }

  lemma ReducedProjection(entries: seq<Entry>, r: Request)
    ensures var events := Project(entries, r);
            Numbered(events, r.sessionId, r.startSeq) && NoDeltas(events) &&
            Indexed(EMPTY.messages, EMPTY.messageById) && Reduce(events) == Fold(EMPTY, events)
  {
    hide Indexed, Numbered, NoDeltas, Project, Sort;
    EmptyIsIndexed();
    ProjectionIsNumbered(entries, r);
    NumberedIsSorted(Project(entries, r), r.sessionId, r.startSeq);
  }

  /** Reloading a log, any log, from any start: no gap is reported, and every number is admitted. */
  lemma ReloadHasNoGaps(entries: seq<Entry>, r: Request)
    ensures var events, s := Project(entries, r), Reduce(Project(entries, r));
            s.gaps == [] && Numbered(events, r.sessionId, r.startSeq) && events != [] &&
            LastSeqOf(s, r.sessionId) == Max(0, r.startSeq + |events| - 1)
  {
    hide Indexed, Numbered, NoDeltas, Project, Reduce, Fold;
    ReducedProjection(entries, r);
    ProjectionIsNotEmpty(entries, r);
    NumberedFold(Project(entries, r), r.sessionId, r.startSeq);
  }

  lemma {:induction false} OnEntriesGrows(c: Context, p: Projector, entries: seq<Entry>, start: int)
    requires Shaped(c, p, start)
    ensures |p.events| <= |OnEntries(c, p, entries).events|
    decreases |entries|
  {
    hide OnEntry, Shaped;
    if entries != [] {
      var prior := entries[..|entries| - 1];
      OnEntriesGrows(c, p, prior, start);
      OnEntryGrows(c, OnEntries(c, p, prior), entries[|entries| - 1]);
    }
  }

  lemma {:induction false} PushCallsGrows(c: Context, p: Projector, messageId: string, parts: seq<Part>)
    ensures |p.events| <= |PushCalls(c, p, messageId, parts).events|
    decreases |parts|
  {
    if parts != [] {
      PushCallsGrows(c, p, messageId, parts[..|parts| - 1]);
    }
  }

  lemma OnEntryGrows(c: Context, p: Projector, e: Entry)
    ensures |p.events| <= |OnEntry(c, p, e).events|
  {
    hide UserContent, StringField, MessageText, Chips, PatchUser, DropPending, OnAssistant;
    if e.AssistantEntry? {
      OnAssistantGrows(c, p, e);
    }
  }

  lemma OnAssistantGrows(c: Context, p: Projector, e: Entry)
    requires e.AssistantEntry?
    ensures |p.events| <= |OnAssistant(c, p, e).events|
  {
    hide HasVisibleContent, AssistantContent, PushCalls;
    PushCallsGrows(c, Push(c, p.(afterUser := false), MessageCreated(e.id, Assistant)), e.id, e.parts);
  }

  lemma {:induction false} MarkUnresolvedGrows(c: Context, p: Projector, n: nat)
    requires n <= |p.pending|
    ensures |p.events| <= |MarkUnresolved(c, p, n).events|
    decreases n
  {
    if n > 0 {
      MarkUnresolvedGrows(c, p, n - 1);
    }
  }

  lemma ProjectionIsNotEmpty(entries: seq<Entry>, r: Request)
    ensures Project(entries, r) != []
  {
    hide OnEntries, MarkUnresolved, ContextOf, Shaped;
    var c := ContextOf(entries, r.sessionId);
    var begun := Begin(c, r.title, r.updatedAt, r.startSeq);
    BeginKnows(c, r, "");
    OnEntriesGrows(c, begun, entries, r.startSeq);
    var p := OnEntries(c, begun, entries);
    MarkUnresolvedGrows(c, p, |p.pending|);
  }

  /** After a reload a tool is shown running exactly if the log ends its id with a call that reuses
      the id of an earlier result (without the marking: if the log ends it with a call). */
  lemma ReloadRunsTool(entries: seq<Entry>, r: Request, id: string)
    ensures var ops := Ops(ContextOf(entries, r.sessionId), entries);
            ShowsRunning(Reduce(Project(entries, r)), r.sessionId, id)
            <==> if r.markUnresolved then ReusesResult(ops, id) else EndsInCall(ops, id)
  {
    hide Indexed, Numbered, NoDeltas, Project, Reduce, Fold, ContextOf, Ops, ShowsRunning, ReusesResult, EndsInCall,
         Running;
    ReducedProjection(entries, r);
    ShownTools(Project(entries, r), r.sessionId, r.startSeq, id);
    RunningAfterProjection(entries, r, id);
  }

  /** Where no call reuses the id of an earlier result, a reload shows no running tool at all. */
  lemma ReloadFinishesTools(entries: seq<Entry>, r: Request)
    requires r.markUnresolved && forall id :: !ReusesResult(Ops(ContextOf(entries, r.sessionId), entries), id)
    ensures var tools := Reduce(Project(entries, r)).tools; forall k :: k in tools ==> tools[k].status != ToolRunning
  {
    hide Indexed, Numbered, NoDeltas, Project, Reduce, Fold, ContextOf, Ops, ReusesResult;
    ReducedProjection(entries, r);
    FoldOfSession(Project(entries, r), r.sessionId, r.startSeq);
    var tools := Reduce(Project(entries, r)).tools;
    forall k | k in tools ensures tools[k].status != ToolRunning {
      ReloadRunsTool(entries, r, tools[k].id);
    }
  }

  /** After a reload a message streams exactly if it is an orphan tool result's and no notice or
      message of the log has its id. */
  lemma ReloadStreams(entries: seq<Entry>, r: Request, messageId: string)
    ensures var events := Project(entries, r);
            Streaming(Reduce(events), r.sessionId, messageId)
            <==> messageId in Orphans(ContextOf(entries, r.sessionId), entries) && !Closed(events, messageId)
  {
    hide Indexed, Numbered, NoDeltas, Project, Reduce, Fold, ContextOf, Orphans, MessageOf, Opened, Closed, ShownBy;
    var events := Project(entries, r);
    ReducedProjection(entries, r);
    ShownMessages(events, r.sessionId, r.startSeq, messageId);
    StreamingWithoutDeltas(events, messageId);
    OpenAfterProjection(entries, r, messageId);
  }

  /** The ids of the entries are distinct, and none is another's id with a prefix of the projection. */
  ghost predicate PlainIds(entries: seq<Entry>) {
    && DistinctEntries(entries)
    && forall i, j :: 0 <= i < |entries| && 0 <= j < |entries| && CloserId(entries[j], entries[i].id) ==> i == j
  }

  lemma {:induction false} OrphanIsToolResult(c: Context, entries: seq<Entry>, messageId: string)
    requires messageId in Orphans(c, entries)
    ensures exists i :: 0 <= i < |entries| && entries[i].ToolResultEntry? && entries[i].id == messageId
    decreases |entries|
  {
    hide IsOrphan;
    var before, e := entries[..|entries| - 1], entries[|entries| - 1];
    if messageId in Orphans(c, before) {
      OrphanIsToolResult(c, before, messageId);
      var i :| 0 <= i < |before| && before[i].ToolResultEntry? && before[i].id == messageId;
      assert entries[i] == before[i];
    } else {
      OrphanShape(c, before, e);
    }
  }

  lemma OrphanShape(c: Context, before: seq<Entry>, e: Entry)
    ensures IsOrphan(c, before, e) ==> e.ToolResultEntry?
  {
  }

  lemma PrefixedIdDiffers(id: string)
    ensures CancelledUserId(id) != id && StoppedId(id) != id && ModelErrorId(id) != id && WorkflowStepId(id) != id
  {
  }

  /** With plain ids, the streaming messages after a reload are those of the orphan tool results. */
  lemma OrphansStream(entries: seq<Entry>, r: Request, messageId: string)
    requires PlainIds(entries)
    ensures Streaming(Reduce(Project(entries, r)), r.sessionId, messageId)
            <==> messageId in Orphans(ContextOf(entries, r.sessionId), entries)
  {
    hide Indexed, Project, Reduce, ContextOf, Orphans, Streaming, Opened, Closed, CancelledUserId, StoppedId,
         ModelErrorId, WorkflowStepId;
    var c := ContextOf(entries, r.sessionId);
    ReloadStreams(entries, r, messageId);
    OpenAfterProjection(entries, r, messageId);
    if messageId in Orphans(c, entries) && Closed(Project(entries, r), messageId) {
      OrphanIsToolResult(c, entries, messageId);
      var i :| 0 <= i < |entries| && entries[i].ToolResultEntry? && entries[i].id == messageId;
      var e :| e in entries && CloserId(e, messageId);
      var j :| 0 <= j < |entries| && entries[j] == e;
      PrefixedIdDiffers(e.id);
      assert false;
    }
  }

  // ---------------------------------------------------------------- the user's own words

  predicate InlineImage(part: Content) {
    part.ImagePart? && part.url.None? && part.data.Some? && part.mimeType.Some?
  }

  lemma {:induction false} ImagesShownTwice(content: seq<Content>)
    ensures |ShownImages(ShownImages(content))| == |ShownImages(content)|
    ensures ShownImages(ShownImages(content)) == ShownImages(content) <==> forall i :: 0 <= i < |content| ==>
            !InlineImage(content[i])
    decreases |content|
  {
    if content != [] {
      var rest := content[1..];
      ImagesShownTwice(rest);
      assert content == [content[0]] + rest;
      var head, tail := ShownImage(content[0]), ShownImages(rest);
      ImageShownTwice(content[0]);
      if head != [] {
        ShownFirst(head[0], tail);
        SameSplit(ShownImage(head[0]), ShownImages(tail), head, tail);
        hide ShownImage, InlineImage;
      } else {
        hide ShownImage, InlineImage;
        assert ShownImages(content) == [] + tail == tail;
      }
    }
  }

  lemma ImageShownTwice(part: Content)
    ensures var head := ShownImage(part);
            if head == [] then !InlineImage(part)
            else |head| == 1 == |ShownImage(head[0])| && (ShownImage(head[0]) == head <==> !InlineImage(part))
  {
  }

  lemma ShownFirst(part: Content, rest: seq<Content>)
    ensures ShownImages([part] + rest) == ShownImage(part) + ShownImages(rest)
  {
    hide ShownImage;
    assert ([part] + rest)[1..] == rest;
  }

  lemma SameSplit(a: seq<Content>, b: seq<Content>, c: seq<Content>, d: seq<Content>)
    requires |a| == |c|
    ensures a + b == c + d <==> a == c && b == d
  {
    assert (a + b)[..|a|] == a && (a + b)[|a|..] == b && (c + d)[..|c|] == c && (c + d)[|c|..] == d;
  }

  lemma UserContentTwice(content: seq<Content>, original: string)
    ensures UserContent(UserContent(content, None), Some(original)) == UserContent(content, Some(original))
            <==> forall i :: 0 <= i < |content| ==> !InlineImage(content[i])
  {
    ImagesShownTwice(content);
    var once := UserContent(content, None);
    assert once[1..] == ShownImages(content) && ShownImage(once[0]) == [];
    assert ShownImages(once) == ShownImages(ShownImages(content));
    var a, b := UserContent(once, Some(original)), UserContent(content, Some(original));
    assert a[1..] == ShownImages(once) && b[1..] == ShownImages(content);
  }

  /** What a shown user message adds to the events. */
  function UserEvents(c: Context, p: Projector, id: string, content: seq<Content>,
      attachments: seq<Attachment>): seq<ChatEvent>
  {
    [ChatEvent(c.sessionId, p.seqNo, MessageCreated(id, User)),
     ChatEvent(c.sessionId, p.seqNo + 1, MessageCompleted(id, content, Chips(attachments)))]
  }

  ghost predicate Quiescent(p: Projector) {
    !p.afterUser && p.original == None && p.attachments == []
  }

  /** The user message is shown and not only told as a workflow step. */
  predicate IsShownUser(c: Context, e: Entry) {
    e.UserEntry? && (e.id in c.steps ==> c.steps[e.id].preserveUserTurn)
  }

  /** The step that a user message of a workflow is told as, behind the message. */
  function StepEvents(c: Context, p: Projector, user: Entry): seq<ChatEvent>
    requires user.UserEntry?
  {
    if user.id !in c.steps then []
    else
      [ChatEvent(c.sessionId, p.seqNo + 2,
                 CustomMessage(WorkflowStepId(user.id), "opencandle-workflow-step", UserContent(user.content, None),
                               Step(c.steps[user.id])))]
  }

  lemma MarkerFirst(c: Context, p: Projector, marker: Entry, user: Entry)
    requires marker.UserInputEntry? && IsShownUser(c, user) && Quiescent(p)
    ensures var q := OnUser(c, OnUserInput(p, marker), user);
            var content := UserContent(user.content, OriginalInputText(marker));
            q.events == p.events + UserEvents(c, p, user.id, content, marker.attachments) + StepEvents(c, p, user) &&
            q.retryPrompt == StringField(MessageText(content))
  {
    hide UserContent, MessageText, StringField, OriginalInputText, WorkflowStepId;
  }

  lemma UserAlone(c: Context, p: Projector, user: Entry)
    requires IsShownUser(c, user) && Quiescent(p)
    ensures var q := OnUser(c, p, user);
            q.events == p.events + UserEvents(c, p, user.id, UserContent(user.content, None), [])
              + StepEvents(c, p, user) &&
            q.retryPrompt == StringField(MessageText(UserContent(user.content, None))) &&
            q.afterUser && q.lastUser == Some(|p.events| + 1)
  {
    hide UserContent, MessageText, StringField, WorkflowStepId;
  }

  lemma MarkerSecond(c: Context, p: Projector, marker: Entry, user: Entry)
    requires marker.UserInputEntry? && IsShownUser(c, user) && Quiescent(p) && OriginalInputText(marker).Some?
    ensures var q := OnUserInput(OnUser(c, p, user), marker);
            var content := UserContent(UserContent(user.content, None), OriginalInputText(marker));
            q.events == p.events + UserEvents(c, p, user.id, content, marker.attachments) + StepEvents(c, p, user) &&
            q.retryPrompt == StringField(MessageText(UserContent(user.content, None)))
  {
    hide UserContent, MessageText, StringField, OriginalInputText, OnUser, StepEvents;
    UserAlone(c, p, user);
  }

  /** The marker with the user's own words may stand before or after the message that a workflow
      expanded. If the message is shown, the events agree exactly if it has no inline image, which the
      second order strips of its data; the prompt kept for Retry is the user's own only in the first.
      If it is a hidden step, the first order drops the words and the second keeps them waiting. */
  lemma MarkerOrder(c: Context, p: Projector, marker: Entry, user: Entry)
    requires marker.UserInputEntry? && user.UserEntry? && OriginalInputText(marker).Some?
    requires Quiescent(p)
    ensures var first, second := OnUser(c, OnUserInput(p, marker), user), OnUserInput(OnUser(c, p, user), marker);
            if IsShownUser(c, user) then
              (first.events == second.events <==> forall i :: 0 <= i < |user.content| ==>
               !InlineImage(user.content[i])) &&
              first.retryPrompt == StringField(marker.original) &&
              second.retryPrompt == StringField(ContentText(user.content))
            else first.events == second.events && first.original == None && second.original == OriginalInputText(marker)
  {
    if IsShownUser(c, user) {
      var original := OriginalInputText(marker);
      MarkerFirst(c, p, marker, user);
      MarkerSecond(c, p, marker, user);
      UserContentTwice(user.content, original.value);
      UserContentText(user.content, original);
      UserContentText(user.content, None);
      hide OnUser, OnUserInput, UserContent, StringField, ContentText, StepEvents;
      var a := UserEvents(c, p, user.id, UserContent(user.content, original), marker.attachments);
      var b := UserEvents(c, p, user.id, UserContent(UserContent(user.content, None), original), marker.attachments);
      assert a == b <==> a[1].body == b[1].body;
      SameMiddle(p.events, a, b, StepEvents(c, p, user));
    }
  }

  lemma SameMiddle(front: seq<ChatEvent>, a: seq<ChatEvent>, b: seq<ChatEvent>, back: seq<ChatEvent>)
    requires |a| == |b|
    ensures front + a + back == front + b + back <==> a == b
  {
    assert (front + a + back)[|front|..|front| + |a|] == a && (front + b + back)[|front|..|front| + |b|] == b;
  }

  lemma {:induction false} ImagesHaveNoText(content: seq<Content>)
    ensures ContentText(ShownImages(content)) == ""
    decreases |content|
  {
    if content != [] {
      ImagesHaveNoText(content[1..]);
      var shown := ShownImages(content);
      if ShownImage(content[0]) != [] {
        assert shown[1..] == ShownImages(content[1..]);
      } else {
        assert shown == ShownImages(content[1..]);
      }
    }
  }

  lemma UserContentText(content: seq<Content>, original: Option<string>)
    ensures ContentText(UserContent(content, original)) == if original.Some? then original.value
            else ContentText(content)
  {
    var r := UserContent(content, original);
    assert r[1..] == ShownImages(content);
    ImagesHaveNoText(content);
  }
}
