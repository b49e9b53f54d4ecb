// Which words a reload shows: those of the answers, and the user's own where a marker has them.
module ChatWords {
  import opened ChatComposition
  import opened ChatEvents
  import opened ChatProjection
  import opened ChatTranscript
  import opened ChatView
  import opened EventReducer
  import opened Options
  import opened SessionLog
  import WorkflowSteps

  // ---------------------------------------------------------------- what the log says

  /** The texts of an answer, joined. */
  function AnswerText(parts: seq<Part>): string
    decreases |parts|
  {
    if parts == [] then ""
    else AnswerText(parts[..|parts| - 1]) + if parts[|parts| - 1].TextBlock? then parts[|parts| - 1].text else ""
  }

  /** A marker that comes now stands directly behind a user message, messages of other roles aside. */
  predicate Behind(entries: seq<Entry>)
    decreases |entries|
  {
    entries != [] &&
    var last := entries[|entries| - 1];
    last.UserEntry? || (last.OtherMessageEntry? && Behind(entries[..|entries| - 1]))
  }

  /** The words that the user left ahead of the next turn: those of the latest marker that does not
      stand behind a message of its own. */
  function WordsAhead(entries: seq<Entry>): Option<string>
    decreases |entries|
  {
    if entries == [] then None
    else
      var prior, last := entries[..|entries| - 1], entries[|entries| - 1];
      if last.UserEntry? || last.RunCancelledEntry? then None
      else if last.UserInputEntry? && !Behind(prior) then OriginalInputText(last)
      else WordsAhead(prior)
  }

  /** The words of a marker right behind a user message, where `rest` is the log after it. */
  function FollowingWords(rest: seq<Entry>): Option<string>
    decreases |rest|
  {
    if rest == [] then None
    else if rest[0].UserInputEntry? then OriginalInputText(rest[0])
    else if rest[0].OtherMessageEntry? then FollowingWords(rest[1..])
    else None
  }

  /** The words that belong to the message: those of the marker right behind it, else those left
      ahead of it, else its text. */
  function OwnWords(entries: seq<Entry>, i: nat): string
    requires i < |entries| && entries[i].UserEntry?
  {
    var after, ahead := FollowingWords(entries[i + 1..]), WordsAhead(entries[..i]);
    if after.Some? then after.value else if ahead.Some? then ahead.value else ContentText(entries[i].content)
  }

  /** A marker with words stands directly behind a hidden step, and neither a turn nor another marker
      comes between it and the message. */
  ghost predicate StrayAt(c: Context, entries: seq<Entry>, i: nat, k: int)
    requires i <= |entries|
  {
    && 0 <= k < i && entries[k].UserInputEntry? && OriginalInputText(entries[k]).Some?
    && Behind(entries[..k]) && !AtUser(c, entries[..k])
    && forall j :: k < j < i ==> !TakesWords(entries[j])
  }

  predicate TakesWords(e: Entry) {
    e.UserEntry? || e.RunCancelledEntry? || e.UserInputEntry?
  }

  // ---------------------------------------------------------------- what the loop knows

  /** A marker that comes now is given to the user message before it. */
  predicate AtUser(c: Context, entries: seq<Entry>)
    decreases |entries|
  {
    entries != [] &&
    var last := entries[|entries| - 1];
    IsShownUser(c, last) || (last.OtherMessageEntry? && AtUser(c, entries[..|entries| - 1]))
  }

  /** The words of a marker that the loop keeps for the next user message. */
  function WaitingWords(c: Context, entries: seq<Entry>): Option<string>
    decreases |entries|
  {
    if entries == [] then None
    else
      var prior, last := entries[..|entries| - 1], entries[|entries| - 1];
      if last.UserEntry? || last.RunCancelledEntry? then None
      else if last.UserInputEntry? && !AtUser(c, prior) then OriginalInputText(last)
      else WaitingWords(c, prior)
  }

  // ---------------------------------------------------------------- the events

  lemma PushShows(c: Context, p: Projector, body: Body, messageId: string)
    ensures ShownBy(Push(c, p, body).events, messageId) == ShownAfter(ShownBy(p.events, messageId), body, messageId)
  {
    var after := Push(c, p, body).events;
    assert after[..|after| - 1] == p.events;
  }

  /** An event that does not tell of a message leaves it as it is shown. */
  predicate Silent(body: Body, messageId: string) {
    !Closes(body, messageId) && !Streams(body, messageId)
  }

  ghost predicate Kept(p: Projector, q: Projector, messageId: string) {
    ShownBy(p.events, messageId).Present? ==> ShownBy(q.events, messageId) == ShownBy(p.events, messageId)
  }

  lemma PushKeeps(c: Context, p: Projector, q: Projector, body: Body, messageId: string)
    requires Silent(body, messageId) && q.events == Push(c, p, body).events
    ensures Kept(p, q, messageId)
  {
    hide ShownBy;
    PushShows(c, p, body, messageId);
  }

  lemma KeptTwice(p: Projector, q: Projector, r: Projector, messageId: string)
    requires Kept(p, q, messageId) && Kept(q, r, messageId)
    ensures Kept(p, r, messageId)
  {
  }

  lemma NothingPushed(p: Projector, q: Projector, messageId: string)
    requires p.events == q.events
    ensures Kept(p, q, messageId)
  {
  }

  lemma {:induction false} PushCallsKeeps(c: Context, p: Projector, id: string, parts: seq<Part>, messageId: string)
    ensures Kept(p, PushCalls(c, p, id, parts), messageId)
    decreases |parts|
  {
    hide Kept;
    if parts == [] {
      NothingPushed(p, p, messageId);
    } else {
      var prior, part := parts[..|parts| - 1], parts[|parts| - 1];
      var q := PushCalls(c, p, id, prior);
      PushCallsKeeps(c, p, id, prior, messageId);
      if part.CallBlock? {
        var noted := q.(seen := q.seen + {part.id}, pending := PutPending(q.pending, part.id, part.name));
        NothingPushed(q, noted, messageId);
        PushKeeps(c, noted, PushCall(c, q, id, part), ToolStarted(part.id, id, part.name, part.arguments), messageId);
        KeptTwice(p, q, noted, messageId);
        KeptTwice(p, noted, PushCall(c, q, id, part), messageId);
      }
    }
  }

  lemma PairKeeps(c: Context, p: Projector, id: string, role: Role, content: seq<Content>,
      attachments: Option<seq<Attachment>>, messageId: string)
    requires id != messageId
    ensures Kept(p, Push(c, Push(c, p, MessageCreated(id, role)), MessageCompleted(id, content, attachments)),
                 messageId)
  {
    hide Kept;
    var created := Push(c, p, MessageCreated(id, role));
    PushKeeps(c, p, created, MessageCreated(id, role), messageId);
    PushKeeps(c, created, Push(c, created, MessageCompleted(id, content, attachments)),
              MessageCompleted(id, content, attachments), messageId);
    KeptTwice(p, created, Push(c, created, MessageCompleted(id, content, attachments)), messageId);
  }

  lemma OnAssistantKeeps(c: Context, p: Projector, e: Entry, messageId: string)
    requires e.AssistantEntry? && !CloserId(e, messageId)
    ensures Kept(p, OnAssistant(c, p, e), messageId)
  {
    hide Kept, HasVisibleContent, AssistantContent, PushCalls;
    var q, after := p.(afterUser := false), OnAssistant(c, p, e);
    NothingPushed(p, q, messageId);
    if ShownAsFailure(c, e) || !(ShownAsStopped(c, e) ==> HasVisibleContent(e.parts)) {
      if |after.events| == |p.events| {
        NothingPushed(p, after, messageId);
      } else {
        PushKeeps(c, p, after, after.events[|p.events|].body, messageId);
      }
    } else {
      var created := Push(c, q, MessageCreated(e.id, Assistant));
      var called, answered := PushCalls(c, created, e.id, e.parts), PushAnswer(c, q, e);
      PushKeeps(c, p, created, MessageCreated(e.id, Assistant), messageId);
      PushCallsKeeps(c, created, e.id, e.parts, messageId);
      KeptTwice(p, created, called, messageId);
      PushKeeps(c, called, answered, MessageCompleted(e.id, AssistantContent(e.parts), None), messageId);
      KeptTwice(p, called, answered, messageId);
      if ShownAsStopped(c, e) {
        PushKeeps(c, answered, after, after.events[|answered.events|].body, messageId);
        KeptTwice(p, answered, after, messageId);
      }
    }
  }

  lemma OnToolResultKeeps(c: Context, p: Projector, e: Entry, messageId: string)
    requires e.ToolResultEntry?
    ensures Kept(p, OnToolResult(c, p, e), messageId)
  {
    hide Kept, ResultId, ResultBody, DropPending;
    var rid, after := ResultId(e), OnToolResult(c, p, e);
    var q := p.(afterUser := false, resolved := p.resolved + {rid}, pending := DropPending(p.pending, rid));
    ResultIsNoDelta(e);
    if rid in p.seen {
      PushKeeps(c, p, after, ResultBody(e), messageId);
    } else {
      var start := ToolStarted(rid, e.id, if e.toolName != "" then e.toolName else "tool", e.input);
      PushKeeps(c, p, Push(c, q, start), start, messageId);
      PushKeeps(c, Push(c, q, start), after, ResultBody(e), messageId);
      KeptTwice(p, Push(c, q, start), after, messageId);
    }
  }

  lemma OnUserKeeps(c: Context, p: Projector, e: Entry, messageId: string)
    requires e.UserEntry? && !CloserId(e, messageId)
    ensures Kept(p, OnUser(c, p, e), messageId)
  {
    hide Kept, UserContent, StringField, MessageText, Chips;
    var turn, after := p.(notice := false), OnUser(c, p, e);
    var told := if IsShownUser(c, e) then PushUser(c, turn, e) else turn.(afterUser := false);
    if IsShownUser(c, e) {
      PairKeeps(c, turn, e.id, User, UserContent(e.content, p.original), Chips(p.attachments), messageId);
      SameShown(turn, p, Push(c, Push(c, turn, MessageCreated(e.id, User)),
                              MessageCompleted(e.id, UserContent(e.content, p.original), Chips(p.attachments))), told,
                              messageId);
    } else {
      NothingPushed(p, told, messageId);
    }
    if e.id in c.steps {
      PushKeeps(c, told, after, after.events[|told.events|].body, messageId);
    } else {
      NothingPushed(told, after, messageId);
    }
    KeptTwice(p, told, after, messageId);
  }

  lemma SameShown(p: Projector, p': Projector, q: Projector, q': Projector, messageId: string)
    requires Kept(p, q, messageId) && p.events == p'.events && q.events == q'.events
    ensures Kept(p', q', messageId)
  {
  }

  lemma OnRunCancelledKeeps(c: Context, p: Projector, e: Entry, messageId: string)
    requires e.RunCancelledEntry? && !CloserId(e, messageId)
    ensures Kept(p, OnRunCancelled(c, p, e), messageId)
  {
    hide Kept, StringField, Chips;
    var text := if p.original.Some? then p.original else StringField(e.text);
    var cleared, after := p.(original := None, attachments := [], afterUser := false), OnRunCancelled(c, p, e);
    var told := if text.Some? then PushCancelledUser(c, cleared, e.id, text.value, p.attachments) else cleared;
    NothingPushed(p, cleared, messageId);
    if text.Some? {
      PairKeeps(c, cleared, CancelledUserId(e.id), User, [TextPart(text.value)], Chips(p.attachments), messageId);
    } else {
      NothingPushed(cleared, told, messageId);
    }
    KeptTwice(p, cleared, told, messageId);
    PushKeeps(c, told, after, after.events[|told.events|].body, messageId);
    KeptTwice(p, told, after, messageId);
  }

  lemma OnNoticeKeeps(c: Context, p: Projector, e: Entry, messageId: string)
    requires (e.CustomMessageEntry? || e.RunStoppedEntry?) && !CloserId(e, messageId)
    ensures Kept(p, OnEntry(c, p, e), messageId)
  {
    hide Kept, StringField;
    var after := OnEntry(c, p, e);
    if |after.events| > |p.events| {
      PushKeeps(c, p, after, after.events[|p.events|].body, messageId);
    } else {
      NothingPushed(p, after, messageId);
    }
  }

  /** An entry that is not a marker changes only the messages it completes itself. */
  lemma OnEntryKeeps(c: Context, p: Projector, e: Entry, messageId: string)
    requires !e.UserInputEntry? && !CloserId(e, messageId)
    ensures Kept(p, OnEntry(c, p, e), messageId)
  {
    hide Kept, OnUser, OnAssistant, OnRunCancelled, OnToolResult, OnCustomMessage, OnRunStopped;
    match e
    case UserEntry(_, _) => OnUserKeeps(c, p, e, messageId);
    case AssistantEntry(_, _, _, _, _) => OnAssistantKeeps(c, p, e, messageId);
    case RunCancelledEntry(_, _, _) => OnRunCancelledKeeps(c, p, e, messageId);
    case ToolResultEntry(_, _, _, _, _, _, _) => OnToolResultKeeps(c, p, e, messageId);
    case CustomMessageEntry(_, _, _, _) => OnNoticeKeeps(c, p, e, messageId);
    case RunStoppedEntry(_, _, _) => OnNoticeKeeps(c, p, e, messageId);
    case _ => NothingPushed(p, OnEntry(c, p, e), messageId);
  }

  // ---------------------------------------------------------------- markers

  /** The user message that a marker would belong to. */
  function UserBefore(c: Context, entries: seq<Entry>): string
    requires AtUser(c, entries)
    decreases |entries|
  {
    var last := entries[|entries| - 1];
    if IsShownUser(c, last) then last.id else UserBefore(c, entries[..|entries| - 1])
  }

  ghost predicate SilentAfter(events: seq<ChatEvent>, k: nat, messageId: string) {
    forall j :: k < j < |events| ==> Silent(events[j].body, messageId)
  }

  /** The remembered event is the user message's last. */
  ghost predicate Attached(p: Projector, id: string) {
    && p.lastUser.Some? && p.lastUser.value < |p.events|
    && p.events[p.lastUser.value].body.MessageCompleted? && p.events[p.lastUser.value].body.messageId == id
    && SilentAfter(p.events, p.lastUser.value, id)
  }

  /** The loop's variables, in terms of the log so far. */
  ghost predicate Follows(c: Context, p: Projector, entries: seq<Entry>) {
    && p.original == WaitingWords(c, entries)
    && (p.afterUser <==> AtUser(c, entries))
    && (AtUser(c, entries) ==> Attached(p, UserBefore(c, entries)))
  }

  lemma OnUserAttaches(c: Context, p: Projector, e: Entry)
    requires e.UserEntry?
    ensures var q := OnUser(c, p, e);
            q.original == None && (q.afterUser <==> IsShownUser(c, e)) && (IsShownUser(c, e) ==> Attached(q, e.id))
    ensures IsShownUser(c, e) ==>
              ShownBy(OnUser(c, p, e).events, e.id)
                == Present(true, if p.original.Some? then p.original.value else ContentText(e.content))
  {
    hide UserContent, StringField, Chips, ShownBy, ContentText;
    if IsShownUser(c, e) {
      var turn, content := p.(notice := false), UserContent(e.content, p.original);
      var created, completed := MessageCreated(e.id, User), MessageCompleted(e.id, content, Chips(p.attachments));
      var told := PushUser(c, turn, e);
      PushShows(c, turn, created, e.id);
      PushShows(c, Push(c, turn, created), completed, e.id);
      UserContentText(e.content, p.original);
      assert told.events == Push(c, Push(c, turn, created), completed).events;
      if e.id in c.steps {
        PrefixedIdDiffers(e.id);
        PushShows(c, told, CustomMessage(WorkflowStepId(e.id), "opencandle-workflow-step", UserContent(e.content, None),
                                         Step(c.steps[e.id])), e.id);
      }
    }
  }

  lemma OthersDetach(c: Context, p: Projector, e: Entry)
    requires !e.UserEntry? && !e.UserInputEntry? && !e.OtherMessageEntry?
    ensures var q := OnEntry(c, p, e); !q.afterUser && q.original == if e.RunCancelledEntry? then None else p.original
  {
    hide StringField, Chips, HasVisibleContent, AssistantContent, DropPending, UserContent, ResultBody, ResultId;
    if e.AssistantEntry? {
      PushCallsFlags(c, Push(c, p.(afterUser := false), MessageCreated(e.id, Assistant)), e.id, e.parts);
    }
  }

  lemma {:induction false} PushCallsFlags(c: Context, p: Projector, id: string, parts: seq<Part>)
    ensures var q := PushCalls(c, p, id, parts); q.afterUser == p.afterUser && q.original == p.original
    decreases |parts|
  {
    if parts != [] {
      PushCallsFlags(c, p, id, parts[..|parts| - 1]);
    }
  }

  lemma OnEntryFollows(c: Context, p: Projector, e: Entry, entries: seq<Entry>)
    requires Follows(c, p, entries)
    ensures Follows(c, OnEntry(c, p, e), entries + [e])
  {
    hide AtUser, WaitingWords, Attached, OnEntry;
    OneMoreEntry(c, entries, e);
    var q := OnEntry(c, p, e);
    if e.UserEntry? {
      UserFollows(c, p, e);
    } else if e.UserInputEntry? {
      MarkerFollows(c, p, e, entries);
    } else if e.OtherMessageEntry? {
      OtherKeepsAll(c, p, e);
    } else {
      OthersDetach(c, p, e);
    }
  }

  /** What the log says after one more entry. */
  lemma OneMoreEntry(c: Context, entries: seq<Entry>, e: Entry)
    ensures var all := entries + [e];
            (AtUser(c, all) <==> IsShownUser(c, e) || (e.OtherMessageEntry? && AtUser(c, entries))) &&
            (AtUser(c, all) ==> UserBefore(c, all) == if IsShownUser(c, e) then e.id else UserBefore(c, entries)) &&
            WaitingWords(c, all) == if e.UserEntry? || e.RunCancelledEntry? then None
                                    else if e.UserInputEntry? && !AtUser(c, entries) then OriginalInputText(e)
                                    else WaitingWords(c, entries)
  {
    var all := entries + [e];
    assert all[..|all| - 1] == entries && all[|all| - 1] == e;
    hide IsShownUser, OriginalInputText;
  }

  lemma UserFollows(c: Context, p: Projector, e: Entry)
    requires e.UserEntry?
    ensures var q := OnEntry(c, p, e);
            q.original == None && (q.afterUser <==> IsShownUser(c, e)) && (IsShownUser(c, e) ==> Attached(q, e.id))
  {
    hide OnUser, Attached, IsShownUser;
    OnUserAttaches(c, p, e);
  }

  lemma MarkerFollows(c: Context, p: Projector, e: Entry, entries: seq<Entry>)
    requires e.UserInputEntry? && Follows(c, p, entries)
    ensures var q := OnEntry(c, p, e);
            !q.afterUser && q.original == if AtUser(c, entries) then p.original else OriginalInputText(e)
  {
    hide AtUser, WaitingWords, Attached, PatchUser, OriginalInputText;
    if p.afterUser {
      AttachedInRange(p, UserBefore(c, entries));
    }
  }

  lemma OtherKeepsAll(c: Context, p: Projector, e: Entry)
    requires e.OtherMessageEntry?
    ensures OnEntry(c, p, e) == p
  {
  }

  lemma AttachedInRange(p: Projector, id: string)
    requires Attached(p, id)
    ensures p.lastUser.Some? && p.lastUser.value < |p.events|
  {
  }

  lemma {:induction false} OnEntriesFollows(c: Context, begun: Projector, entries: seq<Entry>)
    requires Follows(c, begun, [])
    ensures Follows(c, OnEntries(c, begun, entries), entries)
    decreases |entries|
  {
    hide Follows, OnEntry;
    if entries != [] {
      var prior, e := entries[..|entries| - 1], entries[|entries| - 1];
      OnEntriesFollows(c, begun, prior);
      OnEntryFollows(c, OnEntries(c, begun, prior), e, prior);
      assert prior + [e] == entries;
    }
  }

  /** Changing a completed message changes that message only. */
  lemma {:induction false} PatchShows(events: seq<ChatEvent>, k: nat, e: ChatEvent, messageId: string)
    requires k < |events| && events[k].body.MessageCompleted? && e.body.MessageCompleted? &&
             e.body.messageId == events[k].body.messageId
    ensures messageId != e.body.messageId ==> ShownBy(events[k := e], messageId) == ShownBy(events, messageId)
    ensures messageId == e.body.messageId && SilentAfter(events, k, messageId) ==>
              ShownBy(events[k := e], messageId) == Present(true, ContentText(e.body.content)) &&
              ShownBy(events, messageId) == Present(true, ContentText(events[k].body.content))
    decreases |events|
  {
    hide ContentText;
    var last := |events| - 1;
    if k == last {
      assert events[k := e][..last] == events[..last];
    } else {
      assert events[k := e][..last] == events[..last][k := e];
      PatchShows(events[..last], k, e, messageId);
      assert SilentAfter(events, k, messageId) ==>
          SilentAfter(events[..last], k, messageId) && Silent(events[last].body, messageId);
    }
  }

  /** A marker gives its words to the user message it follows, and touches no other. */
  lemma MarkerShows(c: Context, p: Projector, e: Entry, entries: seq<Entry>, messageId: string)
    requires e.UserInputEntry? && Follows(c, p, entries)
    ensures var q := OnUserInput(p, e);
            if AtUser(c, entries) && UserBefore(c, entries) == messageId then
              ShownBy(p.events, messageId).Present? &&
              ShownBy(q.events, messageId)
              == Present(true, if OriginalInputText(e).Some? then OriginalInputText(e).value
                         else ShownBy(p.events, messageId).text)
            else ShownBy(q.events, messageId) == ShownBy(p.events, messageId)
  {
    hide ShownBy, UserContent, OriginalInputText, ContentText, SilentAfter;
    if AtUser(c, entries) {
      var k, original := p.lastUser.value, OriginalInputText(e);
      PatchShows(p.events, k, OnUserInput(p, e).events[k], messageId);
      if original.Some? {
        UserContentText(p.events[k].body.content, original);
      }
    }
  }

  // ---------------------------------------------------------------- the run

  ghost predicate NotAttachedTo(c: Context, entries: seq<Entry>, messageId: string) {
    AtUser(c, entries) ==> UserBefore(c, entries) != messageId
  }

  /** Once shown, a message keeps its text, if no marker can still belong to it. */
  lemma {:induction false} StaysShown(c: Context, begun: Projector, entries: seq<Entry>, i: nat, n: nat)
    requires PlainIds(entries) && Follows(c, begun, []) && i < n <= |entries|
    requires NotAttachedTo(c, entries[..n], entries[i].id)
    requires ShownBy(OnEntries(c, begun, entries[..n]).events, entries[i].id).Present?
    ensures ShownBy(OnEntries(c, begun, entries).events, entries[i].id)
            == ShownBy(OnEntries(c, begun, entries[..n]).events, entries[i].id)
    decreases |entries| - n
  {
    hide ShownBy, Follows, PlainIds, CloserId, OnEntry;
    if n == |entries| {
      assert entries[..n] == entries;
    } else {
      var prior, e, id := entries[..n], entries[n], entries[i].id;
      var q := OnEntries(c, begun, prior);
      assert entries[..n + 1] == prior + [e] && (prior + [e])[..n] == prior;
      OnEntriesFollows(c, begun, prior);
      PlainStep(entries, i, n);
      StepStaysShown(c, q, e, prior, id);
      StaysShown(c, begun, entries, i, n + 1);
    }
  }

  lemma PlainStep(entries: seq<Entry>, i: nat, n: nat)
    requires PlainIds(entries) && i < n < |entries|
    ensures !CloserId(entries[n], entries[i].id) && entries[n].id != entries[i].id
  {
  }

  lemma StepStaysShown(c: Context, q: Projector, e: Entry, prior: seq<Entry>, id: string)
    requires Follows(c, q, prior) && NotAttachedTo(c, prior, id) && ShownBy(q.events, id).Present?
    requires !CloserId(e, id) && e.id != id
    ensures ShownBy(OnEntry(c, q, e).events, id) == ShownBy(q.events, id)
    ensures NotAttachedTo(c, prior + [e], id)
  {
    hide ShownBy, Follows, CloserId, OnUserInput, OnUser, OnAssistant, OnRunCancelled, OnToolResult, OnCustomMessage,
         OnRunStopped;
    assert (prior + [e])[..|prior|] == prior;
    if e.UserInputEntry? {
      MarkerShows(c, q, e, prior, id);
    } else {
      OnEntryKeeps(c, q, e, id);
    }
  }

  lemma {:induction false} MarkingKeeps(c: Context, p: Projector, n: nat, messageId: string)
    requires n <= |p.pending|
    ensures ShownBy(MarkUnresolved(c, p, n).events, messageId) == ShownBy(p.events, messageId)
    decreases n
  {
    hide ShownBy;
    if n > 0 {
      MarkingKeeps(c, p, n - 1, messageId);
      PushShows(c, MarkUnresolved(c, p, n - 1), ToolFailed(p.pending[n - 1].id, NOT_FINISHED), messageId);
    }
  }

  lemma BeginFollows(c: Context, r: Request)
    ensures Follows(c, Begin(c, r.title, r.updatedAt, r.startSeq), [])
  {
  }

  /** What the rendered chat shows of a message is what the loop's events show. */
  lemma RenderedIsShown(entries: seq<Entry>, r: Request, messageId: string)
    ensures var c := ContextOf(entries, r.sessionId);
            var begun := Begin(c, r.title, r.updatedAt, r.startSeq);
            Seen(MessageOf(Reduce(Project(entries, r)), r.sessionId, messageId))
              == ShownBy(OnEntries(c, begun, entries).events, messageId)
  {
    hide Indexed, Numbered, NoDeltas, Reduce, Fold, ContextOf, MessageOf, ShownBy, OnEntries, MarkUnresolved, Seen;
    ReducedProjection(entries, r);
    ShownMessages(Project(entries, r), r.sessionId, r.startSeq, messageId);
    var c := ContextOf(entries, r.sessionId);
    var p := OnEntries(c, Begin(c, r.title, r.updatedAt, r.startSeq), entries);
    MarkingKeeps(c, p, |p.pending|, messageId);
  }

  // ---------------------------------------------------------------- answers

  predicate IsShownAnswer(c: Context, e: Entry) {
    e.AssistantEntry? && !ShownAsFailure(c, e) && (ShownAsStopped(c, e) ==> HasVisibleContent(e.parts))
  }

  lemma {:induction false} AnswerContentText(parts: seq<Part>)
    ensures ContentText(AssistantContent(parts)) == AnswerText(parts)
    decreases |parts|
  {
    if parts != [] {
      var prior := AssistantContent(parts[..|parts| - 1]);
      AnswerContentText(parts[..|parts| - 1]);
      match parts[|parts| - 1]
      case TextBlock(text) => ContentTextAppend(prior, TextPart(text));
      case CallBlock(id, _, _) => ContentTextAppend(prior, ToolPart(id));
      case ImageBlock(url) => ContentTextAppend(prior, ImagePart(Some(url), None, None, None));
      case OtherBlock => assert prior + [] == prior;
    }
  }

  function OwnText(part: Content): string {
    if part.TextPart? then part.text else ""
  }

  lemma {:induction false} ContentTextAppend(content: seq<Content>, part: Content)
    ensures ContentText(content + [part]) == ContentText(content) + OwnText(part)
    decreases |content|
  {
    var all := content + [part];
    if content == [] {
      assert all[1..] == [] && all[0] == part;
      assert ContentText(all) == OwnText(part) + ContentText([]);
    } else {
      assert all[1..] == content[1..] + [part] && all[0] == content[0];
      ContentTextAppend(content[1..], part);
      hide OwnText;
      Associate(OwnText(content[0]), ContentText(content[1..]), OwnText(part));
    }
  }

  lemma Associate(a: string, b: string, c: string)
    ensures a + (b + c) == (a + b) + c
  {
  }

  lemma OnAssistantShows(c: Context, p: Projector, e: Entry)
    requires IsShownAnswer(c, e)
    ensures ShownBy(OnAssistant(c, p, e).events, e.id) == Present(true, AnswerText(e.parts))
  {
    hide ShownBy, HasVisibleContent, AssistantContent, PushCalls, ContentText, AnswerText, StoppedId;
    var q := p.(afterUser := false);
    var called := PushCalls(c, Push(c, q, MessageCreated(e.id, Assistant)), e.id, e.parts);
    PushShows(c, called, MessageCompleted(e.id, AssistantContent(e.parts), None), e.id);
    AnswerContentText(e.parts);
    PrefixedIdDiffers(e.id);
    if ShownAsStopped(c, e) {
      var after := OnAssistant(c, p, e);
      PushKeeps(c, PushAnswer(c, q, e), after, after.events[|PushAnswer(c, q, e).events|].body, e.id);
    }
  }

  /** A reload shows every answer of the log complete and with all its texts, whatever follows. */
  lemma AnswersAreShown(entries: seq<Entry>, r: Request, i: nat)
    requires PlainIds(entries) && i < |entries| && IsShownAnswer(ContextOf(entries, r.sessionId), entries[i])
    ensures Seen(MessageOf(Reduce(Project(entries, r)), r.sessionId, entries[i].id))
            == Present(true, AnswerText(entries[i].parts))
  {
    hide PlainIds, ContextOf, Reduce, Project, MessageOf, ShownBy, Follows, OnAssistant, IsShownAnswer, AnswerText,
         Begin, Seen, Indexed;
    var c := ContextOf(entries, r.sessionId);
    var begun := Begin(c, r.title, r.updatedAt, r.startSeq);
    var prior, e := entries[..i], entries[i];
    assert entries[..i + 1] == prior + [e] && (prior + [e])[..i] == prior;
    ShownAnswerIsAnswer(c, e);
    OnAssistantShows(c, OnEntries(c, begun, prior), e);
    BeginFollows(c, r);
    StaysShown(c, begun, entries, i, i + 1);
    RenderedIsShown(entries, r, e.id);
  }

  lemma ShownAnswerIsAnswer(c: Context, e: Entry)
    requires IsShownAnswer(c, e)
    ensures e.AssistantEntry?
  {
  }

  // ---------------------------------------------------------------- the user's words

  /** The words that the loop gives to the message. */
  function UserWords(c: Context, entries: seq<Entry>, i: nat): string
    requires i < |entries| && entries[i].UserEntry?
  {
    var after, before := FollowingWords(entries[i + 1..]), WaitingWords(c, entries[..i]);
    if after.Some? then after.value else if before.Some? then before.value else ContentText(entries[i].content)
  }

  lemma {:induction false} UserStaysShown(c: Context, begun: Projector, entries: seq<Entry>, i: nat, n: nat,
      text: string)
    requires PlainIds(entries) && Follows(c, begun, []) && i < n <= |entries|
    requires AtUser(c, entries[..n]) && UserBefore(c, entries[..n]) == entries[i].id
    requires ShownBy(OnEntries(c, begun, entries[..n]).events, entries[i].id) == Present(true, text)
    ensures var after := FollowingWords(entries[n..]);
            ShownBy(OnEntries(c, begun, entries).events, entries[i].id)
              == Present(true, if after.Some? then after.value else text)
    decreases |entries| - n
  {
    hide ShownBy, Follows, PlainIds, CloserId, OnUserInput, OnUser, OnAssistant, OnRunCancelled, OnToolResult,
         OnCustomMessage, OnRunStopped, OriginalInputText;
    if n == |entries| {
      assert entries[..n] == entries && entries[n..] == [];
    } else {
      var prior, e, id := entries[..n], entries[n], entries[i].id;
      var q := OnEntries(c, begun, prior);
      assert entries[..n + 1] == prior + [e] && (prior + [e])[..n] == prior;
      assert entries[n..][0] == e && entries[n..][1..] == entries[n + 1..];
      OnEntriesFollows(c, begun, prior);
      PlainStep(entries, i, n);
      if e.OtherMessageEntry? {
        UserStaysShown(c, begun, entries, i, n + 1, text);
      } else {
        if e.UserInputEntry? {
          MarkerShows(c, q, e, prior, id);
        } else {
          OnEntryKeeps(c, q, e, id);
        }
        StaysShown(c, begun, entries, i, n + 1);
      }
    }
  }

  /** A reload shows every user message with the words that the loop gives it, and nothing later
      changes them. */
  lemma UserWordsAreShown(entries: seq<Entry>, r: Request, i: nat)
    requires PlainIds(entries) && i < |entries| && IsShownUser(ContextOf(entries, r.sessionId), entries[i])
    ensures Seen(MessageOf(Reduce(Project(entries, r)), r.sessionId, entries[i].id))
            == Present(true, UserWords(ContextOf(entries, r.sessionId), entries, i))
  {
    hide PlainIds, ContextOf, Reduce, Project, MessageOf, ShownBy, OnUser, Begin, Seen, Indexed, ContentText,
         WaitingWords, Attached;
    var c := ContextOf(entries, r.sessionId);
    var begun := Begin(c, r.title, r.updatedAt, r.startSeq);
    var prior, e := entries[..i], entries[i];
    assert entries[..i + 1] == prior + [e] && (prior + [e])[..i] == prior;
    BeginFollows(c, r);
    OnEntriesFollows(c, begun, prior);
    OnUserAttaches(c, OnEntries(c, begun, prior), e);
    var before := WaitingWords(c, prior);
    UserStaysShown(c, begun, entries, i, i + 1, if before.Some? then before.value else ContentText(e.content));
    RenderedIsShown(entries, r, e.id);
  }

  // ---------------------------------------------------------------- whose words they are

  lemma {:induction false} NothingWaitsBehind(c: Context, entries: seq<Entry>)
    requires Behind(entries)
    ensures WaitingWords(c, entries) == None && WordsAhead(entries) == None
    decreases |entries|
  {
    var prior, last := entries[..|entries| - 1], entries[|entries| - 1];
    if last.OtherMessageEntry? {
      NothingWaitsBehind(c, prior);
    }
  }

  lemma {:induction false} ShownIsBehind(c: Context, entries: seq<Entry>)
    requires AtUser(c, entries)
    ensures Behind(entries)
    decreases |entries|
  {
    var prior, last := entries[..|entries| - 1], entries[|entries| - 1];
    if !last.UserEntry? {
      ShownIsBehind(c, prior);
    }
  }

  /** Other entries leave a stray marker where it is. */
  lemma StrayStays(c: Context, entries: seq<Entry>, i: nat, k: int)
    requires 0 < i <= |entries| && !TakesWords(entries[i - 1])
    ensures StrayAt(c, entries, i, k) <==> StrayAt(c, entries, i - 1, k)
  {
    hide TakesWords, Behind, AtUser, OriginalInputText;
    assert k == i - 1 ==> !entries[k].UserInputEntry? by {
      if entries[i - 1].UserInputEntry? {
        MarkerTakes(entries[i - 1]);
      }
    }
  }

  lemma MarkerTakes(e: Entry)
    requires e.UserInputEntry?
    ensures TakesWords(e)
  {
  }

  /** Only the last of several markers can stray. */
  lemma LastMarkerStrays(c: Context, entries: seq<Entry>, i: nat, k: int)
    requires 0 < i <= |entries| && TakesWords(entries[i - 1]) && StrayAt(c, entries, i, k)
    ensures k == i - 1
  {
  }

  /** The loop keeps the words left ahead of the turn, or those of a stray marker. */
  lemma {:induction false} WaitingMeaning(c: Context, entries: seq<Entry>, i: nat)
    requires i <= |entries|
    ensures forall k :: StrayAt(c, entries, i, k) ==>
              WaitingWords(c, entries[..i]) == OriginalInputText(entries[k]) && WordsAhead(entries[..i]) == None
    ensures (forall k :: !StrayAt(c, entries, i, k)) ==> WaitingWords(c, entries[..i]) == WordsAhead(entries[..i])
  {
    hide Behind, AtUser, OriginalInputText;
    if i > 0 {
      var prior, last := entries[..i - 1], entries[i - 1];
      assert entries[..i][..i - 1] == prior && entries[..i][i - 1] == last;
      if TakesWords(last) {
        if last.UserInputEntry? {
          WaitingMarker(c, entries, i);
        }
        forall k | StrayAt(c, entries, i, k) ensures k == i - 1 {
          LastMarkerStrays(c, entries, i, k);
        }
      } else {
        var n := i - 1;
        WaitingMeaning(c, entries, n);
        forall k | StrayAt(c, entries, i, k) ensures StrayAt(c, entries, n, k) {
          StrayStays(c, entries, i, k);
        }
        forall k | StrayAt(c, entries, n, k) ensures StrayAt(c, entries, i, k) {
          StrayStays(c, entries, i, k);
        }
      }
    }
  }

  lemma WaitingMarker(c: Context, entries: seq<Entry>, i: nat)
    requires 0 < i <= |entries| && entries[i - 1].UserInputEntry?
    ensures StrayAt(c, entries, i, i - 1) ==>
              WaitingWords(c, entries[..i]) == OriginalInputText(entries[i - 1]) && WordsAhead(entries[..i]) == None
    ensures !StrayAt(c, entries, i, i - 1) ==> WaitingWords(c, entries[..i]) == WordsAhead(entries[..i])
  {
    hide Behind, AtUser, OriginalInputText;
    var prior := entries[..i - 1];
    assert entries[..i][..i - 1] == prior && entries[..i][i - 1] == entries[i - 1];
    if AtUser(c, prior) {
      ShownIsBehind(c, prior);
    }
    if Behind(prior) {
      NothingWaitsBehind(c, prior);
    }
  }

  /** The message's text tells nothing of whose words it got: a stray marker happened to repeat it. */
  ghost predicate Harmless(entries: seq<Entry>, i: nat, k: nat)
    requires i < |entries| && entries[i].UserEntry? && k < |entries| && entries[k].UserInputEntry?
  {
    FollowingWords(entries[i + 1..]).Some? || OriginalInputText(entries[k]) == Some(ContentText(entries[i].content))
  }

  lemma WordsAgree(c: Context, entries: seq<Entry>, i: nat)
    requires i < |entries| && entries[i].UserEntry?
    ensures UserWords(c, entries, i) == OwnWords(entries, i)
            <==> forall k :: StrayAt(c, entries, i, k) ==> Harmless(entries, i, k)
  {
    hide WaitingWords, WordsAhead, FollowingWords, Behind, AtUser, ContentText;
    WaitingMeaning(c, entries, i);
  }

  /** A reload shows a user message with its own words exactly if no marker strays to it from a hidden
      step in front of it: such a marker's words replace those of a message they do not belong to. */
  lemma OwnWordsAreShown(entries: seq<Entry>, r: Request, i: nat)
    requires PlainIds(entries) && i < |entries| && IsShownUser(ContextOf(entries, r.sessionId), entries[i])
    ensures Seen(MessageOf(Reduce(Project(entries, r)), r.sessionId, entries[i].id))
            == Present(true, OwnWords(entries, i))
            <==> forall k :: StrayAt(ContextOf(entries, r.sessionId), entries, i, k) ==> Harmless(entries, i, k)
  {
    hide *;
    UserWordsAreShown(entries, r, i);
    ShownIsUser(ContextOf(entries, r.sessionId), entries[i]);
    WordsAgree(ContextOf(entries, r.sessionId), entries, i);
  }

  lemma ShownIsUser(c: Context, e: Entry)
    requires IsShownUser(c, e)
    ensures e.UserEntry?
  {
  }

  /** A workflow whose first step is hidden, the user's words directly behind that step, and a turn
      after the workflow. */
  function StrayLog(expanded: string, mine: string, followUp: string): seq<Entry> {
    [WorkflowEntry("w"), UserEntry("u1", [TextPart(expanded)]), UserInputEntry("m", mine, []), WorkflowEndEntry("e"),
     UserEntry("u2", [TextPart(followUp)])]
  }

  lemma StrayLogSteps(expanded: string, mine: string, followUp: string)
    ensures var steps := WorkflowSteps.Steps(StrayLog(expanded, mine, followUp));
            "u2" !in steps && "u1" in steps && !steps["u1"].preserveUserTurn
  {
    var entries := StrayLog(expanded, mine, followUp);
    var step := WorkflowSteps.Candidate("u1", None, None, false);
    assert WorkflowSteps.GroupsOf(entries, 1) == WorkflowSteps.Grouping([[]], true, false);
    assert [] + [step] == [step];
    assert WorkflowSteps.GroupsOf(entries, 2) == WorkflowSteps.Grouping([[step]], true, false);
    assert WorkflowSteps.GroupsOf(entries, 3).groups == [[step]];
    assert WorkflowSteps.GroupsOf(entries, 4) == WorkflowSteps.Grouping([[step]], false, false);
    assert WorkflowSteps.GroupsOf(entries, 5).groups == [[step]];
    assert WorkflowSteps.PutGroups([[step]], 1) == map["u1" := WorkflowSteps.StepOf([step], 0)] by {
      assert WorkflowSteps.PutSteps(map[], [step], 1) == map["u1" := WorkflowSteps.StepOf([step], 0)];
    }
  }

  lemma StrayLogIsPlain(expanded: string, mine: string, followUp: string)
    ensures PlainIds(StrayLog(expanded, mine, followUp))
  {
    var entries := StrayLog(expanded, mine, followUp);
    assert DistinctEntries(entries);
    forall i, j | 0 <= i < |entries| && 0 <= j < |entries| && CloserId(entries[j], entries[i].id) ensures i == j {
      assert |entries[i].id| <= 2 < |StoppedId(entries[j].id)|;
      assert |CancelledUserId(entries[j].id)| > 2 && |ModelErrorId(entries[j].id)| > 2 &&
          |WorkflowStepId(entries[j].id)| > 2;
    }
  }

  lemma StrayLogWords(c: Context, expanded: string, mine: string, followUp: string)
    requires "u2" !in c.steps && "u1" in c.steps && !c.steps["u1"].preserveUserTurn
    requires OriginalInputText(UserInputEntry("m", mine, [])).Some?
    ensures var entries := StrayLog(expanded, mine, followUp);
            IsShownUser(c, entries[4]) && UserWords(c, entries, 4) == mine && OwnWords(entries, 4) == followUp
  {
    var entries := StrayLog(expanded, mine, followUp);
    assert entries[..4] == entries[..3] + [entries[3]] && entries[..4][..3] == entries[..3];
    assert entries[..3][..2] == entries[..2] && entries[..2][..1] == entries[..1];
    assert entries[4 + 1..] == [];
    assert !AtUser(c, entries[..2]) && Behind(entries[..2]);
    assert WaitingWords(c, entries[..3]) == Some(mine);
    assert WordsAhead(entries[..2]) == None;
    assert WordsAhead(entries[..3]) == None;
    assert ContentText([TextPart(followUp)]) == followUp by {
      assert [TextPart(followUp)][1..] == [];
    }
  }

  /** The words behind a hidden step are shown as those of the next turn, which lost its own. */
  lemma StrayWordsAreShown(expanded: string, mine: string, followUp: string, r: Request)
    requires OriginalInputText(UserInputEntry("m", mine, [])).Some?
    ensures var entries := StrayLog(expanded, mine, followUp);
            Seen(MessageOf(Reduce(Project(entries, r)), r.sessionId, "u2")) == Present(true, mine) &&
            OwnWords(entries, 4) == followUp
  {
    hide Project, Reduce, Seen, MessageOf;
    var entries := StrayLog(expanded, mine, followUp);
    var c := ContextOf(entries, r.sessionId);
    StrayLogSteps(expanded, mine, followUp);
    StrayLogIsPlain(expanded, mine, followUp);
    StrayLogWords(c, expanded, mine, followUp);
    UserWordsAreShown(entries, r, 4);
  }
}
