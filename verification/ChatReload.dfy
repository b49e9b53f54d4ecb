// The whole list of messages that a reload shows, read off the session log directly, entry by entry,
// without the events in between.
module ChatReload {
  import opened ChatComposition
  import opened ChatEvents
  import opened ChatProjection
  import opened ChatStories
  import opened ChatTranscript
  import opened ChatView
  import opened ChatWords
  import opened EventFields
  import opened EventReducer
  import opened Options
  import opened SessionLog
  import opened Texts
  import ChatToolLog

  // ---------------------------------------------------------------- what the log says

  function Words(text: string): Option<string> {
    if Blank(text) then None else Some(Trim(text))
  }

  /** The user's own words in a marker, spaces included. */
  function MarkerWords(e: Entry): Option<string>
    requires e.UserInputEntry?
  {
    if Blank(e.original) then None else Some(e.original)
  }

  /** The attachments of a marker that wait for the next user message. */
  function ChipsAhead(c: Context, entries: seq<Entry>): seq<Attachment>
    decreases |entries|
  {
    if entries == [] then []
    else
      var prior, last := entries[..|entries| - 1], entries[|entries| - 1];
      if last.UserEntry? || last.RunCancelledEntry? then []
      else if last.UserInputEntry? && !AtUser(c, prior) then last.attachments
      else ChipsAhead(c, prior)
  }

  /** What Retry would send: the latest shown user message, as it was first told. */
  function Prompt(c: Context, entries: seq<Entry>): Option<string>
    decreases |entries|
  {
    if entries == [] then None
    else
      var prior, last := entries[..|entries| - 1], entries[|entries| - 1];
      if !IsShownUser(c, last) then Prompt(c, prior)
      else
        var words := WaitingWords(c, prior);
        Words(if words.Some? then words.value else ContentText(last.content))
  }

  /** The entry tells, or has told, why the turn ended early. */
  predicate EndsTurn(c: Context, e: Entry) {
    match e
    case CustomMessageEntry(_, customType, _, _) =>
      customType == "opencandle-model-run-failed" || customType == "opencandle-run-cancelled"
    case RunCancelledEntry(_, _, _) => true
    case RunStoppedEntry(_, _, _) => true
    case AssistantEntry(id, _, stop, _, _) => stop.ErrorStop? || stop.AbortedStop? || id in c.userStopped
    case _ => false
  }

  /** Since the latest user message something has told why the turn ended early. */
  predicate TurnHasEnded(c: Context, entries: seq<Entry>)
    decreases |entries|
  {
    entries != [] &&
    var last := entries[|entries| - 1];
    !last.UserEntry? && (EndsTurn(c, last) || TurnHasEnded(c, entries[..|entries| - 1]))
  }

  /** Images with an address keep only that; images with data of a known type get an address of it. */
  function Pictures(content: seq<Content>): seq<Content>
    decreases |content|
  {
    if content == [] then []
    else
      (match content[0]
       case ImagePart(Some(url), _, _, alt) => [ImagePart(Some(url), None, None, alt)]
       case ImagePart(None, Some(data), Some(mimeType), alt) =>
         [ImagePart(Some("data:" + mimeType + ";base64," + data), Some(data), Some(mimeType), alt)]
       case _ => []) + Pictures(content[1..])
  }

  /** The texts, calls and images of a reply, in their order. */
  function Blocks(parts: seq<Part>): seq<Content>
    decreases |parts|
  {
    if parts == [] then []
    else
      Blocks(parts[..|parts| - 1]) +
      match parts[|parts| - 1]
      case TextBlock(text) => [TextPart(text)]
      case CallBlock(id, _, _) => [ToolPart(id)]
      case ImageBlock(url) => [ImagePart(Some(url), None, None, None)]
      case OtherBlock => []
  }

  predicate HasSomethingToShow(parts: seq<Part>) {
    exists i :: 0 <= i < |parts| && !parts[i].OtherBlock? && (parts[i].TextBlock? ==> !Blank(parts[i].text))
  }

  // ---------------------------------------------------------------- the messages

  function UserMessage(sessionId: string, id: string, words: string, pictures: seq<Content>,
      chips: seq<Attachment>): RenderMessage
  {
    RenderMessage(id, sessionId, User, true, [TextPart(words)] + pictures, words,
                  if chips == [] then None else Some(chips), None, None)
  }

  function Notice(sessionId: string, id: string, customType: string, content: seq<Content>, text: string,
      details: Details): RenderMessage
  {
    RenderMessage(id, sessionId, Assistant, true, content, text, None, Some(customType), Some(details))
  }

  function StopNotice(sessionId: string, id: string, text: string, details: Details): RenderMessage {
    Notice(sessionId, id, "opencandle-run-cancelled", [TextPart(text)], text, details)
  }

  function TurnOf(c: Context, prior: seq<Entry>, e: Entry): seq<RenderMessage>
    requires e.UserEntry?
  {
    var ahead, pictures := WaitingWords(c, prior), Pictures(e.content);
    var words := if ahead.Some? then ahead.value else ContentText(e.content);
    var turn := [UserMessage(c.sessionId, e.id, words, pictures, ChipsAhead(c, prior))];
    if e.id !in c.steps then turn
    else
      var text := ContentText(e.content);
      (if c.steps[e.id].preserveUserTurn then turn else []) +
      [Notice(c.sessionId, "workflow-step-" + e.id, "opencandle-workflow-step", [TextPart(text)] + pictures, text,
              Step(c.steps[e.id]))]
  }

  function CancelledTurn(c: Context, prior: seq<Entry>, e: Entry): seq<RenderMessage>
    requires e.RunCancelledEntry?
  {
    var ahead := WaitingWords(c, prior);
    var words := if ahead.Some? then ahead else Words(e.text);
    (if words.Some? then
       [UserMessage(c.sessionId, "cancelled-user-" + e.id, words.value, [], ChipsAhead(c, prior))]
     else []) +
    [StopNotice(c.sessionId, e.id, "Run stopped before it produced an answer.", Cancelled(e.data, words))]
  }

  function StoppedTurn(c: Context, prior: seq<Entry>, e: Entry): seq<RenderMessage>
    requires e.RunStoppedEntry?
  {
    if TurnHasEnded(c, prior) then []
    else
      var prompt := if Blank(e.prompt) then Prompt(c, prior) else Words(e.prompt);
      [StopNotice(c.sessionId, "stopped-" + e.id, "Run stopped before it finished.", Stopped("stopped", prompt))]
  }

  function FailedReply(c: Context, prior: seq<Entry>, e: Entry): seq<RenderMessage>
    requires e.AssistantEntry? && e.stop.ErrorStop?
  {
    if e.id in c.superseded then []
    else
      var text := if Blank(e.stop.errorMessage) then "The model run failed before it returned a response."
                  else Trim(e.stop.errorMessage);
      [Notice(c.sessionId, "model-error-" + e.id, "opencandle-model-run-failed", [TextPart(text)], text,
              ModelFailure(e.provider, e.model, Prompt(c, prior)))]
  }

  /** A stopped reply keeps what it has to show, and says that it was stopped. */
  function Reply(c: Context, prior: seq<Entry>, e: Entry): seq<RenderMessage>
    requires e.AssistantEntry?
  {
    var answer := [RenderMessage(e.id, c.sessionId, Assistant, true, Blocks(e.parts), AnswerText(e.parts), None, None,
                                 None)];
    if !e.stop.AbortedStop? && e.id !in c.userStopped then answer
    else
      var prompt := if e.id in c.userStopped && c.userStopped[e.id].Some? then c.userStopped[e.id]
                    else Prompt(c, prior);
      if HasSomethingToShow(e.parts) then
        answer + [StopNotice(c.sessionId, "stopped-" + e.id, "Run stopped before it finished its answer.",
                             Stopped("aborted", prompt))]
      else [StopNotice(c.sessionId, "stopped-" + e.id, "Run stopped before it produced an answer.",
                       Stopped("aborted", prompt))]
  }

  /** The messages that an entry adds to those of the log before it. */
  function Adds(c: Context, prior: seq<Entry>, e: Entry): seq<RenderMessage> {
    match e
    case UserEntry(_, _) => TurnOf(c, prior, e)
    case AssistantEntry(id, _, stop, _, _) =>
      if stop.ErrorStop? && id !in c.userStopped then FailedReply(c, prior, e) else Reply(c, prior, e)
    case RunCancelledEntry(_, _, _) => CancelledTurn(c, prior, e)
    case RunStoppedEntry(_, _, _) => StoppedTurn(c, prior, e)
    case CustomMessageEntry(id, customType, text, data) =>
      [Notice(c.sessionId, id, if customType == "" then "custom" else customType, [TextPart(text)], text,
              Recorded(data))]
    case ToolResultEntry(id, _, _, _, _, _, _) =>
      if ChatToolLog.Called(c.userStopped.Keys, prior, if e.toolCallId == "" then "tool-" + id else e.toolCallId)
        then []
      else [RenderMessage(id, c.sessionId, Assistant, false, [], "", None, None, None)]
    case _ => []
  }

  /** A marker directly behind a user message gives it the user's own words and attachments. */
  function Reworded(m: RenderMessage, e: Entry): RenderMessage
    requires e.UserInputEntry?
  {
    var words := MarkerWords(e);
    var worded := if words.None? then m
                  else m.(content := [TextPart(words.value)] + Pictures(m.content), text := words.value);
    if e.attachments == [] then worded else worded.(attachments := Some(e.attachments))
  }

  /** What a marker makes of the messages, where it belongs to the message with this id. */
  function RewordedAt(messages: seq<RenderMessage>, id: string, e: Entry): seq<RenderMessage>
    requires e.UserInputEntry?
  {
    seq(|messages|, i requires 0 <= i < |messages| =>
        if messages[i].id == id then Reworded(messages[i], e) else messages[i])
  }

  /** The messages of the log, in the order a reload shows them. */
  function Transcript(c: Context, entries: seq<Entry>): seq<RenderMessage>
    decreases |entries|
  {
    if entries == [] then []
    else
      var prior, e := entries[..|entries| - 1], entries[|entries| - 1];
      var before := Transcript(c, prior);
      if e.UserInputEntry? && AtUser(c, prior) then
        RewordedAt(before, UserBefore(c, prior), e)
      else before + Adds(c, prior, e)
  }

  // ---------------------------------------------------------------- the messages of a list of events

  function Messages(events: seq<ChatEvent>): seq<RenderMessage> {
    EmptyIsIndexed();
    Fold(EMPTY, events).messages
  }

  predicate Unmentioned(messages: seq<RenderMessage>, id: string) {
    forall i :: 0 <= i < |messages| ==> messages[i].id != id
  }

  lemma NumberedPrefix(events: seq<ChatEvent>, e: ChatEvent, sessionId: string, start: int)
    requires Numbered(events + [e], sessionId, start)
    ensures Numbered(events, sessionId, start) && e.sessionId == sessionId
  {
    var all := events + [e];
    assert all[|events|] == e;
    assert forall i :: 0 <= i < |events| ==> all[i] == events[i];
  }

  /** The state before the last of the events, and where its message stands. */
  lemma LastRendered(events: seq<ChatEvent>, e: ChatEvent, sessionId: string, start: int)
    requires Numbered(events + [e], sessionId, start)
    ensures var s := Fold(EMPTY, events);
            Indexed(s.messages, s.messageById) &&
            Shelf(Messages(events + [e]), Fold(EMPTY, events + [e]).messageById)
              == ShelfAfter(Shelf(s.messages, s.messageById), sessionId, e.body)
  {
    hide Indexed, Render, Apply, ShelfAfter;
    EmptyIsIndexed();
    var all := events + [e];
    NumberedPrefix(events, e, sessionId, start);
    assert all[..|all| - 1] == events && all[|all| - 1] == e;
    NumberedStep(all, sessionId, start);
    ShelfRendered(Admit(Fold(EMPTY, events), e), sessionId, e.body);
  }

  lemma PlaceOfMessage(events: seq<ChatEvent>, sessionId: string, start: int, id: string)
    requires Numbered(events, sessionId, start)
    ensures var s := Fold(EMPTY, events); var key := ScopedId(sessionId, id);
            (key !in s.messageById <==> Unmentioned(s.messages, id)) &&
            (key in s.messageById ==>
             s.messageById[key] < |s.messages| && s.messages[s.messageById[key]].id == id) &&
            forall i :: 0 <= i < |s.messages| && s.messages[i].id == id ==>
              key in s.messageById && s.messageById[key] == i && s.messages[i].sessionId == sessionId
  {
    hide Numbered, Apply, ScopedId;
    EmptyIsIndexed();
    MessageOrder(events, sessionId, start);
    var s, ids := Fold(EMPTY, events), Mentioned(events);
    KeyIsMentioned(s, sessionId, id, ids);
    var key := ScopedId(sessionId, id);
    if key in s.messageById {
      ScopedIdInjective(sessionId, s.messages[s.messageById[key]].id, id);
    }
    assert forall i :: 0 <= i < |s.messages| && s.messages[i].id == id ==> Key(s.messages[i]) == key;
  }

  lemma AddsNothing(events: seq<ChatEvent>, e: ChatEvent, sessionId: string, start: int)
    requires Numbered(events + [e], sessionId, start) && !Mentions(e.body)
    ensures Messages(events + [e]) == Messages(events)
  {
    hide Numbered, Apply, ScopedId;
    LastRendered(events, e, sessionId, start);
  }

  lemma AddsFresh(events: seq<ChatEvent>, e: ChatEvent, sessionId: string, start: int)
    requires Numbered(events + [e], sessionId, start)
    requires Mentions(e.body) && Unmentioned(Messages(events), e.body.messageId)
    ensures Messages(events + [e]) == Messages(events) + [EditMessage(BlankMessage(sessionId, e.body), e.body)]
  {
    hide Apply, ScopedId, EditMessage;
    LastRendered(events, e, sessionId, start);
    NumberedPrefix(events, e, sessionId, start);
    PlaceOfMessage(events, sessionId, start, e.body.messageId);
    hide Numbered;
  }

  lemma EditsAt(events: seq<ChatEvent>, e: ChatEvent, sessionId: string, start: int, i: nat)
    requires Numbered(events + [e], sessionId, start)
    requires Mentions(e.body) && i < |Messages(events)| && Messages(events)[i].id == e.body.messageId
    ensures Messages(events + [e]) == Messages(events)[i := EditMessage(Messages(events)[i], e.body)]
  {
    hide Apply, ScopedId, EditMessage;
    LastRendered(events, e, sessionId, start);
    NumberedPrefix(events, e, sessionId, start);
    PlaceOfMessage(events, sessionId, start, e.body.messageId);
    hide Numbered;
  }

  // ---------------------------------------------------------------- pushed messages

  ghost predicate Counted(c: Context, p: Projector, start: int) {
    Numbered(p.events, c.sessionId, start) && p.seqNo == start + |p.events|
  }

  lemma PushCounted(c: Context, p: Projector, start: int, body: Body)
    requires Counted(c, p, start)
    ensures Counted(c, Push(c, p, body), start)
  {
  }

  lemma OneTextPart(text: string)
    ensures ContentText([TextPart(text)]) == text
  {
    assert [TextPart(text)][1..] == [];
    assert ContentText([TextPart(text)]) == text + ContentText([]);
  }

  lemma PushNotice(c: Context, p: Projector, start: int, id: string, customType: string, content: seq<Content>,
      details: Details)
    requires Counted(c, p, start) && Unmentioned(Messages(p.events), id)
    ensures Messages(Push(c, p, CustomMessage(id, customType, content, details)).events)
            == Messages(p.events) + [Notice(c.sessionId, id, customType, content, ContentText(content), details)]
  {
    hide Messages, ContentText, Unmentioned;
    var body := CustomMessage(id, customType, content, details);
    PushCounted(c, p, start, body);
    hide Numbered;
    AddsFresh(p.events, ChatEvent(c.sessionId, p.seqNo, body), c.sessionId, start);
  }

  lemma PushTextNotice(c: Context, p: Projector, start: int, id: string, customType: string, text: string,
      details: Details)
    requires Counted(c, p, start) && Unmentioned(Messages(p.events), id)
    ensures Messages(Push(c, p, CustomMessage(id, customType, [TextPart(text)], details)).events)
            == Messages(p.events) + [Notice(c.sessionId, id, customType, [TextPart(text)], text, details)]
  {
    hide *;
    OneTextPart(text);
    PushNotice(c, p, start, id, customType, [TextPart(text)], details);
  }

  lemma PushCreated(c: Context, p: Projector, start: int, id: string, role: Role)
    requires Counted(c, p, start) && Unmentioned(Messages(p.events), id)
    ensures var q := Push(c, p, MessageCreated(id, role));
            Counted(c, q, start) &&
            Messages(q.events)
              == Messages(p.events) + [RenderMessage(id, c.sessionId, role, false, [], "", None, None, None)]
  {
    hide Messages, ContentText, Unmentioned;
    var body := MessageCreated(id, role);
    PushCounted(c, p, start, body);
    hide Numbered;
    AddsFresh(p.events, ChatEvent(c.sessionId, p.seqNo, body), c.sessionId, start);
  }

  lemma PushCompleted(c: Context, p: Projector, start: int, before: seq<RenderMessage>, m: RenderMessage,
      content: seq<Content>, attachments: Option<seq<Attachment>>)
    requires Counted(c, p, start) && Messages(p.events) == before + [m]
    ensures var q := Push(c, p, MessageCompleted(m.id, content, attachments));
            Counted(c, q, start) &&
            Messages(q.events) == before + [m.(completed := true, content := content, text := ContentText(content),
                                               attachments := attachments)]
  {
    hide Messages, ContentText;
    var body := MessageCompleted(m.id, content, attachments);
    PushCounted(c, p, start, body);
    hide Numbered;
    assert (before + [m])[|before|] == m;
    EditsAt(p.events, ChatEvent(c.sessionId, p.seqNo, body), c.sessionId, start, |before|);
  }

  lemma PushPair(c: Context, p: Projector, start: int, id: string, role: Role, content: seq<Content>,
      attachments: Option<seq<Attachment>>)
    requires Counted(c, p, start) && Unmentioned(Messages(p.events), id)
    ensures var q := Push(c, Push(c, p, MessageCreated(id, role)), MessageCompleted(id, content, attachments));
            Counted(c, q, start) &&
            Messages(q.events) == Messages(p.events) +
              [RenderMessage(id, c.sessionId, role, true, content, ContentText(content), attachments, None, None)]
  {
    hide Messages, ContentText, Unmentioned, Counted, Push;
    var created := RenderMessage(id, c.sessionId, role, false, [], "", None, None, None);
    PushCreated(c, p, start, id, role);
    PushCompleted(c, Push(c, p, MessageCreated(id, role)), start, Messages(p.events), created, content, attachments);
  }

  lemma OneMoreUnmentioned(messages: seq<RenderMessage>, m: RenderMessage, id: string)
    ensures Unmentioned(messages + [m], id) <==> Unmentioned(messages, id) && m.id != id
  {
    assert (messages + [m])[|messages|] == m;
    assert forall i :: 0 <= i < |messages| ==> (messages + [m])[i] == messages[i];
  }

  /** The calls of a reply are told on its own message, and leave it as it is. */
  lemma {:induction false} CallsKeepMessages(c: Context, p: Projector, start: int, before: seq<RenderMessage>,
      m: RenderMessage, parts: seq<Part>)
    requires Counted(c, p, start) && Messages(p.events) == before + [m]
    ensures var q := PushCalls(c, p, m.id, parts); Counted(c, q, start) && Messages(q.events) == before + [m]
    decreases |parts|
  {
    hide Messages, Counted;
    if parts != [] {
      var prior, part := parts[..|parts| - 1], parts[|parts| - 1];
      var q := PushCalls(c, p, m.id, prior);
      CallsKeepMessages(c, p, start, before, m, prior);
      if part.CallBlock? {
        CallKeepsMessages(c, q, start, before, m, part);
      }
    }
  }

  lemma CallKeepsMessages(c: Context, p: Projector, start: int, before: seq<RenderMessage>, m: RenderMessage,
      part: Part)
    requires Counted(c, p, start) && Messages(p.events) == before + [m] && part.CallBlock?
    ensures var q := PushCall(c, p, m.id, part); Counted(c, q, start) && Messages(q.events) == before + [m]
  {
    hide Messages, Numbered, PutPending;
    var body := ToolStarted(part.id, m.id, part.name, part.arguments);
    PushCounted(c, p, start, body);
    assert (before + [m])[|before|] == m;
    EditsAt(p.events, ChatEvent(c.sessionId, p.seqNo, body), c.sessionId, start, |before|);
    assert (before + [m])[|before| := m] == before + [m];
  }

  // ---------------------------------------------------------------- the texts

  lemma WordsAreTrimmed(text: string)
    ensures StringField(text) == Words(text)
  {
    TrimMeaning(text);
  }

  lemma MarkerWordsAreOriginal(e: Entry)
    requires e.UserInputEntry?
    ensures OriginalInputText(e) == MarkerWords(e)
  {
    TrimMeaning(e.original);
  }

  lemma {:induction false} PicturesAreShown(content: seq<Content>)
    ensures ShownImages(content) == Pictures(content)
    decreases |content|
  {
    if content != [] {
      PicturesAreShown(content[1..]);
    }
  }

  lemma {:induction false} BlocksAreShown(parts: seq<Part>)
    ensures AssistantContent(parts) == Blocks(parts)
    decreases |parts|
  {
    if parts != [] {
      BlocksAreShown(parts[..|parts| - 1]);
    }
  }

  lemma SomethingIsVisible(parts: seq<Part>)
    ensures HasVisibleContent(parts) <==> HasSomethingToShow(parts)
  {
    forall i | 0 <= i < |parts|
      ensures VisiblePart(parts[i]) <==> !parts[i].OtherBlock? && (parts[i].TextBlock? ==> !Blank(parts[i].text))
    {
      if parts[i].TextBlock? {
        TrimMeaning(parts[i].text);
      }
    }
  }

  // ---------------------------------------------------------------- what the loop remembers

  ghost predicate Reads(c: Context, p: Projector, entries: seq<Entry>) {
    && p.original == WaitingWords(c, entries) && p.attachments == ChipsAhead(c, entries)
    && p.retryPrompt == Prompt(c, entries) && (p.notice <==> TurnHasEnded(c, entries))
  }

  /** What the log says after one more entry. */
  lemma OneMoreRead(c: Context, entries: seq<Entry>, e: Entry)
    ensures var all := entries + [e];
            ChipsAhead(c, all) == (if e.UserEntry? || e.RunCancelledEntry? then []
                                   else if e.UserInputEntry? && !AtUser(c, entries) then e.attachments
                                   else ChipsAhead(c, entries)) &&
            Prompt(c, all) == (if !IsShownUser(c, e) then Prompt(c, entries)
                               else Words(if WaitingWords(c, entries).Some? then WaitingWords(c, entries).value
                                          else ContentText(e.content))) &&
            (TurnHasEnded(c, all) <==> !e.UserEntry? && (EndsTurn(c, e) || TurnHasEnded(c, entries)))
  {
    var all := entries + [e];
    assert all[..|all| - 1] == entries && all[|all| - 1] == e;
    hide Words, WaitingWords, EndsTurn;
  }

  lemma {:induction false} CallsRemember(c: Context, p: Projector, id: string, parts: seq<Part>)
    ensures var q := PushCalls(c, p, id, parts);
            q.original == p.original && q.attachments == p.attachments && q.retryPrompt == p.retryPrompt &&
            q.notice == p.notice
    decreases |parts|
  {
    if parts != [] {
      CallsRemember(c, p, id, parts[..|parts| - 1]);
    }
  }

  lemma ReplyRemembers(c: Context, p: Projector, e: Entry)
    requires e.AssistantEntry?
    ensures var q := OnAssistant(c, p, e);
            q.original == p.original && q.attachments == p.attachments && q.retryPrompt == p.retryPrompt &&
            (q.notice <==> EndsTurn(c, e) || p.notice)
  {
    hide HasVisibleContent, AssistantContent, PushCalls;
    CallsRemember(c, Push(c, p.(afterUser := false), MessageCreated(e.id, Assistant)), e.id, e.parts);
  }

  lemma UserRemembers(c: Context, p: Projector, e: Entry)
    requires e.UserEntry?
    ensures var q := OnUser(c, p, e);
            q.original == None && q.attachments == [] && !q.notice &&
            q.retryPrompt == if IsShownUser(c, e)
                             then Words(if p.original.Some? then p.original.value else ContentText(e.content))
                             else p.retryPrompt
  {
    UserContentText(e.content, p.original);
    WordsAreTrimmed(if p.original.Some? then p.original.value else ContentText(e.content));
    hide UserContent, StringField, Words, Chips, ContentText;
  }

  lemma MarkerRemembers(c: Context, p: Projector, e: Entry, entries: seq<Entry>)
    requires e.UserInputEntry? && Follows(c, p, entries)
    ensures var q := OnUserInput(p, e);
            q.retryPrompt == p.retryPrompt && q.notice == p.notice &&
            q.attachments == if AtUser(c, entries) then p.attachments else e.attachments
  {
    hide PatchUser, OriginalInputText, Attached, WaitingWords, AtUser;
    if p.afterUser {
      AttachedInRange(p, UserBefore(c, entries));
    }
  }

  lemma OthersRemember(c: Context, p: Projector, e: Entry)
    requires !e.UserEntry? && !e.UserInputEntry? && !e.AssistantEntry?
    ensures var q := OnEntry(c, p, e);
            q.retryPrompt == p.retryPrompt && (q.notice <==> EndsTurn(c, e) || p.notice) &&
            q.attachments == if e.RunCancelledEntry? then [] else p.attachments
  {
    hide StringField, Chips, DropPending, ResultBody, ResultId;
  }

  lemma EntryReads(c: Context, p: Projector, e: Entry, entries: seq<Entry>)
    requires Follows(c, p, entries) && Reads(c, p, entries)
    ensures Reads(c, OnEntry(c, p, e), entries + [e])
  {
    OnEntryFollows(c, p, e, entries);
    OneMoreRead(c, entries, e);
    hide OnUser, OnAssistant, OnUserInput, OnEntry, Words, WaitingWords, ChipsAhead, Prompt, TurnHasEnded, AtUser,
         Attached;
    if e.UserEntry? {
      Dispatch(c, p, e);
      UserRemembers(c, p, e);
    } else if e.UserInputEntry? {
      Dispatch(c, p, e);
      MarkerRemembers(c, p, e, entries);
    } else if e.AssistantEntry? {
      Dispatch(c, p, e);
      ReplyRemembers(c, p, e);
    } else {
      OthersRemember(c, p, e);
    }
  }

  lemma Dispatch(c: Context, p: Projector, e: Entry)
    ensures e.UserEntry? ==> OnEntry(c, p, e) == OnUser(c, p, e)
    ensures e.UserInputEntry? ==> OnEntry(c, p, e) == OnUserInput(p, e)
    ensures e.AssistantEntry? ==> OnEntry(c, p, e) == OnAssistant(c, p, e)
    ensures e.ToolResultEntry? ==> OnEntry(c, p, e) == OnToolResult(c, p, e)
    ensures e.RunCancelledEntry? ==> OnEntry(c, p, e) == OnRunCancelled(c, p, e)
    ensures e.RunStoppedEntry? ==> OnEntry(c, p, e) == OnRunStopped(c, p, e)
    ensures e.CustomMessageEntry? ==> OnEntry(c, p, e) == OnCustomMessage(c, p, e)
  {
    hide OnUser, OnUserInput, OnAssistant, OnToolResult, OnRunCancelled, OnRunStopped, OnCustomMessage;
  }

  // ---------------------------------------------------------------- what an entry adds

  /** No message has an id that the entry can give to one of its own. */
  ghost predicate IsFresh(messages: seq<RenderMessage>, e: Entry) {
    && Unmentioned(messages, e.id) && Unmentioned(messages, CancelledUserId(e.id))
    && Unmentioned(messages, StoppedId(e.id)) && Unmentioned(messages, ModelErrorId(e.id))
    && Unmentioned(messages, WorkflowStepId(e.id))
  }

  lemma UserAdds(c: Context, p: Projector, start: int, e: Entry, prior: seq<Entry>)
    requires e.UserEntry? && Counted(c, p, start) && Reads(c, p, prior) && IsFresh(Messages(p.events), e)
    ensures Messages(OnUser(c, p, e).events) == Messages(p.events) + TurnOf(c, prior, e)
  {
    hide Messages, Unmentioned, StringField, ContentText, UserContent, Pictures, WaitingWords, ChipsAhead, Numbered;
    var turn, before := p.(notice := false), Messages(p.events);
    var content := UserContent(e.content, p.original);
    UserContentText(e.content, p.original);
    UserContentText(e.content, None);
    TurnContent(e, p.original);
    TurnContent(e, None);
    PrefixedIdDiffers(e.id);
    var shown := IsShownUser(c, e);
    var told := if shown then PushUser(c, turn, e) else turn.(afterUser := false);
    if shown {
      PushPair(c, turn, start, e.id, User, content, Chips(p.attachments));
      OneMoreUnmentioned(before, UserMessage(c.sessionId, e.id, ContentText(content), Pictures(e.content),
                                             p.attachments), WorkflowStepId(e.id));
    }
    if e.id in c.steps {
      PushNotice(c, told, start, WorkflowStepId(e.id), "opencandle-workflow-step", UserContent(e.content, None),
                 Step(c.steps[e.id]));
    }
  }

  lemma TurnContent(e: Entry, words: Option<string>)
    requires e.UserEntry?
    ensures UserContent(e.content, words)
            == [TextPart(if words.Some? then words.value else ContentText(e.content))] + Pictures(e.content)
  {
    PicturesAreShown(e.content);
  }

  lemma CancelledAdds(c: Context, p: Projector, start: int, e: Entry, prior: seq<Entry>)
    requires e.RunCancelledEntry? && Counted(c, p, start) && Reads(c, p, prior) && IsFresh(Messages(p.events), e)
    ensures Messages(OnRunCancelled(c, p, e).events) == Messages(p.events) + CancelledTurn(c, prior, e)
  {
    hide Messages, Unmentioned, StringField, Words, WaitingWords, ChipsAhead, Numbered, ContentText;
    WordsAreTrimmed(e.text);
    var before, words := Messages(p.events), if p.original.Some? then p.original else StringField(e.text);
    var cleared := p.(original := None, attachments := [], afterUser := false);
    var told := if words.Some? then PushCancelledUser(c, cleared, e.id, words.value, p.attachments) else cleared;
    PrefixedIdDiffers(e.id);
    if words.Some? {
      OneTextPart(words.value);
      PushPair(c, cleared, start, CancelledUserId(e.id), User, [TextPart(words.value)], Chips(p.attachments));
      var m := UserMessage(c.sessionId, CancelledUserId(e.id), words.value, [], p.attachments);
      assert [TextPart(words.value)] + [] == [TextPart(words.value)];
      OneMoreUnmentioned(before, m, e.id);
    }
    PushTextNotice(c, told, start, e.id, RUN_CANCELLED, RUN_STOPPED_EARLY, Cancelled(e.data, words));
  }

  lemma StoppedAdds(c: Context, p: Projector, start: int, e: Entry, prior: seq<Entry>)
    requires e.RunStoppedEntry? && Counted(c, p, start) && Reads(c, p, prior) && IsFresh(Messages(p.events), e)
    ensures Messages(OnRunStopped(c, p, e).events) == Messages(p.events) + StoppedTurn(c, prior, e)
  {
    hide Messages, Unmentioned, StringField, Words, Numbered, Prompt, TurnHasEnded;
    WordsAreTrimmed(e.prompt);
    BlankHasNoWords(e.prompt);
    if !p.notice {
      var prompt := if StringField(e.prompt).Some? then StringField(e.prompt) else p.retryPrompt;
      PushTextNotice(c, p.(afterUser := false, notice := true), start, StoppedId(e.id), RUN_CANCELLED,
                     "Run stopped before it finished.", Stopped("stopped", prompt));
    }
  }

  lemma BlankHasNoWords(text: string)
    ensures Words(text).Some? <==> !Blank(text)
  {
  }

  lemma CustomAdds(c: Context, p: Projector, start: int, e: Entry, prior: seq<Entry>)
    requires e.CustomMessageEntry? && Counted(c, p, start) && IsFresh(Messages(p.events), e)
    ensures Messages(OnCustomMessage(c, p, e).events) == Messages(p.events) + Adds(c, prior, e)
  {
    hide Messages, Unmentioned, Numbered;
    var noticed := e.customType == MODEL_RUN_FAILED || e.customType == RUN_CANCELLED;
    PushTextNotice(c, p.(afterUser := false, notice := p.notice || noticed), start, e.id,
                   if e.customType != "" then e.customType else "custom", e.text, Recorded(e.data));
  }

  lemma FailureAdds(c: Context, p: Projector, start: int, e: Entry, prior: seq<Entry>)
    requires ShownAsFailure(c, e) && Counted(c, p, start) && Reads(c, p, prior) && IsFresh(Messages(p.events), e)
    ensures Messages(OnAssistant(c, p, e).events) == Messages(p.events) + FailedReply(c, prior, e)
  {
    hide Messages, Unmentioned, Numbered, Prompt;
    TrimMeaning(e.stop.errorMessage);
    hide Trim, Blank;
    if e.id !in c.superseded {
      PushTextNotice(c, p.(afterUser := false, notice := true), start, ModelErrorId(e.id), MODEL_RUN_FAILED,
                     FailureText(e.stop), ModelFailure(e.provider, e.model, p.retryPrompt));
    }
  }

  function Answer(c: Context, e: Entry): RenderMessage
    requires e.AssistantEntry?
  {
    RenderMessage(e.id, c.sessionId, Assistant, true, Blocks(e.parts), AnswerText(e.parts), None, None, None)
  }

  lemma AnswerAdds(c: Context, p: Projector, start: int, e: Entry)
    requires e.AssistantEntry? && Counted(c, p, start) && Unmentioned(Messages(p.events), e.id)
    ensures Counted(c, PushAnswer(c, p, e), start)
    ensures Messages(PushAnswer(c, p, e).events) == Messages(p.events) + [Answer(c, e)]
  {
    hide Messages, Unmentioned, Counted, Push, PushCalls, Blocks, AnswerText, AssistantContent, ContentText;
    var before, created := Messages(p.events), Push(c, p, MessageCreated(e.id, Assistant));
    var m := RenderMessage(e.id, c.sessionId, Assistant, false, [], "", None, None, None);
    PushCreated(c, p, start, e.id, Assistant);
    CallsKeepMessages(c, created, start, before, m, e.parts);
    PushCompleted(c, PushCalls(c, created, e.id, e.parts), start, before, m, AssistantContent(e.parts), None);
    BlocksAreShown(e.parts);
    AnswerContentText(e.parts);
  }

  lemma StopAdds(c: Context, p: Projector, start: int, e: Entry, partial: bool, retryPrompt: Option<string>)
    requires e.AssistantEntry? && Counted(c, p, start) && Unmentioned(Messages(p.events), StoppedId(e.id))
    requires p.retryPrompt == retryPrompt
    ensures var prompt := if e.id in c.userStopped && c.userStopped[e.id].Some? then c.userStopped[e.id]
                          else retryPrompt;
            var text := if partial then "Run stopped before it finished its answer."
                        else "Run stopped before it produced an answer.";
            Messages(PushStopped(c, p, e, partial).events)
            == Messages(p.events) + [StopNotice(c.sessionId, "stopped-" + e.id, text, Stopped("aborted", prompt))]
  {
    hide Messages, Unmentioned, Numbered;
    var prompt := if e.id in c.userStopped && c.userStopped[e.id].Some? then c.userStopped[e.id] else p.retryPrompt;
    PushTextNotice(c, p, start, StoppedId(e.id), RUN_CANCELLED,
                   if partial then "Run stopped before it finished its answer." else RUN_STOPPED_EARLY,
                   Stopped("aborted", prompt));
  }

  lemma AnswerRemembers(c: Context, p: Projector, e: Entry)
    requires e.AssistantEntry?
    ensures PushAnswer(c, p, e).retryPrompt == p.retryPrompt
  {
    hide AssistantContent, PushCalls;
    CallsRemember(c, Push(c, p, MessageCreated(e.id, Assistant)), e.id, e.parts);
  }

  lemma ReplyAdds(c: Context, p: Projector, start: int, e: Entry, prior: seq<Entry>)
    requires e.AssistantEntry? && !ShownAsFailure(c, e)
    requires Counted(c, p, start) && Reads(c, p, prior) && IsFresh(Messages(p.events), e)
    ensures Messages(OnAssistant(c, p, e).events) == Messages(p.events) + Reply(c, prior, e)
  {
    hide Messages, Unmentioned, Numbered, Prompt, PushAnswer, PushStopped, HasVisibleContent, HasSomethingToShow,
         Blocks, AnswerText;
    var q := p.(afterUser := false);
    var before := Messages(p.events);
    SomethingIsVisible(e.parts);
    if ShownAsStopped(c, e) && !HasVisibleContent(e.parts) {
      StopAdds(c, q, start, e, false, p.retryPrompt);
    } else {
      AnswerAdds(c, q, start, e);
      if ShownAsStopped(c, e) {
        AnswerRemembers(c, q, e);
        PrefixedIdDiffers(e.id);
        OneMoreUnmentioned(before, Answer(c, e), StoppedId(e.id));
        StopAdds(c, PushAnswer(c, q, e), start, e, true, p.retryPrompt);
      }
    }
  }

  lemma ResultAdds(c: Context, p: Projector, start: int, e: Entry, prior: seq<Entry>)
    requires e.ToolResultEntry? && Counted(c, p, start) && IsFresh(Messages(p.events), e)
    requires ResultId(e) in p.seen <==> ChatToolLog.Called(c.userStopped.Keys, prior, ResultId(e))
    ensures Messages(OnToolResult(c, p, e).events) == Messages(p.events) + Adds(c, prior, e)
  {
    hide Messages, Unmentioned, DropPending, ChatToolLog.Called, ResultBody;
    var rid := ResultId(e);
    var q := p.(afterUser := false, resolved := p.resolved + {rid}, pending := DropPending(p.pending, rid));
    var begin := ToolStarted(rid, e.id, if e.toolName != "" then e.toolName else "tool", e.input);
    var started := if rid in p.seen then q else Push(c, q, begin);
    ResultMentionsNothing(e);
    PushCounted(c, q, start, begin);
    PushCounted(c, started, start, ResultBody(e));
    hide Numbered;
    if rid !in p.seen {
      AddsFresh(q.events, ChatEvent(c.sessionId, q.seqNo, begin), c.sessionId, start);
    }
    AddsNothing(started.events, ChatEvent(c.sessionId, started.seqNo, ResultBody(e)), c.sessionId, start);
  }

  lemma ResultMentionsNothing(e: Entry)
    requires e.ToolResultEntry?
    ensures !Mentions(ResultBody(e))
  {
  }

  /** Every entry but a marker adds its own messages to those before it. */
  lemma EntryAdds(c: Context, p: Projector, start: int, e: Entry, prior: seq<Entry>)
    requires !e.UserInputEntry? && Counted(c, p, start) && Reads(c, p, prior) && IsFresh(Messages(p.events), e)
    requires forall id :: id in p.seen <==> ChatToolLog.Called(c.userStopped.Keys, prior, id)
    ensures Messages(OnEntry(c, p, e).events) == Messages(p.events) + Adds(c, prior, e)
  {
    Dispatch(c, p, e);
    hide Messages, Counted, Reads, IsFresh, TurnOf, FailedReply, Reply, CancelledTurn, StoppedTurn, OnUser, OnUserInput,
         OnAssistant, OnToolResult, OnRunCancelled, OnRunStopped, OnCustomMessage, ChatToolLog.Called;
    match e
    case UserEntry(_, _) => UserAdds(c, p, start, e, prior);
    case AssistantEntry(_, _, _, _, _) =>
      if ShownAsFailure(c, e) { FailureAdds(c, p, start, e, prior); } else { ReplyAdds(c, p, start, e, prior); }
    case RunCancelledEntry(_, _, _) => CancelledAdds(c, p, start, e, prior);
    case RunStoppedEntry(_, _, _) => StoppedAdds(c, p, start, e, prior);
    case CustomMessageEntry(_, _, _, _) => CustomAdds(c, p, start, e, prior);
    case ToolResultEntry(_, _, _, _, _, _, _) => ResultAdds(c, p, start, e, prior);
    case _ =>
  }

  // ---------------------------------------------------------------- what a marker changes

  /** Changing a completed message at its last event: its role, its custom type and all other messages
      stay. */
  lemma {:induction false} PatchTells(events: seq<ChatEvent>, k: nat, e: ChatEvent, id: string)
    requires k < |events| && events[k].body.MessageCompleted? && e.body.MessageCompleted? &&
             e.body.messageId == events[k].body.messageId
    ensures var patched, own := events[k := e], id == e.body.messageId && SilentAfter(events, k, id);
            RoleTold(patched, id) == RoleTold(events, id) && CustomTold(patched, id) == CustomTold(events, id) &&
            (id != e.body.messageId ==>
             ContentTold(patched, id) == ContentTold(events, id) &&
             AttachmentsTold(patched, id) == AttachmentsTold(events, id)) &&
            (own ==>
             RoleTold(events, id).Some? &&
             ContentTold(patched, id) == e.body.content && ContentTold(events, id) == events[k].body.content &&
             AttachmentsTold(patched, id) == e.body.attachments &&
             AttachmentsTold(events, id) == events[k].body.attachments)
    decreases |events|
  {
    var last := |events| - 1;
    var prior, patched := events[..last], events[k := e];
    if k == last {
      assert patched[..last] == prior;
      if id == e.body.messageId {
        RoleIsFirst(events, id);
        RoleIsFirst(patched, id);
      }
    } else {
      assert patched[..last] == prior[k := e];
      PatchTells(prior, k, e, id);
      PatchShows(prior, k, e, id);
      SilentPrefix(events, k, id);
      hide ContentText, SilentAfter;
    }
  }

  lemma RoleIsFirst(events: seq<ChatEvent>, id: string)
    requires events != [] && Mentions(events[|events| - 1].body) && events[|events| - 1].body.messageId == id
    ensures RoleTold(events, id).Some?
  {
  }

  lemma SilentPrefix(events: seq<ChatEvent>, k: nat, id: string)
    requires k < |events| - 1
    ensures SilentAfter(events, k, id)
            <==> SilentAfter(events[..|events| - 1], k, id) && Silent(events[|events| - 1].body, id)
  {
    var prior := events[..|events| - 1];
    assert forall j :: 0 <= j < |prior| ==> prior[j] == events[j];
  }

  lemma {:induction false} PatchMentions(events: seq<ChatEvent>, k: nat, e: ChatEvent)
    requires k < |events| && events[k].body.MessageCompleted? && e.body.MessageCompleted? &&
             e.body.messageId == events[k].body.messageId
    ensures Mentioned(events[k := e]) == Mentioned(events)
    decreases |events|
  {
    var last := |events| - 1;
    if k == last {
      assert events[k := e][..last] == events[..last];
    } else {
      assert events[k := e][..last] == events[..last][k := e];
      PatchMentions(events[..last], k, e);
    }
  }

  lemma PatchedMessage(events: seq<ChatEvent>, k: nat, e: ChatEvent, marker: Entry, sessionId: string, id: string)
    requires k < |events| && events[k].body.MessageCompleted? && marker.UserInputEntry?
    requires SilentAfter(events, k, events[k].body.messageId)
    requires e.body == PatchUser(events[k].body, OriginalInputText(marker), marker.attachments)
    requires MessageTold(events, sessionId, id).Some?
    ensures var m := MessageTold(events, sessionId, id).value;
            m.id == id &&
            MessageTold(events[k := e], sessionId, id)
              == Some(if id == events[k].body.messageId then Reworded(m, marker) else m)
  {
    hide ShownBy, RoleTold, ContentTold, AttachmentsTold, CustomTold, ContentText, SilentAfter, OriginalInputText;
    PatchTells(events, k, e, id);
    PatchShows(events, k, e, id);
    MarkerWordsAreOriginal(marker);
    PicturesAreShown(events[k].body.content);
    UserContentText(events[k].body.content, OriginalInputText(marker));
    hide Pictures, MarkerWords;
  }

  lemma MarkerRewords(c: Context, p: Projector, start: int, e: Entry, prior: seq<Entry>)
    requires e.UserInputEntry? && Shaped(c, p, start) && Follows(c, p, prior)
    ensures Messages(OnUserInput(p, e).events)
            == if AtUser(c, prior) then RewordedAt(Messages(p.events), UserBefore(c, prior), e)
               else Messages(p.events)
  {
    hide OriginalInputText, SilentAfter, MessageTold, Mentioned, WaitingWords, AtUser, Reworded, PatchUser, Messages;
    OnUserInputShaped(c, p, start, e);
    if AtUser(c, prior) {
      var q, k := OnUserInput(p, e), p.lastUser.value;
      PatchedList(p.events, k, q.events[k], e, c.sessionId, start);
    }
  }

  lemma PatchedList(events: seq<ChatEvent>, k: nat, e: ChatEvent, marker: Entry, sessionId: string, start: int)
    requires k < |events| && events[k].body.MessageCompleted? && marker.UserInputEntry?
    requires SilentAfter(events, k, events[k].body.messageId)
    requires e.body == PatchUser(events[k].body, OriginalInputText(marker), marker.attachments)
    requires Numbered(events, sessionId, start) && Numbered(events[k := e], sessionId, start)
    ensures Messages(events[k := e]) == RewordedAt(Messages(events), events[k].body.messageId, marker)
  {
    hide OriginalInputText, SilentAfter, MessageTold, Reworded, Numbered, Fold;
    PatchIsCompleted(events[k].body, OriginalInputText(marker), marker.attachments);
    hide PatchUser;
    PatchMentions(events, k, e);
    hide Mentioned;
    ShownMessageList(events, sessionId, start);
    ShownMessageList(events[k := e], sessionId, start);
    var ids := Mentioned(events);
    forall i | 0 <= i < |ids|
      ensures Messages(events)[i].id == ids[i] &&
              Messages(events[k := e])[i] == if ids[i] == events[k].body.messageId
                                             then Reworded(Messages(events)[i], marker) else Messages(events)[i]
    {
      PatchedMessage(events, k, e, marker, sessionId, ids[i]);
    }
  }

  lemma PatchIsCompleted(body: Body, original: Option<string>, attachments: seq<Attachment>)
    requires body.MessageCompleted?
    ensures PatchUser(body, original, attachments).MessageCompleted? &&
            PatchUser(body, original, attachments).messageId == body.messageId
  {
  }

  // ---------------------------------------------------------------- whose messages they are

  /** The ids that an entry can give to its messages. */
  predicate OwnsId(e: Entry, id: string) {
    id == e.id || id == CancelledUserId(e.id) || id == StoppedId(e.id) || id == ModelErrorId(e.id) ||
    id == WorkflowStepId(e.id)
  }

  lemma AddsOwnIds(c: Context, prior: seq<Entry>, e: Entry)
    ensures forall m :: m in Adds(c, prior, e) ==> OwnsId(e, m.id)
  {
    hide WaitingWords, ChipsAhead, Prompt, TurnHasEnded, Pictures, Blocks, AnswerText, Words, ContentText,
         HasSomethingToShow, ChatToolLog.Called, Blank, Trim;
  }

  lemma {:induction false} TranscriptIds(c: Context, entries: seq<Entry>, m: RenderMessage)
    requires m in Transcript(c, entries)
    ensures exists j :: 0 <= j < |entries| && OwnsId(entries[j], m.id)
    decreases |entries|
  {
    hide OwnsId, Adds, AtUser, UserBefore;
    var prior, e := entries[..|entries| - 1], entries[|entries| - 1];
    var before := Transcript(c, prior);
    if e.UserInputEntry? && AtUser(c, prior) {
      var i :| 0 <= i < |before| && Transcript(c, entries)[i] == m;
      RewordedId(before[i], e);
      TranscriptIds(c, prior, before[i]);
    } else if m in before {
      TranscriptIds(c, prior, m);
    } else {
      AddsOwnIds(c, prior, e);
      assert OwnsId(entries[|entries| - 1], m.id);
    }
  }

  lemma RewordedId(m: RenderMessage, e: Entry)
    requires e.UserInputEntry?
    ensures Reworded(m, e).id == m.id
  {
  }

  lemma PrefixesDiffer(a: string, b: string)
    ensures CancelledUserId(a) != StoppedId(b) && CancelledUserId(a) != ModelErrorId(b) &&
            CancelledUserId(a) != WorkflowStepId(b) && StoppedId(a) != ModelErrorId(b) &&
            StoppedId(a) != WorkflowStepId(b) && ModelErrorId(a) != WorkflowStepId(b)
    ensures (CancelledUserId(a) == CancelledUserId(b) || StoppedId(a) == StoppedId(b) ||
             ModelErrorId(a) == ModelErrorId(b) || WorkflowStepId(a) == WorkflowStepId(b)) ==> a == b
  {
    assert CancelledUserId(a)[0] == 'c' && CancelledUserId(a)[15..] == a && CancelledUserId(b)[15..] == b;
    assert StoppedId(a)[0] == 's' && StoppedId(a)[8..] == a && StoppedId(b)[0] == 's' && StoppedId(b)[8..] == b;
    assert ModelErrorId(a)[0] == 'm' && ModelErrorId(a)[12..] == a && ModelErrorId(b)[0] == 'm' &&
        ModelErrorId(b)[12..] == b;
    assert WorkflowStepId(a)[14..] == a && WorkflowStepId(b)[0] == 'w' && WorkflowStepId(b)[14..] == b;
  }

  /** With plain ids, no two entries can give the same id. */
  lemma IdsAreOwn(entries: seq<Entry>, i: nat, j: nat, id: string)
    requires PlainIds(entries) && i < j < |entries| && OwnsId(entries[i], id)
    ensures !OwnsId(entries[j], id)
  {
    hide CancelledUserId, StoppedId, ModelErrorId, WorkflowStepId;
    PrefixesDiffer(entries[i].id, entries[j].id);
    PrefixesDiffer(entries[j].id, entries[i].id);
    assert !CloserId(entries[j], entries[i].id) && !CloserId(entries[i], entries[j].id);
  }

  lemma NextIsFresh(c: Context, entries: seq<Entry>, n: nat)
    requires PlainIds(entries) && n < |entries|
    ensures IsFresh(Transcript(c, entries[..n]), entries[n])
  {
    hide PlainIds, Transcript, OwnsId;
    var before, e := Transcript(c, entries[..n]), entries[n];
    forall i | 0 <= i < |before| ensures !OwnsId(e, before[i].id) {
      TranscriptIds(c, entries[..n], before[i]);
      var j: int :| 0 <= j < n && OwnsId(entries[..n][j], before[i].id);
      IdsAreOwn(entries, j, n, before[i].id);
    }
    FreshIsUnowned(before, e);
  }

  lemma FreshIsUnowned(messages: seq<RenderMessage>, e: Entry)
    requires forall i :: 0 <= i < |messages| ==> !OwnsId(e, messages[i].id)
    ensures IsFresh(messages, e)
  {
    hide CancelledUserId, StoppedId, ModelErrorId, WorkflowStepId;
  }

  // ---------------------------------------------------------------- the whole log

  lemma {:induction false} LogIsTranscribed(c: Context, r: Request, entries: seq<Entry>, n: nat)
    requires c.sessionId == r.sessionId && PlainIds(entries) && n <= |entries|
    ensures var p := OnEntries(c, Begin(c, r.title, r.updatedAt, r.startSeq), entries[..n]);
            Messages(p.events) == Transcript(c, entries[..n]) && Reads(c, p, entries[..n])
  {
    hide Messages, PlainIds, Reads, OnEntry, Begin, Adds, Shaped, AtUser, UserBefore, Reworded, ChatToolLog.Called,
         Follows;
    var begun := Begin(c, r.title, r.updatedAt, r.startSeq);
    if n == 0 {
      assert entries[..0] == [];
      NothingTranscribed(c, r);
    } else {
      var prior, e := entries[..n - 1], entries[n - 1];
      assert entries[..n] == prior + [e];
      assert entries[..n][..n - 1] == prior;
      LogIsTranscribed(c, r, entries, n - 1);
      var p := OnEntries(c, begun, prior);
      BeginFollows(c, r);
      OnEntriesFollows(c, begun, prior);
      EntryReads(c, p, e, prior);
      BeginKnows(c, r, "");
      OnEntriesShaped(c, begun, r.startSeq, prior);
      if e.UserInputEntry? {
        Dispatch(c, p, e);
        MarkerRewords(c, p, r.startSeq, e, prior);
        NoneAdded(c, prior, e);
      } else {
        NextIsFresh(c, entries, n - 1);
        ShapedIsCounted(c, p, r.startSeq);
        forall id ensures id in p.seen <==> ChatToolLog.Called(c.userStopped.Keys, prior, id) {
          ChatToolLog.SeenIsCalled(c, r, prior, id);
        }
        EntryAdds(c, p, r.startSeq, e, prior);
      }
    }
  }

  lemma NoneAdded(c: Context, prior: seq<Entry>, e: Entry)
    requires e.UserInputEntry?
    ensures Adds(c, prior, e) == []
  {
  }

  lemma ShapedIsCounted(c: Context, p: Projector, start: int)
    requires Shaped(c, p, start)
    ensures Counted(c, p, start)
  {
  }

  lemma NothingTranscribed(c: Context, r: Request)
    requires c.sessionId == r.sessionId
    ensures var begun := Begin(c, r.title, r.updatedAt, r.startSeq);
            Messages(begun.events) == [] && Reads(c, begun, []) && Transcript(c, []) == []
  {
    var body := SessionUpdated(r.title, r.updatedAt);
    var events: seq<ChatEvent> := [];
    assert events + [ChatEvent(c.sessionId, r.startSeq, body)]
        == Begin(c, r.title, r.updatedAt, r.startSeq).events;
    AddsNothing([], ChatEvent(c.sessionId, r.startSeq, body), c.sessionId, r.startSeq);
  }

  lemma {:induction false} MarkingAddsNothing(c: Context, p: Projector, start: int, n: nat)
    requires Counted(c, p, start) && n <= |p.pending|
    ensures var q := MarkUnresolved(c, p, n); Counted(c, q, start) && Messages(q.events) == Messages(p.events)
    decreases n
  {
    hide Messages, Numbered;
    if n > 0 {
      MarkingAddsNothing(c, p, start, n - 1);
      var q, body := MarkUnresolved(c, p, n - 1), ToolFailed(p.pending[n - 1].id, NOT_FINISHED);
      if p.pending[n - 1].id !in p.resolved {
        PushCounted(c, q, start, body);
        AddsNothing(q.events, ChatEvent(c.sessionId, q.seqNo, body), c.sessionId, start);
      }
    }
  }

  /** A reload shows exactly the messages of the log: each entry's own, whole and in order, reworded by
      the markers that belong to them, and no others. */
  lemma ReloadShowsTranscript(entries: seq<Entry>, r: Request)
    requires PlainIds(entries)
    ensures Reduce(Project(entries, r)).messages == Transcript(ContextOf(entries, r.sessionId), entries)
  {
    hide Indexed, Numbered, NoDeltas, Reduce, Fold, PlainIds, Transcript, OnEntries, MarkUnresolved, ContextOf, Begin,
         Shaped, Counted, Reads;
    var c := ContextOf(entries, r.sessionId);
    ContextSession(entries, r.sessionId);
    ReducedProjection(entries, r);
    LogIsTranscribed(c, r, entries, |entries|);
    assert entries[..|entries|] == entries;
    var begun := Begin(c, r.title, r.updatedAt, r.startSeq);
    BeginKnows(c, r, "");
    OnEntriesShaped(c, begun, r.startSeq, entries);
    var p := OnEntries(c, begun, entries);
    ShapedIsCounted(c, p, r.startSeq);
    MarkingAddsNothing(c, p, r.startSeq, |p.pending|);
  }
}
