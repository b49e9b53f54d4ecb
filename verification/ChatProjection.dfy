// The projection of a session log to numbered chat events, sessionEntriesToChatEvents of
// gui/server/chat-event-adapter.ts.
module ChatProjection {
  import opened ChatEvents
  import opened Options
  import opened SessionLog
  import opened Texts
  import WorkflowSteps

  const RUN_STOPPED_EARLY := "Run stopped before it produced an answer."
  const NO_MESSAGE := "The model run failed before it returned a response."
  const NOT_FINISHED :=
    "Tool call did not finish. The run may have been interrupted before OpenCandle received a tool result."

  /** What the projection of a log knows from the start. */
  datatype Context = Context(
    sessionId: string, superseded: set<string>, userStopped: map<string, Option<string>>,
      steps: map<string, WorkflowStep>)

  datatype PendingCall = PendingCall(id: string, name: string)

  /** The variables of the loop: `pending` is its insertion-ordered map of open calls, `lastUser` the
      index of the last completed user message. */
  datatype Projector = Projector(
    events: seq<ChatEvent>, seqNo: int, seen: set<string>, resolved: set<string>, pending: seq<PendingCall>,
    original: Option<string>, attachments: seq<Attachment>, afterUser: bool, lastUser: Option<nat>,
    retryPrompt: Option<string>, notice: bool)

  // ---------------------------------------------------------------- content

  function MessageText(content: seq<Content>): string {
    ContentText(content)
  }

  /** Only images with a URL, or with data and a type, are shown; those with a URL keep only that. */
  function ShownImage(part: Content): seq<Content> {
    if !part.ImagePart? then []
    else if part.url.Some? then [ImagePart(part.url, None, None, part.alt)]
    else if part.data.Some? && part.mimeType.Some? then
      [ImagePart(Some("data:" + part.mimeType.value + ";base64," + part.data.value), part.data, part.mimeType,
                 part.alt)]
    else []
  }

  function ShownImages(content: seq<Content>): seq<Content>
    decreases |content|
  {
    if content == [] then [] else ShownImage(content[0]) + ShownImages(content[1..])
  }

  function UserContent(content: seq<Content>, original: Option<string>): seq<Content> {
    [TextPart(if original.Some? then original.value else MessageText(content))] + ShownImages(content)
  }

  function Chips(attachments: seq<Attachment>): Option<seq<Attachment>> {
    if attachments == [] then None else Some(attachments)
  }

  function AssistantContent(parts: seq<Part>): seq<Content>
    decreases |parts|
  {
    if parts == [] then []
    else
      AssistantContent(parts[..|parts| - 1]) +
      match parts[|parts| - 1]
      case TextBlock(text) => [TextPart(text)]
      case CallBlock(id, _, _) => [ToolPart(id)]
      case ImageBlock(url) => [ImagePart(Some(url), None, None, None)]
      case OtherBlock => []
  }

  predicate VisiblePart(part: Part) {
    (part.TextBlock? && Trim(part.text) != "") || part.CallBlock? || part.ImageBlock?
  }

  predicate HasVisibleContent(parts: seq<Part>) {
    exists i :: 0 <= i < |parts| && VisiblePart(parts[i])
  }

  // ---------------------------------------------------------------- the steps

  function Push(c: Context, p: Projector, body: Body): Projector {
    p.(events := p.events + [ChatEvent(c.sessionId, p.seqNo, body)], seqNo := p.seqNo + 1)
  }

  function HasPending(pending: seq<PendingCall>, id: string): bool {
    exists i :: 0 <= i < |pending| && pending[i].id == id
  }

  /** Setting a key of the map: a present key keeps its place. */
  function PutPending(pending: seq<PendingCall>, id: string, name: string): seq<PendingCall>
    decreases |pending|
  {
    if pending == [] then [PendingCall(id, name)]
    else if pending[0].id == id then [PendingCall(id, name)] + pending[1..]
    else [pending[0]] + PutPending(pending[1..], id, name)
  }

  function DropPending(pending: seq<PendingCall>, id: string): seq<PendingCall>
    decreases |pending|
  {
    if pending == [] then []
    else if pending[0].id == id then pending[1..]
    else [pending[0]] + DropPending(pending[1..], id)
  }

  /** `applyOriginalInput`: the completed user message is changed where it stands. */
  function PatchUser(body: Body, original: Option<string>, attachments: seq<Attachment>): Body {
    match body
    case MessageCompleted(id, content, before) =>
      MessageCompleted(id, if original.Some? then UserContent(content, original) else content,
                       if attachments != [] then Some(attachments) else before)
    case _ => body
  }

  function OnUserInput(p: Projector, e: Entry): Projector
    requires e.UserInputEntry?
  {
    var original := OriginalInputText(e);
    if p.afterUser && p.lastUser.Some? && p.lastUser.value < |p.events| then
      var k := p.lastUser.value;
      p.(events := p.events[k := p.events[k].(body := PatchUser(p.events[k].body, original, e.attachments))],
         afterUser := false)
    else p.(original := original, attachments := e.attachments, afterUser := false)
  }

  function OnCustomMessage(c: Context, p: Projector, e: Entry): Projector
    requires e.CustomMessageEntry?
  {
    var customType := if e.customType != "" then e.customType else "custom";
    var noticed := e.customType == MODEL_RUN_FAILED || e.customType == RUN_CANCELLED;
    Push(c, p.(afterUser := false, notice := p.notice || noticed),
         CustomMessage(e.id, customType, [TextPart(e.text)], Recorded(e.data)))
  }

  function CancelledUserId(id: string): string { "cancelled-user-" + id }
  function StoppedId(id: string): string { "stopped-" + id }
  function ModelErrorId(id: string): string { "model-error-" + id }
  function WorkflowStepId(id: string): string { "workflow-step-" + id }

  function PushCancelledUser(c: Context, p: Projector, id: string, text: string,
      attachments: seq<Attachment>): Projector
  {
    Push(c, Push(c, p, MessageCreated(CancelledUserId(id), User)),
         MessageCompleted(CancelledUserId(id), [TextPart(text)], Chips(attachments)))
  }

  function OnRunCancelled(c: Context, p: Projector, e: Entry): Projector
    requires e.RunCancelledEntry?
  {
    var text := if p.original.Some? then p.original else StringField(e.text);
    var cleared := p.(original := None, attachments := [], afterUser := false);
    var told := if text.Some? then PushCancelledUser(c, cleared, e.id, text.value, p.attachments) else cleared;
    Push(c, told, CustomMessage(e.id, RUN_CANCELLED, [TextPart(RUN_STOPPED_EARLY)],
                                Cancelled(e.data, text))).(notice := true)
  }

  function OnRunStopped(c: Context, p: Projector, e: Entry): Projector
    requires e.RunStoppedEntry?
  {
    if p.notice then p.(afterUser := false)
    else
      var prompt := if StringField(e.prompt).Some? then StringField(e.prompt) else p.retryPrompt;
      Push(c, p.(afterUser := false, notice := true),
           CustomMessage(StoppedId(e.id), RUN_CANCELLED, [TextPart("Run stopped before it finished.")],
                         Stopped("stopped", prompt)))
  }

  function PushUser(c: Context, p: Projector, e: Entry): Projector
    requires e.UserEntry?
  {
    var content := UserContent(e.content, p.original);
    var told := Push(c, Push(c, p, MessageCreated(e.id, User)), MessageCompleted(e.id, content, Chips(p.attachments)));
    told.(retryPrompt := StringField(MessageText(content)), lastUser := Some(|p.events| + 1), afterUser := true)
  }

  function OnUser(c: Context, p: Projector, e: Entry): Projector
    requires e.UserEntry?
  {
    var turn := p.(notice := false);
    var told := if e.id !in c.steps || c.steps[e.id].preserveUserTurn then PushUser(c, turn, e)
        else turn.(afterUser := false);
    var stepped :=
      if e.id in c.steps then
        Push(c, told, CustomMessage(WorkflowStepId(e.id), "opencandle-workflow-step", UserContent(e.content, None),
                                    Step(c.steps[e.id])))
      else told;
    stepped.(original := None, attachments := [])
  }

  function PushCall(c: Context, p: Projector, messageId: string, part: Part): Projector {
    if part.CallBlock? then
      Push(c, p.(seen := p.seen + {part.id}, pending := PutPending(p.pending, part.id, part.name)),
           ToolStarted(part.id, messageId, part.name, part.arguments))
    else p
  }

  function PushCalls(c: Context, p: Projector, messageId: string, parts: seq<Part>): Projector
    decreases |parts|
  {
    if parts == [] then p
    else PushCall(c, PushCalls(c, p, messageId, parts[..|parts| - 1]), messageId, parts[|parts| - 1])
  }

  function FailureText(stop: StopReason): string
    requires stop.ErrorStop?
  {
    if Trim(stop.errorMessage) != "" then Trim(stop.errorMessage) else NO_MESSAGE
  }

  predicate ShownAsFailure(c: Context, e: Entry) {
    IsFailure(e) && e.id !in c.userStopped
  }

  predicate ShownAsStopped(c: Context, e: Entry) {
    e.AssistantEntry? && (e.stop.AbortedStop? || e.id in c.userStopped)
  }

  function PushStopped(c: Context, p: Projector, e: Entry, partial: bool): Projector {
    var prompt := if e.id in c.userStopped && c.userStopped[e.id].Some? then c.userStopped[e.id] else p.retryPrompt;
    var text := if partial then "Run stopped before it finished its answer." else RUN_STOPPED_EARLY;
    Push(c, p, CustomMessage(StoppedId(e.id), RUN_CANCELLED, [TextPart(text)],
                             Stopped("aborted", prompt))).(notice := true)
  }

  function PushAnswer(c: Context, p: Projector, e: Entry): Projector
    requires e.AssistantEntry?
  {
    var created := Push(c, p, MessageCreated(e.id, Assistant));
    Push(c, PushCalls(c, created, e.id, e.parts), MessageCompleted(e.id, AssistantContent(e.parts), None))
  }

  function OnAssistant(c: Context, p: Projector, e: Entry): Projector
    requires e.AssistantEntry?
  {
    var q := p.(afterUser := false);
    if ShownAsFailure(c, e) then
      var failed := q.(notice := true);
      if e.id in c.superseded then failed
      else
        Push(c, failed, CustomMessage(ModelErrorId(e.id), MODEL_RUN_FAILED, [TextPart(FailureText(e.stop))],
                                      ModelFailure(e.provider, e.model, p.retryPrompt)))
    else if ShownAsStopped(c, e) && !HasVisibleContent(e.parts) then PushStopped(c, q, e, false)
    else if ShownAsStopped(c, e) then PushStopped(c, PushAnswer(c, q, e), e, true)
    else PushAnswer(c, q, e)
  }

  function ResultId(e: Entry): string
    requires e.ToolResultEntry?
  {
    if e.toolCallId != "" then e.toolCallId else "tool-" + e.id
  }

  function ResultBody(e: Entry): Body
    requires e.ToolResultEntry?
  {
    if e.isError then ToolFailed(ResultId(e), e.text) else ToolCompleted(ResultId(e), ToolOutput(e.output, false))
  }

  function OnToolResult(c: Context, p: Projector, e: Entry): Projector
    requires e.ToolResultEntry?
  {
    var id := ResultId(e);
    var q := p.(afterUser := false, resolved := p.resolved + {id}, pending := DropPending(p.pending, id));
    var started := if id in p.seen then q
                   else Push(c, q, ToolStarted(id, e.id, if e.toolName != "" then e.toolName else "tool", e.input));
    Push(c, started, ResultBody(e))
  }

  function OnEntry(c: Context, p: Projector, e: Entry): Projector {
    match e
    case UserInputEntry(_, _, _) => OnUserInput(p, e)
    case CustomMessageEntry(_, _, _, _) => OnCustomMessage(c, p, e)
    case RunCancelledEntry(_, _, _) => OnRunCancelled(c, p, e)
    case RunStoppedEntry(_, _, _) => OnRunStopped(c, p, e)
    case UserEntry(_, _) => OnUser(c, p, e)
    case AssistantEntry(_, _, _, _, _) => OnAssistant(c, p, e)
    case ToolResultEntry(_, _, _, _, _, _, _) => OnToolResult(c, p, e)
    case OtherMessageEntry(_) => p
    case _ => p.(afterUser := false)
  }

  function Begin(c: Context, title: Option<string>, updatedAt: string, startSeq: int): Projector {
    Push(c, Projector([], startSeq, {}, {}, [], None, [], false, None, None, false), SessionUpdated(title, updatedAt))
  }

  function OnEntries(c: Context, p: Projector, entries: seq<Entry>): Projector
    decreases |entries|
  {
    if entries == [] then p else OnEntry(c, OnEntries(c, p, entries[..|entries| - 1]), entries[|entries| - 1])
  }

  /** The calls still pending are marked as failed, unless their id has a result. */
  function MarkUnresolved(c: Context, p: Projector, n: nat): Projector
    requires n <= |p.pending|
    decreases n
  {
    if n == 0 then p
    else
      var before := MarkUnresolved(c, p, n - 1);
      if p.pending[n - 1].id in p.resolved then before
      else Push(c, before, ToolFailed(p.pending[n - 1].id, NOT_FINISHED))
  }

  function Finish(c: Context, p: Projector, markUnresolved: bool): Projector {
    if markUnresolved then MarkUnresolved(c, p, |p.pending|) else p
  }

  /** The options of a projection; `updatedAt` is the given time, the last entry's, or now. */
  datatype Request = Request(sessionId: string, title: Option<string>, updatedAt: string, startSeq: int,
      markUnresolved: bool)

  function ContextOf(entries: seq<Entry>, sessionId: string): Context {
    Context(sessionId, SupersededIds(entries), UserStopped(entries), WorkflowSteps.Steps(entries))
  }

  function Project(entries: seq<Entry>, r: Request): seq<ChatEvent> {
    var c := ContextOf(entries, r.sessionId);
    Finish(c, OnEntries(c, Begin(c, r.title, r.updatedAt, r.startSeq), entries), r.markUnresolved).events
  }

  // ---------------------------------------------------------------- the loops

  method PushParts(c: Context, before: Projector, messageId: string, parts: seq<Part>)
    returns (p: Projector, content: seq<Content>)
    ensures p == PushCalls(c, before, messageId, parts) && content == AssistantContent(parts)
  {
    p, content := before, [];
    for i := 0 to |parts|
      invariant p == PushCalls(c, before, messageId, parts[..i]) && content == AssistantContent(parts[..i])
    {
      var part := parts[i];
      assert parts[..i + 1][..i] == parts[..i];
      match part {
        case TextBlock(text) =>
          content := content + [TextPart(text)];
        case CallBlock(id, name, arguments) =>
          p := p.(seen := p.seen + {id}, pending := PutPending(p.pending, id, name));
          content := content + [ToolPart(id)];
          p := Push(c, p, ToolStarted(id, messageId, name, arguments));
        case ImageBlock(url) =>
          content := content + [ImagePart(Some(url), None, None, None)];
        case OtherBlock =>
      }
    }
    assert parts[..|parts|] == parts;
  }

  method ProjectAssistant(c: Context, before: Projector, e: Entry) returns (p: Projector)
    requires e.AssistantEntry?
    ensures p == OnAssistant(c, before, e)
  {
    hide PushCalls, AssistantContent, HasVisibleContent;
    p := before.(afterUser := false);
    var userStopped := e.id in c.userStopped;
    if e.stop.ErrorStop? && !userStopped {
      p := p.(notice := true);
      if e.id !in c.superseded {
        var details := ModelFailure(e.provider, e.model, p.retryPrompt);
        p := Push(c, p, CustomMessage(ModelErrorId(e.id), MODEL_RUN_FAILED, [TextPart(FailureText(e.stop))], details));
      }
      return;
    }
    var stopped := e.stop.AbortedStop? || userStopped;
    if stopped && !HasVisibleContent(e.parts) {
      p := PushStopped(c, p, e, false);
      return;
    }
    p := Push(c, p, MessageCreated(e.id, Assistant));
    var content: seq<Content>;
    p, content := PushParts(c, p, e.id, e.parts);
    p := Push(c, p, MessageCompleted(e.id, content, None));
    if stopped {
      p := PushStopped(c, p, e, true);
    }
  }

  method MarkPending(c: Context, before: Projector) returns (p: Projector)
    ensures p == MarkUnresolved(c, before, |before.pending|)
  {
    p := before;
    for n := 0 to |before.pending|
      invariant p == MarkUnresolved(c, before, n) && p.resolved == before.resolved
    {
      var call := before.pending[n];
      if call.id !in p.resolved {
        p := Push(c, p, ToolFailed(call.id, NOT_FINISHED));
      }
    }
  }

  /** `sessionEntriesToChatEvents`. */
  method SessionEntriesToChatEvents(entries: seq<Entry>, r: Request) returns (events: seq<ChatEvent>)
    ensures events == Project(entries, r)
  {
    hide OnAssistant, OnUserInput, OnUser, OnToolResult, OnRunStopped, OnRunCancelled, OnCustomMessage;
    var superseded := SupersededAssistantFailureIds(entries);
    var stopped := UserStoppedAssistantEntries(entries);
    var steps := WorkflowSteps.WorkflowStepMetadata(entries);
    var c := Context(r.sessionId, superseded, stopped, steps);
    var p := Begin(c, r.title, r.updatedAt, r.startSeq);
    ghost var begun := p;
    for i := 0 to |entries|
      invariant p == OnEntries(c, begun, entries[..i])
    {
      var e := entries[i];
      assert entries[..i + 1][..i] == entries[..i];
      match e {
        case UserInputEntry(_, _, _) =>
          p := OnUserInput(p, e);
        case CustomMessageEntry(_, _, _, _) =>
          p := OnCustomMessage(c, p, e);
        case RunCancelledEntry(_, _, _) =>
          p := OnRunCancelled(c, p, e);
        case RunStoppedEntry(_, _, _) =>
          p := OnRunStopped(c, p, e);
        case UserEntry(_, _) =>
          p := OnUser(c, p, e);
        case AssistantEntry(_, _, _, _, _) =>
          p := ProjectAssistant(c, p, e);
        case ToolResultEntry(_, _, _, _, _, _, _) =>
          p := OnToolResult(c, p, e);
        case OtherMessageEntry(_) =>
        case _ =>
          p := p.(afterUser := false);
      }
    }
    assert entries[..|entries|] == entries;
    if r.markUnresolved {
      p := MarkPending(c, p);
    }
    events := p.events;
  }
}
