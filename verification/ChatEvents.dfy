// The numbered events of gui/shared/chat-events.ts and the state that a browser renders from them.
// Values the code only passes along (tool input, output and details) are strings.
module ChatEvents {
  import opened Options

  datatype Role = User | Assistant | System

  datatype Content =
    | TextPart(text: string)
    | ToolPart(toolCallId: string)
    | ImagePart(url: Option<string>, data: Option<string>, mimeType: Option<string>, alt: Option<string>)

  datatype Attachment = Attachment(kind: string, caption: string)

  datatype ToolOutput = ToolOutput(content: string, isError: bool)

  datatype WorkflowStep = WorkflowStep(title: string, stage: string, step: nat, total: nat, preserveUserTurn: bool)

  /** The details of a custom message, by the place that builds them. */
  datatype Details =
    | Recorded(data: string)
    | Cancelled(data: string, prompt: Option<string>)
    | Stopped(reason: string, prompt: Option<string>)
    | ModelFailure(provider: Option<string>, model: Option<string>, prompt: Option<string>)
    | Step(workflowStep: WorkflowStep)

  datatype Body =
    | RunStarted(runId: string)
    | ThinkingDelta(runId: string, text: string)
    | ThinkingCompleted(runId: string, finalText: Option<string>)
    | MessageCreated(messageId: string, role: Role)
    | MessageDelta(messageId: string, text: string)
    | MessageCompleted(messageId: string, content: seq<Content>, attachments: Option<seq<Attachment>>)
    | CustomMessage(messageId: string, customType: string, content: seq<Content>, details: Details)
    | ToolStarted(toolCallId: string, messageId: string, name: string, input: string)
    | ToolDelta(toolCallId: string, chunk: string)
    | ToolCompleted(toolCallId: string, output: ToolOutput)
    | ToolFailed(toolCallId: string, error: string)
    | RunCompleted(runId: string, usage: string)
    | RunFailed(runId: string, error: string)
    | SessionUpdated(title: Option<string>, updatedAt: string)

  datatype ChatEvent = ChatEvent(sessionId: string, seqNo: int, body: Body)

  datatype RenderMessage = RenderMessage(
    id: string, sessionId: string, role: Role, completed: bool, content: seq<Content>, text: string,
    attachments: Option<seq<Attachment>>, customType: Option<string>, details: Option<Details>)

  datatype ToolStatus = ToolRunning | ToolDone | ToolHasFailed

  datatype RenderTool = RenderTool(
    id: string, sessionId: string, messageId: string, name: string, input: string, status: ToolStatus,
    chunks: seq<string>, output: Option<ToolOutput>, error: Option<string>)

  datatype RenderThinking = RenderThinking(runId: string, sessionId: string, completed: bool, text: string)

  datatype RunStatus = RunRunning | RunDone | RunHasFailed

  datatype RenderRun = RenderRun(id: string, sessionId: string, status: RunStatus, usage: Option<string>,
      error: Option<string>)

  datatype Session = Session(id: string, title: Option<string>, updatedAt: Option<string>)

  datatype Gap = Gap(expected: int, received: int)

  /** `messageById` maps a scoped id to the position of its message. */
  datatype RenderState = RenderState(
    lastSeq: int, seenSeq: set<(string, int)>, lastSeqBySession: map<string, int>,
    messages: seq<RenderMessage>, messageById: map<string, nat>,
    tools: map<string, RenderTool>, runs: map<string, RenderRun>, thinking: map<string, RenderThinking>,
    session: Option<Session>, gaps: seq<Gap>)

  const EMPTY: RenderState := RenderState(0, {}, map[], [], map[], map[], map[], map[], None, [])

  function ScopedId(sessionId: string, id: string): string {
    sessionId + "::" + id
  }

  lemma ScopedIdInjective(sessionId: string, a: string, b: string)
    ensures ScopedId(sessionId, a) == ScopedId(sessionId, b) <==> a == b
  {
    assert ScopedId(sessionId, a)[|sessionId| + 2..] == a;
    assert ScopedId(sessionId, b)[|sessionId| + 2..] == b;
  }

  function ContentText(content: seq<Content>): string
    decreases |content|
  {
    if content == [] then ""
    else (if content[0].TextPart? then content[0].text else "") + ContentText(content[1..])
  }
}
