/**
 * The records of internal/session/types.go, as values.
 *
 * Event names are an enumeration of the strings the daemon tests for, with
 * OtherEvent for the rest.  JSON payloads stay opaque (`payload` is the raw
 * text); what the extraction helpers read out of one payload is delivered with
 * the event as `Facts`.
 */
module SessionTypes {
  import opened Basics

  datatype Status = Active | Idle | Stopped | Unknown | Disappeared | Errored

  datatype EventName =
      // Claude Code and Codex hooks
    | UserPromptSubmit | PreToolUse | PostToolUse | PostToolUseFailure
    | SessionStart | SnakeSessionStart
    | Stop | SnakeSessionEnd
    | SessionError | StopFailure | SnakeSessionError | SnakeStopFailure
    | SessionEnd | SessionClose | SessionDeleted | SnakeSessionClose | SnakeSessionDeleted
    | AssistantText | ReasoningPart | MessageDisplay | VcsBranchUpdated
      // OpenCode hooks
    | ToolExecuteBefore | ToolExecuteAfter | MessagePartUpdated | MessageUpdated
    | DotSessionCreated | DotSessionIdle | DotSessionError | DotSessionDeleted
    | DotSessionUpdated | DotVcsBranchUpdated
      // written by the daemon itself
    | WebInput | SDKPrompt | SDKMessage | SDKToolUse | SDKComplete | SDKCancelled | SDKError
    | OtherEvent(name: string)

  /** "running", "completed", "error", or any other text a payload supplies. */
  datatype ToolStatus = Running | Completed | Failed | Custom(text: string)

  datatype ToolCall = ToolCall(
    name: string, input: string, output: string, status: ToolStatus, startTs: int, endTs: int)

  datatype Entry = Entry(event: EventName, ts: int, payload: string, tools: seq<ToolCall>, startTs: int)

  datatype Turn = Turn(turnIdx: int, userInput: string, userTs: int, entries: seq<Entry>)

  datatype PartKind = TextPart | ToolPart | OtherPart

  datatype PartStatus = PartRunning | PartPending | PartCompleted | PartError | PartOther

  /** Everything the handlers' extraction helpers find in one payload; "" means absent. */
  datatype Facts = Facts(
    toolName: string, toolInput: string, toolOutput: string,
    status: Option<ToolStatus>, reason: string, prompt: string,
    partKind: PartKind, partStatus: PartStatus, partRole: string, messageRole: string,
    lastCommand: Option<string>, lastFile: Option<string>,
    toolLine: string, modelText: string,
    displayDelta: string, displayFirst: bool, finalMessage: string,
    branch: string, title: string)

  datatype HookEvent = HookEvent(
    event: EventName, agentType: string, sessionId: string,
    pid: int, cwd: string, timestampMs: int, payload: string, facts: Facts)

  datatype MessageKind = ToolUseMessage | ToolResultMessage | OtherMessage

  datatype Message = Message(
    kind: MessageKind, content: string, toolName: string, toolInput: string, rawJson: string)

  /** scanner.ProcessInfo, without the parent pid. */
  datatype ProcessInfo = ProcessInfo(
    pid: int, name: string, cwd: string, memoryMB: real, cpuPercent: real,
    createTimeMs: int, matchedType: string)

  datatype Source = NoSource | HookSource | SdkSource

  /** One session record: the state of a Session object. */
  datatype SessionState = SessionState(
    sessionKey: string, agentType: string, agentSessionId: string,
    pid: int, terminal: string, cwd: string, memoryMB: real, cpuPercent: real,
    status: Status, startTimeMs: int, lastEventTimeMs: int, lastEventType: EventName,
    lastFile: string, lastCommand: string, turnCount: int, gitBranch: string,
    userInput: string, agentOutput: string, sessionTitle: string, lastHookEvent: EventName,
    turns: seq<Turn>, storyId: Option<int>, source: Source, payload: string,
    processCreateTimeMs: int, lastHookTime: int, webInputActive: bool, lastMessageRole: string)
}
