/**
 * The three agent handlers: internal/session/handler.go, handler_claude.go,
 * handler_codex.go and handler_opencode.go.
 */
module Handlers {
  import opened Basics
  import opened SessionTypes

  datatype Handler = ClaudeCode | Codex | OpenCode

  datatype EventClass = ClassOther | ClassUserPrompt | ClassPreTool | ClassPostTool | ClassPostToolFailure

  /** Unknown agent types are treated as Claude Code. */
  function GetHandler(agentType: string): Handler {
    if agentType == "codex" then Codex
    else if agentType == "opencode" then OpenCode
    else ClaudeCode
  }

  /** The role of a message part: the payload's own, else the one remembered from message.updated. */
  function PartRole(ev: HookEvent, lastMessageRole: string): string {
    if ev.facts.partRole == "" then lastMessageRole else ev.facts.partRole
  }

  function ClassifyEvent(h: Handler, ev: HookEvent, lastMessageRole: string): EventClass {
    if h.OpenCode? then
      match ev.event
      case ToolExecuteBefore => ClassPreTool
      case ToolExecuteAfter => ClassPostTool
      case MessagePartUpdated =>
        if ev.facts.partKind.TextPart? && PartRole(ev, lastMessageRole) == "user" then ClassUserPrompt
        else if ev.facts.partKind.ToolPart? then
          match ev.facts.partStatus {
            case PartRunning => ClassPreTool
            case PartPending => ClassPreTool
            case PartCompleted => ClassPostTool
            case PartError => ClassPostToolFailure
            case PartOther => ClassOther
          }
        else ClassOther
      case _ => ClassOther
    else
      match ev.event
      case UserPromptSubmit => ClassUserPrompt
      case PreToolUse => ClassPreTool
      case PostToolUse => ClassPostTool
      case PostToolUseFailure => ClassPostToolFailure
      case _ => ClassOther
  }

  function LifecycleStatus(h: Handler, event: EventName): Option<Status> {
    if h.OpenCode? then
      match event
      case DotSessionCreated => Some(Active)
      case DotSessionIdle => Some(Stopped)
      case DotSessionError => Some(Errored)
      case DotSessionDeleted => Some(Stopped)
      case _ => None
    else
      match event
      case SessionStart => Some(Active)
      case SnakeSessionStart => Some(Active)
      case Stop => Some(Stopped)
      case SnakeSessionEnd => Some(Stopped)
      case SessionError => Some(Errored)
      case StopFailure => Some(Errored)
      case SnakeSessionError => Some(Errored)
      case SnakeStopFailure => Some(Errored)
      case SessionEnd => Some(Stopped)
      case SessionClose => Some(Stopped)
      case SessionDeleted => Some(Stopped)
      case SnakeSessionClose => Some(Stopped)
      case SnakeSessionDeleted => Some(Stopped)
      case _ => None
  }

  /** Events that never create a session. */
  predicate IsTerminalEvent(h: Handler, event: EventName) {
    if h.OpenCode? then event.DotSessionIdle? || event.DotSessionDeleted?
    else event.Stop? || event.SnakeSessionEnd? || event.SessionEnd? || event.SessionClose? || event.SessionDeleted?
  }

  /** Events that reset the start time, whatever the agent. */
  predicate IsStartEvent(event: EventName) {
    event.SessionStart? || event.SnakeSessionStart? || event.DotSessionCreated?
  }

  // ---- side effects on the text fields -------------------------------------

  predicate EndsWithNewline(s: string) {
    s != "" && s[|s| - 1] == '\n'
  }

  predicate Contains(s: string, part: string) {
    exists i | 0 <= i <= |s| :: part <= s[i..]
  }

  /** Appends a line, separated by a newline from earlier output. */
  function AppendLine(output: string, line: string): string {
    if line == "" then output
    else if output == "" then line
    else output + "\n" + line
  }

  function AppendDisplay(output: string, delta: string, first: bool): string {
    if delta == "" then output
    else if first && output != "" && !EndsWithNewline(output) then output + "\n" + delta
    else output + delta
  }

  function AppendFinal(output: string, final: string): string {
    if final == "" || Contains(output, final) then output
    else if output != "" && !EndsWithNewline(output) then output + "\n" + final
    else output + final
  }

  /** The fields that OnEvent may write. */
  datatype Texts = Texts(
    lastFile: string, lastCommand: string, agentOutput: string,
    gitBranch: string, sessionTitle: string, lastMessageRole: string)

  function TextsOf(s: SessionState): Texts {
    Texts(s.lastFile, s.lastCommand, s.agentOutput, s.gitBranch, s.sessionTitle, s.lastMessageRole)
  }

  function WithTexts(s: SessionState, t: Texts): SessionState {
    s.(lastFile := t.lastFile, lastCommand := t.lastCommand, agentOutput := t.agentOutput,
       gitBranch := t.gitBranch, sessionTitle := t.sessionTitle, lastMessageRole := t.lastMessageRole)
  }

  function ToolTexts(t: Texts, f: Facts): Texts {
    t.(lastCommand := f.lastCommand.GetOr<string>(t.lastCommand),
       lastFile := f.lastFile.GetOr<string>(t.lastFile),
       agentOutput := AppendLine(t.agentOutput, f.toolLine))
  }

  function BranchTexts(t: Texts, f: Facts): Texts {
    if f.branch == "" then t else t.(gitBranch := f.branch)
  }

  function ModelTexts(t: Texts, f: Facts): Texts {
    t.(agentOutput := AppendLine(t.agentOutput, f.modelText))
  }

  /** OnEvent of the OpenCode handler. */
  function OpenCodeTexts(t: Texts, ev: HookEvent): Texts {
    var f := ev.facts;
    match ev.event
    case MessageUpdated => if f.messageRole == "" then t else t.(lastMessageRole := f.messageRole)
    case MessagePartUpdated =>
      if f.partKind.TextPart? then
        if PartRole(ev, t.lastMessageRole) != "user" then ModelTexts(t, f) else t
      else if f.partKind.ToolPart? then ToolTexts(t, f)
      else t
    case ToolExecuteBefore => ToolTexts(t, f)
    case ToolExecuteAfter => ToolTexts(t, f)
    case DotVcsBranchUpdated => BranchTexts(t, f)
    case DotSessionUpdated => if f.title == "" then t else t.(sessionTitle := f.title)
    case _ => t
  }

  /** OnEvent of the Claude Code and Codex handlers; Codex has no streamed display text. */
  function HookTexts(streams: bool, t: Texts, ev: HookEvent): Texts {
    var f := ev.facts;
    match ev.event
    case PreToolUse => ToolTexts(t, f)
    case PostToolUse => ToolTexts(t, f)
    case AssistantText => ModelTexts(t, f)
    case ReasoningPart => ModelTexts(t, f)
    case MessageDisplay =>
      if streams then t.(agentOutput := AppendDisplay(t.agentOutput, f.displayDelta, f.displayFirst)) else t
    case Stop =>
      if streams then t.(agentOutput := AppendFinal(t.agentOutput, f.finalMessage)) else t
    case VcsBranchUpdated => BranchTexts(t, f)
    case _ => t
  }

  function EventTexts(h: Handler, t: Texts, ev: HookEvent): Texts {
    match h
    case OpenCode => OpenCodeTexts(t, ev)
    case ClaudeCode => HookTexts(true, t, ev)
    case Codex => HookTexts(false, t, ev)
  }

  /** OnEvent: what an event does to a session besides its timeline. */
  function OnEvent(h: Handler, s: SessionState, ev: HookEvent): SessionState {
    WithTexts(s, EventTexts(h, TextsOf(s), ev))
  }
}
