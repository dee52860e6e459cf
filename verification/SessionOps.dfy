/**
 * What every operation of internal/session/manager.go does to one session
 * record, as a function on values.  The classes in SessionHeap and Manager are
 * proved to compute these functions.
 */
module SessionOps {
  import opened Basics
  import opened SessionTypes
  import opened Handlers
  import opened Timeline

  // ---- hook events -----------------------------------------------------------

  function StartedCall(ev: HookEvent): ToolCall {
    ToolCall(ev.facts.toolName, ev.facts.toolInput, "", Running, ev.timestampMs, 0)
  }

  function ToolGroupEntry(ev: HookEvent): Entry {
    Entry(ev.event, 0, ev.payload, [], ev.timestampMs)
  }

  function EventEntry(ev: HookEvent): Entry {
    Entry(ev.event, ev.timestampMs, ev.payload, [], 0)
  }

  function WantOf(ev: HookEvent): Want {
    if ev.facts.toolName == "" then AnyRunning else Named(ev.facts.toolName)
  }

  function CompletionOf(ev: HookEvent): Outcome {
    Outcome(ev.facts.status.GetOr<ToolStatus>(Completed), ev.facts.toolOutput, ev.timestampMs)
  }

  function FirstNonEmpty(a: string, b: string): string {
    if a != "" then a else b
  }

  function FailureOf(ev: HookEvent): Outcome {
    Outcome(Failed, FirstNonEmpty(ev.facts.toolOutput, ev.facts.reason), ev.timestampMs)
  }

  function LoneFailure(ev: HookEvent): ToolCall {
    ToolCall(ev.facts.toolName, "", FirstNonEmpty(ev.facts.reason, ev.facts.toolOutput), Failed,
             ev.timestampMs, ev.timestampMs)
  }

  function LoneFailureEntry(ev: HookEvent): Entry {
    Entry(ev.event, 0, "", [LoneFailure(ev)], 0)
  }

  /** The timeline after an event of the given class; prompts are handled by PromptState. */
  function EventTurns(turns: seq<Turn>, cls: EventClass, ev: HookEvent): seq<Turn> {
    match cls
    case ClassUserPrompt => NewTurn(turns, ev.facts.prompt, ev.timestampMs)
    case ClassPreTool =>
      if ev.facts.toolName == "" then turns else StartTool(turns, ToolGroupEntry(ev), StartedCall(ev))
    case ClassPostTool =>
      AddEntry(CompleteTool(turns, WantOf(ev), CompletionOf(ev)), EventEntry(ev))
    case ClassPostToolFailure =>
      AddEntry(FailTool(turns, ev.facts.toolName, FailureOf(ev), LoneFailureEntry(ev)), EventEntry(ev))
    case ClassOther => AddEntry(turns, EventEntry(ev))
  }

  /** buildTurnEntry: a prompt that echoes a web input only clears the flag. */
  function BuildTurnEntry(s: SessionState, h: Handler, ev: HookEvent): SessionState {
    var cls := ClassifyEvent(h, ev, s.lastMessageRole);
    if cls.ClassUserPrompt? then
      if s.webInputActive then s.(webInputActive := false)
      else s.(turnCount := s.turnCount + 1,
              userInput := ev.facts.prompt,
              sessionTitle := if s.sessionTitle == "" then ev.facts.prompt else s.sessionTitle,
              turns := EventTurns(s.turns, cls, ev))
    else
      s.(webInputActive := s.webInputActive && !cls.ClassOther?,
         turns := EventTurns(s.turns, cls, ev))
  }

  function EventHeader(s: SessionState, ev: HookEvent): SessionState {
    s.(lastEventTimeMs := ev.timestampMs, lastEventType := ev.event, lastHookEvent := ev.event,
       cwd := ev.cwd, pid := ev.pid, lastHookTime := ev.timestampMs, payload := ev.payload)
  }

  /** Any event makes a session active, unless it is in a terminal state. */
  function Promote(status: Status): Status {
    if status.Errored? || status.Stopped? || status.Disappeared? then status else Active
  }

  function ApplyEvent(s: SessionState, h: Handler, ev: HookEvent): SessionState {
    var s2 := OnEvent(h, BuildTurnEntry(EventHeader(s, ev), h, ev), ev);
    s2.(status := Promote(s2.status))
  }

  /** HandleEvent on a known session. */
  function HookKnown(s: SessionState, ev: HookEvent): SessionState {
    var h := GetHandler(ev.agentType);
    ApplyEvent(s.(status := LifecycleStatus(h, ev.event).GetOr<Status>(s.status),
                  startTimeMs := if IsStartEvent(ev.event) then ev.timestampMs else s.startTimeMs),
               h, ev)
  }

  /** The record HandleEvent creates for an unknown session. */
  function FreshSession(key: string, ev: HookEvent): SessionState {
    SessionState(key, ev.agentType, ev.sessionId, 0, "", "", 0.0, 0.0, Active, ev.timestampMs, 0,
                 OtherEvent(""), "", "", 0, "", "", "", "", OtherEvent(""), [], None, NoSource, ev.payload,
                 0, 0, false, "")
  }

  // ---- SDK and web operations -------------------------------------------------

  /** A prompt typed on the dashboard; the two clock readings are separate. */
  function WebPrompted(s: SessionState, text: string, now: int, hookNow: int): SessionState {
    s.(turnCount := s.turnCount + 1, userInput := text,
       lastEventTimeMs := now, lastEventType := WebInput, lastHookEvent := WebInput, lastHookTime := hookNow,
       turns := NewTurn(s.turns, text, now), webInputActive := true)
  }

  function SdkPrompted(s: SessionState, text: string, now: int): SessionState {
    s.(turnCount := s.turnCount + 1, userInput := text, status := Active,
       lastEventTimeMs := now, lastEventType := SDKPrompt, lastHookEvent := SDKPrompt, lastHookTime := now,
       turns := NewTurn(s.turns, text, now))
  }

  function SdkCall(msg: Message, ts: int): ToolCall {
    ToolCall(msg.toolName, msg.toolInput, "", Running, ts, 0)
  }

  function SdkEntry(msg: Message, ts: int): Entry {
    Entry(SDKMessage, ts, msg.rawJson, [], 0)
  }

  /** recordSDKToolCallOrGenericEntry, on the entries of the current turn. */
  function SdkEntries(entries: seq<Entry>, msg: Message, ts: int): seq<Entry> {
    match msg.kind
    case ToolUseMessage => StartIn(entries, Entry(SDKToolUse, 0, "", [], ts), SdkCall(msg, ts))
    case ToolResultMessage =>
      if LastMatchEntry(entries, AnyRunning) >= 0
      then FinishIn(entries, AnyRunning, Outcome(Completed, msg.content, ts))
      else entries + [SdkEntry(msg, ts)]
    case OtherMessage => entries + [SdkEntry(msg, ts)]
  }

  function SdkTurns(turns: seq<Turn>, msg: Message, ts: int): seq<Turn> {
    if turns == [] then turns else WithEntries(turns, SdkEntries(LastEntries(turns), msg, ts))
  }

  function SdkMessaged(s: SessionState, msg: Message, now: int): SessionState {
    s.(lastEventTimeMs := now, lastEventType := SDKMessage, lastHookEvent := SDKMessage, lastHookTime := now,
       agentOutput := AppendLine(s.agentOutput, msg.content),
       turns := SdkTurns(s.turns, msg, now))
  }

  function SdkStatusSet(s: SessionState, status: Status, event: EventName, output: string, now: int): SessionState {
    s.(status := status, lastEventTimeMs := now, lastEventType := event, lastHookEvent := event,
       lastHookTime := now, agentOutput := FirstNonEmpty(output, s.agentOutput))
  }

  // ---- process scans and timeouts -----------------------------------------------

  function Abs(x: real): real {
    if x < 0.0 then -x else x
  }

  /** What a scan measured differently enough from the record to be reported. */
  predicate PidChanged(s: SessionState, info: ProcessInfo) {
    || s.pid != info.pid
    || (s.cwd != info.cwd && info.cwd != "")
    || Abs(s.cpuPercent - info.cpuPercent) > 0.1
    || Abs(s.memoryMB - info.memoryMB) > 0.5
    || (info.name != "" && s.terminal != info.name)
    || s.status.Disappeared?
  }

  function PidUpdated(s: SessionState, info: ProcessInfo, now: int): SessionState {
    s.(pid := info.pid,
       cwd := FirstNonEmpty(info.cwd, s.cwd),
       cpuPercent := if Abs(s.cpuPercent - info.cpuPercent) > 0.1 then info.cpuPercent else s.cpuPercent,
       memoryMB := if Abs(s.memoryMB - info.memoryMB) > 0.5 then info.memoryMB else s.memoryMB,
       processCreateTimeMs := if info.createTimeMs > 0 then info.createTimeMs else s.processCreateTimeMs,
       terminal := FirstNonEmpty(info.name, s.terminal),
       status := if s.status.Disappeared? then Active else s.status,
       lastHookTime := if s.status.Disappeared? then now else s.lastHookTime)
  }

  function MarkedGone(s: SessionState): SessionState {
    if s.status.Stopped? || s.status.Disappeared? then s else s.(status := Disappeared)
  }

  const IDLE_THRESHOLD: int := 5 * 60 * 1000

  predicate GoesIdle(s: SessionState, now: int) {
    s.status.Active? && s.lastHookTime != 0 && now - s.lastHookTime > IDLE_THRESHOLD
  }

  function IdleChecked(s: SessionState, now: int): SessionState {
    if GoesIdle(s, now) then s.(status := Idle) else s
  }

  // ---- one step of a session ------------------------------------------------------

  datatype Op =
    | HookOp(ev: HookEvent)
    | WebOp(text: string, now: int, hookNow: int)
    | SdkPromptOp(text: string, now: int)
    | SdkMessageOp(msg: Message, now: int)
    | SdkStatusOp(status: Status, event: EventName, output: string, now: int)
    | PidOp(info: ProcessInfo, now: int)
    | GoneOp
    | IdleOp(now: int)

  predicate IsSdk(op: Op) {
    op.SdkPromptOp? || op.SdkMessageOp? || op.SdkStatusOp?
  }

  /** The session after one operation; SDK operations skip sessions of another source. */
  function Next(s: SessionState, op: Op): SessionState {
    if IsSdk(op) && !s.source.SdkSource? then s
    else
      match op
      case HookOp(ev) => HookKnown(s, ev)
      case WebOp(text, now, hookNow) => WebPrompted(s, text, now, hookNow)
      case SdkPromptOp(text, now) => SdkPrompted(s, text, now)
      case SdkMessageOp(msg, now) => SdkMessaged(s, msg, now)
      case SdkStatusOp(status, event, output, now) => SdkStatusSet(s, status, event, output, now)
      case PidOp(info, now) => PidUpdated(s, info, now)
      case GoneOp => MarkedGone(s)
      case IdleOp(now) => IdleChecked(s, now)
  }

  function Run(s: SessionState, ops: seq<Op>): SessionState
    decreases |ops|
  {
    if ops == [] then s else Run(Next(s, ops[0]), ops[1..])
  }

  lemma {:induction false} RunSnoc(s: SessionState, ops: seq<Op>, op: Op)
    ensures Run(s, ops + [op]) == Next(Run(s, ops), op)
    decreases |ops|
  {
    if ops == [] {
      assert [op][1..] == [];
      assert ops + [op] == [op];
      assert Run(s, [op]) == Run(Next(s, op), []);
    } else {
      assert (ops + [op])[1..] == ops[1..] + [op];
      RunSnoc(Next(s, ops[0]), ops[1..], op);
    }
  }
}
