/**
 * What each operation leaves in a session record, in terms of the event, prompt or
 * message alone: the tool calls and entries of the timeline, the status, the texts
 * and the other fields.
 */
module SessionEffects {
  import opened Basics
  import opened SessionTypes
  import opened Handlers
  import opened Timeline
  import opened SessionOps
  import opened SessionRuns
  import TS = ToolStacks

  // ---- what an event is about ------------------------------------------------------------------

  predicate FromOpenCode(ev: HookEvent) {
    ev.agentType == "opencode"
  }

  predicate IsToolPart(ev: HookEvent) {
    ev.event.MessagePartUpdated? && ev.facts.partKind.ToolPart?
  }

  predicate StartsTool(ev: HookEvent) {
    if FromOpenCode(ev)
    then ev.event.ToolExecuteBefore? || (IsToolPart(ev) && ev.facts.partStatus in {PartRunning, PartPending})
    else ev.event.PreToolUse?
  }

  predicate EndsTool(ev: HookEvent) {
    if FromOpenCode(ev) then ev.event.ToolExecuteAfter? || (IsToolPart(ev) && ev.facts.partStatus.PartCompleted?)
    else ev.event.PostToolUse?
  }

  predicate FailsTool(ev: HookEvent) {
    if FromOpenCode(ev) then IsToolPart(ev) && ev.facts.partStatus.PartError? else ev.event.PostToolUseFailure?
  }

  /** `role` is that of the last message that named one. */
  predicate IsPrompt(ev: HookEvent, role: string) {
    if FromOpenCode(ev)
    then ev.event.MessagePartUpdated? && ev.facts.partKind.TextPart?
         && (ev.facts.partRole == "user" || (ev.facts.partRole == "" && role == "user"))
    else ev.event.UserPromptSubmit?
  }

  /** The events of each class. */
  lemma EventClasses(ev: HookEvent, role: string)
    ensures var cls := ClassifyEvent(GetHandler(ev.agentType), ev, role);
            && (cls.ClassPreTool? <==> StartsTool(ev)) && (cls.ClassPostTool? <==> EndsTool(ev))
            && (cls.ClassPostToolFailure? <==> FailsTool(ev)) && (cls.ClassUserPrompt? <==> IsPrompt(ev, role))
  {
  }

  // ---- tool calls ----------------------------------------------------------------------------------

  /** A running call of this name, or of any. */
  predicate Waits(t: ToolCall, name: Option<string>) {
    t.status == Running && (name.None? || t.name == name.value)
  }

  ghost predicate NoneWaits(tools: seq<ToolCall>, name: Option<string>) {
    forall i :: 0 <= i < |tools| ==> !Waits(tools[i], name)
  }

  ghost predicate NewestWaiting(tools: seq<ToolCall>, name: Option<string>, j: int) {
    0 <= j < |tools| && Waits(tools[j], name) && forall i :: j < i < |tools| ==> !Waits(tools[i], name)
  }

  /** The call that is ended gets these three values and keeps the rest. */
  function EndedWith(t: ToolCall, status: ToolStatus, output: string, endTs: int): ToolCall {
    ToolCall(t.name, t.input, output, status, t.startTs, endTs)
  }

  /** The newest waiting call is ended, and nothing else happens to the calls. */
  ghost predicate EndsNewest(tools: seq<ToolCall>, after: seq<ToolCall>, name: Option<string>, status: ToolStatus,
                             output: string, endTs: int)
  {
    forall j :: NewestWaiting(tools, name, j) ==> after == tools[j := EndedWith(tools[j], status, output, endTs)]
  }

  lemma FinishEndsNewest(tools: seq<ToolCall>, w: Want, o: Outcome)
    ensures var name := if w.AnyRunning? then None else Some(w.name);
            && EndsNewest(tools, FinishTools(tools, w, o), name, o.status, o.output, o.endTs)
            && (NoneWaits(tools, name) ==> FinishTools(tools, w, o) == tools)
            && (NoneWaits(tools, name) <==> LastMatch(tools, w) < 0)
  {
    var name := if w.AnyRunning? then None else Some(w.name);
    assert forall i :: 0 <= i < |tools| ==> (Waits(tools[i], name) <==> Matches(tools[i], w));
  }

  /** A tool start adds a running call with the event's name, input and time; one without a name adds none. */
  lemma ToolStartRecorded(s: SessionState, ev: HookEvent)
    requires StartsTool(ev)
    ensures CurrentTools(HookKnown(s, ev).turns)
            == CurrentTools(s.turns)
               + if ev.facts.toolName == "" then []
                 else [ToolCall(ev.facts.toolName, ev.facts.toolInput, "", Running, ev.timestampMs, 0)]
  {
    EventClasses(ev, s.lastMessageRole);
    HookRefinesFlatList(s, ev);
    hide HookKnown, ClassifyEvent, CurrentTools;
    assert CurrentTools(s.turns) + [] == CurrentTools(s.turns);
  }

  /** A tool result ends the newest running call of its name, or of any if it has none. */
  lemma ToolEndRecorded(s: SessionState, ev: HookEvent)
    requires EndsTool(ev)
    ensures var tools, after := CurrentTools(s.turns), CurrentTools(HookKnown(s, ev).turns);
            var name := if ev.facts.toolName == "" then None else Some(ev.facts.toolName);
            && EndsNewest(tools, after, name, if ev.facts.status.Some? then ev.facts.status.value else Completed,
                          ev.facts.toolOutput, ev.timestampMs)
            && (NoneWaits(tools, name) ==> after == tools)
  {
    EventClasses(ev, s.lastMessageRole);
    HookRefinesFlatList(s, ev);
    FinishEndsNewest(CurrentTools(s.turns), WantOf(ev), CompletionOf(ev));
    hide HookKnown, ClassifyEvent, CurrentTools, EndsNewest, NoneWaits;
  }

  /** A tool failure ends the newest running call of its name with an error, or is recorded as a call of its own. */
  lemma ToolFailureRecorded(s: SessionState, ev: HookEvent)
    requires FailsTool(ev)
    ensures var tools, after := CurrentTools(s.turns), CurrentTools(HookKnown(s, ev).turns);
            var f := ev.facts;
            && EndsNewest(tools, after, Some(f.toolName), Failed, if f.toolOutput != "" then f.toolOutput else f.reason,
                          ev.timestampMs)
            && (NoneWaits(tools, Some(f.toolName)) ==>
                  after == tools + [ToolCall(f.toolName, "", if f.reason != "" then f.reason else f.toolOutput, Failed,
                                             ev.timestampMs, ev.timestampMs)])
  {
    EventClasses(ev, s.lastMessageRole);
    HookRefinesFlatList(s, ev);
    FinishEndsNewest(CurrentTools(s.turns), Named(ev.facts.toolName), FailureOf(ev));
    hide HookKnown, ClassifyEvent, CurrentTools, NoneWaits, FinishTools;
  }

  /** Other events leave the tool calls, but for a prompt, which begins a turn without any. */
  lemma OtherEventsKeepTools(s: SessionState, ev: HookEvent)
    requires !StartsTool(ev) && !EndsTool(ev) && !FailsTool(ev)
    ensures CurrentTools(HookKnown(s, ev).turns)
            == if IsPrompt(ev, s.lastMessageRole) && !s.webInputActive then [] else CurrentTools(s.turns)
  {
    EventClasses(ev, s.lastMessageRole);
    HookRefinesFlatList(s, ev);
    hide HookKnown, ClassifyEvent, CurrentTools;
  }

  /** The same for the messages of an SDK session, whose results name no tool. */
  lemma SdkToolsRecorded(s: SessionState, msg: Message, now: int)
    requires s.source == SdkSource && s.turns != []
    ensures var tools, after := CurrentTools(s.turns), CurrentTools(Next(s, SdkMessageOp(msg, now)).turns);
            && (msg.kind == ToolUseMessage ==>
                  after == tools + [ToolCall(msg.toolName, msg.toolInput, "", Running, now, 0)])
            && (msg.kind == ToolResultMessage ==>
                  && EndsNewest(tools, after, None, Completed, msg.content, now)
                  && (NoneWaits(tools, None) ==> after == tools))
            && (msg.kind == OtherMessage ==> after == tools)
  {
    MessageRefinesFlatList(s, msg, now);
    FinishEndsNewest(CurrentTools(s.turns), AnyRunning, Outcome(Completed, msg.content, now));
    hide Next, CurrentTools, EndsNewest, NoneWaits;
  }

  // ---- a call from its start to its end --------------------------------------------------------------

  /** An operation that begins no turn, and neither starts nor ends a call of this name. */
  predicate Spares(s: SessionState, op: Op, name: string) {
    match op
    case HookOp(ev) =>
      && (IsPrompt(ev, s.lastMessageRole) ==> s.webInputActive)
      && (StartsTool(ev) || FailsTool(ev) ==> ev.facts.toolName != name)
      && (EndsTool(ev) ==> ev.facts.toolName != name && ev.facts.toolName != "")
    case WebOp(_, _, _) => false
    case SdkPromptOp(_, _) => s.source != SdkSource
    case SdkMessageOp(msg, _) =>
      s.source == SdkSource ==> msg.kind == OtherMessage || (msg.kind == ToolUseMessage && msg.toolName != name)
    case _ => true
  }

  predicate AllSpare(s: SessionState, ops: seq<Op>, name: string)
    decreases |ops|
  {
    ops == [] || (Spares(s, ops[0], name) && AllSpare(Next(s, ops[0]), ops[1..], name))
  }

  /** The call at k is running, and the newest of its name. */
  ghost predicate OpenAt(tools: seq<ToolCall>, k: nat, t: ToolCall) {
    k < |tools| && tools[k] == t && NewestWaiting(tools, Some(t.name), k)
  }

  lemma SparedStaysOpen(s: SessionState, op: Op, k: nat, t: ToolCall)
    requires OpenAt(CurrentTools(s.turns), k, t) && Spares(s, op, t.name)
    ensures OpenAt(CurrentTools(Next(s, op).turns), k, t)
  {
    TimelineRefinesFlatList(s, op);
    if op.HookOp? {
      EventClasses(op.ev, s.lastMessageRole);
    }
    var tools, top := CurrentTools(s.turns), ToolOpOf(s, op);
    hide CurrentTools, Next, ClassifyEvent;
    SparedInList(tools, top, k, t);
  }

  /** The same on the flat list. */
  lemma SparedInList(tools: seq<ToolCall>, top: TS.ToolOp, k: nat, t: ToolCall)
    requires OpenAt(tools, k, t) && !top.NewList? && (top.Begin? ==> top.call.name != t.name)
    requires top.Result? ==> top.want.Named? && top.want.name != t.name
    requires top.Failure? ==> top.name != t.name && top.lone.name == top.name
    ensures OpenAt(TS.Apply(tools, top), k, t)
  {
  }

  lemma {:induction false} SparedStaysOpenAll(s: SessionState, ops: seq<Op>, k: nat, t: ToolCall)
    requires OpenAt(CurrentTools(s.turns), k, t) && AllSpare(s, ops, t.name)
    ensures OpenAt(CurrentTools(Run(s, ops).turns), k, t)
    decreases |ops|
  {
    hide OpenAt, Spares, CurrentTools, Next;
    if ops != [] {
      SparedStaysOpen(s, ops[0], k, t);
      SparedStaysOpenAll(Next(s, ops[0]), ops[1..], k, t);
    }
  }

  /**
   * A tool's start, any operations that spare its name, and its result: the call that
   * was started then has the start's name, input and time, and the result's status,
   * output and time.
   */
  lemma ResultEndsItsStart(s: SessionState, start: HookEvent, ops: seq<Op>, end: HookEvent)
    requires StartsTool(start) && EndsTool(end) && start.facts.toolName != ""
    requires end.facts.toolName == start.facts.toolName
    requires AllSpare(HookKnown(s, start), ops, start.facts.toolName)
    ensures var k := |CurrentTools(s.turns)|;
            var tools := CurrentTools(HookKnown(Run(HookKnown(s, start), ops), end).turns);
            && k < |tools|
            && tools[k] == ToolCall(start.facts.toolName, start.facts.toolInput, end.facts.toolOutput,
                                    if end.facts.status.Some? then end.facts.status.value else Completed,
                                    start.timestampMs, end.timestampMs)
  {
    var s1 := HookKnown(s, start);
    var k := |CurrentTools(s.turns)|;
    ToolStartRecorded(s, start);
    var t := CurrentTools(s1.turns)[k];
    SparedStaysOpenAll(s1, ops, k, t);
    var s2 := Run(s1, ops);
    ToolEndRecorded(s2, end);
    hide HookKnown, CurrentTools, Run;
  }

  /** And a failure in the place of the result. */
  lemma FailureEndsItsStart(s: SessionState, start: HookEvent, ops: seq<Op>, end: HookEvent)
    requires StartsTool(start) && FailsTool(end) && start.facts.toolName != ""
    requires end.facts.toolName == start.facts.toolName
    requires AllSpare(HookKnown(s, start), ops, start.facts.toolName)
    ensures var k := |CurrentTools(s.turns)|;
            var tools := CurrentTools(HookKnown(Run(HookKnown(s, start), ops), end).turns);
            && k < |tools|
            && tools[k] == ToolCall(start.facts.toolName, start.facts.toolInput,
                                    if end.facts.toolOutput != "" then end.facts.toolOutput else end.facts.reason,
                                    Failed, start.timestampMs, end.timestampMs)
  {
    var s1 := HookKnown(s, start);
    var k := |CurrentTools(s.turns)|;
    ToolStartRecorded(s, start);
    var t := CurrentTools(s1.turns)[k];
    SparedStaysOpenAll(s1, ops, k, t);
    ToolFailureRecorded(Run(s1, ops), end);
    hide HookKnown, CurrentTools, Run;
  }

  /** An operation that touches no tool call. */
  predicate TouchesNoTool(s: SessionState, op: Op) {
    match op
    case HookOp(ev) =>
      (IsPrompt(ev, s.lastMessageRole) ==> s.webInputActive) && !StartsTool(ev) && !EndsTool(ev) && !FailsTool(ev)
    case WebOp(_, _, _) => false
    case SdkPromptOp(_, _) => s.source != SdkSource
    case SdkMessageOp(msg, _) => s.source == SdkSource ==> msg.kind == OtherMessage
    case _ => true
  }

  predicate TouchNoTool(s: SessionState, ops: seq<Op>)
    decreases |ops|
  {
    ops == [] || (TouchesNoTool(s, ops[0]) && TouchNoTool(Next(s, ops[0]), ops[1..]))
  }

  lemma UntouchedTools(s: SessionState, op: Op)
    requires TouchesNoTool(s, op)
    ensures CurrentTools(Next(s, op).turns) == CurrentTools(s.turns)
  {
    if op.HookOp? {
      OtherEventsKeepTools(s, op.ev);
    } else {
      TimelineRefinesFlatList(s, op);
    }
    hide CurrentTools, HookKnown;
  }

  lemma {:induction false} UntouchedToolsAll(s: SessionState, ops: seq<Op>)
    requires TouchNoTool(s, ops)
    ensures CurrentTools(Run(s, ops).turns) == CurrentTools(s.turns)
    decreases |ops|
  {
    hide CurrentTools, Next, TouchesNoTool;
    if ops != [] {
      UntouchedTools(s, ops[0]);
      UntouchedToolsAll(Next(s, ops[0]), ops[1..]);
    }
  }

  /** No operation changes where a session comes from. */
  lemma {:induction false} SourceKept(s: SessionState, ops: seq<Op>)
    ensures Run(s, ops).source == s.source
    decreases |ops|
  {
    if ops != [] {
      assert Next(s, ops[0]).source == s.source;
      hide Next;
      SourceKept(Next(s, ops[0]), ops[1..]);
    }
  }

  lemma RunFirst(s: SessionState, op: Op, ops: seq<Op>)
    ensures Run(s, [op] + ops) == Run(Next(s, op), ops)
  {
    assert ([op] + ops)[1..] == ops;
  }

  /** A last call that is running is the newest running one. */
  lemma LastWaits(tools: seq<ToolCall>)
    ensures tools != [] && tools[|tools| - 1].status == Running ==> NewestWaiting(tools, None, |tools| - 1)
  {
  }

  /** On an SDK session, whose results name no tool: a tool use, operations that touch no tool, and a result. */
  lemma SdkResultEndsItsStart(s: SessionState, use: Message, t1: int, ops: seq<Op>, result: Message, t2: int)
    requires s.source == SdkSource && s.turns != [] && use.kind == ToolUseMessage && result.kind == ToolResultMessage
    requires TouchNoTool(Next(s, SdkMessageOp(use, t1)), ops)
    ensures var s1 := Next(s, SdkMessageOp(use, t1));
            CurrentTools(Next(Run(s1, ops), SdkMessageOp(result, t2)).turns)
            == CurrentTools(s.turns) + [ToolCall(use.toolName, use.toolInput, result.content, Completed, t1, t2)]
  {
    var s1 := Next(s, SdkMessageOp(use, t1));
    var s2 := Run(s1, ops);
    SdkToolsRecorded(s, use, t1);
    SourceKept(s, [SdkMessageOp(use, t1)] + ops);
    RunFirst(s, SdkMessageOp(use, t1), ops);
    UntouchedToolsAll(s1, ops);
    assert s2.turns != [] by {
      assert CurrentTools([]) == [];
    }
    SdkToolsRecorded(s2, result, t2);
    hide *;
    LastWaits(CurrentTools(s2.turns));
  }

  // ---- entries and turns ---------------------------------------------------------------------------------

  /** A prompt begins a turn; the echo of a dashboard prompt only ends the wait for it. */
  lemma PromptRecorded(s: SessionState, ev: HookEvent)
    requires IsPrompt(ev, s.lastMessageRole)
    ensures var r := HookKnown(s, ev);
            if s.webInputActive
            then r.turns == s.turns && r.turnCount == s.turnCount && r.userInput == s.userInput && !r.webInputActive
            else
              && r.turns == s.turns + [Turn(|s.turns|, ev.facts.prompt, ev.timestampMs, [])]
              && r.turnCount == s.turnCount + 1 && r.userInput == ev.facts.prompt && !r.webInputActive
              && r.sessionTitle == if s.sessionTitle == "" then ev.facts.prompt else s.sessionTitle
  {
    EventClasses(ev, s.lastMessageRole);
    hide ClassifyEvent;
  }

  /** Any event but a prompt and a start adds an entry of its own at the end of the newest turn. */
  lemma EventEntryRecorded(s: SessionState, ev: HookEvent)
    requires !IsPrompt(ev, s.lastMessageRole) && !StartsTool(ev)
    ensures var r := HookKnown(s, ev).turns;
            && |r| == (if s.turns == [] then 1 else |s.turns|) && LastEntries(r) != []
            && LastEntries(r)[|LastEntries(r)| - 1] == Entry(ev.event, ev.timestampMs, ev.payload, [], 0)
  {
    EventClasses(ev, s.lastMessageRole);
    HookTurns(s, ev);
    hide HookKnown, ClassifyEvent, FinishIn, LastMatchEntry;
  }

  /** The first start in a turn opens a group with the event's name, time and payload. */
  lemma GroupOpened(s: SessionState, ev: HookEvent)
    requires StartsTool(ev) && ev.facts.toolName != ""
    requires s.turns == [] || forall i :: 0 <= i < |LastEntries(s.turns)| ==> LastEntries(s.turns)[i].tools == []
    ensures var r := HookKnown(s, ev).turns;
            var call := ToolCall(ev.facts.toolName, ev.facts.toolInput, "", Running, ev.timestampMs, 0);
            LastEntries(EnsureTurn(r))
            == (if s.turns == [] then [] else LastEntries(s.turns))
               + [Entry(ev.event, 0, ev.payload, [call], ev.timestampMs)]
  {
    EventClasses(ev, s.lastMessageRole);
    HookTurns(s, ev);
    hide HookKnown, ClassifyEvent;
  }

  /** A failure without a running call of its name leaves the lone call and, after it, the event. */
  lemma LoneFailureEntered(s: SessionState, ev: HookEvent)
    requires FailsTool(ev) && NoneWaits(CurrentTools(s.turns), Some(ev.facts.toolName))
    ensures var f := ev.facts;
            var lone := ToolCall(f.toolName, "", if f.reason != "" then f.reason else f.toolOutput, Failed,
                                 ev.timestampMs, ev.timestampMs);
            LastEntries(EnsureTurn(HookKnown(s, ev).turns))
            == (if s.turns == [] then [] else LastEntries(s.turns))
               + [Entry(ev.event, 0, "", [lone], 0)] + [Entry(ev.event, ev.timestampMs, ev.payload, [], 0)]
  {
    EventClasses(ev, s.lastMessageRole);
    HookTurns(s, ev);
    FinishEndsNewest(CurrentTools(s.turns), Named(ev.facts.toolName), FailureOf(ev));
    var es := LastEntries(EnsureTurn(s.turns));
    assert CurrentTools(s.turns) == Flat(es);
    FinishInFlat(es, Named(ev.facts.toolName), FailureOf(ev));
    hide HookKnown, ClassifyEvent, Flat, FinishIn, NoneWaits, LastMatch, LastMatchEntry;
  }

  /** SDK messages that neither start nor end a call add an entry with the message as received. */
  lemma SdkEntryRecorded(s: SessionState, msg: Message, now: int)
    requires s.source == SdkSource && s.turns != [] && msg.kind != ToolUseMessage
    requires msg.kind == ToolResultMessage ==> NoneWaits(CurrentTools(s.turns), None)
    ensures LastEntries(EnsureTurn(Next(s, SdkMessageOp(msg, now)).turns))
            == LastEntries(s.turns) + [Entry(SDKMessage, now, msg.rawJson, [], 0)]
  {
    var es := LastEntries(s.turns);
    FinishEndsNewest(Flat(es), AnyRunning, Outcome(Completed, msg.content, now));
    FinishInFlat(es, AnyRunning, Outcome(Completed, msg.content, now));
    hide Flat, FinishIn, NoneWaits, LastMatch, LastMatchEntry;
  }

  /** The first SDK tool use of a turn opens a group. */
  lemma SdkGroupOpened(s: SessionState, msg: Message, now: int)
    requires s.source == SdkSource && s.turns != [] && msg.kind == ToolUseMessage
    requires forall i :: 0 <= i < |LastEntries(s.turns)| ==> LastEntries(s.turns)[i].tools == []
    ensures LastEntries(EnsureTurn(Next(s, SdkMessageOp(msg, now)).turns))
            == LastEntries(s.turns)
               + [Entry(SDKToolUse, 0, "", [ToolCall(msg.toolName, msg.toolInput, "", Running, now, 0)], now)]
  {
  }

  // ---- status ------------------------------------------------------------------------------------------------

  predicate BeginsSession(ev: HookEvent) {
    if FromOpenCode(ev) then ev.event.DotSessionCreated? else ev.event.SessionStart? || ev.event.SnakeSessionStart?
  }

  predicate StopsSession(ev: HookEvent) {
    if FromOpenCode(ev) then ev.event in {DotSessionIdle, DotSessionDeleted}
    else ev.event in {Stop, SnakeSessionEnd, SessionEnd, SessionClose, SessionDeleted, SnakeSessionClose,
                      SnakeSessionDeleted}
  }

  predicate FailsSession(ev: HookEvent) {
    if FromOpenCode(ev) then ev.event.DotSessionError?
    else ev.event in {SessionError, StopFailure, SnakeSessionError, SnakeStopFailure}
  }

  /** Lifecycle events set the status; any other activates a session, unless it has ended or disappeared. */
  lemma EventStatus(s: SessionState, ev: HookEvent)
    ensures HookKnown(s, ev).status
            == if BeginsSession(ev) then Active
               else if StopsSession(ev) then Stopped
               else if FailsSession(ev) then Errored
               else if s.status in {Stopped, Disappeared, Errored} then s.status
               else Active
  {
    HookTurns(s, ev);
    hide HookKnown;
  }

  /** The status a lifecycle event names; of those that stop a session, all but two cannot create one. */
  lemma TerminalEvents(ev: HookEvent)
    ensures LifecycleStatus(GetHandler(ev.agentType), ev.event)
            == if BeginsSession(ev) then Some(Active)
               else if StopsSession(ev) then Some(Stopped)
               else if FailsSession(ev) then Some(Errored)
               else None
    ensures IsTerminalEvent(GetHandler(ev.agentType), ev.event)
       <==> StopsSession(ev) && !ev.event.SnakeSessionClose? && !ev.event.SnakeSessionDeleted?
  {
  }

  // ---- the other fields ------------------------------------------------------------------------------------------

  /** The wait for a dashboard prompt's echo ends with a prompt, or with an event that is about no tool. */
  lemma EchoAwaited(s: SessionState, ev: HookEvent)
    ensures HookKnown(s, ev).webInputActive <==> s.webInputActive && (StartsTool(ev) || EndsTool(ev) || FailsTool(ev))
  {
    EventClasses(ev, s.lastMessageRole);
    HookTurns(s, ev);
    hide HookKnown;
  }

  /** Events from which the tool's file, command and output line are taken. */
  predicate ReportsTool(ev: HookEvent) {
    if FromOpenCode(ev) then ev.event.ToolExecuteBefore? || ev.event.ToolExecuteAfter? || IsToolPart(ev)
    else ev.event.PreToolUse? || ev.event.PostToolUse?
  }

  predicate ReportsText(ev: HookEvent, role: string) {
    if FromOpenCode(ev)
    then ev.event.MessagePartUpdated? && ev.facts.partKind.TextPart? && !IsPrompt(ev, role)
    else ev.event.AssistantText? || ev.event.ReasoningPart?
  }

  predicate ReportsBranch(ev: HookEvent) {
    if FromOpenCode(ev) then ev.event.DotVcsBranchUpdated? else ev.event.VcsBranchUpdated?
  }

  /** File, command and branch are taken from the events that report them, and from no other. */
  lemma FactsRecorded(s: SessionState, ev: HookEvent)
    ensures var r, f := HookKnown(s, ev), ev.facts;
            && r.lastFile == (if ReportsTool(ev) && f.lastFile.Some? then f.lastFile.value else s.lastFile)
            && r.lastCommand == (if ReportsTool(ev) && f.lastCommand.Some? then f.lastCommand.value else s.lastCommand)
            && r.gitBranch == (if ReportsBranch(ev) && f.branch != "" then f.branch else s.gitBranch)
  {
    TextsFromEvent(s, ev);
    hide HookKnown, AppendLine, AppendDisplay, AppendFinal;
  }

  /** So is the title, which the first prompt sets too. */
  lemma TitleRecorded(s: SessionState, ev: HookEvent)
    ensures HookKnown(s, ev).sessionTitle
            == if FromOpenCode(ev) && ev.event.DotSessionUpdated? && ev.facts.title != "" then ev.facts.title
               else if IsPrompt(ev, s.lastMessageRole) && !s.webInputActive && s.sessionTitle == "" then ev.facts.prompt
               else s.sessionTitle
  {
    EventClasses(ev, s.lastMessageRole);
    hide AppendLine, AppendDisplay, AppendFinal, EventTurns, ClassifyEvent;
  }

  /** The title has no part in the other texts. */
  lemma TitleApart(h: Handler, t: Texts, title: string, ev: HookEvent)
    ensures EventTexts(h, t.(sessionTitle := title), ev).(sessionTitle := "")
         == EventTexts(h, t, ev).(sessionTitle := "")
  {
    hide AppendLine, AppendDisplay, AppendFinal;
  }

  /** Nor has the timeline. */
  lemma TextsFromEvent(s: SessionState, ev: HookEvent)
    ensures var r, t := HookKnown(s, ev), EventTexts(GetHandler(ev.agentType), TextsOf(s), ev);
            && r.lastFile == t.lastFile && r.lastCommand == t.lastCommand && r.gitBranch == t.gitBranch
            && r.agentOutput == t.agentOutput
  {
    var h := GetHandler(ev.agentType);
    hide AppendLine, EventTexts, EventTurns, ClassifyEvent, LifecycleStatus;
    TitleApart(h, TextsOf(s), ev.facts.prompt, ev);
    assert TextsOf(s).(sessionTitle := s.sessionTitle) == TextsOf(s);
  }

  predicate HasSuffix(s: string, end: string) {
    |end| <= |s| && s[|s| - |end|..] == end
  }

  predicate OccursAt(s: string, part: string, i: int) {
    0 <= i <= |s| - |part| && s[i..i + |part|] == part
  }

  ghost predicate Occurs(s: string, part: string) {
    exists i :: OccursAt(s, part, i)
  }

  /** `text` follows the old output, after a newline exactly if `newline` says so. */
  predicate Follows(output: string, text: string, newline: bool, r: string) {
    && output <= r && HasSuffix(r, text) && |r| == |output| + |text| + (if newline then 1 else 0)
    && (newline ==> r[|output|] == '\n')
  }

  /** A line is appended, on a line of its own; an empty one not at all. */
  predicate LineAdded(output: string, line: string, r: string) {
    Follows(output, line, output != "" && line != "", r)
  }

  predicate OpenLine(output: string) {
    output != "" && output[|output| - 1] != '\n'
  }

  /** Streamed text of Claude Code: its first piece begins a line. */
  predicate DisplayAdded(ev: HookEvent, output: string, r: string) {
    Follows(output, ev.facts.displayDelta, ev.facts.displayDelta != "" && ev.facts.displayFirst && OpenLine(output), r)
  }

  /** The final message is added unless the output has it already. */
  ghost predicate FinalAdded(final: string, output: string, r: string) {
    if Occurs(output, final) then r == output else Follows(output, final, OpenLine(output), r)
  }

  predicate IsClaude(ev: HookEvent) {
    ev.agentType != "opencode" && ev.agentType != "codex"
  }

  /** What each event adds to the agent's output; nothing is ever taken away. */
  lemma OutputRecorded(s: SessionState, ev: HookEvent)
    ensures var out, r := s.agentOutput, HookKnown(s, ev).agentOutput;
            if ReportsTool(ev) then LineAdded(out, ev.facts.toolLine, r)
            else if ReportsText(ev, s.lastMessageRole) then LineAdded(out, ev.facts.modelText, r)
            else if IsClaude(ev) && ev.event.MessageDisplay? then DisplayAdded(ev, out, r)
            else if IsClaude(ev) && ev.event.Stop? then FinalAdded(ev.facts.finalMessage, out, r)
            else r == out
  {
    var out, f := s.agentOutput, ev.facts;
    LineIsAdded(out, f.toolLine);
    LineIsAdded(out, f.modelText);
    DisplayIsAdded(ev, out);
    FinalIsAdded(f.finalMessage, out);
    hide AppendLine, AppendDisplay, AppendFinal, LineAdded, DisplayAdded, FinalAdded, BuildTurnEntry;
    TextsFromEvent(s, ev);
    hide HookKnown;
  }

  lemma LineIsAdded(output: string, line: string)
    ensures LineAdded(output, line, AppendLine(output, line))
  {
  }

  lemma DisplayIsAdded(ev: HookEvent, output: string)
    ensures DisplayAdded(ev, output, AppendDisplay(output, ev.facts.displayDelta, ev.facts.displayFirst))
  {
  }

  lemma FinalIsAdded(final: string, output: string)
    ensures FinalAdded(final, output, AppendFinal(output, final))
  {
    ContainsIsOccurs(output, final);
    hide Contains, Occurs;
  }

  lemma ContainsIsOccurs(s: string, part: string)
    ensures Contains(s, part) <==> Occurs(s, part)
    ensures part == "" ==> Occurs(s, part)
  {
    if i :| 0 <= i <= |s| && part <= s[i..] {
      assert s[i..][..|part|] == s[i..i + |part|];
      assert OccursAt(s, part, i);
    }
    if i :| OccursAt(s, part, i) {
      assert s[i..][..|part|] == part;
      assert part <= s[i..];
    }
    if part == "" {
      assert OccursAt(s, part, 0);
    }
  }

  /**
   * What a scan writes: process id always, directory and terminal if found, load and
   * memory beyond the thresholds, the creation time if known.
   */
  predicate ScanWrites(s: SessionState, info: ProcessInfo, now: int, r: SessionState) {
    && r == s.(pid := info.pid, cwd := if info.cwd == "" then s.cwd else info.cwd,
               terminal := if info.name == "" then s.terminal else info.name,
               processCreateTimeMs := if info.createTimeMs > 0 then info.createTimeMs else s.processCreateTimeMs,
               cpuPercent := r.cpuPercent, memoryMB := r.memoryMB, status := r.status,
               lastHookTime := if s.status == Disappeared then now else s.lastHookTime)
    && r.cpuPercent == (if -0.1 <= info.cpuPercent - s.cpuPercent <= 0.1 then s.cpuPercent else info.cpuPercent)
    && r.memoryMB == (if -0.5 <= info.memoryMB - s.memoryMB <= 0.5 then s.memoryMB else info.memoryMB)
  }

  /** When a scan announces something. */
  lemma ScanReported(s: SessionState, info: ProcessInfo)
    ensures PidChanged(s, info) <==>
              || s.status == Disappeared || info.pid != s.pid
              || (info.cwd != "" && info.cwd != s.cwd) || (info.name != "" && info.name != s.terminal)
              || !(-0.1 <= info.cpuPercent - s.cpuPercent <= 0.1) || !(-0.5 <= info.memoryMB - s.memoryMB <= 0.5)
  {
  }

  // ---- all operations ----------------------------------------------------------------------------------------------

  /** The status after any operation. */
  lemma StatusAfter(s: SessionState, op: Op)
    ensures Next(s, op).status
            == match op
               case HookOp(ev) =>
                 if BeginsSession(ev) then Active
                 else if StopsSession(ev) then Stopped
                 else if FailsSession(ev) then Errored
                 else if s.status in {Stopped, Disappeared, Errored} then s.status
                 else Active
               case WebOp(_, _, _) => s.status
               case SdkPromptOp(_, _) => if s.source == SdkSource then Active else s.status
               case SdkMessageOp(_, _) => s.status
               case SdkStatusOp(status, _, _, _) => if s.source == SdkSource then status else s.status
               case PidOp(_, _) => if s.status == Disappeared then Active else s.status
               case GoneOp => if s.status == Stopped then Stopped else Disappeared
               case IdleOp(now) =>
                 if s.status == Active && s.lastHookTime != 0 && now - s.lastHookTime > 300000 then Idle else s.status
  {
    FieldsWritten(s, op);
    if op.HookOp? {
      EventStatus(s, op.ev);
    }
    hide HookKnown;
  }

  /**
   * What every operation writes. The fields it does not name stay; of those that a hook
   * event or message computes, the lemmas above say what they get. A dashboard prompt
   * waits for its echo and leaves the status; SDK operations skip other sessions.
   */
  lemma FieldsWritten(s: SessionState, op: Op)
    ensures var r, sdk := Next(s, op), s.source == SdkSource;
            match op
            case HookOp(ev) =>
              r == s.(status := r.status, turns := r.turns, turnCount := r.turnCount, userInput := r.userInput,
                      agentOutput := r.agentOutput, sessionTitle := r.sessionTitle, lastFile := r.lastFile,
                      lastCommand := r.lastCommand, gitBranch := r.gitBranch, lastMessageRole := r.lastMessageRole,
                      webInputActive := r.webInputActive,
                      startTimeMs := if ev.event in {SessionStart, SnakeSessionStart, DotSessionCreated}
                                     then ev.timestampMs else s.startTimeMs,
                      pid := ev.pid, cwd := ev.cwd,
                      payload := ev.payload, lastEventTimeMs := ev.timestampMs, lastEventType := ev.event,
                      lastHookEvent := ev.event, lastHookTime := ev.timestampMs)
            case WebOp(text, now, hookNow) =>
              r == s.(turns := s.turns + [Turn(|s.turns|, text, now, [])], turnCount := s.turnCount + 1,
                      userInput := text, webInputActive := true, lastEventTimeMs := now, lastEventType := WebInput,
                      lastHookEvent := WebInput, lastHookTime := hookNow)
            case SdkPromptOp(text, now) =>
              r == if !sdk then s
                   else s.(turns := s.turns + [Turn(|s.turns|, text, now, [])], turnCount := s.turnCount + 1,
                           userInput := text, status := Active, lastEventTimeMs := now, lastEventType := SDKPrompt,
                           lastHookEvent := SDKPrompt, lastHookTime := now)
            case SdkMessageOp(msg, now) =>
              if !sdk then r == s
              else
                && r == s.(turns := r.turns, agentOutput := r.agentOutput, lastEventTimeMs := now,
                           lastEventType := SDKMessage, lastHookEvent := SDKMessage, lastHookTime := now)
                && LineAdded(s.agentOutput, msg.content, r.agentOutput)
            case SdkStatusOp(status, event, output, now) =>
              r == if !sdk then s
                   else s.(status := status, lastEventTimeMs := now, lastEventType := event, lastHookEvent := event,
                           lastHookTime := now, agentOutput := if output == "" then s.agentOutput else output)
            case PidOp(info, now) => ScanWrites(s, info, now, r)
            case GoneOp => r == s.(status := r.status)
            case IdleOp(_) => r == s.(status := r.status)
  {
  }

  // ---- the first event of a session --------------------------------------------------------------------------------

  /** A blank record of the key, which the first event then finds. */
  function Blank(key: string, ev: HookEvent): SessionState {
    SessionState(
      sessionKey := key, agentType := ev.agentType, agentSessionId := ev.sessionId, pid := 0, terminal := "", cwd := "",
      memoryMB := 0.0, cpuPercent := 0.0, status := Active, startTimeMs := ev.timestampMs, lastEventTimeMs := 0,
      lastEventType := OtherEvent(""), lastFile := "", lastCommand := "", turnCount := 0, gitBranch := "",
      userInput := "", agentOutput := "", sessionTitle := "", lastHookEvent := OtherEvent(""), turns := [],
      storyId := None, source := NoSource, payload := "", processCreateTimeMs := 0, lastHookTime := 0,
      webInputActive := false, lastMessageRole := "")
  }

  /** It is handled like any other, but the session is active whatever the event. */
  lemma FirstEventRecorded(key: string, ev: HookEvent)
    ensures ApplyEvent(FreshSession(key, ev), GetHandler(ev.agentType), ev)
            == HookKnown(Blank(key, ev), ev).(status := Active)
  {
  }
}
