/**
 * The table row of a session (internal/session/sqlite.go): what each operation
 * writes, and what a restart brings back.
 */
module Persistence {
  import opened Basics
  import opened SessionTypes
  import opened Handlers
  import opened Timeline
  import opened SessionOps
  import SessionRuns

  /** The columns UpdateProcessFields writes. */
  datatype ProcColumns = ProcColumns(pid: int, terminal: string, cwd: string, memoryMB: real, cpuPercent: real)

  datatype Row = Row(
    sessionKey: string, agentType: string, agentSessionId: string, proc: ProcColumns,
    status: Status, startTimeMs: int, lastEventTimeMs: int, lastEventType: EventName,
    lastFile: string, lastCommand: string, userInput: string, agentOutput: string, sessionTitle: string,
    payload: string, lastHookEvent: EventName, turnCount: int, turns: seq<Turn>, gitBranch: string,
    storyId: Option<int>, source: Source)

  function ProcOf(s: SessionState): ProcColumns {
    ProcColumns(s.pid, s.terminal, s.cwd, s.memoryMB, s.cpuPercent)
  }

  /** Upsert: a JSON null payload is stored empty and a missing source as "hook". */
  function ToRow(s: SessionState): Row {
    Row(s.sessionKey, s.agentType, s.agentSessionId, ProcOf(s), s.status, s.startTimeMs, s.lastEventTimeMs,
        s.lastEventType, s.lastFile, s.lastCommand, s.userInput, s.agentOutput, s.sessionTitle,
        if s.payload == "null" then "" else s.payload, s.lastHookEvent, s.turnCount, s.turns, s.gitBranch,
        s.storyId, if s.source.NoSource? then HookSource else s.source)
  }

  /** LoadAll: the fields without a column start from zero. */
  function FromRow(r: Row): SessionState {
    SessionState(r.sessionKey, r.agentType, r.agentSessionId, r.proc.pid, r.proc.terminal, r.proc.cwd,
                 r.proc.memoryMB, r.proc.cpuPercent, r.status, r.startTimeMs, r.lastEventTimeMs, r.lastEventType,
                 r.lastFile, r.lastCommand, r.turnCount, r.gitBranch, r.userInput, r.agentOutput, r.sessionTitle,
                 r.lastHookEvent, r.turns, r.storyId, if r.source.NoSource? then HookSource else r.source, r.payload,
                 0, r.lastEventTimeMs, false, "")
  }

  /** The row after an operation on a known session, when every write succeeds. */
  function StoreStep(row: Row, s: SessionState, op: Op): Row {
    var r := Next(s, op);
    match op
    case PidOp(info, _) =>
      var base := if s.status.Disappeared? then ToRow(r) else row;
      if PidChanged(s, info) && !r.status.Active? then base.(proc := ProcOf(r)) else base
    case GoneOp => if s.status.Stopped? || s.status.Disappeared? then row else ToRow(r)
    case IdleOp(now) => if GoesIdle(s, now) then ToRow(r) else row
    case _ => if IsSdk(op) && !s.source.SdkSource? then row else ToRow(r)
  }

  function RunStore(row: Row, s: SessionState, ops: seq<Op>): Row
    decreases |ops|
  {
    if ops == [] then row else RunStore(StoreStep(row, s, ops[0]), Next(s, ops[0]), ops[1..])
  }

  /** The row holds the live session, up to the columns a process scan measures. */
  predicate RowAgrees(row: Row, s: SessionState) {
    row.(proc := ProcOf(s)) == ToRow(s)
  }

  lemma StepKeepsAgreement(row: Row, s: SessionState, op: Op)
    requires RowAgrees(row, s)
    ensures RowAgrees(StoreStep(row, s, op), Next(s, op))
  {
    match op {
      case PidOp(info, now) =>
        var r := Next(s, op);
        assert !s.status.Disappeared? ==> ToRow(r) == ToRow(s).(proc := ProcOf(r));
      case _ =>
    }
  }

  /** After any run, the row on disk is the live session. */
  lemma {:induction false} RowFollowsSession(row: Row, s: SessionState, ops: seq<Op>)
    requires RowAgrees(row, s)
    ensures RowAgrees(RunStore(row, s, ops), Run(s, ops))
    decreases |ops|
  {
    if ops != [] {
      StepKeepsAgreement(row, s, ops[0]);
      RowFollowsSession(StoreStep(row, s, ops[0]), Next(s, ops[0]), ops[1..]);
    }
  }

  /** The operations that write the process columns. */
  predicate WritesProcess(s: SessionState, op: Op) {
    match op
    case HookOp(_) => true
    case WebOp(_, _, _) => true
    case PidOp(info, _) => s.status == Disappeared || (s.status != Active && PidChanged(s, info))
    case GoneOp => s.status != Stopped && s.status != Disappeared
    case IdleOp(now) => s.status == Active && s.lastHookTime != 0 && now - s.lastHookTime > 300000
    case _ => s.source == SdkSource
  }

  lemma ProcessColumnsWritten(row: Row, s: SessionState, op: Op)
    ensures StoreStep(row, s, op).proc == if WritesProcess(s, op) then ProcOf(Next(s, op)) else row.proc
  {
    hide HookKnown;
  }

  /** A scan of an active session, whose measurements are kept in memory only. */
  predicate ScansActive(s: SessionState, op: Op) {
    op.PidOp? && s.status == Active
  }

  predicate NoneScansActive(s: SessionState, ops: seq<Op>)
    decreases |ops|
  {
    ops == [] || (!ScansActive(s, ops[0]) && NoneScansActive(Next(s, ops[0]), ops[1..]))
  }

  lemma StepKeepsWhole(s: SessionState, op: Op)
    requires !ScansActive(s, op)
    ensures StoreStep(ToRow(s), s, op) == ToRow(Next(s, op))
  {
    StepKeepsAgreement(ToRow(s), s, op);
    ProcessColumnsWritten(ToRow(s), s, op);
    assert !WritesProcess(s, op) ==> ProcOf(Next(s, op)) == ProcOf(s);
    hide StoreStep, Next;
  }

  /** Without such a scan the row on disk is the whole session, process columns included. */
  lemma {:induction false} RowIsWhole(s: SessionState, ops: seq<Op>)
    requires NoneScansActive(s, ops)
    ensures RunStore(ToRow(s), s, ops) == ToRow(Run(s, ops))
    decreases |ops|
  {
    hide StoreStep, Next, ScansActive, ToRow;
    if ops != [] {
      StepKeepsWhole(s, ops[0]);
      RowIsWhole(Next(s, ops[0]), ops[1..]);
    }
  }

  /** What a restart changes: process data may be stale, and four fields have no column. */
  lemma ReloadedSession(row: Row, s: SessionState)
    requires RowAgrees(row, s)
    ensures FromRow(row) == s.(
              pid := row.proc.pid, terminal := row.proc.terminal, cwd := row.proc.cwd,
              memoryMB := row.proc.memoryMB, cpuPercent := row.proc.cpuPercent,
              payload := if s.payload == "null" then "" else s.payload,
              source := if s.source.NoSource? then HookSource else s.source,
              processCreateTimeMs := 0, lastHookTime := s.lastEventTimeMs,
              webInputActive := false, lastMessageRole := "")
  {
    assert row == ToRow(s).(proc := row.proc);
  }

  /** Loading a row, whoever wrote it, and storing it again keeps it, but for the two normalised columns. */
  lemma RowSurvivesReload(row: Row)
    ensures ToRow(FromRow(row)) == row.(payload := if row.payload == "null" then "" else row.payload,
                                        source := if row.source == NoSource then HookSource else row.source)
    ensures FromRow(row).source == (if row.source == NoSource then HookSource else row.source)
  {
  }

  // ---- restart transparency --------------------------------------------------------------

  predicate RemembersUser(s: SessionState) {
    GetHandler(s.agentType).OpenCode? && s.lastMessageRole == "user"
  }

  /** Two records that the same hook events will move in step. */
  predicate InStep(a: SessionState, b: SessionState) {
    && a.agentType == b.agentType
    && a.status == b.status && a.turns == b.turns && a.turnCount == b.turnCount && a.userInput == b.userInput
    && a.webInputActive == b.webInputActive
    && (RemembersUser(a) <==> RemembersUser(b))
  }

  predicate ForAgent(events: seq<HookEvent>, agentType: string) {
    forall i :: 0 <= i < |events| ==> events[i].agentType == agentType
  }

  function HookOps(events: seq<HookEvent>): seq<Op> {
    seq(|events|, i requires 0 <= i < |events| => HookOp(events[i]))
  }

  lemma SameClass(a: SessionState, b: SessionState, ev: HookEvent)
    requires InStep(a, b) && ev.agentType == a.agentType
    ensures ClassifyEvent(GetHandler(ev.agentType), ev, a.lastMessageRole)
         == ClassifyEvent(GetHandler(ev.agentType), ev, b.lastMessageRole)
  {
  }

  lemma EventKeepsStep(a: SessionState, b: SessionState, ev: HookEvent)
    requires InStep(a, b) && ev.agentType == a.agentType
    ensures InStep(HookKnown(a, ev), HookKnown(b, ev))
  {
    SameClass(a, b, ev);
    SessionRuns.RoleAfter(a, ev);
    SessionRuns.RoleAfter(b, ev);
    SessionRuns.HookTurns(a, ev);
    SessionRuns.HookTurns(b, ev);
  }

  lemma FirstEvent(s: SessionState, events: seq<HookEvent>)
    requires events != []
    ensures Run(s, HookOps(events)) == Run(HookKnown(s, events[0]), HookOps(events[1..]))
  {
    var ops := HookOps(events);
    assert ops[0] == HookOp(events[0]);
    assert ops[1..] == HookOps(events[1..]);
  }

  lemma OneEvent(s: SessionState, ev: HookEvent)
    ensures Run(s, HookOps([ev])) == HookKnown(s, ev)
  {
    FirstEvent(s, [ev]);
  }

  lemma {:induction false} EventsKeepStep(a: SessionState, b: SessionState, events: seq<HookEvent>)
    requires InStep(a, b) && ForAgent(events, a.agentType)
    ensures InStep(Run(a, HookOps(events)), Run(b, HookOps(events)))
    decreases |events|
  {
    if events != [] {
      EventKeepsStep(a, b, events[0]);
      SessionRuns.RoleAfter(a, events[0]);
      FirstEvent(a, events);
      FirstEvent(b, events);
      EventsKeepStep(HookKnown(a, events[0]), HookKnown(b, events[0]), events[1..]);
    }
  }

  /** What a restart forgets: a web prompt still waiting for its echo, or that the user spoke last. */
  predicate ForgetsNothing(s: SessionState) {
    !s.webInputActive && !RemembersUser(s)
  }

  /** Same status and timeline whatever events follow. */
  ghost predicate Indistinguishable(a: SessionState, b: SessionState) {
    forall events: seq<HookEvent> :: ForAgent(events, a.agentType) ==>
      && Run(a, HookOps(events)).status == Run(b, HookOps(events)).status
      && Run(a, HookOps(events)).turns == Run(b, HookOps(events)).turns
  }

  const NO_FACTS :=
    Facts("", "", "", None, "", "", TextPart, PartOther, "", "", None, None, "", "", "", false, "", "", "")

  /** A prompt from the agent, in the agent's own vocabulary. */
  function Probe(agentType: string, role: string): HookEvent {
    HookEvent(if GetHandler(agentType).OpenCode? then MessagePartUpdated else UserPromptSubmit,
              agentType, "", 0, "", 0, "", NO_FACTS.(partRole := role))
  }

  /** The reloaded session takes the echo of a web prompt for a new prompt. */
  lemma EchoTells(s: SessionState, b: SessionState)
    requires s.webInputActive && !b.webInputActive && b.agentType == s.agentType && b.turns == s.turns
    ensures HookKnown(s, Probe(s.agentType, "user")).turns != HookKnown(b, Probe(s.agentType, "user")).turns
  {
    var ev := Probe(s.agentType, "user");
    SessionRuns.HookTurns(s, ev);
    SessionRuns.HookTurns(b, ev);
    hide HookKnown, AddEntry, StartTool, CompleteTool, Timeline.FailTool;
    assert |HookKnown(b, ev).turns| == |s.turns| + 1;
  }

  lemma PromptIsNotAnEntry(turns: seq<Turn>, input: string, ts: int, e: Entry)
    ensures NewTurn(turns, input, ts) != AddEntry(turns, e)
  {
    assert LastEntries(NewTurn(turns, input, ts)) == [] && LastEntries(AddEntry(turns, e)) != [];
  }

  /** The reloaded session takes a role-less text part of the user for the agent's own. */
  lemma RoleTells(s: SessionState, b: SessionState)
    requires RemembersUser(s) && !s.webInputActive && b.agentType == s.agentType && b.turns == s.turns
    requires !b.webInputActive && b.lastMessageRole == ""
    ensures HookKnown(s, Probe(s.agentType, "")).turns != HookKnown(b, Probe(s.agentType, "")).turns
  {
    var ev := Probe(s.agentType, "");
    SessionRuns.HookTurns(s, ev);
    SessionRuns.HookTurns(b, ev);
    PromptIsNotAnEntry(s.turns, ev.facts.prompt, ev.timestampMs, EventEntry(ev));
  }

  /** A restart is invisible to every later event sequence exactly when it forgets nothing. */
  lemma RestartTransparentIff(row: Row, s: SessionState)
    requires RowAgrees(row, s)
    ensures Indistinguishable(s, FromRow(row)) <==> ForgetsNothing(s)
  {
    var b := FromRow(row);
    ReloadedSession(row, s);
    if ForgetsNothing(s) {
      assert InStep(s, b);
      forall events: seq<HookEvent> | ForAgent(events, s.agentType)
        ensures Run(s, HookOps(events)).status == Run(b, HookOps(events)).status
        ensures Run(s, HookOps(events)).turns == Run(b, HookOps(events)).turns
      {
        EventsKeepStep(s, b, events);
      }
    } else {
      var ev := Probe(s.agentType, if s.webInputActive then "user" else "");
      if s.webInputActive {
        EchoTells(s, b);
      } else {
        RoleTells(s, b);
      }
      OneEvent(s, ev);
      OneEvent(b, ev);
      assert ForAgent([ev], s.agentType);
    }
  }

  // ---- all operations ------------------------------------------------------------------------

  /** Two records that any operations will move in step. */
  predicate AllInStep(a: SessionState, b: SessionState) {
    && InStep(a, b) && (a.source.SdkSource? <==> b.source.SdkSource?)
    && (a.status.Active? ==> a.lastHookTime == b.lastHookTime)
  }

  predicate OpForAgent(op: Op, agentType: string) {
    op.HookOp? ==> op.ev.agentType == agentType
  }

  predicate OpsForAgent(ops: seq<Op>, agentType: string) {
    forall i :: 0 <= i < |ops| ==> OpForAgent(ops[i], agentType)
  }

  lemma HookActivity(s: SessionState, ev: HookEvent)
    ensures HookKnown(s, ev).lastHookTime == ev.timestampMs && HookKnown(s, ev).source == s.source
    ensures HookKnown(s, ev).agentType == s.agentType
  {
  }

  lemma OpKeepsStep(a: SessionState, b: SessionState, op: Op)
    requires AllInStep(a, b) && OpForAgent(op, a.agentType)
    ensures AllInStep(Next(a, op), Next(b, op)) && Next(a, op).agentType == a.agentType
  {
    if op.HookOp? {
      EventKeepsStep(a, b, op.ev);
      SessionRuns.RoleAfter(a, op.ev);
      HookActivity(a, op.ev);
      HookActivity(b, op.ev);
    }
    hide HookKnown;
  }

  lemma {:induction false} OpsKeepStep(a: SessionState, b: SessionState, ops: seq<Op>)
    requires AllInStep(a, b) && OpsForAgent(ops, a.agentType)
    ensures AllInStep(Run(a, ops), Run(b, ops))
    decreases |ops|
  {
    hide AllInStep, Next, OpForAgent;
    if ops != [] {
      assert OpForAgent(ops[0], a.agentType);
      OpKeepsStep(a, b, ops[0]);
      OpsKeepStep(Next(a, ops[0]), Next(b, ops[0]), ops[1..]);
    }
  }

  /** Same status and timeline whatever operations follow. */
  ghost predicate AlwaysAlike(a: SessionState, b: SessionState) {
    forall ops: seq<Op> :: OpsForAgent(ops, a.agentType) ==>
      Run(a, ops).status == Run(b, ops).status && Run(a, ops).turns == Run(b, ops).turns
  }

  lemma AlikeForEvents(a: SessionState, b: SessionState)
    requires AlwaysAlike(a, b)
    ensures Indistinguishable(a, b)
  {
    forall events: seq<HookEvent> | ForAgent(events, a.agentType)
      ensures OpsForAgent(HookOps(events), a.agentType)
    {
    }
  }

  /** An idle check at the right time tells two activity times apart. */
  lemma IdleTells(a: SessionState, b: SessionState) returns (now: int)
    requires a.status.Active? && b.status.Active? && a.lastHookTime != b.lastHookTime
    ensures Run(a, [IdleOp(now)]).status != Run(b, [IdleOp(now)]).status
  {
    var first := if b.lastHookTime == 0 || (a.lastHookTime != 0 && a.lastHookTime < b.lastHookTime) then a.lastHookTime
                 else b.lastHookTime;
    now := first + IDLE_THRESHOLD + 1;
    assert Run(a, [IdleOp(now)]) == IdleChecked(a, now);
    assert Run(b, [IdleOp(now)]) == IdleChecked(b, now);
  }

  /**
   * A restart is invisible to whatever happens later exactly when it forgets nothing
   * and an active session was last active at its last event.
   */
  lemma RestartAlwaysTransparentIff(row: Row, s: SessionState)
    requires RowAgrees(row, s)
    ensures AlwaysAlike(s, FromRow(row)) <==>
              ForgetsNothing(s) && (s.status.Active? ==> s.lastHookTime == s.lastEventTimeMs)
  {
    var b := FromRow(row);
    ReloadedSession(row, s);
    RestartTransparentIff(row, s);
    if AlwaysAlike(s, b) {
      AlikeForEvents(s, b);
      if s.status.Active? && s.lastHookTime != s.lastEventTimeMs {
        var now := IdleTells(s, b);
        assert OpsForAgent([IdleOp(now)], s.agentType);
      }
    } else if ForgetsNothing(s) && (s.status.Active? ==> s.lastHookTime == s.lastEventTimeMs) {
      assert AllInStep(s, b);
      forall ops: seq<Op> | OpsForAgent(ops, s.agentType)
        ensures Run(s, ops).status == Run(b, ops).status && Run(s, ops).turns == Run(b, ops).turns
      {
        OpsKeepStep(s, b, ops);
      }
    }
  }

  /**
   * The activity time of a session that a scan brought back is not stored: after a
   * restart its idle period starts at its last event.
   */
  lemma ResurrectedGoesIdleEarly(row: Row, s: SessionState, info: ProcessInfo, now: int)
    requires RowAgrees(row, Next(s, PidOp(info, now))) && s.status.Disappeared? && ForgetsNothing(s)
    ensures AlwaysAlike(Next(s, PidOp(info, now)), FromRow(row)) <==> now == s.lastEventTimeMs
  {
    RestartAlwaysTransparentIff(row, Next(s, PidOp(info, now)));
  }
}
