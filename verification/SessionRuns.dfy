/** Properties of a session over arbitrary runs of operations. */
module SessionRuns {
  import opened Basics
  import opened SessionTypes
  import opened Handlers
  import opened Timeline
  import opened SessionOps
  import TS = ToolStacks

  // ---- the flat tool list under every operation ---------------------------------

  /** The operation on the flat list that an event or message amounts to. */
  function ToolOpOf(s: SessionState, op: Op): TS.ToolOp {
    if OpensTurn(s, op) then TS.NewList
    else
      match op
      case HookOp(ev) => EventToolOp(ClassifyEvent(GetHandler(ev.agentType), ev, s.lastMessageRole), ev)
      case SdkMessageOp(msg, now) =>
        if !s.source.SdkSource? || s.turns == [] then TS.NoTool else MessageToolOp(msg, now)
      case _ => TS.NoTool
  }

  function EventToolOp(cls: EventClass, ev: HookEvent): TS.ToolOp {
    match cls
    case ClassPreTool => if ev.facts.toolName == "" then TS.NoTool else TS.Begin(StartedCall(ev))
    case ClassPostTool => TS.Result(WantOf(ev), CompletionOf(ev))
    case ClassPostToolFailure => TS.Failure(ev.facts.toolName, FailureOf(ev), LoneFailure(ev))
    case _ => TS.NoTool
  }

  function MessageToolOp(msg: Message, now: int): TS.ToolOp {
    match msg.kind
    case ToolUseMessage => TS.Begin(SdkCall(msg, now))
    case ToolResultMessage => TS.Result(AnyRunning, Outcome(Completed, msg.content, now))
    case OtherMessage => TS.NoTool
  }

  /** Does the operation open a new turn, and with it an empty tool list? */
  predicate OpensTurn(s: SessionState, op: Op) {
    match op
    case HookOp(ev) =>
      ClassifyEvent(GetHandler(ev.agentType), ev, s.lastMessageRole).ClassUserPrompt? && !s.webInputActive
    case WebOp(_, _, _) => true
    case SdkPromptOp(_, _) => s.source.SdkSource?
    case _ => false
  }

  lemma AddEntryTools(turns: seq<Turn>, e: Entry)
    requires e.tools == []
    ensures CurrentTools(AddEntry(turns, e)) == CurrentTools(turns)
  {
    var ts := EnsureTurn(turns);
    FlatConcat(LastEntries(ts), [e]);
    FlatSingle(e);
  }

  lemma StartToolTools(turns: seq<Turn>, opener: Entry, t: ToolCall)
    ensures CurrentTools(StartTool(turns, opener, t)) == CurrentTools(turns) + [t]
  {
    StartInFlat(LastEntries(EnsureTurn(turns)), opener, t);
  }

  lemma CompleteToolTools(turns: seq<Turn>, w: Want, o: Outcome)
    ensures CurrentTools(CompleteTool(turns, w, o)) == FinishTools(CurrentTools(turns), w, o)
  {
    if turns != [] {
      FinishInFlat(LastEntries(turns), w, o);
    }
  }

  lemma FailToolTools(turns: seq<Turn>, name: string, o: Outcome, lone: Entry, call: ToolCall)
    requires lone.tools == [call]
    ensures CurrentTools(FailTool(turns, name, o, lone)) ==
            TS.Apply(CurrentTools(turns), TS.Failure(name, o, call))
  {
    var es := LastEntries(EnsureTurn(turns));
    assert CurrentTools(turns) == Flat(es);
    FinishInFlat(es, Named(name), o);
    FlatConcat(es, [lone]);
    FlatSingle(lone);
  }

  lemma EventTools(turns: seq<Turn>, cls: EventClass, ev: HookEvent)
    requires !cls.ClassUserPrompt?
    ensures CurrentTools(EventTurns(turns, cls, ev)) == TS.Apply(CurrentTools(turns), EventToolOp(cls, ev))
  {
    match cls {
      case ClassPreTool => StartToolTools(turns, ToolGroupEntry(ev), StartedCall(ev));
      case ClassPostTool =>
        CompleteToolTools(turns, WantOf(ev), CompletionOf(ev));
        AddEntryTools(CompleteTool(turns, WantOf(ev), CompletionOf(ev)), EventEntry(ev));
      case ClassPostToolFailure =>
        var lone := LoneFailureEntry(ev);
        FailToolTools(turns, ev.facts.toolName, FailureOf(ev), lone, LoneFailure(ev));
        AddEntryTools(FailTool(turns, ev.facts.toolName, FailureOf(ev), lone), EventEntry(ev));
      case ClassOther => AddEntryTools(turns, EventEntry(ev));
    }
  }

  lemma SdkTools(turns: seq<Turn>, msg: Message, ts: int)
    requires turns != []
    ensures CurrentTools(SdkTurns(turns, msg, ts)) == TS.Apply(CurrentTools(turns), MessageToolOp(msg, ts))
  {
    var es := LastEntries(turns);
    match msg.kind {
      case ToolUseMessage => StartInFlat(es, Entry(SDKToolUse, 0, "", [], ts), SdkCall(msg, ts));
      case ToolResultMessage =>
        FinishInFlat(es, AnyRunning, Outcome(Completed, msg.content, ts));
        FlatConcat(es, [SdkEntry(msg, ts)]);
        FlatSingle(SdkEntry(msg, ts));
      case OtherMessage =>
        FlatConcat(es, [SdkEntry(msg, ts)]);
        FlatSingle(SdkEntry(msg, ts));
    }
  }

  lemma HookRefinesFlatList(s: SessionState, ev: HookEvent)
    ensures CurrentTools(HookKnown(s, ev).turns) == TS.Apply(CurrentTools(s.turns), ToolOpOf(s, HookOp(ev)))
  {
    var cls := ClassifyEvent(GetHandler(ev.agentType), ev, s.lastMessageRole);
    HookTurns(s, ev);
    if !cls.ClassUserPrompt? {
      EventTools(s.turns, cls, ev);
    }
  }

  lemma MessageRefinesFlatList(s: SessionState, msg: Message, now: int)
    ensures CurrentTools(Next(s, SdkMessageOp(msg, now)).turns)
         == TS.Apply(CurrentTools(s.turns), ToolOpOf(s, SdkMessageOp(msg, now)))
  {
    var op := SdkMessageOp(msg, now);
    if s.source.SdkSource? && s.turns != [] {
      assert Next(s, op).turns == SdkTurns(s.turns, msg, now);
      assert ToolOpOf(s, op) == MessageToolOp(msg, now);
      SdkTools(s.turns, msg, now);
    } else {
      assert Next(s, op).turns == s.turns;
      assert ToolOpOf(s, op) == TS.NoTool;
    }
  }

  /** Every operation on the nested timeline is one operation on the flat tool list. */
  lemma TimelineRefinesFlatList(s: SessionState, op: Op)
    ensures CurrentTools(Next(s, op).turns) == TS.Apply(CurrentTools(s.turns), ToolOpOf(s, op))
  {
    match op {
      case HookOp(ev) => HookRefinesFlatList(s, ev);
      case SdkMessageOp(msg, now) => MessageRefinesFlatList(s, msg, now);
      case _ =>
    }
  }

  function ToolOpsOf(s: SessionState, ops: seq<Op>): seq<TS.ToolOp>
    decreases |ops|
  {
    if ops == [] then [] else [ToolOpOf(s, ops[0])] + ToolOpsOf(Next(s, ops[0]), ops[1..])
  }

  lemma {:induction false} RunRefinesFlatList(s: SessionState, ops: seq<Op>)
    ensures CurrentTools(Run(s, ops).turns) == TS.ApplyAll(CurrentTools(s.turns), ToolOpsOf(s, ops))
    decreases |ops|
  {
    if ops != [] {
      TimelineRefinesFlatList(s, ops[0]);
      RunRefinesFlatList(Next(s, ops[0]), ops[1..]);
      assert ToolOpsOf(s, ops)[1..] == ToolOpsOf(Next(s, ops[0]), ops[1..]);
    }
  }

  /**
   * Over any run of a session, the open calls of the current turn are those of the
   * bracket machine fed with the operations, as one stack and name by name.
   */
  lemma SessionCallsPairAsStacks(s: SessionState, ops: seq<Op>, name: string)
    ensures var b := TS.RunBrackets(TS.BracketsOf(CurrentTools(s.turns)), ToolOpsOf(s, ops));
            && TS.BracketsOf(CurrentTools(Run(s, ops).turns)) == b
            && forall k :: k in TS.Stack(b.open, name) <==>
                 0 <= k < b.count && Matches(CurrentTools(Run(s, ops).turns)[k], Named(name))
  {
    RunRefinesFlatList(s, ops);
    TS.CallsPairAsStacks(CurrentTools(s.turns), ToolOpsOf(s, ops));
    TS.OpenCallsAreRunning(CurrentTools(Run(s, ops).turns), name);
    hide CurrentTools, Run, ToolOpsOf, TS.RunBrackets;
  }

  /** The part of a hook event that concerns the timeline. */
  lemma HookTurns(s: SessionState, ev: HookEvent)
    ensures var cls := ClassifyEvent(GetHandler(ev.agentType), ev, s.lastMessageRole);
            var echo := cls.ClassUserPrompt? && s.webInputActive;
            var r := HookKnown(s, ev);
            && r.turns == (if echo then s.turns else EventTurns(s.turns, cls, ev))
            && r.turnCount == s.turnCount + (if cls.ClassUserPrompt? && !echo then 1 else 0)
            && r.userInput == (if cls.ClassUserPrompt? && !echo then ev.facts.prompt else s.userInput)
            && r.webInputActive == (s.webInputActive && !cls.ClassUserPrompt? && !cls.ClassOther?)
            && r.status == Promote(LifecycleStatus(GetHandler(ev.agentType), ev.event).GetOr<Status>(s.status))
            && r.lastHookTime == ev.timestampMs
  {
  }

  // ---- shape of the timeline -------------------------------------------------------

  /** Turns are numbered by position and the newest one carries the current prompt. */
  predicate WellNumbered(turns: seq<Turn>, userInput: string) {
    && (forall i :: 0 <= i < |turns| ==> turns[i].turnIdx == i)
    && userInput == (if turns == [] then "" else turns[|turns| - 1].userInput)
  }

  /** Turns before the newest one are frozen, and the newest keeps its heading. */
  predicate Extends(before: seq<Turn>, after: seq<Turn>) {
    && |before| <= |after|
    && (forall i :: 0 <= i < |before| - 1 ==> after[i] == before[i])
    && (before != [] ==>
          var t, u := before[|before| - 1], after[|before| - 1];
          u.turnIdx == t.turnIdx && u.userInput == t.userInput && u.userTs == t.userTs)
  }

  /** Entries are only ever appended, and what identifies an entry never changes. */
  predicate EntriesExtend(before: seq<Entry>, after: seq<Entry>) {
    && |before| <= |after|
    && (forall j :: 0 <= j < |before| ==>
          && after[j].event == before[j].event && after[j].ts == before[j].ts
          && after[j].payload == before[j].payload && after[j].startTs == before[j].startTs
          && |before[j].tools| <= |after[j].tools|)
  }

  predicate TimelineExtends(before: seq<Turn>, after: seq<Turn>) {
    && Extends(before, after)
    && (before != [] ==> EntriesExtend(LastEntries(before), after[|before| - 1].entries))
  }

  /** An edit of the current turn: a turn is opened if there is none, nothing else moves. */
  predicate EditsLast(before: seq<Turn>, after: seq<Turn>) {
    && |after| == Max(1, |before|)
    && after[..|after| - 1] == EnsureTurn(before)[..|after| - 1]
    && after[|after| - 1].(entries := []) == EnsureTurn(before)[|after| - 1].(entries := [])
    && EntriesExtend(LastEntries(EnsureTurn(before)), LastEntries(after))
  }

  lemma EditCompose(a: seq<Turn>, b: seq<Turn>, c: seq<Turn>)
    requires EditsLast(a, b) && EditsLast(b, c)
    ensures EditsLast(a, c)
  {
  }

  lemma SetEntriesEdits(turns: seq<Turn>, entries: seq<Entry>)
    requires EntriesExtend(LastEntries(EnsureTurn(turns)), entries)
    ensures EditsLast(turns, WithEntries(EnsureTurn(turns), entries))
  {
  }

  lemma AddEntryEdits(turns: seq<Turn>, e: Entry)
    ensures EditsLast(turns, AddEntry(turns, e))
  {
    SetEntriesEdits(turns, LastEntries(EnsureTurn(turns)) + [e]);
  }

  lemma CompleteToolEdits(turns: seq<Turn>, w: Want, o: Outcome)
    ensures if turns == [] then CompleteTool(turns, w, o) == [] else EditsLast(turns, CompleteTool(turns, w, o))
  {
    if turns != [] {
      SetEntriesEdits(turns, FinishIn(LastEntries(turns), w, o));
    }
  }

  lemma FailToolEdits(turns: seq<Turn>, name: string, o: Outcome, lone: Entry)
    ensures EditsLast(turns, FailTool(turns, name, o, lone))
  {
    var es := LastEntries(EnsureTurn(turns));
    SetEntriesEdits(turns, FinishIn(es, Named(name), o));
    SetEntriesEdits(turns, es + [lone]);
  }

  lemma EditThenAddEntry(before: seq<Turn>, mid: seq<Turn>, e: Entry)
    requires before == mid || EditsLast(before, mid)
    ensures EditsLast(before, AddEntry(mid, e))
  {
    AddEntryEdits(mid, e);
    if before != mid {
      EditCompose(before, mid, AddEntry(mid, e));
    }
  }

  lemma EventTurnsEdit(turns: seq<Turn>, cls: EventClass, ev: HookEvent)
    requires !cls.ClassUserPrompt?
    ensures EventTurns(turns, cls, ev) == turns || EditsLast(turns, EventTurns(turns, cls, ev))
  {
    match cls {
      case ClassPreTool =>
        SetEntriesEdits(turns, StartIn(LastEntries(EnsureTurn(turns)), ToolGroupEntry(ev), StartedCall(ev)));
      case ClassPostTool =>
        CompleteToolEdits(turns, WantOf(ev), CompletionOf(ev));
        EditThenAddEntry(turns, CompleteTool(turns, WantOf(ev), CompletionOf(ev)), EventEntry(ev));
      case ClassPostToolFailure =>
        FailToolEdits(turns, ev.facts.toolName, FailureOf(ev), LoneFailureEntry(ev));
        var failed := FailTool(turns, ev.facts.toolName, FailureOf(ev), LoneFailureEntry(ev));
        EditThenAddEntry(turns, failed, EventEntry(ev));
      case ClassOther =>
        AddEntryEdits(turns, EventEntry(ev));
    }
  }

  /** Every operation keeps the timeline, edits its last turn, or opens a turn for a prompt. */
  lemma NextTurns(s: SessionState, op: Op)
    ensures var r := Next(s, op);
            && (OpensTurn(s, op) ==>
                  exists ts :: r.turns == NewTurn(s.turns, r.userInput, ts) && r.turnCount == s.turnCount + 1)
            && (!OpensTurn(s, op) ==>
                  && r.userInput == s.userInput && r.turnCount == s.turnCount
                  && (r.turns == s.turns || EditsLast(s.turns, r.turns)))
  {
    var r := Next(s, op);
    match op {
      case HookOp(ev) =>
        HookTurns(s, ev);
        var cls := ClassifyEvent(GetHandler(ev.agentType), ev, s.lastMessageRole);
        if cls.ClassUserPrompt? {
          assert OpensTurn(s, op) ==> r.turns == NewTurn(s.turns, r.userInput, ev.timestampMs);
        } else {
          EventTurnsEdit(s.turns, cls, ev);
        }
      case WebOp(text, now, hookNow) =>
        assert r.turns == NewTurn(s.turns, r.userInput, now);
      case SdkPromptOp(text, now) =>
        assert OpensTurn(s, op) ==> r.turns == NewTurn(s.turns, r.userInput, now);
      case SdkMessageOp(msg, now) =>
        if s.source.SdkSource? && s.turns != [] {
          assert EntriesExtend(LastEntries(s.turns), SdkEntries(LastEntries(s.turns), msg, now));
        }
      case _ =>
    }
  }

  /** The two shapes a timeline step can have. */
  ghost predicate TurnsStep(before: seq<Turn>, input: string, after: seq<Turn>, newInput: string) {
    || (newInput == input && (after == before || EditsLast(before, after)))
    || (exists ts :: after == NewTurn(before, newInput, ts))
  }

  lemma NextIsTurnsStep(s: SessionState, op: Op)
    ensures TurnsStep(s.turns, s.userInput, Next(s, op).turns, Next(s, op).userInput)
  {
    NextTurns(s, op);
  }

  lemma StepKeepsNumbering(before: seq<Turn>, input: string, after: seq<Turn>, newInput: string)
    requires WellNumbered(before, input) && TurnsStep(before, input, after, newInput)
    ensures WellNumbered(after, newInput)
  {
    if newInput == input && EditsLast(before, after) {
      var n := |after| - 1;
      assert forall i :: 0 <= i < n ==> after[i] == after[..n][i];
    }
  }

  lemma StepExtends(before: seq<Turn>, input: string, after: seq<Turn>, newInput: string)
    requires TurnsStep(before, input, after, newInput)
    ensures TimelineExtends(before, after)
  {
    if newInput == input && EditsLast(before, after) {
      var n := |after| - 1;
      assert forall i :: 0 <= i < n ==> after[i] == after[..n][i];
    }
  }

  /** Over any run, turns stay numbered and the newest one holds the current prompt. */
  lemma {:induction false} RunKeepsNumbering(s: SessionState, ops: seq<Op>)
    requires WellNumbered(s.turns, s.userInput)
    ensures WellNumbered(Run(s, ops).turns, Run(s, ops).userInput)
    decreases |ops|
  {
    if ops != [] {
      NextIsTurnsStep(s, ops[0]);
      StepKeepsNumbering(s.turns, s.userInput, Next(s, ops[0]).turns, Next(s, ops[0]).userInput);
      RunKeepsNumbering(Next(s, ops[0]), ops[1..]);
    }
  }

  lemma NextExtends(s: SessionState, op: Op)
    ensures TimelineExtends(s.turns, Next(s, op).turns)
  {
    NextIsTurnsStep(s, op);
    StepExtends(s.turns, s.userInput, Next(s, op).turns, Next(s, op).userInput);
  }

  lemma ExtendsTransitive(a: seq<Turn>, b: seq<Turn>, c: seq<Turn>)
    requires TimelineExtends(a, b) && TimelineExtends(b, c)
    ensures TimelineExtends(a, c)
  {
    if a != [] && |b| > |a| {
      assert c[|a| - 1] == b[|a| - 1];
    }
  }

  /** Over any run, earlier turns never change and no entry loses its payload. */
  lemma {:induction false} RunExtends(s: SessionState, ops: seq<Op>)
    ensures TimelineExtends(s.turns, Run(s, ops).turns)
    decreases |ops|
  {
    if ops != [] {
      NextExtends(s, ops[0]);
      RunExtends(Next(s, ops[0]), ops[1..]);
      ExtendsTransitive(s.turns, Next(s, ops[0]).turns, Run(s, ops).turns);
    }
  }

  // ---- counting turns -------------------------------------------------------------------

  /** An operation that gives a session its first turn without a prompt. */
  predicate Synthesises(s: SessionState, op: Op) {
    s.turns == [] && !OpensTurn(s, op) && Next(s, op).turns != []
  }

  function SynthesisedTurns(s: SessionState, ops: seq<Op>): nat
    decreases |ops|
  {
    if ops == [] then 0
    else (if Synthesises(s, ops[0]) then 1 else 0) + SynthesisedTurns(Next(s, ops[0]), ops[1..])
  }

  /** TurnCount and the number of turns drift apart at most once, by a turn nobody prompted. */
  lemma {:induction false} TurnCountTracksTurns(s: SessionState, ops: seq<Op>)
    ensures var r := Run(s, ops);
            && r.turnCount - |r.turns| == s.turnCount - |s.turns| - SynthesisedTurns(s, ops)
            && SynthesisedTurns(s, ops) <= 1
            && (s.turns != [] ==> SynthesisedTurns(s, ops) == 0)
    decreases |ops|
  {
    if ops != [] {
      NextTurns(s, ops[0]);
      TurnCountTracksTurns(Next(s, ops[0]), ops[1..]);
    }
  }

  // ---- echoed prompts -----------------------------------------------------------------------

  predicate SuppressesEcho(s: SessionState, op: Op) {
    && op.HookOp? && s.webInputActive
    && ClassifyEvent(GetHandler(op.ev.agentType), op.ev, s.lastMessageRole).ClassUserPrompt?
  }

  function SuppressedEchoes(s: SessionState, ops: seq<Op>): nat
    decreases |ops|
  {
    if ops == [] then 0
    else (if SuppressesEcho(s, ops[0]) then 1 else 0) + SuppressedEchoes(Next(s, ops[0]), ops[1..])
  }

  function WebInputs(ops: seq<Op>): nat {
    if ops == [] then 0 else (if ops[0].WebOp? then 1 else 0) + WebInputs(ops[1..])
  }

  /** A hook prompt is swallowed at most once per web input. */
  lemma {:induction false} EchoesBoundedByWebInputs(s: SessionState, ops: seq<Op>)
    ensures SuppressedEchoes(s, ops) + (if Run(s, ops).webInputActive then 1 else 0)
         <= WebInputs(ops) + (if s.webInputActive then 1 else 0)
    decreases |ops|
  {
    if ops != [] {
      if ops[0].HookOp? {
        HookTurns(s, ops[0].ev);
      }
      EchoesBoundedByWebInputs(Next(s, ops[0]), ops[1..]);
    }
  }

  // ---- the status machine ----------------------------------------------------------------------

  /** Operations that carry no lifecycle information of their own. */
  predicate Ordinary(op: Op) {
    match op
    case HookOp(ev) => LifecycleStatus(GetHandler(ev.agentType), ev.event).None?
    case PidOp(_, _) => true
    case GoneOp => true
    case IdleOp(_) => true
    case WebOp(_, _, _) => true
    case _ => false
  }

  /** A stopped session stays stopped until a lifecycle event. */
  lemma {:induction false} StoppedIsStable(s: SessionState, ops: seq<Op>)
    requires s.status.Stopped?
    requires forall i :: 0 <= i < |ops| ==> Ordinary(ops[i])
    ensures Run(s, ops).status.Stopped?
    decreases |ops|
  {
    if ops != [] {
      StoppedIsStable(Next(s, ops[0]), ops[1..]);
    }
  }

  /** A disappeared session is left only by a lifecycle event or by a process that turns up again. */
  lemma {:induction false} DisappearedIsStable(s: SessionState, ops: seq<Op>)
    requires s.status.Disappeared?
    requires forall i :: 0 <= i < |ops| ==> Ordinary(ops[i]) && !ops[i].PidOp?
    ensures Run(s, ops).status.Disappeared?
    decreases |ops|
  {
    if ops != [] {
      DisappearedIsStable(Next(s, ops[0]), ops[1..]);
    }
  }

  /**
   * The exact steps out of Disappeared: a lifecycle event, a process that turns up
   * again, and on an SDK session a prompt or a mark with another status.
   */
  lemma LeavingDisappeared(s: SessionState, op: Op)
    requires s.status.Disappeared?
    ensures !Next(s, op).status.Disappeared? <==>
              || (op.HookOp? && LifecycleStatus(GetHandler(op.ev.agentType), op.ev.event).Some?)
              || op.PidOp?
              || (s.source.SdkSource? && (op.SdkPromptOp? || (op.SdkStatusOp? && !op.status.Disappeared?)))
  {
    if op.HookOp? {
      HookTurns(s, op.ev);
    }
  }

  /** Right after the idle check no active session has been silent for longer than the threshold. */
  lemma IdleCheckBounds(s: SessionState, now: int)
    ensures var r := IdleChecked(s, now);
            && (r.status.Active? ==> r.lastHookTime == 0 || now - r.lastHookTime <= 300000)
            && (r != s ==> s.status.Active? && r == s.(status := Idle))
  {
  }

  // ---- who spoke last, to OpenCode -----------------------------------------------

  lemma RoleAfter(s: SessionState, ev: HookEvent)
    ensures HookKnown(s, ev).agentType == s.agentType
    ensures HookKnown(s, ev).lastMessageRole
         == if GetHandler(ev.agentType).OpenCode? && ev.event.MessageUpdated? && ev.facts.messageRole != ""
            then ev.facts.messageRole else s.lastMessageRole
  {
  }

  predicate NamesRole(op: Op) {
    op.HookOp? && GetHandler(op.ev.agentType).OpenCode? && op.ev.event.MessageUpdated? && op.ev.facts.messageRole != ""
  }

  /** The role of the last message that named one. */
  function LastRole(ops: seq<Op>, start: string): string {
    if ops == [] then start
    else if NamesRole(ops[|ops| - 1]) then ops[|ops| - 1].ev.facts.messageRole
    else LastRole(ops[..|ops| - 1], start)
  }

  lemma {:induction false} RoleFromHistory(s: SessionState, ops: seq<Op>)
    ensures Run(s, ops).lastMessageRole == LastRole(ops, s.lastMessageRole)
    decreases |ops|
  {
    if ops != [] {
      var n := |ops| - 1;
      assert ops == ops[..n] + [ops[n]];
      RunSnoc(s, ops[..n], ops[n]);
      RoleFromHistory(s, ops[..n]);
      if ops[n].HookOp? {
        RoleAfter(Run(s, ops[..n]), ops[n].ev);
      }
    }
  }

  /**
   * A text part counts as a prompt exactly when it says the user spoke, or says
   * nothing and the last message that named a role was the user's.
   */
  lemma PromptByHistory(s: SessionState, ops: seq<Op>, ev: HookEvent)
    requires GetHandler(ev.agentType).OpenCode? && ev.event.MessagePartUpdated? && ev.facts.partKind.TextPart?
    requires !Run(s, ops).webInputActive
    ensures HookKnown(Run(s, ops), ev).turnCount == Run(s, ops).turnCount + 1 <==>
            (if ev.facts.partRole == "" then LastRole(ops, s.lastMessageRole) else ev.facts.partRole) == "user"
  {
    var r := Run(s, ops);
    RoleFromHistory(s, ops);
    HookTurns(r, ev);
    hide HookKnown, LastRole, Run, EventTurns;
  }
}
