/**
 * The change notices of internal/session/manager.go: computeDelta and the
 * hand-written deltas, as patches on the published fields of a session.
 */
module Deltas {
  import opened Basics
  import opened SessionTypes
  import opened SessionOps
  import SessionRuns

  /** The fields a delta can name, as a client sees them: the sixteen of computeDelta and two metrics. */
  datatype View = View(
    pid: int, cwd: string, status: Status, lastEventTimeMs: int, lastEventType: EventName, lastFile: string,
    lastCommand: string, turnCount: int, terminal: string, processCreateTimeMs: int, gitBranch: string,
    userInput: string, agentOutput: string, sessionTitle: string, lastHookEvent: EventName, turns: seq<Turn>,
    cpuPercent: real, memoryMB: real)

  function ViewOf(s: SessionState): View {
    View(
      s.pid, s.cwd, s.status, s.lastEventTimeMs, s.lastEventType, s.lastFile, s.lastCommand, s.turnCount,
      s.terminal, s.processCreateTimeMs, s.gitBranch, s.userInput, s.agentOutput, s.sessionTitle,
      s.lastHookEvent, s.turns, s.cpuPercent, s.memoryMB)
  }

  /** Delta.Changes: a new value for each field it names. */
  datatype Changes = Changes(
    pid: Option<int>, cwd: Option<string>, status: Option<Status>, lastEventTimeMs: Option<int>,
    lastEventType: Option<EventName>, lastFile: Option<string>, lastCommand: Option<string>,
    turnCount: Option<int>, terminal: Option<string>, processCreateTimeMs: Option<int>,
    gitBranch: Option<string>, userInput: Option<string>, agentOutput: Option<string>,
    sessionTitle: Option<string>, lastHookEvent: Option<EventName>, turns: Option<seq<Turn>>,
    cpuPercent: Option<real>, memoryMB: Option<real>)

  const NO_CHANGES := Changes(
    None, None, None, None, None, None, None, None, None, None, None, None, None, None, None, None, None, None)

  /** What a client does with the changes of a delta. */
  function Patched(v: View, c: Changes): View {
    View(
      c.pid.GetOr<int>(v.pid), c.cwd.GetOr<string>(v.cwd), c.status.GetOr<Status>(v.status),
      c.lastEventTimeMs.GetOr<int>(v.lastEventTimeMs), c.lastEventType.GetOr<EventName>(v.lastEventType),
      c.lastFile.GetOr<string>(v.lastFile), c.lastCommand.GetOr<string>(v.lastCommand),
      c.turnCount.GetOr<int>(v.turnCount), c.terminal.GetOr<string>(v.terminal),
      c.processCreateTimeMs.GetOr<int>(v.processCreateTimeMs), c.gitBranch.GetOr<string>(v.gitBranch),
      c.userInput.GetOr<string>(v.userInput), c.agentOutput.GetOr<string>(v.agentOutput),
      c.sessionTitle.GetOr<string>(v.sessionTitle), c.lastHookEvent.GetOr<EventName>(v.lastHookEvent),
      c.turns.GetOr<seq<Turn>>(v.turns), c.cpuPercent.GetOr<real>(v.cpuPercent),
      c.memoryMB.GetOr<real>(v.memoryMB))
  }

  /** Apply a notice, or none, to what a client knows. */
  function Patch(v: View, notice: Option<Changes>): View {
    if notice.None? then v else Patched(v, notice.value)
  }

  // ---- comparing timelines ------------------------------------------------------------

  predicate EntryEqual(a: Entry, b: Entry) {
    a.event == b.event && a.ts == b.ts && a.startTs == b.startTs && a.tools == b.tools
  }

  predicate TurnEqual(a: Turn, b: Turn) {
    && a.turnIdx == b.turnIdx && a.userInput == b.userInput && a.userTs == b.userTs
    && |a.entries| == |b.entries|
    && forall j :: 0 <= j < |a.entries| ==> EntryEqual(a.entries[j], b.entries[j])
  }

  /** turnsEqual: every field but the payloads of the entries. */
  predicate TurnsEqual(a: seq<Turn>, b: seq<Turn>) {
    |a| == |b| && forall i :: 0 <= i < |a| ==> TurnEqual(a[i], b[i])
  }

  /** On a timeline that only grew, the comparison without payloads is equality. */
  lemma TurnsEqualIsExact(before: seq<Turn>, after: seq<Turn>)
    requires SessionRuns.TimelineExtends(before, after)
    ensures TurnsEqual(before, after) <==> before == after
  {
    if TurnsEqual(before, after) && before != [] {
      var n := |before| - 1;
      assert TurnEqual(before[n], after[n]);
      assert forall j :: 0 <= j < |before[n].entries| ==> EntryEqual(before[n].entries[j], after[n].entries[j]);
      assert before[n].entries == after[n].entries;
      assert before[n] == after[n];
    }
  }

  // ---- computing the delta --------------------------------------------------------------

  function Changed<T(==)>(before: T, after: T): Option<T> {
    if before == after then None else Some(after)
  }

  /** computeDelta. */
  function ComputeDelta(old': SessionState, new': SessionState): Option<Changes> {
    var changes := Changes(
      Changed(old'.pid, new'.pid), Changed(old'.cwd, new'.cwd), Changed(old'.status, new'.status),
      Changed(old'.lastEventTimeMs, new'.lastEventTimeMs), Changed(old'.lastEventType, new'.lastEventType),
      Changed(old'.lastFile, new'.lastFile), Changed(old'.lastCommand, new'.lastCommand),
      Changed(old'.turnCount, new'.turnCount), Changed(old'.terminal, new'.terminal),
      Changed(old'.processCreateTimeMs, new'.processCreateTimeMs), Changed(old'.gitBranch, new'.gitBranch),
      Changed(old'.userInput, new'.userInput), Changed(old'.agentOutput, new'.agentOutput),
      Changed(old'.sessionTitle, new'.sessionTitle), Changed(old'.lastHookEvent, new'.lastHookEvent),
      if TurnsEqual(old'.turns, new'.turns) then None else Some(new'.turns), None, None);
    if changes == NO_CHANGES then None else Some(changes)
  }

  /**
   * The delta patches every tracked field to its new value, names no field that
   * kept its value, and is left out exactly when there is nothing to tell.
   */
  lemma DeltaIsExactPatch(old': SessionState, new': SessionState)
    requires SessionRuns.TimelineExtends(old'.turns, new'.turns)
    ensures Patch(ViewOf(old'), ComputeDelta(old', new'))
         == ViewOf(new').(cpuPercent := old'.cpuPercent, memoryMB := old'.memoryMB)
    ensures ComputeDelta(old', new').None? <==>
            ViewOf(old') == ViewOf(new').(cpuPercent := old'.cpuPercent, memoryMB := old'.memoryMB)
    ensures ComputeDelta(old', new').Some? ==> NamesOnlyChanges(old', new', ComputeDelta(old', new').value)
  {
    TurnsEqualIsExact(old'.turns, new'.turns);
  }

  predicate NamesOnlyChanges(old': SessionState, new': SessionState, c: Changes) {
    && (c.pid.Some? <==> old'.pid != new'.pid)
    && (c.cwd.Some? <==> old'.cwd != new'.cwd)
    && (c.status.Some? <==> old'.status != new'.status)
    && (c.lastEventTimeMs.Some? <==> old'.lastEventTimeMs != new'.lastEventTimeMs)
    && (c.lastEventType.Some? <==> old'.lastEventType != new'.lastEventType)
    && (c.lastFile.Some? <==> old'.lastFile != new'.lastFile)
    && (c.lastCommand.Some? <==> old'.lastCommand != new'.lastCommand)
    && (c.turnCount.Some? <==> old'.turnCount != new'.turnCount)
    && (c.terminal.Some? <==> old'.terminal != new'.terminal)
    && (c.processCreateTimeMs.Some? <==> old'.processCreateTimeMs != new'.processCreateTimeMs)
    && (c.gitBranch.Some? <==> old'.gitBranch != new'.gitBranch)
    && (c.userInput.Some? <==> old'.userInput != new'.userInput)
    && (c.agentOutput.Some? <==> old'.agentOutput != new'.agentOutput)
    && (c.sessionTitle.Some? <==> old'.sessionTitle != new'.sessionTitle)
    && (c.lastHookEvent.Some? <==> old'.lastHookEvent != new'.lastHookEvent)
    && (c.turns.Some? <==> old'.turns != new'.turns)
    && c.cpuPercent.None? && c.memoryMB.None?
  }

  // ---- what each operation announces ----------------------------------------------------

  /** The delta of HandlePidUpdate. */
  function PidNotice(s: SessionState): Changes {
    NO_CHANGES.(pid := Some(s.pid), cwd := Some(s.cwd), cpuPercent := Some(s.cpuPercent), memoryMB := Some(s.memoryMB))
  }

  /** The delta of MarkDisappeared and CheckIdleSessions. */
  function StatusNotice(s: SessionState): Changes {
    NO_CHANGES.(status := Some(s.status))
  }

  /** The notice an operation on a known session sends. */
  function Notice(s: SessionState, op: Op): Option<Changes> {
    var r := Next(s, op);
    match op
    case PidOp(info, _) => if PidChanged(s, info) then Some(PidNotice(r)) else None
    case GoneOp => if s.status.Stopped? || s.status.Disappeared? then None else Some(StatusNotice(r))
    case IdleOp(now) => if GoesIdle(s, now) then Some(StatusNotice(r)) else None
    case _ => if IsSdk(op) && !s.source.SdkSource? then None else ComputeDelta(s, r)
  }

  lemma NextKeepsMetrics(s: SessionState, op: Op)
    requires !op.PidOp?
    ensures Next(s, op).cpuPercent == s.cpuPercent && Next(s, op).memoryMB == s.memoryMB
  {
  }

  lemma StatusNoticeIsExact(s: SessionState, r: SessionState)
    requires r == s.(status := r.status)
    ensures Patch(ViewOf(s), Some(StatusNotice(r))) == ViewOf(r)
  {
  }

  /** Every notice but that of a process scan brings a client completely up to date. */
  lemma NoticeIsExact(s: SessionState, op: Op)
    requires !op.PidOp?
    ensures Patch(ViewOf(s), Notice(s, op)) == ViewOf(Next(s, op))
  {
    var r := Next(s, op);
    if op.GoneOp? || op.IdleOp? {
      StatusNoticeIsExact(s, r);
    } else {
      NextKeepsMetrics(s, op);
      SessionRuns.NextExtends(s, op);
      DeltaIsExactPatch(s, r);
    }
  }

  /** Does a scan change a field that its notice leaves out? */
  predicate PidNoticeOmits(s: SessionState, info: ProcessInfo) {
    || s.status.Disappeared?
    || (info.name != "" && info.name != s.terminal)
    || (info.createTimeMs > 0 && info.createTimeMs != s.processCreateTimeMs)
  }

  /**
   * The notice of a process scan is an exact patch unless the scan resurrects the
   * session, finds another terminal, or learns the process's creation time.
   */
  lemma PidNoticeExactIff(s: SessionState, info: ProcessInfo, now: int)
    ensures Patch(ViewOf(s), Notice(s, PidOp(info, now))) == ViewOf(Next(s, PidOp(info, now)))
       <==> !PidNoticeOmits(s, info)
  {
  }

  // ---- the fields one by one --------------------------------------------------------------

  datatype Field =
    | Pid | Cwd | StatusField | LastEventTimeMs | LastEventType | LastFile | LastCommand | TurnCount
    | Terminal | ProcessCreateTimeMs | GitBranch | UserInput | AgentOutput | SessionTitle | LastHookEvent
    | Turns | CpuPercent | MemoryMb

  datatype Value =
    | IntV(i: int) | RealV(r: real) | TextV(t: string) | StatusV(status: Status)
    | EventV(event: EventName) | TurnsV(turns: seq<Turn>)

  function Get(v: View, f: Field): Value {
    match f
    case Pid => IntV(v.pid)
    case Cwd => TextV(v.cwd)
    case StatusField => StatusV(v.status)
    case LastEventTimeMs => IntV(v.lastEventTimeMs)
    case LastEventType => EventV(v.lastEventType)
    case LastFile => TextV(v.lastFile)
    case LastCommand => TextV(v.lastCommand)
    case TurnCount => IntV(v.turnCount)
    case Terminal => TextV(v.terminal)
    case ProcessCreateTimeMs => IntV(v.processCreateTimeMs)
    case GitBranch => TextV(v.gitBranch)
    case UserInput => TextV(v.userInput)
    case AgentOutput => TextV(v.agentOutput)
    case SessionTitle => TextV(v.sessionTitle)
    case LastHookEvent => EventV(v.lastHookEvent)
    case Turns => TurnsV(v.turns)
    case CpuPercent => RealV(v.cpuPercent)
    case MemoryMb => RealV(v.memoryMB)
  }

  predicate Names(c: Changes, f: Field) {
    match f
    case Pid => c.pid.Some?
    case Cwd => c.cwd.Some?
    case StatusField => c.status.Some?
    case LastEventTimeMs => c.lastEventTimeMs.Some?
    case LastEventType => c.lastEventType.Some?
    case LastFile => c.lastFile.Some?
    case LastCommand => c.lastCommand.Some?
    case TurnCount => c.turnCount.Some?
    case Terminal => c.terminal.Some?
    case ProcessCreateTimeMs => c.processCreateTimeMs.Some?
    case GitBranch => c.gitBranch.Some?
    case UserInput => c.userInput.Some?
    case AgentOutput => c.agentOutput.Some?
    case SessionTitle => c.sessionTitle.Some?
    case LastHookEvent => c.lastHookEvent.Some?
    case Turns => c.turns.Some?
    case CpuPercent => c.cpuPercent.Some?
    case MemoryMb => c.memoryMB.Some?
  }

  /** The value a delta names for a field. */
  function Carried(c: Changes, f: Field): Value
    requires Names(c, f)
  {
    match f
    case Pid => IntV(c.pid.value)
    case Cwd => TextV(c.cwd.value)
    case StatusField => StatusV(c.status.value)
    case LastEventTimeMs => IntV(c.lastEventTimeMs.value)
    case LastEventType => EventV(c.lastEventType.value)
    case LastFile => TextV(c.lastFile.value)
    case LastCommand => TextV(c.lastCommand.value)
    case TurnCount => IntV(c.turnCount.value)
    case Terminal => TextV(c.terminal.value)
    case ProcessCreateTimeMs => IntV(c.processCreateTimeMs.value)
    case GitBranch => TextV(c.gitBranch.value)
    case UserInput => TextV(c.userInput.value)
    case AgentOutput => TextV(c.agentOutput.value)
    case SessionTitle => TextV(c.sessionTitle.value)
    case LastHookEvent => EventV(c.lastHookEvent.value)
    case Turns => TurnsV(c.turns.value)
    case CpuPercent => RealV(c.cpuPercent.value)
    case MemoryMb => RealV(c.memoryMB.value)
  }

  /** A patched field has the value the changes name, or else its old value. */
  lemma PatchedField(v: View, c: Changes, f: Field)
    ensures Get(Patched(v, c), f) == if Names(c, f) then Carried(c, f) else Get(v, f)
  {
    var p := Patched(v, c);
    if Names(c, f) {
      assert Get(p, f) == Carried(c, f);
    } else {
      assert Get(p, f) == Get(v, f);
    }
  }

  lemma ViewsEqual(v: View, w: View)
    requires forall f :: Get(v, f) == Get(w, f)
    ensures v == w
  {
    assert v.pid == w.pid by { assert Get(v, Pid) == Get(w, Pid); }
    assert v.cwd == w.cwd by { assert Get(v, Cwd) == Get(w, Cwd); }
    assert v.status == w.status by { assert Get(v, StatusField) == Get(w, StatusField); }
    assert v.lastEventTimeMs == w.lastEventTimeMs by { assert Get(v, LastEventTimeMs) == Get(w, LastEventTimeMs); }
    assert v.lastEventType == w.lastEventType by { assert Get(v, LastEventType) == Get(w, LastEventType); }
    assert v.lastFile == w.lastFile by { assert Get(v, LastFile) == Get(w, LastFile); }
    assert v.lastCommand == w.lastCommand by { assert Get(v, LastCommand) == Get(w, LastCommand); }
    assert v.turnCount == w.turnCount by { assert Get(v, TurnCount) == Get(w, TurnCount); }
    assert v.terminal == w.terminal by { assert Get(v, Terminal) == Get(w, Terminal); }
    assert v.processCreateTimeMs == w.processCreateTimeMs by {
      assert Get(v, ProcessCreateTimeMs) == Get(w, ProcessCreateTimeMs);
    }
    assert v.gitBranch == w.gitBranch by { assert Get(v, GitBranch) == Get(w, GitBranch); }
    assert v.userInput == w.userInput by { assert Get(v, UserInput) == Get(w, UserInput); }
    assert v.agentOutput == w.agentOutput by { assert Get(v, AgentOutput) == Get(w, AgentOutput); }
    assert v.sessionTitle == w.sessionTitle by { assert Get(v, SessionTitle) == Get(w, SessionTitle); }
    assert v.lastHookEvent == w.lastHookEvent by { assert Get(v, LastHookEvent) == Get(w, LastHookEvent); }
    assert v.turns == w.turns by { assert Get(v, Turns) == Get(w, Turns); }
    assert v.cpuPercent == w.cpuPercent by { assert Get(v, CpuPercent) == Get(w, CpuPercent); }
    assert v.memoryMB == w.memoryMB by { assert Get(v, MemoryMb) == Get(w, MemoryMb); }
  }

  lemma DeltaCarries(old': SessionState, new': SessionState, f: Field)
    requires ComputeDelta(old', new').Some? && Names(ComputeDelta(old', new').value, f)
    ensures Carried(ComputeDelta(old', new').value, f) == Get(ViewOf(new'), f)
  {
  }

  /** Whatever a notice names, it names with the new value: even the notices that leave something out. */
  lemma NoticeCarries(s: SessionState, op: Op, f: Field)
    requires Notice(s, op).Some? && Names(Notice(s, op).value, f)
    ensures Carried(Notice(s, op).value, f) == Get(ViewOf(Next(s, op)), f)
  {
    hide Next, ComputeDelta, PidChanged, GoesIdle;
    if !op.PidOp? && !op.GoneOp? && !op.IdleOp? {
      DeltaCarries(s, Next(s, op), f);
    }
  }
}
