/**
 * The session record as the source keeps it: an object whose turns, entries and
 * tool lists are edited in place.  `view` is the timeline the cells show.
 */
module SessionHeap {
  import opened Basics
  import opened SessionTypes
  import opened Handlers
  import opened Timeline
  import opened SessionOps
  import D = Deltas

  /** The backing store of one Tools slice. */
  class ToolList {
    ghost const turnNo: nat
    ghost const entryNo: nat
    var items: seq<ToolCall>

    constructor (items: seq<ToolCall>, ghost turnNo: nat, ghost entryNo: nat)
      ensures this.items == items && this.turnNo == turnNo && this.entryNo == entryNo
    {
      this.items := items;
      this.turnNo := turnNo;
      this.entryNo := entryNo;
    }
  }

  /** One cell of an Entries slice; only its tools are ever edited. */
  class EntryCell {
    ghost const turnNo: nat
    ghost const entryNo: nat
    const event: EventName
    const ts: int
    const payload: string
    const startTs: int
    const tools: ToolList

    constructor (e: Entry, tools: ToolList, ghost turnNo: nat, ghost entryNo: nat)
      ensures this.event == e.event && this.ts == e.ts && this.payload == e.payload && this.startTs == e.startTs
      ensures this.tools == tools && this.turnNo == turnNo && this.entryNo == entryNo
    {
      this.event, this.ts, this.payload, this.startTs := e.event, e.ts, e.payload, e.startTs;
      this.tools := tools;
      this.turnNo := turnNo;
      this.entryNo := entryNo;
    }

    /** This cell shows entry e at the given place. */
    ghost predicate Shows(e: Entry, turnNo: nat, entryNo: nat)
      reads tools
    {
      && this.turnNo == tools.turnNo == turnNo && this.entryNo == tools.entryNo == entryNo
      && e == Entry(event, ts, payload, tools.items, startTs)
    }
  }

  /** One cell of the Turns slice; only its list of entries is ever edited. */
  class TurnCell {
    ghost const turnNo: nat
    const turnIdx: int
    const userInput: string
    const userTs: int
    var entries: seq<EntryCell>

    constructor (t: Turn, ghost turnNo: nat)
      ensures this.turnIdx == t.turnIdx && this.userInput == t.userInput && this.userTs == t.userTs
      ensures entries == [] && this.turnNo == turnNo
    {
      turnIdx, userInput, userTs, entries := t.turnIdx, t.userInput, t.userTs, [];
      this.turnNo := turnNo;
    }
  }

  /**
   * A session record.  Its plain fields are one struct value, `info`, whose own
   * timeline is unused: the timeline lives in the cells of `turns`.
   */
  class Session {
    var info: SessionState
    var turns: seq<TurnCell>

    ghost var view: seq<Turn>
    ghost var repr: set<object>

    ghost predicate Valid()
      reads this`turns, this`view, this`repr, repr - {this}
    {
      && this in repr
      && |turns| == |view|
      && (forall i :: 0 <= i < |turns| ==> turns[i] in repr && TurnShown(turns[i], view[i], i))
      && (forall i, j :: 0 <= i < |turns| && 0 <= j < |turns[i].entries| ==>
            && turns[i].entries[j] in repr && turns[i].entries[j].tools in repr
            && turns[i].entries[j].Shows(view[i].entries[j], i, j))
    }

    static ghost predicate TurnShown(cell: TurnCell, t: Turn, i: nat)
      reads cell
    {
      && cell.turnNo == i
      && cell.turnIdx == t.turnIdx && cell.userInput == t.userInput && cell.userTs == t.userTs
      && |cell.entries| == |t.entries|
    }

    /** The record as a value. */
    ghost function State(): SessionState
      reads this`info, this`view
    {
      info.(turns := view)
    }

    /** A record with the given fields and no turns yet. */
    constructor (s: SessionState)
      ensures Valid() && fresh(repr) && info == s && view == []
    {
      info, turns, view, repr := s, [], [], {this};
    }

    /** The cell that every edit of the current turn goes through. */
    function LastTurn(): TurnCell
      requires turns != []
      reads this
    {
      turns[|turns| - 1]
    }

    // ---- edits of single cells -------------------------------------------------------

    method AppendTurn(t: Turn)
      requires Valid() && t.entries == []
      modifies this`turns, this`view, this`repr
      ensures Valid() && fresh(repr - old(repr)) && old(repr) <= repr
      ensures view == old(view) + [t]
    {
      var cell := new TurnCell(t, |turns|);
      turns := turns + [cell];
      view := view + [t];
      repr := repr + {cell};
    }

    static method NewEntryCell(e: Entry, ghost i: nat, ghost j: nat) returns (cell: EntryCell)
      ensures fresh(cell) && fresh(cell.tools) && cell.Shows(e, i, j)
    {
      var list := new ToolList(e.tools, i, j);
      cell := new EntryCell(e, list, i, j);
    }

    method AppendEntry(e: Entry)
      requires Valid() && turns != []
      modifies LastTurn(), this`view, this`repr
      ensures Valid() && fresh(repr - old(repr)) && old(repr) <= repr
      ensures view == WithEntries(old(view), LastEntries(old(view)) + [e])
    {
      ghost var n := |turns| - 1;
      var turn := LastTurn();
      var cell := NewEntryCell(e, n, |turn.entries|);
      assert forall i :: 0 <= i < n ==> turns[i] != turn;
      turn.entries := turn.entries + [cell];
      view := WithEntries(view, LastEntries(view) + [e]);
      repr := repr + {cell, cell.tools};
      assert forall i :: 0 <= i < n ==> turns[i].entries == old(turns[i].entries) && view[i] == old(view)[i];
    }

    /** Writes through the pointer to one tool list of the current turn. */
    method SetTools(i: nat, tools: seq<ToolCall>)
      requires Valid() && turns != [] && i < |LastTurn().entries|
      modifies LastTurn().entries[i].tools, this`view
      ensures Valid()
      ensures view == WithTools(old(view), i, tools)
    {
      LastTurn().entries[i].tools.items := tools;
      view := WithTools(view, i, tools);
    }

    // ---- the timeline edits of the source ----------------------------------------------

    method EnsureTurn()
      requires Valid()
      modifies this`turns, this`view, this`repr
      ensures Valid() && fresh(repr - old(repr)) && old(repr) <= repr
      ensures view == Timeline.EnsureTurn(old(view))
    {
      if |turns| == 0 {
        AppendTurn(Turn(0, "", 0, []));
      }
    }

    method AddEventEntry(ev: HookEvent)
      requires Valid()
      modifies this`turns, this`view, this`repr, repr - {this}
      ensures Valid() && fresh(repr - old(repr)) && old(repr) <= repr
      ensures view == AddEntry(old(view), EventEntry(ev))
    {
      EnsureTurn();
      AppendEntry(EventEntry(ev));
    }

    /** Adds a started tool call to the last group of the current turn, or opens a group. */
    method StartCall(opener: Entry, t: ToolCall)
      requires Valid() && turns != [] && opener.tools == []
      modifies this`view, this`repr, repr - {this}
      ensures Valid() && fresh(repr - old(repr)) && old(repr) <= repr
      ensures view == WithEntries(old(view), StartIn(LastEntries(old(view)), opener, t))
    {
      var turn := LastTurn();
      var group := -1;
      for i := |turn.entries| downto 0
        invariant group == -1
        invariant forall k :: i <= k < |turn.entries| ==> LastEntries(view)[k].tools == []
      {
        if |turn.entries[i].tools.items| > 0 {
          group := i;
          break;
        }
      }
      if group < 0 {
        AppendEntry(opener.(tools := [t]));
      } else {
        SetTools(group, turn.entries[group].tools.items + [t]);
      }
    }

    method AddToolRunning(ev: HookEvent)
      requires Valid()
      modifies this`turns, this`view, this`repr, repr - {this}
      ensures Valid() && fresh(repr - old(repr)) && old(repr) <= repr
      ensures view == EventTurns(old(view), ClassPreTool, ev)
    {
      if ev.facts.toolName == "" {
        return;
      }
      EnsureTurn();
      StartCall(ToolGroupEntry(ev), StartedCall(ev));
    }

    /** The inner loop: the newest tool of one entry that is wanted gets the outcome. */
    method FinishInEntry(i: nat, w: Want, o: Outcome) returns (found: bool)
      requires Valid() && turns != [] && view != [] && i < |LastEntries(view)|
      modifies this`view, repr - {this}
      ensures Valid()
      ensures found <==> HasMatch(LastEntries(old(view))[i], w)
      ensures view == if found then WithTools(old(view), i, FinishTools(LastEntries(old(view))[i].tools, w, o))
                      else old(view)
    {
      var entry := LastTurn().entries[i];
      for j := |entry.tools.items| downto 0
        invariant Valid() && view == old(view) && turns == old(turns)
        invariant forall k :: j <= k < |entry.tools.items| ==> !Matches(entry.tools.items[k], w)
      {
        if Matches(entry.tools.items[j], w) {
          SetTools(i, entry.tools.items[j := Finish(entry.tools.items[j], o)]);
          return true;
        }
      }
      return false;
    }

    /** The nested reverse scan for a running tool; writes the outcome into the first one it meets. */
    method FinishCall(w: Want, o: Outcome) returns (found: bool)
      requires Valid() && turns != []
      modifies this`view, repr - {this}
      ensures Valid()
      ensures view == WithEntries(old(view), FinishIn(LastEntries(old(view)), w, o))
      ensures found <==> LastMatchEntry(LastEntries(old(view)), w) >= 0
    {
      var n := |LastTurn().entries|;
      assert view != [] && n == |LastEntries(view)|;
      hide Valid, WithTools, WithEntries, FinishIn, FinishTools, LastEntries, LastMatchEntry, HasMatch;
      for i := n downto 0
        invariant Valid() && view == old(view)
        invariant forall k :: i <= k < |LastEntries(view)| ==> !HasMatch(LastEntries(view)[k], w)
      {
        found := FinishInEntry(i, w, o);
        if found {
          FinishInAt(old(view), i, w, o);
          return;
        }
      }
      FinishInNone(view, w, o);
      return false;
    }

    method CompleteTool(ev: HookEvent)
      requires Valid()
      modifies this`view, repr - {this}
      ensures Valid()
      ensures view == Timeline.CompleteTool(old(view), WantOf(ev), CompletionOf(ev))
    {
      if |turns| == 0 {
        return;
      }
      var _ := FinishCall(WantOf(ev), CompletionOf(ev));
    }

    method FailTool(ev: HookEvent)
      requires Valid()
      modifies this`turns, this`view, this`repr, repr - {this}
      ensures Valid() && fresh(repr - old(repr)) && old(repr) <= repr
      ensures view == Timeline.FailTool(old(view), ev.facts.toolName, FailureOf(ev), LoneFailureEntry(ev))
    {
      EnsureTurn();
      var found := FinishCall(Named(ev.facts.toolName), FailureOf(ev));
      if !found {
        AppendEntry(LoneFailureEntry(ev));
      }
    }

    /** The timeline part of an event that is not a prompt. */
    method EditTimeline(ev: HookEvent, cls: EventClass)
      requires Valid() && !cls.ClassUserPrompt?
      modifies this`turns, this`view, this`repr, repr - {this}
      ensures Valid() && fresh(repr - old(repr)) && old(repr) <= repr
      ensures view == EventTurns(old(view), cls, ev)
    {
      match cls {
        case ClassPreTool =>
          AddToolRunning(ev);
        case ClassPostTool =>
          CompleteTool(ev);
          AddEventEntry(ev);
        case ClassPostToolFailure =>
          FailTool(ev);
          AddEventEntry(ev);
        case ClassOther =>
          AddEventEntry(ev);
      }
    }

    method BuildTurnEntry(ev: HookEvent, h: Handler)
      requires Valid()
      modifies repr
      ensures Valid() && fresh(repr - old(repr)) && old(repr) <= repr
      ensures State() == SessionOps.BuildTurnEntry(old(State()), h, ev)
    {
      var cls := ClassifyEvent(h, ev, info.lastMessageRole);
      if cls.ClassUserPrompt? {
        if info.webInputActive {
          info := info.(webInputActive := false);
          return;
        }
        if info.sessionTitle == "" && ev.facts.prompt != "" {
          info := info.(sessionTitle := ev.facts.prompt);
        }
        OpenTurn(ev.facts.prompt, ev.timestampMs);
      } else {
        if cls.ClassOther? && info.webInputActive {
          info := info.(webInputActive := false);
        }
        EditTimeline(ev, cls);
      }
    }

    method OnEvent(ev: HookEvent, h: Handler)
      modifies this`info
      ensures State() == Handlers.OnEvent(h, old(State()), ev)
    {
      info := WithTexts(info, EventTexts(h, TextsOf(info), ev));
    }

    method ApplyEvent(ev: HookEvent, h: Handler)
      requires Valid()
      modifies repr
      ensures Valid() && fresh(repr - old(repr)) && old(repr) <= repr
      ensures State() == SessionOps.ApplyEvent(old(State()), h, ev)
    {
      info := info.(lastEventTimeMs := ev.timestampMs, lastEventType := ev.event, lastHookEvent := ev.event,
                    cwd := ev.cwd, pid := ev.pid, lastHookTime := ev.timestampMs, payload := ev.payload);
      BuildTurnEntry(ev, h);
      OnEvent(ev, h);
      if !info.status.Errored? && !info.status.Stopped? && !info.status.Disappeared? {
        info := info.(status := Active);
      }
    }

    /** The part of HandleEvent that a known session goes through. */
    method HandleKnown(ev: HookEvent)
      requires Valid()
      modifies repr
      ensures Valid() && fresh(repr - old(repr)) && old(repr) <= repr
      ensures State() == HookKnown(old(State()), ev)
    {
      var h := GetHandler(ev.agentType);
      var lifecycle := LifecycleStatus(h, ev.event);
      if lifecycle.Some? {
        info := info.(status := lifecycle.value);
      }
      if IsStartEvent(ev.event) {
        info := info.(startTimeMs := ev.timestampMs);
      }
      ApplyEvent(ev, h);
    }

    /** A prompt opens a turn. */
    method OpenTurn(text: string, now: int)
      requires Valid()
      modifies this`info, this`turns, this`view, this`repr
      ensures Valid() && fresh(repr - old(repr)) && old(repr) <= repr
      ensures info == old(info).(turnCount := old(info).turnCount + 1, userInput := text)
      ensures view == NewTurn(old(view), text, now)
    {
      info := info.(turnCount := info.turnCount + 1, userInput := text);
      AppendTurn(Turn(|turns|, text, now, []));
    }

    /** HandleWebInput on the record; it reads the clock twice. */
    method WebPrompt(text: string, now: int, hookNow: int)
      requires Valid()
      modifies repr
      ensures Valid() && fresh(repr - old(repr)) && old(repr) <= repr
      ensures State() == WebPrompted(old(State()), text, now, hookNow)
    {
      info := info.(lastEventTimeMs := now, lastEventType := WebInput, lastHookEvent := WebInput,
                    lastHookTime := hookNow);
      OpenTurn(text, now);
      info := info.(webInputActive := true);
    }

    /** RecordSDKPrompt on the record. */
    method SdkPrompt(text: string, now: int)
      requires Valid()
      modifies repr
      ensures Valid() && fresh(repr - old(repr)) && old(repr) <= repr
      ensures State() == SdkPrompted(old(State()), text, now)
    {
      info := info.(status := Active, lastEventTimeMs := now, lastEventType := SDKPrompt,
                    lastHookEvent := SDKPrompt, lastHookTime := now);
      OpenTurn(text, now);
    }

    /** RecordSDKMessage on the record. */
    method SdkMessage(msg: Message, now: int)
      requires Valid()
      modifies repr
      ensures Valid() && fresh(repr - old(repr)) && old(repr) <= repr
      ensures State() == SdkMessaged(old(State()), msg, now)
    {
      info := info.(lastEventTimeMs := now, lastEventType := SDKMessage, lastHookEvent := SDKMessage,
                    lastHookTime := now, agentOutput := AppendLine(info.agentOutput, msg.content));
      RecordMessage(msg);
    }

    /** setSDKSessionStatus on the record. */
    method SetSdkStatus(status: Status, event: EventName, output: string, now: int)
      modifies this`info
      ensures State() == SdkStatusSet(old(State()), status, event, output, now)
    {
      info := info.(status := status, lastEventTimeMs := now, lastEventType := event, lastHookEvent := event,
                    lastHookTime := now);
      if output != "" {
        info := info.(agentOutput := output);
      }
    }

    /** Process id, directory and terminal, as a scan saw them. */
    method UpdatePlace(p: ProcessInfo) returns (changed: bool)
      modifies this`info
      ensures info == old(info).(pid := p.pid, cwd := FirstNonEmpty(p.cwd, old(info).cwd),
                                 terminal := FirstNonEmpty(p.name, old(info).terminal))
      ensures changed <==> old(info).pid != info.pid || old(info).cwd != info.cwd || old(info).terminal != info.terminal
    {
      changed := info.pid != p.pid;
      info := info.(pid := p.pid);
      if info.cwd != p.cwd && p.cwd != "" {
        info := info.(cwd := p.cwd);
        changed := true;
      }
      if p.name != "" && info.terminal != p.name {
        info := info.(terminal := p.name);
        changed := true;
      }
    }

    /** Processor and memory load, when they moved by more than the tolerance. */
    method UpdateLoad(p: ProcessInfo) returns (changed: bool)
      modifies this`info
      ensures info == old(info).(
                cpuPercent := if Abs(old(info).cpuPercent - p.cpuPercent) > 0.1 then p.cpuPercent
                              else old(info).cpuPercent,
                memoryMB := if Abs(old(info).memoryMB - p.memoryMB) > 0.5 then p.memoryMB else old(info).memoryMB)
      ensures changed <==> Abs(old(info).cpuPercent - p.cpuPercent) > 0.1 || Abs(old(info).memoryMB - p.memoryMB) > 0.5
    {
      changed := false;
      if Abs(info.cpuPercent - p.cpuPercent) > 0.1 {
        info := info.(cpuPercent := p.cpuPercent);
        changed := true;
      }
      if Abs(info.memoryMB - p.memoryMB) > 0.5 {
        info := info.(memoryMB := p.memoryMB);
        changed := true;
      }
    }

    /** The field updates of HandlePidUpdate; says whether anything was worth reporting. */
    method UpdateProcess(p: ProcessInfo, now: int) returns (changed: bool)
      modifies this`info
      ensures State() == PidUpdated(old(State()), p, now)
      ensures changed == PidChanged(old(State()), p)
    {
      var moved := UpdatePlace(p);
      var worked := UpdateLoad(p);
      changed := moved || worked;
      if p.createTimeMs > 0 {
        info := info.(processCreateTimeMs := p.createTimeMs);
      }
      if info.status.Disappeared? {
        info := info.(status := Active, lastHookTime := now);
        changed := true;
      }
    }

    /** recordSDKToolCallOrGenericEntry on the current turn, if there is one. */
    method RecordMessage(msg: Message)
      requires Valid()
      modifies this`view, this`repr, repr - {this}
      ensures Valid() && fresh(repr - old(repr)) && old(repr) <= repr
      ensures view == SdkTurns(old(view), msg, info.lastEventTimeMs)
    {
      if |turns| == 0 {
        return;
      }
      var ts := info.lastEventTimeMs;
      match msg.kind {
        case ToolUseMessage =>
          StartCall(Entry(SDKToolUse, 0, "", [], ts), SdkCall(msg, ts));
        case ToolResultMessage =>
          var found := FinishCall(AnyRunning, Outcome(Completed, msg.content, ts));
          if !found {
            AppendEntry(SdkEntry(msg, ts));
          }
        case OtherMessage =>
          AppendEntry(SdkEntry(msg, ts));
      }
    }

    // ---- copies and comparisons ----------------------------------------------------------

    /** The entries of one turn, as a value. */
    method EntryValues(i: nat) returns (entries: seq<Entry>)
      requires Valid() && i < |turns|
      ensures entries == view[i].entries
    {
      entries := [];
      for j := 0 to |turns[i].entries|
        invariant entries == view[i].entries[..j]
      {
        var e := turns[i].entries[j];
        entries := entries + [Entry(e.event, e.ts, e.payload, e.tools.items, e.startTs)];
      }
    }

    /** The whole timeline, as a value. */
    method TurnValues() returns (values: seq<Turn>)
      requires Valid()
      ensures values == view
    {
      values := [];
      for i := 0 to |turns|
        invariant values == view[..i]
      {
        var entries := EntryValues(i);
        values := values + [Turn(turns[i].turnIdx, turns[i].userInput, turns[i].userTs, entries)];
      }
    }

    /** Appends a copy of turn i of another record, cell by cell. */
    method CopyTurn(from: Session, i: nat)
      requires Valid() && from.Valid() && repr !! from.repr && i < |from.turns|
      modifies this`turns, this`view, this`repr, repr - {this}
      ensures Valid() && fresh(repr - old(repr)) && old(repr) <= repr
      ensures view == old(view) + [from.view[i]]
    {
      var t := from.turns[i];
      ghost var entries := from.view[i].entries;
      AppendTurn(Turn(t.turnIdx, t.userInput, t.userTs, []));
      for j := 0 to |t.entries|
        invariant Valid() && fresh(repr - old(repr)) && old(repr) <= repr
        invariant view == old(view) + [from.view[i].(entries := entries[..j])]
      {
        var e := t.entries[j];
        AppendEntry(Entry(e.event, e.ts, e.payload, e.tools.items, e.startTs));
        assert entries[..j + 1] == entries[..j] + [entries[j]];
      }
      assert entries[..|entries|] == entries;
    }

    /** cloneSession: every cell of the copy is new. */
    method Clone() returns (c: Session)
      requires Valid()
      ensures c.Valid() && fresh(c.repr) && c.State() == State()
    {
      c := new Session(info);
      for i := 0 to |turns|
        invariant c.Valid() && fresh(c.repr)
        invariant c.view == view[..i] && c.info == info
      {
        c.CopyTurn(this, i);
      }
    }
  }

  /** A record built from a value, as the table loader does. */
  method SessionFrom(s: SessionState) returns (c: Session)
    ensures c.Valid() && fresh(c.repr) && c.State() == s
  {
    c := new Session(s);
    for i := 0 to |s.turns|
      invariant c.Valid() && fresh(c.repr)
      invariant c.view == s.turns[..i] && c.info == s
    {
      c.AppendTurn(s.turns[i].(entries := []));
      for j := 0 to |s.turns[i].entries|
        invariant c.Valid() && fresh(c.repr)
        invariant c.view == s.turns[..i] + [s.turns[i].(entries := s.turns[i].entries[..j])] && c.info == s
      {
        c.AppendEntry(s.turns[i].entries[j]);
        assert s.turns[i].entries[..j + 1] == s.turns[i].entries[..j] + [s.turns[i].entries[j]];
      }
      assert s.turns[i].entries[..|s.turns[i].entries|] == s.turns[i].entries;
      assert s.turns[..i + 1] == s.turns[..i] + [s.turns[i]];
    }
    assert s.turns[..|s.turns|] == s.turns;
  }

  // ---- comparing two records ---------------------------------------------------------------

  /** turnsEqual, over the cells of two records. */
  method CompareTurns(a: Session, b: Session) returns (equal: bool)
    requires a.Valid() && b.Valid()
    ensures equal == D.TurnsEqual(a.view, b.view)
  {
    if |a.turns| != |b.turns| {
      return false;
    }
    for i := 0 to |a.turns|
      invariant forall k :: 0 <= k < i ==> D.TurnEqual(a.view[k], b.view[k])
    {
      var t, u := a.turns[i], b.turns[i];
      if t.turnIdx != u.turnIdx || t.userInput != u.userInput || t.userTs != u.userTs
         || |t.entries| != |u.entries| {
        return false;
      }
      for j := 0 to |t.entries|
        invariant forall k :: 0 <= k < j ==> D.EntryEqual(a.view[i].entries[k], b.view[i].entries[k])
      {
        var e, f := t.entries[j], u.entries[j];
        assert e.Shows(a.view[i].entries[j], i, j) && f.Shows(b.view[i].entries[j], i, j);
        if e.event != f.event || e.ts != f.ts || e.startTs != f.startTs || e.tools.items != f.tools.items {
          return false;
        }
      }
    }
    return true;
  }

  /** computeDelta on the clone taken before an operation and the record after it. */
  method DeltaBetween(before: Session, after: Session) returns (delta: Option<D.Changes>)
    requires before.Valid() && after.Valid()
    ensures delta == D.ComputeDelta(before.State(), after.State())
  {
    var equal := CompareTurns(before, after);
    var turns: Option<seq<Turn>> := None;
    if !equal {
      var values := after.TurnValues();
      turns := Some(values);
    }
    var a, b := before.info, after.info;
    var changes := D.Changes(
      D.Changed(a.pid, b.pid), D.Changed(a.cwd, b.cwd), D.Changed(a.status, b.status),
      D.Changed(a.lastEventTimeMs, b.lastEventTimeMs), D.Changed(a.lastEventType, b.lastEventType),
      D.Changed(a.lastFile, b.lastFile), D.Changed(a.lastCommand, b.lastCommand),
      D.Changed(a.turnCount, b.turnCount), D.Changed(a.terminal, b.terminal),
      D.Changed(a.processCreateTimeMs, b.processCreateTimeMs), D.Changed(a.gitBranch, b.gitBranch),
      D.Changed(a.userInput, b.userInput), D.Changed(a.agentOutput, b.agentOutput),
      D.Changed(a.sessionTitle, b.sessionTitle), D.Changed(a.lastHookEvent, b.lastHookEvent), turns, None, None);
    delta := if changes == D.NO_CHANGES then None else Some(changes);
  }

  // ---- clone, edit, compare ----------------------------------------------------------------

  method HookDelta(s: Session, ev: HookEvent) returns (delta: Option<D.Changes>)
    requires s.Valid()
    modifies s.repr
    ensures s.Valid() && fresh(s.repr - old(s.repr)) && s.State() == HookKnown(old(s.State()), ev)
    ensures delta == D.ComputeDelta(old(s.State()), s.State())
  {
    var before := s.Clone();
    s.HandleKnown(ev);
    delta := DeltaBetween(before, s);
  }

  method WebDelta(s: Session, text: string, now: int, hookNow: int) returns (delta: Option<D.Changes>)
    requires s.Valid()
    modifies s.repr
    ensures s.Valid() && fresh(s.repr - old(s.repr)) && s.State() == WebPrompted(old(s.State()), text, now, hookNow)
    ensures delta == D.ComputeDelta(old(s.State()), s.State())
  {
    var before := s.Clone();
    s.WebPrompt(text, now, hookNow);
    delta := DeltaBetween(before, s);
  }

  method SdkPromptDelta(s: Session, text: string, now: int) returns (delta: Option<D.Changes>)
    requires s.Valid()
    modifies s.repr
    ensures s.Valid() && fresh(s.repr - old(s.repr)) && s.State() == SdkPrompted(old(s.State()), text, now)
    ensures delta == D.ComputeDelta(old(s.State()), s.State())
  {
    var before := s.Clone();
    s.SdkPrompt(text, now);
    delta := DeltaBetween(before, s);
  }

  method SdkMessageDelta(s: Session, msg: Message, now: int) returns (delta: Option<D.Changes>)
    requires s.Valid()
    modifies s.repr
    ensures s.Valid() && fresh(s.repr - old(s.repr)) && s.State() == SdkMessaged(old(s.State()), msg, now)
    ensures delta == D.ComputeDelta(old(s.State()), s.State())
  {
    var before := s.Clone();
    s.SdkMessage(msg, now);
    delta := DeltaBetween(before, s);
  }

  method SdkStatusDelta(s: Session, status: Status, event: EventName, output: string, now: int)
      returns (delta: Option<D.Changes>)
    requires s.Valid()
    modifies s.repr
    ensures s.Valid() && fresh(s.repr - old(s.repr))
    ensures s.State() == SdkStatusSet(old(s.State()), status, event, output, now)
    ensures delta == D.ComputeDelta(old(s.State()), s.State())
  {
    var before := s.Clone();
    s.SetSdkStatus(status, event, output, now);
    delta := DeltaBetween(before, s);
  }

  // ---- isolation of the clone -----------------------------------------------------------------

  /** One operation, edited in place; SDK operations skip records of another source. */
  method EditOne(s: Session, op: Op)
    requires s.Valid()
    modifies s.repr
    ensures s.Valid() && fresh(s.repr - old(s.repr)) && s.State() == Next(old(s.State()), op)
  {
    if IsSdk(op) && !s.info.source.SdkSource? {
      return;
    }
    match op
    case HookOp(ev) => s.HandleKnown(ev);
    case WebOp(text, now, hookNow) => s.WebPrompt(text, now, hookNow);
    case SdkPromptOp(text, now) => s.SdkPrompt(text, now);
    case SdkMessageOp(msg, now) => s.SdkMessage(msg, now);
    case SdkStatusOp(status, event, output, now) => s.SetSdkStatus(status, event, output, now);
    case PidOp(info, now) => var _ := s.UpdateProcess(info, now);
    case GoneOp => s.info := MarkedGone(s.info);
    case IdleOp(now) => s.info := IdleChecked(s.info, now);
  }

  /**
   * A clone taken before any sequence of in-place edits, of whatever kind and in
   * whatever order, still shows the record as it was, while the record itself goes
   * through all of them.
   */
  method EditAfterClone(s: Session, ops: seq<Op>) returns (c: Session)
    requires s.Valid()
    modifies s.repr
    ensures c.Valid() && s.Valid() && c.repr !! s.repr && c.State() == old(s.State())
    ensures s.State() == Run(old(s.State()), ops)
  {
    c := s.Clone();
    hide Next, Run;
    RunNothing(s.State());
    for i := 0 to |ops|
      invariant s.Valid() && fresh(s.repr - old(s.repr)) && c.repr !! s.repr
      invariant c.Valid() && c.State() == old(s.State())
      invariant s.State() == Run(old(s.State()), ops[..i])
    {
      EditOne(s, ops[i]);
      RunSnoc(old(s.State()), ops[..i], ops[i]);
      assert ops[..i + 1] == ops[..i] + [ops[i]];
    }
    assert ops[..|ops|] == ops;
  }

  lemma RunNothing(s: SessionState)
    ensures Run(s, []) == s
  {
  }
}
