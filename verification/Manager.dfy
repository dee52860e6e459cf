/**
 * The session manager (internal/session/manager.go): the map of live records, the
 * table behind it, and everything it hands to its notify callback.
 */
module Manager {
  import opened Basics
  import opened SessionTypes
  import opened Handlers
  import opened SessionOps
  import opened Persistence
  import opened Books
  import D = Deltas
  import H = SessionHeap

  /** scanner.SessionPIDInfo. */
  datatype PidInfo = PidInfo(sessionKey: string, pid: int, agentType: string, cwd: string)

  function PidInfoOf(s: SessionState): PidInfo {
    PidInfo(s.sessionKey, s.pid, s.agentType, s.cwd)
  }

  /** The record HandleEvent makes of the first event of a session. */
  function FirstState(key: string, ev: HookEvent, story: Option<int>): SessionState {
    ApplyEvent(FreshSession(key, ev), GetHandler(ev.agentType), ev).(storyId := story)
  }

  /** What the first event of a session announces: the tree, if a story was put into it, and the session. */
  function FirstNotes(key: string, s: SessionState, treeChanged: bool): seq<Notification> {
    (if treeChanged then [HierarchyNote] else []) + [AddedNote(key, D.ViewOf(s))]
  }

  /** A session bound to the process found for it. */
  function Bound(s: SessionState, p: ProcessInfo, now: int): SessionState {
    s.(pid := p.pid, terminal := p.name, cwd := p.cwd, cpuPercent := p.cpuPercent, memoryMB := p.memoryMB,
       processCreateTimeMs := p.createTimeMs, status := Active, lastHookTime := now)
  }

  /** The row after a scan update. */
  function ScannedRow(row: Row, s: SessionState, gone: bool, changed: bool): Row {
    var base := if gone then ToRow(s) else row;
    if changed && !s.status.Active? then base.(proc := ProcOf(s)) else base
  }

  lemma ScanIsStep(row: Row, s: SessionState, p: ProcessInfo, now: int)
    ensures Next(s, PidOp(p, now)) == PidUpdated(s, p, now)
    ensures StoreStep(row, s, PidOp(p, now))
            == ScannedRow(row, PidUpdated(s, p, now), s.status.Disappeared?, PidChanged(s, p))
    ensures NoteFor(s.sessionKey, D.Notice(s, PidOp(p, now)))
         == if PidChanged(s, p) then [DeltaNote(s.sessionKey, D.PidNotice(PidUpdated(s, p, now)))] else []
  {
    hide PidUpdated, PidChanged;
  }

  /**
   * For hook events, web prompts and SDK operations, writing the whole row and
   * announcing the difference is the step of the operation.
   */
  lemma DiffIsStep(row: Row, s: SessionState, op: Op)
    requires op.HookOp? || op.WebOp? || (IsSdk(op) && s.source.SdkSource?)
    ensures StoreStep(row, s, op) == ToRow(Next(s, op)) && D.Notice(s, op) == D.ComputeDelta(s, Next(s, op))
    ensures match op
            case HookOp(ev) => Next(s, op) == HookKnown(s, ev)
            case WebOp(text, now, hookNow) => Next(s, op) == WebPrompted(s, text, now, hookNow)
            case SdkPromptOp(text, now) => Next(s, op) == SdkPrompted(s, text, now)
            case SdkMessageOp(msg, now) => Next(s, op) == SdkMessaged(s, msg, now)
            case SdkStatusOp(status, event, output, now) => Next(s, op) == SdkStatusSet(s, status, event, output, now)
            case _ => true
  {
    hide HookKnown, WebPrompted, SdkPrompted, SdkMessaged, SdkStatusSet, ToRow, D.ComputeDelta;
  }

  /** Do these records have these values? */
  ghost predicate Hold(records: map<string, H.Session>, all: map<string, SessionState>)
    reads set k | k in records :: records[k]
    ensures Hold(records, all) ==> all.Keys == records.Keys
  {
    all.Keys == records.Keys && forall k :: k in records ==> records[k].State() == all[k]
  }

  class SessionManager {
    var sessions: map<string, H.Session>
    var rows: map<string, Row>
    var log: seq<Notification>
    var pendingInputs: map<string, string>

    /** All objects that make up the records. */
    ghost function Cells(): set<object>
      reads this`sessions, set k | k in sessions :: sessions[k]`repr
    {
      set k, o | k in sessions && o in sessions[k].repr :: o
    }

    ghost predicate Valid()
      reads this`sessions, this`rows, set k | k in sessions :: sessions[k], Cells()
    {
      && sessions.Keys <= rows.Keys
      && (forall k :: k in sessions ==>
            sessions[k].Valid() && sessions[k].info.sessionKey == k && this !in sessions[k].repr)
      && (forall k, l :: k in sessions && l in sessions && k != l ==> sessions[k].repr !! sessions[l].repr)
    }

    /** The record of a session, as a value. */
    ghost function State(key: string): SessionState
      requires key in sessions
      reads this`sessions, sessions[key]
    {
      sessions[key].State()
    }

    constructor ()
      ensures Valid() && sessions == map[] && rows == map[] && log == [] && pendingInputs == map[]
    {
      sessions, rows, log, pendingInputs := map[], map[], [], map[];
    }

    // ---- the table and the callback -------------------------------------------------------

    method Upsert(key: string)
      requires key in sessions && sessions[key].Valid()
      modifies this`rows
      ensures rows == old(rows)[key := ToRow(State(key))]
    {
      var turns := sessions[key].TurnValues();
      rows := rows[key := ToRow(sessions[key].info.(turns := turns))];
    }

    method UpdateProcessFields(key: string)
      requires key in sessions && key in rows
      modifies this`rows
      ensures rows == old(rows)[key := old(rows)[key].(proc := ProcOf(State(key)))]
    {
      rows := rows[key := rows[key].(proc := ProcOf(sessions[key].info))];
    }

    /** The tail of every operation that diffs against a clone: write the row, send the difference. */
    method Publish(key: string, delta: Option<D.Changes>)
      requires key in sessions && sessions[key].Valid()
      modifies this`rows, this`log
      ensures rows == old(rows)[key := ToRow(State(key))]
      ensures log == old(log) + NoteFor(key, delta)
    {
      Upsert(key);
      if delta.Some? {
        log := log + [DeltaNote(key, delta.value)];
      }
    }

    /** Editing one record within its own cells keeps the manager valid. */
    twostate lemma EditKeepsValid(key: string)
      requires old(Valid()) && key in old(sessions) && sessions == old(sessions) && rows.Keys >= old(rows).Keys
      requires sessions[key].Valid() && sessions[key].info.sessionKey == key
      requires fresh(sessions[key].repr - old(sessions[key].repr))
      requires forall k, o :: k in sessions && k != key && o in old(sessions[k].repr) ==> unchanged(o)
      ensures Valid()
    {
    }

    /** One known session took one step; the table and the callback followed. */
    twostate predicate Performed(key: string, op: Op)
      requires old(key in sessions && key in rows) && key in sessions
      reads this`sessions, this`rows, this`log, sessions[key]
    {
      && State(key) == Next(old(State(key)), op)
      && rows == old(rows)[key := StoreStep(old(rows[key]), old(State(key)), op)]
      && log == old(log) + NoteFor(key, D.Notice(old(State(key)), op))
    }

    // ---- operations on known sessions --------------------------------------------------------

    /** RecordSDKPrompt. */
    method RecordSDKPrompt(key: string, text: string, now: int) returns (ok: bool)
      requires Valid()
      modifies this`rows, this`log, if key in sessions then sessions[key].repr else {}
      ensures Valid() && sessions == old(sessions)
      ensures ok <==> key in sessions && old(sessions[key].info.source).SdkSource?
      ensures key in sessions ==> Performed(key, SdkPromptOp(text, now))
      ensures !ok ==> rows == old(rows) && log == old(log)
    {
      if key !in sessions || !sessions[key].info.source.SdkSource? {
        return false;
      }
      DiffIsStep(rows[key], State(key), SdkPromptOp(text, now));
      hide Next, StoreStep, D.Notice, D.ComputeDelta, ToRow;
      var delta := H.SdkPromptDelta(sessions[key], text, now);
      Publish(key, delta);
      EditKeepsValid(key);
      return true;
    }

    /** RecordSDKMessage. */
    method RecordSDKMessage(key: string, msg: Message, now: int) returns (ok: bool)
      requires Valid()
      modifies this`rows, this`log, if key in sessions then sessions[key].repr else {}
      ensures Valid() && sessions == old(sessions)
      ensures ok <==> key in sessions && old(sessions[key].info.source).SdkSource?
      ensures key in sessions ==> Performed(key, SdkMessageOp(msg, now))
      ensures !ok ==> rows == old(rows) && log == old(log)
    {
      if key !in sessions || !sessions[key].info.source.SdkSource? {
        return false;
      }
      DiffIsStep(rows[key], State(key), SdkMessageOp(msg, now));
      hide Next, StoreStep, D.Notice, D.ComputeDelta, ToRow;
      var delta := H.SdkMessageDelta(sessions[key], msg, now);
      Publish(key, delta);
      EditKeepsValid(key);
      return true;
    }

    /** setSDKSessionStatus, behind MarkSDKSessionIdle, MarkSDKSessionStopped and MarkSDKSessionError. */
    method SetSDKSessionStatus(key: string, status: Status, event: EventName, output: string, now: int)
        returns (ok: bool)
      requires Valid()
      modifies this`rows, this`log, if key in sessions then sessions[key].repr else {}
      ensures Valid() && sessions == old(sessions)
      ensures ok <==> key in sessions && old(sessions[key].info.source).SdkSource?
      ensures key in sessions ==> Performed(key, SdkStatusOp(status, event, output, now))
      ensures !ok ==> rows == old(rows) && log == old(log)
    {
      if key !in sessions || !sessions[key].info.source.SdkSource? {
        return false;
      }
      DiffIsStep(rows[key], State(key), SdkStatusOp(status, event, output, now));
      hide Next, StoreStep, D.Notice, D.ComputeDelta, ToRow;
      var delta := H.SdkStatusDelta(sessions[key], status, event, output, now);
      Publish(key, delta);
      EditKeepsValid(key);
      return true;
    }

    method RecordWebInput(key: string, text: string, now: int, hookNow: int)
      requires Valid() && key in sessions
      modifies this`rows, this`log, sessions[key].repr
      ensures Valid() && sessions == old(sessions) && Performed(key, WebOp(text, now, hookNow))
    {
      DiffIsStep(rows[key], State(key), WebOp(text, now, hookNow));
      hide Next, StoreStep, D.Notice, D.ComputeDelta, ToRow, WebPrompted;
      var delta := H.WebDelta(sessions[key], text, now, hookNow);
      Publish(key, delta);
      EditKeepsValid(key);
    }

    /** HandleWebInput. */
    method HandleWebInput(key: string, text: string, now: int, hookNow: int) returns (ok: bool)
      requires Valid()
      modifies this`rows, this`log, this`pendingInputs, if key in sessions then sessions[key].repr else {}
      ensures Valid() && sessions == old(sessions)
      ensures ok <==> key in sessions
      ensures ok ==> Performed(key, WebOp(text, now, hookNow))
      ensures ok ==> pendingInputs == InboxStep(old(pendingInputs), Prompt(key, text))
      ensures !ok ==> rows == old(rows) && log == old(log) && pendingInputs == old(pendingInputs)
    {
      if key !in sessions {
        return false;
      }
      RecordWebInput(key, text, now, hookNow);
      pendingInputs := pendingInputs[key := text];
      return true;
    }

    /** GetPendingInput hands a web prompt out once. */
    method GetPendingInput(key: string) returns (text: string)
      modifies this`pendingInputs
      ensures text == Handed(old(pendingInputs), key)
      ensures pendingInputs == InboxStep(old(pendingInputs), Poll(key))
    {
      text := if key in pendingInputs then pendingInputs[key] else "";
      pendingInputs := pendingInputs - {key};
    }

    /** The writes and the notice of HandlePidUpdate, once the record has been updated. */
    method ReportProcess(key: string, gone: bool, changed: bool)
      requires key in sessions && key in rows && sessions[key].Valid()
      modifies this`rows, this`log
      ensures rows == old(rows)[key := ScannedRow(old(rows[key]), State(key), gone, changed)]
      ensures log == old(log) + if changed then [DeltaNote(key, D.PidNotice(State(key)))] else []
    {
      if gone {
        Upsert(key);
      }
      if changed {
        if !sessions[key].info.status.Active? {
          UpdateProcessFields(key);
        }
        log := log + [DeltaNote(key, D.PidNotice(sessions[key].info))];
      }
    }

    /** HandlePidUpdate. */
    method HandlePidUpdate(key: string, p: ProcessInfo, now: int)
      requires Valid()
      modifies this`rows, this`log, if key in sessions then {sessions[key]} else {}
      ensures Valid() && sessions == old(sessions)
      ensures key in sessions ==> Performed(key, PidOp(p, now))
      ensures key !in sessions ==> rows == old(rows) && log == old(log)
    {
      if key !in sessions {
        return;
      }
      var sess := sessions[key];
      var gone := sess.info.status.Disappeared?;
      ScanIsStep(rows[key], State(key), p, now);
      hide PidUpdated, PidChanged, ScannedRow, StoreStep, Next, D.Notice, D.PidNotice;
      var changed := sess.UpdateProcess(p, now);
      ReportProcess(key, gone, changed);
      EditKeepsValid(key);
    }

    /** The shared tail of MarkDisappeared and CheckIdleSessions. */
    method SetStatus(key: string, status: Status)
      requires Valid() && key in sessions
      modifies this`rows, this`log, sessions[key]
      ensures Valid() && sessions == old(sessions)
      ensures State(key) == old(State(key)).(status := status) && sessions[key].repr == old(sessions[key].repr)
      ensures rows == old(rows)[key := ToRow(State(key))]
      ensures log == old(log) + [DeltaNote(key, D.StatusNotice(State(key)))]
    {
      sessions[key].info := sessions[key].info.(status := status);
      Upsert(key);
      log := log + [DeltaNote(key, D.StatusNotice(sessions[key].info))];
      EditKeepsValid(key);
    }

    /** BindPIDToSession. */
    method BindPIDToSession(key: string, p: ProcessInfo, now: int)
      requires Valid()
      modifies this`rows, if key in sessions then {sessions[key]} else {}
      ensures Valid() && sessions == old(sessions)
      ensures key in sessions ==>
                State(key) == Bound(old(State(key)), p, now) && rows == old(rows)[key := ToRow(State(key))]
      ensures key !in sessions ==> rows == old(rows)
    {
      if key !in sessions {
        return;
      }
      var sess := sessions[key];
      sess.info := sess.info.(
        pid := p.pid, terminal := p.name, cwd := p.cwd, cpuPercent := p.cpuPercent, memoryMB := p.memoryMB,
        processCreateTimeMs := p.createTimeMs, status := Active, lastHookTime := now);
      Upsert(key);
      EditKeepsValid(key);
    }

    /** MarkDisappeared. */
    method MarkDisappeared(key: string)
      requires Valid()
      modifies this`rows, this`log, if key in sessions then {sessions[key]} else {}
      ensures Valid() && sessions == old(sessions)
      ensures key in sessions ==> Performed(key, GoneOp)
      ensures key !in sessions ==> rows == old(rows) && log == old(log)
    {
      if key !in sessions || sessions[key].info.status.Stopped? || sessions[key].info.status.Disappeared? {
        return;
      }
      SetStatus(key, Disappeared);
    }

    // ---- new sessions ---------------------------------------------------------------------------

    /** Puts a record whose cells are its own into the map. */
    method Adopt(key: string, sess: H.Session)
      requires Valid() && key !in sessions && key in rows
      requires sess.Valid() && sess.info.sessionKey == key && sess.repr !! Cells() && this !in sess.repr
      modifies this`sessions
      ensures Valid() && sessions == old(sessions)[key := sess]
    {
      sessions := sessions[key := sess];
    }

    /** Adopts a record and writes its row. */
    method Insert(key: string, sess: H.Session)
      requires Valid() && key !in sessions
      requires sess.Valid() && sess.info.sessionKey == key && sess.repr !! Cells() && this !in sess.repr
      modifies this`sessions, this`rows
      ensures Valid() && sess.Valid() && sessions == old(sessions)[key := sess]
      ensures rows == old(rows)[key := ToRow(sess.State())]
    {
      var turns := sess.TurnValues();
      rows := rows[key := ToRow(sess.info.(turns := turns))];
      Adopt(key, sess);
    }

    method HandleKnownEvent(key: string, ev: HookEvent)
      requires Valid() && key in sessions
      modifies this`rows, this`log, sessions[key].repr
      ensures Valid() && sessions == old(sessions) && Performed(key, HookOp(ev))
    {
      DiffIsStep(rows[key], State(key), HookOp(ev));
      hide Next, StoreStep, D.Notice, D.ComputeDelta, ToRow;
      var delta := H.HookDelta(sessions[key], ev);
      Publish(key, delta);
      EditKeepsValid(key);
    }

    /** Sends a new record to the callback, after the tree if that changed with it. */
    method Announce(key: string, treeChanged: bool)
      requires key in sessions && sessions[key].Valid()
      modifies this`log
      ensures log == old(log) + FirstNotes(key, State(key), treeChanged)
    {
      var turns := sessions[key].TurnValues();
      var notes := if treeChanged then [HierarchyNote] else [];
      log := log + (notes + [AddedNote(key, D.ViewOf(sessions[key].info.(turns := turns)))]);
    }

    method InsertAndAnnounce(key: string, sess: H.Session, treeChanged: bool)
      requires Valid() && key !in sessions
      requires sess.Valid() && sess.info.sessionKey == key && sess.repr !! Cells() && this !in sess.repr
      modifies this`sessions, this`rows, this`log
      ensures Valid() && sessions == old(sessions)[key := sess]
      ensures rows == old(rows)[key := ToRow(sess.State())]
      ensures log == old(log) + FirstNotes(key, sess.State(), treeChanged)
    {
      hide H.Session.Valid, H.Session.State, FirstNotes, ToRow;
      Insert(key, sess);
      Announce(key, treeChanged);
    }

    static method NewRecord(key: string, ev: HookEvent, story: Option<int>) returns (sess: H.Session)
      ensures sess.Valid() && fresh(sess.repr) && sess.State() == FirstState(key, ev, story)
      ensures sess.info.sessionKey == key
    {
      sess := new H.Session(FreshSession(key, ev));
      sess.ApplyEvent(ev, GetHandler(ev.agentType));
      sess.info := sess.info.(storyId := story);
    }

    /** `treeRead` says whether the hierarchy could be read after the story was assigned. */
    method HandleFirstEvent(key: string, ev: HookEvent, story: Option<int>, treeRead: bool)
      requires Valid() && key !in sessions
      modifies this`sessions, this`rows, this`log
      ensures Valid() && sessions.Keys == old(sessions).Keys + {key}
      ensures forall k :: k in old(sessions) ==> sessions[k] == old(sessions)[k]
      ensures State(key) == FirstState(key, ev, story)
      ensures rows == old(rows)[key := ToRow(State(key))]
      ensures log == old(log) + FirstNotes(key, FirstState(key, ev, story), story.Some? && treeRead)
    {
      hide FirstState, FirstNotes, ToRow;
      var sess := NewRecord(key, ev, story);
      InsertAndAnnounce(key, sess, story.Some? && treeRead);
    }

    /** HandleEvent; `story` is the story the hierarchy store assigned to a new session, if any. */
    method HandleEvent(key: string, ev: HookEvent, story: Option<int>, treeRead: bool)
      requires Valid()
      modifies this`sessions, this`rows, this`log, if key in sessions then sessions[key].repr else {}
      ensures Valid()
      ensures key in old(sessions) ==> sessions == old(sessions) && Performed(key, HookOp(ev))
      ensures key !in old(sessions) && IsTerminalEvent(GetHandler(ev.agentType), ev.event) ==>
                sessions == old(sessions) && rows == old(rows) && log == old(log)
      ensures key !in old(sessions) && !IsTerminalEvent(GetHandler(ev.agentType), ev.event) ==>
                && sessions.Keys == old(sessions).Keys + {key}
                && (forall k :: k in old(sessions) ==> sessions[k] == old(sessions)[k])
                && State(key) == FirstState(key, ev, story)
                && rows == old(rows)[key := ToRow(State(key))]
                && log == old(log) + FirstNotes(key, State(key), story.Some? && treeRead)
    {
      hide FirstState, FirstNotes, ToRow, IsTerminalEvent;
      if key in sessions {
        HandleKnownEvent(key, ev);
      } else if !IsTerminalEvent(GetHandler(ev.agentType), ev.event) {
        HandleFirstEvent(key, ev, story, treeRead);
      }
    }

    /** AddRecoveredSession: sessions already known are left alone. */
    method AddRecoveredSession(key: string, s: SessionState)
      requires Valid() && s.sessionKey == key
      modifies this`sessions, this`rows
      ensures Valid()
      ensures key in old(sessions) ==> sessions == old(sessions) && rows == old(rows)
      ensures key !in old(sessions) ==>
                && sessions.Keys == old(sessions).Keys + {key}
                && (forall k :: k in old(sessions) ==> sessions[k] == old(sessions)[k])
                && State(key) == s && rows == old(rows)[key := ToRow(s)] && fresh(sessions[key])
    {
      if key in sessions {
        return;
      }
      var sess := H.SessionFrom(s);
      Insert(key, sess);
    }

    method LoadRow(key: string)
      requires Valid() && key in rows && key !in sessions && rows[key].sessionKey == key
      modifies this`sessions
      ensures Valid() && sessions.Keys == old(sessions).Keys + {key}
      ensures forall k :: k in old(sessions) ==> sessions[k] == old(sessions)[k]
      ensures fresh(sessions[key]) && State(key) == FromRow(rows[key])
    {
      var sess := H.SessionFrom(FromRow(rows[key]));
      Adopt(key, sess);
    }

    /** The first loop of LoadFromStore. */
    method LoadRows()
      requires Valid() && forall k :: k in rows ==> rows[k].sessionKey == k
      modifies this`sessions
      ensures Valid() && sessions.Keys == rows.Keys
      ensures forall k :: k in old(sessions) ==> sessions[k] == old(sessions)[k]
      ensures forall k :: k in rows && k !in old(sessions) ==> fresh(sessions[k]) && State(k) == FromRow(rows[k])
    {
      assert sessions.Keys <= rows.Keys;
      hide FromRow, Valid;
      var todo := rows.Keys - sessions.Keys;
      while todo != {}
        invariant Valid() && todo == rows.Keys - sessions.Keys && sessions.Keys <= rows.Keys
        invariant old(sessions).Keys <= sessions.Keys
        invariant forall k :: k in old(sessions) ==> sessions[k] == old(sessions)[k]
        invariant forall k :: k in sessions && k !in old(sessions) ==>
                    fresh(sessions[k]) && State(k) == FromRow(rows[k])
        decreases todo
      {
        var key :| key in todo;
        LoadRow(key);
        todo := todo - {key};
      }
      assert forall k :: k in rows ==> k !in rows.Keys - sessions.Keys;
    }

    // ---- operations on all sessions ---------------------------------------------------------------

    /** The records themselves, without their cells. */
    ghost function Records(): set<object>
      reads this`sessions
    {
      set k | k in sessions :: sessions[k]
    }

    /** Does the map hold all records, as values? */
    ghost predicate Shows(all: map<string, SessionState>)
      reads this`sessions, Records()
      ensures Shows(all) ==> all.Keys == sessions.Keys
    {
      Hold(sessions, all)
    }

    lemma ShowsUpdate(all: map<string, SessionState>, key: string, r: SessionState)
      requires all.Keys == sessions.Keys && key in sessions && State(key) == r
      requires forall k :: k in sessions && k != key ==> State(k) == all[k]
      ensures Shows(all[key := r])
    {
    }

    /** Records that were there before still have their values, and the others the values given. */
    lemma ShowsMore(records: map<string, H.Session>, before: map<string, SessionState>, all: map<string, SessionState>)
      requires Hold(records, before) && records.Keys <= sessions.Keys == all.Keys
      requires forall k :: k in records ==> sessions[k] == records[k] && all[k] == before[k]
      requires forall k :: k in sessions && k !in records ==> State(k) == all[k]
      ensures Shows(all)
    {
    }

    /** Do the records, the rows and the notifications make up the book? */
    ghost predicate Keeps(b: Book)
      reads this`sessions, this`rows, this`log, Records()
      ensures Keeps(b) ==> b.all.Keys == sessions.Keys && b.rows == rows && b.log == log
    {
      Shows(b.all) && rows == b.rows && log == b.log
    }

    lemma Apart(b: Book, key: string)
      requires Valid() && Keeps(b) && key in sessions
      ensures sessions.Keys <= rows.Keys
      ensures forall k :: k in sessions ==> State(k) == b.all[k]
      ensures forall k :: k in sessions && k != key ==> sessions[k] != sessions[key]
    {
    }

    lemma KeepsDeed(b: Book, key: string, op: Op)
      requires b.all.Keys == sessions.Keys && key in sessions && key in b.rows
      requires State(key) == Next(b.all[key], op) && forall k :: k in sessions && k != key ==> State(k) == b.all[k]
      requires rows == b.rows[key := StoreStep(b.rows[key], b.all[key], op)]
      requires log == b.log + NoteFor(key, D.Notice(b.all[key], op))
      ensures Keeps(Do(b, Deed(key, op)))
    {
      hide Next, StoreStep, D.Notice, NoteFor;
      ShowsUpdate(b.all, key, Next(b.all[key], op));
    }

    /** CheckIdleSessions, in any order of the map: every session is checked once. */
    method CheckIdleSessions(now: int, ghost b: Book) returns (ghost trace: seq<Deed>)
      requires Valid() && Keeps(b)
      modifies this`rows, this`log, Records()
      ensures Valid() && sessions == old(sessions)
      ensures Covers(b, trace) && Keeps(DoAll(b, trace)) && OnceEach(trace, b.all.Keys, {}, IdleOp(now))
    {
      assert sessions.Keys <= rows.Keys;
      hide Valid, Keeps, Do, DoAll, OnceEach, Covers;
      trace := [];
      var todo := sessions.Keys;
      NothingDone(b, IdleOp(now));
      while todo != {}
        invariant Valid() && sessions == old(sessions) && todo <= sessions.Keys
        invariant Covers(b, trace) && Keeps(DoAll(b, trace)) && OnceEach(trace, sessions.Keys, todo, IdleOp(now))
        decreases todo
      {
        var key :| key in todo;
        OneMore(trace, sessions.Keys, todo, IdleOp(now), key);
        DoAllSnoc(b, trace, Deed(key, IdleOp(now)));
        CheckIdle(key, now, DoAll(b, trace));
        trace := trace + [Deed(key, IdleOp(now))];
        todo := todo - {key};
      }
    }

    /** One turn of the idle loop, seen on the whole book. */
    method CheckIdle(key: string, now: int, ghost b: Book)
      requires Valid() && Keeps(b) && key in sessions
      modifies this`rows, this`log, sessions[key]
      ensures Valid() && sessions == old(sessions) && Keeps(Do(b, Deed(key, IdleOp(now))))
    {
      hide Valid, Keeps, Next, StoreStep, D.Notice, NoteFor, Do;
      Apart(b, key);
      CheckIdleRecord(key, now);
      KeepsDeed(b, key, IdleOp(now));
    }

    method CheckIdleRecord(key: string, now: int)
      requires Valid() && key in sessions
      modifies this`rows, this`log, sessions[key]
      ensures Valid() && sessions == old(sessions) && Performed(key, IdleOp(now))
    {
      var sess := sessions[key];
      if !sess.info.status.Active? && !sess.info.status.Idle? {
        return;
      }
      if sess.info.lastHookTime == 0 {
        return;
      }
      if now - sess.info.lastHookTime > IDLE_THRESHOLD {
        if !sess.info.status.Idle? {
          SetStatus(key, Idle);
        }
      }
    }

    /** One turn of the second loop of LoadFromStore: a session without a story gets the hierarchy's, if it has one. */
    method LinkStory(key: string, story: Option<int>)
      requires Valid() && key in sessions
      modifies this`rows, sessions[key]
      ensures Valid() && sessions == old(sessions) && State(key) == Linked(old(State(key)), story)
      ensures forall k :: k in sessions && k != key ==> State(k) == old(State(k))
      ensures rows == old(rows)[key := LinkedRow(old(rows[key]), old(State(key)), story)]
    {
      var sess := sessions[key];
      if sess.info.storyId.None? && sess.info.agentType != "" && sess.info.agentSessionId != "" && story.Some? {
        sess.info := sess.info.(storyId := story);
        Upsert(key);
        EditKeepsValid(key);
      }
    }

    /** The second loop of LoadFromStore, in any order of the map. */
    method LinkStories(assign: string -> Option<int>, ghost before: map<string, SessionState>)
        returns (ghost after: map<string, SessionState>)
      requires Valid() && Shows(before)
      modifies this`rows, Records()
      ensures Valid() && sessions == old(sessions) && Shows(after)
      ensures AllLinked(before, old(rows), after, rows, {}, assign)
    {
      assert sessions.Keys <= rows.Keys;
      hide AllLinked, Linked, LinkedRow, Valid, Shows;
      after := before;
      var todo := sessions.Keys;
      LinkingStarts(before, rows, assign);
      while todo != {}
        invariant Valid() && sessions == old(sessions) && todo <= sessions.Keys
        invariant Shows(after) && AllLinked(before, old(rows), after, rows, todo, assign)
        decreases todo
      {
        var key :| key in todo;
        LinkingStep(before, old(rows), after, rows, todo, assign, key);
        LinkShown(key, assign(key), after);
        after := after[key := Linked(after[key], assign(key))];
        todo := todo - {key};
      }
    }

    method LinkShown(key: string, story: Option<int>, ghost all: map<string, SessionState>)
      requires Valid() && key in sessions && Shows(all)
      modifies this`rows, sessions[key]
      ensures Valid() && sessions == old(sessions) && Shows(all[key := Linked(all[key], story)])
      ensures rows == old(rows)[key := LinkedRow(old(rows[key]), all[key], story)]
    {
      assert forall k :: k in sessions ==> State(k) == all[k];
      hide Linked, LinkedRow, Shows, Valid;
      ghost var r := Linked(State(key), story);
      LinkStory(key, story);
      ShowsUpdate(all, key, r);
    }

    /**
     * LoadFromStore, into a manager that may already hold sessions: rows without a
     * session become one, and then every session without a story is linked.
     */
    method LoadFromStore(assign: string -> Option<int>, ghost before: map<string, SessionState>)
        returns (ghost after: map<string, SessionState>)
      requires Valid() && Shows(before) && forall k :: k in rows ==> rows[k].sessionKey == k
      modifies this`sessions, this`rows, Records()
      ensures Valid() && Shows(after)
      ensures AllLinked(Loaded(before, old(rows)), old(rows), after, rows, {}, assign)
    {
      hide AllLinked, Valid, Shows, FromRow;
      ghost var all := LoadShown(before);
      after := LinkStories(assign, all);
    }

    method LoadShown(ghost before: map<string, SessionState>) returns (ghost all: map<string, SessionState>)
      requires Valid() && Shows(before) && forall k :: k in rows ==> rows[k].sessionKey == k
      modifies this`sessions
      ensures Valid() && Shows(all) && all == Loaded(before, rows)
      ensures forall k :: k in sessions ==> sessions[k] in old(Records()) || fresh(sessions[k])
    {
      assert before.Keys <= rows.Keys;
      hide FromRow, Valid, Hold;
      ghost var records := sessions;
      LoadRows();
      all := Loaded(before, rows);
      ShowsMore(records, before, all);
    }

    /** GetKnownPIDs, in any order of the map: of several sessions with one PID, any may win. */
    method GetKnownPIDs() returns (known: map<int, PidInfo>)
      requires Valid()
      ensures forall p :: p in known ==>
                && p > 0 && known[p].sessionKey in sessions
                && known[p] == PidInfoOf(State(known[p].sessionKey)) && known[p].pid == p
      ensures forall k :: k in sessions && State(k).pid > 0 ==> State(k).pid in known
    {
      known := map[];
      var todo := sessions.Keys;
      while todo != {}
        invariant todo <= sessions.Keys
        invariant forall p :: p in known ==>
                    && p > 0 && known[p].sessionKey in sessions
                    && known[p] == PidInfoOf(State(known[p].sessionKey)) && known[p].pid == p
        invariant forall k :: k in sessions && k !in todo && State(k).pid > 0 ==> State(k).pid in known
        decreases todo
      {
        var key :| key in todo;
        var s := sessions[key].info;
        if s.pid > 0 {
          known := known[s.pid := PidInfo(s.sessionKey, s.pid, s.agentType, s.cwd)];
        }
        todo := todo - {key};
      }
    }
  }

  /** Each of the sessions outside `todo` was given this operation once, and nothing else happened. */
  ghost predicate OnceEach(trace: seq<Deed>, keys: set<string>, todo: set<string>, op: Op) {
    && (forall i :: 0 <= i < |trace| ==> trace[i].key in keys && trace[i].op == op)
    && forall k :: OpsOf(trace, k) == if k in keys && k !in todo then [op] else []
  }

  lemma NothingDone(b: Book, op: Op)
    requires b.all.Keys <= b.rows.Keys
    ensures Covers(b, []) && DoAll(b, []) == b && OnceEach([], b.all.Keys, b.all.Keys, op)
  {
  }

  lemma OneMore(trace: seq<Deed>, keys: set<string>, todo: set<string>, op: Op, key: string)
    requires key in keys && key in todo && OnceEach(trace, keys, todo, op)
    ensures OnceEach(trace + [Deed(key, op)], keys, todo - {key}, op)
  {
    hide OpsOf;
    forall k
      ensures OpsOf(trace + [Deed(key, op)], k) == if k in keys && k !in todo - {key} then [op] else []
    {
      OpsOfSnoc(trace, Deed(key, op), k);
      assert OpsOf(trace, k) + [] == OpsOf(trace, k);
    }
  }

  // ---- loading ------------------------------------------------------------------------------------

  /** The records after the rows were read: those already there, and the others from their rows. */
  function Loaded(before: map<string, SessionState>, rows: map<string, Row>): map<string, SessionState> {
    map k | k in rows :: if k in before then before[k] else FromRow(rows[k])
  }

  predicate NeedsStory(s: SessionState) {
    s.storyId.None? && s.agentType != "" && s.agentSessionId != ""
  }

  /** A session the hierarchy was asked about; None is no answer. */
  function Linked(s: SessionState, story: Option<int>): SessionState {
    if NeedsStory(s) && story.Some? then s.(storyId := story) else s
  }

  function LinkedRow(row: Row, s: SessionState, story: Option<int>): Row {
    if NeedsStory(s) && story.Some? then ToRow(Linked(s, story)) else row
  }

  /** Outside `todo`, every session has been linked, and written if that changed it. */
  ghost predicate AllLinked(before: map<string, SessionState>, rowsBefore: map<string, Row>,
                            after: map<string, SessionState>, rows: map<string, Row>,
                            todo: set<string>, assign: string -> Option<int>)
  {
    && after.Keys == before.Keys && rows.Keys == rowsBefore.Keys && before.Keys <= rows.Keys
    && (forall k :: k in before ==> after[k] == if k in todo then before[k] else Linked(before[k], assign(k)))
    && (forall k :: k in rows ==>
          rows[k] == if k in before && k !in todo then LinkedRow(rowsBefore[k], before[k], assign(k))
                     else rowsBefore[k])
  }

  lemma LinkingStarts(states: map<string, SessionState>, rows: map<string, Row>, assign: string -> Option<int>)
    requires states.Keys <= rows.Keys
    ensures AllLinked(states, rows, states, rows, states.Keys, assign)
  {
  }

  lemma LinkingStep(before: map<string, SessionState>, rowsBefore: map<string, Row>,
                    after: map<string, SessionState>, rows: map<string, Row>,
                    todo: set<string>, assign: string -> Option<int>, key: string)
    requires key in todo && key in before && AllLinked(before, rowsBefore, after, rows, todo, assign)
    ensures key in rows && key in after && after[key] == before[key]
    ensures AllLinked(before, rowsBefore, after[key := Linked(after[key], assign(key))],
                      rows[key := LinkedRow(rows[key], after[key], assign(key))], todo - {key}, assign)
  {
    hide Linked, LinkedRow;
  }

  /** A session is linked if it has no story yet, is an agent's, and a story was found; then its row is rewritten. */
  lemma LinkedIff(row: Row, s: SessionState, story: Option<int>)
    ensures var linked := s.(storyId := story);
            if s.storyId == None && s.agentType != "" && s.agentSessionId != "" && story != None
            then Linked(s, story) == linked && LinkedRow(row, s, story) == ToRow(linked)
            else Linked(s, story) == s && LinkedRow(row, s, story) == row
  {
  }

  /** What a new session announces. */
  lemma FirstNoted(key: string, s: SessionState, treeChanged: bool)
    ensures FirstNotes(key, s, treeChanged)
            == if treeChanged then [HierarchyNote, AddedNote(key, D.ViewOf(s))] else [AddedNote(key, D.ViewOf(s))]
  {
  }

  // ---- prompts waiting for an agent ------------------------------------------------------------------

  datatype InboxOp = Prompt(key: string, text: string) | Poll(key: string)

  function InboxStep(pending: map<string, string>, op: InboxOp): map<string, string> {
    match op
    case Prompt(key, text) => pending[key := text]
    case Poll(key) => pending - {key}
  }

  function Handed(pending: map<string, string>, key: string): string {
    if key in pending then pending[key] else ""
  }

  function RunInbox(pending: map<string, string>, ops: seq<InboxOp>): map<string, string> {
    if ops == [] then pending else InboxStep(RunInbox(pending, ops[..|ops| - 1]), ops[|ops| - 1])
  }

  /** The newest prompt for a session, unless it was polled since. */
  function Waiting(ops: seq<InboxOp>, key: string): string {
    if ops == [] then ""
    else
      var op := ops[|ops| - 1];
      if op.key != key then Waiting(ops[..|ops| - 1], key) else if op.Prompt? then op.text else ""
  }

  /**
   * Over any run of prompts and polls, a poll is handed the newest prompt for its
   * session since the last poll, and so each prompt at most once.
   */
  lemma {:induction false} PromptsAreHandedOutOnce(ops: seq<InboxOp>, key: string)
    ensures Handed(RunInbox(map[], ops), key) == Waiting(ops, key)
    ensures Handed(RunInbox(map[], ops + [Poll(key)]), key) == ""
  {
    assert (ops + [Poll(key)])[..|ops|] == ops;
    if ops != [] {
      PromptsAreHandedOutOnce(ops[..|ops| - 1], key);
    }
  }
}
