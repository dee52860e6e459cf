/**
 * Recovery of sessions from transcripts at start-up (internal/session/recovery.go):
 * the first entry of each session in a file makes a candidate, and the first
 * candidate of each session that is not tracked yet makes the session.
 */
module Recovery {
  import opened Basics
  import opened SessionTypes
  import opened Persistence
  import opened Manager

  /** One line of a transcript; an entry without a session id has the id "". */
  datatype Line = Unreadable | Record(sessionId: string, ts: int, details: Details)

  datatype Details = Details(
    cwd: string, event: EventName, lastFile: string, lastCommand: string, turnCount: int, gitBranch: string, pid: int)

  datatype Candidate = Candidate(agentType: string, sessionId: string, startTimeMs: int, details: Details)

  datatype Transcript = Transcript(agentType: string, lines: seq<Line>)

  /** What lies outside: how keys are computed, which process runs a candidate, and the clock at its binding. */
  datatype World = World(
    keyOf: (string, string) -> string, findProcess: Candidate -> Option<ProcessInfo>, clock: Candidate -> int)

  // ---- scanning a file -------------------------------------------------------------------------

  predicate Qualifies(line: Line, cutoff: int) {
    line.Record? && line.sessionId != "" && line.ts >= cutoff
  }

  function CandidateOf(agentType: string, line: Line): Candidate
    requires line.Record?
  {
    Candidate(agentType, line.sessionId, line.ts, line.details)
  }

  predicate HasId(candidates: seq<Candidate>, id: string) {
    exists i :: 0 <= i < |candidates| && candidates[i].sessionId == id
  }

  /** The first qualifying entry of each session id, in order. */
  function Firsts(agentType: string, lines: seq<Line>, cutoff: int): seq<Candidate> {
    if lines == [] then []
    else
      var line, before := lines[|lines| - 1], Firsts(agentType, lines[..|lines| - 1], cutoff);
      if Qualifies(line, cutoff) && !HasId(before, line.sessionId) then before + [CandidateOf(agentType, line)]
      else before
  }

  /** scanTranscriptFile. */
  method ScanTranscriptFile(agentType: string, lines: seq<Line>, cutoff: int) returns (candidates: seq<Candidate>)
    ensures candidates == Firsts(agentType, lines, cutoff)
  {
    candidates := [];
    var seen: set<string> := {};
    for i := 0 to |lines|
      invariant candidates == Firsts(agentType, lines[..i], cutoff)
      invariant forall id :: id in seen <==> HasId(candidates, id)
    {
      assert lines[..i + 1][..i] == lines[..i];
      var line := lines[i];
      if line.Record? && line.sessionId != "" && line.sessionId !in seen && line.ts >= cutoff {
        AddsId(candidates, CandidateOf(agentType, line));
        candidates := candidates + [Candidate(agentType, line.sessionId, line.ts, line.details)];
        seen := seen + {line.sessionId};
      }
    }
    assert lines[..|lines|] == lines;
  }

  lemma AddsId(candidates: seq<Candidate>, c: Candidate)
    ensures forall id :: HasId(candidates + [c], id) <==> id == c.sessionId || HasId(candidates, id)
  {
    forall id
      ensures HasId(candidates + [c], id) <==> id == c.sessionId || HasId(candidates, id)
    {
      assert (candidates + [c])[|candidates|] == c;
      assert forall i :: 0 <= i < |candidates| ==> (candidates + [c])[i] == candidates[i];
    }
  }

  /** scanAllTranscripts: the candidates of all files, in the order the files are walked. */
  function AllCandidates(files: seq<Transcript>, cutoff: int): seq<Candidate> {
    if files == [] then []
    else
      var last := files[|files| - 1];
      AllCandidates(files[..|files| - 1], cutoff) + Firsts(last.agentType, last.lines, cutoff)
  }

  // ---- recovering -----------------------------------------------------------------------------------

  /** The record a candidate becomes. */
  function Recovered(w: World, c: Candidate): SessionState {
    var d := c.details;
    SessionState(
      w.keyOf(c.agentType, c.sessionId), c.agentType, c.sessionId, d.pid, "", d.cwd, 0.0, 0.0, Unknown,
      c.startTimeMs, c.startTimeMs,
      d.event, d.lastFile, d.lastCommand, d.turnCount, d.gitBranch, "", "", "", OtherEvent(""), [], None, NoSource, "",
      0, c.startTimeMs, false, "")
  }

  /** With its process, if one is found. */
  function Restored(w: World, c: Candidate): SessionState {
    match w.findProcess(c)
    case None => Recovered(w, c)
    case Some(p) => Bound(Recovered(w, c), p, w.clock(c))
  }

  function KeyOf(w: World, c: Candidate): string {
    w.keyOf(c.agentType, c.sessionId)
  }

  function Recover(w: World, all: map<string, SessionState>, c: Candidate): map<string, SessionState> {
    if KeyOf(w, c) in all then all else all[KeyOf(w, c) := Restored(w, c)]
  }

  function RecoverAll(w: World, all: map<string, SessionState>, candidates: seq<Candidate>): map<string, SessionState> {
    if candidates == [] then all
    else Recover(w, RecoverAll(w, all, candidates[..|candidates| - 1]), candidates[|candidates| - 1])
  }

  /** A candidate whose session is not tracked yet: its record, and its row. */
  method AddBound(m: SessionManager, w: World, c: Candidate)
    requires m.Valid() && KeyOf(w, c) !in m.sessions
    modifies m`sessions, m`rows
    ensures m.Valid() && m.sessions.Keys == old(m.sessions).Keys + {KeyOf(w, c)}
    ensures forall k :: k in old(m.sessions) ==> m.sessions[k] == old(m.sessions)[k]
    ensures m.State(KeyOf(w, c)) == Restored(w, c)
    ensures m.rows == old(m.rows)[KeyOf(w, c) := ToRow(Restored(w, c))]
  {
    var key := w.keyOf(c.agentType, c.sessionId);
    m.AddRecoveredSession(key, Recovered(w, c));
    hide Recovered, Bound, ToRow, SessionManager.Valid;
    var process := w.findProcess(c);
    if process.Some? {
      m.BindPIDToSession(key, process.value, w.clock(c));
    }
  }

  /** The same, seen on all records. */
  method RecoverOne(m: SessionManager, w: World, c: Candidate, ghost all: map<string, SessionState>)
    requires m.Valid() && m.Shows(all) && KeyOf(w, c) !in m.sessions
    modifies m`sessions, m`rows
    ensures m.Valid() && m.Shows(all[KeyOf(w, c) := Restored(w, c)])
    ensures m.rows == old(m.rows)[KeyOf(w, c) := ToRow(Restored(w, c))]
  {
    hide SessionManager.Valid, Hold, Restored, ToRow;
    ghost var records := m.sessions;
    AddBound(m, w, c);
    m.ShowsMore(records, all, all[KeyOf(w, c) := Restored(w, c)]);
  }

  /** Phase 2 of Run: candidate by candidate, skipping sessions already tracked. */
  method RecoverSessions(m: SessionManager, w: World, candidates: seq<Candidate>,
                         ghost before: map<string, SessionState>)
    requires m.Valid() && m.Shows(before)
    modifies m`sessions, m`rows
    ensures m.Valid() && m.Shows(RecoverAll(w, before, candidates))
    ensures Recorded(before, RecoverAll(w, before, candidates), old(m.rows), m.rows)
  {
    assert m.sessions.Keys <= m.rows.Keys;
    NothingRecorded(before, m.rows);
    hide Recover, Recorded, SessionManager.Valid, SessionManager.Shows;
    for i := 0 to |candidates|
      invariant m.Valid() && m.Shows(RecoverAll(w, before, candidates[..i]))
      invariant Recorded(before, RecoverAll(w, before, candidates[..i]), old(m.rows), m.rows)
    {
      RecoverNext(m, w, candidates[i], before, RecoverAll(w, before, candidates[..i]), old(m.rows));
      assert candidates[..i + 1][..i] == candidates[..i];
    }
    assert candidates[..|candidates|] == candidates;
  }

  /** One turn of the loop. */
  method RecoverNext(m: SessionManager, w: World, c: Candidate, ghost before: map<string, SessionState>,
                     ghost all: map<string, SessionState>, ghost rowsBefore: map<string, Row>)
    requires m.Valid() && m.Shows(all) && Recorded(before, all, rowsBefore, m.rows)
    modifies m`sessions, m`rows
    ensures m.Valid() && m.Shows(Recover(w, all, c)) && Recorded(before, Recover(w, all, c), rowsBefore, m.rows)
  {
    hide Recorded, Restored, ToRow, SessionManager.Valid, Hold;
    if w.keyOf(c.agentType, c.sessionId) !in m.sessions {
      OneRecorded(before, all, rowsBefore, m.rows, KeyOf(w, c), Restored(w, c));
      RecoverOne(m, w, c, all);
    }
  }

  /** New sessions have their rows, and the other rows are as they were. */
  ghost predicate Recorded(before: map<string, SessionState>, after: map<string, SessionState>,
                           rowsBefore: map<string, Row>, rows: map<string, Row>)
  {
    && before.Keys <= after.Keys && rows.Keys == rowsBefore.Keys + after.Keys
    && forall k :: k in rows ==>
         if k in after && k !in before then rows[k] == ToRow(after[k]) else k in rowsBefore && rows[k] == rowsBefore[k]
  }

  lemma NothingRecorded(before: map<string, SessionState>, rows: map<string, Row>)
    requires before.Keys <= rows.Keys
    ensures Recorded(before, before, rows, rows)
  {
  }

  lemma OneRecorded(before: map<string, SessionState>, after: map<string, SessionState>,
                    rowsBefore: map<string, Row>, rows: map<string, Row>, key: string, s: SessionState)
    requires Recorded(before, after, rowsBefore, rows) && key !in after
    ensures Recorded(before, after[key := s], rowsBefore, rows[key := ToRow(s)])
  {
    hide ToRow;
  }

  /** scanAllTranscripts. */
  method ScanAllTranscripts(files: seq<Transcript>, cutoff: int) returns (candidates: seq<Candidate>)
    ensures candidates == AllCandidates(files, cutoff)
  {
    candidates := [];
    for i := 0 to |files|
      invariant candidates == AllCandidates(files[..i], cutoff)
    {
      assert files[..i + 1][..i] == files[..i];
      var found := ScanTranscriptFile(files[i].agentType, files[i].lines, cutoff);
      candidates := candidates + found;
    }
    assert files[..|files|] == files;
  }

  /** Run, over the transcripts in the order they are found. */
  method Run(m: SessionManager, w: World, files: seq<Transcript>, cutoff: int, ghost before: map<string, SessionState>)
    requires m.Valid() && m.Shows(before)
    modifies m`sessions, m`rows
    ensures m.Valid() && m.Shows(RecoverAll(w, before, AllCandidates(files, cutoff)))
    ensures Recorded(before, RecoverAll(w, before, AllCandidates(files, cutoff)), old(m.rows), m.rows)
  {
    var candidates := ScanAllTranscripts(files, cutoff);
    RecoverSessions(m, w, candidates, before);
  }

  // ---- what is recovered ------------------------------------------------------------------------------

  /** The record of a session that only its transcript knows. */
  lemma RecoveredRecord(w: World, c: Candidate)
    requires w.findProcess(c).None?
    ensures Restored(w, c) == SessionState(
              sessionKey := w.keyOf(c.agentType, c.sessionId), agentType := c.agentType, agentSessionId := c.sessionId,
              pid := c.details.pid, terminal := "", cwd := c.details.cwd, memoryMB := 0.0, cpuPercent := 0.0,
              status := Unknown, startTimeMs := c.startTimeMs, lastEventTimeMs := c.startTimeMs,
              lastEventType := c.details.event, lastFile := c.details.lastFile, lastCommand := c.details.lastCommand,
              turnCount := c.details.turnCount, gitBranch := c.details.gitBranch, userInput := "", agentOutput := "",
              sessionTitle := "", lastHookEvent := OtherEvent(""), turns := [], storyId := None, source := NoSource,
              payload := "", processCreateTimeMs := 0, lastHookTime := c.startTimeMs, webInputActive := false,
              lastMessageRole := "")
  {
  }

  /** A process found for it makes it active, with the process's data. */
  lemma RecoveredWithProcess(w: World, c: Candidate)
    requires w.findProcess(c).Some?
    ensures var p, r := w.findProcess(c).value, Restored(w.(findProcess := _ => None), c);
            Restored(w, c) == r.(pid := p.pid, terminal := p.name, cwd := p.cwd, cpuPercent := p.cpuPercent,
                                 memoryMB := p.memoryMB, processCreateTimeMs := p.createTimeMs, status := Active,
                                 lastHookTime := w.clock(c))
  {
  }

  /** The first candidate with a key. */
  function FirstWith(w: World, candidates: seq<Candidate>, key: string): Option<Candidate> {
    if candidates == [] then None
    else
      var before := FirstWith(w, candidates[..|candidates| - 1], key);
      var c := candidates[|candidates| - 1];
      if before.Some? then before else if KeyOf(w, c) == key then Some(c) else None
  }

  /** Tracked sessions are not touched; of the others exactly those with a candidate appear, made from the first. */
  lemma {:induction false} FirstCandidateWins(w: World, all: map<string, SessionState>, candidates: seq<Candidate>,
                                              key: string)
    ensures key in all ==> key in RecoverAll(w, all, candidates) && RecoverAll(w, all, candidates)[key] == all[key]
    ensures key !in all ==> (key in RecoverAll(w, all, candidates) <==> FirstWith(w, candidates, key).Some?)
    ensures key !in all && FirstWith(w, candidates, key).Some? ==>
              RecoverAll(w, all, candidates)[key] == Restored(w, FirstWith(w, candidates, key).value)
  {
    hide Restored;
    if candidates != [] {
      FirstCandidateWins(w, all, candidates[..|candidates| - 1], key);
    }
  }

  /** All qualifying entries of a file, repeated sessions included. */
  function Entries(agentType: string, lines: seq<Line>, cutoff: int): seq<Candidate> {
    if lines == [] then []
    else
      var line, before := lines[|lines| - 1], Entries(agentType, lines[..|lines| - 1], cutoff);
      if Qualifies(line, cutoff) then before + [CandidateOf(agentType, line)] else before
  }

  function AllEntries(files: seq<Transcript>, cutoff: int): seq<Candidate> {
    if files == [] then []
    else
      var last := files[|files| - 1];
      AllEntries(files[..|files| - 1], cutoff) + Entries(last.agentType, last.lines, cutoff)
  }

  lemma {:induction false} FirstWithConcat(w: World, a: seq<Candidate>, b: seq<Candidate>, key: string)
    ensures FirstWith(w, a + b, key)
            == if FirstWith(w, a, key).Some? then FirstWith(w, a, key) else FirstWith(w, b, key)
  {
    if b == [] {
      assert a + b == a;
    } else {
      assert (a + b)[..|a + b| - 1] == a + b[..|b| - 1];
      FirstWithConcat(w, a, b[..|b| - 1], key);
    }
  }

  lemma {:induction false} IdHasKey(w: World, agentType: string, lines: seq<Line>, cutoff: int, id: string)
    requires HasId(Firsts(agentType, lines, cutoff), id)
    ensures FirstWith(w, Firsts(agentType, lines, cutoff), w.keyOf(agentType, id)).Some?
  {
    var line, rest := lines[|lines| - 1], lines[..|lines| - 1];
    if HasId(Firsts(agentType, rest, cutoff), id) {
      IdHasKey(w, agentType, rest, cutoff, id);
    } else {
      AddsId(Firsts(agentType, rest, cutoff), CandidateOf(agentType, line));
    }
    if Qualifies(line, cutoff) {
      FirstWithConcat(w, Firsts(agentType, rest, cutoff), [CandidateOf(agentType, line)], w.keyOf(agentType, id));
    }
  }

  /** Dropping repeats within a file never changes which entry comes first. */
  lemma {:induction false} FirstsKeepFirst(w: World, agentType: string, lines: seq<Line>, cutoff: int, key: string)
    ensures FirstWith(w, Firsts(agentType, lines, cutoff), key) == FirstWith(w, Entries(agentType, lines, cutoff), key)
  {
    if lines != [] {
      var line, rest := lines[|lines| - 1], lines[..|lines| - 1];
      FirstsKeepFirst(w, agentType, rest, cutoff, key);
      if Qualifies(line, cutoff) {
        var c := CandidateOf(agentType, line);
        FirstWithConcat(w, Entries(agentType, rest, cutoff), [c], key);
        if HasId(Firsts(agentType, rest, cutoff), line.sessionId) {
          IdHasKey(w, agentType, rest, cutoff, line.sessionId);
        } else {
          FirstWithConcat(w, Firsts(agentType, rest, cutoff), [c], key);
        }
      }
    }
  }

  lemma {:induction false} AllFirstsKeepFirst(w: World, files: seq<Transcript>, cutoff: int, key: string)
    ensures FirstWith(w, AllCandidates(files, cutoff), key) == FirstWith(w, AllEntries(files, cutoff), key)
  {
    if files != [] {
      var file, rest := files[|files| - 1], files[..|files| - 1];
      AllFirstsKeepFirst(w, rest, cutoff, key);
      FirstsKeepFirst(w, file.agentType, file.lines, cutoff, key);
      FirstWithConcat(w, AllCandidates(rest, cutoff), Firsts(file.agentType, file.lines, cutoff), key);
      FirstWithConcat(w, AllEntries(rest, cutoff), Entries(file.agentType, file.lines, cutoff), key);
    }
  }

  /**
   * Recovery gives each untracked session the data of its first qualifying entry,
   * across all lines of all files, and leaves tracked sessions alone.
   */
  lemma FirstEntryWins(w: World, all: map<string, SessionState>, files: seq<Transcript>, cutoff: int, key: string)
    ensures var r := RecoverAll(w, all, AllCandidates(files, cutoff));
            && (key in all ==> key in r && r[key] == all[key])
            && (key !in all ==> (key in r <==> FirstWith(w, AllEntries(files, cutoff), key).Some?))
            && (key !in all && key in r ==> r[key] == Restored(w, FirstWith(w, AllEntries(files, cutoff), key).value))
  {
    hide Restored, RecoverAll, FirstWith;
    FirstCandidateWins(w, all, AllCandidates(files, cutoff), key);
    AllFirstsKeepFirst(w, files, cutoff, key);
  }
}
