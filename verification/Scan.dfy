/**
 * One scan of the process table (internal/scanner/scanner.go) on the session manager:
 * the loops take processes, known pids and matches in any order, and do what the
 * walk they took says (see ScanOrder).
 */
module Scan {
  import opened Basics
  import opened SessionTypes
  import opened SessionOps
  import opened Books
  import opened Manager
  import opened Persistence
  import opened ScanOrder
  import D = Deltas

  /** The inner loop of round B: any session in the same place. */
  method FindSession(known: map<int, PidInfo>, info: ProcessInfo) returns (found: Option<int>)
    ensures found.Some? ==> found.value in known && SamePlace(known[found.value], info)
    ensures found.None? ==> forall p :: p in known ==> !SamePlace(known[p], info)
  {
    var rest := known.Keys;
    while exists p :: p in rest
      invariant rest <= known.Keys
      invariant forall p :: p in known && p !in rest ==> !SamePlace(known[p], info)
      decreases rest
    {
      var p :| p in rest;
      if EqualFold(known[p].agentType, info.matchedType) && known[p].cwd == info.cwd && known[p].cwd != "" {
        return Some(p);
      }
      rest := rest - {p};
    }
    return None;
  }

  /** The inner loop of phase 4: any process in the same place. */
  method FindProcess(known: PidInfo, procs: map<int, ProcessInfo>) returns (found: Option<int>)
    ensures found.Some? ==> found.value in procs && SamePlace(known, procs[found.value])
    ensures found.None? <==> !HasMatch(known, procs)
  {
    var rest := procs.Keys;
    while exists q :: q in rest
      invariant rest <= procs.Keys
      invariant forall q :: q in procs && q !in rest ==> !SamePlace(known, procs[q])
      decreases rest
    {
      var q :| q in rest;
      if EqualFold(known.agentType, procs[q].matchedType) && known.cwd != "" && known.cwd == procs[q].cwd {
        return Some(q);
      }
      rest := rest - {q};
    }
    return None;
  }

  /** HandlePidUpdate, seen on the whole book; the clock is read inside. */
  method Update(m: SessionManager, key: string, info: ProcessInfo, ghost b: Book) returns (ghost op: Op)
    requires m.Valid() && m.Keeps(b) && key in m.sessions
    modifies m`rows, m`log, m.sessions[key]
    ensures m.Valid() && m.sessions == old(m.sessions)
    ensures op.PidOp? && op.info == info && key in b.all && key in b.rows && m.Keeps(Do(b, Deed(key, op)))
  {
    hide Next, D.Notice, NoteFor, StoreStep, Do, SessionManager.Valid, SessionManager.Keeps;
    var now := *;
    op := PidOp(info, now);
    m.Apart(b, key);
    m.HandlePidUpdate(key, info, now);
    m.KeepsDeed(b, key, op);
  }

  /** MarkDisappeared, seen on the whole book. */
  method MarkGone(m: SessionManager, key: string, ghost b: Book)
    requires m.Valid() && m.Keeps(b) && key in m.sessions
    modifies m`rows, m`log, m.sessions[key]
    ensures m.Valid() && m.sessions == old(m.sessions)
    ensures key in b.all && key in b.rows && m.Keeps(Do(b, Deed(key, GoneOp)))
  {
    hide Next, D.Notice, NoteFor, StoreStep, Do, SessionManager.Valid, SessionManager.Keeps, SessionManager.Performed;
    m.Apart(b, key);
    m.MarkDisappeared(key);
    m.KeepsDeed(b, key, GoneOp);
  }

  /** The session that a process belongs to: the one known under its pid, or else one in the same place. */
  method FindOwner(ghost sc: Scanning, known: map<int, PidInfo>, q: int, info: ProcessInfo) returns (owner: Option<int>)
    requires sc.known == known && q in sc.procs && sc.procs[q] == info
    ensures sc.LegalOwner(q, owner)
  {
    if q in known {
      return Some(q);
    }
    owner := FindSession(known, info);
  }

  /** What the manager keeps in the course of a scan: the book as it was, after the trace so far. */
  ghost predicate Scanned(m: SessionManager, sc: Scanning, b: Book, trace: seq<Deed>)
    reads m`sessions, m`rows, m`log, m.Records()
  {
    && b.all == sc.before && sc.before.Keys == m.sessions.Keys && sc.Valid()
    && Covers(b, trace) && m.Keeps(DoAll(b, trace))
  }

  /** An update that the trace tells. */
  method UpdateTraced(m: SessionManager, key: string, info: ProcessInfo, ghost sc: Scanning, ghost b: Book,
                      ghost trace: seq<Deed>)
      returns (ghost now: int)
    requires m.Valid() && Scanned(m, sc, b, trace) && key in sc.before
    modifies m`rows, m`log, m.Records()
    ensures m.Valid() && m.sessions == old(m.sessions)
    ensures Scanned(m, sc, b, trace + [Deed(key, PidOp(info, now))])
  {
    hide SessionManager.Valid, SessionManager.Keeps, Scanning.Valid, Do, DoAll;
    ghost var op := Update(m, key, info, DoAll(b, trace));
    now := op.now;
    DoAllSnoc(b, trace, Deed(key, op));
  }

  /** One process of phase 3. */
  method MatchProcess(m: SessionManager, q: int, known: map<int, PidInfo>, info: ProcessInfo,
                      ghost sc: Scanning, ghost b: Book, ghost trace: seq<Deed>)
      returns (ghost v: Visit)
    requires m.Valid() && Scanned(m, sc, b, trace)
    requires sc.known == known && q in sc.procs && sc.procs[q] == info
    modifies m`rows, m`log, m.Records()
    ensures m.Valid() && m.sessions == old(m.sessions) && v.pid == q && sc.LegalOwner(q, v.choice)
    ensures Scanned(m, sc, b, trace + sc.MatchDeeds(v))
  {
    hide Scanned, SamePlace;
    var owner := FindOwner(sc, known, q, info);
    v := MatchOwner(m, q, owner, known, info, sc, b, trace);
  }

  method MatchOwner(m: SessionManager, q: int, owner: Option<int>, known: map<int, PidInfo>, info: ProcessInfo,
                    ghost sc: Scanning, ghost b: Book, ghost trace: seq<Deed>)
      returns (ghost v: Visit)
    requires m.Valid() && Scanned(m, sc, b, trace)
    requires sc.known == known && q in sc.procs && sc.procs[q] == info && sc.LegalOwner(q, owner)
    modifies m`rows, m`log, m.Records()
    ensures m.Valid() && m.sessions == old(m.sessions) && v.pid == q && v.choice == owner
    ensures Scanned(m, sc, b, trace + sc.MatchDeeds(v))
  {
    hide SessionManager.Valid, SessionManager.Keeps, SamePlace, DoAll, Covers;
    v := Visit(q, owner, 0);
    if owner.Some? {
      var key := known[owner.value].sessionKey;
      assert key in sc.before;
      hide Scanned, Scanning.Valid;
      ghost var now := UpdateTraced(m, key, info, sc, b, trace);
      v := Visit(q, owner, now);
    } else {
      assert trace + [] == trace;
    }
  }

  lemma PidsFit(m: SessionManager, sc: Scanning, b: Book)
    requires Scanned(m, sc, b, [])
    ensures forall q :: q in sc.procs ==> ToInt32(q) == q
  {
  }

  /** Phase 3, in any order of the processes. */
  method MatchProcesses(m: SessionManager, known: map<int, PidInfo>, procs: map<int, ProcessInfo>,
                        ghost sc: Scanning, ghost b: Book)
      returns (seen: set<int>, ghost visits: seq<Visit>)
    requires m.Valid() && Scanned(m, sc, b, []) && sc.known == known && sc.procs == procs
    modifies m`rows, m`log, m.Records()
    ensures m.Valid() && m.sessions == old(m.sessions)
    ensures seen == procs.Keys && sc.Matches(visits, seen) && Scanned(m, sc, b, sc.MatchTrace(visits))
  {
    hide *;
    seen, visits := {}, [];
    PidsFit(m, sc, b);
    NothingVisited(sc);
    var todo := procs.Keys;
    while exists q :: q in todo
      invariant todo <= procs.Keys && seen == procs.Keys - todo
      invariant m.Valid() && m.sessions == old(m.sessions)
      invariant sc.Matches(visits, seen) && Scanned(m, sc, b, sc.MatchTrace(visits))
      decreases todo
    {
      var q :| q in todo;
      ghost var v := MatchProcess(m, q, known, procs[q], sc, b, sc.MatchTrace(visits));
      MatchesSnoc(sc, visits, seen, v);
      visits := visits + [v];
      seen := seen + {ToInt32(q)};
      todo := todo - {q};
    }
  }

  /** One known session of phase 4. */
  method JudgeSession(m: SessionManager, known: map<int, PidInfo>, procs: map<int, ProcessInfo>, seen: set<int>, p: int,
                      ghost sc: Scanning, ghost b: Book, ghost trace: seq<Deed>)
      returns (ghost v: Visit)
    requires m.Valid() && Scanned(m, sc, b, trace)
    requires sc.known == known && sc.procs == procs && seen == procs.Keys && p in known
    modifies m`rows, m`log, m.Records()
    ensures m.Valid() && m.sessions == old(m.sessions) && v.pid == p && sc.LegalFound(p, v.choice)
    ensures Scanned(m, sc, b, trace + sc.JudgeDeeds(v))
  {
    hide Scanned, SamePlace, HasMatch, ToInt32;
    v := Visit(p, None, 0);
    if ToInt32(p) in seen {
      assert trace + [] == trace;
      return;
    }
    var found := FindProcess(known[p], procs);
    v := JudgeUnseen(m, known, procs, found, p, sc, b, trace);
  }

  method JudgeUnseen(m: SessionManager, known: map<int, PidInfo>, procs: map<int, ProcessInfo>, found: Option<int>,
                     p: int, ghost sc: Scanning, ghost b: Book, ghost trace: seq<Deed>)
      returns (ghost v: Visit)
    requires m.Valid() && Scanned(m, sc, b, trace)
    requires sc.known == known && sc.procs == procs && ToInt32(p) !in procs && p in known
    requires sc.LegalFound(p, found)
    modifies m`rows, m`log, m.Records()
    ensures m.Valid() && m.sessions == old(m.sessions) && v.pid == p && v.choice == found
    ensures Scanned(m, sc, b, trace + sc.JudgeDeeds(v))
  {
    var key := known[p].sessionKey;
    assert key in sc.before;
    hide SessionManager.Valid, SessionManager.Keeps, Scanning.Valid, SamePlace, HasMatch, ToInt32, Do, DoAll;
    if found.Some? {
      ghost var now := UpdateTraced(m, key, procs[found.value], sc, b, trace);
      v := Visit(p, found, now);
    } else {
      MarkGone(m, key, DoAll(b, trace));
      DoAllSnoc(b, trace, Deed(key, GoneOp));
      v := Visit(p, None, 0);
    }
  }

  /** Phase 4, in any order of the known pids. */
  method JudgeSessions(m: SessionManager, known: map<int, PidInfo>, procs: map<int, ProcessInfo>, seen: set<int>,
                       ghost sc: Scanning, ghost b: Book, ghost matches: seq<Visit>)
      returns (ghost visits: seq<Visit>)
    requires m.Valid() && Scanned(m, sc, b, sc.MatchTrace(matches))
    requires sc.known == known && sc.procs == procs && seen == procs.Keys
    modifies m`rows, m`log, m.Records()
    ensures m.Valid() && m.sessions == old(m.sessions)
    ensures sc.Judges(visits, known.Keys) && Scanned(m, sc, b, sc.Trace(Walk(matches, visits)))
  {
    hide SessionManager.Valid, Scanned, Scanning.Judges, Scanning.JudgeDeeds, Scanning.LegalFound, Scanning.Trace,
         Scanning.MatchTrace;
    visits := [];
    NothingVisited(sc);
    TraceStarts(sc, matches);
    var todo := known.Keys;
    ghost var judged := {};
    while exists p :: p in todo
      invariant todo <= known.Keys && judged == known.Keys - todo
      invariant m.Valid() && m.sessions == old(m.sessions)
      invariant sc.Judges(visits, judged) && Scanned(m, sc, b, sc.Trace(Walk(matches, visits)))
      decreases todo
    {
      var p :| p in todo;
      ghost var v := JudgeSession(m, known, procs, seen, p, sc, b, sc.Trace(Walk(matches, visits)));
      TraceSnoc(sc, matches, visits, v);
      JudgesSnoc(sc, visits, judged, v);
      visits := visits + [v];
      judged := judged + {p};
      todo := todo - {p};
    }
    assert judged == known.Keys;
  }

  /** Phases 3 and 4, and the idle checks after them. */
  method ScanProcesses(m: SessionManager, known: map<int, PidInfo>, procs: map<int, ProcessInfo>, now: int,
                       ghost sc: Scanning, ghost b: Book)
      returns (ghost w: Walk, ghost checks: seq<Deed>)
    requires m.Valid() && Scanned(m, sc, b, []) && sc.known == known && sc.procs == procs
    modifies m`rows, m`log, m.Records()
    ensures m.Valid() && m.sessions == old(m.sessions) && sc.Possible(w)
    ensures OnceEach(checks, b.all.Keys, {}, IdleOp(now))
    ensures Covers(b, sc.Trace(w) + checks) && m.Keeps(DoAll(b, sc.Trace(w) + checks))
  {
    hide SessionManager.Valid, SessionManager.Keeps, Scanning.Valid, Scanning.Matches, Scanning.Judges,
         Scanning.MatchTrace, Scanning.Trace, DoAll, Covers, OnceEach;
    var seen;
    ghost var matches;
    seen, matches := MatchProcesses(m, known, procs, sc, b);
    ghost var judges := JudgeSessions(m, known, procs, seen, sc, b, matches);
    w := Walk(matches, judges);
    checks := m.CheckIdleSessions(now, DoAll(b, sc.Trace(w)));
    CoversSame(b, DoAll(b, sc.Trace(w)), checks);
    DoAllConcat(b, sc.Trace(w), checks);
  }

  /**
   * One scan.  `observed` is None when the process table cannot be read; the pids of
   * agent processes fit 32 bits.  `w` is the walk that phases 3 and 4 took, and
   * `checks` are the idle checks after them.
   */
  method ScanOnce(m: SessionManager, observed: Option<map<int, ProcessInfo>>, ghost b: Book)
      returns (ghost sc: Scanning, ghost w: Walk, ghost checks: seq<Deed>, now: int)
    requires m.Valid() && m.Keeps(b)
    requires observed.Some? ==> forall q :: q in observed.value ==> observed.value[q].pid == q && ToInt32(q) == q
    modifies m`rows, m`log, m.Records()
    ensures m.Valid() && m.sessions == old(m.sessions)
    ensures observed.None? ==> m.Keeps(b)
    ensures observed.Some? ==> sc.before == b.all && sc.procs == observed.value && sc.Possible(w)
    ensures observed.Some? ==> OnceEach(checks, b.all.Keys, {}, IdleOp(now))
    ensures observed.Some? ==> Covers(b, sc.Trace(w) + checks) && m.Keeps(DoAll(b, sc.Trace(w) + checks))
  {
    hide Scanning.Possible, Scanning.Valid, DoAll, Covers, OnceEach, ToInt32;
    var known := m.GetKnownPIDs();
    now := *;
    sc := Scanning(b.all, known, map[]);
    w, checks := Walk([], []), [];
    if observed.None? {
      return;
    }
    sc := sc.(procs := observed.value);
    ScanBegins(m, sc, b);
    hide SessionManager.Valid, SessionManager.Keeps, PidInfoOf, Scanned;
    w, checks := ScanProcesses(m, known, observed.value, now, sc, b);
  }

  lemma CoversSame(b: Book, b2: Book, trace: seq<Deed>)
    requires Covers(b2, trace) && b.all.Keys == b2.all.Keys && b.rows.Keys == b2.rows.Keys
    ensures Covers(b, trace)
  {
  }

  lemma ScanBegins(m: SessionManager, sc: Scanning, b: Book)
    requires m.Valid() && m.Keeps(b) && b.all == sc.before
    requires forall p :: p in sc.known ==>
               && p > 0 && sc.known[p].sessionKey in m.sessions
               && sc.known[p] == PidInfoOf(m.State(sc.known[p].sessionKey)) && sc.known[p].pid == p
    requires forall k :: k in m.sessions && m.State(k).pid > 0 ==> m.State(k).pid in sc.known
    requires forall q :: q in sc.procs ==> sc.procs[q].pid == q && ToInt32(q) == q
    ensures Scanned(m, sc, b, [])
  {
    KeptIsShown(m, b);
    assert sc.Valid() by {
      hide SessionManager.Valid, SessionManager.Keeps;
    }
  }

  lemma KeptIsShown(m: SessionManager, b: Book)
    requires m.Valid() && m.Keeps(b)
    ensures b.all.Keys == m.sessions.Keys && b.all.Keys <= b.rows.Keys
    ensures forall k :: k in m.sessions ==> m.State(k) == b.all[k] && b.all[k].sessionKey == k
  {
  }

  /**
   * Record, row and announcements of every session after a scan are those of its own
   * verdict and its own idle check.
   */
  lemma ScanActsPerSession(sc: Scanning, w: Walk, b: Book, checks: seq<Deed>, k: string, now: int)
    requires b.all == sc.before && Covers(b, sc.Trace(w) + checks) && k in b.all
    requires OnceEach(checks, b.all.Keys, {}, IdleOp(now))
    ensures Followed(b, DoAll(b, sc.Trace(w) + checks), k, OpsOf(sc.Trace(w), k) + [IdleOp(now)])
  {
    hide DoAll, Followed;
    SessionsAreSeparate(b, sc.Trace(w) + checks, k);
    OpsOfConcat(sc.Trace(w), checks, k);
  }
}
