/**
 * What one scan of the process table (internal/scanner/scanner.go) can do to the
 * known sessions.  The code walks two Go maps, in whose order it takes the
 * processes and the sessions and, where several fit, its matches; a walk is one such
 * order with its choices.
 */
module ScanOrder {
  import opened Basics
  import opened SessionTypes
  import opened SessionOps
  import opened Books
  import opened Manager

  // ---- matching ----------------------------------------------------------------------------

  /** int32(pid): a conversion that wraps around. */
  function ToInt32(pid: int): int {
    (pid + 0x8000_0000) % 0x1_0000_0000 - 0x8000_0000
  }

  function LowerChar(c: char): char {
    if 'A' <= c <= 'Z' then c - 'A' + 'a' else c
  }

  /** strings.EqualFold, on names whose letters are ASCII. */
  predicate EqualFold(a: string, b: string) {
    |a| == |b| && forall i :: 0 <= i < |a| ==> LowerChar(a[i]) == LowerChar(b[i])
  }

  predicate OtherCase(upper: char, lower: char) {
    'A' <= upper <= 'Z' && 'a' <= lower <= 'z' && lower as int - 'a' as int == upper as int - 'A' as int
  }

  /** Folding matches a letter with itself and its other case, and any other character with itself. */
  lemma FoldsCases(a: string, b: string)
    ensures EqualFold(a, b) <==>
              |a| == |b| && forall i :: 0 <= i < |a| ==> a[i] == b[i] || OtherCase(a[i], b[i]) || OtherCase(b[i], a[i])
  {
  }

  /** The conversion keeps the low 32 bits, read as a signed number. */
  lemma ToInt32Wraps(pid: int)
    ensures -0x8000_0000 <= ToInt32(pid) < 0x8000_0000 && (ToInt32(pid) - pid) % 0x1_0000_0000 == 0
  {
  }

  /** Does a process look like the agent of a session? */
  predicate SamePlace(known: PidInfo, info: ProcessInfo) {
    known.cwd != "" && known.cwd == info.cwd && EqualFold(known.agentType, info.matchedType)
  }

  predicate HasMatch(known: PidInfo, procs: map<int, ProcessInfo>) {
    exists q :: q in procs && SamePlace(known, procs[q])
  }

  /** Is this a table that GetKnownPIDs can return: for each positive pid some session that has it? */
  ghost predicate KnownTable(all: map<string, SessionState>, known: map<int, PidInfo>) {
    && (forall p :: p in known ==>
          && p > 0 && known[p].sessionKey in all && known[p] == PidInfoOf(all[known[p].sessionKey])
          && known[p].pid == p)
    && forall k :: k in all && all[k].pid > 0 ==> all[k].pid in known
  }

  /** The visit of one process, or of one known pid: what was chosen as its match, and when it was updated. */
  datatype Visit = Visit(pid: int, choice: Option<int>, now: int)

  /** The visits of phase 3, process by process, and of phase 4, known pid by known pid. */
  datatype Walk = Walk(matches: seq<Visit>, judges: seq<Visit>)

  /** Every pid of `done` is visited once, and no other. */
  ghost predicate Lists(visits: seq<Visit>, done: set<int>) {
    && (forall i, j :: 0 <= i < j < |visits| ==> visits[i].pid != visits[j].pid)
    && (forall i :: 0 <= i < |visits| ==> visits[i].pid in done)
    && forall p :: p in done ==> exists i :: 0 <= i < |visits| && visits[i].pid == p
  }

  lemma ListsSnoc(visits: seq<Visit>, done: set<int>, v: Visit)
    requires Lists(visits, done) && v.pid !in done
    ensures Lists(visits + [v], done + {v.pid})
  {
    var all := visits + [v];
    forall p | p in done + {v.pid}
      ensures exists i :: 0 <= i < |all| && all[i].pid == p
    {
      if p == v.pid {
        assert all[|visits|].pid == p;
      } else {
        var i :| 0 <= i < |visits| && visits[i].pid == p;
        assert all[i].pid == p;
      }
    }
  }

  /** What one scan works on: the records as it finds them, the known pids and the agent processes. */
  datatype Scanning = Scanning(
    before: map<string, SessionState>, known: map<int, PidInfo>, procs: map<int, ProcessInfo>)
  {
    /** Records have their keys, the known pids are those of the records, and process ids fit 32 bits. */
    ghost predicate Valid() {
      && KnownTable(before, known)
      && (forall q :: q in procs ==> procs[q].pid == q && ToInt32(q) == q)
      && (forall k :: k in before ==> before[k].sessionKey == k)
    }

    predicate Tracked(k: string) {
      k in before && before[k].pid in known && known[before[k].pid].sessionKey == k
    }

    /** The processes say that this session's agent is gone. */
    predicate Lost(k: string)
      requires Tracked(k)
    {
      ToInt32(before[k].pid) !in procs && !HasMatch(known[before[k].pid], procs)
    }

    /** Can a process be matched to this known pid? */
    predicate MayOwn(q: int, p: int)
      requires q in procs
    {
      p in known && if q in known then p == q else SamePlace(known[p], procs[q])
    }

    /** Phase 3: the session known under the pid, or else any in the same place, or else none. */
    predicate LegalOwner(q: int, owner: Option<int>)
      requires q in procs
    {
      if owner.Some? then MayOwn(q, owner.value) else forall p :: p in known ==> !MayOwn(q, p)
    }

    /** Phase 4: nothing if the pid was seen, or else any process in the same place, or else none. */
    predicate LegalFound(p: int, found: Option<int>)
      requires p in known
    {
      if ToInt32(p) in procs then found.None?
      else if found.Some? then found.value in procs && SamePlace(known[p], procs[found.value])
      else !HasMatch(known[p], procs)
    }

    ghost predicate Matches(visits: seq<Visit>, done: set<int>) {
      && Lists(visits, done)
      && forall i :: 0 <= i < |visits| ==> visits[i].pid in procs && LegalOwner(visits[i].pid, visits[i].choice)
    }

    ghost predicate Judges(visits: seq<Visit>, done: set<int>) {
      && Lists(visits, done)
      && forall i :: 0 <= i < |visits| ==> visits[i].pid in known && LegalFound(visits[i].pid, visits[i].choice)
    }

    /** A scan that is possible. */
    ghost predicate Possible(w: Walk) {
      Valid() && Matches(w.matches, procs.Keys) && Judges(w.judges, known.Keys)
    }

    function MatchDeeds(v: Visit): seq<Deed> {
      if v.pid !in procs || v.choice.None? || v.choice.value !in known then []
      else [Deed(known[v.choice.value].sessionKey, PidOp(procs[v.pid], v.now))]
    }

    function JudgeDeeds(v: Visit): seq<Deed> {
      if v.pid !in known || ToInt32(v.pid) in procs then []
      else
        var key := known[v.pid].sessionKey;
        if v.choice.Some? && v.choice.value in procs then [Deed(key, PidOp(procs[v.choice.value], v.now))]
        else [Deed(key, GoneOp)]
    }

    function MatchTrace(visits: seq<Visit>): seq<Deed> {
      if visits == [] then []
      else
        var n := |visits| - 1;
        MatchTrace(visits[..n]) + MatchDeeds(visits[n])
    }

    function JudgeTrace(visits: seq<Visit>): seq<Deed> {
      if visits == [] then []
      else
        var n := |visits| - 1;
        JudgeTrace(visits[..n]) + JudgeDeeds(visits[n])
    }

    /** What a scan does, in order. */
    function Trace(w: Walk): seq<Deed> {
      MatchTrace(w.matches) + JudgeTrace(w.judges)
    }

    predicate IsUpdate(op: Op) {
      op.PidOp? && op.info.pid in procs && procs[op.info.pid] == op.info
    }

    predicate AllUpdates(ops: seq<Op>) {
      forall i :: 0 <= i < |ops| ==> IsUpdate(ops[i])
    }
  }

  lemma NothingVisited(sc: Scanning)
    ensures sc.Matches([], {}) && sc.Judges([], {}) && sc.MatchTrace([]) == [] && sc.JudgeTrace([]) == []
  {
  }

  lemma MatchesSnoc(sc: Scanning, visits: seq<Visit>, done: set<int>, v: Visit)
    requires sc.Matches(visits, done) && v.pid !in done && v.pid in sc.procs && sc.LegalOwner(v.pid, v.choice)
    ensures sc.Matches(visits + [v], done + {v.pid})
    ensures sc.MatchTrace(visits + [v]) == sc.MatchTrace(visits) + sc.MatchDeeds(v)
  {
    hide Scanning.LegalOwner, Scanning.MatchDeeds, Lists;
    ListsSnoc(visits, done, v);
    MatchTraceSnoc(sc, visits, v);
  }

  lemma JudgesSnoc(sc: Scanning, visits: seq<Visit>, done: set<int>, v: Visit)
    requires sc.Judges(visits, done) && v.pid !in done && v.pid in sc.known && sc.LegalFound(v.pid, v.choice)
    ensures sc.Judges(visits + [v], done + {v.pid})
  {
    hide Scanning.LegalFound, Lists;
    ListsSnoc(visits, done, v);
  }

  lemma MatchTraceSnoc(sc: Scanning, visits: seq<Visit>, v: Visit)
    ensures sc.MatchTrace(visits + [v]) == sc.MatchTrace(visits) + sc.MatchDeeds(v)
  {
    assert (visits + [v])[..|visits|] == visits;
  }

  lemma JudgeTraceSnoc(sc: Scanning, visits: seq<Visit>, v: Visit)
    ensures sc.JudgeTrace(visits + [v]) == sc.JudgeTrace(visits) + sc.JudgeDeeds(v)
  {
    assert (visits + [v])[..|visits|] == visits;
  }

  lemma TraceStarts(sc: Scanning, matches: seq<Visit>)
    ensures sc.Trace(Walk(matches, [])) == sc.MatchTrace(matches)
  {
    assert sc.MatchTrace(matches) + [] == sc.MatchTrace(matches);
  }

  lemma TraceSnoc(sc: Scanning, matches: seq<Visit>, judges: seq<Visit>, v: Visit)
    ensures sc.Trace(Walk(matches, judges + [v])) == sc.Trace(Walk(matches, judges)) + sc.JudgeDeeds(v)
  {
    JudgeTraceSnoc(sc, judges, v);
    var a, b, c := sc.MatchTrace(matches), sc.JudgeTrace(judges), sc.JudgeDeeds(v);
    assert a + (b + c) == (a + b) + c;
  }

  // ---- the verdict on one session ----------------------------------------------------------------

  /** Was some process matched to this known pid? */
  ghost predicate Chosen(visits: seq<Visit>, p: int) {
    exists i :: 0 <= i < |visits| && visits[i].choice == Some(p)
  }

  /** Phase 3 as one session sees it: updates from the processes matched to its pid. */
  lemma {:induction false} MatchedOps(sc: Scanning, visits: seq<Visit>, k: string)
    requires sc.Valid() && k in sc.before
    requires forall i :: 0 <= i < |visits| ==>
               visits[i].pid in sc.procs && sc.LegalOwner(visits[i].pid, visits[i].choice)
    ensures sc.AllUpdates(OpsOf(sc.MatchTrace(visits), k))
    ensures OpsOf(sc.MatchTrace(visits), k) != [] <==> sc.Tracked(k) && Chosen(visits, sc.before[k].pid)
  {
    if visits != [] {
      var n := |visits| - 1;
      var v := visits[n];
      MatchedOps(sc, visits[..n], k);
      OpsOfConcat(sc.MatchTrace(visits[..n]), sc.MatchDeeds(v), k);
      OneMatch(sc, v, k);
      ChosenSnoc(visits, sc.before[k].pid);
    }
  }

  lemma ChosenSnoc(visits: seq<Visit>, p: int)
    requires visits != []
    ensures Chosen(visits, p) <==> Chosen(visits[..|visits| - 1], p) || visits[|visits| - 1].choice == Some(p)
  {
    var init := visits[..|visits| - 1];
    if Chosen(visits, p) {
      var i :| 0 <= i < |visits| && visits[i].choice == Some(p);
      assert i < |init| ==> init[i].choice == Some(p);
    }
    if Chosen(init, p) {
      var i :| 0 <= i < |init| && init[i].choice == Some(p);
      assert visits[i].choice == Some(p);
    }
  }

  lemma OneMatch(sc: Scanning, v: Visit, k: string)
    requires sc.Valid() && k in sc.before && v.pid in sc.procs && sc.LegalOwner(v.pid, v.choice)
    ensures var ops := OpsOf(sc.MatchDeeds(v), k);
            sc.AllUpdates(ops) && (ops != [] <==> sc.Tracked(k) && v.choice == Some(sc.before[k].pid))
  {
  }

  /** Phase 4 as one session sees it. */
  predicate Judged(sc: Scanning, k: string, ops: seq<Op>)
    requires sc.Tracked(k)
  {
    if ToInt32(sc.before[k].pid) in sc.procs then ops == []
    else if sc.Lost(k) then ops == [GoneOp]
    else |ops| == 1 && sc.AllUpdates(ops)
  }

  /** Phase 4, when the known pids in `done` have been visited. */
  predicate JudgedIn(sc: Scanning, k: string, ops: seq<Op>, done: set<int>) {
    if sc.Tracked(k) && sc.before[k].pid in done then Judged(sc, k, ops) else ops == []
  }

  lemma JudgedInSnoc(sc: Scanning, k: string, first: seq<Op>, last: seq<Op>, done: set<int>, p: int)
    requires p in done && JudgedIn(sc, k, first, done - {p}) && JudgedIn(sc, k, last, {p})
    ensures JudgedIn(sc, k, first + last, done)
  {
    hide Judged;
    assert first == [] ==> first + last == last;
    assert last == [] ==> first + last == first;
  }

  lemma {:induction false} JudgedOps(sc: Scanning, visits: seq<Visit>, done: set<int>, k: string)
    requires sc.Valid() && k in sc.before && sc.Judges(visits, done)
    ensures JudgedIn(sc, k, OpsOf(sc.JudgeTrace(visits), k), done)
  {
    if visits == [] {
      assert forall p :: p !in done;
    } else {
      hide *;
      var init, v := visits[..|visits| - 1], visits[|visits| - 1];
      assert visits == init + [v];
      JudgesInit(sc, visits, done);
      JudgedOps(sc, init, done - {v.pid}, k);
      JudgeTraceSnoc(sc, init, v);
      OpsOfConcat(sc.JudgeTrace(init), sc.JudgeDeeds(v), k);
      OneJudge(sc, v, k);
      JudgedInSnoc(sc, k, OpsOf(sc.JudgeTrace(init), k), OpsOf(sc.JudgeDeeds(v), k), done, v.pid);
    }
  }

  lemma ListsInit(visits: seq<Visit>, done: set<int>)
    requires Lists(visits, done) && visits != []
    ensures var n := |visits| - 1;
            visits[n].pid in done && Lists(visits[..n], done - {visits[n].pid})
  {
    var n := |visits| - 1;
    var init := visits[..n];
    forall p | p in done - {visits[n].pid}
      ensures exists i :: 0 <= i < |init| && init[i].pid == p
    {
      var i :| 0 <= i < |visits| && visits[i].pid == p;
      assert init[i].pid == p;
    }
  }

  lemma JudgesInit(sc: Scanning, visits: seq<Visit>, done: set<int>)
    requires sc.Judges(visits, done) && visits != []
    ensures var v := visits[|visits| - 1];
            v.pid in done && v.pid in sc.known && sc.LegalFound(v.pid, v.choice)
            && sc.Judges(visits[..|visits| - 1], done - {v.pid})
  {
    ListsInit(visits, done);
    hide Lists, Scanning.LegalFound;
  }

  lemma OneJudge(sc: Scanning, v: Visit, k: string)
    requires sc.Valid() && k in sc.before && v.pid in sc.known && sc.LegalFound(v.pid, v.choice)
    ensures JudgedIn(sc, k, OpsOf(sc.JudgeDeeds(v), k), {v.pid})
  {
    if ToInt32(v.pid) !in sc.procs {
      OpsOfOne(sc.JudgeDeeds(v)[0], k);
      assert sc.known[v.pid].sessionKey == k ==> sc.before[k].pid == v.pid;
      if v.choice.Some? {
        var q := v.choice.value;
        assert q in sc.procs && SamePlace(sc.known[v.pid], sc.procs[q]) && sc.procs[q].pid == q;
      }
    } else {
      assert OpsOf(sc.JudgeDeeds(v), k) == [];
    }
  }

  /** A scan touches a session when some process was matched to it, or phase 4 looked at it. */
  lemma ScanTouches(sc: Scanning, w: Walk, k: string)
    requires sc.Possible(w) && k in sc.before
    ensures OpsOf(sc.Trace(w), k) != [] <==>
              sc.Tracked(k) && (Chosen(w.matches, sc.before[k].pid) || ToInt32(sc.before[k].pid) !in sc.procs)
  {
    MatchedOps(sc, w.matches, k);
    JudgedOps(sc, w.judges, sc.known.Keys, k);
    OpsOfConcat(sc.MatchTrace(w.matches), sc.JudgeTrace(w.judges), k);
    hide OpsOf, Chosen, Scanning.Matches, Scanning.Judges, Scanning.MatchTrace, Scanning.JudgeTrace;
    var first, last := OpsOf(sc.MatchTrace(w.matches), k), OpsOf(sc.JudgeTrace(w.judges), k);
    assert |first + last| == |first| + |last|;
  }

  // ---- when there is a verdict -----------------------------------------------------------------

  /** Is this known pid the only one a process can be matched to? */
  ghost predicate MustOwn(sc: Scanning, q: int, p: int)
    requires q in sc.procs
  {
    sc.MayOwn(q, p) && forall o :: sc.MayOwn(q, o) ==> o == p
  }

  /** Whatever the order, the scan updates or marks the session. */
  ghost predicate AlwaysTouched(sc: Scanning, k: string) {
    forall w :: sc.Possible(w) ==> OpsOf(sc.Trace(w), k) != []
  }

  /** Whatever the order, the scan passes the session over. */
  ghost predicate NeverTouched(sc: Scanning, k: string) {
    forall w :: sc.Possible(w) ==> OpsOf(sc.Trace(w), k) == []
  }

  /** Processes are matched to `p` whenever they can be, or only if they must. */
  ghost predicate Favours(sc: Scanning, visits: seq<Visit>, p: int, wanted: bool) {
    forall i :: 0 <= i < |visits| ==>
      && visits[i].pid in sc.procs
      && (visits[i].choice == Some(p) <==>
            if wanted then sc.MayOwn(visits[i].pid, p) else MustOwn(sc, visits[i].pid, p))
  }

  lemma PickOwner(sc: Scanning, q: int, p: int, wanted: bool) returns (owner: Option<int>)
    requires q in sc.procs
    ensures sc.LegalOwner(q, owner)
    ensures owner == Some(p) <==> if wanted then sc.MayOwn(q, p) else MustOwn(sc, q, p)
  {
    if sc.MayOwn(q, p) && (wanted || MustOwn(sc, q, p)) {
      owner := Some(p);
    } else if o :| o in sc.known && o != p && sc.MayOwn(q, o) {
      owner := Some(o);
    } else {
      owner := None;
    }
  }

  lemma {:induction false} MatchesExist(sc: Scanning, done: set<int>, p: int, wanted: bool) returns (visits: seq<Visit>)
    requires done <= sc.procs.Keys
    ensures sc.Matches(visits, done) && Favours(sc, visits, p, wanted)
    decreases done
  {
    if q :| q in done {
      var rest := MatchesExist(sc, done - {q}, p, wanted);
      var owner := PickOwner(sc, q, p, wanted);
      ListsSnoc(rest, done - {q}, Visit(q, owner, 0));
      assert done - {q} + {q} == done;
      visits := rest + [Visit(q, owner, 0)];
    } else {
      visits := [];
    }
  }

  lemma {:induction false} JudgesExist(sc: Scanning, done: set<int>) returns (visits: seq<Visit>)
    requires done <= sc.known.Keys
    ensures sc.Judges(visits, done)
    decreases done
  {
    if p :| p in done {
      var rest := JudgesExist(sc, done - {p});
      var found: Option<int> := None;
      if q :| ToInt32(p) !in sc.procs && q in sc.procs && SamePlace(sc.known[p], sc.procs[q]) {
        found := Some(q);
      }
      ListsSnoc(rest, done - {p}, Visit(p, found, 0));
      assert done - {p} + {p} == done;
      visits := rest + [Visit(p, found, 0)];
    } else {
      visits := [];
    }
  }

  /** There is a scan that matches processes to this pid whenever it can, and one that does only if it must. */
  lemma WalkExists(sc: Scanning, p: int, wanted: bool) returns (w: Walk)
    requires sc.Valid()
    ensures sc.Possible(w) && Favours(sc, w.matches, p, wanted)
  {
    var matches := MatchesExist(sc, sc.procs.Keys, p, wanted);
    var judges := JudgesExist(sc, sc.known.Keys);
    w := Walk(matches, judges);
  }

  /** Every process is visited. */
  lemma VisitOf(sc: Scanning, w: Walk, q: int) returns (i: nat)
    requires sc.Possible(w) && q in sc.procs
    ensures i < |w.matches| && w.matches[i].pid == q && sc.LegalOwner(q, w.matches[i].choice)
  {
    i :| 0 <= i < |w.matches| && w.matches[i].pid == q;
  }

  /** If the pid is not taken for a process's, phase 4 sees to the session. */
  lemma UnseenIsTouched(sc: Scanning, k: string)
    requires sc.Valid() && sc.Tracked(k) && ToInt32(sc.before[k].pid) !in sc.procs
    ensures AlwaysTouched(sc, k)
  {
    forall w | sc.Possible(w)
      ensures OpsOf(sc.Trace(w), k) != []
    {
      ScanTouches(sc, w, k);
    }
  }

  /** A process that can be matched to no other session updates this one. */
  lemma OwnedIsTouched(sc: Scanning, k: string, q: int)
    requires sc.Valid() && sc.Tracked(k) && q in sc.procs && MustOwn(sc, q, sc.before[k].pid)
    ensures AlwaysTouched(sc, k)
  {
    forall w | sc.Possible(w)
      ensures OpsOf(sc.Trace(w), k) != []
    {
      var i := VisitOf(sc, w, q);
      ScanTouches(sc, w, k);
    }
  }

  lemma AlwaysTouchedIff(sc: Scanning, k: string)
    requires sc.Valid() && sc.Tracked(k)
    ensures AlwaysTouched(sc, k) <==>
              || ToInt32(sc.before[k].pid) !in sc.procs
              || exists q :: q in sc.procs && MustOwn(sc, q, sc.before[k].pid)
  {
    var p := sc.before[k].pid;
    if ToInt32(p) !in sc.procs {
      UnseenIsTouched(sc, k);
    } else if q :| q in sc.procs && MustOwn(sc, q, p) {
      OwnedIsTouched(sc, k, q);
    } else {
      var w := WalkExists(sc, p, false);
      ScanTouches(sc, w, k);
      hide MustOwn, OpsOf, Scanning.Trace, Scanning.Possible;
      assert OpsOf(sc.Trace(w), k) == [];
    }
  }

  lemma NeverTouchedIff(sc: Scanning, k: string)
    requires sc.Valid() && sc.Tracked(k)
    ensures NeverTouched(sc, k) <==>
              && ToInt32(sc.before[k].pid) in sc.procs
              && forall q :: q in sc.procs ==> !sc.MayOwn(q, sc.before[k].pid)
  {
    var p := sc.before[k].pid;
    if ToInt32(p) in sc.procs && forall q :: q in sc.procs ==> !sc.MayOwn(q, p) {
      forall w | sc.Possible(w)
        ensures OpsOf(sc.Trace(w), k) == []
      {
        ScanTouches(sc, w, k);
      }
    } else {
      var w := WalkExists(sc, p, true);
      if q :| q in sc.procs && sc.MayOwn(q, p) {
        var i := VisitOf(sc, w, q);
        assert w.matches[i].choice == Some(p);
      }
      ScanTouches(sc, w, k);
    }
  }

  /** A process without a known pid, in the place of this known pid. */
  predicate InPlace(sc: Scanning, q: int, p: int)
    requires q in sc.procs && p in sc.known
  {
    q !in sc.known && SamePlace(sc.known[p], sc.procs[q])
  }

  /** And in that of no other. */
  ghost predicate OnlyInPlace(sc: Scanning, q: int, p: int)
    requires q in sc.procs && p in sc.known
  {
    InPlace(sc, q, p) && forall o :: o in sc.known && o != p ==> !InPlace(sc, q, o)
  }

  lemma OwnersOf(sc: Scanning, q: int, p: int)
    requires q in sc.procs && p in sc.known
    ensures sc.MayOwn(q, p) <==> q == p || InPlace(sc, q, p)
    ensures MustOwn(sc, q, p) <==> q == p || OnlyInPlace(sc, q, p)
  {
    forall o | o in sc.known && q !in sc.known
      ensures InPlace(sc, q, o) <==> sc.MayOwn(q, o)
    {
    }
  }

  /**
   * A known session gets a verdict in every order exactly when its pid is a process's,
   * or is not taken for one, or some process without a known pid is in its place and in
   * no other known session's.
   */
  lemma VerdictInEveryOrderIff(sc: Scanning, k: string)
    requires sc.Valid() && sc.Tracked(k)
    ensures var p := sc.before[k].pid;
            AlwaysTouched(sc, k) <==>
              || p in sc.procs || ToInt32(p) !in sc.procs
              || exists q :: q in sc.procs && OnlyInPlace(sc, q, p)
  {
    var p := sc.before[k].pid;
    AlwaysTouchedIff(sc, k);
    forall q | q in sc.procs
      ensures MustOwn(sc, q, p) <==> q == p || OnlyInPlace(sc, q, p)
    {
      OwnersOf(sc, q, p);
    }
    hide AlwaysTouched, MustOwn, OnlyInPlace;
  }

  /**
   * And it gets none in any order exactly when its pid is not a process's but is taken
   * for one, and every process in its place has a known pid.
   */
  lemma NoVerdictInAnyOrderIff(sc: Scanning, k: string)
    requires sc.Valid() && sc.Tracked(k)
    ensures var p := sc.before[k].pid;
            NeverTouched(sc, k) <==>
              && p !in sc.procs && ToInt32(p) in sc.procs
              && forall q :: q in sc.procs && SamePlace(sc.known[p], sc.procs[q]) ==> q in sc.known
  {
    var p := sc.before[k].pid;
    NeverTouchedIff(sc, k);
    forall q | q in sc.procs
      ensures sc.MayOwn(q, p) <==> q == p || InPlace(sc, q, p)
    {
      OwnersOf(sc, q, p);
    }
    hide NeverTouched, SamePlace;
  }

  /** One order gives the session a verdict and another does not. */
  ghost predicate OrderDecides(sc: Scanning, k: string) {
    exists w1, w2 :: sc.Possible(w1) && sc.Possible(w2)
                     && OpsOf(sc.Trace(w1), k) == [] && OpsOf(sc.Trace(w2), k) != []
  }

  /** In all other cases the order decides. */
  lemma OrderDecidesIff(sc: Scanning, k: string)
    requires sc.Valid() && sc.Tracked(k)
    ensures var p := sc.before[k].pid;
            OrderDecides(sc, k) <==>
              && p !in sc.procs && ToInt32(p) in sc.procs
              && (exists q :: q in sc.procs && InPlace(sc, q, p))
              && forall q :: q in sc.procs ==> !OnlyInPlace(sc, q, p)
  {
    VerdictInEveryOrderIff(sc, k);
    NoVerdictInAnyOrderIff(sc, k);
    hide OpsOf, Scanning.Trace, Scanning.Possible, OnlyInPlace, SamePlace;
  }

  // ---- what the verdict is ---------------------------------------------------------------------

  /**
   * In every order: a session that is not known is left alone; a known one is marked,
   * and then once, exactly when no process has its pid, as the scan compares pids, or
   * its place, and else only updated.
   */
  lemma ScanVerdict(sc: Scanning, w: Walk, k: string)
    requires sc.Possible(w) && k in sc.before
    ensures var ops := OpsOf(sc.Trace(w), k);
            && (!sc.Tracked(k) ==> ops == [])
            && (sc.Tracked(k) ==> (ops == [GoneOp] <==> sc.Lost(k)))
            && (sc.Tracked(k) && !sc.Lost(k) ==> sc.AllUpdates(ops))
  {
    MatchedOps(sc, w.matches, k);
    JudgedOps(sc, w.judges, sc.known.Keys, k);
    OpsOfConcat(sc.MatchTrace(w.matches), sc.JudgeTrace(w.judges), k);
    var first, last := OpsOf(sc.MatchTrace(w.matches), k), OpsOf(sc.JudgeTrace(w.judges), k);
    if sc.Tracked(k) && sc.Lost(k) {
      NoneOwnsLost(sc, w.matches, k);
      hide Chosen, HasMatch, Scanning.Valid, Scanning.Possible, Scanning.MatchTrace, Scanning.JudgeTrace, OpsOf;
      assert [] + last == last;
    } else {
      hide Chosen, HasMatch, Scanning.Valid, Scanning.Possible, Scanning.MatchTrace, Scanning.JudgeTrace, OpsOf;
      assert sc.AllUpdates(first + last);
      assert first + last == [GoneOp] ==> sc.IsUpdate((first + last)[0]);
    }
  }

  lemma NoneOwnsLost(sc: Scanning, visits: seq<Visit>, k: string)
    requires sc.Valid() && sc.Matches(visits, sc.procs.Keys) && sc.Tracked(k) && sc.Lost(k)
    ensures !Chosen(visits, sc.before[k].pid)
  {
    if i :| 0 <= i < |visits| && visits[i].choice == Some(sc.before[k].pid) {
      assert sc.MayOwn(visits[i].pid, sc.before[k].pid);
    }
  }

  /** After updates, the pid is that of an agent process and the session is not disappeared. */
  lemma UpdatesEndAlive(sc: Scanning, s: SessionState, ops: seq<Op>)
    requires sc.AllUpdates(ops) && ops != []
    ensures Run(s, ops).pid in sc.procs && !Run(s, ops).status.Disappeared?
  {
    var n := |ops| - 1;
    assert ops == ops[..n] + [ops[n]];
    RunSnoc(s, ops[..n], ops[n]);
    assert sc.IsUpdate(ops[n]);
  }

  /**
   * Where a scan, with its idle check, leaves a session: one that got no verdict as it
   * was but for the idle check; a lost one disappeared, or stopped as before; any other
   * with the pid of an agent process and not disappeared.
   */
  lemma ScanEndState(sc: Scanning, w: Walk, k: string, now: int)
    requires sc.Possible(w) && k in sc.before
    ensures var ops := OpsOf(sc.Trace(w), k);
            var s := Run(sc.before[k], ops + [IdleOp(now)]);
            if ops == [] then s == IdleChecked(sc.before[k], now)
            else if sc.Tracked(k) && sc.Lost(k)
            then s == if sc.before[k].status.Stopped? then sc.before[k] else sc.before[k].(status := Disappeared)
            else s.pid in sc.procs && !s.status.Disappeared?
  {
    hide Scanning.Valid, Scanning.Possible, Scanning.AllUpdates, HasMatch, SamePlace, OpsOf, Scanning.Trace;
    var ops := OpsOf(sc.Trace(w), k);
    ScanVerdict(sc, w, k);
    RunSnoc(sc.before[k], ops, IdleOp(now));
    if sc.Tracked(k) && sc.Lost(k) {
      assert [GoneOp][1..] == [];
      assert Run(sc.before[k], [GoneOp]) == Next(sc.before[k], GoneOp);
    } else if ops != [] {
      UpdatesEndAlive(sc, sc.before[k], ops);
    }
  }

  // ---- which sessions are known ----------------------------------------------------------------------

  /** The table that knows, of each pid, the sessions in `first` before others. */
  ghost function TableFor(all: map<string, SessionState>, k: string): map<int, PidInfo>
    requires k in all
  {
    map p | p in (set l | l in all && all[l].pid > 0 :: all[l].pid) ::
      PidInfoOf(all[if all[k].pid == p then k else SomeWith(all, p)])
  }

  ghost function SomeWith(all: map<string, SessionState>, p: int): (k: string)
    requires exists k :: k in all && all[k].pid == p
    ensures k in all && all[k].pid == p
  {
    var k :| k in all && all[k].pid == p;
    k
  }

  lemma TableForIsTable(all: map<string, SessionState>, k: string)
    requires k in all && forall l :: l in all ==> all[l].sessionKey == l
    ensures KnownTable(all, TableFor(all, k))
    ensures all[k].pid > 0 ==> all[k].pid in TableFor(all, k) && TableFor(all, k)[all[k].pid].sessionKey == k
  {
    var known := TableFor(all, k);
    forall p | p in known
      ensures exists l :: l in all && all[l].pid == p && p > 0 && known[p] == PidInfoOf(all[l])
                          && (all[k].pid == p ==> l == k)
    {
      var l := if all[k].pid == p then k else SomeWith(all, p);
      assert l in all && all[l].pid == p && known[p] == PidInfoOf(all[l]);
    }
  }

  /** A session is known in every order exactly when it has a positive pid and no other session has it. */
  lemma KnownInEveryOrderIff(all: map<string, SessionState>, k: string)
    requires k in all && forall l :: l in all ==> all[l].sessionKey == l
    ensures (forall known: map<int, PidInfo> :: KnownTable(all, known) ==>
               all[k].pid in known && known[all[k].pid].sessionKey == k)
       <==> all[k].pid > 0 && forall l :: l in all && all[l].pid == all[k].pid ==> l == k
  {
    TableForIsTable(all, k);
    forall l | l in all
      ensures KnownTable(all, TableFor(all, l))
    {
      TableForIsTable(all, l);
    }
    if l :| l in all && all[l].pid == all[k].pid && l != k && all[k].pid > 0 {
      TableForIsTable(all, l);
      assert TableFor(all, l)[all[k].pid].sessionKey == l;
    }
  }

  // ---- inputs ---------------------------------------------------------------------------------------

  /** Pid 2^32 + 5 is taken for process 5. */
  lemma PidsCollide()
    ensures ToInt32(0x1_0000_0005) == 5 && forall p :: -0x8000_0000 <= p < 0x8000_0000 ==> ToInt32(p) == p
  {
  }

  /** One session with that pid, and process 5. */
  function Confusing(s: SessionState, info: ProcessInfo): Scanning {
    Scanning(map[s.sessionKey := s], map[s.pid := PidInfoOf(s)], map[5 := info])
  }

  /** In the place of process 5 it is always updated; elsewhere it is always passed over, neither updated nor marked. */
  lemma ConfusedSession(s: SessionState, info: ProcessInfo)
    requires s.pid == 0x1_0000_0005 && info.pid == 5
    ensures Confusing(s, info).Valid() && Confusing(s, info).Tracked(s.sessionKey)
    ensures if SamePlace(PidInfoOf(s), info) then AlwaysTouched(Confusing(s, info), s.sessionKey)
            else NeverTouched(Confusing(s, info), s.sessionKey)
  {
    var sc := Confusing(s, info);
    PidsCollide();
    VerdictInEveryOrderIff(sc, s.sessionKey);
    NoVerdictInAnyOrderIff(sc, s.sessionKey);
    hide AlwaysTouched, NeverTouched, SamePlace;
    assert SamePlace(PidInfoOf(s), info) ==> OnlyInPlace(sc, 5, s.pid);
  }

  /** Sessions with pids 2^32 + 5 and `other`, both in the place of process 5. */
  function Crowded(a: SessionState, b: SessionState, info: ProcessInfo): Scanning {
    Scanning(map[a.sessionKey := a, b.sessionKey := b],
             map[a.pid := PidInfoOf(a), b.pid := PidInfoOf(b)], map[5 := info])
  }

  /**
   * With another session in that place it depends: if that one has pid 5, the process
   * is its, and the first session is passed over; else the order decides.
   */
  lemma CrowdedSession(a: SessionState, b: SessionState, info: ProcessInfo)
    requires a.pid == 0x1_0000_0005 && 0 < b.pid < 0x8000_0000 && info.pid == 5 && a.sessionKey != b.sessionKey
    requires SamePlace(PidInfoOf(a), info) && SamePlace(PidInfoOf(b), info)
    ensures Crowded(a, b, info).Valid() && Crowded(a, b, info).Tracked(a.sessionKey)
    ensures if b.pid == 5 then NeverTouched(Crowded(a, b, info), a.sessionKey)
            else OrderDecides(Crowded(a, b, info), a.sessionKey)
  {
    var sc := Crowded(a, b, info);
    PidsCollide();
    NoVerdictInAnyOrderIff(sc, a.sessionKey);
    OrderDecidesIff(sc, a.sessionKey);
    hide NeverTouched, OrderDecides, SamePlace;
    if b.pid != 5 {
      assert InPlace(sc, 5, a.pid) && InPlace(sc, 5, b.pid);
    }
  }
}
