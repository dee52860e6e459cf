/**
 * The consumer of the hook event log (internal/hook/eventwatcher.go): it reads lines
 * from a persisted byte offset, delivers the authenticated events, and saves the
 * offset after each line, so that a crash can repeat an event but not lose one.
 */
module EventLog {
  import opened Basics
  import opened SessionTypes

  datatype Signed = Signed(daemonToken: string, event: HookEvent)

  /** How lines are understood: the JSON parser, and the daemon's own token. */
  datatype Reader = Reader(parse: string -> Option<Signed>, token: string)

  datatype Verdict = Blank | Malformed | Unauthorised | Valid(event: HookEvent)

  // ---- lines -------------------------------------------------------------------------------

  /** ReadBytes('\n') from a position: the position after the next newline, or the end of the file. */
  function LineEnd(file: string, from: nat): (end: nat)
    ensures from < |file| ==> from < end <= |file|
    ensures from >= |file| ==> end == from
    decreases |file| - from
  {
    if from >= |file| then from
    else if file[from] == '\n' then from + 1
    else if from + 1 == |file| then |file|
    else LineEnd(file, from + 1)
  }

  /** strings.TrimRight(line, "\r\n"). */
  function TrimRight(line: string): string {
    if line != [] && (line[|line| - 1] == '\r' || line[|line| - 1] == '\n') then TrimRight(line[..|line| - 1]) else line
  }

  function Judge(r: Reader, bytes: string): Verdict {
    var line := TrimRight(bytes);
    if line == "" then Blank
    else
      match r.parse(line)
      case None => Malformed
      case Some(signed) =>
        if signed.daemonToken == "" || signed.daemonToken != r.token then Unauthorised else Valid(signed.event)
  }

  function LineAt(file: string, from: nat): string {
    if from < |file| then file[from..LineEnd(file, from)] else ""
  }

  function VerdictAt(r: Reader, file: string, from: nat): Verdict {
    Judge(r, LineAt(file, from))
  }

  function EventOf(v: Verdict): seq<HookEvent> {
    if v.Valid? then [v.event] else []
  }

  /** The authenticated events of the lines that start in a stretch of the file. */
  function Events(r: Reader, file: string, from: nat, to: nat): seq<HookEvent>
    decreases |file| - from
  {
    if from >= to || from >= |file| then []
    else EventOf(VerdictAt(r, file, from)) + Events(r, file, LineEnd(file, from), to)
  }

  /** Reading line by line from one position arrives at another. */
  predicate Boundary(file: string, from: nat, to: nat)
    decreases |file| - from
  {
    from == to || (from < |file| && from < to && Boundary(file, LineEnd(file, from), to))
  }

  predicate Terminated(file: string) {
    file == "" || file[|file| - 1] == '\n'
  }

  // ---- the consumer as a state machine ---------------------------------------------------------

  /**
   * `unsaved` is the end of the line that has been read, and delivered if valid, but
   * not saved.  Not part of the program: `start`, `counts`, which says how often each
   * event was delivered, and `torn`, the number of crashes between a delivery and its
   * save.
   */
  datatype Log = Log(
    file: string, start: nat, saved: nat, pos: nat, unsaved: Option<nat>, delivered: seq<HookEvent>,
    counts: seq<nat>, torn: nat)

  datatype Step =
    | Append(more: string)
    | Read
    | Save
    | Finish
    | Crash

  function Fresh(file: string, start: nat): Log {
    Log(file, start, start, start, None, [], [], 0)
  }

  /** Count one more delivery of the i-th event. */
  function Count(counts: seq<nat>, i: nat): seq<nat> {
    if i < |counts| then counts[i := counts[i] + 1] else counts + [1]
  }

  function ReadStep(r: Reader, l: Log): Log {
    var v, end := VerdictAt(r, l.file, l.pos), LineEnd(l.file, l.pos);
    match v
    case Blank => l.(pos := end)
    case Malformed => l.(unsaved := Some(end))
    case Unauthorised => l.(unsaved := Some(end))
    case Valid(event) =>
      l.(unsaved := Some(end), delivered := l.delivered + [event],
         counts := Count(l.counts, |Events(r, l.file, l.start, l.pos)|))
  }

  /** The daemon dies, and comes back at the saved offset. */
  function CrashStep(r: Reader, l: Log): Log {
    l.(pos := l.saved, unsaved := None,
       torn := if l.unsaved.Some? && VerdictAt(r, l.file, l.pos).Valid? then l.torn + 1 else l.torn)
  }

  function NextLog(r: Reader, l: Log, step: Step): Log {
    match step
    case Append(more) => if Terminated(more) then l.(file := l.file + more) else l
    case Read => if l.unsaved.None? && l.pos < |l.file| then ReadStep(r, l) else l
    case Save => if l.unsaved.Some? then l.(saved := l.unsaved.value, pos := l.unsaved.value, unsaved := None) else l
    case Finish => if l.unsaved.None? && l.pos >= |l.file| then l.(saved := l.pos) else l
    case Crash => CrashStep(r, l)
  }

  function RunLog(r: Reader, l: Log, steps: seq<Step>): Log
    decreases |steps|
  {
    if steps == [] then l else RunLog(r, NextLog(r, l, steps[0]), steps[1..])
  }

  // ---- repeated deliveries -----------------------------------------------------------------------

  function Repeat(e: HookEvent, n: nat): seq<HookEvent> {
    seq(n, _ => e)
  }

  /** Each event, as often as counted. */
  function Expand(events: seq<HookEvent>, counts: seq<nat>): seq<HookEvent>
    requires |events| == |counts|
  {
    if events == [] then []
    else
      var n := |events| - 1;
      Expand(events[..n], counts[..n]) + Repeat(events[n], counts[n])
  }

  predicate Positive(counts: seq<nat>) {
    forall i :: 0 <= i < |counts| ==> counts[i] >= 1
  }

  /** The deliveries beyond the first of each event. */
  function Repeats(counts: seq<nat>): int {
    if counts == [] then 0 else Repeats(counts[..|counts| - 1]) + counts[|counts| - 1] - 1
  }

  lemma CountOne(events: seq<HookEvent>, counts: seq<nat>, e: HookEvent, i: nat)
    requires i == |counts| || i + 1 == |counts|
    requires |events| == i + 1 && events[i] == e
    ensures |Count(counts, i)| == i + 1
    ensures Expand(events, Count(counts, i)) == Expand(events[..|counts|], counts) + [e]
    ensures Repeats(Count(counts, i)) == Repeats(counts) + if i < |counts| then 1 else 0
  {
    var counts' := Count(counts, i);
    assert counts'[..i] == counts[..i] && |events| - 1 == i && |counts'| - 1 == i;
    var before := Expand(events[..i], counts[..i]);
    if i < |counts| {
      assert events[..|counts|] == events;
      assert Repeat(e, counts[i] + 1) == Repeat(e, counts[i]) + [e];
      hide Repeat;
      var repeats := Repeat(e, counts[i]);
      assert Expand(events, counts') == before + (repeats + [e]);
      assert Expand(events, counts) == before + repeats;
      hide Expand;
      assert before + (repeats + [e]) == (before + repeats) + [e];
    } else {
      assert counts[..i] == counts;
      assert Repeat(e, 1) == [e];
      hide Repeat;
      assert Expand(events, counts') == before + [e];
      hide Expand;
    }
  }

  // ---- lines and growth ----------------------------------------------------------------------------

  lemma {:induction false} LineEndStable(file: string, more: string, from: nat)
    requires Terminated(file) && from < |file|
    ensures LineEnd(file + more, from) == LineEnd(file, from)
    ensures LineAt(file + more, from) == LineAt(file, from)
    decreases |file| - from
  {
    if file[from] != '\n' {
      LineEndStable(file, more, from + 1);
    }
    assert (file + more)[from..LineEnd(file, from)] == file[from..LineEnd(file, from)];
  }

  lemma {:induction false} EventsStable(r: Reader, file: string, more: string, from: nat, to: nat)
    requires Terminated(file) && to <= |file|
    ensures Events(r, file + more, from, to) == Events(r, file, from, to)
    ensures Boundary(file, from, to) ==> Boundary(file + more, from, to)
    decreases |file| - from
  {
    if from < to {
      LineEndStable(file, more, from);
      hide Judge;
      if LineEnd(file, from) <= to {
        EventsStable(r, file, more, LineEnd(file, from), to);
      } else {
        assert Events(r, file, LineEnd(file, from), to) == [];
        assert !Boundary(file, LineEnd(file, from), to);
      }
    }
  }

  lemma {:induction false} EventsConcat(r: Reader, file: string, a: nat, b: nat, c: nat)
    requires Boundary(file, a, b) && b <= c
    ensures Events(r, file, a, c) == Events(r, file, a, b) + Events(r, file, b, c)
    ensures Boundary(file, b, c) ==> Boundary(file, a, c)
    decreases |file| - a
  {
    hide VerdictAt, LineEnd;
    if a < b {
      var end := LineEnd(file, a);
      EventsConcat(r, file, end, b, c);
      var first := EventOf(VerdictAt(r, file, a));
      hide EventOf;
      assert Events(r, file, a, b) == first + Events(r, file, end, b);
      assert Events(r, file, a, c) == first + Events(r, file, end, c);
      var middle, last := Events(r, file, end, b), Events(r, file, b, c);
      assert first + (middle + last) == (first + middle) + last;
    } else {
      assert Events(r, file, a, b) == [];
    }
  }

  lemma {:induction false} BoundaryWithin(file: string, a: nat, b: nat)
    requires Boundary(file, a, b) && a <= |file|
    ensures a <= b <= |file|
    decreases |file| - a
  {
    if a < b {
      BoundaryWithin(file, LineEnd(file, a), b);
    }
  }

  /** One line further. */
  lemma NextLine(r: Reader, file: string, from: nat, pos: nat)
    requires Boundary(file, from, pos) && pos < |file|
    ensures Boundary(file, from, LineEnd(file, pos))
    ensures Events(r, file, from, LineEnd(file, pos)) == Events(r, file, from, pos) + EventOf(VerdictAt(r, file, pos))
  {
    var end := LineEnd(file, pos);
    assert Boundary(file, pos, end);
    EventsConcat(r, file, from, pos, end);
    assert Events(r, file, pos, end) == EventOf(VerdictAt(r, file, pos)) + Events(r, file, end, end);
  }

  /** The ends of the lines of a stretch that are not blank: where the reader saves its offset. */
  function SavePoints(file: string, from: nat, to: nat): seq<nat>
    decreases |file| - from
  {
    if from >= to || from >= |file| then []
    else
      var end := LineEnd(file, from);
      (if TrimRight(LineAt(file, from)) == "" then [] else [end]) + SavePoints(file, end, to)
  }

  lemma {:induction false} SavePointsNext(file: string, from: nat, pos: nat)
    requires Boundary(file, from, pos) && pos < |file|
    ensures SavePoints(file, from, LineEnd(file, pos))
         == SavePoints(file, from, pos) + if TrimRight(LineAt(file, pos)) == "" then [] else [LineEnd(file, pos)]
    decreases |file| - from
  {
    var last := if TrimRight(LineAt(file, pos)) == "" then [] else [LineEnd(file, pos)];
    if from == pos {
      var end := LineEnd(file, pos);
      assert SavePoints(file, end, end) == [];
      assert last + [] == last && [] + last == last;
    } else {
      var end := LineEnd(file, from);
      var first := if TrimRight(LineAt(file, from)) == "" then [] else [end];
      BoundaryWithin(file, end, pos);
      SavePointsNext(file, end, pos);
      hide LineEnd, TrimRight, LineAt, Boundary;
      assert first + (SavePoints(file, end, pos) + last) == (first + SavePoints(file, end, pos)) + last;
    }
  }

  lemma NoStretch(r: Reader, file: string, pos: nat)
    ensures Events(r, file, pos, pos) == [] && Boundary(file, pos, pos)
  {
  }

  // ---- the invariant ---------------------------------------------------------------------------------

  predicate AtValidLine(r: Reader, l: Log) {
    l.unsaved.Some? && VerdictAt(r, l.file, l.pos).Valid?
  }

  /** All events of the file so far. */
  function All(r: Reader, l: Log): seq<HookEvent> {
    Events(r, l.file, l.start, |l.file|)
  }

  /** How many events lie before the reading position. */
  function Passed(r: Reader, l: Log): nat {
    |Events(r, l.file, l.start, l.pos)|
  }

  ghost predicate InPlace(r: Reader, l: Log) {
    && Terminated(l.file) && l.start <= |l.file|
    && Boundary(l.file, l.start, l.saved) && Boundary(l.file, l.saved, l.pos)
    && Events(r, l.file, l.saved, l.pos) == []
    && (l.unsaved.Some? ==> l.pos < |l.file| && l.unsaved.value == LineEnd(l.file, l.pos))
  }

  /** What was delivered are the first events of the file, each at least once. */
  ghost predicate Counted(r: Reader, l: Log) {
    && |l.counts| <= |All(r, l)| && Positive(l.counts)
    && l.delivered == Expand(All(r, l)[..|l.counts|], l.counts)
  }

  /** A torn delivery is repeated once more, as soon as the line is read again. */
  ghost predicate Accounted(r: Reader, l: Log) {
    if AtValidLine(r, l) then |l.counts| == Passed(r, l) + 1 && Repeats(l.counts) == l.torn
    else
      || (|l.counts| == Passed(r, l) && Repeats(l.counts) == l.torn)
      || (|l.counts| == Passed(r, l) + 1 && Repeats(l.counts) + 1 == l.torn)
  }

  ghost predicate Inv(r: Reader, l: Log) {
    InPlace(r, l) && Counted(r, l) && Accounted(r, l)
  }

  lemma PositionsInFile(r: Reader, l: Log)
    requires InPlace(r, l)
    ensures l.start <= l.saved <= l.pos <= |l.file| && Boundary(l.file, l.start, l.pos)
    ensures Events(r, l.file, l.start, l.pos) == Events(r, l.file, l.start, l.saved)
  {
    BoundaryWithin(l.file, l.start, l.saved);
    BoundaryWithin(l.file, l.saved, l.pos);
    EventsConcat(r, l.file, l.start, l.saved, l.pos);
    assert Events(r, l.file, l.start, l.saved) + [] == Events(r, l.file, l.start, l.saved);
  }

  /** The event of the line at the reading position is the next of all. */
  lemma NextEvent(r: Reader, l: Log)
    requires InPlace(r, l) && l.pos < |l.file| && VerdictAt(r, l.file, l.pos).Valid?
    ensures Passed(r, l) < |All(r, l)| && All(r, l)[Passed(r, l)] == VerdictAt(r, l.file, l.pos).event
  {
    PositionsInFile(r, l);
    EventsConcat(r, l.file, l.start, l.pos, |l.file|);
    assert Events(r, l.file, l.pos, |l.file|)[0] == VerdictAt(r, l.file, l.pos).event;
  }

  lemma ReadKeepsInv(r: Reader, l: Log)
    requires Inv(r, l) && l.unsaved.None? && l.pos < |l.file|
    ensures Inv(r, ReadStep(r, l))
  {
    hide VerdictAt, Boundary, Events, LineEnd, Expand, Repeats;
    var l2 := ReadStep(r, l);
    var v := VerdictAt(r, l.file, l.pos);
    PositionsInFile(r, l);
    NextLine(r, l.file, l.saved, l.pos);
    NextLine(r, l.file, l.start, l.pos);
    if v.Valid? {
      NextEvent(r, l);
      var i := Passed(r, l);
      CountOne(All(r, l)[..i + 1], l.counts, v.event, i);
      assert All(r, l)[..i + 1][..|l.counts|] == All(r, l)[..|l.counts|];
    }
    hide VerdictAt, Boundary, Events, LineEnd, Expand, Repeats;
  }

  lemma SaveKeepsInv(r: Reader, l: Log)
    requires Inv(r, l) && l.unsaved.Some?
    ensures Inv(r, NextLog(r, l, Save))
  {
    hide VerdictAt, Boundary, Events, LineEnd, Expand, Repeats;
    PositionsInFile(r, l);
    NextLine(r, l.file, l.start, l.pos);
    var l2 := NextLog(r, l, Save);
    NoStretch(r, l2.file, l2.saved);
    hide VerdictAt, Boundary, Events, LineEnd, Expand, Repeats;
  }

  lemma FinishKeepsInv(r: Reader, l: Log)
    requires Inv(r, l) && l.unsaved.None? && l.pos >= |l.file|
    ensures Inv(r, NextLog(r, l, Finish))
  {
    hide VerdictAt, Boundary, Events, LineEnd, Expand, Repeats;
    PositionsInFile(r, l);
    var l2 := NextLog(r, l, Finish);
    NoStretch(r, l2.file, l2.saved);
    hide VerdictAt, Boundary, Events, LineEnd, Expand, Repeats;
  }

  lemma CrashKeepsInv(r: Reader, l: Log)
    requires Inv(r, l)
    ensures Inv(r, CrashStep(r, l))
  {
    hide VerdictAt, Boundary, Events, LineEnd, Expand, Repeats;
    PositionsInFile(r, l);
    var l2 := CrashStep(r, l);
    NoStretch(r, l2.file, l2.saved);
    hide VerdictAt, Boundary, Events, LineEnd, Expand, Repeats;
  }

  lemma AppendKeepsInv(r: Reader, l: Log, more: string)
    requires Inv(r, l) && Terminated(more)
    ensures Inv(r, NextLog(r, l, Append(more)))
  {
    hide Judge, LineAt, Boundary, Events, LineEnd, Expand, Repeats;
    PositionsInFile(r, l);
    var l2 := NextLog(r, l, Append(more));
    EventsStable(r, l.file, more, l.start, l.saved);
    EventsStable(r, l.file, more, l.saved, l.pos);
    EventsStable(r, l.file, more, l.start, l.pos);
    if l.pos < |l.file| {
      LineEndStable(l.file, more, l.pos);
    }
    AllGrows(r, l, more);
    assert All(r, l2)[..|l.counts|] == All(r, l)[..|l.counts|];
  }

  /** Appending whole lines only adds events at the end. */
  lemma AllGrows(r: Reader, l: Log, more: string)
    requires Terminated(l.file) && l.start <= |l.file|
    ensures All(r, l) <= All(r, l.(file := l.file + more))
  {
    EventsStable(r, l.file, more, l.start, |l.file|);
    WholeFile(l.file, l.start);
    EventsStable(r, l.file, more, l.start, |l.file|);
    EventsConcat(r, l.file + more, l.start, |l.file|, |l.file + more|);
  }

  lemma {:induction false} WholeFile(file: string, from: nat)
    requires from <= |file|
    ensures Boundary(file, from, |file|)
    decreases |file| - from
  {
    if from < |file| {
      WholeFile(file, LineEnd(file, from));
    }
  }

  lemma NextKeepsInv(r: Reader, l: Log, step: Step)
    requires Inv(r, l)
    ensures Inv(r, NextLog(r, l, step))
  {
    hide Inv;
    match step
    case Append(more) => if Terminated(more) { AppendKeepsInv(r, l, more); }
    case Read => if l.unsaved.None? && l.pos < |l.file| { ReadKeepsInv(r, l); }
    case Save => if l.unsaved.Some? { SaveKeepsInv(r, l); }
    case Finish => if l.unsaved.None? && l.pos >= |l.file| { FinishKeepsInv(r, l); }
    case Crash => CrashKeepsInv(r, l);
  }

  lemma {:induction false} RunKeepsInv(r: Reader, l: Log, steps: seq<Step>)
    requires Inv(r, l)
    ensures Inv(r, RunLog(r, l, steps))
    decreases |steps|
  {
    hide Inv, NextLog;
    if steps != [] {
      NextKeepsInv(r, l, steps[0]);
      RunKeepsInv(r, NextLog(r, l, steps[0]), steps[1..]);
    }
  }

  // ---- delivery guarantees -------------------------------------------------------------------------------

  function Crashes(steps: seq<Step>): nat {
    if steps == [] then 0 else (if steps[0].Crash? then 1 else 0) + Crashes(steps[1..])
  }

  lemma {:induction false} TornByCrashes(r: Reader, l: Log, steps: seq<Step>)
    ensures RunLog(r, l, steps).torn <= l.torn + Crashes(steps)
    decreases |steps|
  {
    if steps != [] {
      var l2 := NextLog(r, l, steps[0]);
      assert l2.torn <= l.torn + if steps[0].Crash? then 1 else 0;
      hide NextLog;
      TornByCrashes(r, l2, steps[1..]);
    }
  }

  lemma FreshIsInv(r: Reader, file: string, start: nat)
    requires Terminated(file) && start <= |file|
    ensures Inv(r, Fresh(file, start))
  {
    assert All(r, Fresh(file, start))[..0] == [];
  }

  /** Every crash of a run counts once. */
  lemma {:induction false} CrashesSnoc(steps: seq<Step>, step: Step)
    ensures Crashes([]) == 0 && Crashes(steps + [step]) == Crashes(steps) + if step == Crash then 1 else 0
  {
    if steps == [] {
      assert [] + [step] == [step];
    } else {
      assert (steps + [step])[1..] == steps[1..] + [step];
      CrashesSnoc(steps[1..], step);
    }
  }

  /** Whole lines can be appended, and a crash goes back to what is saved, whatever the reader is at. */
  lemma GrowthAndCrashes(r: Reader, l: Log, more: string)
    ensures more == "" || more[|more| - 1] == '\n' ==> NextLog(r, l, Append(more)) == l.(file := l.file + more)
    ensures var l2 := NextLog(r, l, Crash);
            && l2.file == l.file && l2.delivered == l.delivered && l2.saved == l.saved && l2.pos == l.saved
            && l2.unsaved == None
  {
  }

  /**
   * Crash-tolerant delivery: over any run, with whole lines appended at any time and
   * crashes anywhere, what was delivered are the authenticated events of the file
   * from the first one on, in order, none skipped, with at most one immediate repeat
   * per crash.
   */
  lemma CrashTolerantDelivery(r: Reader, file: string, start: nat, steps: seq<Step>)
    requires (file == "" || file[|file| - 1] == '\n') && start <= |file|
    ensures var l := RunLog(r, Fresh(file, start), steps);
            && |l.counts| <= |All(r, l)| && l.delivered == Expand(All(r, l)[..|l.counts|], l.counts)
            && Positive(l.counts) && Repeats(l.counts) <= Crashes(steps)
  {
    var l := RunLog(r, Fresh(file, start), steps);
    FreshIsInv(r, file, start);
    RunKeepsInv(r, Fresh(file, start), steps);
    TornByCrashes(r, Fresh(file, start), steps);
    hide RunLog, All, Passed, AtValidLine;
  }

  lemma CaughtUp(r: Reader, l: Log)
    requires Inv(r, l) && l.unsaved.None? && l.pos == |l.file|
    ensures |l.counts| == |All(r, l)| && l.delivered == Expand(All(r, l), l.counts) && Repeats(l.counts) == l.torn
  {
    assert Passed(r, l) == |All(r, l)|;
    assert All(r, l)[..|All(r, l)|] == All(r, l);
  }

  /**
   * Once caught up, every event of the file has been delivered, and the repeats are
   * exactly the crashes that fell between a delivery and its save.
   */
  lemma CaughtUpDelivery(r: Reader, file: string, start: nat, steps: seq<Step>)
    requires (file == "" || file[|file| - 1] == '\n') && start <= |file|
    requires var l := RunLog(r, Fresh(file, start), steps); l.unsaved.None? && l.pos == |l.file|
    ensures var l := RunLog(r, Fresh(file, start), steps);
            |l.counts| == |All(r, l)| && l.delivered == Expand(All(r, l), l.counts) && Repeats(l.counts) == l.torn
  {
    FreshIsInv(r, file, start);
    RunKeepsInv(r, Fresh(file, start), steps);
    CaughtUp(r, RunLog(r, Fresh(file, start), steps));
  }

  /** Without a torn delivery there is no repeat at all. */
  lemma {:induction false} NoRepeats(events: seq<HookEvent>, counts: seq<nat>)
    requires |events| == |counts| && Positive(counts)
    ensures Repeats(counts) >= 0
    ensures Repeats(counts) == 0 ==> Expand(events, counts) == events
  {
    if events != [] {
      var n := |events| - 1;
      NoRepeats(events[..n], counts[..n]);
      if Repeats(counts) == 0 {
        assert Repeat(events[n], 1) == [events[n]];
        assert events[..n] + [events[n]] == events;
      }
    }
  }

  // ---- growth ----------------------------------------------------------------------------------------------

  function Joined(chunks: seq<string>): string {
    if chunks == [] then "" else chunks[0] + Joined(chunks[1..])
  }

  /** The events consumed when the file is read to its end after each growth. */
  function EventsByChunk(r: Reader, file: string, chunks: seq<string>): seq<HookEvent>
    decreases |chunks|
  {
    if chunks == [] then []
    else
      var grown := file + chunks[0];
      Events(r, grown, |file|, |grown|) + EventsByChunk(r, grown, chunks[1..])
  }

  /**
   * At whatever whole-line growth points the file is read, the same events are
   * consumed as in one run over all of it.
   */
  lemma {:induction false} ChunkingIndependence(r: Reader, file: string, chunks: seq<string>)
    requires Terminated(file) && forall i :: 0 <= i < |chunks| ==> Terminated(chunks[i])
    ensures EventsByChunk(r, file, chunks) == Events(r, file + Joined(chunks), |file|, |file + Joined(chunks)|)
    decreases |chunks|
  {
    hide Events, Boundary, LineEnd;
    if chunks == [] {
      NoStretch(r, file, |file|);
      assert file + Joined(chunks) == file;
    } else {
      var grown, rest := file + chunks[0], Joined(chunks[1..]);
      ChunkingIndependence(r, grown, chunks[1..]);
      assert grown + rest == file + Joined(chunks);
      EventsStable(r, grown, rest, |file|, |grown|);
      WholeFile(grown, |file|);
      EventsConcat(r, grown + rest, |file|, |grown|, |grown + rest|);
    }
  }

  lemma {:induction false} OneLine(line: string, from: nat)
    requires from < |line| && forall i :: from <= i < |line| - 1 ==> line[i] != '\n'
    ensures LineEnd(line, from) == |line|
    decreases |line| - from
  {
    if from + 1 < |line| {
      OneLine(line, from + 1);
    }
  }

  /** Of the file up to a position after the first line, the first line is judged alone. */
  lemma FirstLine(r: Reader, done: string, head: string)
    requires head != "" && '\n' !in head
    ensures Events(r, done + head, |done|, |done + head|) == EventOf(Judge(r, head))
  {
    var cut := done + head;
    forall i | |done| <= i < |cut|
      ensures cut[i] == head[i - |done|] != '\n'
    {
      assert head[i - |done|] in head;
    }
    OneLine(cut, |done|);
    assert cut[|done|..|cut|] == head;
    assert Events(r, cut, |cut|, |cut|) == [];
  }

  /** A line that was cut ends where its rest ends. */
  lemma {:induction false} CutLineEnds(file: string, from: nat, cut: nat)
    requires from <= cut < |file| && forall i :: from <= i < cut ==> file[i] != '\n'
    ensures LineEnd(file, from) == LineEnd(file, cut)
    decreases cut - from
  {
    if from < cut {
      CutLineEnds(file, from + 1, cut);
    }
  }

  lemma SameTail<T>(a: seq<T>, b: seq<T>, tail: seq<T>)
    ensures a + tail == b + tail <==> a == b
  {
    if a + tail == b + tail {
      assert |a| == |b|;
      assert a == (a + tail)[..|a|] && b == (b + tail)[..|b|];
    }
  }

  /**
   * A line that is read before its end was written is taken for two lines.  That
   * delivers the same events as reading it whole exactly when the two pieces, judged
   * as lines, amount to the whole line.
   */
  lemma TornLineIff(r: Reader, done: string, head: string, rest: string)
    requires head != "" && '\n' !in head && rest != ""
    ensures var cut := done + head;
            var file := cut + rest;
            var line := LineAt(file, |cut|);
            (Events(r, cut, |done|, |cut|) + Events(r, file, |cut|, |file|) == Events(r, file, |done|, |file|))
              <==> (EventOf(Judge(r, head)) + EventOf(Judge(r, line)) == EventOf(Judge(r, head + line)))
  {
    var cut := done + head;
    var file := cut + rest;
    var line := LineAt(file, |cut|);
    FirstLine(r, done, head);
    var tail := LineInTwo(r, done, head, rest);
    hide Judge, LineEnd, LineAt, Events, EventOf;
    var first, second, whole := EventOf(Judge(r, head)), EventOf(Judge(r, line)), EventOf(Judge(r, head + line));
    assert first + (second + tail) == (first + second) + tail;
    SameTail(first + second, whole, tail);
  }

  /** The events from the start of a line, and from a position within it. */
  lemma LineInTwo(r: Reader, done: string, head: string, rest: string) returns (tail: seq<HookEvent>)
    requires head != "" && '\n' !in head && rest != ""
    ensures var cut := done + head;
            var file := cut + rest;
            var line := LineAt(file, |cut|);
            && Events(r, file, |cut|, |file|) == EventOf(Judge(r, line)) + tail
            && Events(r, file, |done|, |file|) == EventOf(Judge(r, head + line)) + tail
  {
    var cut := done + head;
    var file := cut + rest;
    var end := LineEnd(file, |cut|);
    forall i | |done| <= i < |cut|
      ensures file[i] != '\n'
    {
      assert file[i] == head[i - |done|] && head[i - |done|] in head;
    }
    CutLineEnds(file, |done|, |cut|);
    assert LineAt(file, |done|) == head + LineAt(file, |cut|);
    tail := Events(r, file, end, |file|);
    hide Judge, LineEnd, LineAt, EventOf;
  }

  /** A reader that knows one line. */
  function OneEventReader(e: HookEvent): Reader {
    Reader((line: string) => if line == "{}" then Some(Signed("secret", e)) else None, "secret")
  }

  /** Read after its first character was written, the line "{}" is lost. */
  lemma TornLineIsLost(e: HookEvent)
    ensures var r := OneEventReader(e);
            && Events(r, "{}\n", 0, 3) == [e]
            && Events(r, "{", 0, 1) + Events(r, "{}\n", 1, 3) == []
  {
  }

  // ---- the program ------------------------------------------------------------------------------------------

  /** Reading steps never crash, append or skip. */
  predicate OnlyReads(steps: seq<Step>) {
    forall i :: 0 <= i < |steps| ==> steps[i].Read? || steps[i].Save? || steps[i].Finish?
  }

  lemma {:induction false} RunSnoc(r: Reader, l: Log, steps: seq<Step>, step: Step)
    ensures RunLog(r, l, steps + [step]) == NextLog(r, RunLog(r, l, steps), step)
    decreases |steps|
  {
    hide NextLog;
    if steps == [] {
      assert steps + [step] == [step];
      assert [step][1..] == [];
      assert RunLog(r, NextLog(r, l, step), []) == NextLog(r, l, step);
    } else {
      assert (steps + [step])[1..] == steps[1..] + [step];
      RunSnoc(r, NextLog(r, l, steps[0]), steps[1..], step);
    }
  }

  /** Reading one line, and saving after all but blank ones, as steps of the machine. */
  lemma LineSteps(r: Reader, l: Log, steps: seq<Step>)
    requires RunLog(r, l, steps).unsaved.None? && RunLog(r, l, steps).pos < |RunLog(r, l, steps).file|
    ensures var m, v := RunLog(r, l, steps), VerdictAt(r, RunLog(r, l, steps).file, RunLog(r, l, steps).pos);
            && (v.Blank? ==> RunLog(r, l, steps + [Read]) == m.(pos := LineEnd(m.file, m.pos)))
            && (!v.Blank? ==> ReadAndSaved(m, RunLog(r, l, steps + [Read] + [Save]), LineEnd(m.file, m.pos), v))
    ensures OnlyReads(steps) ==> OnlyReads(steps + [Read]) && OnlyReads(steps + [Read] + [Save])
  {
    RunSnoc(r, l, steps, Read);
    RunSnoc(r, l, steps + [Read], Save);
    hide RunLog, VerdictAt, LineEnd;
  }

  ghost predicate ReadAndSaved(m: Log, m2: Log, end: nat, v: Verdict) {
    && m2.file == m.file && m2.pos == end && m2.saved == end && m2.unsaved.None?
    && m2.delivered == if v.Valid? then m.delivered + [v.event] else m.delivered
  }

  /** Exactly the events of a stretch of the file were handled. */
  ghost predicate Consumed(r: Reader, file: string, from: nat, to: nat, before: seq<HookEvent>, after: seq<HookEvent>) {
    after == before + Events(r, file, from, to)
  }

  lemma ConsumedOne(r: Reader, file: string, from: nat, pos: nat, end: nat, v: Verdict,
                    before: seq<HookEvent>, after: seq<HookEvent>)
    requires Consumed(r, file, from, pos, before, after)
    requires Events(r, file, from, end) == Events(r, file, from, pos) + EventOf(v)
    ensures Consumed(r, file, from, end, before, if v.Valid? then after + [v.event] else after)
  {
    hide Events;
    assert Events(r, file, from, pos) + [] == Events(r, file, from, pos);
    assert before + (Events(r, file, from, pos) + EventOf(v)) == (before + Events(r, file, from, pos)) + EventOf(v);
  }

  /** What the loop sees of a line. */
  lemma LineLength(file: string, pos: nat)
    ensures |LineAt(file, pos)| == 0 <==> pos >= |file|
    ensures pos < |file| ==>
              && pos + |LineAt(file, pos)| == LineEnd(file, pos) <= |file|
              && (LineAt(file, pos)[|LineAt(file, pos)| - 1] != '\n' ==> LineEnd(file, pos) == |file|)
  {
    if pos < |file| && file[LineEnd(file, pos) - 1] != '\n' {
      UnterminatedIsLast(file, pos);
    }
  }

  lemma FinishStep(r: Reader, l: Log, steps: seq<Step>)
    requires RunLog(r, l, steps).unsaved.None? && RunLog(r, l, steps).pos >= |RunLog(r, l, steps).file|
    ensures RunLog(r, l, steps + [Finish]) == RunLog(r, l, steps).(saved := RunLog(r, l, steps).pos)
    ensures OnlyReads(steps) ==> OnlyReads(steps + [Finish])
  {
    RunSnoc(r, l, steps, Finish);
  }

  lemma ReadToEnd(r: Reader, file: string, start: nat, pos: nat)
    requires pos >= |file| && (pos == start || pos <= |file|) && start <= pos
    ensures pos == Max(start, |file|) && Events(r, file, start, pos) == Events(r, file, start, |file|)
    ensures SavePoints(file, start, pos) == SavePoints(file, start, |file|)
  {
  }

  /** A line without a newline at its end is the last. */
  lemma {:induction false} UnterminatedIsLast(file: string, from: nat)
    requires from < |file| && file[LineEnd(file, from) - 1] != '\n'
    ensures LineEnd(file, from) == |file|
    decreases |file| - from
  {
    if file[from] != '\n' && from + 1 < |file| {
      UnterminatedIsLast(file, from + 1);
    }
  }

  /** Offsets that only grow, each at the start of a line. */
  ghost predicate LineStarts(file: string, from: nat, offsets: seq<nat>, to: nat) {
    && (forall i :: 0 <= i < |offsets| ==> Boundary(file, from, offsets[i]) && offsets[i] <= to)
    && (forall i, j :: 0 <= i < j < |offsets| ==> offsets[i] <= offsets[j])
  }

  lemma OneMoreStart(file: string, from: nat, offsets: seq<nat>, to: nat, next: nat)
    requires LineStarts(file, from, offsets, to) && to <= next && Boundary(file, from, next)
    ensures LineStarts(file, from, offsets, next) && LineStarts(file, from, offsets + [next], next)
  {
    hide Boundary;
  }

  /** Bookkeeping of one run: where and from what it started, the steps it took, the offsets it saved. */
  datatype Consumption = Consumption(start: nat, before: seq<HookEvent>, log: Log, steps: seq<Step>, saves: seq<nat>)

  /**
   * Where a run stands before reading at a position, with what is saved and what was
   * handled by then; `earlier` is what the programs before this one delivered.
   */
  ghost predicate Stands(r: Reader, earlier: seq<HookEvent>, saved: nat, handled: seq<HookEvent>,
                         file: string, pos: nat, c: Consumption)
  {
    && c.start <= pos && (pos > c.start ==> pos <= |file|) && Boundary(file, c.start, pos)
    && Consumed(r, file, c.start, pos, c.before, handled)
    && OnlyReads(c.steps) && MirroredBy(RunLog(r, c.log, c.steps), file, pos, saved, earlier + handled)
    && LineStarts(file, c.start, c.saves, pos) && c.saves == SavePoints(file, c.start, pos)
  }

  /** The machine is between two lines, at the given position. */
  predicate MirroredBy(l: Log, file: string, pos: nat, saved: nat, delivered: seq<HookEvent>) {
    l.file == file && l.pos == pos && l.saved == saved && l.unsaved.None? && l.delivered == delivered
  }

  /** One line more. */
  lemma LineStands(r: Reader, earlier: seq<HookEvent>, saved: nat, handled: seq<HookEvent>, file: string, pos: nat,
                   c: Consumption)
    requires pos < |file| && Stands(r, earlier, saved, handled, file, pos, c)
    ensures var end, v := LineEnd(file, pos), VerdictAt(r, file, pos);
            if v.Blank? then Stands(r, earlier, saved, handled, file, end, c.(steps := c.steps + [Read]))
            else Stands(r, earlier, end, if v.Valid? then handled + [v.event] else handled, file, end,
                        c.(steps := c.steps + [Read] + [Save], saves := c.saves + [end]))
  {
    hide Events, Boundary, LineEnd, LineAt, Judge, VerdictAt, TrimRight, RunLog, NextLog, OnlyReads, LineStarts,
         Consumed, EventOf, SavePoints;
    var end, v := LineEnd(file, pos), VerdictAt(r, file, pos);
    LineRead(r, file, c.start, pos);
    LineSteps(r, c.log, c.steps);
    SavePointsNext(file, c.start, pos);
    OneMoreStart(file, c.start, c.saves, pos, end);
    ConsumedOne(r, file, c.start, pos, end, v, c.before, handled);
    assert v.Valid? ==> earlier + handled + [v.event] == earlier + (handled + [v.event]);
    assert c.saves + [] == c.saves;
  }

  /** What one line adds, with the verdict on it. */
  lemma LineRead(r: Reader, file: string, start: nat, pos: nat)
    requires Boundary(file, start, pos) && pos < |file|
    ensures pos < LineEnd(file, pos) <= |file| && Boundary(file, start, LineEnd(file, pos))
    ensures Events(r, file, start, LineEnd(file, pos))
         == Events(r, file, start, pos) + EventOf(VerdictAt(r, file, pos))
    ensures VerdictAt(r, file, pos).Blank? <==> TrimRight(LineAt(file, pos)) == ""
  {
    NextLine(r, file, start, pos);
    hide Events, Boundary, LineEnd, TrimRight;
  }

  class EventWatcher {
    const reader: Reader
    ghost const earlier: seq<HookEvent>
    var lastPos: nat
    var offsetFile: nat
    var handled: seq<HookEvent>

    /**
     * Start, with an offset file: consumption resumes where it says.  `earlier` is what
     * the programs before this one delivered.
     */
    constructor (reader: Reader, offsetFile: nat, ghost earlier: seq<HookEvent>)
      ensures this.reader == reader && this.earlier == earlier
      ensures lastPos == offsetFile && this.offsetFile == offsetFile && handled == []
    {
      this.reader := reader;
      this.earlier := earlier;
      this.lastPos, this.offsetFile, handled := offsetFile, offsetFile, [];
    }

    ghost predicate Mirrors(l: Log, file: string)
      reads this
    {
      MirroredBy(l, file, lastPos, offsetFile, earlier + handled)
    }

    method SaveOffset(offset: nat)
      modifies this`lastPos, this`offsetFile
      ensures lastPos == offset && offsetFile == offset
    {
      lastPos, offsetFile := offset, offset;
    }

    /** Where a run of handleNewLines stands before reading at a position. */
    ghost predicate InRun(file: string, pos: nat, c: Consumption)
      reads this
    {
      Stands(reader, earlier, offsetFile, handled, file, pos, c)
    }

    /** One turn of the loop: judge the line, deliver it if it is valid, and save unless it is blank. */
    method ConsumeLine(file: string, pos: nat, ghost c: Consumption) returns (valid: bool, ghost c': Consumption)
      requires pos < |file| && InRun(file, pos, c)
      modifies this
      ensures InRun(file, LineEnd(file, pos), c') && c'.start == c.start && c'.before == c.before && c'.log == c.log
      ensures valid == VerdictAt(reader, file, pos).Valid?
    {
      LineStands(reader, earlier, offsetFile, handled, file, pos, c);
      hide Stands, LineEnd, LineAt, Judge;
      LineLength(file, pos);
      var lineBytes := LineAt(file, pos);
      var end := pos + |lineBytes|;
      var verdict := Judge(reader, lineBytes);
      valid := verdict.Valid?;
      if verdict.Blank? {
        c' := c.(steps := c.steps + [Read]);
        return;
      }
      c' := c.(steps := c.steps + [Read] + [Save], saves := c.saves + [end]);
      if verdict.Valid? {
        handled := handled + [verdict.event];
      }
      SaveOffset(end);
    }

    /**
     * handleNewLines, on the content of the file, or None when it cannot be opened.
     * It takes reading steps of the machine only; `saves` are the offsets it wrote.
     */
    method HandleNewLines(content: Option<string>, ghost l: Log) returns (ghost steps: seq<Step>, ghost saves: seq<nat>)
      requires content.Some? ==> Mirrors(l, content.value)
      modifies this
      ensures content.None? ==> lastPos == old(lastPos) && offsetFile == old(offsetFile) && handled == old(handled)
      ensures content.Some? ==> lastPos == Max(old(lastPos), |content.value|) && offsetFile == lastPos
      ensures content.Some? ==> Consumed(reader, content.value, old(lastPos), |content.value|, old(handled), handled)
      ensures content.Some? ==> OnlyReads(steps) && Mirrors(RunLog(reader, l, steps), content.value)
      ensures content.Some? ==> LineStarts(content.value, old(lastPos), saves, lastPos)
      ensures content.Some? ==> saves == SavePoints(content.value, old(lastPos), |content.value|) + [lastPos]
    {
      steps, saves := [], [];
      if content.None? {
        return;
      }
      var byteOffset;
      ghost var c;
      byteOffset, c := ConsumeLines(content.value, l);
      hide InRun, Events, RunLog, NextLog, OnlyReads, LineStarts, Consumed, Judge, SavePoints;
      RunEnds(content.value, byteOffset, c);
      steps, saves := c.steps + [Finish], c.saves + [byteOffset];
      lastPos := byteOffset;
      SaveOffset(lastPos);
    }

    /** The reading loop. */
    method ConsumeLines(file: string, ghost l: Log) returns (byteOffset: nat, ghost c: Consumption)
      requires Mirrors(l, file)
      modifies this
      ensures c.start == old(lastPos) && c.before == old(handled) && c.log == l
      ensures InRun(file, byteOffset, c) && byteOffset >= |file|
    {
      hide *;
      byteOffset := lastPos;
      c := Consumption(lastPos, handled, l, [], []);
      RunStarts(file, c);
      while true
        invariant InRun(file, byteOffset, c) && c.start == old(lastPos) && c.before == old(handled) && c.log == l
        decreases |file| - byteOffset
      {
        var lineBytes := LineAt(file, byteOffset);
        LineLength(file, byteOffset);
        if |lineBytes| == 0 {
          break;
        }
        var atEof := lineBytes[|lineBytes| - 1] != '\n';
        var valid;
        valid, c := ConsumeLine(file, byteOffset, c);
        byteOffset := byteOffset + |lineBytes|;
        if valid && atEof {
          break;
        }
      }
    }

    lemma RunStarts(file: string, c: Consumption)
      requires c.start == lastPos && c.before == handled && c.steps == [] && c.saves == [] && Mirrors(c.log, file)
      ensures InRun(file, lastPos, c)
    {
      assert handled + [] == handled;
    }

    lemma RunEnds(file: string, pos: nat, c: Consumption)
      requires pos >= |file| && InRun(file, pos, c)
      ensures pos == Max(c.start, |file|) && Consumed(reader, file, c.start, |file|, c.before, handled)
      ensures OnlyReads(c.steps + [Finish]) && LineStarts(file, c.start, c.saves + [pos], pos)
      ensures RunLog(reader, c.log, c.steps + [Finish]) == RunLog(reader, c.log, c.steps).(saved := pos)
      ensures MirroredBy(RunLog(reader, c.log, c.steps), file, pos, offsetFile, earlier + handled)
      ensures c.saves == SavePoints(file, c.start, |file|)
    {
      ReadToEnd(reader, file, c.start, pos);
      FinishStep(reader, c.log, c.steps);
      OneMoreStart(file, c.start, c.saves, pos, pos);
    }
  }

  // ---- which events are authenticated -------------------------------------------------------------------------

  predicate IsBreak(c: char) {
    c == '\r' || c == '\n'
  }

  /** The text of a line: without the line breaks at its end. */
  ghost predicate IsText(line: string, text: string) {
    && text <= line && (forall i :: |text| <= i < |line| ==> IsBreak(line[i]))
    && (text != "" ==> !IsBreak(text[|text| - 1]))
  }

  lemma {:induction false} TrimmedIsText(line: string)
    ensures IsText(line, TrimRight(line))
  {
    if line != "" && IsBreak(line[|line| - 1]) {
      TrimmedIsText(line[..|line| - 1]);
    }
  }

  lemma TextIsUnique(line: string, a: string, b: string)
    requires IsText(line, a) && IsText(line, b)
    ensures a == b
  {
    assert |a| == |b|;
  }

  /** From here to there is one line: no newline but at its end, which otherwise is the end of the file. */
  ghost predicate IsLine(file: string, from: nat, to: nat) {
    && from < to <= |file| && (forall i :: from <= i < to - 1 ==> file[i] != '\n')
    && (file[to - 1] == '\n' || to == |file|)
  }

  lemma {:induction false} LineEndIsLine(file: string, from: nat)
    requires from < |file|
    ensures IsLine(file, from, LineEnd(file, from))
    decreases |file| - from
  {
    if file[from] != '\n' && from + 1 < |file| {
      LineEndIsLine(file, from + 1);
    }
  }

  lemma LineIsUnique(file: string, from: nat, a: nat, b: nat)
    requires IsLine(file, from, a) && IsLine(file, from, b)
    ensures a == b
  {
  }

  /** The text is signed with the daemon's token, which is not empty, and carries the event. */
  predicate Authentic(r: Reader, text: string, e: HookEvent) {
    text != "" && r.token != "" && r.parse(text) == Some(Signed(r.token, e))
  }

  ghost predicate LineTextAt(file: string, pos: nat, text: string) {
    exists end: nat :: IsLine(file, pos, end) && IsText(file[pos..end], text)
  }

  /** The line that starts here carries the event. */
  ghost predicate CarriesAt(r: Reader, file: string, pos: nat, e: HookEvent) {
    exists text :: LineTextAt(file, pos, text) && Authentic(r, text, e)
  }

  predicate StartsLine(file: string, from: nat, pos: nat) {
    from <= pos < |file| && (pos == from || file[pos - 1] == '\n')
  }

  lemma TextOfLine(file: string, pos: nat)
    requires pos < |file|
    ensures forall text :: LineTextAt(file, pos, text) <==> text == TrimRight(LineAt(file, pos))
  {
    LineEndIsLine(file, pos);
    TrimmedIsText(LineAt(file, pos));
    forall text | LineTextAt(file, pos, text)
      ensures text == TrimRight(LineAt(file, pos))
    {
      var end: nat :| IsLine(file, pos, end) && IsText(file[pos..end], text);
      LineIsUnique(file, pos, end, LineEnd(file, pos));
      TextIsUnique(file[pos..end], text, TrimRight(LineAt(file, pos)));
    }
  }

  lemma VerdictOfLine(r: Reader, file: string, pos: nat)
    requires pos < |file|
    ensures forall e :: VerdictAt(r, file, pos) == Valid(e) <==> CarriesAt(r, file, pos, e)
  {
    TextOfLine(file, pos);
    var text := TrimRight(LineAt(file, pos));
    assert LineTextAt(file, pos, text);
    hide TrimRight, LineAt, LineTextAt;
  }

  /** These lines start in the stretch, and each carries its event. */
  ghost predicate AllCarry(r: Reader, file: string, from: nat, to: nat, starts: seq<nat>, events: seq<HookEvent>) {
    && |starts| == |events|
    && forall i :: 0 <= i < |starts| ==>
         starts[i] < to && StartsLine(file, from, starts[i]) && CarriesAt(r, file, starts[i], events[i])
  }

  predicate Rising(starts: seq<nat>) {
    forall i, j :: 0 <= i < j < |starts| ==> starts[i] < starts[j]
  }

  /** No other line that starts in the stretch carries an event. */
  ghost predicate NoneElse(r: Reader, file: string, from: nat, to: nat, starts: seq<nat>) {
    forall pos: nat, e :: pos < to && StartsLine(file, from, pos) && CarriesAt(r, file, pos, e) ==> pos in starts
  }

  /** `starts` are where the lines of a stretch start that carry events, and `events` are those, in order. */
  ghost predicate CarriersOf(r: Reader, file: string, from: nat, to: nat, starts: seq<nat>, events: seq<HookEvent>) {
    AllCarry(r, file, from, to, starts, events) && Rising(starts) && NoneElse(r, file, from, to, starts)
  }

  /** Lines start at the start of a stretch, or in what follows its first line. */
  lemma StartsAfterLine(file: string, from: nat, end: nat, pos: nat)
    requires IsLine(file, from, end)
    ensures StartsLine(file, from, pos) <==> pos == from || StartsLine(file, end, pos)
  {
  }

  lemma LineSkipped(r: Reader, file: string, from: nat, end: nat, to: nat, rest: seq<nat>, events: seq<HookEvent>)
    requires IsLine(file, from, end) && CarriersOf(r, file, end, to, rest, events)
    requires forall e :: !CarriesAt(r, file, from, e)
    ensures CarriersOf(r, file, from, to, rest, events)
  {
    forall pos: nat
      ensures StartsLine(file, from, pos) <==> pos == from || StartsLine(file, end, pos)
    {
      StartsAfterLine(file, from, end, pos);
    }
    hide CarriesAt, IsLine, StartsLine;
  }

  lemma LineTaken(r: Reader, file: string, from: nat, end: nat, to: nat, rest: seq<nat>, events: seq<HookEvent>,
                  e: HookEvent)
    requires from < to && IsLine(file, from, end) && CarriersOf(r, file, end, to, rest, events)
    requires CarriesAt(r, file, from, e)
    ensures CarriersOf(r, file, from, to, [from] + rest, [e] + events)
  {
    TakenCarries(r, file, from, end, to, rest, events, e);
    assert Rising([from] + rest) by {
      assert forall i :: 0 <= i < |rest| ==> from < end <= rest[i];
      hide StartsLine, IsLine, CarriesAt;
    }
    NoneElseWith(r, file, from, end, to, rest);
    hide AllCarry, Rising, NoneElse;
  }

  lemma TakenCarries(r: Reader, file: string, from: nat, end: nat, to: nat, rest: seq<nat>, events: seq<HookEvent>,
                     e: HookEvent)
    requires from < to && IsLine(file, from, end) && AllCarry(r, file, end, to, rest, events)
    requires CarriesAt(r, file, from, e)
    ensures AllCarry(r, file, from, to, [from] + rest, [e] + events)
  {
    forall i | 0 <= i < |rest|
      ensures StartsLine(file, from, rest[i])
    {
      StartsAfterLine(file, from, end, rest[i]);
    }
    assert StartsLine(file, from, from);
    hide StartsLine, IsLine, CarriesAt;
  }

  lemma NoneElseWith(r: Reader, file: string, from: nat, end: nat, to: nat, rest: seq<nat>)
    requires IsLine(file, from, end) && NoneElse(r, file, end, to, rest)
    ensures NoneElse(r, file, from, to, [from] + rest)
  {
    hide CarriesAt, StartsLine;
    forall pos: nat, e | pos < to && StartsLine(file, from, pos) && CarriesAt(r, file, pos, e)
      ensures pos in [from] + rest
    {
      StartsAfterLine(file, from, end, pos);
    }
  }

  /**
   * The events of a stretch are those of its lines that are signed with the daemon's
   * token, each once and in order.
   */
  lemma {:induction false} HandledAreAuthentic(r: Reader, file: string, from: nat, to: nat) returns (starts: seq<nat>)
    ensures CarriersOf(r, file, from, to, starts, Events(r, file, from, to))
    decreases |file| - from
  {
    if from >= to || from >= |file| {
      starts := [];
    } else {
      var end := LineEnd(file, from);
      var v := VerdictAt(r, file, from);
      LineEndIsLine(file, from);
      VerdictOfLine(r, file, from);
      var rest := HandledAreAuthentic(r, file, end, to);
      hide CarriersOf, CarriesAt, VerdictAt, LineEnd;
      if v.Valid? {
        LineTaken(r, file, from, end, to, rest, Events(r, file, end, to), v.event);
        starts := [from] + rest;
      } else {
        LineSkipped(r, file, from, end, to, rest, Events(r, file, end, to));
        assert [] + Events(r, file, end, to) == Events(r, file, end, to);
        starts := rest;
      }
    }
  }

  /** And the offset is saved after every line that is not blank, valid or not, and nowhere else. */
  lemma {:induction false} SavedAfterLines(file: string, from: nat, to: nat, at: nat)
    ensures at in SavePoints(file, from, to) <==>
              exists pos: nat, text :: pos < to && StartsLine(file, from, pos) && IsLine(file, pos, at)
                                       && IsText(file[pos..at], text) && text != ""
    decreases |file| - from
  {
    if from < to && from < |file| {
      var end := LineEnd(file, from);
      LineEndIsLine(file, from);
      TrimmedIsText(LineAt(file, from));
      SavedAfterLines(file, end, to, at);
      var text := TrimRight(LineAt(file, from));
      if at in SavePoints(file, from, to) {
        if at == end && text != "" {
          assert StartsLine(file, from, from) && IsText(file[from..at], text);
        } else {
          var pos: nat, t :| pos < to && StartsLine(file, end, pos) && IsLine(file, pos, at)
                             && IsText(file[pos..at], t) && t != "";
          StartsAfterLine(file, from, end, pos);
        }
      }
      if pos: nat, t :| pos < to && StartsLine(file, from, pos) && IsLine(file, pos, at)
                        && IsText(file[pos..at], t) && t != ""
      {
        StartsAfterLine(file, from, end, pos);
        if pos == from {
          LineIsUnique(file, from, at, end);
          TextIsUnique(file[pos..at], t, text);
        }
      }
    }
  }

  // ---- the program after a crash ------------------------------------------------------------------------------

  lemma {:induction false} ReadsKeepFile(r: Reader, l: Log, steps: seq<Step>)
    requires OnlyReads(steps)
    ensures RunLog(r, l, steps).start == l.start && RunLog(r, l, steps).torn == l.torn
    decreases |steps|
  {
    if steps != [] {
      var l2 := NextLog(r, l, steps[0]);
      assert l2.start == l.start && l2.torn == l.torn;
      assert OnlyReads(steps[1..]);
      hide NextLog, OnlyReads;
      ReadsKeepFile(r, l2, steps[1..]);
    }
  }

  /**
   * The program dies in any state that runs of the machine reach, in the middle of a
   * line too, and a new one starts from the offset file.  It is where the machine is
   * after its crash, and one run of handleNewLines catches up: what all programs
   * delivered together are the events of the file, in order, with one repeat for each
   * torn delivery.
   */
  method Restart(reader: Reader, offsetFile: nat, content: string, ghost l: Log)
      returns (w: EventWatcher, ghost steps: seq<Step>)
    requires Inv(reader, l) && l.saved == offsetFile && l.file == content
    ensures w.reader == reader && w.earlier == l.delivered && OnlyReads(steps)
    ensures var l2 := RunLog(reader, CrashStep(reader, l), steps);
            && Inv(reader, l2) && w.Mirrors(l2, content) && l2.start == l.start && l2.saved == w.offsetFile
            && l2.torn == l.torn + (if AtValidLine(reader, l) then 1 else 0)
            && l2.delivered == l.delivered + w.handled
            && |l2.counts| == |All(reader, l2)| && l2.delivered == Expand(All(reader, l2), l2.counts)
            && Repeats(l2.counts) == l2.torn
  {
    w := new EventWatcher(reader, offsetFile, l.delivered);
    ghost var l1 := CrashStep(reader, l);
    assert w.Mirrors(l1, content) by {
      assert l.delivered + [] == l.delivered;
    }
    CrashKeepsInv(reader, l);
    PositionsInFile(reader, l);
    ghost var saves;
    steps, saves := w.HandleNewLines(Some(content), l1);
    RunKeepsInv(reader, l1, steps);
    ReadsKeepFile(reader, l1, steps);
    CaughtUp(reader, RunLog(reader, l1, steps));
  }
}
