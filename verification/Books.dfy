/**
 * What the session manager keeps, as one value: the records, their rows, and the
 * notifications sent so far.  A trace of operations on single sessions acts on each
 * session separately, whatever the interleaving.
 */
module Books {
  import opened Basics
  import opened SessionTypes
  import opened SessionOps
  import opened Persistence
  import D = Deltas

  datatype Notification =
    | DeltaNote(key: string, changes: D.Changes)
    | AddedNote(key: string, view: D.View)
    | HierarchyNote

  /** What a notice, or none, adds to the notifications. */
  function NoteFor(key: string, notice: Option<D.Changes>): seq<Notification> {
    if notice.None? then [] else [DeltaNote(key, notice.value)]
  }

  datatype Book = Book(all: map<string, SessionState>, rows: map<string, Row>, log: seq<Notification>)

  /** One operation on one session. */
  datatype Deed = Deed(key: string, op: Op)

  ghost predicate Covers(b: Book, trace: seq<Deed>) {
    b.all.Keys <= b.rows.Keys && forall i :: 0 <= i < |trace| ==> trace[i].key in b.all
  }

  function Do(b: Book, d: Deed): Book
    requires d.key in b.all && d.key in b.rows
  {
    var s := b.all[d.key];
    Book(b.all[d.key := Next(s, d.op)], b.rows[d.key := StoreStep(b.rows[d.key], s, d.op)],
         b.log + NoteFor(d.key, D.Notice(s, d.op)))
  }

  function DoAll(b: Book, trace: seq<Deed>): (r: Book)
    requires Covers(b, trace)
    ensures r.all.Keys == b.all.Keys && r.rows.Keys == b.rows.Keys
  {
    if trace == [] then b else Do(DoAll(b, trace[..|trace| - 1]), trace[|trace| - 1])
  }

  lemma DoAllSnoc(b: Book, trace: seq<Deed>, d: Deed)
    requires Covers(b, trace) && d.key in b.all
    ensures Covers(b, trace + [d]) && DoAll(b, trace + [d]) == Do(DoAll(b, trace), d)
  {
    hide Do;
    assert (trace + [d])[..|trace|] == trace;
  }

  lemma {:induction false} DoAllConcat(b: Book, first: seq<Deed>, second: seq<Deed>)
    requires Covers(b, first) && Covers(b, second)
    ensures Covers(b, first + second) && Covers(DoAll(b, first), second)
    ensures DoAll(b, first + second) == DoAll(DoAll(b, first), second)
  {
    hide Do;
    if second == [] {
      assert first + second == first;
    } else {
      var n := |second| - 1;
      DoAllConcat(b, first, second[..n]);
      assert (first + second)[..|first + second| - 1] == first + second[..n];
    }
  }

  // ---- one session of a trace ----------------------------------------------------------------

  /** The operations on one session. */
  function OpsOf(trace: seq<Deed>, k: string): seq<Op> {
    if trace == [] then []
    else
      var d := trace[|trace| - 1];
      OpsOf(trace[..|trace| - 1], k) + if d.key == k then [d.op] else []
  }

  lemma OpsOfSnoc(trace: seq<Deed>, d: Deed, k: string)
    ensures OpsOf(trace + [d], k) == OpsOf(trace, k) + if d.key == k then [d.op] else []
  {
    assert (trace + [d])[..|trace|] == trace;
  }

  lemma OpsOfOne(d: Deed, k: string)
    ensures OpsOf([d], k) == if d.key == k then [d.op] else []
  {
    OpsOfSnoc([], d, k);
    assert [] + [d] == [d];
  }

  lemma {:induction false} OpsOfConcat(first: seq<Deed>, second: seq<Deed>, k: string)
    ensures OpsOf(first + second, k) == OpsOf(first, k) + OpsOf(second, k)
  {
    if second == [] {
      assert first + second == first;
    } else {
      var n := |second| - 1;
      OpsOfConcat(first, second[..n], k);
      assert (first + second)[..|first + second| - 1] == first + second[..n];
      var last := if second[n].key == k then [second[n].op] else [];
      assert OpsOf(first, k) + (OpsOf(second[..n], k) + last) == (OpsOf(first, k) + OpsOf(second[..n], k)) + last;
    }
  }

  predicate IsAbout(n: Notification, k: string) {
    !n.HierarchyNote? && n.key == k
  }

  /** The notifications about one session. */
  function NotesOf(log: seq<Notification>, k: string): seq<Notification> {
    if log == [] then []
    else
      var n := |log| - 1;
      NotesOf(log[..n], k) + if IsAbout(log[n], k) then [log[n]] else []
  }

  lemma NotesOfMore(log: seq<Notification>, key: string, notice: Option<D.Changes>, k: string)
    ensures NotesOf(log + NoteFor(key, notice), k) == NotesOf(log, k) + if key == k then NoteFor(key, notice) else []
  {
    if notice.None? {
      assert log + [] == log;
    } else {
      var note := DeltaNote(key, notice.value);
      assert (log + [note])[..|log|] == log;
    }
  }

  /** What a run of operations on one session announces. */
  function Announcements(k: string, s: SessionState, ops: seq<Op>): seq<Notification> {
    if ops == [] then []
    else
      var n := |ops| - 1;
      Announcements(k, s, ops[..n]) + NoteFor(k, D.Notice(Run(s, ops[..n]), ops[n]))
  }

  /** The record, the row and the announcements of one session follow its own operations only. */
  ghost predicate Followed(b: Book, r: Book, k: string, ops: seq<Op>)
    requires k in b.all && k in b.rows
  {
    && k in r.all && r.all[k] == Run(b.all[k], ops)
    && k in r.rows && r.rows[k] == RunStore(b.rows[k], b.all[k], ops)
    && b.log <= r.log && NotesOf(r.log[|b.log|..], k) == Announcements(k, b.all[k], ops)
  }

  lemma {:induction false} RunStoreSnoc(row: Row, s: SessionState, ops: seq<Op>, op: Op)
    ensures RunStore(row, s, ops + [op]) == StoreStep(RunStore(row, s, ops), Run(s, ops), op)
    decreases |ops|
  {
    hide StoreStep, Next;
    if ops == [] {
      assert ops + [op] == [op];
      assert [op][1..] == [];
      assert RunStore(StoreStep(row, s, op), Next(s, op), []) == StoreStep(row, s, op);
    } else {
      assert (ops + [op])[1..] == ops[1..] + [op];
      RunStoreSnoc(StoreStep(row, s, ops[0]), Next(s, ops[0]), ops[1..], op);
    }
  }

  lemma DoFollows(b: Book, r: Book, d: Deed, k: string, ops: seq<Op>)
    requires k in b.all && k in b.rows && d.key in r.all && d.key in r.rows && Followed(b, r, k, ops)
    ensures Followed(b, Do(r, d), k, ops + if d.key == k then [d.op] else [])
  {
    var s := r.all[d.key];
    var told := NoteFor(d.key, D.Notice(s, d.op));
    assert (r.log + told)[|b.log|..] == r.log[|b.log|..] + told;
    NotesOfMore(r.log[|b.log|..], d.key, D.Notice(s, d.op), k);
    if d.key == k {
      RunSnoc(b.all[k], ops, d.op);
      RunStoreSnoc(b.rows[k], b.all[k], ops, d.op);
      assert (ops + [d.op])[..|ops|] == ops;
    } else {
      assert ops + [] == ops;
    }
    hide Next, StoreStep, D.Notice, Run, RunStore, NoteFor, NotesOf;
  }

  /** However the operations on several sessions interleave, each session sees its own in order. */
  lemma {:induction false} SessionsAreSeparate(b: Book, trace: seq<Deed>, k: string)
    requires Covers(b, trace) && k in b.all
    ensures Followed(b, DoAll(b, trace), k, OpsOf(trace, k))
  {
    hide Do;
    if trace == [] {
      assert b.log[|b.log|..] == [];
    } else {
      var n := |trace| - 1;
      SessionsAreSeparate(b, trace[..n], k);
      DoFollows(b, DoAll(b, trace[..n]), trace[n], k, OpsOf(trace[..n], k));
    }
  }
}
