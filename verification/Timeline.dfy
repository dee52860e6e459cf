/**
 * The nested Turn -> Entry -> ToolCall timeline of internal/session/manager.go,
 * as functions on values, and its refinement to a flat list of tool calls.
 */
module Timeline {
  import opened SessionTypes

  // ---- searching for a running tool ----------------------------------------

  /** Which running tool a result is for. */
  datatype Want = AnyRunning | Named(name: string)

  predicate Matches(t: ToolCall, w: Want) {
    t.status.Running? && (w.AnyRunning? || t.name == w.name)
  }

  /** The greatest index of a matching tool, or -1. */
  function LastMatch(tools: seq<ToolCall>, w: Want): (j: int)
    ensures -1 <= j < |tools|
    ensures j >= 0 ==> Matches(tools[j], w)
    ensures forall k :: j < k < |tools| ==> !Matches(tools[k], w)
  {
    if tools == [] then -1
    else if Matches(tools[|tools| - 1], w) then |tools| - 1
    else LastMatch(tools[..|tools| - 1], w)
  }

  predicate HasMatch(e: Entry, w: Want) {
    LastMatch(e.tools, w) >= 0
  }

  /** The greatest index of an entry with a matching tool, or -1. */
  function LastMatchEntry(entries: seq<Entry>, w: Want): (i: int)
    ensures -1 <= i < |entries|
    ensures i >= 0 ==> HasMatch(entries[i], w)
    ensures forall k :: i < k < |entries| ==> !HasMatch(entries[k], w)
  {
    if entries == [] then -1
    else if HasMatch(entries[|entries| - 1], w) then |entries| - 1
    else LastMatchEntry(entries[..|entries| - 1], w)
  }

  /** The greatest index of an entry that holds tools, or -1. */
  function LastGroup(entries: seq<Entry>): (i: int)
    ensures -1 <= i < |entries|
    ensures i >= 0 ==> entries[i].tools != []
    ensures forall k :: i < k < |entries| ==> entries[k].tools == []
  {
    if entries == [] then -1
    else if entries[|entries| - 1].tools != [] then |entries| - 1
    else LastGroup(entries[..|entries| - 1])
  }

  // ---- editing the entries of one turn -------------------------------------

  /** What a result writes into the tool call it completes. */
  datatype Outcome = Outcome(status: ToolStatus, output: string, endTs: int)

  function Finish(t: ToolCall, o: Outcome): ToolCall {
    t.(status := o.status, output := o.output, endTs := o.endTs)
  }

  /** Completes the last matching tool, if there is one. */
  function FinishTools(tools: seq<ToolCall>, w: Want, o: Outcome): seq<ToolCall> {
    var j := LastMatch(tools, w);
    if j < 0 then tools else tools[j := Finish(tools[j], o)]
  }

  function FinishIn(entries: seq<Entry>, w: Want, o: Outcome): seq<Entry> {
    var i := LastMatchEntry(entries, w);
    if i < 0 then entries
    else entries[i := entries[i].(tools := FinishTools(entries[i].tools, w, o))]
  }

  /** Adds a started tool to the last group, or opens the group `opener`. */
  function StartIn(entries: seq<Entry>, opener: Entry, t: ToolCall): seq<Entry> {
    var i := LastGroup(entries);
    if i < 0 then entries + [opener.(tools := [t])]
    else entries[i := entries[i].(tools := entries[i].tools + [t])]
  }

  // ---- editing the timeline ------------------------------------------------

  function NewTurn(turns: seq<Turn>, input: string, ts: int): seq<Turn> {
    turns + [Turn(|turns|, input, ts, [])]
  }

  function EnsureTurn(turns: seq<Turn>): (r: seq<Turn>)
    ensures r != []
  {
    if turns == [] then [Turn(0, "", 0, [])] else turns
  }

  function WithEntries(turns: seq<Turn>, entries: seq<Entry>): seq<Turn>
    requires turns != []
  {
    turns[|turns| - 1 := turns[|turns| - 1].(entries := entries)]
  }

  /** The current turn with the tools of one entry replaced. */
  function WithTools(turns: seq<Turn>, i: nat, tools: seq<ToolCall>): seq<Turn>
    requires turns != [] && i < |LastEntries(turns)|
  {
    WithEntries(turns, LastEntries(turns)[i := LastEntries(turns)[i].(tools := tools)])
  }

  function LastEntries(turns: seq<Turn>): seq<Entry>
    requires turns != []
  {
    turns[|turns| - 1].entries
  }

  function AddEntry(turns: seq<Turn>, e: Entry): seq<Turn> {
    var ts := EnsureTurn(turns);
    WithEntries(ts, LastEntries(ts) + [e])
  }

  /** addToolRunning, for a non-empty tool name. */
  function StartTool(turns: seq<Turn>, opener: Entry, t: ToolCall): seq<Turn> {
    var ts := EnsureTurn(turns);
    WithEntries(ts, StartIn(LastEntries(ts), opener, t))
  }

  /** completeTool: without a turn there is nothing to complete. */
  function CompleteTool(turns: seq<Turn>, w: Want, o: Outcome): seq<Turn> {
    if turns == [] then turns
    else WithEntries(turns, FinishIn(LastEntries(turns), w, o))
  }

  /** failTool: a failure without a matching call is recorded as the entry `lone`. */
  function FailTool(turns: seq<Turn>, name: string, o: Outcome, lone: Entry): seq<Turn> {
    var ts := EnsureTurn(turns);
    var es := LastEntries(ts);
    WithEntries(ts, if LastMatchEntry(es, Named(name)) >= 0 then FinishIn(es, Named(name), o) else es + [lone])
  }

  /** The newest entry with a wanted tool is the one that is edited. */
  lemma FinishInAt(turns: seq<Turn>, i: nat, w: Want, o: Outcome)
    requires turns != [] && i < |LastEntries(turns)| && HasMatch(LastEntries(turns)[i], w)
    requires forall k :: i < k < |LastEntries(turns)| ==> !HasMatch(LastEntries(turns)[k], w)
    ensures LastMatchEntry(LastEntries(turns), w) == i
    ensures WithTools(turns, i, FinishTools(LastEntries(turns)[i].tools, w, o))
            == WithEntries(turns, FinishIn(LastEntries(turns), w, o))
  {
  }

  lemma FinishInNone(turns: seq<Turn>, w: Want, o: Outcome)
    requires turns != [] && forall k :: 0 <= k < |LastEntries(turns)| ==> !HasMatch(LastEntries(turns)[k], w)
    ensures LastMatchEntry(LastEntries(turns), w) < 0 && WithEntries(turns, FinishIn(LastEntries(turns), w, o)) == turns
  {
  }

  // ---- the flat list of tool calls -----------------------------------------

  /** The tool calls of a turn in (entry, index) order. */
  function Flat(entries: seq<Entry>): seq<ToolCall> {
    if entries == [] then []
    else Flat(entries[..|entries| - 1]) + entries[|entries| - 1].tools
  }

  /** The tool calls of the current turn. */
  function CurrentTools(turns: seq<Turn>): seq<ToolCall> {
    if turns == [] then [] else Flat(LastEntries(turns))
  }

  lemma {:induction false} FlatConcat(a: seq<Entry>, b: seq<Entry>)
    ensures Flat(a + b) == Flat(a) + Flat(b)
  {
    if b == [] {
      assert a + b == a;
    } else {
      var n := |b| - 1;
      assert (a + b)[..|a + b| - 1] == a + b[..n];
      FlatConcat(a, b[..n]);
    }
  }

  lemma FlatSingle(e: Entry)
    ensures Flat([e]) == e.tools
  {
    assert [e][..0] == [];
    assert Flat([e]) == Flat([]) + e.tools;
  }

  lemma FlatMiddle(a: seq<Entry>, e: Entry, b: seq<Entry>)
    ensures Flat(a + [e] + b) == Flat(a) + e.tools + Flat(b)
  {
    FlatConcat(a + [e], b);
    FlatConcat(a, [e]);
    FlatSingle(e);
  }

  lemma FlatReplace(entries: seq<Entry>, i: nat, e: Entry)
    requires i < |entries|
    ensures Flat(entries) == Flat(entries[..i]) + entries[i].tools + Flat(entries[i + 1..])
    ensures Flat(entries[i := e]) == Flat(entries[..i]) + e.tools + Flat(entries[i + 1..])
  {
    var a, b := entries[..i], entries[i + 1..];
    assert entries == a + [entries[i]] + b;
    assert entries[i := e] == a + [e] + b;
    FlatMiddle(a, entries[i], b);
    FlatMiddle(a, e, b);
  }

  lemma {:induction false} FlatWithoutGroups(entries: seq<Entry>)
    requires forall k :: 0 <= k < |entries| ==> entries[k].tools == []
    ensures Flat(entries) == []
  {
    if entries != [] {
      FlatWithoutGroups(entries[..|entries| - 1]);
    }
  }

  lemma LastMatchConcat(a: seq<ToolCall>, b: seq<ToolCall>, w: Want)
    ensures LastMatch(a + b, w) == if LastMatch(b, w) >= 0 then |a| + LastMatch(b, w) else LastMatch(a, w)
  {
    var j := LastMatch(a + b, w);
    var jb := LastMatch(b, w);
    var ja := LastMatch(a, w);
    if jb >= 0 {
      assert Matches((a + b)[|a| + jb], w);
      assert forall k :: |a| + jb < k < |a + b| ==> (a + b)[k] == b[k - |a|];
    } else {
      assert forall k :: |a| <= k < |a + b| ==> (a + b)[k] == b[k - |a|];
      if ja >= 0 {
        assert Matches((a + b)[ja], w);
      }
    }
  }

  lemma {:induction false} FlatWithoutMatch(entries: seq<Entry>, w: Want)
    requires forall k :: 0 <= k < |entries| ==> !HasMatch(entries[k], w)
    ensures LastMatch(Flat(entries), w) < 0
  {
    if entries != [] {
      var n := |entries| - 1;
      FlatWithoutMatch(entries[..n], w);
      assert !HasMatch(entries[n], w);
      LastMatchConcat(Flat(entries[..n]), entries[n].tools, w);
    }
  }

  lemma FinishMiddle(a: seq<ToolCall>, g: seq<ToolCall>, b: seq<ToolCall>, w: Want, o: Outcome)
    requires LastMatch(g, w) >= 0 && LastMatch(b, w) < 0
    ensures FinishTools(a + g + b, w, o) == a + FinishTools(g, w, o) + b
    ensures LastMatch(a + g + b, w) >= 0
  {
    LastMatchConcat(a, g, w);
    LastMatchConcat(a + g, b, w);
  }

  /** A started tool is always appended to the flat list. */
  lemma StartInFlat(entries: seq<Entry>, opener: Entry, t: ToolCall)
    ensures Flat(StartIn(entries, opener, t)) == Flat(entries) + [t]
  {
    var i := LastGroup(entries);
    if i < 0 {
      FlatConcat(entries, [opener.(tools := [t])]);
      FlatSingle(opener.(tools := [t]));
    } else {
      FlatReplace(entries, i, entries[i].(tools := entries[i].tools + [t]));
      FlatWithoutGroups(entries[i + 1..]);
    }
  }

  /** The nested reverse scan finds the same tool as one scan of the flat list. */
  lemma FinishInFlat(entries: seq<Entry>, w: Want, o: Outcome)
    ensures Flat(FinishIn(entries, w, o)) == FinishTools(Flat(entries), w, o)
    ensures LastMatchEntry(entries, w) >= 0 <==> LastMatch(Flat(entries), w) >= 0
  {
    var i := LastMatchEntry(entries, w);
    if i < 0 {
      FlatWithoutMatch(entries, w);
    } else {
      var group := entries[i].tools;
      FlatReplace(entries, i, entries[i].(tools := FinishTools(group, w, o)));
      FlatWithoutMatch(entries[i + 1..], w);
      assert HasMatch(entries[i], w);
      FinishMiddle(Flat(entries[..i]), group, Flat(entries[i + 1..]), w, o);
    }
  }
}
