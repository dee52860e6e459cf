/**
 * Starts and results of tool calls pair up like brackets: one stack of all open
 * calls, and within it one per tool name.  The bracket machine sees the operations
 * only, never the list of calls.
 */
module ToolStacks {
  import opened Basics
  import opened SessionTypes
  import opened Timeline

  /** What an event or SDK message does to the flat list of the current turn; a prompt starts a new one. */
  datatype ToolOp =
    | Begin(call: ToolCall)
    | Result(want: Want, outcome: Outcome)
    | Failure(name: string, outcome: Outcome, lone: ToolCall)
    | NewList
    | NoTool

  function Apply(tools: seq<ToolCall>, op: ToolOp): seq<ToolCall> {
    match op
    case Begin(call) => tools + [call]
    case Result(want, outcome) => FinishTools(tools, want, outcome)
    case Failure(name, outcome, lone) =>
      if LastMatch(tools, Named(name)) >= 0 then FinishTools(tools, Named(name), outcome) else tools + [lone]
    case NewList => []
    case NoTool => tools
  }

  function ApplyAll(tools: seq<ToolCall>, ops: seq<ToolOp>): seq<ToolCall>
    decreases |ops|
  {
    if ops == [] then tools else ApplyAll(Apply(tools, ops[0]), ops[1..])
  }

  // ---- the bracket machine --------------------------------------------------------

  /** A call that has begun and not ended. */
  datatype Open = Open(index: nat, name: string)

  /** The open calls, oldest first, and how many calls the list has. */
  datatype Brackets = Brackets(open: seq<Open>, count: nat)

  predicate Fits(o: Open, w: Want) {
    w.AnyRunning? || o.name == w.name
  }

  /** The innermost open call a result closes. */
  function Innermost(open: seq<Open>, w: Want): Option<Open> {
    if open == [] then None
    else if Fits(open[|open| - 1], w) then Some(open[|open| - 1])
    else Innermost(open[..|open| - 1], w)
  }

  /** The open calls without that one. */
  function Close(open: seq<Open>, w: Want): seq<Open> {
    if open == [] then []
    else
      var n := |open| - 1;
      if Fits(open[n], w) then open[..n] else Close(open[..n], w) + [open[n]]
  }

  function Push(b: Brackets, call: ToolCall): Brackets {
    Brackets(if call.status.Running? then b.open + [Open(b.count, call.name)] else b.open, b.count + 1)
  }

  /** A result whose status is again "running" leaves the call open. */
  function Answer(b: Brackets, w: Want, o: Outcome): Brackets {
    if o.status.Running? then b else b.(open := Close(b.open, w))
  }

  function BracketStep(b: Brackets, op: ToolOp): Brackets {
    match op
    case Begin(call) => Push(b, call)
    case Result(want, outcome) => Answer(b, want, outcome)
    case Failure(name, outcome, lone) =>
      if Innermost(b.open, Named(name)).Some? then Answer(b, Named(name), outcome) else Push(b, lone)
    case NewList => Brackets([], 0)
    case NoTool => b
  }

  function RunBrackets(b: Brackets, ops: seq<ToolOp>): Brackets
    decreases |ops|
  {
    if ops == [] then b else RunBrackets(BracketStep(b, ops[0]), ops[1..])
  }

  // ---- the list against the machine --------------------------------------------------

  /** The open calls of a list. */
  function Opens(tools: seq<ToolCall>): seq<Open> {
    if tools == [] then []
    else
      var n := |tools| - 1;
      Opens(tools[..n]) + if tools[n].status.Running? then [Open(n, tools[n].name)] else []
  }

  function BracketsOf(tools: seq<ToolCall>): Brackets {
    Brackets(Opens(tools), |tools|)
  }

  lemma OpensSnoc(tools: seq<ToolCall>, t: ToolCall)
    ensures Opens(tools + [t]) == Opens(tools) + if t.status.Running? then [Open(|tools|, t.name)] else []
  {
    assert (tools + [t])[..|tools|] == tools;
  }

  lemma FinishSnoc(tools: seq<ToolCall>, t: ToolCall, w: Want, o: Outcome)
    ensures FinishTools(tools + [t], w, o)
         == if Matches(t, w) then tools + [Finish(t, o)] else FinishTools(tools, w, o) + [t]
  {
    assert (tools + [t])[..|tools|] == tools;
  }

  lemma CloseSnoc(open: seq<Open>, o: Open, w: Want)
    ensures Close(open + [o], w) == if Fits(o, w) then open else Close(open, w) + [o]
    ensures Innermost(open + [o], w) == if Fits(o, w) then Some(o) else Innermost(open, w)
  {
    assert (open + [o])[..|open|] == open;
  }

  /** A result ends the call that closing the innermost fitting bracket names. */
  lemma {:induction false} FinishCloses(tools: seq<ToolCall>, w: Want, o: Outcome)
    ensures Opens(FinishTools(tools, w, o)) == if o.status.Running? then Opens(tools) else Close(Opens(tools), w)
  {
    if tools != [] {
      var init, last := tools[..|tools| - 1], tools[|tools| - 1];
      assert tools == init + [last];
      FinishSnoc(init, last, w, o);
      OpensSnoc(init, last);
      CloseSnoc(Opens(init), Open(|init|, last.name), w);
      if Matches(last, w) {
        OpensSnoc(init, Finish(last, o));
      } else {
        FinishCloses(init, w, o);
        OpensSnoc(FinishTools(init, w, o), last);
        assert Opens(init) + [] == Opens(init);
      }
    }
  }

  /** The call the reverse scan finds is the innermost open one. */
  lemma {:induction false} LastMatchIsInnermost(tools: seq<ToolCall>, w: Want)
    ensures Innermost(Opens(tools), w)
         == if LastMatch(tools, w) < 0 then None else Some(Open(LastMatch(tools, w), tools[LastMatch(tools, w)].name))
  {
    if tools != [] {
      var init, last := tools[..|tools| - 1], tools[|tools| - 1];
      CloseSnoc(Opens(init), Open(|init|, last.name), w);
      LastMatchIsInnermost(init, w);
      assert Opens(init) + [] == Opens(init);
    }
  }

  /** Whatever operation runs, the list's open calls follow the bracket machine. */
  lemma StackStepSound(tools: seq<ToolCall>, op: ToolOp)
    ensures BracketsOf(Apply(tools, op)) == BracketStep(BracketsOf(tools), op)
  {
    match op {
      case Begin(call) => OpensSnoc(tools, call);
      case Result(want, outcome) => FinishCloses(tools, want, outcome);
      case Failure(name, outcome, lone) =>
        LastMatchIsInnermost(tools, Named(name));
        FinishCloses(tools, Named(name), outcome);
        OpensSnoc(tools, lone);
      case NewList =>
      case NoTool =>
    }
  }

  /** Over any run, the open calls are those of the bracket machine. */
  lemma {:induction false} CallsPairAsStacks(tools: seq<ToolCall>, ops: seq<ToolOp>)
    ensures BracketsOf(ApplyAll(tools, ops)) == RunBrackets(BracketsOf(tools), ops)
    decreases |ops|
  {
    hide BracketStep;
    if ops != [] {
      StackStepSound(tools, ops[0]);
      CallsPairAsStacks(Apply(tools, ops[0]), ops[1..]);
    }
  }

  // ---- one stack per tool name ----------------------------------------------------------

  /** The open calls of one tool, oldest first. */
  function Stack(open: seq<Open>, name: string): seq<nat> {
    if open == [] then []
    else
      var n := |open| - 1;
      Stack(open[..n], name) + if open[n].name == name then [open[n].index] else []
  }

  function Pop(stack: seq<nat>): seq<nat> {
    if stack == [] then [] else stack[..|stack| - 1]
  }

  /** Exactly the running calls of a name, in creation order. */
  ghost predicate HoldsRunning(stack: seq<nat>, tools: seq<ToolCall>, name: string) {
    && (forall k :: k in stack <==> 0 <= k < |tools| && Matches(tools[k], Named(name)))
    && forall i, j :: 0 <= i < j < |stack| ==> stack[i] < stack[j]
  }

  lemma HoldsRunningSnoc(stack: seq<nat>, tools: seq<ToolCall>, t: ToolCall, name: string)
    requires HoldsRunning(stack, tools, name)
    ensures HoldsRunning(stack + if Matches(t, Named(name)) then [|tools|] else [], tools + [t], name)
  {
    forall i | 0 <= i < |stack|
      ensures stack[i] < |tools|
    {
      assert stack[i] in stack;
    }
  }

  /** The stack of a name holds exactly the running calls of that name, in creation order. */
  lemma {:induction false} OpenCallsAreRunning(tools: seq<ToolCall>, name: string)
    ensures HoldsRunning(Stack(Opens(tools), name), tools, name)
  {
    if tools != [] {
      var init, t := tools[..|tools| - 1], tools[|tools| - 1];
      var rest := Stack(Opens(init), name);
      OpenCallsAreRunning(init, name);
      HoldsRunningSnoc(rest, init, t, name);
      assert tools == init + [t];
      OpensSnoc(init, t);
      hide HoldsRunning, Opens, Stack;
      if t.status.Running? {
        StackSnoc(Opens(init), Open(|init|, t.name), name);
      } else {
        assert Opens(init) + [] == Opens(init);
        assert rest + [] == rest;
      }
    }
  }

  lemma StackSnoc(open: seq<Open>, o: Open, name: string)
    ensures Stack(open + [o], name) == Stack(open, name) + if o.name == name then [o.index] else []
  {
    assert (open + [o])[..|open|] == open;
  }

  /** Closing pops the stack of one name, that of the innermost fitting call, and no other. */
  lemma {:induction false} ClosePopsOneStack(open: seq<Open>, w: Want, name: string)
    ensures var closed := Innermost(open, w);
            Stack(Close(open, w), name)
              == if closed.Some? && closed.value.name == name then Pop(Stack(open, name)) else Stack(open, name)
    ensures var closed := Innermost(open, w);
            closed.Some? && closed.value.name == name ==>
              Stack(open, name) != [] && Stack(open, name)[|Stack(open, name)| - 1] == closed.value.index
  {
    if open != [] {
      var init, last := open[..|open| - 1], open[|open| - 1];
      assert open == init + [last];
      StackSnoc(init, last, name);
      if !Fits(last, w) {
        ClosePopsOneStack(init, w, name);
        StackSnoc(Close(init, w), last, name);
        InnermostFits(init, w);
      }
    }
  }

  lemma {:induction false} InnermostFits(open: seq<Open>, w: Want)
    ensures Innermost(open, w).Some? ==> Fits(Innermost(open, w).value, w)
  {
    if open != [] && !Fits(open[|open| - 1], w) {
      InnermostFits(open[..|open| - 1], w);
    }
  }

  /** The call an operation ends: a result any, a failure one of its own name. */
  function Ends(b: Brackets, op: ToolOp): Option<Open> {
    match op
    case Result(want, _) => Innermost(b.open, want)
    case Failure(name, _, _) => Innermost(b.open, Named(name))
    case _ => None
  }

  function OutcomeOf(op: ToolOp): Outcome
    requires op.Result? || op.Failure?
  {
    op.outcome
  }

  /**
   * An operation rewrites the call it ends, which is on top of its name's stack, and
   * no other call.
   */
  lemma OnlyTheTopChanges(tools: seq<ToolCall>, op: ToolOp, k: nat)
    requires k < |tools| && !op.NewList?
    ensures k < |Apply(tools, op)|
    ensures var ended := Ends(BracketsOf(tools), op);
            Apply(tools, op)[k]
            == if ended.Some? && ended.value.index == k then Finish(tools[k], OutcomeOf(op)) else tools[k]
    ensures var ended := Ends(BracketsOf(tools), op);
            ended.Some? && ended.value.index == k ==>
              var stack := Stack(Opens(tools), tools[k].name);
              stack != [] && stack[|stack| - 1] == k
  {
    hide Stack, Innermost, Opens, LastMatch;
    if op.Result? || op.Failure? {
      var w := if op.Result? then op.want else Named(op.name);
      LastMatchIsInnermost(tools, w);
      ClosePopsOneStack(Opens(tools), w, tools[k].name);
    }
  }

  /** A result without a name ends the newest open call of all names. */
  lemma NamelessResult(tools: seq<ToolCall>, o: Outcome)
    ensures FinishTools(tools, AnyRunning, o)
         == if LastMatch(tools, AnyRunning) < 0 then tools
            else FinishTools(tools, Named(tools[LastMatch(tools, AnyRunning)].name), o)
  {
    var j := LastMatch(tools, AnyRunning);
    if j >= 0 {
      var i := LastMatch(tools, Named(tools[j].name));
      assert Matches(tools[j], Named(tools[j].name));
      assert i > j ==> Matches(tools[i], AnyRunning);
    }
  }
}
