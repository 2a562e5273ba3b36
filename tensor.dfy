/**
 * The expression builder of `deep` (`Tensor`): a handle on a graph together with the
 * input that names its value. Combining two handles merges the right operand's
 * graph into the left one's and appends one op that reads both.
 */
module TensorBuilder {
  import opened Wrappers
  import opened Deep
  import opened BackendTools
  import opened Forward

  /**
   * A tensor handle: the ops of its graph and the input it stands for. The handle
   * owns its graph (`Tensor` is not `Clone`), so the graph is held as a value.
   */
  datatype Tensor = Tensor(graph: seq<Op>, input: Input)

  /** A usable handle: its graph is well formed and its input addresses an op of it. */
  predicate Handle(t: Tensor)
  {
    WellFormed(t.graph) && InputBelow(t.input, |t.graph|)
  }

  /** `From<&str> for Tensor`: an empty graph and the feed of that name. */
  function FromName(s: string): (r: Tensor)
    ensures Handle(r) && r.graph == [] && r.input == Input.Feed(s)
  {
    Tensor([], InputFrom(s))
  }

  /** The handle `merge2_1` returns: both graphs merged, one op appended reading both inputs. */
  function Combined(a: Tensor, b: Tensor, makeOp: (Input, Input) -> Op): Tensor
  {
    var merged := Merged(a.graph, b.graph);
    Tensor(merged + [makeOp(a.input, ShiftInput(b.input, |a.graph|))], Addr(|merged|, 0))
  }

  /**
   * `merge2_1`: takes over the left operand's graph, merges the right operand's graph
   * into it (shifting the right input), pushes the new op and returns output 0 of it.
   */
  method Merge2_1(a: Tensor, b: Tensor, makeOp: (Input, Input) -> Op) returns (r: Tensor)
    ensures r == Combined(a, b, makeOp)
  {
    var graph := new Graph.FromOps(a.graph);
    var left := a.input;
    var right := graph.MergeInput(b.graph, b.input);
    graph.ops := graph.ops + [makeOp(left, right)];
    var node := |graph.ops| - 1;
    r := Tensor(graph.ops, Addr(node, 0));
  }

  /** `a + b` as a value. */
  function Plus(a: Tensor, b: Tensor): Tensor
  {
    Combined(a, b, (x, y) => Op.Add(x, y))
  }

  /** `a - b` as a value. */
  function Minus(a: Tensor, b: Tensor): Tensor
  {
    Combined(a, b, (x, y) => Op.Sub(x, y))
  }

  /** `impl Add for Tensor`. */
  method Add(a: Tensor, b: Tensor) returns (r: Tensor)
    ensures r == Plus(a, b)
  {
    r := Merge2_1(a, b, (x, y) => Op.Add(x, y));
  }

  /** `impl Sub for Tensor`. */
  method Sub(a: Tensor, b: Tensor) returns (r: Tensor)
    ensures r == Minus(a, b)
  {
    r := Merge2_1(a, b, (x, y) => Op.Sub(x, y));
  }

  /**
   * The layout of a combined handle: the left graph unchanged in front, the right
   * graph shifted after it, and the new op last, reading the left input and the
   * shifted right input; the handle names output 0 of the new op.
   */
  lemma CombinedLayout(a: Tensor, b: Tensor, makeOp: (Input, Input) -> Op)
    ensures var r := Combined(a, b, makeOp);
      var last := |a.graph| + |b.graph|;
      |r.graph| == last + 1 &&
      r.graph[..|a.graph|] == a.graph &&
      (forall i :: 0 <= i < |b.graph| ==> r.graph[|a.graph| + i] == ShiftOp(b.graph[i], |a.graph|)) &&
      r.graph[last] == makeOp(a.input, ShiftInput(b.input, |a.graph|)) &&
      r.input == Addr(last, 0)
  {
    var r := Combined(a, b, makeOp);
    var merged := Merged(a.graph, b.graph);
    assert r.graph[..|a.graph|] == merged[..|a.graph|];
    forall i | 0 <= i < |b.graph|
      ensures r.graph[|a.graph| + i] == ShiftOp(b.graph[i], |a.graph|)
    {
      assert r.graph[|a.graph| + i] == merged[|a.graph| + i];
    }
  }

  /** Combining two usable handles with a binary op gives a usable handle. */
  lemma CombinedHandle(a: Tensor, b: Tensor, makeOp: (Input, Input) -> Op)
    requires Handle(a) && Handle(b)
    requires forall x, y :: Operands(makeOp(x, y)) == [x, y]
    ensures Handle(Combined(a, b, makeOp))
  {
    var r := Combined(a, b, makeOp);
    var merged := Merged(a.graph, b.graph);
    var last := |merged|;
    MergedWellFormed(a.graph, b.graph);
    var op := makeOp(a.input, ShiftInput(b.input, |a.graph|));
    assert Operands(op) == [a.input, ShiftInput(b.input, |a.graph|)];
    assert OpBelow(op, last);
    forall i | 0 <= i < |r.graph|
      ensures OpBelow(r.graph[i], i)
    {
      if i < last {
        assert r.graph[i] == merged[i];
      }
    }
  }

  /** `Plus` and `Minus` keep handles usable. */
  lemma PlusMinusHandle(a: Tensor, b: Tensor)
    requires Handle(a) && Handle(b)
    ensures Handle(Plus(a, b)) && Handle(Minus(a, b))
  {
    CombinedHandle(a, b, (x, y) => Op.Add(x, y));
    CombinedHandle(a, b, (x, y) => Op.Sub(x, y));
  }

  /**
   * What evaluating a freshly combined handle comes to, given what its operands
   * evaluate to: the left failure first, then the right one, then the backend's
   * kernel on the node's own state, whose output 0 is the value.
   */
  function Applied<T>(backend: Backend<T>, imop: (T, T) -> ImOp<T>, ty: OpTy, left: Outcome<T>, right: Outcome<T>,
                      s: seq<T>): Outcome<T>
  {
    if !left.Ok? then Fail(left)
    else if !right.Ok? then Fail(right)
    else match backend.solve(imop(left.value, right.value), s)
      case None => Err(OpHasNoHandler(ty))
      case Some(outputs) => if 0 < |outputs| then Ok(outputs[0]) else Panic
  }

  /**
   * In a combined handle (with the operands' states concatenated and one state
   * vector `s` for the new op) the two operand inputs evaluate as they did in their
   * own graphs.
   */
  lemma CombinedOperands<T>(a: Tensor, b: Tensor, makeOp: (Input, Input) -> Op,
                            sa: seq<seq<T>>, sb: seq<seq<T>>, s: seq<T>, inputs: map<string, T>, backend: Backend<T>)
    requires Handle(a) && Handle(b) && |sa| == |a.graph| && |sb| == |b.graph|
    requires forall x, y :: Operands(makeOp(x, y)) == [x, y]
    ensures Handle(Combined(a, b, makeOp))
    ensures Eval(Combined(a, b, makeOp).graph, sa + sb + [s], inputs, backend, a.input)
         == Eval(a.graph, sa, inputs, backend, a.input)
    ensures Eval(Combined(a, b, makeOp).graph, sa + sb + [s], inputs, backend, ShiftInput(b.input, |a.graph|))
         == Eval(b.graph, sb, inputs, backend, b.input)
  {
    CombinedHandle(a, b, makeOp);
    var merged := Merged(a.graph, b.graph);
    var r := Combined(a, b, makeOp);
    MergedWellFormed(a.graph, b.graph);
    assert merged == a.graph + ShiftOps(b.graph, |a.graph|);
    EvalPrefix(a.graph, ShiftOps(b.graph, |a.graph|), sa, sb, inputs, backend, a.input);
    EvalPrefix(merged, [r.graph[|merged|]], sa + sb, [s], inputs, backend, a.input);
    EvalMerged(a.graph, b.graph, sa, sb, inputs, backend, b.input);
    EvalPrefix(merged, [r.graph[|merged|]], sa + sb, [s], inputs, backend, ShiftInput(b.input, |a.graph|));
  }

  /**
   * Semantics of `a + b`: evaluating the new handle evaluates `a`, then `b`, each in
   * its own graph, and runs the backend's `Add` kernel on the results.
   */
  lemma EvalPlus<T>(a: Tensor, b: Tensor, sa: seq<seq<T>>, sb: seq<seq<T>>, s: seq<T>,
                    inputs: map<string, T>, backend: Backend<T>)
    requires Handle(a) && Handle(b) && |sa| == |a.graph| && |sb| == |b.graph|
    ensures Handle(Plus(a, b))
    ensures Eval(Plus(a, b).graph, sa + sb + [s], inputs, backend, Plus(a, b).input)
         == Applied(backend, (p, q) => ImOp.Add(p, q), OpTy.Add,
                    Eval(a.graph, sa, inputs, backend, a.input), Eval(b.graph, sb, inputs, backend, b.input), s)
  {
    var r := Plus(a, b);
    var st := sa + sb + [s];
    var last := |a.graph| + |b.graph|;
    CombinedOperands(a, b, (x, y) => Op.Add(x, y), sa, sb, s, inputs, backend);
    CombinedLayout(a, b, (x, y) => Op.Add(x, y));
    assert st[last] == s;
    var x, y := a.input, ShiftInput(b.input, |a.graph|);
    assert r.graph[last] == Op.Add(x, y);
    assert OpBelow(r.graph[last], last);
    var ea, eb := Eval(a.graph, sa, inputs, backend, a.input), Eval(b.graph, sb, inputs, backend, b.input);
    var pair := EvalPair(r.graph, st, inputs, backend, x, y, last);
    assert pair == if !ea.Ok? then Fail(ea) else if !eb.Ok? then Fail(eb) else Ok((ea.value, eb.value));
    var im := EvalOp(r.graph, st, inputs, backend, last);
    assert im == if pair.Ok? then Ok(ImOp.Add(pair.value.0, pair.value.1)) else Fail(pair);
  }

  /**
   * Semantics of `a - b`: evaluating the new handle evaluates `a`, then `b`, each in
   * its own graph, and runs the backend's `Sub` kernel on the results.
   */
  lemma EvalMinus<T>(a: Tensor, b: Tensor, sa: seq<seq<T>>, sb: seq<seq<T>>, s: seq<T>,
                     inputs: map<string, T>, backend: Backend<T>)
    requires Handle(a) && Handle(b) && |sa| == |a.graph| && |sb| == |b.graph|
    ensures Handle(Minus(a, b))
    ensures Eval(Minus(a, b).graph, sa + sb + [s], inputs, backend, Minus(a, b).input)
         == Applied(backend, (p, q) => ImOp.Sub(p, q), OpTy.Sub,
                    Eval(a.graph, sa, inputs, backend, a.input), Eval(b.graph, sb, inputs, backend, b.input), s)
  {
    var r := Minus(a, b);
    var st := sa + sb + [s];
    var last := |a.graph| + |b.graph|;
    CombinedOperands(a, b, (x, y) => Op.Sub(x, y), sa, sb, s, inputs, backend);
    CombinedLayout(a, b, (x, y) => Op.Sub(x, y));
    assert st[last] == s;
    var x, y := a.input, ShiftInput(b.input, |a.graph|);
    assert r.graph[last] == Op.Sub(x, y);
    assert OpBelow(r.graph[last], last);
    var ea, eb := Eval(a.graph, sa, inputs, backend, a.input), Eval(b.graph, sb, inputs, backend, b.input);
    var pair := EvalPair(r.graph, st, inputs, backend, x, y, last);
    assert pair == if !ea.Ok? then Fail(ea) else if !eb.Ok? then Fail(eb) else Ok((ea.value, eb.value));
    var im := EvalOp(r.graph, st, inputs, backend, last);
    assert im == if pair.Ok? then Ok(ImOp.Sub(pair.value.0, pair.value.1)) else Fail(pair);
  }

  /** A handle built from a name evaluates to that feed, or reports it missing. */
  lemma EvalFromName<T>(s: string, inputs: map<string, T>, backend: Backend<T>)
    ensures Eval(FromName(s).graph, [], inputs, backend, FromName(s).input) == FeedOrError(inputs, s)
  {
  }
}
