/**
 * Properties of the memoised forward pass (`Tape::solve`): a reference evaluator
 * without a cache, agreement of the tape with it, what a cache hit and a cache miss
 * do to the tape, when the pass cannot panic, and how evaluation behaves under
 * `Graph::merge` and under appending ops.
 */
module Forward {
  import opened Wrappers
  import opened Deep
  import opened BackendTools

  /**
   * Reference evaluation of an input without a cache: every node on the way is
   * recomputed. The failure order is that of `Tape::solve`.
   */
  function Eval<T>(ops: seq<Op>, state: seq<seq<T>>, inputs: map<string, T>, backend: Backend<T>,
                   input: Input): Outcome<T>
    requires WellFormed(ops)
    decreases Rank(input), 3
  {
    match input
    case Feed(name) => FeedOrError(inputs, name)
    case Internal(a) =>
      var o := NodeOutputs(ops, state, inputs, backend, a.node);
      if !o.Ok? then Fail(o)
      else if a.output < |o.value| then Ok(o.value[a.output])
      else Panic
  }

  /** All outputs of node `n`, computed from its operands. */
  function NodeOutputs<T>(ops: seq<Op>, state: seq<seq<T>>, inputs: map<string, T>, backend: Backend<T>,
                          n: nat): Outcome<seq<T>>
    requires WellFormed(ops)
    decreases n + 1, 2
  {
    if |ops| <= n then Panic
    else
      var im := EvalOp(ops, state, inputs, backend, n);
      if !im.Ok? then Fail(im)
      else if |state| <= n then Panic
      else match backend.solve(im.value, state[n])
        case None => Err(OpHasNoHandler(TyOf(ops[n])))
        case Some(outputs) => Ok(outputs)
  }

  /** The operands of node `n`, evaluated left to right and packed into an `ImOp`. */
  function EvalOp<T>(ops: seq<Op>, state: seq<seq<T>>, inputs: map<string, T>, backend: Backend<T>,
                     n: nat): Outcome<ImOp<T>>
    requires WellFormed(ops) && n < |ops|
    decreases n + 1, 1
  {
    assert OpBelow(ops[n], n);
    match ops[n]
    case Add(x, y) =>
      var p := EvalPair(ops, state, inputs, backend, x, y, n);
      if p.Ok? then Ok(ImOp.Add(p.value.0, p.value.1)) else Fail(p)
    case Sub(x, y) =>
      var p := EvalPair(ops, state, inputs, backend, x, y, n);
      if p.Ok? then Ok(ImOp.Sub(p.value.0, p.value.1)) else Fail(p)
    case Square(x) =>
      assert x in Operands(ops[n]);
      var rx := Eval(ops, state, inputs, backend, x);
      if rx.Ok? then Ok(ImOp.Square(rx.value)) else Fail(rx)
    case TrainConst(_, _) => Ok(ImOp.TrainConst)
  }

  /** Two operands, the left one first; the first failure wins. */
  function EvalPair<T>(ops: seq<Op>, state: seq<seq<T>>, inputs: map<string, T>, backend: Backend<T>,
                       x: Input, y: Input, n: nat): Outcome<(T, T)>
    requires WellFormed(ops) && InputBelow(x, n) && InputBelow(y, n)
    decreases n + 1, 0
  {
    var rx := Eval(ops, state, inputs, backend, x);
    if !rx.Ok? then Fail(rx)
    else
      var ry := Eval(ops, state, inputs, backend, y);
      if !ry.Ok? then Fail(ry) else Ok((rx.value, ry.value))
  }

  /** Every entry of the tape holds exactly what its node evaluates to. */
  ghost predicate Consistent<T>(ops: seq<Op>, state: seq<seq<T>>, inputs: map<string, T>, backend: Backend<T>,
                                solved: Solved<T>)
    requires WellFormed(ops)
  {
    forall a :: a in solved ==> NodeOutputs(ops, state, inputs, backend, a.node) == Ok(solved[a])
  }

  /** The tape `after` keeps every entry of `before` unchanged. */
  ghost predicate Grows<T>(before: Solved<T>, after: Solved<T>)
  {
    forall a :: a in before ==> a in after && after[a] == before[a]
  }

  /**
   * Memoisation is invisible: from a consistent tape, `Tape::solve` gives what the
   * cache-free evaluation gives, leaves a consistent tape, and never removes or
   * overwrites an earlier entry.
   */
  lemma {:induction false} SolveMatchesEval<T>(ops: seq<Op>, state: seq<seq<T>>, inputs: map<string, T>,
                                               backend: Backend<T>, solved: Solved<T>, input: Input)
    requires WellFormed(ops) && Consistent(ops, state, inputs, backend, solved)
    ensures TapeSolve(ops, state, inputs, backend, solved, input).0 == Eval(ops, state, inputs, backend, input)
    ensures Consistent(ops, state, inputs, backend, TapeSolve(ops, state, inputs, backend, solved, input).1)
    ensures Grows(solved, TapeSolve(ops, state, inputs, backend, solved, input).1)
    decreases Rank(input), 2
  {
    match input
    case Feed(_) =>
    case Internal(a) =>
      if a !in solved && a.node < |ops| {
        OpMatchesEval(ops, state, inputs, backend, solved, a.node);
      }
  }

  /** `ImOp::solve` agrees with the reference evaluation of the node's operands. */
  lemma {:induction false} OpMatchesEval<T>(ops: seq<Op>, state: seq<seq<T>>, inputs: map<string, T>,
                                            backend: Backend<T>, solved: Solved<T>, n: nat)
    requires WellFormed(ops) && n < |ops| && Consistent(ops, state, inputs, backend, solved)
    ensures ImOpSolve(ops, state, inputs, backend, solved, n).0 == EvalOp(ops, state, inputs, backend, n)
    ensures Consistent(ops, state, inputs, backend, ImOpSolve(ops, state, inputs, backend, solved, n).1)
    ensures Grows(solved, ImOpSolve(ops, state, inputs, backend, solved, n).1)
    decreases n + 1, 1
  {
    assert OpBelow(ops[n], n);
    match ops[n]
    case Add(x, y) => PairMatchesEval(ops, state, inputs, backend, solved, x, y, n);
    case Sub(x, y) => PairMatchesEval(ops, state, inputs, backend, solved, x, y, n);
    case Square(x) =>
      assert x in Operands(ops[n]);
      SolveMatchesEval(ops, state, inputs, backend, solved, x);
    case TrainConst(_, _) =>
  }

  /** The `double` closure agrees with the reference evaluation of two operands. */
  lemma {:induction false} PairMatchesEval<T>(ops: seq<Op>, state: seq<seq<T>>, inputs: map<string, T>,
                                              backend: Backend<T>, solved: Solved<T>, x: Input, y: Input, n: nat)
    requires WellFormed(ops) && InputBelow(x, n) && InputBelow(y, n) && Consistent(ops, state, inputs, backend, solved)
    ensures SolvePair(ops, state, inputs, backend, solved, x, y, n).0 == EvalPair(ops, state, inputs, backend, x, y, n)
    ensures Consistent(ops, state, inputs, backend, SolvePair(ops, state, inputs, backend, solved, x, y, n).1)
    ensures Grows(solved, SolvePair(ops, state, inputs, backend, solved, x, y, n).1)
    decreases n + 1, 0
  {
    SolveMatchesEval(ops, state, inputs, backend, solved, x);
    var solved1 := TapeSolve(ops, state, inputs, backend, solved, x).1;
    SolveMatchesEval(ops, state, inputs, backend, solved1, y);
  }

  /** Solving only ever adds addresses at or below the solved one. */
  lemma {:induction false} SolveNewKeys<T>(ops: seq<Op>, state: seq<seq<T>>, inputs: map<string, T>,
                                           backend: Backend<T>, solved: Solved<T>, input: Input)
    requires WellFormed(ops)
    ensures Grows(solved, TapeSolve(ops, state, inputs, backend, solved, input).1)
    ensures forall a :: a in TapeSolve(ops, state, inputs, backend, solved, input).1 && a !in solved ==> a.node < Rank(input)
    decreases Rank(input), 2
  {
    match input
    case Feed(_) =>
    case Internal(a) =>
      if a !in solved && a.node < |ops| {
        OpNewKeys(ops, state, inputs, backend, solved, a.node);
      }
  }

  /** Solving the operands of node `n` only adds addresses of nodes below `n`. */
  lemma {:induction false} OpNewKeys<T>(ops: seq<Op>, state: seq<seq<T>>, inputs: map<string, T>,
                                        backend: Backend<T>, solved: Solved<T>, n: nat)
    requires WellFormed(ops) && n < |ops|
    ensures Grows(solved, ImOpSolve(ops, state, inputs, backend, solved, n).1)
    ensures forall a :: a in ImOpSolve(ops, state, inputs, backend, solved, n).1 && a !in solved ==> a.node < n
    decreases n + 1, 1
  {
    assert OpBelow(ops[n], n);
    match ops[n]
    case Add(x, y) => PairNewKeys(ops, state, inputs, backend, solved, x, y, n);
    case Sub(x, y) => PairNewKeys(ops, state, inputs, backend, solved, x, y, n);
    case Square(x) =>
      assert x in Operands(ops[n]);
      SolveNewKeys(ops, state, inputs, backend, solved, x);
    case TrainConst(_, _) =>
  }

  lemma {:induction false} PairNewKeys<T>(ops: seq<Op>, state: seq<seq<T>>, inputs: map<string, T>,
                                          backend: Backend<T>, solved: Solved<T>, x: Input, y: Input, n: nat)
    requires WellFormed(ops) && InputBelow(x, n) && InputBelow(y, n)
    ensures Grows(solved, SolvePair(ops, state, inputs, backend, solved, x, y, n).1)
    ensures forall a :: a in SolvePair(ops, state, inputs, backend, solved, x, y, n).1 && a !in solved ==> a.node < n
    decreases n + 1, 0
  {
    SolveNewKeys(ops, state, inputs, backend, solved, x);
    var solved1 := TapeSolve(ops, state, inputs, backend, solved, x).1;
    SolveNewKeys(ops, state, inputs, backend, solved1, y);
  }

  /**
   * A cache miss records its address exactly when it succeeds, and then the answer
   * is the requested slot of the recorded outputs: a failing node (a missing
   * handler, say) leaves no entry for itself.
   */
  lemma SolveMissRecords<T>(ops: seq<Op>, state: seq<seq<T>>, inputs: map<string, T>,
                            backend: Backend<T>, solved: Solved<T>, a: Internal)
    requires WellFormed(ops) && a !in solved
    ensures var (r, s) := TapeSolve(ops, state, inputs, backend, solved, Input.Internal(a));
      (a in s <==> r.Ok?) && (r.Ok? ==> a.output < |s[a]| && r.value == s[a][a.output])
  {
    if a.node < |ops| {
      OpNewKeys(ops, state, inputs, backend, solved, a.node);
    }
  }

  /**
   * A cache hit neither calls the backend nor changes the tape: two backends give
   * the same answer, which is the recorded slot when it exists.
   */
  lemma SolveHit<T>(ops: seq<Op>, state: seq<seq<T>>, inputs: map<string, T>,
                    backend1: Backend<T>, backend2: Backend<T>, solved: Solved<T>, a: Internal)
    requires WellFormed(ops) && a in solved
    ensures TapeSolve(ops, state, inputs, backend1, solved, Input.Internal(a))
         == TapeSolve(ops, state, inputs, backend2, solved, Input.Internal(a))
    ensures TapeSolve(ops, state, inputs, backend1, solved, Input.Internal(a)).1 == solved
    ensures TapeSolve(ops, state, inputs, backend1, solved, Input.Internal(a)).0
         == (if a.output < |solved[a]| then Ok(solved[a][a.output]) else Panic)
  {
  }

  /** Solving an input a second time on the resulting tape repeats the answer and changes nothing. */
  lemma SolveTwice<T>(ops: seq<Op>, state: seq<seq<T>>, inputs: map<string, T>,
                      backend: Backend<T>, solved: Solved<T>, input: Input)
    requires WellFormed(ops)
    ensures var p := TapeSolve(ops, state, inputs, backend, solved, input);
      p.0.Ok? ==> TapeSolve(ops, state, inputs, backend, p.1, input) == p
  {
    if input.Internal? && input.internal !in solved {
      SolveMissRecords(ops, state, inputs, backend, solved, input.internal);
    }
  }

  /** Every recorded output vector covers the slot it is recorded under. */
  ghost predicate Covered<T>(solved: Solved<T>)
  {
    forall a :: a in solved ==> a.output < |solved[a]|
  }

  /** Every operand address in the graph reads a slot below `m`. */
  ghost predicate OutputsWithin(ops: seq<Op>, m: nat)
  {
    forall n, x :: 0 <= n < |ops| && x in Operands(ops[n]) && x.Internal? ==> x.internal.output < m
  }

  /**
   * Whenever the backend solves an op of node `n`'s type on that node's state, it
   * returns at least `m` outputs.
   */
  ghost predicate ProducesAtLeast<T(!new)>(backend: Backend<T>, ops: seq<Op>, state: seq<seq<T>>, m: nat)
  {
    forall n, im | 0 <= n < |ops| && n < |state| && ImOpTy(im) == TyOf(ops[n]) ::
      backend.solve(im, state[n]).Some? ==> m <= |backend.solve(im, state[n]).value|
  }

  /**
   * Sufficient conditions for `Tape::solve` not to panic: the target node exists
   * and, with every node below it, has state; no address reads a slot the backend
   * does not produce; and the tape covers its own slots (which solving preserves).
   */
  lemma {:induction false} SolveNoPanic<T(!new)>(ops: seq<Op>, state: seq<seq<T>>, inputs: map<string, T>,
                                           backend: Backend<T>, solved: Solved<T>, input: Input, m: nat)
    requires WellFormed(ops) && Covered(solved) && OutputsWithin(ops, m) && ProducesAtLeast(backend, ops, state, m)
    requires InputBelow(input, |ops|) && Rank(input) <= |state|
    requires input.Internal? ==> input.internal.output < m
    ensures !TapeSolve(ops, state, inputs, backend, solved, input).0.Panic?
    ensures Covered(TapeSolve(ops, state, inputs, backend, solved, input).1)
    decreases Rank(input), 2
  {
    match input
    case Feed(_) =>
    case Internal(a) =>
      if a !in solved {
        OpNoPanic(ops, state, inputs, backend, solved, a.node, m);
        var im := ImOpSolve(ops, state, inputs, backend, solved, a.node).0;
        if im.Ok? {
          assert ImOpTy(im.value) == TyOf(ops[a.node]);
        }
      }
  }

  lemma {:induction false} OpNoPanic<T(!new)>(ops: seq<Op>, state: seq<seq<T>>, inputs: map<string, T>,
                                        backend: Backend<T>, solved: Solved<T>, n: nat, m: nat)
    requires WellFormed(ops) && Covered(solved) && OutputsWithin(ops, m) && ProducesAtLeast(backend, ops, state, m)
    requires n < |ops| && n < |state|
    ensures !ImOpSolve(ops, state, inputs, backend, solved, n).0.Panic?
    ensures Covered(ImOpSolve(ops, state, inputs, backend, solved, n).1)
    decreases n + 1, 1
  {
    assert OpBelow(ops[n], n);
    match ops[n]
    case Add(x, y) =>
      assert x in Operands(ops[n]) && y in Operands(ops[n]);
      PairNoPanic(ops, state, inputs, backend, solved, x, y, n, m);
    case Sub(x, y) =>
      assert x in Operands(ops[n]) && y in Operands(ops[n]);
      PairNoPanic(ops, state, inputs, backend, solved, x, y, n, m);
    case Square(x) =>
      assert x in Operands(ops[n]);
      SolveNoPanic(ops, state, inputs, backend, solved, x, m);
    case TrainConst(_, _) =>
  }

  lemma {:induction false} PairNoPanic<T(!new)>(ops: seq<Op>, state: seq<seq<T>>, inputs: map<string, T>,
                                          backend: Backend<T>, solved: Solved<T>, x: Input, y: Input,
                                          n: nat, m: nat)
    requires WellFormed(ops) && Covered(solved) && OutputsWithin(ops, m) && ProducesAtLeast(backend, ops, state, m)
    requires n < |ops| && n < |state| && InputBelow(x, n) && InputBelow(y, n)
    requires x.Internal? ==> x.internal.output < m
    requires y.Internal? ==> y.internal.output < m
    ensures !SolvePair(ops, state, inputs, backend, solved, x, y, n).0.Panic?
    ensures Covered(SolvePair(ops, state, inputs, backend, solved, x, y, n).1)
    decreases n + 1, 0
  {
    SolveNoPanic(ops, state, inputs, backend, solved, x, m);
    var solved1 := TapeSolve(ops, state, inputs, backend, solved, x).1;
    SolveNoPanic(ops, state, inputs, backend, solved1, y, m);
  }

  /**
   * `Graph::merge` preserves meaning: in the merged graph, with the two state
   * vectors concatenated, a shifted input of the appended graph evaluates to what
   * it evaluated to in that graph alone.
   */
  lemma {:induction false} EvalMerged<T>(g1: seq<Op>, g2: seq<Op>, s1: seq<seq<T>>, s2: seq<seq<T>>,
                                         inputs: map<string, T>, backend: Backend<T>, input: Input)
    requires WellFormed(g1) && WellFormed(g2) && |s1| == |g1|
    ensures WellFormed(Merged(g1, g2))
    ensures Eval(Merged(g1, g2), s1 + s2, inputs, backend, ShiftInput(input, |g1|))
         == Eval(g2, s2, inputs, backend, input)
    decreases Rank(input), 3
  {
    MergedWellFormed(g1, g2);
    match input
    case Feed(_) =>
    case Internal(a) => NodeMerged(g1, g2, s1, s2, inputs, backend, a.node);
  }

  lemma {:induction false} NodeMerged<T>(g1: seq<Op>, g2: seq<Op>, s1: seq<seq<T>>, s2: seq<seq<T>>,
                                         inputs: map<string, T>, backend: Backend<T>, n: nat)
    requires WellFormed(g1) && WellFormed(g2) && |s1| == |g1|
    ensures WellFormed(Merged(g1, g2))
    ensures NodeOutputs(Merged(g1, g2), s1 + s2, inputs, backend, n + |g1|)
         == NodeOutputs(g2, s2, inputs, backend, n)
    decreases n + 1, 2
  {
    MergedWellFormed(g1, g2);
    if n < |g2| {
      OpMerged(g1, g2, s1, s2, inputs, backend, n);
      if n < |s2| {
        assert (s1 + s2)[n + |g1|] == s2[n];
      }
    }
  }

  lemma {:induction false} OpMerged<T>(g1: seq<Op>, g2: seq<Op>, s1: seq<seq<T>>, s2: seq<seq<T>>,
                                       inputs: map<string, T>, backend: Backend<T>, n: nat)
    requires WellFormed(g1) && WellFormed(g2) && |s1| == |g1| && n < |g2|
    ensures WellFormed(Merged(g1, g2))
    ensures Merged(g1, g2)[n + |g1|] == ShiftOp(g2[n], |g1|)
    ensures EvalOp(Merged(g1, g2), s1 + s2, inputs, backend, n + |g1|)
         == EvalOp(g2, s2, inputs, backend, n)
    decreases n + 1, 1
  {
    MergedWellFormed(g1, g2);
    var k := |g1|;
    assert OpBelow(g2[n], n);
    match g2[n]
    case Add(x, y) =>
      assert x in Operands(g2[n]) && y in Operands(g2[n]);
      EvalMerged(g1, g2, s1, s2, inputs, backend, x);
      EvalMerged(g1, g2, s1, s2, inputs, backend, y);
    case Sub(x, y) =>
      assert x in Operands(g2[n]) && y in Operands(g2[n]);
      EvalMerged(g1, g2, s1, s2, inputs, backend, x);
      EvalMerged(g1, g2, s1, s2, inputs, backend, y);
    case Square(x) =>
      assert x in Operands(g2[n]);
      EvalMerged(g1, g2, s1, s2, inputs, backend, x);
    case TrainConst(_, _) =>
  }

  /**
   * Appending ops (as the expression builder does) does not change what the
   * existing inputs evaluate to.
   */
  lemma {:induction false} EvalPrefix<T>(ops: seq<Op>, more: seq<Op>, state: seq<seq<T>>, smore: seq<seq<T>>,
                                         inputs: map<string, T>, backend: Backend<T>, input: Input)
    requires WellFormed(ops) && WellFormed(ops + more) && |ops| <= |state| && InputBelow(input, |ops|)
    ensures Eval(ops + more, state + smore, inputs, backend, input) == Eval(ops, state, inputs, backend, input)
    decreases Rank(input), 3
  {
    match input
    case Feed(_) =>
    case Internal(a) => NodePrefix(ops, more, state, smore, inputs, backend, a.node);
  }

  lemma {:induction false} NodePrefix<T>(ops: seq<Op>, more: seq<Op>, state: seq<seq<T>>, smore: seq<seq<T>>,
                                         inputs: map<string, T>, backend: Backend<T>, n: nat)
    requires WellFormed(ops) && WellFormed(ops + more) && |ops| <= |state| && n < |ops|
    ensures NodeOutputs(ops + more, state + smore, inputs, backend, n) == NodeOutputs(ops, state, inputs, backend, n)
    decreases n + 1, 2
  {
    assert (ops + more)[n] == ops[n];
    assert (state + smore)[n] == state[n];
    assert OpBelow(ops[n], n);
    match ops[n]
    case Add(x, y) =>
      assert x in Operands(ops[n]) && y in Operands(ops[n]);
      EvalPrefix(ops, more, state, smore, inputs, backend, x);
      EvalPrefix(ops, more, state, smore, inputs, backend, y);
      assert EvalPair(ops + more, state + smore, inputs, backend, x, y, n) == EvalPair(ops, state, inputs, backend, x, y, n);
    case Sub(x, y) =>
      assert x in Operands(ops[n]) && y in Operands(ops[n]);
      EvalPrefix(ops, more, state, smore, inputs, backend, x);
      EvalPrefix(ops, more, state, smore, inputs, backend, y);
      assert EvalPair(ops + more, state + smore, inputs, backend, x, y, n) == EvalPair(ops, state, inputs, backend, x, y, n);
    case Square(x) =>
      assert x in Operands(ops[n]);
      EvalPrefix(ops, more, state, smore, inputs, backend, x);
    case TrainConst(_, _) =>
  }

  /** The address is on the tape and its slot exists: `Tape::input` can read it. */
  ghost predicate Recorded<T>(solved: Solved<T>, a: Internal)
  {
    a in solved && a.output < |solved[a]|
  }

  /**
   * Every recorded node exists and the operand addresses it was computed from are
   * readable on the tape: what backpropagation needs from the forward pass.
   */
  ghost predicate Closed<T>(ops: seq<Op>, solved: Solved<T>)
  {
    forall a :: a in solved ==>
      a.node < |ops| && forall x :: x in Operands(ops[a.node]) && x.Internal? ==> Recorded(solved, x.internal)
  }

  /**
   * Solving keeps the tape closed, and a successful solve of an address leaves that
   * address readable.
   */
  lemma {:induction false} SolveCloses<T>(ops: seq<Op>, state: seq<seq<T>>, inputs: map<string, T>,
                                          backend: Backend<T>, solved: Solved<T>, input: Input)
    requires WellFormed(ops) && Closed(ops, solved)
    ensures Closed(ops, TapeSolve(ops, state, inputs, backend, solved, input).1)
    ensures TapeSolve(ops, state, inputs, backend, solved, input).0.Ok? && input.Internal? ==>
      Recorded(TapeSolve(ops, state, inputs, backend, solved, input).1, input.internal)
    decreases Rank(input), 2
  {
    match input
    case Feed(_) =>
    case Internal(a) =>
      if a !in solved && a.node < |ops| {
        OpCloses(ops, state, inputs, backend, solved, a.node);
        OpNewKeys(ops, state, inputs, backend, solved, a.node);
      }
  }

  lemma {:induction false} OpCloses<T>(ops: seq<Op>, state: seq<seq<T>>, inputs: map<string, T>,
                                       backend: Backend<T>, solved: Solved<T>, n: nat)
    requires WellFormed(ops) && Closed(ops, solved) && n < |ops|
    ensures Closed(ops, ImOpSolve(ops, state, inputs, backend, solved, n).1)
    ensures ImOpSolve(ops, state, inputs, backend, solved, n).0.Ok? ==>
      forall x :: x in Operands(ops[n]) && x.Internal? ==> Recorded(ImOpSolve(ops, state, inputs, backend, solved, n).1, x.internal)
    decreases n + 1, 1
  {
    assert OpBelow(ops[n], n);
    match ops[n]
    case Add(x, y) =>
      assert x in Operands(ops[n]) && y in Operands(ops[n]);
      PairCloses(ops, state, inputs, backend, solved, x, y, n);
    case Sub(x, y) =>
      assert x in Operands(ops[n]) && y in Operands(ops[n]);
      PairCloses(ops, state, inputs, backend, solved, x, y, n);
    case Square(x) =>
      assert x in Operands(ops[n]);
      SolveCloses(ops, state, inputs, backend, solved, x);
    case TrainConst(_, _) =>
  }

  lemma {:induction false} PairCloses<T>(ops: seq<Op>, state: seq<seq<T>>, inputs: map<string, T>,
                                         backend: Backend<T>, solved: Solved<T>, x: Input, y: Input, n: nat)
    requires WellFormed(ops) && Closed(ops, solved) && InputBelow(x, n) && InputBelow(y, n)
    ensures Closed(ops, SolvePair(ops, state, inputs, backend, solved, x, y, n).1)
    ensures SolvePair(ops, state, inputs, backend, solved, x, y, n).0.Ok? ==>
      (x.Internal? ==> Recorded(SolvePair(ops, state, inputs, backend, solved, x, y, n).1, x.internal)) &&
      (y.Internal? ==> Recorded(SolvePair(ops, state, inputs, backend, solved, x, y, n).1, y.internal))
    decreases n + 1, 0
  {
    SolveCloses(ops, state, inputs, backend, solved, x);
    var solved1 := TapeSolve(ops, state, inputs, backend, solved, x).1;
    SolveCloses(ops, state, inputs, backend, solved1, y);
    SolveNewKeys(ops, state, inputs, backend, solved1, y);
  }
}
