/**
 * The native backend's dispatch (`deep-native`): a table of handlers keyed by op
 * type. State generation and forward solving both look the handler up by the op's
 * type tag only.
 */
module NativeBackend {
  import opened Wrappers
  import opened Deep
  import opened BackendTools
  import opened Forward

  /**
   * A handler's two functions used here: the initial state of a graph op (the
   * random source is left out) and the forward kernel.
   */
  datatype Handler<!T> = Handler(generateState: Op -> seq<T>, forward: (ImOp<T>, seq<T>) -> seq<T>)

  /** `Native`: the registered handlers. */
  datatype Native<!T> = Native(handlers: map<OpTy, Handler<T>>)

  /**
   * `Backend::state for Native`: one state vector per op, in graph order, from the
   * op's handler; the first op without a handler stops it with `OpHasNoHandler`.
   */
  function State<T>(native: Native<T>, ops: seq<Op>): (r: Outcome<seq<seq<T>>>)
    ensures !r.Panic?
    ensures r.Ok? ==> |r.value| == |ops|
    decreases |ops|
  {
    if ops == [] then Ok([])
    else
      var ty := TyOf(ops[0]);
      if ty !in native.handlers then Err(OpHasNoHandler(ty))
      else
        var rest := State(native, ops[1..]);
        if rest.Ok? then Ok([native.handlers[ty].generateState(ops[0])] + rest.value) else rest
  }

  /** `Immediate::solve for Native`: the forward kernel of the handler for the `ImOp`'s tag. */
  function Solve<T>(native: Native<T>, imop: ImOp<T>, state: seq<T>): (r: Option<seq<T>>)
    ensures r.None? <==> ImOpTy(imop) !in native.handlers
    ensures r.Some? ==> r.value == native.handlers[ImOpTy(imop)].forward(imop, state)
  {
    var ty := ImOpTy(imop);
    if ty in native.handlers then Some(native.handlers[ty].forward(imop, state)) else None
  }

  /**
   * The native backend as an engine backend. `Native` has no propagation of its own,
   * so the propagation kernel is supplied separately.
   */
  function AsBackend<T>(native: Native<T>, propagate: (ImOp<T>, seq<T>, nat, T) -> Option<(ImOp<T>, seq<T>)>)
    : Backend<T>
  {
    Backend((imop, st) => Solve(native, imop, st), propagate)
  }

  /** `ops` has an op whose type has no handler, and `j` is the first such op. */
  predicate FirstUnhandled<T>(native: Native<T>, ops: seq<Op>, j: nat)
  {
    j < |ops| && TyOf(ops[j]) !in native.handlers &&
    forall i :: 0 <= i < j ==> TyOf(ops[i]) in native.handlers
  }

  /**
   * `state` succeeds exactly when every op has a handler, and then holds each op's
   * generated state in graph order; otherwise it names the first unhandled op's type.
   */
  lemma {:induction false} StateSpec<T>(native: Native<T>, ops: seq<Op>)
    ensures State(native, ops).Ok? <==> forall i :: 0 <= i < |ops| ==> TyOf(ops[i]) in native.handlers
    ensures State(native, ops).Ok? ==>
      forall i :: 0 <= i < |ops| ==>
        State(native, ops).value[i] == native.handlers[TyOf(ops[i])].generateState(ops[i])
    ensures State(native, ops).Err? ==>
      exists j: nat :: FirstUnhandled(native, ops, j) && State(native, ops).error == OpHasNoHandler(TyOf(ops[j]))
    decreases |ops|
  {
    if ops != [] {
      StateSpec(native, ops[1..]);
      var r := State(native, ops);
      var rest := State(native, ops[1..]);
      if TyOf(ops[0]) !in native.handlers {
        assert FirstUnhandled(native, ops, 0);
      } else {
        if rest.Ok? {
          forall i | 0 <= i < |ops|
            ensures TyOf(ops[i]) in native.handlers
            ensures r.value[i] == native.handlers[TyOf(ops[i])].generateState(ops[i])
          {
            if i > 0 {
              assert ops[1..][i - 1] == ops[i];
            }
          }
        } else {
          var j: nat :| FirstUnhandled(native, ops[1..], j) && rest.error == OpHasNoHandler(TyOf(ops[1..][j]));
          assert ops[1..][j] == ops[j + 1];
          forall i | 0 <= i < j + 1
            ensures TyOf(ops[i]) in native.handlers
          {
            if i > 0 {
              assert ops[1..][i - 1] == ops[i];
            }
          }
          assert FirstUnhandled(native, ops, j + 1);
        }
      }
    }
  }

  /** `state` looks at op types only: graphs with the same types fail alike. */
  lemma {:induction false} StateByTags<T>(native: Native<T>, ops1: seq<Op>, ops2: seq<Op>)
    requires |ops1| == |ops2| && forall i :: 0 <= i < |ops1| ==> TyOf(ops1[i]) == TyOf(ops2[i])
    ensures State(native, ops1).Ok? <==> State(native, ops2).Ok?
    ensures State(native, ops1).Err? ==> State(native, ops2) == State(native, ops1)
    decreases |ops1|
  {
    if ops1 != [] {
      assert TyOf(ops1[0]) == TyOf(ops2[0]);
      assert forall i :: 0 <= i < |ops1[1..]| ==> ops1[1..][i] == ops1[i + 1] && ops2[1..][i] == ops2[i + 1];
      StateByTags(native, ops1[1..], ops2[1..]);
    }
  }

  /** `solve` looks at the tag only: two `ImOp`s with one tag use the same handler. */
  lemma SolveByTag<T>(native: Native<T>, imop1: ImOp<T>, imop2: ImOp<T>, state: seq<T>)
    requires ImOpTy(imop1) == ImOpTy(imop2)
    ensures Solve(native, imop1, state).None? <==> Solve(native, imop2, state).None?
    ensures Solve(native, imop1, state).Some? ==>
      exists h :: h == native.handlers[ImOpTy(imop1)] &&
        Solve(native, imop1, state).value == h.forward(imop1, state) &&
        Solve(native, imop2, state).value == h.forward(imop2, state)
  {
  }

  /** Solving the operands of an op packs them into the `ImOp` of the op's own type. */
  lemma OpSolveTag<T>(ops: seq<Op>, state: seq<seq<T>>, inputs: map<string, T>, backend: Backend<T>, n: nat)
    requires WellFormed(ops) && n < |ops|
    ensures EvalOp(ops, state, inputs, backend, n).Ok? ==>
      ImOpTy(EvalOp(ops, state, inputs, backend, n).value) == TyOf(ops[n])
  {
  }

  /** Some op of the graph has type `ty`, and no handler is registered for it. */
  predicate UnhandledOp<T>(native: Native<T>, ops: seq<Op>, ty: OpTy)
  {
    exists n :: 0 <= n < |ops| && TyOf(ops[n]) == ty && ty !in native.handlers
  }

  /**
   * With the native backend, an `OpHasNoHandler` from evaluation names the type of
   * an op of the graph that has no registered handler.
   */
  lemma {:induction false} EvalNoHandler<T>(native: Native<T>, propagate: (ImOp<T>, seq<T>, nat, T) -> Option<(ImOp<T>, seq<T>)>,
                                            ops: seq<Op>, state: seq<seq<T>>, inputs: map<string, T>, input: Input)
    requires WellFormed(ops)
    ensures var r := Eval(ops, state, inputs, AsBackend(native, propagate), input);
      r.Err? && r.error.OpHasNoHandler? ==> UnhandledOp(native, ops, r.error.ty)
    decreases Rank(input), 3
  {
    match input
    case Feed(_) =>
    case Internal(a) =>
      if a.node < |ops| {
        NodeNoHandler(native, propagate, ops, state, inputs, a.node);
      }
  }

  lemma {:induction false} NodeNoHandler<T>(native: Native<T>, propagate: (ImOp<T>, seq<T>, nat, T) -> Option<(ImOp<T>, seq<T>)>,
                                            ops: seq<Op>, state: seq<seq<T>>, inputs: map<string, T>, n: nat)
    requires WellFormed(ops) && n < |ops|
    ensures var r := NodeOutputs(ops, state, inputs, AsBackend(native, propagate), n);
      r.Err? && r.error.OpHasNoHandler? ==> UnhandledOp(native, ops, r.error.ty)
    decreases n + 1, 2
  {
    var backend := AsBackend(native, propagate);
    OpSolveTag(ops, state, inputs, backend, n);
    var im := EvalOp(ops, state, inputs, backend, n);
    if im.Ok? && n < |state| && backend.solve(im.value, state[n]).None? {
      assert backend.solve(im.value, state[n]) == Solve(native, im.value, state[n]);
      assert TyOf(ops[n]) !in native.handlers;
    }
    assert OpBelow(ops[n], n);
    match ops[n]
    case Add(x, y) =>
      assert x in Operands(ops[n]) && y in Operands(ops[n]);
      EvalNoHandler(native, propagate, ops, state, inputs, x);
      EvalNoHandler(native, propagate, ops, state, inputs, y);
      var p := EvalPair(ops, state, inputs, backend, x, y, n);
      assert p.Err? ==>
        (Eval(ops, state, inputs, backend, x).Err? && p.error == Eval(ops, state, inputs, backend, x).error) ||
        (Eval(ops, state, inputs, backend, y).Err? && p.error == Eval(ops, state, inputs, backend, y).error);
    case Sub(x, y) =>
      assert x in Operands(ops[n]) && y in Operands(ops[n]);
      EvalNoHandler(native, propagate, ops, state, inputs, x);
      EvalNoHandler(native, propagate, ops, state, inputs, y);
      var p := EvalPair(ops, state, inputs, backend, x, y, n);
      assert p.Err? ==>
        (Eval(ops, state, inputs, backend, x).Err? && p.error == Eval(ops, state, inputs, backend, x).error) ||
        (Eval(ops, state, inputs, backend, y).Err? && p.error == Eval(ops, state, inputs, backend, y).error);
    case Square(x) =>
      assert x in Operands(ops[n]);
      EvalNoHandler(native, propagate, ops, state, inputs, x);
    case TrainConst(_, _) =>
  }

  /**
   * Once `state` has succeeded for a graph, solving on the tape with that state and
   * the native backend never reports `OpHasNoHandler`.
   */
  lemma SolveAfterState<T>(native: Native<T>, propagate: (ImOp<T>, seq<T>, nat, T) -> Option<(ImOp<T>, seq<T>)>,
                           ops: seq<Op>, inputs: map<string, T>, solved: Solved<T>, input: Input)
    requires WellFormed(ops) && State(native, ops).Ok?
    requires Consistent(ops, State(native, ops).value, inputs, AsBackend(native, propagate), solved)
    ensures var r := TapeSolve(ops, State(native, ops).value, inputs, AsBackend(native, propagate), solved, input).0;
      !(r.Err? && r.error.OpHasNoHandler?)
  {
    var state := State(native, ops).value;
    StateSpec(native, ops);
    SolveMatchesEval(ops, state, inputs, AsBackend(native, propagate), solved, input);
    EvalNoHandler(native, propagate, ops, state, inputs, input);
  }
}
