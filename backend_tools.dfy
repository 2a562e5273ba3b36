/**
 * The evaluation engine of `deep-backend-tools`: the tape that memoises forward
 * evaluation of a graph, and the recursive reverse-mode gradient propagation that
 * reads it.
 *
 * Tensors are the type parameter `T`. The backend's kernels are the two functions
 * of a `Backend<T>` value. A Rust panic is a `Panic` outcome of the specification
 * functions; the imperative methods of `Tape` require that it does not occur.
 */
module BackendTools {
  import opened Wrappers
  import opened Deep
  import opened Accumulate

  /** The recoverable errors of the engine. */
  datatype Error =
    | InputNotProvided(name: string)
    | InternalNotComputed(node: nat, nodeTy: Option<OpTy>)
    | OpHasNoHandler(ty: OpTy)

  /**
   * What a call of the engine comes to: `Ok` and `Err` are the two arms of the
   * engine's `Result`; `Panic` marks a run that would abort.
   */
  datatype Outcome<R> = Ok(value: R) | Err(error: Error) | Panic

  /** Passes a failure (error or panic) on under another value type. */
  function Fail<A, B>(o: Outcome<A>): (r: Outcome<B>)
    requires !o.Ok?
    ensures !r.Ok?
    ensures r.Err? <==> o.Err?
    ensures r.Err? ==> r.error == o.error
  {
    if o.Err? then Err(o.error) else Panic
  }

  /** Forgets the value of an outcome. */
  function Status<R>(o: Outcome<R>): Outcome<()>
  {
    match o
    case Ok(_) => Ok(())
    case Err(e) => Err(e)
    case Panic => Panic
  }

  /** An operation whose operands are concrete tensors (or their gradients). */
  datatype ImOp<T> = Add(left: T, right: T) | Sub(left: T, right: T) | Square(arg: T) | TrainConst

  /** `From<&ImOp> for OpTy`: each variant maps to its same-named tag. */
  function ImOpTy<T>(imop: ImOp<T>): (r: OpTy)
    ensures r == OpTy.Add <==> imop.Add?
    ensures r == OpTy.Sub <==> imop.Sub?
    ensures r == OpTy.Square <==> imop.Square?
    ensures r == OpTy.TrainConst <==> imop.TrainConst?
  {
    match imop
    case Add(_, _) => OpTy.Add
    case Sub(_, _) => OpTy.Sub
    case Square(_) => OpTy.Square
    case TrainConst => OpTy.TrainConst
  }

  /** The standard `Result` used by the `ImOp` destructors. */
  datatype SResult<R, E> = SOk(value: R) | SErr(error: E)

  /** `ImOp::add`: the two tensors of an `Add`, or the `ImOp` back unchanged. */
  function AsAdd<T>(imop: ImOp<T>): (r: SResult<(T, T), ImOp<T>>)
    ensures r.SOk? <==> imop.Add?
    ensures r.SOk? ==> ImOp.Add(r.value.0, r.value.1) == imop
    ensures r.SErr? ==> r.error == imop
  {
    if imop.Add? then SOk((imop.left, imop.right)) else SErr(imop)
  }

  /** `ImOp::sub`: the two tensors of a `Sub`, or the `ImOp` back unchanged. */
  function AsSub<T>(imop: ImOp<T>): (r: SResult<(T, T), ImOp<T>>)
    ensures r.SOk? <==> imop.Sub?
    ensures r.SOk? ==> ImOp.Sub(r.value.0, r.value.1) == imop
    ensures r.SErr? ==> r.error == imop
  {
    if imop.Sub? then SOk((imop.left, imop.right)) else SErr(imop)
  }

  /** `ImOp::square`: the tensor of a `Square`, or the `ImOp` back unchanged. */
  function AsSquare<T>(imop: ImOp<T>): (r: SResult<T, ImOp<T>>)
    ensures r.SOk? <==> imop.Square?
    ensures r.SOk? ==> ImOp.Square(r.value) == imop
    ensures r.SErr? ==> r.error == imop
  {
    if imop.Square? then SOk(imop.arg) else SErr(imop)
  }

  /**
   * The backend's kernels: `solve` (`Immediate::solve`) runs an operation on a
   * node's state, `propagate` (`Propogate::propogate`) takes an output slot and the
   * gradient arriving there and gives the operand gradients (as an `ImOp`) and the
   * gradients of the node's state. Both give `None` when no handler is registered.
   */
  datatype Backend<!T> = Backend(
    solve: (ImOp<T>, seq<T>) -> Option<seq<T>>,
    propagate: (ImOp<T>, seq<T>, nat, T) -> Option<(ImOp<T>, seq<T>)>)

  /** The contents of a tape: every computed address with all of its node's outputs. */
  type Solved<T> = map<Internal, seq<T>>

  /** The `Feed` blanket impl: the inputs are a map from names to tensors. */
  function FeedLookup<T>(inputs: map<string, T>, name: string): (r: Option<T>)
    ensures r.Some? <==> name in inputs
    ensures r.Some? ==> r.value == inputs[name]
  {
    if name in inputs then Some(inputs[name]) else None
  }

  /** A feed's tensor, or `InputNotProvided` naming it. */
  function FeedOrError<T>(inputs: map<string, T>, name: string): (r: Outcome<T>)
    ensures r.Ok? <==> name in inputs
    ensures r.Ok? ==> r.value == inputs[name]
    ensures !r.Ok? ==> r == Err(InputNotProvided(name))
  {
    match FeedLookup(inputs, name)
    case Some(t) => Ok(t)
    case None => Err(InputNotProvided(name))
  }

  /**
   * `Tape::input`: a feed comes from the inputs; an address is read from the tape,
   * and a missing address or slot is `InternalNotComputed`, with the node's op type
   * when the node exists. It never panics and never changes the tape.
   */
  function TapeInput<T>(solved: Solved<T>, ops: seq<Op>, inputs: map<string, T>, input: Input): (r: Outcome<T>)
    ensures !r.Panic?
    ensures input.Feed? ==> r == FeedOrError(inputs, input.name)
    ensures input.Internal? ==>
      var a := input.internal;
      (r.Ok? <==> a in solved && a.output < |solved[a]|) &&
      (r.Ok? ==> r.value == solved[a][a.output]) &&
      (r.Err? ==> r.error == InternalNotComputed(a.node, if a.node < |ops| then Some(TyOf(ops[a.node])) else None))
  {
    match input
    case Feed(name) => FeedOrError(inputs, name)
    case Internal(a) =>
      if a in solved && a.output < |solved[a]| then Ok(solved[a][a.output])
      else Err(InternalNotComputed(a.node, if a.node < |ops| then Some(TyOf(ops[a.node])) else None))
  }

  /** A termination measure: feeds rank lowest, an address ranks above its node's operands. */
  function Rank(input: Input): nat
  {
    match input
    case Feed(_) => 0
    case Internal(a) => a.node + 1
  }

  /**
   * `Tape::solve`, as a function of the tape before the call: the result and the
   * tape after it. A cached address is answered from the tape; otherwise the node's
   * operands are solved left to right, the backend runs once on the node's state, and
   * its whole output vector is recorded under the address.
   */
  function TapeSolve<T>(ops: seq<Op>, state: seq<seq<T>>, inputs: map<string, T>, backend: Backend<T>,
                        solved: Solved<T>, input: Input): (Outcome<T>, Solved<T>)
    requires WellFormed(ops)
    decreases Rank(input), 2
  {
    match input
    case Feed(name) => (FeedOrError(inputs, name), solved)
    case Internal(a) =>
      if a in solved then
        (if a.output < |solved[a]| then Ok(solved[a][a.output]) else Panic, solved)
      else if |ops| <= a.node then
        (Panic, solved)
      else
        var (im, solved1) := ImOpSolve(ops, state, inputs, backend, solved, a.node);
        if !im.Ok? then (Fail(im), solved1)
        else if |state| <= a.node then (Panic, solved1)
        else match backend.solve(im.value, state[a.node])
          case None => (Err(OpHasNoHandler(TyOf(ops[a.node]))), solved1)
          case Some(outputs) =>
            if a.output < |outputs| then (Ok(outputs[a.output]), solved1[a := outputs])
            else (Panic, solved1)
  }

  /** `ImOp::solve`: solves the operands of node `n` and packs them into an `ImOp`. */
  function ImOpSolve<T>(ops: seq<Op>, state: seq<seq<T>>, inputs: map<string, T>, backend: Backend<T>,
                        solved: Solved<T>, n: nat): (Outcome<ImOp<T>>, Solved<T>)
    requires WellFormed(ops) && n < |ops|
    decreases n + 1, 1
  {
    assert OpBelow(ops[n], n);
    match ops[n]
    case Add(x, y) =>
      var (p, solved1) := SolvePair(ops, state, inputs, backend, solved, x, y, n);
      (if p.Ok? then Ok(ImOp.Add(p.value.0, p.value.1)) else Fail(p), solved1)
    case Sub(x, y) =>
      var (p, solved1) := SolvePair(ops, state, inputs, backend, solved, x, y, n);
      (if p.Ok? then Ok(ImOp.Sub(p.value.0, p.value.1)) else Fail(p), solved1)
    case Square(x) =>
      assert x in Operands(ops[n]);
      var (rx, solved1) := TapeSolve(ops, state, inputs, backend, solved, x);
      (if rx.Ok? then Ok(ImOp.Square(rx.value)) else Fail(rx), solved1)
    case TrainConst(_, _) => (Ok(ImOp.TrainConst), solved)
  }

  /** The `double` closure of `ImOp::solve`: the left operand, then the right one. */
  function SolvePair<T>(ops: seq<Op>, state: seq<seq<T>>, inputs: map<string, T>, backend: Backend<T>,
                        solved: Solved<T>, x: Input, y: Input, n: nat): (Outcome<(T, T)>, Solved<T>)
    requires WellFormed(ops) && InputBelow(x, n) && InputBelow(y, n)
    decreases n + 1, 0
  {
    var (rx, solved1) := TapeSolve(ops, state, inputs, backend, solved, x);
    if !rx.Ok? then (Fail(rx), solved1)
    else
      var (ry, solved2) := TapeSolve(ops, state, inputs, backend, solved1, y);
      if !ry.Ok? then (Fail(ry), solved2)
      else (Ok((rx.value, ry.value)), solved2)
  }

  /**
   * The `gradients` closure of `ImOp::backprop`: the backend's propagation for the
   * node of `a`, with its state and the delta of slot `a.output`. A node without state
   * panics; a missing handler is `OpHasNoHandler`.
   */
  function Gradients<T>(backend: Backend<T>, state: seq<seq<T>>, a: Internal, delta: T,
                        imop: ImOp<T>, ty: OpTy): (r: Outcome<(ImOp<T>, seq<T>)>)
    ensures r.Panic? <==> |state| <= a.node
    ensures r.Err? ==> r.error == OpHasNoHandler(ty)
    ensures a.node < |state| ==> (r.Ok? <==> backend.propagate(imop, state[a.node], a.output, delta).Some?)
    ensures r.Ok? ==> Some(r.value) == backend.propagate(imop, state[a.node], a.output, delta)
  {
    if |state| <= a.node then Panic
    else match backend.propagate(imop, state[a.node], a.output, delta)
      case None => Err(OpHasNoHandler(ty))
      case Some(g) => Ok(g)
  }

  /**
   * `Tape::backprop`, as a function of the accumulator's table before the call: a
   * feed leaves it unchanged; an address propagates through its node.
   */
  function TapeBackprop<T>(add: (T, T) -> T, ops: seq<Op>, state: seq<seq<T>>, inputs: map<string, T>,
                           backend: Backend<T>, solved: Solved<T>, input: Input, delta: T,
                           deltas: map<nat, seq<T>>): Outcome<map<nat, seq<T>>>
    requires WellFormed(ops)
    decreases Rank(input), 2
  {
    match input
    case Feed(_) => Ok(deltas)
    case Internal(a) =>
      if |ops| <= a.node then Panic
      else ImOpBackprop(add, ops, state, inputs, backend, solved, a, delta, deltas)
  }

  /**
   * `ImOp::backprop`: reads the node's operands from the tape, propagates the delta
   * through the backend, records the node's state gradients, then recurses into the
   * operands (left first) with their gradients. A source op does not recurse.
   */
  function ImOpBackprop<T>(add: (T, T) -> T, ops: seq<Op>, state: seq<seq<T>>, inputs: map<string, T>,
                           backend: Backend<T>, solved: Solved<T>, a: Internal, delta: T,
                           deltas: map<nat, seq<T>>): Outcome<map<nat, seq<T>>>
    requires WellFormed(ops) && a.node < |ops|
    decreases a.node + 1, 1
  {
    var op := ops[a.node];
    assert OpBelow(op, a.node);
    match op
    case Add(x, y) =>
      BinaryBackprop(add, ops, state, inputs, backend, solved, a, delta, deltas, x, y,
                     (p, q) => ImOp.Add(p, q), AsAdd)
    case Sub(x, y) =>
      BinaryBackprop(add, ops, state, inputs, backend, solved, a, delta, deltas, x, y,
                     (p, q) => ImOp.Sub(p, q), AsSub)
    case Square(x) =>
      UnaryBackprop(add, ops, state, inputs, backend, solved, a, delta, deltas, x)
    case TrainConst(_, _) =>
      var g := Gradients(backend, state, a, delta, ImOp.TrainConst, TyOf(op));
      if !g.Ok? then Fail(g)
      else if !CanInsert(deltas, a.node, g.value.1) then Panic
      else Ok(Inserted(add, deltas, a.node, g.value.1))
  }

  /** The `binary` closure of `ImOp::backprop`. */
  function BinaryBackprop<T>(add: (T, T) -> T, ops: seq<Op>, state: seq<seq<T>>, inputs: map<string, T>,
                             backend: Backend<T>, solved: Solved<T>, a: Internal, delta: T,
                             deltas: map<nat, seq<T>>, x: Input, y: Input,
                             make: (T, T) -> ImOp<T>, undo: ImOp<T> -> SResult<(T, T), ImOp<T>>)
    : Outcome<map<nat, seq<T>>>
    requires WellFormed(ops) && a.node < |ops| && InputBelow(x, a.node) && InputBelow(y, a.node)
    decreases a.node + 1, 0
  {
    var rx := TapeInput(solved, ops, inputs, x);
    if !rx.Ok? then Fail(rx)
    else
      var ry := TapeInput(solved, ops, inputs, y);
      if !ry.Ok? then Fail(ry)
      else
        var g := Gradients(backend, state, a, delta, make(rx.value, ry.value), TyOf(ops[a.node]));
        if !g.Ok? then Fail(g)
        else if !CanInsert(deltas, a.node, g.value.1) then Panic
        else
          var deltas1 := Inserted(add, deltas, a.node, g.value.1);
          match undo(g.value.0)
          case SErr(_) => Panic
          case SOk((dx, dy)) =>
            var r1 := TapeBackprop(add, ops, state, inputs, backend, solved, x, dx, deltas1);
            if !r1.Ok? then r1
            else TapeBackprop(add, ops, state, inputs, backend, solved, y, dy, r1.value)
  }

  /** The `unary` closure of `ImOp::backprop` (for `Square`). */
  function UnaryBackprop<T>(add: (T, T) -> T, ops: seq<Op>, state: seq<seq<T>>, inputs: map<string, T>,
                            backend: Backend<T>, solved: Solved<T>, a: Internal, delta: T,
                            deltas: map<nat, seq<T>>, x: Input): Outcome<map<nat, seq<T>>>
    requires WellFormed(ops) && a.node < |ops| && InputBelow(x, a.node)
    decreases a.node + 1, 0
  {
    var rx := TapeInput(solved, ops, inputs, x);
    if !rx.Ok? then Fail(rx)
    else
      var g := Gradients(backend, state, a, delta, ImOp.Square(rx.value), TyOf(ops[a.node]));
      if !g.Ok? then Fail(g)
      else if !CanInsert(deltas, a.node, g.value.1) then Panic
      else
        var deltas1 := Inserted(add, deltas, a.node, g.value.1);
        match AsSquare(g.value.0)
        case SErr(_) => Panic
        case SOk(dx) => TapeBackprop(add, ops, state, inputs, backend, solved, x, dx, deltas1)
  }

  /** The forward cache: a map from address to the outputs of that address's node. */
  class Tape<T> {
    var solved: Solved<T>

    /** `Tape::new` / `Default`: an empty tape. */
    constructor ()
      ensures solved == map[]
    {
      solved := map[];
    }

    /** `Tape::solve`: memoised forward evaluation of one input. */
    method Solve(ops: seq<Op>, state: seq<seq<T>>, inputs: map<string, T>, backend: Backend<T>, input: Input)
      returns (r: Outcome<T>)
      requires WellFormed(ops)
      requires !TapeSolve(ops, state, inputs, backend, solved, input).0.Panic?
      modifies this
      ensures (r, solved) == TapeSolve(ops, state, inputs, backend, old(solved), input)
      decreases Rank(input), 2
    {
      match input
      case Feed(name) =>
        r := FeedOrError(inputs, name);
      case Internal(a) =>
        if a in solved {
          r := Ok(solved[a][a.output]);
          return;
        }
        var ty := TyOf(ops[a.node]);
        var im := SolveOp(ops, state, inputs, backend, a.node);
        if !im.Ok? {
          r := Fail(im);
          return;
        }
        var outputs := backend.solve(im.value, state[a.node]);
        if outputs.None? {
          r := Err(OpHasNoHandler(ty));
          return;
        }
        var output := outputs.value[a.output];
        solved := solved[a := outputs.value];
        r := Ok(output);
    }

    /** `ImOp::solve`: solves the operands of node `n`, left to right. */
    method SolveOp(ops: seq<Op>, state: seq<seq<T>>, inputs: map<string, T>, backend: Backend<T>, n: nat)
      returns (r: Outcome<ImOp<T>>)
      requires WellFormed(ops) && n < |ops|
      requires !ImOpSolve(ops, state, inputs, backend, solved, n).0.Panic?
      modifies this
      ensures (r, solved) == ImOpSolve(ops, state, inputs, backend, old(solved), n)
      decreases n + 1, 1
    {
      assert OpBelow(ops[n], n);
      match ops[n]
      case Add(x, y) =>
        var p := SolveBoth(ops, state, inputs, backend, x, y, n);
        r := if p.Ok? then Ok(ImOp.Add(p.value.0, p.value.1)) else Fail(p);
      case Sub(x, y) =>
        var p := SolveBoth(ops, state, inputs, backend, x, y, n);
        r := if p.Ok? then Ok(ImOp.Sub(p.value.0, p.value.1)) else Fail(p);
      case Square(x) =>
        assert x in Operands(ops[n]);
        var rx := Solve(ops, state, inputs, backend, x);
        r := if rx.Ok? then Ok(ImOp.Square(rx.value)) else Fail(rx);
      case TrainConst(_, _) =>
        r := Ok(ImOp.TrainConst);
    }

    /** The `double` closure: solves `x`, then (if that succeeded) `y`. */
    method SolveBoth(ops: seq<Op>, state: seq<seq<T>>, inputs: map<string, T>, backend: Backend<T>,
                     x: Input, y: Input, n: nat) returns (r: Outcome<(T, T)>)
      requires WellFormed(ops) && InputBelow(x, n) && InputBelow(y, n)
      requires !SolvePair(ops, state, inputs, backend, solved, x, y, n).0.Panic?
      modifies this
      ensures (r, solved) == SolvePair(ops, state, inputs, backend, old(solved), x, y, n)
      decreases n + 1, 0
    {
      var rx := Solve(ops, state, inputs, backend, x);
      if !rx.Ok? {
        r := Fail(rx);
        return;
      }
      var ry := Solve(ops, state, inputs, backend, y);
      if !ry.Ok? {
        r := Fail(ry);
        return;
      }
      r := Ok((rx.value, ry.value));
    }

    /**
     * `Tape::backprop`: propagates `delta` from `input` back through the graph,
     * extending `deltas` in place; the tape is only read.
     */
    method Backprop(ops: seq<Op>, state: seq<seq<T>>, inputs: map<string, T>, backend: Backend<T>,
                    input: Input, delta: T, deltas: AccumulateTensors<T>) returns (r: Outcome<()>)
      requires WellFormed(ops)
      requires !TapeBackprop(deltas.add, ops, state, inputs, backend, solved, input, delta, deltas.table).Panic?
      modifies deltas
      ensures r == Status(TapeBackprop(deltas.add, ops, state, inputs, backend, solved, input, delta, old(deltas.table)))
      ensures r.Ok? ==>
        deltas.table == TapeBackprop(deltas.add, ops, state, inputs, backend, solved, input, delta, old(deltas.table)).value
      decreases Rank(input), 2
    {
      match input
      case Feed(_) =>
        r := Ok(());
      case Internal(a) =>
        r := BackpropOp(ops, state, inputs, backend, a, delta, deltas);
    }

    /** `ImOp::backprop` for the node of `a`. */
    method BackpropOp(ops: seq<Op>, state: seq<seq<T>>, inputs: map<string, T>, backend: Backend<T>,
                      a: Internal, delta: T, deltas: AccumulateTensors<T>) returns (r: Outcome<()>)
      requires WellFormed(ops) && a.node < |ops|
      requires !ImOpBackprop(deltas.add, ops, state, inputs, backend, solved, a, delta, deltas.table).Panic?
      modifies deltas
      ensures r == Status(ImOpBackprop(deltas.add, ops, state, inputs, backend, solved, a, delta, old(deltas.table)))
      ensures r.Ok? ==>
        deltas.table == ImOpBackprop(deltas.add, ops, state, inputs, backend, solved, a, delta, old(deltas.table)).value
      decreases a.node + 1, 1
    {
      var op := ops[a.node];
      assert OpBelow(op, a.node);
      match op
      case Add(x, y) =>
        r := BackpropBinary(ops, state, inputs, backend, a, delta, deltas, x, y, (p, q) => ImOp.Add(p, q), AsAdd);
      case Sub(x, y) =>
        r := BackpropBinary(ops, state, inputs, backend, a, delta, deltas, x, y, (p, q) => ImOp.Sub(p, q), AsSub);
      case Square(x) =>
        r := BackpropUnary(ops, state, inputs, backend, a, delta, deltas, x);
      case TrainConst(_, _) =>
        var g := Gradients(backend, state, a, delta, ImOp.TrainConst, TyOf(op));
        if !g.Ok? {
          r := Fail(g);
          return;
        }
        ExtendedSingle(deltas.add, deltas.table, a.node, g.value.1);
        deltas.Extend([(a.node, g.value.1)]);
        r := Ok(());
    }

    /** The `binary` closure: both operands from the tape, one propagation, two recursions. */
    method BackpropBinary(ops: seq<Op>, state: seq<seq<T>>, inputs: map<string, T>, backend: Backend<T>,
                          a: Internal, delta: T, deltas: AccumulateTensors<T>, x: Input, y: Input,
                          make: (T, T) -> ImOp<T>, undo: ImOp<T> -> SResult<(T, T), ImOp<T>>)
      returns (r: Outcome<()>)
      requires WellFormed(ops) && a.node < |ops| && InputBelow(x, a.node) && InputBelow(y, a.node)
      requires !BinaryBackprop(deltas.add, ops, state, inputs, backend, solved, a, delta, deltas.table, x, y, make, undo).Panic?
      modifies deltas
      ensures r == Status(BinaryBackprop(deltas.add, ops, state, inputs, backend, solved, a, delta, old(deltas.table), x, y, make, undo))
      ensures r.Ok? ==>
        deltas.table == BinaryBackprop(deltas.add, ops, state, inputs, backend, solved, a, delta, old(deltas.table), x, y, make, undo).value
      decreases a.node + 1, 0
    {
      var rx := TapeInput(solved, ops, inputs, x);
      if !rx.Ok? {
        r := Fail(rx);
        return;
      }
      var ry := TapeInput(solved, ops, inputs, y);
      if !ry.Ok? {
        r := Fail(ry);
        return;
      }
      var g := Gradients(backend, state, a, delta, make(rx.value, ry.value), TyOf(ops[a.node]));
      if !g.Ok? {
        r := Fail(g);
        return;
      }
      ExtendedSingle(deltas.add, deltas.table, a.node, g.value.1);
      deltas.Extend([(a.node, g.value.1)]);
      var parts := undo(g.value.0);
      var (dx, dy) := parts.value;
      r := Backprop(ops, state, inputs, backend, x, dx, deltas);
      if !r.Ok? {
        return;
      }
      r := Backprop(ops, state, inputs, backend, y, dy, deltas);
    }

    /** The `unary` closure: the operand from the tape, one propagation, one recursion. */
    method BackpropUnary(ops: seq<Op>, state: seq<seq<T>>, inputs: map<string, T>, backend: Backend<T>,
                         a: Internal, delta: T, deltas: AccumulateTensors<T>, x: Input) returns (r: Outcome<()>)
      requires WellFormed(ops) && a.node < |ops| && InputBelow(x, a.node)
      requires !UnaryBackprop(deltas.add, ops, state, inputs, backend, solved, a, delta, deltas.table, x).Panic?
      modifies deltas
      ensures r == Status(UnaryBackprop(deltas.add, ops, state, inputs, backend, solved, a, delta, old(deltas.table), x))
      ensures r.Ok? ==>
        deltas.table == UnaryBackprop(deltas.add, ops, state, inputs, backend, solved, a, delta, old(deltas.table), x).value
      decreases a.node + 1, 0
    {
      var rx := TapeInput(solved, ops, inputs, x);
      if !rx.Ok? {
        r := Fail(rx);
        return;
      }
      var g := Gradients(backend, state, a, delta, ImOp.Square(rx.value), TyOf(ops[a.node]));
      if !g.Ok? {
        r := Fail(g);
        return;
      }
      ExtendedSingle(deltas.add, deltas.table, a.node, g.value.1);
      deltas.Extend([(a.node, g.value.1)]);
      var dx := AsSquare(g.value.0).value;
      r := Backprop(ops, state, inputs, backend, x, dx, deltas);
    }
  }
}
