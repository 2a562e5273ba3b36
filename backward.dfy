/**
 * Properties of reverse-mode propagation (`Tape::backprop`). The walk through the
 * graph does not depend on the accumulator: it emits, in order, the state gradients
 * of each node it visits, and ends with a status. The accumulator then only sums what
 * was emitted, so `backprop` is that sum, unless an insert panics first.
 */
module Backward {
  import opened Wrappers
  import opened Deep
  import opened Accumulate
  import opened BackendTools
  import opened Forward

  /** What one propagation emits (node, state gradients), in order, and how it ends. */
  datatype Trace<T> = Trace(items: seq<Item<T>>, status: Outcome<()>)

  /** The walk of `Tape::backprop` from `input` with gradient `delta`. */
  function BackTrace<T>(ops: seq<Op>, state: seq<seq<T>>, inputs: map<string, T>, backend: Backend<T>,
                        solved: Solved<T>, input: Input, delta: T): Trace<T>
    requires WellFormed(ops)
    decreases Rank(input), 2
  {
    match input
    case Feed(_) => Trace([], Ok(()))
    case Internal(a) =>
      if |ops| <= a.node then Trace([], Panic)
      else OpTrace(ops, state, inputs, backend, solved, a, delta)
  }

  /** The walk of `ImOp::backprop` for the node of `a`. */
  function OpTrace<T>(ops: seq<Op>, state: seq<seq<T>>, inputs: map<string, T>, backend: Backend<T>,
                      solved: Solved<T>, a: Internal, delta: T): Trace<T>
    requires WellFormed(ops) && a.node < |ops|
    decreases a.node + 1, 1
  {
    var op := ops[a.node];
    assert OpBelow(op, a.node);
    match op
    case Add(x, y) =>
      BinaryTrace(ops, state, inputs, backend, solved, a, delta, x, y, (p, q) => ImOp.Add(p, q), AsAdd)
    case Sub(x, y) =>
      BinaryTrace(ops, state, inputs, backend, solved, a, delta, x, y, (p, q) => ImOp.Sub(p, q), AsSub)
    case Square(x) =>
      UnaryTrace(ops, state, inputs, backend, solved, a, delta, x)
    case TrainConst(_, _) =>
      var g := Gradients(backend, state, a, delta, ImOp.TrainConst, TyOf(op));
      if !g.Ok? then Trace([], Fail(g)) else Trace([(a.node, g.value.1)], Ok(()))
  }

  /** The walk of the `binary` closure: this node's item, then the left walk, then the right one. */
  function BinaryTrace<T>(ops: seq<Op>, state: seq<seq<T>>, inputs: map<string, T>, backend: Backend<T>,
                          solved: Solved<T>, a: Internal, delta: T, x: Input, y: Input,
                          make: (T, T) -> ImOp<T>, undo: ImOp<T> -> SResult<(T, T), ImOp<T>>): Trace<T>
    requires WellFormed(ops) && a.node < |ops| && InputBelow(x, a.node) && InputBelow(y, a.node)
    decreases a.node + 1, 0
  {
    var rx := TapeInput(solved, ops, inputs, x);
    if !rx.Ok? then Trace([], Fail(rx))
    else
      var ry := TapeInput(solved, ops, inputs, y);
      if !ry.Ok? then Trace([], Fail(ry))
      else
        var g := Gradients(backend, state, a, delta, make(rx.value, ry.value), TyOf(ops[a.node]));
        if !g.Ok? then Trace([], Fail(g))
        else
          var item := (a.node, g.value.1);
          match undo(g.value.0)
          case SErr(_) => Trace([item], Panic)
          case SOk((dx, dy)) =>
            var t1 := BackTrace(ops, state, inputs, backend, solved, x, dx);
            if !t1.status.Ok? then Trace([item] + t1.items, t1.status)
            else
              var t2 := BackTrace(ops, state, inputs, backend, solved, y, dy);
              Trace([item] + (t1.items + t2.items), t2.status)
  }

  /** The walk of the `unary` closure: this node's item, then the operand's walk. */
  function UnaryTrace<T>(ops: seq<Op>, state: seq<seq<T>>, inputs: map<string, T>, backend: Backend<T>,
                         solved: Solved<T>, a: Internal, delta: T, x: Input): Trace<T>
    requires WellFormed(ops) && a.node < |ops| && InputBelow(x, a.node)
    decreases a.node + 1, 0
  {
    var rx := TapeInput(solved, ops, inputs, x);
    if !rx.Ok? then Trace([], Fail(rx))
    else
      var g := Gradients(backend, state, a, delta, ImOp.Square(rx.value), TyOf(ops[a.node]));
      if !g.Ok? then Trace([], Fail(g))
      else
        var item := (a.node, g.value.1);
        match AsSquare(g.value.0)
        case SErr(_) => Trace([item], Panic)
        case SOk(dx) =>
          var t1 := BackTrace(ops, state, inputs, backend, solved, x, dx);
          Trace([item] + t1.items, t1.status)
  }

  /**
   * A walk played into an accumulator: a panic if some insert would panic,
   * otherwise all items summed in, or the walk's failure.
   */
  function Replay<T>(add: (T, T) -> T, deltas: map<nat, seq<T>>, t: Trace<T>): Outcome<map<nat, seq<T>>>
  {
    if !CanExtend(add, deltas, t.items) then Panic
    else if t.status.Ok? then Ok(Extended(add, deltas, t.items))
    else Fail(t.status)
  }

  /** Emitting one more item in front: its insert comes first. */
  lemma ReplayCons<T>(add: (T, T) -> T, deltas: map<nat, seq<T>>, item: Item<T>, rest: seq<Item<T>>)
    requires CanInsert(deltas, item.0, item.1)
    ensures CanExtend(add, deltas, [item] + rest) <==> CanExtend(add, Inserted(add, deltas, item.0, item.1), rest)
    ensures CanExtend(add, deltas, [item] + rest) ==>
      Extended(add, deltas, [item] + rest) == Extended(add, Inserted(add, deltas, item.0, item.1), rest)
  {
    ExtendedSingle(add, deltas, item.0, item.1);
    ExtendedAppend(add, deltas, [item], rest);
  }

  /**
   * `Tape::backprop` is the replay of its walk: the accumulator ends up extended by
   * exactly the emitted gradients, in order, whatever it held before.
   */
  lemma {:induction false} BackpropIsReplay<T>(add: (T, T) -> T, ops: seq<Op>, state: seq<seq<T>>,
                                               inputs: map<string, T>, backend: Backend<T>, solved: Solved<T>,
                                               input: Input, delta: T, deltas: map<nat, seq<T>>)
    requires WellFormed(ops)
    ensures TapeBackprop(add, ops, state, inputs, backend, solved, input, delta, deltas)
         == Replay(add, deltas, BackTrace(ops, state, inputs, backend, solved, input, delta))
    decreases Rank(input), 2
  {
    match input
    case Feed(_) =>
    case Internal(a) =>
      if a.node < |ops| {
        OpIsReplay(add, ops, state, inputs, backend, solved, a, delta, deltas);
      }
  }

  lemma {:induction false} OpIsReplay<T>(add: (T, T) -> T, ops: seq<Op>, state: seq<seq<T>>,
                                         inputs: map<string, T>, backend: Backend<T>, solved: Solved<T>,
                                         a: Internal, delta: T, deltas: map<nat, seq<T>>)
    requires WellFormed(ops) && a.node < |ops|
    ensures ImOpBackprop(add, ops, state, inputs, backend, solved, a, delta, deltas)
         == Replay(add, deltas, OpTrace(ops, state, inputs, backend, solved, a, delta))
    decreases a.node + 1, 1
  {
    var op := ops[a.node];
    assert OpBelow(op, a.node);
    match op
    case Add(x, y) =>
      assert x in Operands(op) && y in Operands(op);
      BinaryIsReplay(add, ops, state, inputs, backend, solved, a, delta, deltas, x, y, (p, q) => ImOp.Add(p, q), AsAdd);
    case Sub(x, y) =>
      assert x in Operands(op) && y in Operands(op);
      BinaryIsReplay(add, ops, state, inputs, backend, solved, a, delta, deltas, x, y, (p, q) => ImOp.Sub(p, q), AsSub);
    case Square(x) =>
      assert x in Operands(op);
      UnaryIsReplay(add, ops, state, inputs, backend, solved, a, delta, deltas, x);
    case TrainConst(_, _) =>
      var g := Gradients(backend, state, a, delta, ImOp.TrainConst, TyOf(op));
      if g.Ok? && CanInsert(deltas, a.node, g.value.1) {
        ExtendedSingle(add, deltas, a.node, g.value.1);
      }
  }

  lemma {:induction false} BinaryIsReplay<T>(add: (T, T) -> T, ops: seq<Op>, state: seq<seq<T>>,
                                             inputs: map<string, T>, backend: Backend<T>, solved: Solved<T>,
                                             a: Internal, delta: T, deltas: map<nat, seq<T>>, x: Input, y: Input,
                                             make: (T, T) -> ImOp<T>, undo: ImOp<T> -> SResult<(T, T), ImOp<T>>)
    requires WellFormed(ops) && a.node < |ops| && InputBelow(x, a.node) && InputBelow(y, a.node)
    ensures BinaryBackprop(add, ops, state, inputs, backend, solved, a, delta, deltas, x, y, make, undo)
         == Replay(add, deltas, BinaryTrace(ops, state, inputs, backend, solved, a, delta, x, y, make, undo))
    decreases a.node + 1, 0
  {
    var rx := TapeInput(solved, ops, inputs, x);
    var ry := TapeInput(solved, ops, inputs, y);
    if rx.Ok? && ry.Ok? {
      var g := Gradients(backend, state, a, delta, make(rx.value, ry.value), TyOf(ops[a.node]));
      if g.Ok? && CanInsert(deltas, a.node, g.value.1) {
        var item := (a.node, g.value.1);
        var deltas1 := Inserted(add, deltas, a.node, g.value.1);
        match undo(g.value.0)
        case SErr(_) =>
          ReplayCons(add, deltas, item, []);
          assert [item] + [] == [item];
        case SOk((dx, dy)) =>
          BackpropIsReplay(add, ops, state, inputs, backend, solved, x, dx, deltas1);
          var t1 := BackTrace(ops, state, inputs, backend, solved, x, dx);
          if !t1.status.Ok? {
            ReplayCons(add, deltas, item, t1.items);
          } else {
            var t2 := BackTrace(ops, state, inputs, backend, solved, y, dy);
            ReplayCons(add, deltas, item, t1.items + t2.items);
            ExtendedAppend(add, deltas1, t1.items, t2.items);
            if CanExtend(add, deltas1, t1.items) {
              BackpropIsReplay(add, ops, state, inputs, backend, solved, y, dy, Extended(add, deltas1, t1.items));
            }
          }
      }
    }
  }

  lemma {:induction false} UnaryIsReplay<T>(add: (T, T) -> T, ops: seq<Op>, state: seq<seq<T>>,
                                            inputs: map<string, T>, backend: Backend<T>, solved: Solved<T>,
                                            a: Internal, delta: T, deltas: map<nat, seq<T>>, x: Input)
    requires WellFormed(ops) && a.node < |ops| && InputBelow(x, a.node)
    ensures UnaryBackprop(add, ops, state, inputs, backend, solved, a, delta, deltas, x)
         == Replay(add, deltas, UnaryTrace(ops, state, inputs, backend, solved, a, delta, x))
    decreases a.node + 1, 0
  {
    var rx := TapeInput(solved, ops, inputs, x);
    if rx.Ok? {
      var g := Gradients(backend, state, a, delta, ImOp.Square(rx.value), TyOf(ops[a.node]));
      if g.Ok? && CanInsert(deltas, a.node, g.value.1) {
        var item := (a.node, g.value.1);
        var deltas1 := Inserted(add, deltas, a.node, g.value.1);
        match AsSquare(g.value.0)
        case SErr(_) =>
          ReplayCons(add, deltas, item, []);
          assert [item] + [] == [item];
        case SOk(dx) =>
          BackpropIsReplay(add, ops, state, inputs, backend, solved, x, dx, deltas1);
          ReplayCons(add, deltas, item, BackTrace(ops, state, inputs, backend, solved, x, dx).items);
      }
    }
  }

  /**
   * Gradients from a fresh accumulator: the call succeeds exactly when the walk
   * succeeds and every node receives vectors of one length; then a node has an entry
   * exactly when the walk reached it, and the entry is the slot-wise sum of all that
   * reached it (a node used twice gets both contributions).
   */
  lemma BackpropSums<T>(add: (T, T) -> T, ops: seq<Op>, state: seq<seq<T>>, inputs: map<string, T>,
                        backend: Backend<T>, solved: Solved<T>, input: Input, delta: T)
    requires WellFormed(ops)
    ensures var t := BackTrace(ops, state, inputs, backend, solved, input, delta);
      var r := TapeBackprop(add, ops, state, inputs, backend, solved, input, delta, map[]);
      (r.Ok? <==> t.status.Ok? && forall k :: Uniform(None, Contributions(t.items, k))) &&
      (r.Ok? ==> forall k :: (k in r.value <==> Contributions(t.items, k) != []) &&
                             (k in r.value ==> Some(r.value[k]) == Fold(add, None, Contributions(t.items, k))))
  {
    var t := BackTrace(ops, state, inputs, backend, solved, input, delta);
    BackpropIsReplay(add, ops, state, inputs, backend, solved, input, delta, map[]);
    ExtendedEntries(add, map[], t.items);
    assert forall k :: Get<T>(map[], k) == None;
    if forall k :: Uniform(None, Contributions(t.items, k)) {
      ExtendedFromEmpty(add, t.items);
    }
  }

  /**
   * The walk only visits nodes at or below the starting address, and a successful
   * walk from an address emits that address's node first.
   */
  lemma {:induction false} TraceNodes<T>(ops: seq<Op>, state: seq<seq<T>>, inputs: map<string, T>,
                                         backend: Backend<T>, solved: Solved<T>, input: Input, delta: T)
    requires WellFormed(ops)
    ensures var t := BackTrace(ops, state, inputs, backend, solved, input, delta);
      (forall i :: 0 <= i < |t.items| ==> t.items[i].0 < Rank(input)) &&
      (input.Internal? && t.status.Ok? ==> t.items != [] && t.items[0].0 == input.internal.node)
    decreases Rank(input), 2
  {
    match input
    case Feed(_) =>
    case Internal(a) =>
      if a.node < |ops| {
        OpTraceNodes(ops, state, inputs, backend, solved, a, delta);
      }
  }

  lemma {:induction false} OpTraceNodes<T>(ops: seq<Op>, state: seq<seq<T>>, inputs: map<string, T>,
                                           backend: Backend<T>, solved: Solved<T>, a: Internal, delta: T)
    requires WellFormed(ops) && a.node < |ops|
    ensures var t := OpTrace(ops, state, inputs, backend, solved, a, delta);
      (forall i :: 0 <= i < |t.items| ==> t.items[i].0 <= a.node) &&
      (t.status.Ok? ==> t.items != [] && t.items[0].0 == a.node)
    decreases a.node + 1, 1
  {
    var op := ops[a.node];
    assert OpBelow(op, a.node);
    match op
    case Add(x, y) =>
      assert x in Operands(op) && y in Operands(op);
      BinaryTraceNodes(ops, state, inputs, backend, solved, a, delta, x, y, (p, q) => ImOp.Add(p, q), AsAdd);
    case Sub(x, y) =>
      assert x in Operands(op) && y in Operands(op);
      BinaryTraceNodes(ops, state, inputs, backend, solved, a, delta, x, y, (p, q) => ImOp.Sub(p, q), AsSub);
    case Square(x) =>
      assert x in Operands(op);
      var rx := TapeInput(solved, ops, inputs, x);
      if rx.Ok? {
        var g := Gradients(backend, state, a, delta, ImOp.Square(rx.value), TyOf(op));
        if g.Ok? && AsSquare(g.value.0).SOk? {
          var dx := AsSquare(g.value.0).value;
          TraceNodes(ops, state, inputs, backend, solved, x, dx);
          var t1 := BackTrace(ops, state, inputs, backend, solved, x, dx);
          assert ([(a.node, g.value.1)] + t1.items)[0] == (a.node, g.value.1);
          assert forall i :: 1 <= i < 1 + |t1.items| ==> ([(a.node, g.value.1)] + t1.items)[i] == t1.items[i - 1];
        }
      }
    case TrainConst(_, _) =>
  }

  lemma {:induction false} BinaryTraceNodes<T>(ops: seq<Op>, state: seq<seq<T>>, inputs: map<string, T>,
                                               backend: Backend<T>, solved: Solved<T>, a: Internal, delta: T,
                                               x: Input, y: Input,
                                               make: (T, T) -> ImOp<T>, undo: ImOp<T> -> SResult<(T, T), ImOp<T>>)
    requires WellFormed(ops) && a.node < |ops| && InputBelow(x, a.node) && InputBelow(y, a.node)
    ensures var t := BinaryTrace(ops, state, inputs, backend, solved, a, delta, x, y, make, undo);
      (forall i :: 0 <= i < |t.items| ==> t.items[i].0 <= a.node) &&
      (t.status.Ok? ==> t.items != [] && t.items[0].0 == a.node)
    decreases a.node + 1, 0
  {
    var rx := TapeInput(solved, ops, inputs, x);
    var ry := TapeInput(solved, ops, inputs, y);
    if rx.Ok? && ry.Ok? {
      var g := Gradients(backend, state, a, delta, make(rx.value, ry.value), TyOf(ops[a.node]));
      if g.Ok? && undo(g.value.0).SOk? {
        var item: Item<T> := (a.node, g.value.1);
        var (dx, dy) := undo(g.value.0).value;
        TraceNodes(ops, state, inputs, backend, solved, x, dx);
        TraceNodes(ops, state, inputs, backend, solved, y, dy);
        var t1 := BackTrace(ops, state, inputs, backend, solved, x, dx);
        var t2 := BackTrace(ops, state, inputs, backend, solved, y, dy);
        var rest: seq<Item<T>> := if t1.status.Ok? then t1.items + t2.items else t1.items;
        assert forall i :: 0 <= i < |rest| ==> rest[i].0 <= a.node;
        assert ([item] + rest)[0] == item;
        assert forall i :: 1 <= i < 1 + |rest| ==> ([item] + rest)[i] == rest[i - 1];
      }
    }
  }

  /**
   * After a successful backprop from an address, its node has an entry, every old
   * entry's node still has one, and the new keys are exactly the visited nodes.
   */
  lemma BackpropKeys<T>(add: (T, T) -> T, ops: seq<Op>, state: seq<seq<T>>, inputs: map<string, T>,
                        backend: Backend<T>, solved: Solved<T>, input: Input, delta: T, deltas: map<nat, seq<T>>)
    requires WellFormed(ops)
    ensures var t := BackTrace(ops, state, inputs, backend, solved, input, delta);
      var r := TapeBackprop(add, ops, state, inputs, backend, solved, input, delta, deltas);
      r.Ok? ==>
        r.value.Keys == deltas.Keys + (set i | 0 <= i < |t.items| :: t.items[i].0) &&
        (input.Internal? ==> input.internal.node in r.value)
  {
    var t := BackTrace(ops, state, inputs, backend, solved, input, delta);
    BackpropIsReplay(add, ops, state, inputs, backend, solved, input, delta, deltas);
    TraceNodes(ops, state, inputs, backend, solved, input, delta);
    if CanExtend(add, deltas, t.items) {
      ExtendedKeys(add, deltas, t.items);
    }
  }

  /**
   * From an address on a closed tape, the walk never meets an address that the
   * forward pass did not record.
   */
  lemma {:induction false} TraceReadsTape<T>(ops: seq<Op>, state: seq<seq<T>>, inputs: map<string, T>,
                                             backend: Backend<T>, solved: Solved<T>, input: Input, delta: T)
    requires WellFormed(ops) && Closed(ops, solved) && (input.Internal? ==> input.internal in solved)
    ensures var t := BackTrace(ops, state, inputs, backend, solved, input, delta);
      !(t.status.Err? && t.status.error.InternalNotComputed?)
    decreases Rank(input), 2
  {
    match input
    case Feed(_) =>
    case Internal(a) =>
      var op := ops[a.node];
      assert OpBelow(op, a.node);
      assert BackTrace(ops, state, inputs, backend, solved, input, delta)
          == OpTrace(ops, state, inputs, backend, solved, a, delta);
      match op
      case Add(x, y) =>
        assert x in Operands(op) && y in Operands(op);
        BinaryReadsTape(ops, state, inputs, backend, solved, a, delta, x, y, (p, q) => ImOp.Add(p, q), AsAdd);
      case Sub(x, y) =>
        assert x in Operands(op) && y in Operands(op);
        BinaryReadsTape(ops, state, inputs, backend, solved, a, delta, x, y, (p, q) => ImOp.Sub(p, q), AsSub);
      case Square(x) =>
        assert x in Operands(op);
        assert x.Internal? ==> Recorded(solved, x.internal);
        assert OpTrace(ops, state, inputs, backend, solved, a, delta)
            == UnaryTrace(ops, state, inputs, backend, solved, a, delta, x);
        var rx := TapeInput(solved, ops, inputs, x);
        if rx.Ok? {
          var g := Gradients(backend, state, a, delta, ImOp.Square(rx.value), TyOf(op));
          if g.Ok? && AsSquare(g.value.0).SOk? {
            var dx := AsSquare(g.value.0).value;
            TraceReadsTape(ops, state, inputs, backend, solved, x, dx);
            assert OpTrace(ops, state, inputs, backend, solved, a, delta).status
                == BackTrace(ops, state, inputs, backend, solved, x, dx).status;
          }
        }
      case TrainConst(_, _) =>
  }

  lemma {:induction false} BinaryReadsTape<T>(ops: seq<Op>, state: seq<seq<T>>, inputs: map<string, T>,
                                              backend: Backend<T>, solved: Solved<T>, a: Internal, delta: T,
                                              x: Input, y: Input,
                                              make: (T, T) -> ImOp<T>, undo: ImOp<T> -> SResult<(T, T), ImOp<T>>)
    requires WellFormed(ops) && Closed(ops, solved) && a in solved
    requires a.node < |ops| && x in Operands(ops[a.node]) && y in Operands(ops[a.node])
    requires InputBelow(x, a.node) && InputBelow(y, a.node)
    ensures var t := BinaryTrace(ops, state, inputs, backend, solved, a, delta, x, y, make, undo);
      !(t.status.Err? && t.status.error.InternalNotComputed?)
    decreases a.node + 1, 0
  {
    var rx := TapeInput(solved, ops, inputs, x);
    var ry := TapeInput(solved, ops, inputs, y);
    if rx.Ok? && ry.Ok? {
      var g := Gradients(backend, state, a, delta, make(rx.value, ry.value), TyOf(ops[a.node]));
      if g.Ok? && undo(g.value.0).SOk? {
        var (dx, dy) := undo(g.value.0).value;
        TraceReadsTape(ops, state, inputs, backend, solved, x, dx);
        TraceReadsTape(ops, state, inputs, backend, solved, y, dy);
      }
    }
  }

  /**
   * Backpropagating from an input that the forward pass just solved successfully
   * (on a closed tape, such as a fresh one) never reports `InternalNotComputed`.
   */
  lemma BackpropAfterSolve<T>(add: (T, T) -> T, ops: seq<Op>, state: seq<seq<T>>, inputs: map<string, T>,
                              backend: Backend<T>, solved: Solved<T>, input: Input, delta: T,
                              deltas: map<nat, seq<T>>)
    requires WellFormed(ops) && Closed(ops, solved)
    requires TapeSolve(ops, state, inputs, backend, solved, input).0.Ok?
    ensures var r := TapeBackprop(add, ops, state, inputs, backend,
                                  TapeSolve(ops, state, inputs, backend, solved, input).1, input, delta, deltas);
      !(r.Err? && r.error.InternalNotComputed?)
  {
    var solved1 := TapeSolve(ops, state, inputs, backend, solved, input).1;
    SolveCloses(ops, state, inputs, backend, solved, input);
    TraceReadsTape(ops, state, inputs, backend, solved1, input, delta);
    BackpropIsReplay(add, ops, state, inputs, backend, solved1, input, delta, deltas);
  }

  /** Every accumulated entry belongs to a node with state and has its state's length. */
  ghost predicate Sized<T>(deltas: map<nat, seq<T>>, state: seq<seq<T>>)
  {
    forall k :: k in deltas ==> k < |state| && |deltas[k]| == |state[k]|
  }

  /** Every emitted item belongs to a node with state and has its state's length. */
  ghost predicate ItemsSized<T>(items: seq<Item<T>>, state: seq<seq<T>>)
  {
    forall i :: 0 <= i < |items| ==> items[i].0 < |state| && |items[i].1| == |state[items[i].0]|
  }

  /**
   * For every node of the graph, the backend's propagation answers an op of the
   * node's type on the node's state with operand gradients of the same variant, and
   * with one gradient per state tensor.
   */
  ghost predicate PropagateKeepsShape<T(!new)>(backend: Backend<T>, ops: seq<Op>, state: seq<seq<T>>)
  {
    forall n, im, slot, d | 0 <= n < |ops| && n < |state| && ImOpTy(im) == TyOf(ops[n]) ::
      backend.propagate(im, state[n], slot, d).Some? ==>
        ImOpTy(backend.propagate(im, state[n], slot, d).value.0) == ImOpTy(im) &&
        |backend.propagate(im, state[n], slot, d).value.1| == |state[n]|
  }

  /** A state-sized item in front of state-sized items. */
  lemma ItemsSizedCons<T>(item: Item<T>, rest: seq<Item<T>>, state: seq<seq<T>>)
    requires item.0 < |state| && |item.1| == |state[item.0]| && ItemsSized(rest, state)
    ensures ItemsSized([item] + rest, state)
  {
    assert forall i :: 1 <= i < 1 + |rest| ==> ([item] + rest)[i] == rest[i - 1];
  }

  /** Two runs of state-sized items. */
  lemma ItemsSizedAppend<T>(xs: seq<Item<T>>, ys: seq<Item<T>>, state: seq<seq<T>>)
    requires ItemsSized(xs, state) && ItemsSized(ys, state)
    ensures ItemsSized(xs + ys, state)
  {
    assert forall i :: |xs| <= i < |xs| + |ys| ==> (xs + ys)[i] == ys[i - |xs|];
  }

  /**
   * Under a shape-keeping propagation, the `gradients` closure answers an op of the
   * node's type with operand gradients of that type and one gradient per state tensor.
   */
  lemma GradientsKeepShape<T(!new)>(backend: Backend<T>, ops: seq<Op>, state: seq<seq<T>>, a: Internal,
                                    delta: T, imop: ImOp<T>, ty: OpTy)
    requires a.node < |ops| && a.node < |state| && PropagateKeepsShape(backend, ops, state)
    requires ImOpTy(imop) == TyOf(ops[a.node])
    ensures var g := Gradients(backend, state, a, delta, imop, ty);
      g.Ok? ==> ImOpTy(g.value.0) == ImOpTy(imop) && |g.value.1| == |state[a.node]|
  {
  }

  /** Items sized like the state extend a table sized like the state without panicking. */
  lemma {:induction false} SizedExtend<T>(add: (T, T) -> T, deltas: map<nat, seq<T>>, items: seq<Item<T>>,
                                          state: seq<seq<T>>)
    requires Sized(deltas, state) && ItemsSized(items, state)
    ensures CanExtend(add, deltas, items) && Sized(Extended(add, deltas, items), state)
    decreases |items|
  {
    if items != [] {
      var (slot, tensors) := items[0];
      InsertedOtherKeys(add, deltas, slot, tensors);
      InsertedEntry(add, deltas, slot, tensors);
      assert ItemsSized(items[1..], state) by {
        forall i | 0 <= i < |items[1..]|
          ensures items[1..][i].0 < |state| && |items[1..][i].1| == |state[items[1..][i].0]|
        {
          assert items[1..][i] == items[i + 1];
        }
      }
      SizedExtend(add, Inserted(add, deltas, slot, tensors), items[1..], state);
    }
  }

  /**
   * From a recorded address, with state for every node and a shape-keeping
   * propagation, the walk does not panic and emits items sized like the state.
   */
  lemma {:induction false} TraceNoPanic<T(!new)>(ops: seq<Op>, state: seq<seq<T>>, inputs: map<string, T>,
                                                 backend: Backend<T>, solved: Solved<T>, input: Input, delta: T)
    requires WellFormed(ops) && Closed(ops, solved) && (input.Internal? ==> input.internal in solved)
    requires |ops| <= |state| && PropagateKeepsShape(backend, ops, state)
    ensures var t := BackTrace(ops, state, inputs, backend, solved, input, delta);
      !t.status.Panic? && ItemsSized(t.items, state)
    decreases Rank(input), 2
  {
    match input
    case Feed(_) =>
    case Internal(a) =>
      var op := ops[a.node];
      assert OpBelow(op, a.node);
      assert BackTrace(ops, state, inputs, backend, solved, input, delta)
          == OpTrace(ops, state, inputs, backend, solved, a, delta);
      match op
      case Add(x, y) =>
        assert x in Operands(op) && y in Operands(op);
        BinaryNoPanic(ops, state, inputs, backend, solved, a, delta, x, y, (p, q) => ImOp.Add(p, q), AsAdd, OpTy.Add);
      case Sub(x, y) =>
        assert x in Operands(op) && y in Operands(op);
        BinaryNoPanic(ops, state, inputs, backend, solved, a, delta, x, y, (p, q) => ImOp.Sub(p, q), AsSub, OpTy.Sub);
      case Square(x) =>
        assert x in Operands(op);
        assert x.Internal? ==> Recorded(solved, x.internal);
        assert OpTrace(ops, state, inputs, backend, solved, a, delta)
            == UnaryTrace(ops, state, inputs, backend, solved, a, delta, x);
        var rx := TapeInput(solved, ops, inputs, x);
        if rx.Ok? {
          var g := Gradients(backend, state, a, delta, ImOp.Square(rx.value), TyOf(op));
          GradientsKeepShape(backend, ops, state, a, delta, ImOp.Square(rx.value), TyOf(op));
          if g.Ok? {
            var dx := AsSquare(g.value.0).value;
            TraceNoPanic(ops, state, inputs, backend, solved, x, dx);
            var t1 := BackTrace(ops, state, inputs, backend, solved, x, dx);
            var item: Item<T> := (a.node, g.value.1);
            ItemsSizedCons(item, t1.items, state);
          }
        }
      case TrainConst(_, _) =>
  }

  lemma {:induction false} BinaryNoPanic<T(!new)>(ops: seq<Op>, state: seq<seq<T>>, inputs: map<string, T>,
                                                  backend: Backend<T>, solved: Solved<T>, a: Internal, delta: T,
                                                  x: Input, y: Input, make: (T, T) -> ImOp<T>,
                                                  undo: ImOp<T> -> SResult<(T, T), ImOp<T>>, ty: OpTy)
    requires WellFormed(ops) && Closed(ops, solved) && a in solved
    requires a.node < |ops| && x in Operands(ops[a.node]) && y in Operands(ops[a.node])
    requires InputBelow(x, a.node) && InputBelow(y, a.node)
    requires |ops| <= |state| && PropagateKeepsShape(backend, ops, state)
    requires TyOf(ops[a.node]) == ty && forall p, q :: ImOpTy(make(p, q)) == ty
    requires forall im :: undo(im).SOk? <==> ImOpTy(im) == ty
    ensures var t := BinaryTrace(ops, state, inputs, backend, solved, a, delta, x, y, make, undo);
      !t.status.Panic? && ItemsSized(t.items, state)
    decreases a.node + 1, 0
  {
    assert x.Internal? ==> Recorded(solved, x.internal);
    assert y.Internal? ==> Recorded(solved, y.internal);
    var rx := TapeInput(solved, ops, inputs, x);
    var ry := TapeInput(solved, ops, inputs, y);
    if rx.Ok? && ry.Ok? {
      var g := Gradients(backend, state, a, delta, make(rx.value, ry.value), TyOf(ops[a.node]));
      GradientsKeepShape(backend, ops, state, a, delta, make(rx.value, ry.value), TyOf(ops[a.node]));
      if g.Ok? {
        assert undo(g.value.0).SOk?;
        var item: Item<T> := (a.node, g.value.1);
        var (dx, dy) := undo(g.value.0).value;
        TraceNoPanic(ops, state, inputs, backend, solved, x, dx);
        TraceNoPanic(ops, state, inputs, backend, solved, y, dy);
        var t1 := BackTrace(ops, state, inputs, backend, solved, x, dx);
        var t2 := BackTrace(ops, state, inputs, backend, solved, y, dy);
        ItemsSizedAppend(t1.items, t2.items, state);
        var rest: seq<Item<T>> := if t1.status.Ok? then t1.items + t2.items else t1.items;
        ItemsSizedCons(item, rest, state);
      }
    }
  }

  /**
   * Sufficient conditions for `Tape::backprop` not to panic: it starts from an
   * address the forward pass recorded on a closed tape, every node has state, the
   * backend's propagation keeps shapes, and the accumulator is sized like the state
   * (as a fresh one is). The accumulator stays sized like the state.
   */
  lemma BackpropNoPanic<T(!new)>(add: (T, T) -> T, ops: seq<Op>, state: seq<seq<T>>, inputs: map<string, T>,
                                 backend: Backend<T>, solved: Solved<T>, input: Input, delta: T,
                                 deltas: map<nat, seq<T>>)
    requires WellFormed(ops) && Closed(ops, solved) && (input.Internal? ==> input.internal in solved)
    requires |ops| <= |state| && PropagateKeepsShape(backend, ops, state) && Sized(deltas, state)
    ensures !TapeBackprop(add, ops, state, inputs, backend, solved, input, delta, deltas).Panic?
    ensures TapeBackprop(add, ops, state, inputs, backend, solved, input, delta, deltas).Ok? ==>
      Sized(TapeBackprop(add, ops, state, inputs, backend, solved, input, delta, deltas).value, state)
  {
    var t := BackTrace(ops, state, inputs, backend, solved, input, delta);
    BackpropIsReplay(add, ops, state, inputs, backend, solved, input, delta, deltas);
    TraceNoPanic(ops, state, inputs, backend, solved, input, delta);
    SizedExtend(add, deltas, t.items, state);
  }
}
