/**
 * An integer instance of the native backend, with the kernels of the library's own
 * test handlers (`Add`, `Sub`, `Square`, `TrainConst`), and proved worked examples
 * through the builder, the tape and the accumulator.
 */
module Scenarios {
  import opened Wrappers
  import opened Deep
  import opened Accumulate
  import opened BackendTools
  import opened TensorBuilder
  import opened NativeBackend
  import opened Forward
  import opened Backward

  /** The test `Add` handler: no state, one output `a + b`. */
  function AddHandler(): Handler<int>
  {
    Handler(op => [], (imop: ImOp<int>, st: seq<int>) => if imop.Add? then [imop.left + imop.right] else [])
  }

  /** The test `Sub` handler: no state, one output `a - b`. */
  function SubHandler(): Handler<int>
  {
    Handler(op => [], (imop: ImOp<int>, st: seq<int>) => if imop.Sub? then [imop.left - imop.right] else [])
  }

  /** The test `Square` handler: no state, one output `a * a`. */
  function SquareHandler(): Handler<int>
  {
    Handler(op => [], (imop: ImOp<int>, st: seq<int>) => if imop.Square? then [imop.arg * imop.arg] else [])
  }

  /** The test `TrainConst` handler: its state is its value, which it outputs. */
  function TrainConstHandler(): Handler<int>
  {
    Handler((op: Op) => if op.TrainConst? then [op.value] else [],
            (imop: ImOp<int>, st: seq<int>) => if imop.TrainConst? && 0 < |st| then [st[0]] else [])
  }

  /** The test handlers' backward rules, for the registered tags only. */
  function Propagate(tags: set<OpTy>): (ImOp<int>, seq<int>, nat, int) -> Option<(ImOp<int>, seq<int>)>
  {
    (imop: ImOp<int>, st: seq<int>, slot: nat, d: int) =>
      if ImOpTy(imop) !in tags then None
      else match imop
        case Add(_, _) => Some((ImOp.Add(d, d), []))
        case Sub(_, _) => Some((ImOp.Sub(d, -d), []))
        case Square(a) => Some((ImOp.Square(2 * a * d), []))
        case TrainConst => Some((ImOp.TrainConst, [d]))
  }

  function AddOnly(): Native<int>
  {
    Native(map[OpTy.Add := AddHandler()])
  }

  function AllHandlers(): Native<int>
  {
    Native(map[OpTy.Add := AddHandler(), OpTy.Sub := SubHandler(), OpTy.Square := SquareHandler(),
               OpTy.TrainConst := TrainConstHandler()])
  }

  function Feeds(): map<string, int>
  {
    map["a" := 2, "b" := 3]
  }

  /**
   * `forward_add`: `Tensor::from("a") + Tensor::from("b")` is one `Add` of the two
   * feeds; its state is one empty vector, and with `a = 2`, `b = 3` it solves to 5.
   * The test itself ends in `Tensor::eval`, which reaches the unimplemented
   * `Native::forward`; here the tape's `solve` drives the native kernels instead.
   */
  lemma ForwardAdd()
    ensures Plus(FromName("a"), FromName("b")) == Tensor([Op.Add(Input.Feed("a"), Input.Feed("b"))], Addr(0, 0))
    ensures State(AddOnly(), [Op.Add(Input.Feed("a"), Input.Feed("b"))]) == Ok([[]])
    ensures TapeSolve([Op.Add(Input.Feed("a"), Input.Feed("b"))], [[]], Feeds(),
                      AsBackend(AddOnly(), Propagate({OpTy.Add})), map[], Addr(0, 0)).0 == Ok(5)
  {
    var c := Plus(FromName("a"), FromName("b"));
    assert Merged([], []) == [];
    var ops := [Op.Add(Input.Feed("a"), Input.Feed("b"))];
    assert WellFormed(ops) by {
      assert OpBelow(ops[0], 0);
    }
    assert ops[1..] == [];
    assert TyOf(ops[0]) == OpTy.Add;
    assert AddOnly().handlers[OpTy.Add].generateState(ops[0]) == [];
    var none: seq<int> := [];
    assert State(AddOnly(), ops) == Ok([none] + []);
    assert [none] + [] == [none];
  }

  /** A trained constant `theta` (value 7) used twice: `theta + theta`. */
  function Doubled(): seq<Op>
  {
    [Op.TrainConst([], 7), Op.Add(Addr(0, 0), Addr(0, 0))]
  }

  function Theta(): Internal
  {
    Internal.Internal(0, 0)
  }

  function Sum(): Internal
  {
    Internal.Internal(1, 0)
  }

  /**
   * Forward: the state of `theta + theta` holds `theta`'s value, the sum solves to
   * 14, and the tape records both addresses.
   */
  lemma ForwardDoubled()
    ensures WellFormed(Doubled())
    ensures State(AllHandlers(), Doubled()) == Ok([[7], []])
    ensures TapeSolve(Doubled(), [[7], []], map[], AsBackend(AllHandlers(), Propagate({OpTy.Add, OpTy.TrainConst})),
                      map[], Input.Internal(Sum()))
         == (Ok(14), map[Theta() := [7], Sum() := [14]])
  {
    var ops := Doubled();
    assert OpBelow(ops[0], 0) && OpBelow(ops[1], 1);
    var none: seq<int> := [];
    assert ops[1..][1..] == [];
    assert State(AllHandlers(), ops[1..][1..]) == Ok([]);
    assert State(AllHandlers(), ops[1..]) == Ok([none] + []);
    assert [none] + [] == [none];
    assert State(AllHandlers(), ops) == Ok([[7]] + [none]);
    assert [[7]] + [none] == [[7], none];
  }

  /**
   * Backward: propagating 1 from the sum on the solved tape reaches `theta` along
   * both operands, and the accumulator sums the two contributions to 2.
   */
  lemma BackwardDoubled()
    ensures TapeBackprop((x: int, y: int) => x + y, Doubled(), [[7], []], map[],
                         AsBackend(AllHandlers(), Propagate({OpTy.Add, OpTy.TrainConst})),
                         map[Theta() := [7], Sum() := [14]], Input.Internal(Sum()), 1, map[])
         == Ok(map[1 := [], 0 := [2]])
  {
    var ops := Doubled();
    assert OpBelow(ops[0], 0) && OpBelow(ops[1], 1);
    var add := (x: int, y: int) => x + y;
    var state: seq<seq<int>> := [[7], []];
    var backend := AsBackend(AllHandlers(), Propagate({OpTy.Add, OpTy.TrainConst}));
    var tape: Solved<int> := map[Theta() := [7], Sum() := [14]];
    var theta := Input.Internal(Theta());
    assert TapeInput(tape, ops, map[], theta) == Ok(7);
    assert backend.propagate(ImOp.Add(7, 7), [], 0, 1) == Some((ImOp.Add(1, 1), []));
    assert Gradients(backend, state, Sum(), 1, ImOp.Add(7, 7), OpTy.Add) == Ok((ImOp.Add(1, 1), []));
    var d1: map<nat, seq<int>> := map[1 := []];
    assert Inserted(add, map[], 1, []) == d1;
    assert backend.propagate(ImOp.TrainConst, [7], 0, 1) == Some((ImOp.TrainConst, [1]));
    assert Gradients(backend, state, Theta(), 1, ImOp.TrainConst, OpTy.TrainConst) == Ok((ImOp.TrainConst, [1]));
    var d2: map<nat, seq<int>> := map[1 := [], 0 := [1]];
    assert Inserted(add, d1, 0, [1]) == d2;
    assert TapeBackprop(add, ops, state, map[], backend, tape, theta, 1, d1) == Ok(d2);
    var d3: map<nat, seq<int>> := map[1 := [], 0 := [2]];
    assert SlotSum(add, [1], [1]) == [2];
    assert Inserted(add, d2, 0, [1]) == d3;
    assert TapeBackprop(add, ops, state, map[], backend, tape, theta, 1, d2) == Ok(d3);
  }

  /**
   * Without a `TrainConst` handler, `state` names the first op's type, and solving
   * the sum reports the missing handler and records nothing.
   */
  lemma MissingHandler()
    ensures State(AddOnly(), Doubled()) == Err(OpHasNoHandler(OpTy.TrainConst))
    ensures TapeSolve(Doubled(), [[7], []], map[], AsBackend(AddOnly(), Propagate({OpTy.Add})),
                      map[], Input.Internal(Sum()))
         == (Err(OpHasNoHandler(OpTy.TrainConst)), map[])
  {
    var ops := Doubled();
    assert OpBelow(ops[0], 0) && OpBelow(ops[1], 1);
  }

  /** A feed missing from the inputs is reported by name, before the backend runs. */
  lemma MissingFeed()
    ensures TapeSolve([Op.Add(Input.Feed("a"), Input.Feed("c"))], [[]], Feeds(),
                      AsBackend(AddOnly(), Propagate({OpTy.Add})), map[], Addr(0, 0))
         == (Err(InputNotProvided("c")), map[])
  {
    var ops := [Op.Add(Input.Feed("a"), Input.Feed("c"))];
    assert OpBelow(ops[0], 0);
    assert "c" !in Feeds();
  }

  /** The backend of the worked examples: every test handler and its backward rule. */
  function Full(): Backend<int>
  {
    AsBackend(AllHandlers(), Propagate({OpTy.Add, OpTy.Sub, OpTy.Square, OpTy.TrainConst}))
  }

  /** The test kernels meet the forward no-panic conditions on `theta + theta`. */
  lemma DoubledProduces()
    ensures WellFormed(Doubled()) && OutputsWithin(Doubled(), 1)
    ensures ProducesAtLeast(Full(), Doubled(), [[7], []], 1)
  {
    var ops := Doubled();
    assert OpBelow(ops[0], 0) && OpBelow(ops[1], 1);
  }

  /**
   * Solving any address of `theta + theta` that reads slot 0, from any tape whose
   * vectors cover their slots and with any feeds, does not panic.
   */
  lemma DoubledSolveNoPanic(inputs: map<string, int>, solved: Solved<int>, a: Internal)
    requires Covered(solved) && a.node < 2 && a.output == 0
    ensures !TapeSolve(Doubled(), [[7], []], inputs, Full(), solved, Input.Internal(a)).0.Panic?
  {
    DoubledProduces();
    SolveNoPanic(Doubled(), [[7], []], inputs, Full(), solved, Input.Internal(a), 1);
  }

  /** The test backward rules keep shapes on the states of `theta + theta`. */
  lemma DoubledKeepsShape()
    ensures PropagateKeepsShape(Full(), Doubled(), [[7], []])
  {
  }

  /**
   * Backprop from the sum on the solved tape, with any delta and any accumulator
   * sized like the state, does not panic and keeps the accumulator sized like it.
   */
  lemma DoubledBackpropNoPanic(delta: int, deltas: map<nat, seq<int>>)
    requires Sized(deltas, [[7], []])
    ensures var r := TapeBackprop((x: int, y: int) => x + y, Doubled(), [[7], []], map[], Full(),
                                  map[Theta() := [7], Sum() := [14]], Input.Internal(Sum()), delta, deltas);
      !r.Panic? && (r.Ok? ==> Sized(r.value, [[7], []]))
  {
    var ops := Doubled();
    var tape: Solved<int> := map[Theta() := [7], Sum() := [14]];
    assert OpBelow(ops[0], 0) && OpBelow(ops[1], 1);
    assert Closed(ops, tape) by {
      assert Recorded(tape, Theta());
    }
    DoubledKeepsShape();
    BackpropNoPanic((x: int, y: int) => x + y, ops, [[7], []], map[], Full(), tape, Input.Internal(Sum()),
                    delta, deltas);
  }
}
