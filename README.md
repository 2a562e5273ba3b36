# deep: graph, tape and gradient accumulation in Dafny

This project models the engine of `deep`, a reverse-mode automatic-differentiation
library written in Rust, and proves properties of the model. It covers five parts:

- the graph (`Internal`, `Input`, `Op`, `Graph`) and the address shifting done by
  `Graph::merge` and `Graph::merge_input` (`deep.dfy`, module `Deep`);
- the expression builder `Tensor` (`Tensor::from`, `merge2_1`, `+`, `-`)
  (`tensor.dfy`, module `TensorBuilder`);
- the tape of `deep-backend-tools`: `Tape::input`, the memoised `Tape::solve`, the
  recursive `Tape::backprop`, `ImOp::{solve, backprop, add, sub, square}` and the
  `ImOp -> OpTy` tag map (`backend_tools.dfy`, module `BackendTools`);
- the gradient accumulator `AccumulateTensors` (`accumulate.dfy`, module `Accumulate`);
- the dispatch of the native backend: `Backend::state` and `Immediate::solve` for
  `Native` (`native.dfy`, module `NativeBackend`).

The proofs about the engine sit in their own modules:

- `forward.dfy` (module `Forward`) defines an evaluator without a cache. It proves that the
  memoised solve agrees with that evaluator, and what a cache hit and a cache miss do to the
  tape. It gives sufficient conditions under which solving cannot panic. It also shows that
  merging and appending keep the meaning of existing inputs.
- `backward.dfy` (module `Backward`) shows that backprop is a walk that does not depend on the
  accumulator. The walk emits `(node, state gradients)` items, and the accumulator then sums
  them in. From this it proves:
  - the sum-of-contributions result from a fresh accumulator;
  - the key set of the accumulator afterwards;
  - that backprop never meets an uncomputed address after a successful solve;
  - sufficient conditions for backprop not to panic.
- `scenarios.dfy` (module `Scenarios`) is an integer instance of the native backend. It uses
  the kernels of the library's test handlers and proves worked examples: `a + b` with
  `a = 2`, `b = 3` gives 5; a trained constant used twice gets a summed gradient; the two
  error cases; and the forward and backward no-panic lemmas applied to these kernels.

Modelling choices:

- **Tensors.** Tensors are a type parameter `T`. `AddAssign` is a function `add: (T, T) -> T`.
  The backend kernels `solve` and `propogate` are the two fields of a `Backend<T>` value.
- **Panics.** A Rust panic is the `Panic` arm of the `Outcome` returned by the specification
  functions. The imperative methods of `Tape` and `AccumulateTensors` require that no panic
  occurs.
- **Well-formed graphs.** Every operand of op `i` must address a node below `i`. The recursive
  definitions need this to terminate. The code never checks it.
- **`Op` variants.** `Op` has four variants. `TrainConst(shape, value)` is one of them because
  the engine matches on it and the tests build it. Shifting a `TrainConst` leaves it unchanged.
- **What is a class and what is a value.** `Graph`, `Tape` and `AccumulateTensors` are classes
  whose methods update their fields in place. The builder handle `Tensor` is a value that
  owns its ops.

Two behaviours of the code worth noting:

- **Cache key.** The tape's cache key is the whole address `(node, output)`
  (deep-backend-tools/src/lib.rs:60 and :126), not the node alone. A node with two consumed
  output slots is therefore solved once per slot.
- **Missing node.** Solving an address whose node is missing from the graph panics, because it
  indexes `graph.ops` directly (deep-backend-tools/src/lib.rs:128). It does not report
  `InternalNotComputed`.

## Model

| member | source | states |
|---|---|---|
| Deep.TyOf | deep/src/lib.rs:24-26 | each `Op` variant maps to its same-named `OpTy` tag, and only it does |
| Deep.ShiftInternal | deep/src/lib.rs:18-22 | shifting adds the shift to `node` and leaves `output` unchanged |
| Deep.ShiftInput | deep/src/lib.rs:58-64 | a `Feed` is unchanged; an `Internal` input has its address shifted |
| Deep.ShiftOp | deep/src/lib.rs:32-48 | the shifted op keeps its type and operand count, each operand is shifted, a `TrainConst` is unchanged |
| Deep.ShiftOps | deep/src/lib.rs:86-88 | every op of the list is shifted, length kept |
| Deep.InputFrom | deep/src/lib.rs:66-70 | `Input::from(s)` is `Feed(s)` |
| Deep.Merged | deep/src/lib.rs:83-89 | merged length is the sum; the receiver's ops are its prefix; op `old_len + i` is op `i` of the other graph shifted by `old_len` |
| Deep.Graph.constructor | deep/src/lib.rs:78-81 | a new graph is empty |
| Deep.Graph.Merge | deep/src/lib.rs:83-89 | the in-place append-and-shift loop leaves exactly `Merged(old ops, other)` |
| Deep.Graph.MergeInput | deep/src/lib.rs:91-96 | the same graph as `merge`, and the input shifted by the receiver's pre-merge length |
| Deep.ShiftOpZero | deep/src/lib.rs:32-48 | shifting by zero is the identity |
| Deep.ShiftOpCompose | deep/src/lib.rs:32-48 | two shifts compose into one by the sum |
| Deep.ShiftOpBelow | deep/src/lib.rs:32-48 | an op whose operands are below `n` has shifted operands below `n + shift` |
| Deep.MergedWellFormed | deep/src/lib.rs:83-89 | merging two well-formed graphs gives a well-formed graph |
| Deep.MergedAssociative | deep/src/lib.rs:83-89 | merging is associative: `(a merge b) merge c == a merge (b merge c)` |
| TensorBuilder.FromName | deep/src/tensor.rs:37-44 | `Tensor::from(name)` is an empty graph with `Feed(name)`, a usable handle |
| TensorBuilder.Merge2_1 | deep/src/tensor.rs:46-58 | the in-place merge, push and length read give the combined handle |
| TensorBuilder.Add | deep/src/tensor.rs:60-66 | `+` is `merge2_1` with `Op::Add` |
| TensorBuilder.Sub | deep/src/tensor.rs:68-74 | `-` is `merge2_1` with `Op::Sub` |
| TensorBuilder.CombinedLayout | deep/src/tensor.rs:46-58 | result graph is a's ops, then b's ops shifted by `|a|`, then one op reading a's input and b's shifted input; the handle is output 0 of that op |
| TensorBuilder.CombinedHandle | deep/src/tensor.rs:46-58 | combining two usable handles with a binary op gives a usable handle |
| TensorBuilder.PlusMinusHandle | deep/src/tensor.rs:60-74 | `+` and `-` keep handles usable |
| TensorBuilder.CombinedOperands | deep/src/tensor.rs:47-52 | in the combined graph both operand inputs evaluate as they did in their own graphs |
| TensorBuilder.EvalPlus | deep/src/tensor.rs:60-66 | evaluating `a + b` evaluates `a`, then `b`, and runs the backend's `Add` kernel on the results |
| TensorBuilder.EvalMinus | deep/src/tensor.rs:68-74 | evaluating `a - b` evaluates `a`, then `b`, and runs the backend's `Sub` kernel on the results |
| TensorBuilder.EvalFromName | deep/src/tensor.rs:37-44 | a named handle evaluates to the feed, or `InputNotProvided` |
| BackendTools.ImOpTy | deep-backend-tools/src/lib.rs:368-380 | each `ImOp` variant maps to its same-named tag, and only it does |
| BackendTools.AsAdd | deep-backend-tools/src/lib.rs:200-206 | the payload exactly on `Add`, the unchanged `ImOp` otherwise |
| BackendTools.AsSub | deep-backend-tools/src/lib.rs:208-214 | the payload exactly on `Sub`, the unchanged `ImOp` otherwise |
| BackendTools.AsSquare | deep-backend-tools/src/lib.rs:216-222 | the payload exactly on `Square`, the unchanged `ImOp` otherwise |
| BackendTools.FeedLookup | deep-backend-tools/src/lib.rs:29-37 | the feed is found exactly when the name is in the inputs, with its tensor |
| BackendTools.FeedOrError | deep-backend-tools/src/lib.rs:94-97 | a feed yields its tensor, or `InputNotProvided` naming it |
| BackendTools.TapeInput | deep-backend-tools/src/lib.rs:84-108 | a recorded slot is returned; a missing address or slot is `InternalNotComputed` with the node and its op type when it exists; never panics |
| BackendTools.Gradients | deep-backend-tools/src/lib.rs:277-288 | panics exactly when the node has no state; otherwise succeeds exactly when the backend's propagation answers, with that answer, and fails with `OpHasNoHandler` of the op type when it does not |
| BackendTools.Tape.constructor | deep-backend-tools/src/lib.rs:63-82 | a new tape is empty |
| BackendTools.Tape.Solve | deep-backend-tools/src/lib.rs:110-143 | the in-place solve returns and leaves what `TapeSolve` prescribes |
| BackendTools.Tape.SolveOp | deep-backend-tools/src/lib.rs:230-251 | the in-place operand solve matches `ImOpSolve` |
| BackendTools.Tape.SolveBoth | deep-backend-tools/src/lib.rs:241-244 | the `double` closure matches `SolvePair`: left operand first |
| BackendTools.Tape.Backprop | deep-backend-tools/src/lib.rs:151-185 | the in-place backprop returns the status of `TapeBackprop` and, on success, leaves its table |
| BackendTools.Tape.BackpropOp | deep-backend-tools/src/lib.rs:254-365 | `ImOp::backprop` per op type matches `ImOpBackprop` |
| BackendTools.Tape.BackpropBinary | deep-backend-tools/src/lib.rs:303-325 | the `binary` closure matches `BinaryBackprop` |
| BackendTools.Tape.BackpropUnary | deep-backend-tools/src/lib.rs:331-349 | the `unary` closure matches `UnaryBackprop` |
| Accumulate.SlotSum | deep-backend-tools/src/accumulate_tensors.rs:28-30 | slot `i` of the sum is `add(old[i], new[i])`, length kept |
| Accumulate.AccumulateTensors.constructor | deep-backend-tools/src/accumulate_tensors.rs:53-58 | a new accumulator has an empty table |
| Accumulate.AccumulateTensors.Insert | deep-backend-tools/src/accumulate_tensors.rs:18-36 | the in-place insert loop leaves `Inserted(old table, slot, tensors)` |
| Accumulate.AccumulateTensors.Extend | deep-backend-tools/src/accumulate_tensors.rs:43-50 | the insert loop leaves `Extended(old table, items)` |
| Accumulate.InsertedOtherKeys | deep-backend-tools/src/accumulate_tensors.rs:18-36 | insert adds its key and leaves every other entry untouched |
| Accumulate.InsertedEntry | deep-backend-tools/src/accumulate_tensors.rs:28-34 | an absent key receives the vector verbatim; a present key keeps its length and gets slot-wise sums |
| Accumulate.ExtendedSingle | deep-backend-tools/src/accumulate_tensors.rs:47-49 | extending by one item is one insert |
| Accumulate.GetInserted | deep-backend-tools/src/accumulate_tensors.rs:18-36 | an insert folds one contribution into its key's running sum and changes no other key |
| Accumulate.FoldCons | deep-backend-tools/src/accumulate_tensors.rs:28-30 | the running sum of a list is the running sum after its first element, continued |
| Accumulate.ExtendedEntries | deep-backend-tools/src/accumulate_tensors.rs:43-50 | extend panics exactly when some key receives a vector of another length; otherwise each entry is the running slot-wise sum of its old value and all its contributions |
| Accumulate.ExtendedFromEmpty | deep-backend-tools/src/accumulate_tensors.rs:43-50 | from empty, the keys are exactly the items' keys and each entry is the sum of all vectors supplied for it |
| Accumulate.FoldNone | deep-backend-tools/src/accumulate_tensors.rs:32-34 | a sum from nothing is nothing exactly when there are no contributions |
| Accumulate.FoldSome | deep-backend-tools/src/accumulate_tensors.rs:28-30 | a sum onto an entry keeps the entry's length |
| Accumulate.ExtendedKeys | deep-backend-tools/src/accumulate_tensors.rs:43-50 | after extend the key set is the old keys plus the items' keys |
| Accumulate.ExtendedAppend | deep-backend-tools/src/accumulate_tensors.rs:47-49 | extending by `xs + ys` is extending by `xs` then `ys`, panicking exactly when one of them does |
| Forward.SolveMatchesEval | deep-backend-tools/src/lib.rs:110-143 | from a consistent tape, the memoised solve answers as cache-free evaluation does, keeps the tape consistent and never removes or overwrites an entry |
| Forward.OpMatchesEval | deep-backend-tools/src/lib.rs:230-251 | `ImOp::solve` agrees with evaluating the node's operands |
| Forward.PairMatchesEval | deep-backend-tools/src/lib.rs:241-244 | the `double` closure agrees with evaluating both operands left to right |
| Forward.SolveNewKeys | deep-backend-tools/src/lib.rs:125-141 | solving only adds addresses at or below the solved one, and keeps old entries |
| Forward.OpNewKeys | deep-backend-tools/src/lib.rs:245-250 | solving a node's operands only adds addresses of lower nodes |
| Forward.PairNewKeys | deep-backend-tools/src/lib.rs:241-244 | solving two operands only adds addresses of lower nodes |
| Forward.SolveMissRecords | deep-backend-tools/src/lib.rs:128-139 | on a cache miss the address is recorded exactly when the solve succeeds, and the answer is the requested slot of the recorded outputs |
| Forward.SolveHit | deep-backend-tools/src/lib.rs:126-127 | a cache hit does not depend on the backend, leaves the tape unchanged, and returns the cached slot, or panics when the slot does not exist; it never fails with an error |
| Forward.SolveTwice | deep-backend-tools/src/lib.rs:126-137 | solving again on the resulting tape repeats the answer and changes nothing |
| Forward.SolveNoPanic | deep-backend-tools/src/lib.rs:127-135 | with the node present, state for it and the nodes below, and enough backend outputs (for an op of each node's type on that node's state) for every slot read, solve does not panic, and recorded vectors cover their slots |
| Forward.OpNoPanic | deep-backend-tools/src/lib.rs:245-250 | the same for the operands of one node |
| Forward.PairNoPanic | deep-backend-tools/src/lib.rs:241-244 | the same for two operands |
| Forward.EvalMerged | deep/src/lib.rs:91-96 | in a merged graph with concatenated state, a shifted input of the appended graph evaluates as it did alone |
| Forward.NodeMerged | deep/src/lib.rs:83-89 | a shifted node of the merged graph produces what it produced alone |
| Forward.OpMerged | deep/src/lib.rs:84-88 | a shifted op's operands evaluate as they did alone |
| Forward.EvalPrefix | deep/src/tensor.rs:49-52 | appending ops does not change what existing inputs evaluate to |
| Forward.NodePrefix | deep/src/tensor.rs:49-52 | appending ops does not change an existing node's outputs |
| Forward.SolveCloses | deep-backend-tools/src/lib.rs:131-137 | solving keeps the tape closed (each recorded node's operand addresses are readable) and a successful solve leaves its address readable |
| Forward.OpCloses | deep-backend-tools/src/lib.rs:245-250 | after a successful operand solve, every operand address of the node is readable |
| Forward.PairCloses | deep-backend-tools/src/lib.rs:241-244 | after a successful pair solve, both operand addresses are readable |
| Backward.ReplayCons | deep-backend-tools/src/lib.rs:311-313 | emitting one item in front of a walk inserts it first |
| Backward.BackpropIsReplay | deep-backend-tools/src/lib.rs:151-185 | backprop panics if some emitted insert would panic; otherwise it extends the accumulator by exactly the walk's items, in order, or reports the walk's failure |
| Backward.OpIsReplay | deep-backend-tools/src/lib.rs:359-364 | the same for `ImOp::backprop` of each op type |
| Backward.BinaryIsReplay | deep-backend-tools/src/lib.rs:303-325 | the same for the `binary` closure: own item, then the left walk, then the right walk |
| Backward.UnaryIsReplay | deep-backend-tools/src/lib.rs:331-349 | the same for the `unary` closure |
| Backward.BackpropSums | deep-backend-tools/src/lib.rs:303-357 | from a fresh accumulator, success means the walk succeeded with uniform lengths; then a node has an entry exactly when reached, holding the slot-wise sum of all its contributions |
| Backward.TraceNodes | deep-backend-tools/src/lib.rs:303-357 | the walk visits only nodes at or below the start, and a successful walk from an address emits that node first |
| Backward.OpTraceNodes | deep-backend-tools/src/lib.rs:359-364 | the same per op type |
| Backward.BinaryTraceNodes | deep-backend-tools/src/lib.rs:303-325 | the same for the `binary` closure |
| Backward.BackpropKeys | deep-backend-tools/src/lib.rs:311-313 | after a successful backprop the keys are the old keys plus the visited nodes, including the start node |
| Backward.TraceReadsTape | deep-backend-tools/src/lib.rs:272-274 | from a recorded address on a closed tape the walk never meets `InternalNotComputed` |
| Backward.BinaryReadsTape | deep-backend-tools/src/lib.rs:308-309 | both operands of a recorded binary node are readable |
| Backward.BackpropAfterSolve | deep-backend-tools/src/lib.rs:98-106 | backprop from an input the forward pass just solved never reports `InternalNotComputed` |
| Backward.SizedExtend | deep-backend-tools/src/accumulate_tensors.rs:22-27 | items sized like the state extend a table sized like the state without the length panic |
| Backward.GradientsKeepShape | deep-backend-tools/src/lib.rs:277-288 | under a propagation that keeps shapes on the graph's states, the `gradients` closure returns gradients of the op's own variant, one per state tensor |
| Backward.TraceNoPanic | deep-backend-tools/src/lib.rs:277-320 | with state for every node and a propagation that, on each node's own state and op type, keeps variant and state length, the walk does not panic and emits state-sized items |
| Backward.BinaryNoPanic | deep-backend-tools/src/lib.rs:303-325 | the same for the `binary` closure |
| Backward.BackpropNoPanic | deep-backend-tools/src/lib.rs:165-185 | under those conditions and a state-sized accumulator, backprop does not panic and keeps the accumulator state-sized |
| NativeBackend.State | deep-native/src/lib.rs:50-65 | `state` never panics and on success has one entry per op |
| NativeBackend.Solve | deep-native/src/lib.rs:100-106 | `None` exactly when no handler is registered for the tag; otherwise the handler's `forward` output |
| NativeBackend.StateSpec | deep-native/src/lib.rs:54-64 | `state` succeeds exactly when every op has a handler, with each op's generated state in order; otherwise it names the first unhandled op's type |
| NativeBackend.StateByTags | deep-native/src/lib.rs:57-61 | `state` fails alike for graphs with the same op types |
| NativeBackend.SolveByTag | deep-native/src/lib.rs:101-106 | `ImOp`s with one tag are dispatched to the same handler |
| NativeBackend.OpSolveTag | deep-backend-tools/src/lib.rs:245-250 | the `ImOp` built for a node has the node's op type |
| NativeBackend.EvalNoHandler | deep-native/src/lib.rs:101-106 | an `OpHasNoHandler` from evaluation names the type of a graph op without a handler |
| NativeBackend.NodeNoHandler | deep-native/src/lib.rs:101-106 | the same for one node's outputs |
| NativeBackend.SolveAfterState | deep-native/src/lib.rs:54-64 | once `state` succeeded, solving with that state never reports `OpHasNoHandler` |
| Scenarios.ForwardAdd | deep-native/tests/basic.rs:149-172 | `from("a") + from("b")` is one `Add` of the feeds; its state is one empty vector; with 2 and 3 the tape's `solve` gives 5 (the test's final `eval` reaches the unimplemented `Native::forward`, so `solve` stands in for it) |
| Scenarios.ForwardDoubled | deep-native/tests/basic.rs:111-135 | a trained constant 7 added to itself: its state holds 7, the sum solves to 14, both addresses are recorded |
| Scenarios.BackwardDoubled | deep-native/tests/basic.rs:28-40 | propagating 1 from the sum reaches the constant twice, and its gradient accumulates to 2 |
| Scenarios.MissingHandler | deep-native/src/lib.rs:54-64 | without a `TrainConst` handler, `state` and solve report `OpHasNoHandler(TrainConst)` and nothing is recorded |
| Scenarios.MissingFeed | deep-backend-tools/src/lib.rs:122-124 | a missing feed is reported by name and nothing is recorded |
| Scenarios.DoubledProduces | deep-native/tests/basic.rs:111-135 | the test kernels return at least one output for every node of `theta + theta` on its own state |
| Scenarios.DoubledSolveNoPanic | deep-backend-tools/src/lib.rs:110-143 | solving any slot-0 address of `theta + theta` from any covering tape, with any feeds, does not panic |
| Scenarios.DoubledKeepsShape | deep-native/tests/basic.rs:137-146 | the test backward rules keep variant and state length on the states of `theta + theta` |
| Scenarios.DoubledBackpropNoPanic | deep-backend-tools/src/lib.rs:151-185 | backprop from the sum on the solved tape, with any delta and any state-sized accumulator, does not panic and keeps the accumulator state-sized |

## Left out

- `Native::forward`, `Native::backward` and `Native::train` are not modelled. They are `unimplemented!()` and always panic.
- The `Backend` trait is not modelled. It is only a signature; its role is taken by the `Backend<T>` value (the two kernels).
- `Tensor::gen_state` and `Tensor::eval` are not modelled. They only forward to the backend.
- The random source passed to `state` and `generate_state` is left out. `generate_state` is a function of the op.
- `Handler::op` and `Handler::backward` are not modelled. `Native` has no `Propogate` implementation, so the propagation kernel is a separate parameter of the backend.
- f32 `ndarray` tensors and their arithmetic are left out. Tensors are an abstract type with an addition function, and the scenarios use `int`.
- The test handlers' `panic!` on a wrong `ImOp` variant is not modelled. The scenario kernels return an empty vector there instead. Dispatch by tag never reaches that branch.
- The `Display` messages of `Error` are left out. Only the error kinds and their fields are kept.
- `Rc<RefCell<Graph>>` sharing is left out. `Tensor` is not `Clone`, so each graph has one owner. It is modelled as a value, and the `RefCell` borrow panics cannot happen.
- `TensorBuilder.Merge2_1` works on a fresh `Graph` object made from the left handle's ops. The in-place update of the shared `RefCell` graph is therefore not modelled.
- Deep.ShiftInternal: does not model the `usize` overflow of `node + shift`, because indices are unbounded naturals.
- BackendTools.Tape.Solve: requires that no panic occurs. That is how index-out-of-range and missing-slot panics are handled. `Forward.SolveNoPanic` gives conditions under which the precondition holds.
- `Tape::backprop` is generic over any `E: Extend<(usize, Vec<Tensor>)>`; `BackendTools.Tape.Backprop` fixes `E` to `AccumulateTensors`. For any other `E`, `Backward.BackTrace` gives the exact, ordered stream of items that `E` receives, and `Backward.BackpropIsReplay` shows the accumulator receives exactly that stream.
- BackendTools.Tape.Backprop: states the accumulator only on success. The Rust call takes the accumulator by value and drops it on error. It also requires that no panic occurs, and `Backward.BackpropNoPanic` gives conditions under which that holds.
- Accumulate.AccumulateTensors.Insert: requires equal lengths for a present key. The Rust `assert_eq!` panics there instead.
- The tape methods and the specification functions do not check that the graph is well formed, and the code does not either. Well-formedness is a precondition, because the recursion would otherwise not terminate.
