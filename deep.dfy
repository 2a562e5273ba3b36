/**
 * The graph model of the `deep` crate: node addresses, operands, operations and
 * the append-only graph, with the address shifting that `merge` performs.
 */
module Deep {

  /** An address of one output slot of one node of a graph. */
  datatype Internal = Internal(node: nat, output: nat)

  /** An operand: a tensor fed in by name, or an output of an earlier node. */
  datatype Input = Feed(name: string) | Internal(internal: Internal)

  /**
   * A graph node. `TrainConst` is the zero-operand trainable constant (a shape and
   * an initial value); it has no operands to shift.
   */
  datatype Op =
    | Add(left: Input, right: Input)
    | Sub(left: Input, right: Input)
    | Square(arg: Input)
    | TrainConst(shape: seq<nat>, value: int)

  /** The operand-free discriminant of an `Op`, used as a dispatch key. */
  datatype OpTy = Add | Sub | Square | TrainConst

  /** The tag of an operation (the derived discriminant). */
  function TyOf(op: Op): (r: OpTy)
    ensures r == OpTy.Add <==> op.Add?
    ensures r == OpTy.Sub <==> op.Sub?
    ensures r == OpTy.Square <==> op.Square?
    ensures r == OpTy.TrainConst <==> op.TrainConst?
  {
    match op
    case Add(_, _) => OpTy.Add
    case Sub(_, _) => OpTy.Sub
    case Square(_) => OpTy.Square
    case TrainConst(_, _) => OpTy.TrainConst
  }

  /** The operands of an operation, in operand order. */
  function Operands(op: Op): (r: seq<Input>)
    ensures |r| <= 2
  {
    match op
    case Add(a, b) => [a, b]
    case Sub(a, b) => [a, b]
    case Square(a) => [a]
    case TrainConst(_, _) => []
  }

  /** The input that names output `output` of node `node`. */
  function Addr(node: nat, output: nat): Input
  {
    Input.Internal(Internal.Internal(node, output))
  }

  /** `Internal::shift_inputs`: the node index moves by `shift`, the slot stays. */
  function ShiftInternal(x: Internal, shift: nat): (r: Internal)
    ensures r.node == x.node + shift && r.output == x.output
  {
    x.(node := x.node + shift)
  }

  /** `Input::shift_inputs`: feeds are unchanged, internal addresses are shifted. */
  function ShiftInput(x: Input, shift: nat): (r: Input)
    ensures x.Feed? ==> r == x
    ensures x.Internal? ==> r.Internal? && r.internal == ShiftInternal(x.internal, shift)
  {
    match x
    case Feed(_) => x
    case Internal(a) => Input.Internal(ShiftInternal(a, shift))
  }

  /** `Op::shift_inputs`: the same variant, with every operand shifted. */
  function ShiftOp(op: Op, shift: nat): (r: Op)
    ensures TyOf(r) == TyOf(op)
    ensures |Operands(r)| == |Operands(op)|
    ensures forall i :: 0 <= i < |Operands(op)| ==> Operands(r)[i] == ShiftInput(Operands(op)[i], shift)
    ensures op.TrainConst? ==> r == op
  {
    match op
    case Add(a, b) => Op.Add(ShiftInput(a, shift), ShiftInput(b, shift))
    case Sub(a, b) => Op.Sub(ShiftInput(a, shift), ShiftInput(b, shift))
    case Square(a) => Op.Square(ShiftInput(a, shift))
    case TrainConst(_, _) => op
  }

  /** `From<&str> for Input`: a name becomes a feed. */
  function InputFrom(s: string): (r: Input)
    ensures r.Feed? && r.name == s
  {
    Input.Feed(s)
  }

  /** The input refers to a node strictly below `n` when it is internal. */
  predicate InputBelow(x: Input, n: nat)
  {
    x.Internal? ==> x.internal.node < n
  }

  /** Every operand of `op` refers to a node strictly below `n`. */
  predicate OpBelow(op: Op, n: nat)
  {
    forall x :: x in Operands(op) ==> InputBelow(x, n)
  }

  /**
   * The acyclicity invariant of a graph: every internal operand of op `i` names a
   * node `< i`. It holds by construction and is never checked at run time.
   */
  predicate WellFormed(ops: seq<Op>)
  {
    forall i :: 0 <= i < |ops| ==> OpBelow(ops[i], i)
  }

  /** Every op of `ops` with each operand shifted by `shift`. */
  function ShiftOps(ops: seq<Op>, shift: nat): (r: seq<Op>)
    ensures |r| == |ops|
    ensures forall i :: 0 <= i < |ops| ==> r[i] == ShiftOp(ops[i], shift)
  {
    if ops == [] then [] else [ShiftOp(ops[0], shift)] + ShiftOps(ops[1..], shift)
  }

  /**
   * The graph that `Graph::merge` leaves behind: the receiver's ops followed by the
   * other graph's ops, re-addressed by the receiver's old length.
   */
  function Merged(ops: seq<Op>, other: seq<Op>): (r: seq<Op>)
    ensures |r| == |ops| + |other|
    ensures r[..|ops|] == ops
    ensures forall i :: 0 <= i < |other| ==> r[|ops| + i] == ShiftOp(other[i], |ops|)
  {
    ops + ShiftOps(other, |ops|)
  }

  /** The graph: an append-only list of ops. */
  class Graph {
    var ops: seq<Op>

    /** `Graph::new` / `Default`: an empty graph. */
    constructor ()
      ensures ops == []
    {
      ops := [];
    }

    /** A graph that takes over the ops of an existing graph value. */
    constructor FromOps(ops0: seq<Op>)
      ensures ops == ops0
    {
      ops := ops0;
    }

    /**
     * `Graph::merge`: appends `other` (taken by value), then shifts every op of the
     * appended tail in place by the old length.
     */
    method Merge(other: seq<Op>)
      modifies this
      ensures ops == Merged(old(ops), other)
    {
      var current := |ops|;
      ops := ops + other;
      var i := current;
      while i < |ops|
        invariant current <= i <= |ops| == current + |other|
        invariant ops[..current] == old(ops)
        invariant forall k :: current <= k < i ==> ops[k] == ShiftOp(other[k - current], current)
        invariant forall k :: i <= k < |ops| ==> ops[k] == other[k - current]
      {
        ops := ops[i := ShiftOp(ops[i], current)];
        i := i + 1;
      }
      assert ops == Merged(old(ops), other);
    }

    /**
     * `Graph::merge_input`: merges `other` and returns `input` (an address into
     * `other`) shifted so that it addresses the same op in the merged graph.
     */
    method MergeInput(other: seq<Op>, input: Input) returns (r: Input)
      modifies this
      ensures ops == Merged(old(ops), other)
      ensures r == ShiftInput(input, |old(ops)|)
    {
      var current := |ops|;
      Merge(other);
      r := ShiftInput(input, current);
    }
  }

  /** Shifting by zero changes nothing. */
  lemma ShiftOpZero(op: Op)
    ensures ShiftOp(op, 0) == op
  {
  }

  /** Two shifts compose into one by the sum. */
  lemma ShiftOpCompose(op: Op, s: nat, t: nat)
    ensures ShiftOp(ShiftOp(op, s), t) == ShiftOp(op, s + t)
  {
  }

  /** A shifted op refers below a bound raised by the shift. */
  lemma ShiftOpBelow(op: Op, n: nat, shift: nat)
    requires OpBelow(op, n)
    ensures OpBelow(ShiftOp(op, shift), n + shift)
  {
    forall x | x in Operands(ShiftOp(op, shift))
      ensures InputBelow(x, n + shift)
    {
      var i :| 0 <= i < |Operands(ShiftOp(op, shift))| && Operands(ShiftOp(op, shift))[i] == x;
      assert InputBelow(Operands(op)[i], n);
    }
  }

  /** Merging two well-formed graphs yields a well-formed graph. */
  lemma MergedWellFormed(ops: seq<Op>, other: seq<Op>)
    requires WellFormed(ops) && WellFormed(other)
    ensures WellFormed(Merged(ops, other))
  {
    var m := Merged(ops, other);
    forall i | 0 <= i < |m|
      ensures OpBelow(m[i], i)
    {
      if i < |ops| {
        assert m[i] == m[..|ops|][i];
      } else {
        ShiftOpBelow(other[i - |ops|], i - |ops|, |ops|);
      }
    }
  }

  /** Shifting a concatenation shifts each part. */
  lemma ShiftOpsAppend(x: seq<Op>, y: seq<Op>, k: nat)
    ensures ShiftOps(x + y, k) == ShiftOps(x, k) + ShiftOps(y, k)
  {
    var l, r := ShiftOps(x + y, k), ShiftOps(x, k) + ShiftOps(y, k);
    forall i | 0 <= i < |l|
      ensures l[i] == r[i]
    {
      if i < |x| {
        assert (x + y)[i] == x[i];
      } else {
        assert (x + y)[i] == y[i - |x|];
      }
    }
  }

  /** Two shifts of a list compose into one by the sum. */
  lemma ShiftOpsCompose(ops: seq<Op>, s: nat, t: nat)
    ensures ShiftOps(ShiftOps(ops, s), t) == ShiftOps(ops, s + t)
  {
    var l, r := ShiftOps(ShiftOps(ops, s), t), ShiftOps(ops, s + t);
    forall i | 0 <= i < |l|
      ensures l[i] == r[i]
    {
      ShiftOpCompose(ops[i], s, t);
    }
  }

  /** Merging twice in sequence: the third graph is shifted by both earlier lengths. */
  lemma MergedTwice(a: seq<Op>, b: seq<Op>, c: seq<Op>)
    ensures Merged(Merged(a, b), c) == a + ShiftOps(b, |a|) + ShiftOps(c, |a| + |b|)
  {
    assert |Merged(a, b)| == |a| + |b|;
  }

  /** Concatenation is associative. */
  lemma AppendAssociative<X>(p: seq<X>, q: seq<X>, r: seq<X>)
    ensures p + (q + r) == (p + q) + r
  {
  }

  /** Merging a merged graph: the inner shift and the outer shift compose. */
  lemma MergedNested(a: seq<Op>, b: seq<Op>, c: seq<Op>)
    ensures Merged(a, Merged(b, c)) == a + ShiftOps(b, |a|) + ShiftOps(c, |a| + |b|)
  {
    var x, z, y := ShiftOps(b, |a|), ShiftOps(ShiftOps(c, |b|), |a|), ShiftOps(c, |a| + |b|);
    ShiftOpsAppend(b, ShiftOps(c, |b|), |a|);
    ShiftOpsCompose(c, |b|, |a|);
    assert z == y by {
      assert |b| + |a| == |a| + |b|;
    }
    assert Merged(a, Merged(b, c)) == a + (x + z);
    AppendAssociative(a, x, y);
  }

  /** Merging is associative: merging in two steps equals merging a merged graph. */
  lemma MergedAssociative(a: seq<Op>, b: seq<Op>, c: seq<Op>)
    ensures Merged(Merged(a, b), c) == Merged(a, Merged(b, c))
  {
    MergedTwice(a, b, c);
    MergedNested(a, b, c);
  }
}
