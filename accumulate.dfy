/**
 * The gradient accumulator of `deep-backend-tools`: a table from node index to the
 * list of per-slot gradient tensors, where a second contribution for a node is added
 * slot by slot into the first instead of replacing it.
 */
module Accumulate {
  import opened Wrappers

  /** One contribution: a node index and its per-slot tensors. */
  type Item<T> = (nat, seq<T>)

  /** Adds `ys` into `xs` slot by slot (`*at += &bt` for every pair of slots). */
  function SlotSum<T>(add: (T, T) -> T, xs: seq<T>, ys: seq<T>): (r: seq<T>)
    requires |xs| == |ys|
    ensures |r| == |xs|
    ensures forall i :: 0 <= i < |xs| ==> r[i] == add(xs[i], ys[i])
  {
    if xs == [] then [] else [add(xs[0], ys[0])] + SlotSum(add, xs[1..], ys[1..])
  }

  /** `insert` does not panic: a present key must hold as many tensors as are added. */
  predicate CanInsert<T>(table: map<nat, seq<T>>, slot: nat, tensors: seq<T>)
  {
    slot in table ==> |table[slot]| == |tensors|
  }

  /** The table after `insert(slot, tensors)`. */
  function Inserted<T>(add: (T, T) -> T, table: map<nat, seq<T>>, slot: nat, tensors: seq<T>): (r: map<nat, seq<T>>)
    requires CanInsert(table, slot, tensors)
  {
    if slot in table then table[slot := SlotSum(add, table[slot], tensors)] else table[slot := tensors]
  }

  /** `extend` does not panic: every insert along the way is allowed. */
  predicate CanExtend<T>(add: (T, T) -> T, table: map<nat, seq<T>>, items: seq<Item<T>>)
    decreases |items|
  {
    items == [] ||
    (CanInsert(table, items[0].0, items[0].1) &&
     CanExtend(add, Inserted(add, table, items[0].0, items[0].1), items[1..]))
  }

  /** The table after `extend(items)`: the items inserted one by one, in order. */
  function Extended<T>(add: (T, T) -> T, table: map<nat, seq<T>>, items: seq<Item<T>>): (r: map<nat, seq<T>>)
    requires CanExtend(add, table, items)
    decreases |items|
  {
    if items == [] then table
    else Extended(add, Inserted(add, table, items[0].0, items[0].1), items[1..])
  }

  /** The entry stored under `k`, if any. */
  function Get<T>(table: map<nat, seq<T>>, k: nat): Option<seq<T>>
  {
    if k in table then Some(table[k]) else None
  }

  /** The vectors that `items` supplies for key `k`, in order. */
  function Contributions<T>(items: seq<Item<T>>, k: nat): (r: seq<seq<T>>)
    ensures |r| <= |items|
  {
    if items == [] then []
    else (if items[0].0 == k then [items[0].1] else []) + Contributions(items[1..], k)
  }

  /** Every contribution has the length of the entry it is added into. */
  predicate Uniform<T>(start: Option<seq<T>>, cs: seq<seq<T>>)
  {
    forall i :: 0 <= i < |cs| ==> |cs[i]| == if start.Some? then |start.value| else |cs[0]|
  }

  /**
   * The slot-wise running sum of `cs` on top of `start` (an absent entry takes the
   * first contribution verbatim): the reference definition of an accumulated entry.
   */
  function Fold<T>(add: (T, T) -> T, start: Option<seq<T>>, cs: seq<seq<T>>): Option<seq<T>>
    requires Uniform(start, cs)
    decreases |cs|
  {
    if cs == [] then start
    else if start.None? then Fold(add, Some(cs[0]), cs[1..])
    else Fold(add, Some(SlotSum(add, start.value, cs[0])), cs[1..])
  }

  /** The accumulator object: its table is updated in place. */
  class AccumulateTensors<T> {
    var table: map<nat, seq<T>>
    /** The tensor type's `AddAssign`. */
    const add: (T, T) -> T

    /** `new` / `Default`: an empty table. */
    constructor (add: (T, T) -> T)
      ensures table == map[] && this.add == add
    {
      table := map[];
      this.add := add;
    }

    /**
     * `insert`: a new key stores the tensors verbatim; a present key (which must hold
     * as many tensors) gets each new tensor added into its slot.
     */
    method Insert(slot: nat, tensors: seq<T>)
      requires CanInsert(table, slot, tensors)
      modifies this
      ensures table == Inserted(add, old(table), slot, tensors)
    {
      if slot in table {
        var i := 0;
        while i < |tensors|
          invariant 0 <= i <= |tensors|
          invariant slot in table && |table[slot]| == |tensors|
          invariant table == old(table)[slot := table[slot]]
          invariant forall j :: 0 <= j < i ==> table[slot][j] == add(old(table)[slot][j], tensors[j])
          invariant forall j :: i <= j < |tensors| ==> table[slot][j] == old(table)[slot][j]
        {
          table := table[slot := table[slot][i := add(table[slot][i], tensors[i])]];
          i := i + 1;
        }
        assert table[slot] == SlotSum(add, old(table)[slot], tensors);
      } else {
        table := table[slot := tensors];
      }
    }

    /** `extend`: inserts the items one by one, in iteration order. */
    method Extend(items: seq<Item<T>>)
      requires CanExtend(add, table, items)
      modifies this
      ensures table == Extended(add, old(table), items)
    {
      var i := 0;
      while i < |items|
        invariant 0 <= i <= |items|
        invariant CanExtend(add, table, items[i..])
        invariant Extended(add, table, items[i..]) == Extended(add, old(table), items)
      {
        assert items[i..][0] == items[i] && items[i..][1..] == items[i + 1..];
        Insert(items[i].0, items[i].1);
        i := i + 1;
      }
    }
  }

  /** Insert touches only its own key: all other entries are kept. */
  lemma InsertedOtherKeys<T>(add: (T, T) -> T, table: map<nat, seq<T>>, slot: nat, tensors: seq<T>)
    requires CanInsert(table, slot, tensors)
    ensures Inserted(add, table, slot, tensors).Keys == table.Keys + {slot}
    ensures forall k :: k in table && k != slot ==> Inserted(add, table, slot, tensors)[k] == table[k]
  {
  }

  /**
   * Insert under a key: an absent key stores the vector verbatim; a present key keeps
   * its length and gets each new tensor added into the stored one.
   */
  lemma InsertedEntry<T>(add: (T, T) -> T, table: map<nat, seq<T>>, slot: nat, tensors: seq<T>)
    requires CanInsert(table, slot, tensors)
    ensures slot !in table ==> Inserted(add, table, slot, tensors)[slot] == tensors
    ensures slot in table ==>
      |Inserted(add, table, slot, tensors)[slot]| == |table[slot]| &&
      forall i :: 0 <= i < |tensors| ==> Inserted(add, table, slot, tensors)[slot][i] == add(table[slot][i], tensors[i])
  {
  }

  /** Extending with one item is one insert. */
  lemma ExtendedSingle<T>(add: (T, T) -> T, table: map<nat, seq<T>>, slot: nat, tensors: seq<T>)
    requires CanInsert(table, slot, tensors)
    ensures CanExtend(add, table, [(slot, tensors)])
    ensures Extended(add, table, [(slot, tensors)]) == Inserted(add, table, slot, tensors)
  {
    assert [(slot, tensors)][1..] == [];
  }

  /** The entry under `k` after one insert, as a step of the running sum. */
  lemma GetInserted<T>(add: (T, T) -> T, table: map<nat, seq<T>>, slot: nat, tensors: seq<T>, k: nat)
    requires CanInsert(table, slot, tensors)
    ensures k != slot ==> Get(Inserted(add, table, slot, tensors), k) == Get(table, k)
    ensures k == slot ==> Uniform(Get(table, k), [tensors]) &&
                          Get(Inserted(add, table, slot, tensors), k) == Fold(add, Get(table, k), [tensors])
  {
    if k == slot {
      assert [tensors][1..] == [];
    }
  }

  /** A running sum over `[c] + cs` is the running sum over `cs` after adding `c`. */
  lemma FoldCons<T>(add: (T, T) -> T, start: Option<seq<T>>, c: seq<T>, cs: seq<seq<T>>)
    requires Uniform(start, [c])
    ensures Uniform(start, [c] + cs) <==> Uniform(Fold(add, start, [c]), cs)
    ensures Uniform(start, [c] + cs) ==> Fold(add, start, [c] + cs) == Fold(add, Fold(add, start, [c]), cs)
  {
    assert ([c] + cs)[0] == c && ([c] + cs)[1..] == cs;
    assert [c][1..] == [];
    if start.Some? {
      assert Fold(add, start, [c]) == Some(SlotSum(add, start.value, c));
    }
  }

  /**
   * `extend` panics exactly when some key would receive a contribution of another
   * length than its entry; otherwise each key ends up with the running slot-wise sum
   * of its old entry and every vector the items supply for it, in order.
   */
  lemma {:induction false} ExtendedEntries<T>(add: (T, T) -> T, table: map<nat, seq<T>>, items: seq<Item<T>>)
    ensures CanExtend(add, table, items) <==> forall k :: Uniform(Get(table, k), Contributions(items, k))
    ensures CanExtend(add, table, items) ==>
      forall k :: Get(Extended(add, table, items), k) == Fold(add, Get(table, k), Contributions(items, k))
    decreases |items|
  {
    if items == [] {
    } else {
      var (slot, tensors) := items[0];
      var rest := items[1..];
      forall k
        ensures Contributions(items, k) == (if slot == k then [tensors] else []) + Contributions(rest, k)
      {
      }
      if CanInsert(table, slot, tensors) {
        var t1 := Inserted(add, table, slot, tensors);
        ExtendedEntries(add, t1, rest);
        forall k
          ensures Uniform(Get(table, k), Contributions(items, k)) <==> Uniform(Get(t1, k), Contributions(rest, k))
          ensures Uniform(Get(table, k), Contributions(items, k)) ==>
            Fold(add, Get(table, k), Contributions(items, k)) == Fold(add, Get(t1, k), Contributions(rest, k))
        {
          GetInserted(add, table, slot, tensors, k);
          if k == slot {
            FoldCons(add, Get(table, k), tensors, Contributions(rest, k));
          } else {
            assert Contributions(items, k) == Contributions(rest, k);
          }
        }
      } else {
        assert !Uniform(Get(table, slot), Contributions(items, slot)) by {
          assert Contributions(items, slot)[0] == tensors;
        }
      }
    }
  }

  /**
   * Starting from an empty table, after `extend` the keys are exactly the items' keys
   * and each entry is the slot-wise sum of all vectors supplied for that key.
   */
  lemma ExtendedFromEmpty<T>(add: (T, T) -> T, items: seq<Item<T>>)
    requires forall k :: Uniform(None, Contributions(items, k))
    ensures CanExtend(add, map[], items)
    ensures forall k :: k in Extended(add, map[], items) <==> Contributions(items, k) != []
    ensures forall k :: k in Extended(add, map[], items) ==>
      Some(Extended(add, map[], items)[k]) == Fold(add, None, Contributions(items, k))
  {
    ExtendedEntries(add, map[], items);
    forall k
      ensures k in Extended(add, map[], items) <==> Contributions(items, k) != []
    {
      FoldNone(add, Contributions(items, k));
      assert Get(Extended(add, map[], items), k) == Fold(add, None, Contributions(items, k));
    }
  }

  /** A running sum from nothing is nothing exactly when there are no contributions. */
  lemma {:induction false} FoldNone<T>(add: (T, T) -> T, cs: seq<seq<T>>)
    requires Uniform(None, cs)
    ensures Fold(add, None, cs).None? <==> cs == []
  {
    if cs != [] {
      FoldSome(add, cs[0], cs[1..]);
    }
  }

  /** A running sum from an entry is an entry of the same length. */
  lemma {:induction false} FoldSome<T>(add: (T, T) -> T, v: seq<T>, cs: seq<seq<T>>)
    requires Uniform(Some(v), cs)
    ensures Fold(add, Some(v), cs).Some? && |Fold(add, Some(v), cs).value| == |v|
    decreases |cs|
  {
    if cs != [] {
      FoldSome(add, SlotSum(add, v, cs[0]), cs[1..]);
    }
  }

  /** Extending keeps every old key and adds exactly the items' keys. */
  lemma {:induction false} ExtendedKeys<T>(add: (T, T) -> T, table: map<nat, seq<T>>, items: seq<Item<T>>)
    requires CanExtend(add, table, items)
    ensures Extended(add, table, items).Keys == table.Keys + set i | 0 <= i < |items| :: items[i].0
    decreases |items|
  {
    if items != [] {
      ExtendedKeys(add, Inserted(add, table, items[0].0, items[0].1), items[1..]);
      var s0 := set i | 0 <= i < |items| :: items[i].0;
      var s1 := set i | 0 <= i < |items[1..]| :: items[1..][i].0;
      assert s0 == {items[0].0} + s1 by {
        forall x | x in s0 ensures x in {items[0].0} + s1 {
          var i :| 0 <= i < |items| && items[i].0 == x;
          if i > 0 { assert items[1..][i - 1].0 == x; }
        }
      }
    }
  }

  /** Extending by `xs + ys` is extending by `xs`, then by `ys`; it panics exactly when one of the two does. */
  lemma {:induction false} ExtendedAppend<T>(add: (T, T) -> T, table: map<nat, seq<T>>, xs: seq<Item<T>>, ys: seq<Item<T>>)
    ensures CanExtend(add, table, xs + ys) <==>
      CanExtend(add, table, xs) && CanExtend(add, Extended(add, table, xs), ys)
    ensures CanExtend(add, table, xs + ys) ==>
      Extended(add, table, xs + ys) == Extended(add, Extended(add, table, xs), ys)
    decreases |xs|
  {
    if xs == [] {
      assert xs + ys == ys;
    } else {
      assert (xs + ys)[0] == xs[0];
      assert (xs + ys)[1..] == xs[1..] + ys;
      if CanInsert(table, xs[0].0, xs[0].1) {
        ExtendedAppend(add, Inserted(add, table, xs[0].0, xs[0].1), xs[1..], ys);
      }
    }
  }
}
