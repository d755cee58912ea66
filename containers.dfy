/**
 * MLv0.Core `Set`, `Subset` and `Subset1`: a flat store of fixed length and
 * views that name slots of it by global index. A view owns no data, so a
 * write through one view is seen through every view that lists the same slot.
 *
 * Every `assert` of the source that aborts the operation is a `requires` here.
 */
module Containers {

  /** Every entry of `ix` addresses a slot of a store of length `n`. */
  predicate AllIn(ix: seq<int>, n: int) {
    forall k :: 0 <= k < |ix| ==> 0 <= ix[k] < n
  }

  /** Left fold: the state a `forEach` callback threads through its visits. */
  function Fold<A, T>(fn: (A, T) -> A, init: A, xs: seq<T>): A {
    if xs == [] then init else fn(Fold(fn, init, xs[..|xs| - 1]), xs[|xs| - 1])
  }

  /** Left fold that also hands the callback the position (`forEachIndex`). */
  function FoldIndexed<A, T>(fn: (A, T, int) -> A, init: A, xs: seq<T>): A {
    if xs == [] then init
    else fn(FoldIndexed(fn, init, xs[..|xs| - 1]), xs[|xs| - 1], |xs| - 1)
  }

  /** A callback that records every visit: the value it was given and the position. */
  function Visit<T>(trace: seq<(T, int)>, item: T, position: int): seq<(T, int)> {
    trace + [(item, position)]
  }

  /** A recording callback sees the values in order, at positions 0, 1, 2, ... */
  lemma {:induction false} FoldIndexedVisitsInOrder<T>(xs: seq<T>)
    ensures FoldIndexed(Visit, [], xs) == seq(|xs|, i requires 0 <= i < |xs| => (xs[i], i))
  {
    if xs != [] {
      FoldIndexedVisitsInOrder(xs[..|xs| - 1]);
    }
  }

  class Set<T> {
    /** The backing store; its length is fixed when the container is made. */
    const data: array<T>

    /** `new Set(size)`. JavaScript leaves the slots `undefined`; here they hold `fill`. */
    constructor (size: nat, fill: T)
      ensures fresh(data) && data.Length == size
      ensures forall i :: 0 <= i < size ==> data[i] == fill
    {
      data := new T[size](_ => fill);
    }

    /** The array-taking constructor that connectom.ts calls (`new Core.Set(items)`). */
    constructor Of(items: seq<T>)
      ensures fresh(data) && data[..] == items
    {
      data := new T[|items|](i requires 0 <= i < |items| => items[i]);
    }

    /** `checkIndex`: `get`, `set` and `getSubset` abort unless this holds. */
    predicate IndexOk(index: int) {
      0 <= index < data.Length
    }

    function Get(index: int): (v: T)
      reads data
      requires IndexOk(index)
      ensures v == data[index]
    {
      data[index]
    }

    method Set(index: int, value: T)
      requires IndexOk(index)
      modifies data
      ensures data[..] == old(data[..])[index := value]
    {
      data[index] := value;
    }

    /** Checks every index, then wraps them, in order, in a view of this store. */
    method GetSubset(indices: seq<int>) returns (r: Subset<T>)
      requires forall k :: 0 <= k < |indices| ==> IndexOk(indices[k])
      requires |indices| > 0
      ensures r.source == this && r.indices == indices
      ensures r.Valid() && r.InBounds()
    {
      r := new Subset(this, indices);
    }

    /** The check `getSubset1` performs as written: `0 <= index && length < index`. */
    predicate GetSubset1Admits(index: int) {
      0 <= index && data.Length < index
    }

    /** `getSubset1` as written: only indices past the end get through its assert. */
    method GetSubset1AsWritten(index: int) returns (r: Subset1<T>)
      requires GetSubset1Admits(index)
      ensures r.source == this && r.index == index
      ensures !IndexOk(r.index)
    {
      r := new Subset1(this, index);
    }

    /** `getSubset1` as intended: a single-slot view of an in-bounds slot. */
    method GetSubset1(index: int) returns (r: Subset1<T>)
      requires IndexOk(index)
      ensures r.source == this && r.index == index
      ensures IndexOk(r.index)
    {
      r := new Subset1(this, index);
    }

    /** The assert of `getSubset1` as written turns away every in-bounds index. */
    lemma GetSubset1RejectsEveryValidIndex(index: int)
      ensures IndexOk(index) ==> !GetSubset1Admits(index)
    {
    }
  }

  class Subset1<T> {
    /** `sourceSet`; fixed at construction. */
    const source: Set<T>
    /** `index`; fixed at construction. */
    const index: nat

    /** Checks only `index >= 0`; the upper bound is left to `Set.get`/`Set.set`. */
    constructor (source: Set<T>, index: int)
      requires index >= 0
      ensures this.source == source && this.index == index
    {
      this.source := source;
      this.index := index;
    }

    /** The `value` getter. */
    function Value(): (v: T)
      reads source.data
      requires source.IndexOk(index)
      ensures v == source.data[index]
    {
      source.Get(index)
    }

    /** The `value` setter: changes backing slot `index` and no other. */
    method SetValue(value: T)
      requires source.IndexOk(index)
      modifies source.data
      ensures source.data[..] == old(source.data[..])[index := value]
    {
      source.Set(index, value);
    }
  }

  /** `AnySubset<T> = Subset<T> | Subset1<T>`, the operands of `Subset.join`. */
  datatype AnySubset<T> = Many(view: Subset<T>) | One(slot: Subset1<T>) {

    /** `_set` of a `Subset`, `sourceSet` of a `Subset1`. */
    function SourceSet(): Set<T> {
      match this
      case Many(v) => v.source
      case One(s) => s.source
    }

    /** The global indices this operand contributes to a join. */
    function Indices(): seq<int> {
      match this
      case Many(v) => v.indices
      case One(s) => [s.index]
    }
  }

  /** The index list `join` builds: every operand's indices, operand by operand. */
  function JoinedIndices<T>(subsets: seq<AnySubset<T>>): seq<int> {
    if subsets == [] then []
    else JoinedIndices(subsets[..|subsets| - 1]) + subsets[|subsets| - 1].Indices()
  }

  /** Joining two runs of operands joins their joins. */
  lemma {:induction false} JoinedIndicesAppend<T>(xs: seq<AnySubset<T>>, ys: seq<AnySubset<T>>)
    ensures JoinedIndices(xs + ys) == JoinedIndices(xs) + JoinedIndices(ys)
  {
    if ys == [] {
      assert xs + ys == xs;
    } else {
      var zs := ys[..|ys| - 1];
      assert (xs + ys)[..|xs + ys| - 1] == xs + zs;
      JoinedIndicesAppend(xs, zs);
    }
  }

  /**
   * `join` keeps duplicates: joining a view with itself lists each of its
   * indices twice instead of once.
   */
  lemma JoinKeepsDuplicates<T>(v: Subset<T>)
    ensures JoinedIndices([Many(v), Many(v)]) == v.indices + v.indices
    ensures |JoinedIndices([Many(v), Many(v)])| == 2 * |v.indices|
  {
    var ops := [Many(v), Many(v)];
    assert ops[..1] == [Many(v)];
    assert [Many(v)][..0] == [];
    assert JoinedIndices([Many(v)]) == JoinedIndices([Many(v)][..0]) + v.indices == v.indices;
    assert JoinedIndices(ops) == JoinedIndices(ops[..1]) + v.indices;
  }

  /** Joining single-slot views lists their indices in operand order. */
  lemma {:induction false} JoinOfSlots<T>(subsets: seq<AnySubset<T>>)
    requires forall i :: 0 <= i < |subsets| ==> subsets[i].One?
    ensures JoinedIndices(subsets) == seq(|subsets|, i requires 0 <= i < |subsets| => subsets[i].slot.index)
  {
    if subsets != [] {
      JoinOfSlots(subsets[..|subsets| - 1]);
    }
  }

  class Subset<T> {
    const source: Set<T>
    const indices: seq<int>

    /** The constructor asserts a non-empty index list, and the list never changes. */
    predicate Valid() {
      |indices| > 0
    }

    /** Every listed slot exists in the backing store. */
    predicate InBounds() {
      AllIn(indices, source.data.Length)
    }

    constructor (source: Set<T>, indices: seq<int>)
      requires |indices| > 0
      ensures this.source == source && this.indices == indices && Valid()
    {
      this.source := source;
      this.indices := indices;
    }

    function Length(): (n: nat)
      ensures n == |indices|
    {
      |indices|
    }

    /** `getGlobalIndex`: asserts `0 <= k < length`, then maps position to slot. */
    function GlobalIndex(k: int): (g: int)
      requires 0 <= k < |indices|
      ensures g == indices[k]
    {
      indices[k]
    }

    /** Reads backing slot `indices[k]`; `Set.get` then checks that slot. */
    function Get(k: int): (v: T)
      reads source.data
      requires 0 <= k < |indices| && source.IndexOk(indices[k])
      ensures v == source.data[indices[k]]
    {
      source.Get(GlobalIndex(k))
    }

    /** The values the view yields, in index-list order. */
    function Values(): (vs: seq<T>)
      reads source.data
      requires InBounds()
      ensures |vs| == |indices|
      ensures forall k :: 0 <= k < |indices| ==> vs[k] == source.data[indices[k]]
    {
      var store := source.data[..];
      seq(|indices|, k requires 0 <= k < |indices| => store[indices[k]])
    }

    /** Writes backing slot `indices[k]` and no other. */
    method Set(k: int, value: T)
      requires 0 <= k < |indices| && source.IndexOk(indices[k])
      modifies source.data
      ensures source.data[..] == old(source.data[..])[indices[k] := value]
    {
      source.Set(GlobalIndex(k), value);
    }

    /** `setAll` as written: writes backing slots 0 .. length-1, not the listed ones. */
    method SetAllAsWritten(value: T)
      requires |indices| <= source.data.Length
      modifies source.data
      ensures forall g :: 0 <= g < source.data.Length ==>
                source.data[g] == if g < |indices| then value else old(source.data[g])
    {
      for k := 0 to |indices|
        invariant forall g :: 0 <= g < source.data.Length ==>
                    source.data[g] == if g < k then value else old(source.data[g])
      {
        source.Set(k, value);
      }
    }

    /** `setAll` as intended: writes every listed slot and no other. */
    method SetAll(value: T)
      requires InBounds()
      modifies source.data
      ensures forall g :: 0 <= g < source.data.Length ==>
                source.data[g] == if g in indices then value else old(source.data[g])
    {
      for k := 0 to |indices|
        invariant forall g :: 0 <= g < source.data.Length ==>
                    source.data[g] == if g in indices[..k] then value else old(source.data[g])
      {
        assert indices[..k + 1] == indices[..k] + [indices[k]];
        source.Set(indices[k], value);
      }
      assert indices[..|indices|] == indices;
    }

    /** `forEach`: the callback's state threaded through the values in index-list order. */
    method ForEach<A>(fn: (A, T) -> A, init: A) returns (acc: A)
      requires InBounds()
      ensures acc == Fold(fn, init, Values())
    {
      acc := init;
      ghost var vs := Values();
      for k := 0 to |indices|
        invariant acc == Fold(fn, init, vs[..k])
      {
        assert vs[..k + 1][..k] == vs[..k];
        acc := fn(acc, source.Get(indices[k]));
      }
      assert vs[..|indices|] == vs;
    }

    /** `forEachIndex`: as `forEach`, with the positions 0 .. length-1. */
    method ForEachIndex<A>(fn: (A, T, int) -> A, init: A) returns (acc: A)
      requires InBounds()
      ensures acc == FoldIndexed(fn, init, Values())
    {
      acc := init;
      ghost var vs := Values();
      for k := 0 to |indices|
        invariant acc == FoldIndexed(fn, init, vs[..k])
      {
        assert vs[..k + 1][..k] == vs[..k];
        acc := fn(acc, source.Get(indices[k]), k);
      }
      assert vs[..|indices|] == vs;
    }

    /** A narrower view over the same store: its j-th slot is `indices[local[j]]`. */
    method GetSubset(local: seq<int>) returns (r: Subset<T>)
      requires forall j :: 0 <= j < |local| ==> 0 <= local[j] < |indices|
      requires |local| > 0
      ensures r.source == source && r.Valid()
      ensures |r.indices| == |local|
      ensures forall j :: 0 <= j < |local| ==> r.indices[j] == indices[local[j]]
      ensures InBounds() ==> r.InBounds()
    {
      var global: seq<int> := [];
      for j := 0 to |local|
        invariant |global| == j
        invariant forall i :: 0 <= i < j ==> global[i] == indices[local[i]]
      {
        global := global + [GlobalIndex(local[j])];
      }
      r := new Subset(source, global);
    }

    /** The check `getSubset1` performs as written: `0 <= k && length < k`. */
    predicate GetSubset1Admits(k: int) {
      0 <= k && |indices| < k
    }

    /**
     * `getSubset1` as written always aborts: an index that passes its assert
     * fails the `k < length` check of `getGlobalIndex` that follows.
     */
    lemma GetSubset1AlwaysAborts(k: int)
      ensures GetSubset1Admits(k) ==> !(0 <= k < |indices|)
    {
    }

    /** `getSubset1` as intended: the single slot at position `k`. */
    method GetSubset1(k: int) returns (r: Subset1<T>)
      requires 0 <= k < |indices| && indices[k] >= 0
      ensures r.source == source && r.index == indices[k]
    {
      r := new Subset1(source, GlobalIndex(k));
    }

    /** `Subset.join`: all operands must share one store; indices are concatenated, duplicates kept. */
    static method Join(subsets: seq<AnySubset<T>>) returns (r: Subset<T>)
      requires |subsets| > 0
      requires forall i :: 0 <= i < |subsets| ==> subsets[i].SourceSet() == subsets[0].SourceSet()
      requires JoinedIndices(subsets) != []
      ensures r.source == subsets[0].SourceSet() && r.indices == JoinedIndices(subsets)
      ensures r.Valid()
    {
      var store := subsets[0].SourceSet();
      var joined: seq<int> := [];
      for i := 0 to |subsets|
        invariant joined == JoinedIndices(subsets[..i])
      {
        assert subsets[..i + 1][..i] == subsets[..i];
        match subsets[i]
        case Many(v) =>
          joined := joined + v.indices;
        case One(s) =>
          joined := joined + [s.index];
      }
      assert subsets[..|subsets|] == subsets;
      r := new Subset(store, joined);
    }
  }

  /**
   * The aliasing law: a write through view `a` is read back through any view
   * `b` of the same store that lists the same slot, and a view of another
   * store is not affected.
   */
  method AliasedWriteIsVisible<T>(a: Subset<T>, ka: int, b: Subset<T>, kb: int, c: Subset<T>, v: T)
    requires a.source == b.source
    requires 0 <= ka < |a.indices| && 0 <= kb < |b.indices| && a.indices[ka] == b.indices[kb]
    requires a.source.IndexOk(a.indices[ka])
    requires c.source.data != a.source.data && c.InBounds()
    modifies a.source.data
    ensures b.Get(kb) == v
    ensures c.Values() == old(c.Values())
  {
    a.Set(ka, v);
  }

  /**
   * `setAll` as written misses its own view: on a view of slot 1 of a
   * two-slot store, the written value is not what the view reads back.
   */
  method SetAllAsWrittenMissesItsView() returns (written: real, readBack: real)
    ensures written == 1.0 && readBack == 0.0
  {
    var store := new Set<real>(2, 0.0);
    var view := store.GetSubset([1]);
    written := 1.0;
    view.SetAllAsWritten(written);
    readBack := view.Get(0);
  }

  /** `setAll` as intended: on the same view, the written value is read back. */
  method SetAllReadsBack() returns (written: real, readBack: real)
    ensures written == 1.0 && readBack == 1.0
  {
    var store := new Set<real>(2, 0.0);
    var view := store.GetSubset([1]);
    written := 1.0;
    view.SetAll(written);
    readBack := view.Get(0);
  }
}
