/**
 * MLv0.Core `DataSet` and `DataSubset`: the older twin of `Set` and `Subset`
 * that perceptron.ts is written against. Same store and views, no
 * single-slot view and no join, and a view may list no slot at all.
 */
module DataContainers {
  import opened Containers

  class DataSet<T> {
    /** The backing store; its length is the constructor's `size` for good. */
    const data: array<T>

    /** `new DataSet(size)`. JavaScript leaves the slots `undefined`; here they hold `fill`. */
    constructor (size: nat, fill: T)
      ensures fresh(data) && data.Length == size
      ensures forall i :: 0 <= i < size ==> data[i] == fill
    {
      data := new T[size](_ => fill);
    }

    /** `checkIndex`. */
    predicate IndexOk(index: int) {
      0 <= index < data.Length
    }

    function Get(index: int): (v: T)
      reads data
      requires IndexOk(index)
      ensures v == data[index]
    {
      data[index]
    }

    /** Overwrites slot `index` and no other. */
    method Set(index: int, value: T)
      requires IndexOk(index)
      modifies data
      ensures data[..] == old(data[..])[index := value]
    {
      data[index] := value;
    }

    /** Checks every index, then wraps exactly those indices in a view. */
    method GetSubset(indices: seq<int>) returns (r: DataSubset<T>)
      requires forall k :: 0 <= k < |indices| ==> IndexOk(indices[k])
      ensures r.source == this && r.indices == indices && r.InBounds()
    {
      r := new DataSubset(this, indices);
    }
  }

  class DataSubset<T> {
    const source: DataSet<T>
    const indices: seq<int>

    /** Every listed slot exists in the backing store. */
    predicate InBounds() {
      AllIn(indices, source.data.Length)
    }

    /** Unlike `Subset`, an empty index list is accepted. */
    constructor (source: DataSet<T>, indices: seq<int>)
      ensures this.source == source && this.indices == indices
    {
      this.source := source;
      this.indices := indices;
    }

    function Length(): (n: nat)
      ensures n == |indices|
    {
      |indices|
    }

    /** `getGlobalIndex`: asserts `0 <= k < length`. */
    function GlobalIndex(k: int): (g: int)
      requires 0 <= k < |indices|
      ensures g == indices[k]
    {
      indices[k]
    }

    /** Reads backing slot `indices[k]`. */
    function Get(k: int): (v: T)
      reads source.data
      requires 0 <= k < |indices| && source.IndexOk(indices[k])
      ensures v == source.data[indices[k]]
    {
      source.Get(GlobalIndex(k))
    }

    /** The values the view yields, in index-list order. */
    function Values(): (vs: seq<T>)
      reads source.data
      requires InBounds()
      ensures |vs| == |indices|
      ensures forall k :: 0 <= k < |indices| ==> vs[k] == source.data[indices[k]]
    {
      var store := source.data[..];
      seq(|indices|, k requires 0 <= k < |indices| => store[indices[k]])
    }

    /** Writes backing slot `indices[k]` only. */
    method Set(k: int, value: T)
      requires 0 <= k < |indices| && source.IndexOk(indices[k])
      modifies source.data
      ensures source.data[..] == old(source.data[..])[indices[k] := value]
    {
      source.Set(GlobalIndex(k), value);
    }

    /** `setAll` as written: writes backing slots 0 .. length-1, not the listed ones. */
    method SetAllAsWritten(value: T)
      requires |indices| <= source.data.Length
      modifies source.data
      ensures forall g :: 0 <= g < source.data.Length ==>
                source.data[g] == if g < |indices| then value else old(source.data[g])
    {
      for k := 0 to |indices|
        invariant forall g :: 0 <= g < source.data.Length ==>
                    source.data[g] == if g < k then value else old(source.data[g])
      {
        source.Set(k, value);
      }
    }

    /** `setAll` as intended: writes every listed slot and no other. */
    method SetAll(value: T)
      requires InBounds()
      modifies source.data
      ensures forall g :: 0 <= g < source.data.Length ==>
                source.data[g] == if g in indices then value else old(source.data[g])
    {
      for k := 0 to |indices|
        invariant forall g :: 0 <= g < source.data.Length ==>
                    source.data[g] == if g in indices[..k] then value else old(source.data[g])
      {
        assert indices[..k + 1] == indices[..k] + [indices[k]];
        source.Set(indices[k], value);
      }
      assert indices[..|indices|] == indices;
    }

    /** `forEach`: the callback's state threaded through the values in index-list order. */
    method ForEach<A>(fn: (A, T) -> A, init: A) returns (acc: A)
      requires InBounds()
      ensures acc == Fold(fn, init, Values())
    {
      acc := init;
      ghost var vs := Values();
      for k := 0 to |indices|
        invariant acc == Fold(fn, init, vs[..k])
      {
        assert vs[..k + 1][..k] == vs[..k];
        acc := fn(acc, source.Get(indices[k]));
      }
      assert vs[..|indices|] == vs;
    }

    /** `forEachIndex`: as `forEach`, with the positions 0 .. length-1. */
    method ForEachIndex<A>(fn: (A, T, int) -> A, init: A) returns (acc: A)
      requires InBounds()
      ensures acc == FoldIndexed(fn, init, Values())
    {
      acc := init;
      ghost var vs := Values();
      for k := 0 to |indices|
        invariant acc == FoldIndexed(fn, init, vs[..k])
      {
        assert vs[..k + 1][..k] == vs[..k];
        acc := fn(acc, source.Get(indices[k]), k);
      }
      assert vs[..|indices|] == vs;
    }
  }

  /**
   * `setAll` as written, through a view of slot 2 of a three-slot store:
   * the value lands in slot 0, and the view reads back the old value.
   */
  method DataSetAllAsWrittenMissesItsView() returns (slot0: real, readBack: real)
    ensures slot0 == 1.0 && readBack == 0.0
  {
    var store := new DataSet<real>(3, 0.0);
    var view := store.GetSubset([2]);
    view.SetAllAsWritten(1.0);
    slot0 := store.Get(0);
    readBack := view.Get(0);
  }

  /** `setAll` as intended, on the same view: slot 2 changes, slot 0 does not. */
  method DataSetAllReadsBack() returns (slot0: real, readBack: real)
    ensures slot0 == 0.0 && readBack == 1.0
  {
    var store := new DataSet<real>(3, 0.0);
    var view := store.GetSubset([2]);
    view.SetAll(1.0);
    slot0 := store.Get(0);
    readBack := view.Get(0);
  }
}
