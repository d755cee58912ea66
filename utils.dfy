/** MLv0.Core `heaviside`: the step transfer function. */
module StepFunction {

  /** 1 for a positive argument, 0 otherwise (zero included). */
  function Heaviside(value: real): (r: real)
    ensures r == 0.0 || r == 1.0
    ensures r == 1.0 <==> value > 0.0
  {
    if value > 0.0 then 1.0 else 0.0
  }

  /** The step never goes down as its argument grows. */
  lemma HeavisideMonotone(x: real, y: real)
    requires x <= y
    ensures Heaviside(x) <= Heaviside(y)
  {
  }

  /** Zero and the negatives map to 0. */
  lemma HeavisideOfNonPositive(x: real)
    requires x <= 0.0
    ensures Heaviside(x) == 0.0
  {
  }
}

/** MLv0.Utils `range` and `deduplicate`. */
module Utils {

  /** `range(start, count)`: `count` consecutive integers from `start`. */
  function Range(start: int, count: nat): (r: seq<int>)
    ensures |r| == count
    ensures forall i :: 0 <= i < count ==> r[i] == start + i
  {
    if count == 0 then [] else Range(start, count - 1) + [start + count - 1]
  }

  /** Neighbouring entries of a range differ by exactly one. */
  lemma RangeSteps(start: int, count: nat)
    ensures forall i :: 0 <= i < count - 1 ==> Range(start, count)[i + 1] == Range(start, count)[i] + 1
  {
  }

  /** `range(start, 0)` is empty. */
  lemma RangeEmpty(start: int)
    ensures Range(start, 0) == []
  {
  }

  /** Two adjacent ranges make one. */
  lemma RangeSplit(start: int, m: nat, n: nat)
    ensures Range(start, m) + Range(start + m, n) == Range(start, m + n)
  {
    var joined := Range(start, m) + Range(start + m, n);
    forall i | 0 <= i < m + n
      ensures joined[i] == Range(start, m + n)[i]
    {
      if i >= m {
        assert joined[i] == Range(start + m, n)[i - m];
      }
    }
  }

  /** No value appears twice. */
  predicate NoDuplicates<T(==)>(s: seq<T>) {
    forall i, j :: 0 <= i < j < |s| ==> s[i] != s[j]
  }

  /** Position of the first occurrence of `x` in `s`. */
  function FirstIndex<T(==)>(s: seq<T>, x: T): (i: nat)
    requires x in s
    ensures i < |s| && s[i] == x && x !in s[..i]
  {
    if s[0] == x then 0 else 1 + FirstIndex(s[1..], x)
  }

  /**
   * `deduplicate(array)` = `Array.from(new Set(array))`: a JavaScript `Set`
   * keeps insertion order, so each value stays where it first occurs.
   */
  function Deduplicate<T(==)>(s: seq<T>): (r: seq<T>)
    ensures NoDuplicates(r)
    ensures forall i :: 0 <= i < |r| ==> r[i] in s
    ensures forall i :: 0 <= i < |s| ==> s[i] in r
    ensures |r| <= |s|
  {
    if s == [] then []
    else
      var d := Deduplicate(s[..|s| - 1]);
      if s[|s| - 1] in d then d else d + [s[|s| - 1]]
  }

  /** The first occurrence of a value in a prefix is its first occurrence overall. */
  lemma FirstIndexInPrefix<T>(s: seq<T>, n: nat, x: T)
    requires n <= |s| && x in s[..n]
    ensures FirstIndex(s[..n], x) == FirstIndex(s, x)
  {
    var i := FirstIndex(s[..n], x);
    var j := FirstIndex(s, x);
    assert s[..n][..i] == s[..i];
    assert s[i] == x;
  }

  /** Values come out in the order of their first occurrence in the input. */
  lemma {:induction false} DeduplicateKeepsFirstOccurrenceOrder<T>(s: seq<T>)
    ensures forall i, j :: 0 <= i < j < |Deduplicate(s)| ==>
              FirstIndex(s, Deduplicate(s)[i]) < FirstIndex(s, Deduplicate(s)[j])
  {
    if s != [] {
      var n := |s| - 1;
      var p := s[..n];
      var d := Deduplicate(p);
      var r := Deduplicate(s);
      DeduplicateKeepsFirstOccurrenceOrder(p);
      forall x | x in d
        ensures FirstIndex(s, x) == FirstIndex(p, x) < n
      {
        FirstIndexInPrefix(s, n, x);
      }
      if s[n] !in d {
        assert s[n] !in p;
        assert r == d + [s[n]];
        assert FirstIndex(s, s[n]) == n by {
          assert s[..n] == p;
        }
        forall i, j | 0 <= i < j < |r|
          ensures FirstIndex(s, r[i]) < FirstIndex(s, r[j])
        {
          if j < |d| {
            assert r[i] == d[i] && r[j] == d[j];
          } else {
            assert r[i] == d[i] && r[i] in d;
          }
        }
      }
    }
  }

  /** Deduplicating twice is deduplicating once. */
  lemma {:induction false} DeduplicateIdempotent<T>(s: seq<T>)
    ensures Deduplicate(Deduplicate(s)) == Deduplicate(s)
  {
    DeduplicateOfDistinct(Deduplicate(s));
  }

  /** A list without duplicates is left as it is. */
  lemma {:induction false} DeduplicateOfDistinct<T>(s: seq<T>)
    requires NoDuplicates(s)
    ensures Deduplicate(s) == s
  {
    if s != [] {
      var n := |s| - 1;
      assert NoDuplicates(s[..n]);
      DeduplicateOfDistinct(s[..n]);
      assert s[n] !in s[..n];
      assert s[..n] + [s[n]] == s;
    }
  }
}
