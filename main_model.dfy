/**
 * The small decisions of main.ts's `Model`: reading a prediction off the
 * output view, the crossover coin, whether stored populations are used,
 * and the running count of right predictions.
 */
module MainModel {
  import opened Wrappers
  import opened Containers

  /** What `predictedValue` returns: `undefined`, `null`, or a position in the output view. */
  datatype Prediction = Undefined | Null | Index(k: int)

  /** The callback's state: the current answer and the highest output so far (`None` is `-Infinity`). */
  datatype Tracker = Tracker(value: Prediction, maxOutput: Option<real>)

  /** The callback of `predictedValue`: a new maximum takes the lead, an equal one makes the answer `null`. */
  function Track(st: Tracker, output: real, index: int): Tracker {
    if st.maxOutput.None? || st.maxOutput.value < output then Tracker(Index(index), Some(output))
    else if st.maxOutput.value == output then Tracker(Null, st.maxOutput)
    else st
  }

  /** Output k is strictly above every other output. */
  predicate UniqueMaxAt(vs: seq<real>, k: int) {
    0 <= k < |vs| && forall j :: 0 <= j < |vs| && j != k ==> vs[j] < vs[k]
  }

  /** The highest output occurs at two positions or more. */
  predicate TiedMax(vs: seq<real>) {
    exists i, j :: 0 <= i < j < |vs| && vs[i] == vs[j] && forall m :: 0 <= m < |vs| ==> vs[m] <= vs[i]
  }

  /**
   * What the callback's state says about the outputs seen so far: the
   * tracked maximum is the largest of them, the answer is `null` only on a
   * tie for it, and otherwise the position of the single largest output.
   */
  predicate Tracks(vs: seq<real>, st: Tracker) {
    && st.maxOutput.Some?
    && (forall m :: 0 <= m < |vs| ==> vs[m] <= st.maxOutput.value)
    && (exists m :: 0 <= m < |vs| && vs[m] == st.maxOutput.value)
    && (st.value == Null ==> TiedMax(vs))
    && (st.value != Null ==> st.value.Index? && UniqueMaxAt(vs, st.value.k))
  }

  /** One call of the callback keeps `Tracks` for the outputs seen so far. */
  lemma TrackStep(p: seq<real>, x: real, st: Tracker)
    requires Tracks(p, st)
    ensures Tracks(p + [x], Track(st, x, |p|))
  {
    var mx := st.maxOutput.value;
    var w :| 0 <= w < |p| && p[w] == mx;
    if mx < x {
      NewMaximum(p, x);
    } else if mx == x {
      EqualMaximum(p, x, w);
    } else {
      BelowMaximum(p, x, st);
    }
  }

  /** An output above all earlier ones is the unique maximum. */
  lemma NewMaximum(p: seq<real>, x: real)
    requires forall m :: 0 <= m < |p| ==> p[m] < x
    ensures UniqueMaxAt(p + [x], |p|)
  {
    var vs := p + [x];
    assert forall m :: 0 <= m < |p| ==> vs[m] == p[m];
  }

  /** An output equal to the earlier maximum makes a tie. */
  lemma EqualMaximum(p: seq<real>, x: real, w: int)
    requires 0 <= w < |p| && p[w] == x
    requires forall m :: 0 <= m < |p| ==> p[m] <= x
    ensures TiedMax(p + [x])
    ensures exists m :: 0 <= m < |p| + 1 && (p + [x])[m] == x
  {
    var vs := p + [x];
    assert forall m :: 0 <= m < |p| ==> vs[m] == p[m];
    assert vs[w] == vs[|p|] && forall m :: 0 <= m < |vs| ==> vs[m] <= vs[w];
  }

  /** An output below the earlier maximum changes nothing. */
  lemma BelowMaximum(p: seq<real>, x: real, st: Tracker)
    requires Tracks(p, st) && x < st.maxOutput.value
    ensures Tracks(p + [x], st)
  {
    var vs := p + [x];
    var mx := st.maxOutput.value;
    assert forall m :: 0 <= m < |p| ==> vs[m] == p[m];
    assert vs[|p|] == x;
    var w :| 0 <= w < |p| && p[w] == mx;
    assert vs[w] == mx;
    if st.value == Null {
      var i, j :| 0 <= i < j < |p| && p[i] == p[j] && forall m :: 0 <= m < |p| ==> p[m] <= p[i];
      assert vs[i] == vs[j] && forall m :: 0 <= m < |vs| ==> vs[m] <= vs[i];
    } else {
      var k := st.value.k;
      assert p[w] < p[k] || w == k;
      assert p[k] == mx;
      assert UniqueMaxAt(vs, k);
    }
  }

  /** After the callback has seen a non-empty view, its state `Tracks` all of it. */
  lemma {:induction false} TrackInvariant(vs: seq<real>)
    requires vs != []
    ensures Tracks(vs, FoldIndexed(Track, Tracker(Undefined, None), vs))
  {
    var n := |vs| - 1;
    if n == 0 {
      assert UniqueMaxAt(vs, 0);
      assert vs[0] == FoldIndexed(Track, Tracker(Undefined, None), vs).maxOutput.value;
    } else {
      var p := vs[..n];
      TrackInvariant(p);
      TrackStep(p, vs[n], FoldIndexed(Track, Tracker(Undefined, None), p));
      assert p + [vs[n]] == vs;
    }
  }

  /** A unique maximum and a tied maximum exclude each other. */
  lemma UniqueExcludesTie(vs: seq<real>, k: int)
    requires UniqueMaxAt(vs, k)
    ensures !TiedMax(vs)
  {
    forall i, j | 0 <= i < j < |vs| && vs[i] == vs[j]
      ensures vs[i] < vs[k]
    {
    }
  }

  /** At most one position holds a unique maximum. */
  lemma UniqueMaxIsUnique(vs: seq<real>, k: int)
    requires UniqueMaxAt(vs, k)
    ensures forall j :: UniqueMaxAt(vs, j) <==> j == k
  {
    forall j | 0 <= j < |vs| && j != k
      ensures !UniqueMaxAt(vs, j)
    {
      assert vs[j] < vs[k];
    }
  }

  /**
   * `predictedValue`: the position of the single highest output, `null`
   * when the highest output is shared, `undefined` only for an empty view.
   */
  method PredictedValue(outputs: Subset<real>) returns (p: Prediction)
    requires outputs.InBounds()
    ensures p == Undefined <==> outputs.Values() == []
    ensures p == Null <==> TiedMax(outputs.Values())
    ensures forall k :: p == Index(k) <==> UniqueMaxAt(outputs.Values(), k)
  {
    var st := outputs.ForEachIndex(Track, Tracker(Undefined, None));
    p := st.value;
    var vs := outputs.Values();
    if vs != [] {
      TrackInvariant(vs);
      if p.Index? {
        UniqueExcludesTie(vs, p.k);
        UniqueMaxIsUnique(vs, p.k);
      } else {
        forall k | UniqueMaxAt(vs, k) ensures false {
          UniqueExcludesTie(vs, k);
        }
      }
    }
  }

  /** `crossFunction`: keeps `a` when the draw from [0, 100) exceeds 15, else takes `b`. */
  function CrossFunction(a: real, b: real, draw: real): (r: real)
    ensures r == a || r == b
    ensures draw > 15.0 ==> r == a
    ensures draw <= 15.0 ==> r == b
  {
    if draw > 15.0 then a else b
  }

  /** The population size main.ts keeps (`genomLength`). */
  const PopulationSize: nat := 20

  /** How the constructor fills its 20 weight and bias genome slots. */
  datatype Start =
    | FromStore(weights: seq<seq<real>>, biases: seq<seq<real>>)  // the stored genomes
    | LeftEmpty                                                    // stored but rejected: the slots stay `undefined`
    | RandomFill                                                   // nothing stored: fresh random genomes

  /**
   * The constructor's choice. `None` is a missing (or empty) stored entry.
   * Stored genomes are taken only when both lists hold 20 genomes and the
   * first of each has the network's weight and bias count.
   */
  function ChooseStart(storedWeights: Option<seq<seq<real>>>, storedBiases: Option<seq<seq<real>>>,
                       weightCount: nat, biasCount: nat): (r: Start)
    ensures r.RandomFill? <==> storedWeights.None? || storedBiases.None?
    ensures r.FromStore? <==>
              && storedWeights.Some? && storedBiases.Some?
              && |storedWeights.value| == PopulationSize && |storedBiases.value| == PopulationSize
              && |storedWeights.value[0]| == weightCount && |storedBiases.value[0]| == biasCount
    ensures r.FromStore? ==> r.weights == storedWeights.value && r.biases == storedBiases.value
  {
    if storedWeights.Some? && storedBiases.Some? then
      var w, b := storedWeights.value, storedBiases.value;
      if |w| == PopulationSize && |b| == PopulationSize && |w[0]| == weightCount && |b[0]| == biasCount
      then FromStore(w, b)
      else LeftEmpty
    else RandomFill
  }

  /** Stored populations of another size are rejected without falling back to random ones. */
  lemma RejectedStoreIsNotReplaced(w: seq<seq<real>>, b: seq<seq<real>>, weightCount: nat, biasCount: nat)
    requires |w| != PopulationSize
    ensures ChooseStart(Some(w), Some(b), weightCount, biasCount) == LeftEmpty
  {
  }

  /** The update of `rightPredicted` after one sample with answer `answer`. */
  function NextRightPredicted(count: nat, p: Prediction, answer: int): (r: nat)
    ensures p == Index(answer) ==> r == count + 1
    ensures p != Index(answer) && p == Undefined && count >= 10 ==> r == count - 10
    ensures p != Index(answer) && !(p == Undefined && count >= 10) ==> r == count
  {
    if p == Index(answer) then count + 1
    else if p == Undefined && count >= 10 then count - 10
    else count
  }

  /** The counter over a run of samples: right predictions minus the penalties. */
  function RightPredicted(ps: seq<Prediction>, labels: seq<int>): nat
    requires |ps| == |labels|
  {
    if ps == [] then 0
    else NextRightPredicted(RightPredicted(ps[..|ps| - 1], labels[..|ps| - 1]), ps[|ps| - 1], labels[|ps| - 1])
  }

  /** The number of samples predicted right. */
  function Hits(ps: seq<Prediction>, labels: seq<int>): (n: nat)
    requires |ps| == |labels|
    ensures n <= |ps|
  {
    if ps == [] then 0
    else Hits(ps[..|ps| - 1], labels[..|ps| - 1]) + (if ps[|ps| - 1] == Index(labels[|ps| - 1]) then 1 else 0)
  }

  /**
   * The sample loop's counting: it starts at 0, rises by one per right
   * prediction, and never goes below 0.
   */
  method CountRightPredicted(ps: seq<Prediction>, labels: seq<int>) returns (rightPredicted: nat)
    requires |ps| == |labels|
    ensures rightPredicted == RightPredicted(ps, labels)
    ensures rightPredicted <= Hits(ps, labels)
  {
    rightPredicted := 0;
    for i := 0 to |ps|
      invariant rightPredicted == RightPredicted(ps[..i], labels[..i])
      invariant rightPredicted <= Hits(ps[..i], labels[..i])
    {
      assert ps[..i + 1][..i] == ps[..i] && labels[..i + 1][..i] == labels[..i];
      rightPredicted := NextRightPredicted(rightPredicted, ps[i], labels[i]);
    }
    assert ps[..|ps|] == ps && labels[..|ps|] == labels;
  }

  /**
   * `predictedValue` answers `null` on a tie and never `undefined` for a
   * non-empty view, so the `=== undefined` penalty never applies: the
   * counter is exactly the number of right predictions.
   */
  lemma {:induction false} NoPenaltyWithoutUndefined(ps: seq<Prediction>, labels: seq<int>)
    requires |ps| == |labels|
    requires forall i :: 0 <= i < |ps| ==> ps[i] != Undefined
    ensures RightPredicted(ps, labels) == Hits(ps, labels)
  {
    if ps != [] {
      NoPenaltyWithoutUndefined(ps[..|ps| - 1], labels[..|ps| - 1]);
    }
  }
}
