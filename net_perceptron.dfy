/**
 * MLv0.Net `Perceptron` as perceptron.ts has it: four `DataSubset` views
 * (inputs, outputs, weights, gains). `evaluate` forms the weighted sum of
 * the inputs and hands 1 (the sum exceeds the first gain) or 0 to the
 * outputs' `setAll`. The gain is a threshold, not a term of the sum.
 *
 * `setAll` as written writes backing slots 0 .. |outputs|-1 rather than the
 * slots the output view lists, so `EvaluateAsWritten` models `evaluate` as
 * the source runs it, and `Evaluate` the same with the intended `setAll`.
 */
module NetPerceptron {
  import opened Containers
  import opened DataContainers
  import opened StepFunction

  /** Σ xs[k]·ws[k] over the positions of `xs`, first to last. */
  function WeightedSum(xs: seq<real>, ws: seq<real>): real
    requires |xs| <= |ws|
  {
    if xs == [] then 0.0
    else WeightedSum(xs[..|xs| - 1], ws) + xs[|xs| - 1] * ws[|xs| - 1]
  }

  /** The callback `(item, index) => sum += item * weights.get(index)`, over the weights' values. */
  function Accumulate(ws: seq<real>): (real, real, int) -> real {
    (sum: real, item: real, index: int) => sum + item * (if 0 <= index < |ws| then ws[index] else 0.0)
  }

  /** Running the accumulating callback over the inputs yields their weighted sum. */
  lemma {:induction false} AccumulateIsWeightedSum(xs: seq<real>, ws: seq<real>)
    requires |xs| <= |ws|
    ensures FoldIndexed(Accumulate(ws), 0.0, xs) == WeightedSum(xs, ws)
  {
    if xs != [] {
      AccumulateIsWeightedSum(xs[..|xs| - 1], ws);
    }
  }

  /** The value `evaluate` writes: 1 when the sum exceeds the gain, else 0. */
  function Fire(sum: real, gain: real): real {
    if sum > gain then 1.0 else 0.0
  }

  /**
   * Comparing the sum against the gain is the step function of the sum minus
   * the gain; so the written value is 0 or 1, and the gain acts as a negated bias.
   */
  lemma FireIsStepOfExcess(sum: real, gain: real)
    ensures Fire(sum, gain) == Heaviside(sum - gain)
    ensures Fire(sum, gain) == 0.0 || Fire(sum, gain) == 1.0
    ensures Fire(sum, gain) == 1.0 <==> sum > gain
  {
  }

  class Perceptron {
    const inputs: DataSubset<real>
    const outputs: DataSubset<real>
    const weights: DataSubset<real>
    const gains: DataSubset<real>

    /** The constructor asserts one weight per input; the views never change. */
    predicate Valid() {
      |inputs.indices| == |weights.indices|
    }

    /** Every read of `evaluate` stays inside its store. */
    predicate Ready() {
      && inputs.InBounds()
      && weights.InBounds()
      && |gains.indices| > 0 && gains.source.IndexOk(gains.indices[0])
    }

    constructor (inputs: DataSubset<real>, outputs: DataSubset<real>, weights: DataSubset<real>, gains: DataSubset<real>)
      requires inputs.Length() == weights.Length()
      ensures this.inputs == inputs && this.outputs == outputs
      ensures this.weights == weights && this.gains == gains
      ensures Valid()
    {
      this.inputs := inputs;
      this.outputs := outputs;
      this.weights := weights;
      this.gains := gains;
    }

    /**
     * `evaluate` as the source runs it: `Fire(Σ inputs[k]·weights[k], gains[0])`
     * lands in backing slots 0 .. |outputs|-1 of the output store, whatever
     * slots the output view lists; every other slot keeps its value.
     */
    method EvaluateAsWritten()
      requires Valid() && Ready()
      requires |outputs.indices| <= outputs.source.data.Length
      modifies outputs.source.data
      ensures forall g :: 0 <= g < outputs.source.data.Length ==>
                outputs.source.data[g] ==
                  if g < |outputs.indices|
                  then old(Fire(WeightedSum(inputs.Values(), weights.Values()), gains.Get(0)))
                  else old(outputs.source.data[g])
    {
      var ws := weights.Values();
      var sum := inputs.ForEachIndex(Accumulate(ws), 0.0);
      AccumulateIsWeightedSum(inputs.Values(), ws);
      var output := sum > gains.Get(0);
      outputs.SetAllAsWritten(if output then 1.0 else 0.0);
    }

    /**
     * `evaluate` with the intended `setAll`: `Fire(Σ inputs[k]·weights[k], gains[0])`
     * lands in every slot the output view lists, and nothing else changes.
     */
    method Evaluate()
      requires Valid() && Ready() && outputs.InBounds()
      modifies outputs.source.data
      ensures forall g :: 0 <= g < outputs.source.data.Length ==>
                outputs.source.data[g] ==
                  if g in outputs.indices
                  then old(Fire(WeightedSum(inputs.Values(), weights.Values()), gains.Get(0)))
                  else old(outputs.source.data[g])
    {
      var ws := weights.Values();
      var sum := inputs.ForEachIndex(Accumulate(ws), 0.0);
      AccumulateIsWeightedSum(inputs.Values(), ws);
      var output := sum > gains.Get(0);
      outputs.SetAll(if output then 1.0 else 0.0);
    }
  }

  /**
   * A perceptron with one input 1, weight 1 and gain 0 fires. Its output view
   * lists slot 3 of a four-slot signal store. The source's `evaluate` writes
   * slot 0 and leaves slot 3 at 0.
   */
  method EvaluateAsWrittenMissesItsOutput() returns (slot0: real, slot3: real)
    ensures slot0 == 1.0 && slot3 == 0.0
  {
    var p, signals := FiringPerceptron();
    p.EvaluateAsWritten();
    slot0 := signals.Get(0);
    slot3 := signals.Get(3);
  }

  /** The same perceptron with the intended `setAll` writes slot 3 and leaves slot 0 alone. */
  method EvaluateWritesItsOutput() returns (slot0: real, slot3: real)
    ensures slot0 == 0.0 && slot3 == 1.0
  {
    var p, signals := FiringPerceptron();
    p.Evaluate();
    slot0 := signals.Get(0);
    slot3 := signals.Get(3);
  }

  /** Input 1, weight 1, gain 0, output view [3] over four zeroed signals. */
  method FiringPerceptron() returns (p: Perceptron, signals: DataSet<real>)
    ensures fresh(signals.data) && signals.data.Length == 4 && signals.data[..] == [0.0, 0.0, 0.0, 0.0]
    ensures p.Valid() && p.Ready() && p.outputs.InBounds()
    ensures p.outputs.source == signals && p.outputs.indices == [3]
    ensures p.inputs.source.data != signals.data && p.weights.source.data != signals.data
    ensures p.gains.source.data != signals.data
    ensures Fire(WeightedSum(p.inputs.Values(), p.weights.Values()), p.gains.Get(0)) == 1.0
  {
    var ins := new DataSet<real>(1, 1.0);
    var ws := new DataSet<real>(1, 1.0);
    var gs := new DataSet<real>(1, 0.0);
    signals := new DataSet<real>(4, 0.0);
    var inputs := ins.GetSubset([0]);
    var weights := ws.GetSubset([0]);
    var gains := gs.GetSubset([0]);
    var outputs := signals.GetSubset([3]);
    p := new Perceptron(inputs, outputs, weights, gains);
    assert inputs.Values() == [1.0] && weights.Values() == [1.0];
    assert WeightedSum([1.0], [1.0]) == WeightedSum([], [1.0]) + 1.0 * 1.0;
  }
}
