/**
 * MLv0.Net `Layer` and the five-argument perceptron that layer.ts and
 * connectom.ts are written against: views of the input signals and the
 * weights, a single-slot view of its output signal and of its bias, and
 * a transfer function (`heaviside` or `sigma` in the program, any
 * `real -> real` here). That perceptron's own source is not part of this
 * model; its `evaluate` is taken to write
 * `transfer(bias + Σ inputs[k]·weights[k])` to its output slot.
 */
module NetLayer {
  import opened Containers
  import opened NetPerceptron

  /** A transfer function, `TransferFunction` in types.ts. */
  type Transfer = real -> real

  /** A perceptron reduced to the slots it uses: inputs and output in the signal store, weights, and bias. */
  datatype Wiring = Wiring(inputs: seq<int>, output: int, weights: seq<int>, bias: int, transfer: Transfer)

  /** Every slot of `w` exists in stores of the given lengths, and there is one weight per input. */
  predicate Fits(w: Wiring, signalCount: int, weightCount: int, biasCount: int) {
    && AllIn(w.inputs, signalCount)
    && 0 <= w.output < signalCount
    && AllIn(w.weights, weightCount)
    && 0 <= w.bias < biasCount
    && |w.inputs| == |w.weights|
  }

  /** The values at the listed slots of a store. */
  function Gather(store: seq<real>, ix: seq<int>): (r: seq<real>)
    requires AllIn(ix, |store|)
    ensures |r| == |ix|
    ensures forall k :: 0 <= k < |ix| ==> r[k] == store[ix[k]]
  {
    seq(|ix|, k requires 0 <= k < |ix| => store[ix[k]])
  }

  /** The value perceptron `w` computes from the current stores. */
  function Fire(signals: seq<real>, weights: seq<real>, biases: seq<real>, w: Wiring): real
    requires Fits(w, |signals|, |weights|, |biases|)
  {
    w.transfer(biases[w.bias] + WeightedSum(Gather(signals, w.inputs), Gather(weights, w.weights)))
  }

  /** Evaluating one perceptron: its output slot takes the fired value, every other signal stays. */
  function Step(signals: seq<real>, weights: seq<real>, biases: seq<real>, w: Wiring): (r: seq<real>)
    requires Fits(w, |signals|, |weights|, |biases|)
    ensures |r| == |signals|
  {
    signals[w.output := Fire(signals, weights, biases, w)]
  }

  /** All wirings fit stores of the given lengths. */
  predicate AllFit(ws: seq<Wiring>, signalCount: int, weightCount: int, biasCount: int) {
    forall i :: 0 <= i < |ws| ==> Fits(ws[i], signalCount, weightCount, biasCount)
  }

  /** Evaluating perceptrons one after another, first to last. */
  function Run(signals: seq<real>, weights: seq<real>, biases: seq<real>, ws: seq<Wiring>): (r: seq<real>)
    requires AllFit(ws, |signals|, |weights|, |biases|)
    ensures |r| == |signals|
  {
    if ws == [] then signals
    else Step(Run(signals, weights, biases, ws[..|ws| - 1]), weights, biases, ws[|ws| - 1])
  }

  /** Running two batches in turn is running them as one. */
  lemma {:induction false} RunAppend(signals: seq<real>, weights: seq<real>, biases: seq<real>, xs: seq<Wiring>, ys: seq<Wiring>)
    requires AllFit(xs, |signals|, |weights|, |biases|) && AllFit(ys, |signals|, |weights|, |biases|)
    ensures AllFit(xs + ys, |signals|, |weights|, |biases|)
    ensures Run(signals, weights, biases, xs + ys)
         == Run(Run(signals, weights, biases, xs), weights, biases, ys)
  {
    if ys == [] {
      assert xs + ys == xs;
    } else {
      var zs := ys[..|ys| - 1];
      assert (xs + ys)[..|xs + ys| - 1] == xs + zs;
      RunAppend(signals, weights, biases, xs, zs);
    }
  }

  /** A signal slot no perceptron writes keeps its value. */
  lemma {:induction false} RunKeepsUnwrittenSlot(signals: seq<real>, weights: seq<real>, biases: seq<real>, ws: seq<Wiring>, j: int)
    requires AllFit(ws, |signals|, |weights|, |biases|)
    requires 0 <= j < |signals|
    requires forall i :: 0 <= i < |ws| ==> ws[i].output != j
    ensures Run(signals, weights, biases, ws)[j] == signals[j]
  {
    if ws != [] {
      RunKeepsUnwrittenSlot(signals, weights, biases, ws[..|ws| - 1], j);
    }
  }

  /** The perceptron connectom.ts wires and layer.ts evaluates. */
  datatype Perceptron = Perceptron(
    inputs: Subset<real>, output: Subset1<real>, weights: Subset<real>, bias: Subset1<real>, transfer: Transfer)
  {
    /** The slots this perceptron's views name. */
    function Wires(): Wiring {
      Wiring(inputs.indices, output.index, weights.indices, bias.index, transfer)
    }

    /** Inputs and output view the signal store, weights the weight store, bias the bias store, all in bounds. */
    predicate WiredTo(signals: Set<real>, weightStore: Set<real>, biasStore: Set<real>) {
      && inputs.source == signals && output.source == signals
      && weights.source == weightStore && bias.source == biasStore
      && Fits(Wires(), signals.data.Length, weightStore.data.Length, biasStore.data.Length)
    }
  }

  /**
   * The perceptron's `evaluate`: sums inputs times weights through
   * `forEachIndex`, then writes the transferred value to its output slot.
   */
  method EvaluatePerceptron(p: Perceptron, ghost signals: Set<real>, ghost weightStore: Set<real>, ghost biasStore: Set<real>)
    requires p.WiredTo(signals, weightStore, biasStore)
    modifies signals.data
    ensures signals.data[..] == Step(old(signals.data[..]), old(weightStore.data[..]), old(biasStore.data[..]), p.Wires())
  {
    assert p.inputs.InBounds() && p.weights.InBounds();
    var ws := p.weights.Values();
    var sum := p.inputs.ForEachIndex(Accumulate(ws), 0.0);
    AccumulateIsWeightedSum(p.inputs.Values(), ws);
    assert p.inputs.Values() == Gather(signals.data[..], p.inputs.indices);
    assert ws == Gather(weightStore.data[..], p.weights.indices);
    p.output.SetValue(p.transfer(p.bias.Value() + sum));
  }

  class Layer {
    /** A view of the network's perceptron container. */
    const perceptrons: Subset<Perceptron>

    /** The constructor asserts at least one perceptron. */
    predicate Valid() {
      perceptrons.Valid()
    }

    constructor (perceptrons: Subset<Perceptron>)
      requires perceptrons.Length() > 0
      ensures this.perceptrons == perceptrons && Valid()
    {
      this.perceptrons := perceptrons;
    }

    /** The wirings of the layer's perceptrons, in view order. */
    function Wirings(): (r: seq<Wiring>)
      reads perceptrons.source.data
      requires perceptrons.InBounds()
      ensures |r| == |perceptrons.indices|
      ensures forall k :: 0 <= k < |r| ==> r[k] == perceptrons.Values()[k].Wires()
    {
      var ps := perceptrons.Values();
      seq(|ps|, k requires 0 <= k < |ps| => ps[k].Wires())
    }

    /** Every perceptron of the layer views the three given stores, in bounds. */
    predicate WiredTo(signals: Set<real>, weightStore: Set<real>, biasStore: Set<real>)
      reads perceptrons.source.data
    {
      && perceptrons.InBounds()
      && forall k :: 0 <= k < |perceptrons.indices| ==>
           perceptrons.Values()[k].WiredTo(signals, weightStore, biasStore)
    }

    /**
     * `evaluate`: each perceptron once, in view order. The new signals are
     * those of running the layer's wirings in that order on the old ones.
     */
    method Evaluate(ghost signals: Set<real>, ghost weightStore: Set<real>, ghost biasStore: Set<real>)
      requires WiredTo(signals, weightStore, biasStore)
      requires signals.data != weightStore.data && signals.data != biasStore.data
      modifies signals.data
      ensures AllFit(Wirings(), signals.data.Length, weightStore.data.Length, biasStore.data.Length)
      ensures signals.data[..] == Run(old(signals.data[..]), weightStore.data[..], biasStore.data[..], Wirings())
    {
      ghost var ws := Wirings();
      assert AllFit(ws, signals.data.Length, weightStore.data.Length, biasStore.data.Length) by {
        forall i | 0 <= i < |ws|
          ensures Fits(ws[i], signals.data.Length, weightStore.data.Length, biasStore.data.Length)
        {
          assert perceptrons.Values()[i].WiredTo(signals, weightStore, biasStore);
        }
      }
      for k := 0 to |perceptrons.indices|
        invariant signals.data[..] == Run(old(signals.data[..]), weightStore.data[..], biasStore.data[..], ws[..k])
      {
        var p := perceptrons.Get(k);
        assert p == perceptrons.Values()[k];
        assert ws[..k + 1][..k] == ws[..k];
        EvaluatePerceptron(p, signals, weightStore, biasStore);
      }
      assert ws[..|perceptrons.indices|] == ws;
    }

    /**
     * `outputs`: the join of the perceptrons' single-slot outputs, in
     * perceptron order. Builds a new view and writes no store.
     */
    method Outputs() returns (r: Subset<real>)
      requires Valid() && perceptrons.InBounds()
      requires forall k :: 0 <= k < |perceptrons.indices| ==>
                 perceptrons.Values()[k].output.source == perceptrons.Values()[0].output.source
      ensures r.source == perceptrons.Values()[0].output.source
      ensures |r.indices| == |perceptrons.indices|
      ensures forall k :: 0 <= k < |r.indices| ==> r.indices[k] == Wirings()[k].output
    {
      var outs: seq<AnySubset<real>> := [];
      for k := 0 to |perceptrons.indices|
        invariant |outs| == k
        invariant forall i :: 0 <= i < k ==> outs[i] == One(perceptrons.Values()[i].output)
      {
        var p := perceptrons.Get(k);
        outs := outs + [One(p.output)];
      }
      JoinOfSlots(outs);
      r := Subset.Join(outs);
    }
  }
}
