/**
 * MLv0.Net `Connectom`: builds the signal, weight and bias stores, one
 * perceptron per population slot wired through views of those stores,
 * and one layer view per population entry; `evaluate` runs the layers
 * in order. The layout it builds is the one `NetTopology` describes.
 */
module NetConnectom {
  import opened Utils
  import opened Containers
  import opened NetLayer
  import opened NetTopology

  class Connectom {
    /** The population list the network was built from (not kept by the program). */
    ghost const population: seq<Population>
    const signals: Set<real>
    const biases: Set<real>
    const weights: Set<real>
    const perceptrons: Set<Perceptron>
    const layers: Set<Layer>

    /**
     * The network has the layout `NetTopology` computes: store sizes,
     * perceptron p wired as `Wirings(population)[p]`, and layer l viewing
     * perceptrons `LayerStart(l) ..` for `size[l]` slots.
     */
    ghost predicate Valid()
      reads perceptrons.data, layers.data
    {
      StoresSized() && PerceptronsWired() && LayersViewed()
    }

    /** The stores have the sizes `NetTopology` counts, and signals are kept apart from the parameters. */
    ghost predicate StoresSized() {
      && WellFormed(population)
      && signals.data.Length == SignalCount(population)
      && weights.data.Length == WeightCount(population)
      && biases.data.Length == PerceptronCount(population)
      && signals.data != weights.data && signals.data != biases.data
    }

    /** Perceptron p is wired to the stores as `Wirings(population)[p]`. */
    ghost predicate PerceptronsWired()
      reads perceptrons.data
    {
      && perceptrons.data.Length == PerceptronCount(population)
      && |Wirings(population)| == PerceptronCount(population)
      && (forall p :: 0 <= p < perceptrons.data.Length ==>
            perceptrons.data[p].WiredTo(signals, weights, biases)
            && perceptrons.data[p].Wires() == Wirings(population)[p])
    }

    /** Layer l views perceptrons `LayerStart(l) ..` for `size[l]` slots. */
    ghost predicate LayersViewed()
      reads layers.data
    {
      && layers.data.Length == |population|
      && (forall l {:trigger layers.data[l]} :: 0 <= l < layers.data.Length ==>
            layers.data[l].perceptrons.source == perceptrons
            && layers.data[l].perceptrons.indices == Range(LayerStart(population, l), population[l].size))
    }

    /**
     * `new Connectom(...population)`. The program asserts a non-empty
     * population, and `Layer` and `Subset` assert non-empty views, so every
     * layer must have at least one perceptron. Store slots the program
     * leaves `undefined` hold 0 here.
     */
    constructor (population: seq<Population>)
      requires |population| > 0
      requires forall l :: 0 <= l < |population| ==> population[l].size > 0
      ensures this.population == population && Valid()
      ensures fresh(signals.data) && fresh(weights.data) && fresh(biases.data)
      ensures fresh(perceptrons.data) && fresh(layers.data)
    {
      var perceptronCount, weightCount := Count(population);
      var signalCount := perceptronCount + population[0].size;
      var sig := new Set<real>(signalCount, 0.0);
      var bia := new Set<real>(perceptronCount, 0.0);
      var wei := new Set<real>(weightCount, 0.0);

      var ps, w, s := WireInputLayer(population, sig, wei, bia);
      var l := 1;
      while l < |population|
        invariant 1 <= l <= |population|
        invariant w == WeightStart(population, l) && s == population[0].size + LayerStart(population, l)
        invariant Wired(ps, sig, wei, bia)
        invariant Shapes(ps) == WiringsUpTo(population, l)
      {
        ps, w, s := WireLayer(population, l, ps, w, s, sig, wei, bia);
        l := l + 1;
      }
      WiringsUpToLength(population, |population|);
      var perceptronSet := new Set<Perceptron>.Of(ps);
      var ls := BuildLayers(population, perceptronSet);
      var layerSet := new Set<Layer>.Of(ls);

      this.population := population;
      signals := sig;
      biases := bia;
      weights := wei;
      perceptrons := perceptronSet;
      layers := layerSet;
      new;
      forall p | 0 <= p < perceptrons.data.Length
        ensures perceptrons.data[p].Wires() == Wirings(population)[p]
      {
        assert Shapes(ps)[p] == ps[p].Wires();
      }
    }

    /**
     * `evaluate`: the layers in order, each perceptron of a layer in view
     * order; the result is that of running every perceptron in number order.
     */
    method Evaluate()
      requires Valid()
      modifies signals.data
      ensures AllFit(Wirings(population), signals.data.Length, weights.data.Length, biases.data.Length)
      ensures signals.data[..] == Run(old(signals.data[..]), weights.data[..], biases.data[..], Wirings(population))
    {
      ghost var start, ws, bs := signals.data[..], weights.data[..], biases.data[..];
      assert WiringsUpTo(population, 0) == [];
      for i := 0 to layers.data.Length
        invariant EvaluatedUpTo(i, start, ws, bs)
      {
        EvaluateLayer(i, start, ws, bs);
      }
      assert WiringsUpTo(population, layers.data.Length) == Wirings(population);
    }

    /** The network as built, after the perceptrons of layers 0 .. i-1 ran on `start`. */
    ghost predicate EvaluatedUpTo(i: nat, start: seq<real>, ws: seq<real>, bs: seq<real>)
      reads perceptrons.data, layers.data, signals.data, weights.data, biases.data
    {
      && Valid() && i <= layers.data.Length
      && weights.data[..] == ws && biases.data[..] == bs && |start| == signals.data.Length
      && AllFit(WiringsUpTo(population, i), |start|, |ws|, |bs|)
      && signals.data[..] == Run(start, ws, bs, WiringsUpTo(population, i))
    }

    /**
     * One pass of the loop in `evaluate`: layer i runs its perceptrons on
     * the signals layers 0 .. i-1 left, and the network stays as built.
     */
    method EvaluateLayer(i: nat, ghost start: seq<real>, ghost ws: seq<real>, ghost bs: seq<real>)
      requires EvaluatedUpTo(i, start, ws, bs) && i < layers.data.Length
      modifies signals.data
      ensures EvaluatedUpTo(i + 1, start, ws, bs)
    {
      var layer := layers.Get(i);
      LayerIsTopologyLayer(i);
      RunLayer(population, start, weights.data[..], biases.data[..], i);
      layer.Evaluate(signals, weights, biases);
    }

    /** Layer i's view yields the wirings of layer i of the topology, and is wired to the stores. */
    lemma LayerIsTopologyLayer(i: nat)
      requires Valid() && i < layers.data.Length
      ensures layers.data[i].WiredTo(signals, weights, biases)
      ensures layers.data[i].Wirings() == LayerWirings(population, i)
    {
      var view := layers.data[i].perceptrons;
      LayerStartMonotone(population, i + 1, |population|);
      forall k | 0 <= k < population[i].size
        ensures view.Values()[k].Wires() == At(population, i, k)
      {
        WiringsUpToAt(population, |population|, i, k);
      }
    }
  }

  /** The counting loop of the constructor: perceptrons and weights of the whole network. */
  method Count(population: seq<Population>) returns (perceptronCount: nat, weightCount: nat)
    requires |population| > 0
    ensures perceptronCount == PerceptronCount(population)
    ensures weightCount == WeightCount(population)
  {
    perceptronCount := population[0].size;
    weightCount := population[0].size;
    WeightSlotOffset(population, 0, population[0].size);
    var l := 1;
    while l < |population|
      invariant 1 <= l <= |population|
      invariant perceptronCount == LayerStart(population, l)
      invariant weightCount == WeightStart(population, l)
    {
      WeightStartStep(population, l);
      perceptronCount := perceptronCount + population[l].size;
      weightCount := weightCount + population[l - 1].size * population[l].size;
      l := l + 1;
    }
  }

  /**
   * The input-layer loop: perceptron k reads input signal `s - size[0]`,
   * writes signal s, and uses weight w and bias k; w and s step by one.
   */
  method WireInputLayer(population: seq<Population>, sig: Set<real>, wei: Set<real>, bia: Set<real>)
    returns (ps: seq<Perceptron>, w: nat, s: nat)
    requires |population| > 0
    requires sig.data.Length == SignalCount(population)
    requires wei.data.Length == WeightCount(population)
    requires bia.data.Length == PerceptronCount(population)
    ensures w == WeightStart(population, 1) && s == population[0].size + LayerStart(population, 1)
    ensures Wired(ps, sig, wei, bia)
    ensures Shapes(ps) == WiringsUpTo(population, 1)
  {
    var layer0 := population[0].size;
    ps, w, s := [], 0, layer0;
    for k := 0 to layer0
      invariant w == WeightSlot(population, 0, k) && s == layer0 + k && |ps| == k
      invariant Wired(ps, sig, wei, bia)
      invariant Shapes(ps) == LayerWirings(population, 0)[..k]
    {
      var p := InputPerceptron(population, k, w, s, sig, wei, bia);
      assert LayerWirings(population, 0)[..k + 1] == LayerWirings(population, 0)[..k] + [At(population, 0, k)];
      WiredAppend(ps, p, sig, wei, bia);
      ps := ps + [p];
      w, s := w + 1, s + 1;
    }
    assert LayerWirings(population, 0)[..layer0] == LayerWirings(population, 0);
    assert WiringsUpTo(population, 1) == [] + LayerWirings(population, 0);
  }

  /**
   * One pass of the later-layer loop: every perceptron of layer l shares
   * one view of the previous layer's outputs, takes its own output slot s
   * and bias, and the next `size[l-1]` weights from w.
   */
  method WireLayer(population: seq<Population>, l: nat, ps: seq<Perceptron>, w: nat, s: nat,
                   sig: Set<real>, wei: Set<real>, bia: Set<real>)
    returns (ps': seq<Perceptron>, w': nat, s': nat)
    requires 1 <= l < |population| && population[l - 1].size > 0
    requires sig.data.Length == SignalCount(population)
    requires wei.data.Length == WeightCount(population)
    requires bia.data.Length == PerceptronCount(population)
    requires w == WeightStart(population, l) && s == population[0].size + LayerStart(population, l)
    requires Wired(ps, sig, wei, bia)
    requires Shapes(ps) == WiringsUpTo(population, l)
    ensures w' == WeightStart(population, l + 1) && s' == population[0].size + LayerStart(population, l + 1)
    ensures Wired(ps', sig, wei, bia)
    ensures Shapes(ps') == WiringsUpTo(population, l + 1)
  {
    var prev := population[l - 1].size;
    var width := population[l].size;
    if width > 0 {
      AtFits(population, l, 0);
    }
    var first := population[0].size + LayerStart(population, l - 1);
    assert AllIn(Range(first, prev), sig.data.Length) by {
      LayerStartMonotone(population, l, |population|);
    }
    var inputs := sig.GetSubset(Range(first, prev));
    ps', w', s' := ps, w, s;
    for k := 0 to width
      invariant LayerProgress(population, l, k, ps, ps', w', s', sig, wei, bia)
    {
      ps', w', s' := WireNext(population, l, k, inputs, ps, ps', w', s', sig, wei, bia);
    }
    assert LayerWirings(population, l)[..width] == LayerWirings(population, l);
  }

  /**
   * The later-layer loop after k perceptrons of layer l: the counters
   * stand at perceptron k, and the new perceptrons are wired as the first
   * k wirings of the layer.
   */
  ghost predicate LayerProgress(population: seq<Population>, l: nat, k: nat, ps: seq<Perceptron>, ps': seq<Perceptron>,
                                w': nat, s': nat, sig: Set<real>, wei: Set<real>, bia: Set<real>)
  {
    && 1 <= l < |population| && k <= population[l].size
    && w' == WeightSlot(population, l, k)
    && s' == population[0].size + LayerStart(population, l) + k
    && |ps'| == |ps| + k
    && Wired(ps', sig, wei, bia)
    && Shapes(ps') == Shapes(ps) + LayerWirings(population, l)[..k]
  }

  /** One pass of the later-layer loop: wire perceptron k of layer l and step the counters. */
  method WireNext(population: seq<Population>, l: nat, k: nat, inputs: Subset<real>,
                  ghost ps: seq<Perceptron>, ps': seq<Perceptron>, w': nat, s': nat,
                  sig: Set<real>, wei: Set<real>, bia: Set<real>)
    returns (ps'': seq<Perceptron>, w'': nat, s'': nat)
    requires LayerProgress(population, l, k, ps, ps', w', s', sig, wei, bia)
    requires k < population[l].size && population[l - 1].size > 0
    requires sig.data.Length == SignalCount(population)
    requires wei.data.Length == WeightCount(population)
    requires bia.data.Length == PerceptronCount(population)
    requires inputs.source == sig
    requires inputs.indices == Range(population[0].size + LayerStart(population, l - 1), population[l - 1].size)
    ensures LayerProgress(population, l, k + 1, ps, ps'', w'', s'', sig, wei, bia)
  {
    var p := LayerPerceptron(population, l, k, inputs, w', s', sig, wei, bia);
    assert LayerWirings(population, l)[..k + 1] == LayerWirings(population, l)[..k] + [At(population, l, k)];
    WiredAppend(ps', p, sig, wei, bia);
    ps'' := ps' + [p];
    w'', s'' := w' + population[l - 1].size, s' + 1;
  }

  /** Perceptron k of the input layer: input signal `s - size[0]`, output signal s, weight w, bias k. */
  method InputPerceptron(population: seq<Population>, k: nat, w: nat, s: nat, sig: Set<real>, wei: Set<real>, bia: Set<real>)
    returns (p: Perceptron)
    requires |population| > 0 && k < population[0].size
    requires sig.data.Length == SignalCount(population)
    requires wei.data.Length == WeightCount(population)
    requires bia.data.Length == PerceptronCount(population)
    requires w == WeightSlot(population, 0, k) && s == population[0].size + k
    ensures p.WiredTo(sig, wei, bia) && p.Wires() == At(population, 0, k)
  {
    AtFits(population, 0, k);
    assert Range(w, 1) == [w];
    var input := sig.GetSubset([s - population[0].size]);
    var output := sig.GetSubset1(s);
    var weight := wei.GetSubset([w]);
    var bias := bia.GetSubset1(k);
    p := Perceptron(input, output, weight, bias, population[0].transfer);
  }

  /**
   * Perceptron k of layer l: the shared view of the previous layer's
   * outputs, its own output slot and bias, and `size[l-1]` weights.
   */
  method LayerPerceptron(population: seq<Population>, l: nat, k: nat, inputs: Subset<real>, w: nat, s: nat,
                         sig: Set<real>, wei: Set<real>, bia: Set<real>)
    returns (p: Perceptron)
    requires 1 <= l < |population| && k < population[l].size && population[l - 1].size > 0
    requires sig.data.Length == SignalCount(population)
    requires wei.data.Length == WeightCount(population)
    requires bia.data.Length == PerceptronCount(population)
    requires inputs.source == sig
    requires inputs.indices == Range(population[0].size + LayerStart(population, l - 1), population[l - 1].size)
    requires w == WeightSlot(population, l, k) && s == population[0].size + LayerStart(population, l) + k
    ensures p.WiredTo(sig, wei, bia) && p.Wires() == At(population, l, k)
  {
    AtFits(population, l, k);
    var output := sig.GetSubset1(s);
    var weight := wei.GetSubset(Range(w, population[l - 1].size));
    var bias := bia.GetSubset1(LayerStart(population, l) + k);
    p := Perceptron(inputs, output, weight, bias, population[l].transfer);
  }

  /** The layer loop: layer l views perceptrons `LayerStart(l) ..` for `size[l]` slots. */
  method BuildLayers(population: seq<Population>, perceptronSet: Set<Perceptron>) returns (ls: seq<Layer>)
    requires forall l :: 0 <= l < |population| ==> population[l].size > 0
    requires perceptronSet.data.Length == PerceptronCount(population)
    ensures |ls| == |population|
    ensures forall j {:trigger ls[j]} :: 0 <= j < |ls| ==>
              ls[j].perceptrons.source == perceptronSet
              && ls[j].perceptrons.indices == Range(LayerStart(population, j), population[j].size)
  {
    ls := [];
    var start := 0;
    for i := 0 to |population|
      invariant start == LayerStart(population, i) && |ls| == i
      invariant forall j {:trigger ls[j]} :: 0 <= j < i ==>
                  ls[j].perceptrons.source == perceptronSet
                  && ls[j].perceptrons.indices == Range(LayerStart(population, j), population[j].size)
    {
      var count := population[i].size;
      var slots := Range(start, count);
      LayerSlotsInBounds(population, i);
      var view := perceptronSet.GetSubset(slots);
      var layer := new Layer(view);
      ls := ls + [layer];
      start := start + count;
    }
  }

  /** Every perceptron built so far views the three stores, in bounds. */
  predicate Wired(ps: seq<Perceptron>, signals: Set<real>, weightStore: Set<real>, biasStore: Set<real>) {
    forall i :: 0 <= i < |ps| ==> ps[i].WiredTo(signals, weightStore, biasStore)
  }

  /** The wirings of a list of perceptrons. */
  function Shapes(ps: seq<Perceptron>): (r: seq<Wiring>)
    ensures |r| == |ps|
    ensures forall i :: 0 <= i < |ps| ==> r[i] == ps[i].Wires()
  {
    seq(|ps|, i requires 0 <= i < |ps| => ps[i].Wires())
  }

  /** Adding a wired perceptron keeps the list wired and appends its wiring. */
  lemma WiredAppend(ps: seq<Perceptron>, p: Perceptron, signals: Set<real>, weightStore: Set<real>, biasStore: Set<real>)
    requires Wired(ps, signals, weightStore, biasStore) && p.WiredTo(signals, weightStore, biasStore)
    ensures Wired(ps + [p], signals, weightStore, biasStore)
    ensures Shapes(ps + [p]) == Shapes(ps) + [p.Wires()]
  {
    assert forall i :: 0 <= i < |ps| ==> (ps + [p])[i] == ps[i];
  }
}
