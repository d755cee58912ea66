/**
 * How connectom.ts lays a network out, as functions of the population
 * list: how large the signal, weight and bias stores are, and which slots
 * each perceptron's views name. Signals hold the input block (one slot per
 * input-layer perceptron) followed by one output slot per perceptron;
 * perceptrons are numbered layer by layer.
 */
module NetTopology {
  import opened Utils
  import opened Containers
  import opened NetLayer

  /** `Population` in types.ts: a layer's width and its transfer function. */
  datatype Population = Population(size: nat, transfer: Transfer)

  /** The sizes connectom.ts requires: at least one layer. */
  predicate WellFormed(pop: seq<Population>) {
    |pop| > 0
  }

  /** Perceptrons in layers 0 .. l-1, i.e. the number of the first perceptron of layer l. */
  function LayerStart(pop: seq<Population>, l: nat): nat
    requires l <= |pop|
  {
    if l == 0 then 0 else LayerStart(pop, l - 1) + pop[l - 1].size
  }

  /** Inputs per perceptron of layer l: one for the input layer, the previous width otherwise. */
  function FanIn(pop: seq<Population>, l: nat): nat
    requires l < |pop|
  {
    if l == 0 then 1 else pop[l - 1].size
  }

  /** Weights used by layers 0 .. l-1, i.e. the first weight slot of layer l. */
  function WeightStart(pop: seq<Population>, l: nat): nat
    requires l <= |pop|
    decreases l, 0
  {
    if l == 0 then 0 else WeightSlot(pop, l - 1, pop[l - 1].size)
  }

  /**
   * The constructor's weight counter `w` when it reaches perceptron k of
   * layer l: it starts the layer at `WeightStart(l)` and steps by `FanIn(l)`.
   */
  function WeightSlot(pop: seq<Population>, l: nat, k: nat): nat
    requires l < |pop|
    decreases l, k + 1
  {
    if k == 0 then WeightStart(pop, l) else WeightSlot(pop, l, k - 1) + FanIn(pop, l)
  }

  function PerceptronCount(pop: seq<Population>): nat {
    LayerStart(pop, |pop|)
  }

  function WeightCount(pop: seq<Population>): nat {
    WeightStart(pop, |pop|)
  }

  function SignalCount(pop: seq<Population>): nat
    requires WellFormed(pop)
  {
    PerceptronCount(pop) + pop[0].size
  }

  /** The layer starts never decrease. */
  lemma {:induction false} LayerStartMonotone(pop: seq<Population>, i: nat, j: nat)
    requires i <= j <= |pop|
    ensures LayerStart(pop, i) <= LayerStart(pop, j)
  {
    if i < j {
      LayerStartMonotone(pop, i, j - 1);
    }
  }

  /** The weight starts never decrease. */
  lemma {:induction false} WeightStartMonotone(pop: seq<Population>, i: nat, j: nat)
    requires i <= j <= |pop|
    ensures WeightStart(pop, i) <= WeightStart(pop, j)
  {
    if i < j {
      WeightStartMonotone(pop, i, j - 1);
      WeightSlotMonotone(pop, j - 1, 0, pop[j - 1].size);
    }
  }

  /** The counter never decreases within a layer. */
  lemma {:induction false} WeightSlotMonotone(pop: seq<Population>, l: nat, i: nat, j: nat)
    requires l < |pop| && i <= j
    ensures WeightSlot(pop, l, i) <= WeightSlot(pop, l, j)
  {
    if i < j {
      WeightSlotMonotone(pop, l, i, j - 1);
    }
  }

  /** After k perceptrons of layer l the counter has moved on by `k·FanIn(l)`. */
  lemma {:induction false} WeightSlotOffset(pop: seq<Population>, l: nat, k: nat)
    requires l < |pop|
    ensures WeightSlot(pop, l, k) == WeightStart(pop, l) + k * FanIn(pop, l)
  {
    if k > 0 {
      WeightSlotOffset(pop, l, k - 1);
      assert (k - 1) * FanIn(pop, l) + FanIn(pop, l) == k * FanIn(pop, l);
    }
  }

  /**
   * The counting loop of the constructor: `size[0]` weights for the input
   * layer, then `size[l-1]·size[l]` for each later layer.
   */
  lemma WeightStartStep(pop: seq<Population>, l: nat)
    requires 1 <= l < |pop|
    ensures WeightStart(pop, 1) == pop[0].size
    ensures WeightStart(pop, l + 1) == WeightStart(pop, l) + pop[l - 1].size * pop[l].size
  {
    WeightSlotOffset(pop, 0, pop[0].size);
    WeightSlotOffset(pop, l, pop[l].size);
  }

  /**
   * The network main.ts builds: 12·12 sensor inputs, hidden layers of 51
   * and 31, and 10 outputs, whatever the transfer functions.
   */
  lemma MainNetworkCounts(step: Transfer, sigmoid: Transfer)
    ensures var pop := [Population(144, step), Population(51, step), Population(31, step), Population(10, sigmoid)];
      PerceptronCount(pop) == 236 && WeightCount(pop) == 9379 && SignalCount(pop) == 380
  {
    var pop := [Population(144, step), Population(51, step), Population(31, step), Population(10, sigmoid)];
    assert LayerStart(pop, 1) == 144;
    assert LayerStart(pop, 2) == 195;
    assert LayerStart(pop, 3) == 226;
    WeightStartStep(pop, 1);
    WeightStartStep(pop, 2);
    WeightStartStep(pop, 3);
  }

  /** Layer sizes 3, 2, 2: 7 perceptrons and biases, 13 weights, 10 signals. */
  lemma ThreeTwoTwoCounts(t: Transfer)
    ensures var pop := [Population(3, t), Population(2, t), Population(2, t)];
      PerceptronCount(pop) == 7 && WeightCount(pop) == 13 && SignalCount(pop) == 10
  {
    var pop := [Population(3, t), Population(2, t), Population(2, t)];
    assert LayerStart(pop, 1) == 3 && LayerStart(pop, 2) == 5;
    WeightSlotOffset(pop, 0, 3);
    WeightSlotOffset(pop, 1, 2);
    WeightSlotOffset(pop, 2, 2);
  }

  /** Perceptron k of layer l as the constructor wires it. */
  function At(pop: seq<Population>, l: nat, k: nat): Wiring
    requires l < |pop| && k < pop[l].size
  {
    var n0 := pop[0].size;
    var fan := FanIn(pop, l);
    Wiring(
      if l == 0 then [k] else Range(n0 + LayerStart(pop, l - 1), fan),
      n0 + LayerStart(pop, l) + k,
      Range(WeightSlot(pop, l, k), fan),
      LayerStart(pop, l) + k,
      pop[l].transfer)
  }

  /** The wirings of layer l, in perceptron order. */
  function LayerWirings(pop: seq<Population>, l: nat): (r: seq<Wiring>)
    requires l < |pop|
    ensures |r| == pop[l].size
    ensures forall k :: 0 <= k < |r| ==> r[k] == At(pop, l, k)
  {
    seq(pop[l].size, k requires 0 <= k < pop[l].size => At(pop, l, k))
  }

  /** The wirings of layers 0 .. l-1, layer after layer. */
  function WiringsUpTo(pop: seq<Population>, l: nat): seq<Wiring>
    requires l <= |pop|
  {
    if l == 0 then [] else WiringsUpTo(pop, l - 1) + LayerWirings(pop, l - 1)
  }

  /** The wirings of the whole network, indexed by perceptron number. */
  function Wirings(pop: seq<Population>): seq<Wiring> {
    WiringsUpTo(pop, |pop|)
  }

  /** A perceptron of an earlier layer is numbered below the start of a later one. */
  lemma LayerStartBound(pop: seq<Population>, m: nat, l: nat, k: nat)
    requires m < l <= |pop| && k < pop[m].size
    ensures LayerStart(pop, m) + k < LayerStart(pop, l)
  {
    LayerStartMonotone(pop, m + 1, l);
  }

  /** Layers 0 .. l-1 hold `LayerStart(l)` perceptrons. */
  lemma {:induction false} WiringsUpToLength(pop: seq<Population>, l: nat)
    requires l <= |pop|
    ensures |WiringsUpTo(pop, l)| == LayerStart(pop, l)
  {
    if l > 0 {
      WiringsUpToLength(pop, l - 1);
    }
  }

  /** Perceptron `LayerStart(m) + k` is perceptron k of layer m. */
  lemma {:induction false} WiringsUpToAt(pop: seq<Population>, l: nat, m: nat, k: nat)
    requires m < l <= |pop| && k < pop[m].size
    ensures |WiringsUpTo(pop, l)| == LayerStart(pop, l)
    ensures LayerStart(pop, m) + k < |WiringsUpTo(pop, l)|
    ensures WiringsUpTo(pop, l)[LayerStart(pop, m) + k] == At(pop, m, k)
  {
    var prefix := WiringsUpTo(pop, l - 1);
    var last := LayerWirings(pop, l - 1);
    assert WiringsUpTo(pop, l) == prefix + last;
    WiringsUpToLength(pop, l - 1);
    var p := LayerStart(pop, m) + k;
    if m < l - 1 {
      WiringsUpToAt(pop, l - 1, m, k);
      assert prefix[p] == At(pop, m, k);
      assert WiringsUpTo(pop, l)[p] == prefix[p];
    } else {
      assert p - |prefix| == k;
      assert last[k] == At(pop, m, k);
      assert WiringsUpTo(pop, l)[p] == last[k];
    }
  }

  /** Every slot perceptron k of layer l names exists in stores of the counted sizes. */
  lemma AtFits(pop: seq<Population>, l: nat, k: nat)
    requires WellFormed(pop) && l < |pop| && k < pop[l].size
    ensures Fits(At(pop, l, k), SignalCount(pop), WeightCount(pop), PerceptronCount(pop))
  {
    LayerStartMonotone(pop, l + 1, |pop|);
    WeightStartMonotone(pop, l + 1, |pop|);
    WeightSlotMonotone(pop, l, k + 1, pop[l].size);
    if l > 0 {
      LayerStartMonotone(pop, l, |pop|);
    }
  }

  /** Every perceptron fits the stores the constructor allocates. */
  lemma AllWiringsFit(pop: seq<Population>)
    requires WellFormed(pop)
    ensures AllFit(Wirings(pop), SignalCount(pop), WeightCount(pop), PerceptronCount(pop))
  {
    var ws := Wirings(pop);
    WiringsUpToLength(pop, |pop|);
    forall p | 0 <= p < |ws|
      ensures Fits(ws[p], SignalCount(pop), WeightCount(pop), PerceptronCount(pop))
    {
      var l, k := WiringNumber(pop, p);
      AtFits(pop, l, k);
    }
  }

  /** Perceptron p of the network is perceptron k of some layer l. */
  lemma WiringNumber(pop: seq<Population>, p: nat) returns (l: nat, k: nat)
    requires p < PerceptronCount(pop)
    ensures l < |pop| && k < pop[l].size && p == LayerStart(pop, l) + k
    ensures |Wirings(pop)| == PerceptronCount(pop) && Wirings(pop)[p] == At(pop, l, k)
  {
    l, k := LayerOf(pop, |pop|, p);
    WiringsUpToAt(pop, |pop|, l, k);
  }

  /** The layer and position of perceptron p among layers 0 .. n-1. */
  lemma {:induction false} LayerOf(pop: seq<Population>, n: nat, p: nat) returns (l: nat, k: nat)
    requires n <= |pop| && p < LayerStart(pop, n)
    ensures l < n && k < pop[l].size && p == LayerStart(pop, l) + k
  {
    if p >= LayerStart(pop, n - 1) {
      l, k := n - 1, p - LayerStart(pop, n - 1);
    } else {
      l, k := LayerOf(pop, n - 1, p);
    }
  }

  /**
   * Perceptron p writes signal `size[0] + p` and uses bias p: outputs follow
   * the input block in perceptron order, so no two perceptrons share an
   * output slot or a bias, and no perceptron writes an input slot.
   */
  lemma OutputAndBiasSlots(pop: seq<Population>)
    requires WellFormed(pop)
    ensures |Wirings(pop)| == PerceptronCount(pop)
    ensures forall p :: 0 <= p < |Wirings(pop)| ==>
              Wirings(pop)[p].output == pop[0].size + p && Wirings(pop)[p].bias == p
  {
    WiringsUpToLength(pop, |pop|);
    forall p | 0 <= p < |Wirings(pop)|
      ensures Wirings(pop)[p].output == pop[0].size + p && Wirings(pop)[p].bias == p
    {
      var l, k := WiringNumber(pop, p);
    }
  }

  /** Input-layer perceptron k reads input signal k, writes signal `size[0] + k`, and uses weight k and bias k. */
  lemma InputLayerWiring(pop: seq<Population>, k: nat)
    requires WellFormed(pop) && k < pop[0].size
    ensures |Wirings(pop)| == PerceptronCount(pop) && k < |Wirings(pop)|
    ensures Wirings(pop)[k] == Wiring([k], pop[0].size + k, [k], k, pop[0].transfer)
  {
    WiringsUpToAt(pop, |pop|, 0, k);
    WeightSlotOffset(pop, 0, k);
    assert Range(k, 1) == [k];
  }

  /**
   * Perceptron k of a later layer l reads exactly the output slots of
   * layer l-1, in order, and takes the `size[l-1]` weights that follow
   * those of perceptron k-1.
   */
  lemma HiddenLayerWiring(pop: seq<Population>, l: nat, k: nat)
    requires 1 <= l < |pop| && k < pop[l].size
    ensures |At(pop, l, k).inputs| == pop[l - 1].size
    ensures forall j :: 0 <= j < pop[l - 1].size ==> At(pop, l, k).inputs[j] == At(pop, l - 1, j).output
    ensures At(pop, l, k).weights == Range(WeightStart(pop, l) + k * pop[l - 1].size, pop[l - 1].size)
  {
    WeightSlotOffset(pop, l, k);
  }

  /** Every perceptron reads only signals below its own output slot: the network is feed-forward. */
  lemma FeedForward(pop: seq<Population>, l: nat, k: nat)
    requires l < |pop| && k < pop[l].size
    ensures forall j :: 0 <= j < |At(pop, l, k).inputs| ==> At(pop, l, k).inputs[j] < At(pop, l, k).output
  {
    if l > 0 {
      assert LayerStart(pop, l) == LayerStart(pop, l - 1) + pop[l - 1].size;
    }
  }

  /** The weight slots of wirings, concatenated in order. */
  function WeightSlots(ws: seq<Wiring>): seq<int> {
    if ws == [] then [] else WeightSlots(ws[..|ws| - 1]) + ws[|ws| - 1].weights
  }

  lemma {:induction false} WeightSlotsAppend(xs: seq<Wiring>, ys: seq<Wiring>)
    ensures WeightSlots(xs + ys) == WeightSlots(xs) + WeightSlots(ys)
  {
    if ys == [] {
      assert xs + ys == xs;
    } else {
      assert (xs + ys)[..|xs + ys| - 1] == xs + ys[..|ys| - 1];
      WeightSlotsAppend(xs, ys[..|ys| - 1]);
    }
  }

  /** `s` counts up by one from `from`. */
  predicate Consecutive(s: seq<int>, from: int) {
    forall i :: 0 <= i < |s| ==> s[i] == from + i
  }

  /** A run that picks up where another ends continues it. */
  lemma ConsecutiveAppend(a: seq<int>, b: seq<int>, from: int)
    requires Consecutive(a, from) && Consecutive(b, from + |a|)
    ensures Consecutive(a + b, from)
  {
    forall i | 0 <= i < |a + b|
      ensures (a + b)[i] == from + i
    {
      if i >= |a| {
        assert (a + b)[i] == b[i - |a|];
      }
    }
  }

  /** A run is the range of its length. */
  lemma ConsecutiveIsRange(s: seq<int>, from: int)
    requires Consecutive(s, from)
    ensures s == Range(from, |s|)
  {
  }

  /** The first k perceptrons of layer l use the weights from `WeightStart(l)` up to the counter. */
  lemma {:induction false} LayerWeightSlots(pop: seq<Population>, l: nat, k: nat)
    requires l < |pop| && k <= pop[l].size
    ensures |WeightSlots(LayerWirings(pop, l)[..k])| == WeightSlot(pop, l, k) - WeightStart(pop, l)
    ensures Consecutive(WeightSlots(LayerWirings(pop, l)[..k]), WeightStart(pop, l))
  {
    if k == 0 {
      assert LayerWirings(pop, l)[..0] == [];
    } else {
      var ws := LayerWirings(pop, l)[..k];
      var earlier := LayerWirings(pop, l)[..k - 1];
      assert ws[..|ws| - 1] == earlier;
      LayerWeightSlots(pop, l, k - 1);
      ConsecutiveAppend(WeightSlots(earlier), ws[k - 1].weights, WeightStart(pop, l));
    }
  }

  /** A block that follows a tiled prefix extends the tiling. */
  lemma TileStep(earlier: seq<Wiring>, layer: seq<Wiring>)
    requires Consecutive(WeightSlots(earlier), 0)
    requires Consecutive(WeightSlots(layer), |WeightSlots(earlier)|)
    ensures Consecutive(WeightSlots(earlier + layer), 0)
    ensures |WeightSlots(earlier + layer)| == |WeightSlots(earlier)| + |WeightSlots(layer)|
  {
    WeightSlotsAppend(earlier, layer);
    ConsecutiveAppend(WeightSlots(earlier), WeightSlots(layer), 0);
  }

  /** Layers 0 .. l-1 use weights 0 .. WeightStart(l)-1, in perceptron order. */
  lemma {:induction false} WeightsTileUpTo(pop: seq<Population>, l: nat)
    requires l <= |pop|
    ensures |WeightSlots(WiringsUpTo(pop, l))| == WeightStart(pop, l)
    ensures Consecutive(WeightSlots(WiringsUpTo(pop, l)), 0)
  {
    if l > 0 {
      var earlier, layer := WiringsUpTo(pop, l - 1), LayerWirings(pop, l - 1);
      WeightsTileUpTo(pop, l - 1);
      LayerBlock(pop, l);
      TileStep(earlier, layer);
      var a, b := |WeightSlots(earlier)|, |WeightSlots(layer)|;
      assert a == WeightStart(pop, l - 1);
      assert b == WeightStart(pop, l) - WeightStart(pop, l - 1);
      assert WiringsUpTo(pop, l) == earlier + layer;
    }
  }

  /** The whole of layer l - 1 uses the weights from `WeightStart(l - 1)` up to `WeightStart(l)`. */
  lemma LayerBlock(pop: seq<Population>, l: nat)
    requires 0 < l <= |pop|
    ensures |WeightSlots(LayerWirings(pop, l - 1))| == WeightStart(pop, l) - WeightStart(pop, l - 1)
    ensures Consecutive(WeightSlots(LayerWirings(pop, l - 1)), WeightStart(pop, l - 1))
  {
    var layer, n := LayerWirings(pop, l - 1), pop[l - 1].size;
    LayerWeightSlots(pop, l - 1, n);
    assert layer[..n] == layer;
  }

  /**
   * The weight views tile the weight store: concatenated in perceptron
   * order they are slots 0, 1, ..., WeightCount - 1, each exactly once.
   */
  lemma WeightsTile(pop: seq<Population>)
    ensures WeightSlots(Wirings(pop)) == Range(0, WeightCount(pop))
  {
    WeightsTileUpTo(pop, |pop|);
    ConsecutiveIsRange(WeightSlots(Wirings(pop)), 0);
  }

  /** Layer i's view of the perceptron container stays inside it. */
  lemma LayerSlotsInBounds(pop: seq<Population>, i: nat)
    requires i < |pop|
    ensures AllIn(Range(LayerStart(pop, i), pop[i].size), PerceptronCount(pop))
  {
    LayerStartMonotone(pop, i + 1, |pop|);
  }

  /** The perceptron ranges of the layers, concatenated in order. */
  function LayerRanges(pop: seq<Population>, l: nat): seq<int>
    requires l <= |pop|
  {
    if l == 0 then [] else LayerRanges(pop, l - 1) + Range(LayerStart(pop, l - 1), pop[l - 1].size)
  }

  /** The layers' views tile the perceptron container: together they are perceptrons 0 .. count-1, in order. */
  lemma {:induction false} LayersTile(pop: seq<Population>, l: nat)
    requires l <= |pop|
    ensures LayerRanges(pop, l) == Range(0, LayerStart(pop, l))
  {
    if l > 0 {
      LayersTile(pop, l - 1);
      RangeSplit(0, LayerStart(pop, l - 1), pop[l - 1].size);
    }
  }

  /** Running layers 0 .. i is running layers 0 .. i-1, then layer i. */
  lemma RunLayer(pop: seq<Population>, signals: seq<real>, weights: seq<real>, biases: seq<real>, i: nat)
    requires WellFormed(pop) && i < |pop|
    requires |signals| == SignalCount(pop) && |weights| == WeightCount(pop) && |biases| == PerceptronCount(pop)
    requires AllFit(WiringsUpTo(pop, i), |signals|, |weights|, |biases|)
    ensures AllFit(LayerWirings(pop, i), |signals|, |weights|, |biases|)
    ensures AllFit(WiringsUpTo(pop, i + 1), |signals|, |weights|, |biases|)
    ensures Run(signals, weights, biases, WiringsUpTo(pop, i + 1))
         == Run(Run(signals, weights, biases, WiringsUpTo(pop, i)), weights, biases, LayerWirings(pop, i))
  {
    forall k | 0 <= k < pop[i].size
      ensures Fits(LayerWirings(pop, i)[k], |signals|, |weights|, |biases|)
    {
      AtFits(pop, i, k);
    }
    RunAppend(signals, weights, biases, WiringsUpTo(pop, i), LayerWirings(pop, i));
  }

  /**
   * Evaluating the whole network never changes the input block: every
   * output slot lies past it.
   */
  lemma RunKeepsInputs(pop: seq<Population>, signals: seq<real>, weights: seq<real>, biases: seq<real>, j: nat)
    requires WellFormed(pop)
    requires |signals| == SignalCount(pop) && |weights| == WeightCount(pop) && |biases| == PerceptronCount(pop)
    requires j < pop[0].size
    ensures AllFit(Wirings(pop), |signals|, |weights|, |biases|)
    ensures Run(signals, weights, biases, Wirings(pop))[j] == signals[j]
  {
    AllWiringsFit(pop);
    OutputAndBiasSlots(pop);
    RunKeepsUnwrittenSlot(signals, weights, biases, Wirings(pop), j);
  }
}
