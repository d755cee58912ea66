# MLv0 core, modelled in Dafny

MLv0 is a browser toy that trains a small feed-forward classifier of
handwritten digits with a genetic algorithm instead of back-propagation.
This project models the engine underneath it and proves properties of the model:

- **Indexed containers and views** (`MLv0.Core`). `Set` and `DataSet` are
  fixed-length stores. `Subset`, `Subset1` and `DataSubset` are views that
  list global slots of a store, so a write through one view is seen through
  every view that lists the same slot. Modules `Containers` and `DataContainers`:
  - each store is a class over an `array`;
  - each view is a class holding its store and a `seq<int>` of indices;
  - every `assert` that aborts an operation is a `requires`.
- **Network wiring** (`MLv0.Net`).
  - `Connectom` counts perceptrons, weights and signals from the layer sizes.
  - It hands each perceptron views of those stores, advancing the counters
    `w` and `s`, and groups the perceptrons into one `Layer` view per layer.
  - `evaluate` runs the layers in order.
  - Module `NetTopology` describes the layout as functions of the layer sizes
    and proves its facts:
    - the counting formulas;
    - bounds;
    - the weight ranges tile the weight store;
    - one output slot and one bias per perceptron;
    - the network is feed-forward.
  - Module `NetConnectom` is the imperative constructor and `evaluate`, proved
    to build and run exactly that layout.
  - `NetLayer` has the `Layer` class and the five-argument perceptron it
    evaluates.
  - `NetPerceptron` is the four-argument threshold perceptron of
    perceptron.ts. Its `evaluate` is modelled twice. `EvaluateAsWritten`
    writes through `DataSubset.setAll` as written, which fills backing
    slots 0 .. |outputs|-1. `Evaluate` uses the intended `setAll`, which
    fills the slots the output view lists.
- **Genetic algorithm** (`MLv0.GA`). Modules `GaGen`, `GaGenome` and `GaGeneration`:
  - `Gen` is an immutable gene;
  - `Genome` carries a rank with a "not ranked yet" marker;
  - `Generation.newGeneration` sorts by rank, drops the worse half, and
    refills the population by breeding neighbours of the growing array.
    Crossover and mutation are function parameters.
- **Utilities** (`MLv0.Utils`, `heaviside`). Modules `Utils` and
  `StepFunction` cover `range`, `deduplicate` and the step function.
- **Sample-file reader** (`MLv0.IO/dataset.ts` and its twin
  `MLv0.UI/input_file.ts`). Module `SampleText` holds the shared layout.
  Modules `IoDataSet` and `UiInputFile` hold the two classes, each with its
  own in-place `trimLast`.
  - The text is split into lines and trailing blank lines are dropped.
  - Line 0 is a header.
  - Each sample is a label line followed by `height` rows of `width`
    pixel values.
- **Decisions in main.ts** (module `MainModel`):
  - `predictedValue`: the arg-max, `null` on a tied maximum;
  - `crossFunction`;
  - accepting stored genomes;
  - the running `rightPredicted` counter.

The shown files come from different revisions of the repository. Each file
is modelled against its own visible interface:

- set.ts has only a size-taking constructor. connectom.ts passes arrays, so
  `Containers.Set.Of` models the store built from a list of items.
- perceptron.ts defines a four-argument `Perceptron` over `DataSubset` views,
  modelled as `NetPerceptron.Perceptron`.
- connectom.ts and layer.ts use a five-argument perceptron with an `output`
  view. That perceptron's source is not part of this model. It is
  `NetLayer.Perceptron`, and its `evaluate` writes
  `transfer(bias + Σ inputs·weights)` to its output slot.
- connectom.ts (lines 43, 45, 65 and 67) calls `getSubset1` on the signal and
  bias stores with in-bounds indices, and its `evaluate` reads
  `this._layers.length` (line 88), which set.ts does not define. The
  `Connectom` model uses the intended `Containers.Set.GetSubset1` and the
  store's length. Against set.ts:26 as written, the first such call fails
  its assert, so `new Connectom` aborts at its first perceptron.

Throughout the model, a failing `assert` and a runtime error that the code
would throw both become a `requires`. An example of the second kind is
`trimLast` reading `list[-1]` after it has emptied an all-blank list.

`join` concatenates the operands' indices and keeps duplicates
(`Containers.JoinKeepsDuplicates`).

The counter rule in main.ts penalises a prediction that is `undefined`.
`predictedValue` answers `null` on a tie and returns `undefined` only for an
empty output view, so with the network's non-empty output layer the penalty
never applies. `MainModel.NoPenaltyWithoutUndefined` states the consequence:
the counter equals the number of right predictions.

## Model

| member | source | states |
|---|---|---|
| StepFunction.Heaviside | MLv0.Core/heaviside.ts:7-10 | the result is 0 or 1, and it is 1 exactly when the argument is positive |
| StepFunction.HeavisideMonotone | MLv0.Core/heaviside.ts:9 | the step never decreases as its argument grows |
| StepFunction.HeavisideOfNonPositive | MLv0.Core/heaviside.ts:9 | zero and every negative argument map to 0 |
| Utils.Range | MLv0.Utils/range.ts:4-7 | `range(start, count)` has `count` entries and entry i is `start + i` |
| Utils.RangeSteps | MLv0.Utils/range.ts:6 | neighbouring entries of a range differ by exactly one |
| Utils.RangeEmpty | MLv0.Utils/range.ts:6 | a range of count 0 is empty |
| Utils.RangeSplit | MLv0.Utils/range.ts:6 | a range of m entries followed by the range that continues it for n entries is the range of m + n entries |
| Utils.Deduplicate | MLv0.Utils/deduplicate.ts:4-7 | the result has no duplicates; it holds every input value, and only input values; it is no longer than the input |
| Utils.DeduplicateKeepsFirstOccurrenceOrder | MLv0.Utils/deduplicate.ts:6 | values come out in the order of their first occurrence in the input, as a JavaScript `Set` iterates them |
| Utils.DeduplicateIdempotent | MLv0.Utils/deduplicate.ts:6 | deduplicating twice gives the same list as deduplicating once |
| Utils.DeduplicateOfDistinct | MLv0.Utils/deduplicate.ts:6 | a list without duplicates comes back unchanged |
| Containers.FoldIndexedVisitsInOrder | MLv0.Core/subset.ts:47-51 | a callback that records its calls under `forEachIndex` sees value i at position i, for every i in order |
| Containers.Set.constructor | MLv0.Core/set.ts:11-14 | a fresh store of exactly `size` slots; its length never changes afterwards |
| Containers.Set.Of | MLv0.Net/connectom.ts:30-32 | a fresh store whose slots are the given items, in order |
| Containers.Set.Get | MLv0.Core/set.ts:31-36 | requires `0 <= index < length` (`checkIndex`); returns that slot |
| Containers.Set.Set | MLv0.Core/set.ts:38-43 | requires an in-bounds index; the new store is the old one with that slot replaced and every other slot unchanged |
| Containers.Set.GetSubset | MLv0.Core/set.ts:16-22 | requires every index in bounds and a non-empty list (the view's constructor asserts it); returns a view of this store listing exactly those indices, in order |
| Containers.Set.GetSubset1AsWritten | MLv0.Core/set.ts:24-29 | as written, the assert admits only indices past the end, so every view it returns names a slot outside the store |
| Containers.Set.GetSubset1RejectsEveryValidIndex | MLv0.Core/set.ts:26 | the as-written assert turns away every in-bounds index |
| Containers.Set.GetSubset1 | MLv0.Core/set.ts:24-29 | as intended: an in-bounds index gives a single-slot view of that slot of this store |
| Containers.Subset1.constructor | MLv0.Core/subset1.ts:10-16 | requires only `index >= 0`, with no upper bound; store and index are kept and never change |
| Containers.Subset1.Value | MLv0.Core/subset1.ts:18-21 | the value of backing slot `index`; an out-of-range slot is refused by the store's check |
| Containers.Subset1.SetValue | MLv0.Core/subset1.ts:23-26 | writes backing slot `index` and no other slot |
| Containers.JoinedIndicesAppend | MLv0.Core/subset.ts:76-88 | the join of two runs of operands is the join of the first followed by the join of the second |
| Containers.JoinKeepsDuplicates | MLv0.Core/subset.ts:81 | joining a view with itself lists each of its indices twice, so the result is twice as long |
| Containers.JoinOfSlots | MLv0.Core/subset.ts:86 | joining single-slot views lists their slots in operand order |
| Containers.Subset.constructor | MLv0.Core/subset.ts:12-18 | requires a non-empty index list; keeps the store and the list |
| Containers.Subset.Length | MLv0.Core/subset.ts:20-23 | `length` is the number of listed indices |
| Containers.Subset.GlobalIndex | MLv0.Core/subset.ts:93-99 | requires `0 <= k < length`; returns the k-th listed slot |
| Containers.Subset.Get | MLv0.Core/subset.ts:25-28 | requires a valid position whose slot is in bounds; returns backing slot `indices[k]` |
| Containers.Subset.Values | MLv0.Core/subset.ts:41-51 | the values a traversal yields: backing slot `indices[k]` at position k, in index-list order |
| Containers.Subset.Set | MLv0.Core/subset.ts:30-33 | writes backing slot `indices[k]` and no other slot |
| Containers.Subset.SetAllAsWritten | MLv0.Core/subset.ts:35-39 | as written: backing slots 0 .. length-1 take the value, whatever the view lists, and the rest keep theirs |
| Containers.Subset.SetAll | MLv0.Core/subset.ts:35-39 | as intended: exactly the listed slots take the value, and every other slot keeps its old value |
| Containers.Subset.ForEach | MLv0.Core/subset.ts:41-45 | the callback's state after `forEach` is the left fold of the view's values in index-list order |
| Containers.Subset.ForEachIndex | MLv0.Core/subset.ts:47-51 | as `ForEach`, with each value handed its position 0 .. length-1 |
| Containers.Subset.GetSubset | MLv0.Core/subset.ts:53-61 | requires every local index to be a valid position; the new view uses the same store, its j-th slot is `indices[local[j]]`, and it stays in bounds when this view is |
| Containers.Subset.GetSubset1AlwaysAborts | MLv0.Core/subset.ts:63-68 | every index its assert admits then fails the `index < length` check of `getGlobalIndex`, so no call succeeds |
| Containers.Subset.GetSubset1 | MLv0.Core/subset.ts:63-68 | as intended: a valid position k gives the single-slot view of `indices[k]` in the same store |
| Containers.Subset.Join | MLv0.Core/subset.ts:70-91 | requires a non-empty operand list over one store; the result views that store and lists every operand's indices, operand by operand, duplicates kept |
| Containers.AliasedWriteIsVisible | MLv0.Core/subset.ts:30-33 | a write through one view is read back through any other view of the same store that lists the same slot; a view of another store is unaffected |
| Containers.SetAllAsWrittenMissesItsView | MLv0.Core/subset.ts:38 | on a view of slot 1 of a two-slot store, the as-written `setAll(1)` leaves the view reading 0 |
| Containers.SetAllReadsBack | MLv0.Core/subset.ts:35-39 | the corrected `setAll(1)` on the same view reads back 1 |
| DataContainers.DataSet.constructor | MLv0.Core/dataset.ts:8-11 | a fresh store of exactly `size` slots; its length never changes |
| DataContainers.DataSet.Get | MLv0.Core/dataset.ts:21-26 | requires `0 <= index < size`; returns that slot |
| DataContainers.DataSet.Set | MLv0.Core/dataset.ts:28-33 | requires an in-bounds index; changes that slot only |
| DataContainers.DataSet.GetSubset | MLv0.Core/dataset.ts:13-19 | requires every index in bounds; returns a view of this store carrying exactly those indices |
| DataContainers.DataSubset.constructor | MLv0.Core/datasubset.ts:8-12 | keeps store and indices, and accepts an empty list |
| DataContainers.DataSubset.Length | MLv0.Core/datasubset.ts:42-45 | `length` is the number of listed indices |
| DataContainers.DataSubset.GlobalIndex | MLv0.Core/datasubset.ts:47-53 | requires `0 <= k < length`; returns the k-th listed slot |
| DataContainers.DataSubset.Get | MLv0.Core/datasubset.ts:14-17 | returns backing slot `indices[k]` |
| DataContainers.DataSubset.Values | MLv0.Core/datasubset.ts:30-40 | the values a traversal yields, in index-list order |
| DataContainers.DataSubset.Set | MLv0.Core/datasubset.ts:19-22 | writes backing slot `indices[k]` only |
| DataContainers.DataSubset.SetAllAsWritten | MLv0.Core/datasubset.ts:24-28 | as written: backing slots 0 .. length-1 take the value, not the listed ones |
| DataContainers.DataSubset.SetAll | MLv0.Core/datasubset.ts:24-28 | as intended: exactly the listed slots take the value, every other slot keeps its old value |
| DataContainers.DataSubset.ForEach | MLv0.Core/datasubset.ts:30-34 | the callback's state is the left fold of the values in index-list order |
| DataContainers.DataSubset.ForEachIndex | MLv0.Core/datasubset.ts:36-40 | as `ForEach`, with positions 0 .. length-1 |
| DataContainers.DataSetAllAsWrittenMissesItsView | MLv0.Core/datasubset.ts:27 | on a view of slot 2 of a three-slot store, the as-written `setAll(1)` writes slot 0 and leaves the view reading 0 |
| DataContainers.DataSetAllReadsBack | MLv0.Core/datasubset.ts:24-28 | the corrected `setAll(1)` on the same view leaves slot 0 alone and reads back 1 |
| NetPerceptron.AccumulateIsWeightedSum | MLv0.Net/perceptron.ts:30-32 | the `forEachIndex` accumulation over the inputs yields Σ inputs[k]·weights[k] over the input positions, in order |
| NetPerceptron.FireIsStepOfExcess | MLv0.Net/perceptron.ts:34-35 | the written value is `heaviside(sum - gain)`: 0 or 1, and 1 exactly when the sum exceeds the gain |
| NetPerceptron.Perceptron.constructor | MLv0.Net/perceptron.ts:18-26 | requires as many inputs as weights; keeps the four views |
| NetPerceptron.Perceptron.EvaluateAsWritten | MLv0.Net/perceptron.ts:28-36 | as the source runs it: requires the input, weight and first gain slots in bounds, and no more outputs than the output store has slots; backing slots 0 .. |outputs|-1 of the output store take 1 when the weighted sum of the inputs exceeds the first gain and 0 otherwise, computed from the values before the call; every other slot keeps its value |
| NetPerceptron.Perceptron.Evaluate | MLv0.Net/perceptron.ts:28-36 | with the intended `setAll`: requires the output view in bounds as well; every slot the output view lists takes that value, and every other slot of the output store keeps its value |
| NetPerceptron.EvaluateAsWrittenMissesItsOutput | MLv0.Net/perceptron.ts:35 | a firing perceptron whose output view lists slot 3 of four signals sets slot 0 to 1 and leaves slot 3 at 0 |
| NetPerceptron.EvaluateWritesItsOutput | MLv0.Net/perceptron.ts:35 | with the intended `setAll`, the same perceptron sets slot 3 to 1 and leaves slot 0 at 0 |
| NetLayer.RunAppend | MLv0.Net/connectom.ts:88-91 | running two batches of perceptrons in turn is running them as one batch |
| NetLayer.RunKeepsUnwrittenSlot | MLv0.Net/layer.ts:23-26 | a signal slot that no perceptron writes keeps its value |
| NetLayer.EvaluatePerceptron | MLv0.Net/layer.ts:25 | a perceptron's evaluation writes `transfer(bias + Σ inputs·weights)` to its output slot and changes no other signal |
| NetLayer.Layer.constructor | MLv0.Net/layer.ts:16-21 | requires a non-empty perceptron view |
| NetLayer.Layer.Evaluate | MLv0.Net/layer.ts:23-26 | each perceptron of the view is evaluated once, in view order: the new signals are those of running the layer's wirings in that order on the old ones |
| NetLayer.Layer.Outputs | MLv0.Net/layer.ts:28-33 | a view of the signal store with one slot per perceptron, the k-th being perceptron k's output slot; no store is written |
| NetTopology.WeightSlotOffset | MLv0.Net/connectom.ts:60 | after k perceptrons of layer l the weight counter stands at the layer's first weight plus k times its fan-in |
| NetTopology.WeightStartStep | MLv0.Net/connectom.ts:20-26 | the counting loop: `size[0]` weights for the input layer, then `size[l-1]·size[l]` for each later layer |
| NetTopology.ThreeTwoTwoCounts | MLv0.Net/connectom.ts:20-27 | layer sizes 3, 2, 2 give 7 perceptrons and biases, 13 weights and 10 signals |
| NetTopology.MainNetworkCounts | main.ts:270-276 | the application's network, sizes 144, 51, 31, 10, has 236 perceptrons and biases, 9379 weights and 380 signals |
| NetTopology.AtFits | MLv0.Net/connectom.ts:34-72 | every input, output, weight and bias slot a perceptron is given lies inside the store the constructor allocated, with one weight per input |
| NetTopology.AllWiringsFit | MLv0.Net/connectom.ts:34-72 | the same, for all perceptrons of the network |
| NetTopology.OutputAndBiasSlots | MLv0.Net/connectom.ts:34-72 | perceptron p writes signal `size[0] + p` and uses bias p, so no two perceptrons share an output slot or a bias and none writes an input slot |
| NetTopology.InputLayerWiring | MLv0.Net/connectom.ts:34-51 | input-layer perceptron k reads signal k, writes signal `size[0] + k`, and uses weight k and bias k |
| NetTopology.HiddenLayerWiring | MLv0.Net/connectom.ts:53-72 | perceptron k of layer l >= 1 reads every output slot of layer l-1 in order, and uses the `size[l-1]` consecutive weights starting `k·size[l-1]` past the layer's first weight |
| NetTopology.FeedForward | MLv0.Net/connectom.ts:53-72 | every signal a perceptron reads lies below the signal it writes |
| NetTopology.LayerWeightSlots | MLv0.Net/connectom.ts:60-66 | the weights of the first k perceptrons of a layer run consecutively from the layer's first weight up to the counter |
| NetTopology.WeightsTile | MLv0.Net/connectom.ts:34-72 | the perceptrons' weight ranges, concatenated in perceptron order, are exactly slots 0, 1, ..., weightCount-1: disjoint, and covering the store |
| NetTopology.LayerSlotsInBounds | MLv0.Net/connectom.ts:76-83 | each layer's range of perceptrons lies inside the perceptron store |
| NetTopology.LayersTile | MLv0.Net/connectom.ts:76-83 | the layers' perceptron ranges, concatenated in order, are perceptrons 0 .. count-1 |
| NetTopology.RunLayer | MLv0.Net/connectom.ts:86-92 | running layers 0 .. i is running layers 0 .. i-1 and then layer i |
| NetTopology.RunKeepsInputs | MLv0.Net/connectom.ts:86-92 | evaluating the whole network never changes an input signal |
| NetConnectom.Connectom.constructor | MLv0.Net/connectom.ts:17-84 | requires a non-empty population with non-empty layers; builds fresh stores of the counted sizes, perceptron p wired as perceptron p of the topology, and layer l viewing perceptrons `LayerStart(l)` onwards for `size[l]` slots |
| NetConnectom.Connectom.Evaluate | MLv0.Net/connectom.ts:86-92 | the layers in order: the new signals are those of running every perceptron of the network in number order on the old ones; weights and biases are unchanged |
| NetConnectom.Connectom.EvaluateLayer | MLv0.Net/connectom.ts:88-91 | one pass of the loop: after layer i the signals are those of running layers 0 .. i on the starting signals |
| NetConnectom.Connectom.LayerIsTopologyLayer | MLv0.Net/connectom.ts:76-83 | layer i's view yields exactly the wirings of layer i of the topology, each wired to the three stores |
| NetConnectom.Count | MLv0.Net/connectom.ts:19-27 | the counting loop ends with the topology's perceptron and weight counts |
| NetConnectom.WireInputLayer | MLv0.Net/connectom.ts:34-51 | the input-layer loop leaves `w` and `s` at the start of layer 1 and wires its perceptrons as the topology's layer 0 |
| NetConnectom.WireLayer | MLv0.Net/connectom.ts:53-72 | one pass of the later-layer loop advances `w` and `s` to the next layer and appends the layer's perceptrons, wired as the topology says |
| NetConnectom.WireNext | MLv0.Net/connectom.ts:60-71 | one pass of the inner loop wires perceptron k and advances `w` by `size[l-1]` and `s` by one |
| NetConnectom.InputPerceptron | MLv0.Net/connectom.ts:40-48 | the input-layer perceptron built from the counters is wired exactly as the topology's perceptron k of layer 0 |
| NetConnectom.LayerPerceptron | MLv0.Net/connectom.ts:62-70 | the later-layer perceptron built from the shared input view and the counters is wired exactly as the topology's perceptron k of layer l |
| NetConnectom.BuildLayers | MLv0.Net/connectom.ts:76-83 | one layer per population entry, layer l viewing the consecutive perceptrons `start .. start + size[l] - 1` |
| GaGen.Gen.Mutate | MLv0.GA/gen.ts:14-17 | a gene holding `mutagen(data)`; the receiver is a value and is left as it was |
| GaGen.MutateIdentity | MLv0.GA/gen.ts:14-17 | mutating with the identity yields an equal gene |
| GaGen.MutateTwice | MLv0.GA/gen.ts:14-17 | mutating twice is mutating once with the composed function |
| GaGenome.Genome.constructor | MLv0.GA/genome.ts:6-9 | keeps the data list, and a fresh genome has no rank |
| GaGenome.Genome.Rank | MLv0.GA/genome.ts:14-17 | the rank is present exactly when `hasRank` holds |
| GaGenome.Genome.SetRank | MLv0.GA/genome.ts:18-21 | the rank becomes the given value; `hasRank` holds exactly when that value is a number |
| GaGenome.Genome.Length | MLv0.GA/genome.ts:26-29 | `length` is the length of `data` |
| GaGenome.RankLifecycle | MLv0.GA/genome.ts:14-32 | a fresh genome is unranked; after a numeric rank is set, it is ranked, reads that value back, and its length is its data's |
| GaGeneration.Insert | MLv0.GA/generation.ts:27-34 | inserting into a list sorted by rank keeps it sorted and adds exactly that entry |
| GaGeneration.SortByRank | MLv0.GA/generation.ts:27-34 | the result is sorted ascending by rank, an unset rank counting as 0, and is a permutation of the input |
| GaGeneration.Survivors | MLv0.GA/generation.ts:35-36 | `splice(0, length / 2)` leaves `length - ⌊length/2⌋` genomes |
| GaGeneration.SurvivorsAreBest | MLv0.GA/generation.ts:25-36 | every dropped genome ranks at most every survivor; sorted, dropped and kept together are the whole population with its ranks |
| GaGeneration.GrowShape | MLv0.GA/generation.ts:39-50 | the refilling loop keeps the entries it starts with and ends with exactly n; each later entry k is the child of entries k-m and k-m+1 of the growing array, so children may descend from children |
| GaGeneration.GrowOfOneLength | MLv0.GA/generation.ts:39-50 | when all parents share one length the length assert never fails, and every child has that length |
| GaGeneration.NextGenomesShape | MLv0.GA/generation.ts:39-50 | the new population has the old size; it starts with the survivors, and each later entry is bred from two neighbouring earlier entries |
| GaGeneration.NextGenomesOfOneLength | MLv0.GA/generation.ts:39-50 | a population of one genome length never trips the assert, and the new population keeps that length |
| GaGeneration.Breed | MLv0.GA/generation.ts:44-48 | the child has the parents' length, and gene j is `cross(g1[j], g2[j]).mutate(mutagen)` |
| GaGeneration.FirstIndexOf | MLv0.GA/generation.ts:19 | `indexOf`: the position of the first entry equal to the genome |
| GaGeneration.Generation.constructor | MLv0.GA/generation.ts:8-12 | one unset rank per genome |
| GaGeneration.Generation.SetRank | MLv0.GA/generation.ts:17-22 | requires the genome to be a member; only the rank at its first occurrence changes |
| GaGeneration.Generation.NewGeneration | MLv0.GA/generation.ts:23-54 | requires at least two survivors and no failing length assert; returns a fresh generation of the same size holding the survivors and their offspring, with every rank unset, and leaves this one untouched |
| SampleText.TrimmedLength | MLv0.IO/dataset.ts:63-76 | the kept length is positive, its last kept entry is non-blank, and every dropped entry is blank |
| SampleText.TrimmedIsBlankFreeTail | MLv0.IO/dataset.ts:65-75 | the trimmed list is a prefix of the input ending in a non-blank entry, and only blank entries were removed |
| SampleText.TrimmedIdempotent | MLv0.IO/dataset.ts:63-76 | trimming twice is trimming once |
| SampleText.LabelLine | MLv0.IO/dataset.ts:46 | the label line of a sample is never line 0 |
| SampleText.Row | MLv0.IO/dataset.ts:54-56 | a row that passes the width check yields exactly `width` values |
| SampleText.BitmapLayout | MLv0.IO/dataset.ts:51-57 | the bitmap is row-major: row r, column c is entry `r·width + c`, the parsed c-th entry of line `first + r` |
| SampleText.BitmapReadsOnlyItsRows | MLv0.IO/dataset.ts:51-57 | the bitmap depends on the sample's own rows only |
| SampleText.HeaderIsIgnored | MLv0.IO/dataset.ts:46 | changing line 0 changes no sample |
| SampleText.SampleLayout | MLv0.IO/dataset.ts:44-61 | the label is line `1 + index·(height+1)` parsed; the bitmap has `width·height` values, row-major, so the final length assert always holds |
| SampleText.SampleCount | MLv0.IO/dataset.ts:30-33 | `length` is whole: times `height + 1` it gives back the line count minus the header |
| SampleText.SamplesInsideFile | MLv0.IO/dataset.ts:46-53 | every sample below the count has its label line and all its rows inside the file |
| IoDataSet.DataSet.constructor | MLv0.IO/dataset.ts:21-28 | requires a non-blank line and a whole sample count; keeps the trimmed lines, width and height |
| IoDataSet.DataSet.Length | MLv0.IO/dataset.ts:30-33 | the number of whole samples after the header line |
| IoDataSet.DataSet.GetSample | MLv0.IO/dataset.ts:44-61 | requires the checks of `getSample` to pass; returns the label and bitmap of the sample layout |
| IoDataSet.DataSet.ReadRows | MLv0.IO/dataset.ts:50-57 | the row loop appends the rows in order |
| IoDataSet.DataSet.ReadRow | MLv0.IO/dataset.ts:54-56 | a row gives `width` values, the c-th being the parsed c-th entry of the trimmed row |
| IoDataSet.DataSet.TrimLast | MLv0.IO/dataset.ts:63-76 | requires a non-blank entry; shortens the same list in place to its trimmed prefix and returns it |
| UiInputFile.InputFile.constructor | MLv0.UI/input_file.ts:49-56 | requires a non-blank line and a whole sample count; keeps the trimmed lines |
| UiInputFile.InputFile.Length | MLv0.UI/input_file.ts:58-61 | the number of whole samples after the header line |
| UiInputFile.InputFile.GetSample | MLv0.UI/input_file.ts:72-89 | returns the label and bitmap of the sample layout |
| UiInputFile.InputFile.ReadRows | MLv0.UI/input_file.ts:78-85 | the row loop appends the rows in order |
| UiInputFile.InputFile.ReadRow | MLv0.UI/input_file.ts:82-84 | a row gives `width` parsed values |
| UiInputFile.InputFile.TrimLast | MLv0.UI/input_file.ts:91-104 | shortens the same list in place to its trimmed prefix and returns it |
| MainModel.NewMaximum | main.ts:342-346 | an output above all earlier ones becomes the unique maximum |
| MainModel.EqualMaximum | main.ts:347-350 | an output equal to the earlier maximum makes a tie |
| MainModel.BelowMaximum | main.ts:340-351 | an output below the maximum changes neither the answer nor the maximum |
| MainModel.TrackStep | main.ts:340-351 | one callback call keeps the answer and the maximum truthful for the outputs seen so far |
| MainModel.TrackInvariant | main.ts:338-351 | after a non-empty view, the tracked maximum is the largest output, the answer is `null` only on a tie, and otherwise it is the position of the single largest output |
| MainModel.PredictedValue | main.ts:336-354 | `undefined` exactly for an empty view; `null` exactly when the highest output is shared; otherwise the position, within the view, of the single highest output |
| MainModel.CrossFunction | main.ts:309-319 | `a` when the draw exceeds 15, `b` otherwise, so always one of its arguments |
| MainModel.ChooseStart | main.ts:51-90 | random genomes exactly when a stored list is missing; stored genomes, unchanged, exactly when both lists hold 20 genomes whose first lengths match the weight and bias counts |
| MainModel.RejectedStoreIsNotReplaced | main.ts:57-69 | stored lists of another size are rejected and leave the slots empty, with no random fallback |
| MainModel.NextRightPredicted | main.ts:194-201 | +1 on a right prediction; -10 only for an `undefined` prediction when the count is at least 10; never negative |
| MainModel.CountRightPredicted | main.ts:172-201 | the counting loop's result is the counter rule over the samples, and never exceeds the number of right predictions |
| MainModel.NoPenaltyWithoutUndefined | main.ts:193-201 | when no prediction is `undefined`, the counter equals the number of right predictions |

## Left out

- `MLv0.Utils/random.ts`: the crypto-seeded generator and its float scaling are not modelled. `crossFunction` takes the draw as a parameter, and `newGeneration` takes crossover and mutation as function parameters.
- `sigma`, `Model.mutagen` and `MotionZoom`: exponentials and float updates. A transfer function is any `real -> real`.
- `MLv0.IO/input_image.ts` and `MLv0.UI/input_image.ts`: canvas reading, scaling and drawing.
- I/O is not modelled: `readFiles`, `getContents`, and in main.ts `loadAndEvaluate`, `evaluate`, `trainClassifier`, `save` and `drawOnCanvas`. They do async file, `localStorage`, wake-lock and DOM work. Only the counter rule is extracted.
- MainModel.CountRightPredicted: runs over a given sequence of predictions and labels, not interleaved with feeding images through the network; the sample count and the percentage are not modelled.
- MainModel.ChooseStart: reading `localStorage` and `JSON.parse` are left out. A missing or empty stored string is `None`. The random fill itself is only named (`RandomFill`).
- JavaScript numbers are `real` or `int`: NaN, infinities and rounding are not modelled. An output view holding NaN is not considered. The starting `-Infinity` of `predictedValue` is `None`.
- The genome rank's `NaN` marker is `None`. In `Generation`, an unset (`undefined`) rank is `None` and `?? 0` is `GetOr(0.0)`. A rank set to `NaN` is not modelled.
- GaGeneration.SortByRank: the comparator looks ranks up with `indexOf` on the array being sorted, whose order depends on the engine's sort. The model pairs each genome with the rank at its original position and uses a stable insertion sort (ECMAScript's sort is stable).
- GaGeneration.Generation.SetRank: `indexOf` compares arrays by reference. The model compares genomes by value, so two distinct but equal genomes are not told apart.
- GaGeneration.Generation.NewGeneration: `new Array(...ranks)` builds a different array when there is exactly one rank. This case is excluded, because the survivor assert needs at least three genomes.
- Containers.Set.constructor: the slots JavaScript leaves `undefined` hold a given fill value. The Connectom stores hold 0 there.
- Containers.Set.Of: set.ts has no array-taking constructor. This one models what connectom.ts evidently relies on.
- Containers.Subset.ForEach: callbacks are pure state-threading functions. A callback with other side effects is not modelled. The same holds for `ForEachIndex` and the `DataSubset` pair.
- NetLayer.EvaluatePerceptron: the five-argument perceptron's own source is not part of this model. Its evaluation is taken to be `transfer(bias + Σ inputs·weights)` written to the output slot.
- `Layer.inputs`, which main.ts reads, does not appear in layer.ts and is not modelled.
- Utils.Deduplicate: uses Dafny equality. A JavaScript `Set` uses SameValueZero, which treats NaN as equal to itself and objects by reference.
- SampleText.Row: `split`, `trim`, `parseInt` and `parseFloat` are uninterpreted functions given in a `TextOps` record.
- IoDataSet.DataSet.TrimLast: requires a non-blank entry. On an all-blank list the source empties the array and then throws a TypeError on `list[-1].trim()` (MLv0.IO/dataset.ts:67); that crash is not modelled. Both constructors inherit this requires, and `UiInputFile.InputFile.TrimLast` is the same.
- NetConnectom.Connectom.constructor: uses the intended `getSubset1` and the layer store's length. Against set.ts:26 as written, the constructor aborts at its first perceptron, so no network can be built.
- IoDataSet.DataSet.GetSample: the index is a natural number. A negative or fractional index, which would read lines before the first label, is not modelled. Width and height are natural numbers too. The same holds for `UiInputFile.InputFile.GetSample`.

## Findings

| source | as written | input that shows it | evidently intended | confidence | as-written member | corrected member |
|---|---|---|---|---|---|---|
| MLv0.Core/set.ts:26 | the assert demands `length < index`, so only indices past the end pass | any index of a non-empty store, e.g. index 0 of a one-slot store | `0 <= index < length`, as `checkIndex` checks | high, not executed | Containers.Set.GetSubset1AsWritten, Containers.Set.GetSubset1RejectsEveryValidIndex | Containers.Set.GetSubset1 |
| MLv0.Core/subset.ts:65 | the assert demands `length < index`, which then fails `getGlobalIndex`'s `index < length` | every index: none reaches the return | `0 <= index < length` | high, not executed | Containers.Subset.GetSubset1AlwaysAborts | Containers.Subset.GetSubset1 |
| MLv0.Core/subset.ts:38 | `setAll` writes backing slots 0 .. length-1, the positions, not the listed slots | a view of slot 1 of a two-slot store: after `setAll(1)` the view still reads 0 | write every listed slot | high, not executed | Containers.Subset.SetAllAsWritten, Containers.SetAllAsWrittenMissesItsView | Containers.Subset.SetAll, Containers.SetAllReadsBack |
| MLv0.Core/datasubset.ts:27 | the same positional write in `DataSubset.setAll` | a view of slot 2 of a three-slot store: `setAll(1)` changes slot 0 and the view still reads 0 | write every listed slot | high, not executed | DataContainers.DataSubset.SetAllAsWritten, DataContainers.DataSetAllAsWrittenMissesItsView | DataContainers.DataSubset.SetAll, DataContainers.DataSetAllReadsBack |
| MLv0.Net/perceptron.ts:35 | `evaluate` hands its result to that `setAll`, so a perceptron writes the first slots of its output store, not its own outputs | one input 1, weight 1, gain 0, output view of slot 3 in four signals: slot 0 becomes 1, slot 3 stays 0 | write the slots the output view lists | high, not executed | NetPerceptron.Perceptron.EvaluateAsWritten, NetPerceptron.EvaluateAsWrittenMissesItsOutput | NetPerceptron.Perceptron.Evaluate, NetPerceptron.EvaluateWritesItsOutput |
