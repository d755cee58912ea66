/** MLv0.GA `Gen`: one gene, an immutable wrapper around a value. */
module GaGen {

  datatype Gen<T> = Gen(data: T) {

    /** `mutate`: a new gene holding `mutagen(data)`; the receiver, a value, stays as it was. */
    function Mutate(mutagen: T -> T): (r: Gen<T>)
      ensures r.data == mutagen(data)
    {
      Gen(mutagen(data))
    }
  }

  /** Mutating with the identity gives back an equal gene. */
  lemma MutateIdentity<T>(g: Gen<T>)
    ensures g.Mutate(x => x) == g
  {
  }

  /** Mutating twice is mutating once with the composed function. */
  lemma MutateTwice<T>(g: Gen<T>, f: T -> T, h: T -> T)
    ensures g.Mutate(f).Mutate(h) == g.Mutate(x => h(f(x)))
  {
  }
}

/**
 * MLv0.GA `Genome` as genome.ts has it: a data list fixed at construction
 * and a rank that starts as `NaN`. `None` stands for a `NaN` rank.
 */
module GaGenome {
  import opened Wrappers

  class Genome<T> {
    /** `data`; the same list for the genome's whole life. */
    const data: seq<T>
    /** `_rate`; `None` is `NaN`, the "not ranked yet" marker. */
    var rank: Option<real>

    constructor (data: seq<T>)
      ensures this.data == data && !HasRank()
    {
      this.data := data;
      rank := None;
    }

    /** The `rank` getter. */
    function Rank(): (r: Option<real>)
      reads this
      ensures HasRank() <==> r.Some?
    {
      rank
    }

    /** The `rank` setter: setting `NaN` (`None`) clears the rank again. */
    method SetRank(value: Option<real>)
      modifies this`rank
      ensures Rank() == value
      ensures HasRank() <==> value.Some?
    {
      rank := value;
    }

    /** `hasRank`: the rank is not `NaN`. */
    predicate HasRank()
      reads this
    {
      rank.Some?
    }

    /** `length` is the length of `data`. */
    function Length(): (n: nat)
      ensures n == |data|
    {
      |data|
    }
  }

  /** A fresh genome is unranked; after a numeric rank is set it is ranked with that value. */
  method RankLifecycle<T>(data: seq<T>, value: real) returns (fresh0: bool, ranked: bool, read: Option<real>, length: nat)
    ensures !fresh0 && ranked && read == Some(value) && length == |data|
  {
    var g := new Genome(data);
    fresh0 := g.HasRank();
    g.SetRank(Some(value));
    ranked := g.HasRank();
    read := g.Rank();
    length := g.Length();
  }
}

/**
 * MLv0.GA `Generation` as generation.ts has it: a population of genomes,
 * each genome a list of genes (`Genome<TData> = Gen<TData>[]` there), and
 * one rank slot per genome, `undefined` (`None`) until set.
 *
 * `newGeneration` sorts a copy of the population ascending by rank, with an
 * unset rank counting as 0, drops the first half, and refills the array by
 * breeding entry i with entry i + 1 of the array as it grows.
 */
module GaGeneration {
  import opened Wrappers
  import opened Utils
  import opened GaGen

  type Genome<T> = seq<Gen<T>>

  /** A genome paired with the rank stored at its position. */
  datatype Ranked<T> = Ranked(genome: Genome<T>, rank: Option<real>)

  /** The comparator's key: `ranks[i] ?? 0`. */
  function Key<T>(e: Ranked<T>): real {
    e.rank.GetOr(0.0)
  }

  predicate SortedByKey<T>(s: seq<Ranked<T>>) {
    forall i, j :: 0 <= i < j < |s| ==> Key(s[i]) <= Key(s[j])
  }

  /** Genome i with rank i. */
  function Pair<T>(genomes: seq<Genome<T>>, ranks: seq<Option<real>>): (r: seq<Ranked<T>>)
    requires |genomes| == |ranks|
    ensures |r| == |genomes|
    ensures forall i :: 0 <= i < |r| ==> r[i].genome == genomes[i] && r[i].rank == ranks[i]
  {
    seq(|genomes|, i requires 0 <= i < |genomes| => Ranked(genomes[i], ranks[i]))
  }

  /** The genomes of a ranked list, in order. */
  function Genomes<T>(s: seq<Ranked<T>>): (r: seq<Genome<T>>)
    ensures |r| == |s|
    ensures forall i :: 0 <= i < |s| ==> r[i] == s[i].genome
  {
    seq(|s|, i requires 0 <= i < |s| => s[i].genome)
  }

  /** Places `e` after every entry whose key is at most its own, so equal keys keep their arrival order. */
  function Insert<T>(e: Ranked<T>, s: seq<Ranked<T>>): (r: seq<Ranked<T>>)
    requires SortedByKey(s)
    ensures SortedByKey(r)
    ensures multiset(r) == multiset(s) + multiset{e}
    ensures |r| == |s| + 1
    ensures r[0] == e || (s != [] && r[0] == s[0])
  {
    if s == [] then [e]
    else if Key(e) < Key(s[0]) then
      SortedCons(e, s);
      [e] + s
    else
      var rest := Insert(e, s[1..]);
      assert s == [s[0]] + s[1..];
      SortedCons(s[0], rest);
      [s[0]] + rest
  }

  /** A sorted list stays sorted when an entry ranked at most its head goes in front. */
  lemma SortedCons<T>(x: Ranked<T>, s: seq<Ranked<T>>)
    requires SortedByKey(s) && (s == [] || Key(x) <= Key(s[0]))
    ensures SortedByKey([x] + s)
  {
    var r := [x] + s;
    forall i, j | 0 <= i < j < |r|
      ensures Key(r[i]) <= Key(r[j])
    {
      if i == 0 {
        assert Key(s[0]) <= Key(s[j - 1]);
      }
    }
  }

  /** The ascending sort by `Key`: stable, as `Array.prototype.sort` is. */
  function SortByRank<T>(s: seq<Ranked<T>>): (r: seq<Ranked<T>>)
    ensures SortedByKey(r)
    ensures multiset(r) == multiset(s)
    ensures |r| == |s|
  {
    if s == [] then []
    else
      assert s == s[..|s| - 1] + [s[|s| - 1]];
      Insert(s[|s| - 1], SortByRank(s[..|s| - 1]))
  }

  /** How many genomes `splice(0, length / 2)` removes: the fractional half is truncated. */
  function Dropped(n: nat): nat {
    n / 2
  }

  /** The sorted population from which the survivors are taken. */
  function Sorted<T>(genomes: seq<Genome<T>>, ranks: seq<Option<real>>): (r: seq<Ranked<T>>)
    requires |genomes| == |ranks|
    ensures |r| == |genomes|
  {
    SortByRank(Pair(genomes, ranks))
  }

  /** What is left after `splice`: the upper, better-ranked part of the sorted population. */
  function Survivors<T>(genomes: seq<Genome<T>>, ranks: seq<Option<real>>): (r: seq<Genome<T>>)
    requires |genomes| == |ranks|
    ensures |r| == |genomes| - Dropped(|genomes|)
  {
    Genomes(Sorted(genomes, ranks)[Dropped(|genomes|)..])
  }

  /** The child of two genomes of one length: gene j is `cross(g1[j], g2[j]).mutate(mutagen)`. */
  function Child<T>(g1: Genome<T>, g2: Genome<T>, cross: (Gen<T>, Gen<T>) -> Gen<T>, mutagen: T -> T): Genome<T>
    requires |g1| == |g2|
  {
    seq(|g1|, j requires 0 <= j < |g1| => cross(g1[j], g2[j]).Mutate(mutagen))
  }

  /**
   * The refilling loop from counter `i` on, over the growing array `gs`:
   * `None` when the assert that both parents have one length fails.
   */
  function Grow<T>(gs: seq<Genome<T>>, i: nat, n: nat, cross: (Gen<T>, Gen<T>) -> Gen<T>, mutagen: T -> T)
    : Option<seq<Genome<T>>>
    requires i + 2 <= |gs|
    decreases n - |gs|
  {
    if |gs| >= n then Some(gs)
    else if |gs[i]| != |gs[i + 1]| then None
    else Grow(gs + [Child(gs[i], gs[i + 1], cross, mutagen)], i + 1, n, cross, mutagen)
  }

  /** The genomes `newGeneration` returns, or `None` when one of its asserts fails along the way. */
  function NextGenomes<T>(genomes: seq<Genome<T>>, ranks: seq<Option<real>>,
                          cross: (Gen<T>, Gen<T>) -> Gen<T>, mutagen: T -> T): Option<seq<Genome<T>>>
    requires |genomes| == |ranks| && |genomes| - Dropped(|genomes|) >= 2
  {
    Grow(Survivors(genomes, ranks), 0, |genomes|, cross, mutagen)
  }

  /** Entry k of `r` is the child of entries k - m and k - m + 1, which share one length. */
  ghost predicate BredFrom<T>(r: seq<Genome<T>>, m: nat, k: nat, cross: (Gen<T>, Gen<T>) -> Gen<T>, mutagen: T -> T)
    requires 1 <= m <= k < |r|
  {
    |r[k - m]| == |r[k - m + 1]| && r[k] == Child(r[k - m], r[k - m + 1], cross, mutagen)
  }

  /** Every genome has length `len`. */
  predicate AllOfLength<T>(gs: seq<Genome<T>>, len: nat) {
    forall k :: 0 <= k < |gs| ==> |gs[k]| == len
  }

  /**
   * What the refilling loop builds: the array keeps its first entries, ends
   * with exactly n entries, and each entry k past the start is the child of
   * entries k - m and k - m + 1, where m is the distance between the array's
   * length and the counter. So children may descend from earlier children.
   */
  lemma {:induction false} GrowShape<T>(gs: seq<Genome<T>>, i: nat, m: nat, n: nat, cross: (Gen<T>, Gen<T>) -> Gen<T>,
                                        mutagen: T -> T, r: seq<Genome<T>>)
    requires i + 2 <= |gs| <= n && m == |gs| - i
    requires Grow(gs, i, n, cross, mutagen) == Some(r)
    ensures |r| == n && r[..|gs|] == gs
    ensures forall k :: |gs| <= k < n ==> BredFrom(r, m, k, cross, mutagen)
    decreases n - |gs|
  {
    if |gs| < n {
      var child := Child(gs[i], gs[i + 1], cross, mutagen);
      var next := gs + [child];
      GrowShape(next, i + 1, m, n, cross, mutagen, r);
      assert r[..|gs|] == r[..|next|][..|gs|];
      assert r[|gs|] == r[..|next|][|gs|] == child;
      assert r[i] == gs[i] && r[i + 1] == gs[i + 1] by {
        assert r[..|gs|][i] == gs[i] && r[..|gs|][i + 1] == gs[i + 1];
      }
    }
  }

  /** When all parents share one length, no assert of the loop fails and every child has that length too. */
  lemma {:induction false} GrowOfOneLength<T>(gs: seq<Genome<T>>, i: nat, n: nat, len: nat,
                                              cross: (Gen<T>, Gen<T>) -> Gen<T>, mutagen: T -> T)
    requires i + 2 <= |gs|
    requires AllOfLength(gs, len)
    ensures Grow(gs, i, n, cross, mutagen).Some?
    ensures AllOfLength(Grow(gs, i, n, cross, mutagen).value, len)
    decreases n - |gs|
  {
    if |gs| < n {
      var next := gs + [Child(gs[i], gs[i + 1], cross, mutagen)];
      GrowOfOneLength(next, i + 1, n, len, cross, mutagen);
    }
  }

  /**
   * Selection keeps the better half: every dropped genome's key is at most
   * every survivor's key, and dropped and kept together are the whole
   * population, each genome with the rank stored at its position.
   */
  lemma SurvivorsAreBest<T>(genomes: seq<Genome<T>>, ranks: seq<Option<real>>)
    requires |genomes| == |ranks|
    ensures var s := Sorted(genomes, ranks);
      && (forall d, k :: 0 <= d < Dropped(|genomes|) <= k < |s| ==> Key(s[d]) <= Key(s[k]))
      && multiset(s) == multiset(Pair(genomes, ranks))
      && Survivors(genomes, ranks) == Genomes(s[Dropped(|genomes|)..])
  {
  }

  class Generation<T(==)> {
    /** `genomes`; the list is never replaced. */
    const genomes: seq<Genome<T>>
    /** `_ranks`: one slot per genome, `None` until `setRank`. */
    var ranks: seq<Option<real>>

    ghost predicate Valid()
      reads this
    {
      |ranks| == |genomes|
    }

    /** One unset rank per genome. */
    constructor (genomes: seq<Genome<T>>)
      ensures this.genomes == genomes && Valid()
      ensures forall i :: 0 <= i < |ranks| ==> ranks[i].None?
    {
      this.genomes := genomes;
      ranks := seq(|genomes|, _ => None);
    }

    /** `setRank`: the genome must be in the population; the rank goes to its first occurrence only. */
    method SetRank(gen: Genome<T>, rank: real)
      requires Valid() && gen in genomes
      modifies this`ranks
      ensures Valid()
      ensures ranks == old(ranks)[FirstIndex(genomes, gen) := Some(rank)]
    {
      var index := FirstIndexOf(genomes, gen);
      ranks := ranks[index := Some(rank)];
    }

    /**
     * `newGeneration`: a new population of the same size, the better
     * half of this one followed by the children bred from it; every rank
     * of the new population is unset. This population is only read.
     */
    method NewGeneration(cross: (Gen<T>, Gen<T>) -> Gen<T>, mutagen: T -> T) returns (r: Generation<T>)
      requires Valid()
      requires |genomes| - Dropped(|genomes|) >= 2
      requires NextGenomes(genomes, ranks, cross, mutagen).Some?
      ensures fresh(r) && r.Valid()
      ensures r.genomes == NextGenomes(genomes, ranks, cross, mutagen).value
      ensures |r.genomes| == |genomes|
      ensures forall i :: 0 <= i < |r.ranks| ==> r.ranks[i].None?
    {
      var n := |genomes|;
      var sorted := SortByRank(Pair(genomes, ranks));
      var gs := Genomes(sorted[n / 2..]);
      var i := 0;
      while |gs| < n
        invariant i + 2 <= |gs| <= n
        invariant Grow(gs, i, n, cross, mutagen) == NextGenomes(genomes, ranks, cross, mutagen)
        decreases n - |gs|
      {
        var g1 := gs[i];
        var g2 := gs[i + 1];
        var child := Breed(g1, g2, cross, mutagen);
        assert child == Child(g1, g2, cross, mutagen);
        gs := gs + [child];
        i := i + 1;
      }
      r := new Generation(gs);
    }
  }

  /** `indexOf`: the position of the first entry equal to `x`. */
  method FirstIndexOf<T(==)>(s: seq<T>, x: T) returns (index: nat)
    requires x in s
    ensures index < |s| && s[index] == x && x !in s[..index]
  {
    index := 0;
    while s[index] != x
      invariant index < |s| && x !in s[..index] && x in s[index..]
      decreases |s| - index
    {
      assert s[index..] == [s[index]] + s[index + 1..];
      assert s[..index + 1] == s[..index] + [s[index]];
      index := index + 1;
    }
  }

  /** The inner loop of `newGeneration`: gene j of the child is `cross(g1[j], g2[j]).mutate(mutagen)`. */
  method Breed<T>(g1: Genome<T>, g2: Genome<T>, cross: (Gen<T>, Gen<T>) -> Gen<T>, mutagen: T -> T)
    returns (child: Genome<T>)
    requires |g1| == |g2|
    ensures |child| == |g1|
    ensures forall j :: 0 <= j < |g1| ==> child[j] == cross(g1[j], g2[j]).Mutate(mutagen)
  {
    child := [];
    for j := 0 to |g1|
      invariant |child| == j
      invariant forall k :: 0 <= k < j ==> child[k] == cross(g1[k], g2[k]).Mutate(mutagen)
    {
      child := child + [cross(g1[j], g2[j]).Mutate(mutagen)];
    }
  }

  /**
   * The next population has the size of this one; its first entries are the
   * survivors, and entry k after them is bred from entries k - m and
   * k - m + 1, m being the number of survivors.
   */
  lemma NextGenomesShape<T>(genomes: seq<Genome<T>>, ranks: seq<Option<real>>,
                            cross: (Gen<T>, Gen<T>) -> Gen<T>, mutagen: T -> T)
    requires |genomes| == |ranks| && |genomes| - Dropped(|genomes|) >= 2
    requires NextGenomes(genomes, ranks, cross, mutagen).Some?
    ensures var r := NextGenomes(genomes, ranks, cross, mutagen).value;
      var m := |genomes| - Dropped(|genomes|);
      && |r| == |genomes|
      && r[..m] == Survivors(genomes, ranks)
      && forall k :: m <= k < |r| ==> BredFrom(r, m, k, cross, mutagen)
  {
    GrowShape(Survivors(genomes, ranks), 0, |genomes| - Dropped(|genomes|), |genomes|, cross, mutagen, NextGenomes(genomes, ranks, cross, mutagen).value);
  }

  /** A population of one genome length never trips the length assert, and its children keep that length. */
  lemma NextGenomesOfOneLength<T>(genomes: seq<Genome<T>>, ranks: seq<Option<real>>, len: nat,
                                  cross: (Gen<T>, Gen<T>) -> Gen<T>, mutagen: T -> T)
    requires |genomes| == |ranks| && |genomes| - Dropped(|genomes|) >= 2
    requires AllOfLength(genomes, len)
    ensures NextGenomes(genomes, ranks, cross, mutagen).Some?
    ensures AllOfLength(NextGenomes(genomes, ranks, cross, mutagen).value, len)
  {
    var s := Sorted(genomes, ranks);
    forall k | 0 <= k < |s|
      ensures |s[k].genome| == len
    {
      assert s[k] in multiset(Pair(genomes, ranks));
      var p :| p in Pair(genomes, ranks) && p == s[k];
    }
    GrowOfOneLength(Survivors(genomes, ranks), 0, |genomes|, len, cross, mutagen);
  }
}
