// The XOR example of examples/xor_ga.example.cpp: a population of neural
// genomes bred to compute XOR. The fitness is 4 minus the squared error of
// the network's four answers; crossover keeps a prefix of the first parent's
// genes and takes the rest of the shared length from the second; mutation
// nudges one gene by at most 0.1; the driver keeps the best generation seen
// and stops once a generation scores 3.9999. Tournament selection is the
// same five-round tournament as the string example (`StringGA.Select`).
//
// The mutation writes its genes through a `Genome<std::vector<float>>&`,
// whose `setGenes` is not virtual: the genome's gene vector changes but its
// network keeps the old weights. `MutateAsWritten` models that call and
// `Mutate` the intended `NeuralGenome::setGenes`.
module XorGA {
  import opened Common
  import opened MatrixSpec
  import opened Networks
  import opened NeuralNetworks
  import opened Genomes
  import Losses

  // ---------------------------------------------------------------- fitness

  /** The four XOR inputs, one per row. */
  const XorInputs: Mat := FromRows([[0.0, 0.0], [0.0, 1.0], [1.0, 0.0], [1.0, 1.0]])

  /** The expected answers as a 1 x 4 row; the fitness compares against its transpose. */
  const Expected: Mat := FromRows([[0.0, 1.0, 1.0, 0.0]])

  /** The `reduce` step of the fitness: add the square of the cell. */
  const SquareStep: (real, int, int, real) -> real := (acc: real, i: int, j: int, v: real) => acc + v * v

  /** `calculateFitness` on a network output of four rows and one column: 4 - Σ (out - expected)^2. */
  function XorFitness(out: Mat): real
    requires Wf(out) && out.rows == 4 && out.cols == 1
  {
    4.0 - Reduced(Subtracted(out, Transposed(Expected)), SquareStep, 0.0)
  }

  /** The squares of the first n cells sum to at least 0, and to 0 exactly when those cells are 0. */
  lemma {:induction false} SquaresPrefix(e: Mat, n: nat)
    requires Wf(e) && e.cols > 0 && n <= |e.data|
    ensures FoldCells(e, SquareStep, 0.0, n) >= 0.0
    ensures FoldCells(e, SquareStep, 0.0, n) == 0.0 <==> forall k :: 0 <= k < n ==> e.data[k] == 0.0
  {
    if n > 0 {
      SquaresPrefix(e, n - 1);
      var acc := FoldCells(e, SquareStep, 0.0, n - 1);
      var v := e.data[n - 1];
      assert FoldCells(e, SquareStep, 0.0, n) == acc + v * v;
      Losses.Square(v, v * v);
    }
  }

  /** The squared difference of two matrices of one shape is at least 0, and 0 exactly when they are equal. */
  lemma SquaredDifference(a: Mat, b: Mat)
    requires Wf(a) && Wf(b) && a.rows == b.rows && a.cols == b.cols && a.cols > 0
    ensures Reduced(Subtracted(a, b), SquareStep, 0.0) >= 0.0
    ensures Reduced(Subtracted(a, b), SquareStep, 0.0) == 0.0 <==> a == b
  {
    var e := Subtracted(a, b);
    SquaresPrefix(e, |e.data|);
    forall k | 0 <= k < |e.data| ensures e.data[k] == a.data[k] - b.data[k] {}
    if forall k :: 0 <= k < |e.data| ==> e.data[k] == 0.0 {
      assert a.data == b.data;
    }
  }

  /** The fitness is at most 4, and it is 4 exactly when the network answers XOR without error. */
  lemma XorFitnessBound(out: Mat)
    requires Wf(out) && out.rows == 4 && out.cols == 1
    ensures XorFitness(out) <= 4.0
    ensures XorFitness(out) == 4.0 <==> out == Transposed(Expected)
  {
    SquaredDifference(out, Transposed(Expected));
  }

  /** The expected column holds the XOR of each input row. */
  lemma ExpectedIsXor()
    ensures forall i :: 0 <= i < 4 ==>
      Get(Transposed(Expected), i, 0) == (if Get(XorInputs, i, 0) == Get(XorInputs, i, 1) then 0.0 else 1.0)
  {
    forall i | 0 <= i < 4
      ensures Get(Transposed(Expected), i, 0) == (if Get(XorInputs, i, 0) == Get(XorInputs, i, 1) then 0.0 else 1.0)
    {
      assert Get(Transposed(Expected), i, 0) == Get(Expected, 0, i);
      if i == 0 {
        assert Get(XorInputs, 0, 0) == 0.0 && Get(XorInputs, 0, 1) == 0.0 && Get(Expected, 0, 0) == 0.0;
      } else if i == 1 {
        assert Get(XorInputs, 1, 0) == 0.0 && Get(XorInputs, 1, 1) == 1.0 && Get(Expected, 0, 1) == 1.0;
      } else if i == 2 {
        assert Get(XorInputs, 2, 0) == 1.0 && Get(XorInputs, 2, 1) == 0.0 && Get(Expected, 0, 2) == 1.0;
      } else {
        assert Get(XorInputs, 3, 0) == 1.0 && Get(XorInputs, 3, 1) == 1.0 && Get(Expected, 0, 3) == 0.0;
      }
    }
  }

  /**
   * The fitness of a prediction: the prediction's error, or the fitness of a
   * four-by-one output. Any other shape is an error here; the source's
   * element-wise subtraction would read past the smaller matrix.
   */
  function FitnessOf(p: Result<Mat>): (r: Result<real>)
    requires p.Ok? ==> Wf(p.value)
    ensures p.Err? ==> r == Err(p.msg)
    ensures r.Ok? ==> p.Ok? && Wf(p.value) && p.value.rows == 4 && p.value.cols == 1 && r.value <= 4.0
  {
    match p
    case Err(e) => Err(e)
    case Ok(out) =>
      if out.rows == 4 && out.cols == 1 then
        XorFitnessBound(out);
        Ok(XorFitness(out))
      else Err("output is not one column of four answers")
  }

  /** `FitnessStrategy::calculateFitness`: the genome's network predicts XOR, and the answers are scored. */
  method CalculateFitness(ind: NeuralGenome) returns (r: Result<real>)
    requires ind.Valid()
    modifies Objs(ind.brain.layers)
    ensures ind.Valid() && ind.brain.Parameters() == old(ind.brain.Parameters())
    ensures r == FitnessOf(Run(old(ind.brain.States()), XorInputs, old(|ind.brain.layers|)))
  {
    var out := ind.Predict(XorInputs);
    r := FitnessOf(out);
  }

  // -------------------------------------------------------------- crossover

  /** One-point crossover over the shared length: [point, len) from p2, everything else from p1. */
  function Crossed(p1: seq<real>, p2: seq<real>, point: nat, len: nat): seq<real>
    requires point <= len <= |p1| && len <= |p2|
  {
    p1[..point] + p2[point..len] + p1[len..]
  }

  /** Each gene of a crossed vector comes from the parent at the same position. */
  lemma CrossedAt(p1: seq<real>, p2: seq<real>, point: nat, len: nat)
    requires point <= len <= |p1| && len <= |p2|
    ensures |Crossed(p1, p2, point, len)| == |p1|
    ensures forall k :: 0 <= k < |p1| ==>
      Crossed(p1, p2, point, len)[k] == if point <= k < len then p2[k] else p1[k]
  {}

  /** Crossing a parent with itself gives the parent back. */
  lemma CrossedSelf(p: seq<real>, point: nat, len: nat)
    requires point <= len <= |p|
    ensures Crossed(p, p, point, len) == p
  {
    assert p[..point] + p[point..len] + p[len..] == p[..len] + p[len..];
    assert p[..len] + p[len..] == p;
  }

  /** The gene loop of `CrossoverStrategy::crossover`; the point is the draw modulo the shared length. */
  method CrossGenes(p1: seq<real>, p2: seq<real>, r: nat) returns (child: seq<real>)
    requires |p1| > 0 && |p2| > 0
    ensures child == Crossed(p1, p2, r % Min(|p1|, |p2|), Min(|p1|, |p2|))
  {
    var len := Min(|p1|, |p2|);
    var point := r % len;
    child := p1;
    var i := point;
    assert p1[..point] + p2[point..point] + p1[point..] == p1;
    while i < len
      invariant point <= i <= len
      invariant child == Crossed(p1, p2, point, i)
    {
      assert p2[point..i + 1] == p2[point..i] + [p2[i]];
      child := child[i := p2[i]];
      i := i + 1;
    }
  }

  /**
   * `CrossoverStrategy::crossover`: the child copies parent1 (its network
   * being `copy`, the clone of parent1's network), then takes the crossed
   * genes through `NeuralGenome::setGenes`. With parent1's genes matching
   * the copied network, the child's genes and network agree.
   */
  method Crossover(parent1: NeuralGenome, p2: seq<real>, copy: NeuralNetwork, r: nat)
    returns (child: NeuralGenome, res: Result<()>)
    requires copy.Valid() && |parent1.genes| > 0 && |p2| > 0
    modifies Objs(copy.layers)
    ensures fresh(child) && child.Valid() && child.brain == copy && child.fitness == old(parent1.fitness)
    ensures var len := Min(|old(parent1.genes)|, |p2|);
      var g := Crossed(old(parent1.genes), p2, r % len, len);
      copy.Parameters() == Written(old(copy.Parameters()), g) &&
      (res.Ok? <==> |g| == |Flatten(old(copy.Parameters()))|) &&
      child.genes == if res.Ok? then g else old(parent1.genes)
    ensures |old(parent1.genes)| == |Flatten(old(copy.Parameters()))| ==> res.Ok? && child.Synced()
  {
    var p1 := parent1.genes;
    ghost var ps := copy.Parameters();
    ghost var pss := ParamLists(copy.layers);
    label Start:
    var g := CrossGenes(p1, p2, r);
    forall k | 0 <= k < |copy.layers|
      ensures copy.layers[k].Valid()
    {
      assert unchanged@Start(copy.layers[k].Obj());
    }
    assert unchanged@Start(copy.optimizer.Obj());
    assert copy.Valid();
    CrossedAt(p1, p2, r % Min(|p1|, |p2|), Min(|p1|, |p2|));
    label Before:
    child := new NeuralGenome.Copy(parent1, copy);
    forall k | 0 <= k < |copy.layers|
      ensures ParamLists(copy.layers)[k] == pss[k]
    {
      assert unchanged@Before(copy.layers[k].Obj());
    }
    assert ParamLists(copy.layers) == pss;
    assert copy.Parameters() == ps;
    res := child.SetGenes(g);
    assert copy.Parameters() == Written(ps, g);
    if |p1| == |Flatten(ps)| {
      GenesRoundTrip(ps, g);
    }
  }

  // --------------------------------------------------------------- mutation

  /** The nudge `(u - 0.5) * 0.2` of a uniform draw u in [0, 1]: at most 0.1 either way. */
  function Amount(u: real): (a: real)
    requires 0.0 <= u <= 1.0
    ensures -0.1 <= a <= 0.1
    ensures a == 0.0 <==> u == 0.5
  {
    (u - 0.5) * 0.2
  }

  /** The genes with gene `index` nudged by the draw u. */
  function Nudged(genes: seq<real>, index: nat, u: real): seq<real>
    requires index < |genes| && 0.0 <= u <= 1.0
  {
    genes[index := genes[index] + Amount(u)]
  }

  /** A nudge changes exactly one gene, by at most 0.1, and changes it unless the draw is 0.5. */
  lemma NudgedChangesOne(genes: seq<real>, index: nat, u: real)
    requires index < |genes| && 0.0 <= u <= 1.0
    ensures |Nudged(genes, index, u)| == |genes|
    ensures forall k :: 0 <= k < |genes| && k != index ==> Nudged(genes, index, u)[k] == genes[k]
    ensures -0.1 <= Nudged(genes, index, u)[index] - genes[index] <= 0.1
    ensures Nudged(genes, index, u) == genes <==> u == 0.5
  {
    if Nudged(genes, index, u) == genes {
      assert Nudged(genes, index, u)[index] == genes[index];
    }
  }

  /** The genes `mutate` computes: unchanged when empty, else gene `r % |genes|` nudged. */
  function Mutated(genes: seq<real>, r: nat, u: real): seq<real>
    requires 0.0 <= u <= 1.0
  {
    if |genes| == 0 then genes else Nudged(genes, r % |genes|, u)
  }

  /**
   * `MutationStrategy::mutate` as written: `setGenes` through a
   * `Genome<std::vector<float>>&` is the base class's, which replaces the
   * gene vector only. The network keeps its weights, so a genome whose genes
   * matched its network no longer does after any nudge but the zero one.
   */
  method MutateAsWritten(ind: NeuralGenome, r: nat, u: real)
    requires ind.Valid() && 0.0 <= u <= 1.0
    modifies ind
    ensures ind.Valid() && ind.brain == old(ind.brain) && ind.fitness == old(ind.fitness)
    ensures ind.genes == Mutated(old(ind.genes), r, u)
    ensures ind.brain.Parameters() == old(ind.brain.Parameters())
    ensures old(ind.Synced()) && |old(ind.genes)| > 0 && u != 0.5 ==> !ind.Synced()
  {
    GenomeApart(ind, ind.brain);
    var genes := ind.genes;
    if |genes| == 0 {
      return;
    }
    var index := r % |genes|;
    NudgedChangesOne(genes, index, u);
    ind.genes := Nudged(genes, index, u);
  }

  /**
   * `mutate` with the intended `NeuralGenome::setGenes`: the nudged genes
   * are written into the network too, so a genome whose genes matched its
   * network still does, and carries the nudged genes.
   */
  method Mutate(ind: NeuralGenome, r: nat, u: real) returns (res: Result<()>)
    requires ind.Valid() && 0.0 <= u <= 1.0
    modifies ind, Objs(ind.brain.layers)
    ensures ind.Valid() && ind.brain == old(ind.brain) && ind.fitness == old(ind.fitness)
    ensures |old(ind.genes)| == 0 ==> res.Ok? && ind.genes == old(ind.genes)
    ensures |old(ind.genes)| > 0 ==>
      ind.brain.Parameters() == Written(old(ind.brain.Parameters()), Mutated(old(ind.genes), r, u)) &&
      ind.genes == (if res.Ok? then Mutated(old(ind.genes), r, u) else old(ind.genes))
    ensures old(ind.Synced()) ==> res.Ok? && ind.Synced() && ind.genes == Mutated(old(ind.genes), r, u)
  {
    var genes := ind.genes;
    if |genes| == 0 {
      return Ok(());
    }
    ghost var ps := ind.brain.Parameters();
    var index := r % |genes|;
    var g := Nudged(genes, index, u);
    res := ind.SetGenes(g);
    if genes == Flatten(ps) {
      GenesRoundTrip(ps, g);
    }
  }

  // ------------------------------------------------------------- the driver

  /** The fitness that ends the run: `3.9999f`. */
  const Threshold: real := 3.9999

  /** The number of generations the driver runs at most. */
  const Generations: nat := 1000

  datatype Best = Best(fitness: real, index: nat)

  /** The scan for the best genome of a generation over its first n fitnesses: starts at -1.0, keeps the first maximum. */
  function BestScan(fs: seq<real>, n: nat): Best
    requires n <= |fs|
  {
    if n == 0 then Best(-1.0, 0)
    else
      var b := BestScan(fs, n - 1);
      if fs[n - 1] > b.fitness then Best(fs[n - 1], n - 1) else b
  }

  /** The scan finds the first maximum of the fitnesses, or keeps -1.0 when none exceeds it. */
  lemma {:induction false} BestScanIsFirstMax(fs: seq<real>, n: nat)
    requires n <= |fs|
    ensures BestScan(fs, n).fitness >= -1.0
    ensures forall k :: 0 <= k < n ==> fs[k] <= BestScan(fs, n).fitness
    ensures BestScan(fs, n).fitness > -1.0 ==>
      BestScan(fs, n).index < n && fs[BestScan(fs, n).index] == BestScan(fs, n).fitness &&
      forall k :: 0 <= k < BestScan(fs, n).index ==> fs[k] < BestScan(fs, n).fitness
    ensures BestScan(fs, n).fitness == -1.0 ==> BestScan(fs, n).index == 0
  {
    if n > 0 {
      BestScanIsFirstMax(fs, n - 1);
    }
  }

  /** The best-fitness loop of the driver over one generation. */
  method GenerationBest(fs: seq<real>) returns (best: real, idx: nat)
    ensures Best(best, idx) == BestScan(fs, |fs|)
  {
    best, idx := -1.0, 0;
    var i := 0;
    while i < |fs|
      invariant 0 <= i <= |fs|
      invariant Best(best, idx) == BestScan(fs, i)
    {
      if fs[i] > best {
        best, idx := fs[i], i;
      }
      i := i + 1;
    }
  }

  /** The best fitness ever after n generations: starts at 0 and rises to each better generation best. */
  function BestEver(gens: nat -> seq<real>, n: nat): real
  {
    if n == 0 then 0.0
    else
      var e := BestEver(gens, n - 1);
      var b := BestScan(gens(n - 1), |gens(n - 1)|).fitness;
      if b > e then b else e
  }

  /** The best fitness ever never falls, and bounds every generation's best. */
  lemma {:induction false} BestEverMonotone(gens: nat -> seq<real>, m: nat, n: nat)
    requires m <= n
    ensures 0.0 <= BestEver(gens, m) <= BestEver(gens, n)
    ensures forall g :: 0 <= g < n ==> BestScan(gens(g), |gens(g)|).fitness <= BestEver(gens, n)
  {
    if n > 0 {
      if m < n {
        BestEverMonotone(gens, m, n - 1);
      } else {
        BestEverMonotone(gens, m - 1, n - 1);
      }
    }
  }

  /**
   * The generation loop of `main`. Generation g's step yields the fitnesses
   * gens(g). The result is the best fitness ever, where it was found, the
   * number of generations run and whether a generation reached the
   * threshold.
   */
  method Evolve(gens: nat -> seq<real>) returns (bestEver: real, bestAt: Option<(nat, nat)>, ran: nat, solved: bool)
    ensures 1 <= ran <= Generations && (!solved ==> ran == Generations)
    ensures solved <==> BestScan(gens(ran - 1), |gens(ran - 1)|).fitness >= Threshold
    ensures forall g :: 0 <= g < ran - 1 ==> BestScan(gens(g), |gens(g)|).fitness < Threshold
    ensures bestEver == BestEver(gens, ran)
    ensures bestAt.None? ==> bestEver == 0.0
    ensures bestAt.Some? ==> bestAt.value.0 < ran && BestScan(gens(bestAt.value.0), |gens(bestAt.value.0)|) == Best(bestEver, bestAt.value.1)
  {
    bestEver, bestAt, solved := 0.0, None, false;
    var generation := 0;
    while generation < Generations && !solved
      invariant 0 <= generation <= Generations
      invariant generation == 0 ==> !solved
      invariant generation > 0 ==>
        (solved <==> BestScan(gens(generation - 1), |gens(generation - 1)|).fitness >= Threshold)
      invariant forall g :: 0 <= g < generation - 1 ==> BestScan(gens(g), |gens(g)|).fitness < Threshold
      invariant bestEver == BestEver(gens, generation)
      invariant bestAt.None? ==> bestEver == 0.0
      invariant bestAt.Some? ==>
        bestAt.value.0 < generation &&
        BestScan(gens(bestAt.value.0), |gens(bestAt.value.0)|) == Best(bestEver, bestAt.value.1)
    {
      var fs := gens(generation);
      var best, idx := GenerationBest(fs);
      if best > bestEver {
        bestEver, bestAt := best, Some((generation, idx));
      }
      solved := best >= Threshold;
      generation := generation + 1;
    }
    ran := generation;
  }
}
