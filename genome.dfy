// `NeuralGenome` of include/talawa/evo/NeuralGenome.hpp: a genome whose
// genes are the parameters of a network, flattened. Building a genome from a
// network reads every parameter matrix cell by cell, row-major, layer after
// layer and parameter after parameter; `setGenes` writes a gene vector back
// in the same order and only then adopts it as the genome's genes.
module Genomes {
  import opened Common
  import opened MatrixSpec
  import opened Networks
  import opened NeuralNetworks
  import opened OptimizerKinds

  // ------------------------------------------------------------ flattening

  /** The genes of parameters ps: the cells of each matrix in row-major order, one matrix after another. */
  function Flatten(ps: seq<Mat>): seq<real>
  {
    if |ps| == 0 then [] else Flatten(ps[..|ps| - 1]) + ps[|ps| - 1].data
  }

  /** The number of genes of well-formed parameters is their total number of cells. */
  function CellCount(ps: seq<Mat>): nat
  {
    if |ps| == 0 then 0 else CellCount(ps[..|ps| - 1]) + ps[|ps| - 1].rows * ps[|ps| - 1].cols
  }

  lemma {:induction false} FlattenLength(ps: seq<Mat>)
    requires AllWf(ps)
    ensures |Flatten(ps)| == CellCount(ps)
  {
    if |ps| > 0 {
      FlattenLength(ps[..|ps| - 1]);
    }
  }

  lemma {:induction false} FlattenAppend(ps: seq<Mat>, qs: seq<Mat>)
    ensures Flatten(ps + qs) == Flatten(ps) + Flatten(qs)
    decreases |qs|
  {
    if |qs| == 0 {
      assert ps + qs == ps;
    } else {
      var init := qs[..|qs| - 1];
      assert (ps + qs)[..|ps + qs| - 1] == ps + init;
      FlattenAppend(ps, init);
    }
  }

  /** Matrices of the same shapes hold the same number of genes. */
  lemma {:induction false} FittingLength(ps: seq<Mat>, qs: seq<Mat>)
    requires Fitting(ps, qs) && AllWf(ps) && AllWf(qs)
    ensures |Flatten(ps)| == |Flatten(qs)|
  {
    if |ps| > 0 {
      FittingLength(ps[..|ps| - 1], qs[..|qs| - 1]);
    }
  }

  // ------------------------------------------------------------ writing genes

  /** The cells of d with the genes g written over them from the front; genes beyond d are not written. */
  function Overlay(d: seq<real>, g: seq<real>): (r: seq<real>)
  {
    if |g| >= |d| then g[..|d|] else g + d[|g|..]
  }

  /** The genes left after the first n were used: none when there were at most n. */
  function Drop(g: seq<real>, n: nat): seq<real>
  {
    if n <= |g| then g[n..] else []
  }

  /**
   * What `setGenes(g)` leaves in parameters ps: the cells in flattened order
   * take the genes one by one, until either runs out.
   */
  function Written(ps: seq<Mat>, g: seq<real>): (qs: seq<Mat>)
    ensures |qs| == |ps|
  {
    if |ps| == 0 then []
    else
      var last := ps[|ps| - 1];
      Written(ps[..|ps| - 1], g) + [last.(data := Overlay(last.data, Drop(g, |Flatten(ps[..|ps| - 1])|)))]
  }

  lemma OverlayShape(d: seq<real>, g: seq<real>)
    ensures |Overlay(d, g)| == |d|
    ensures forall k :: 0 <= k < |d| ==> Overlay(d, g)[k] == if k < |g| then g[k] else d[k]
  {}

  /** Writing genes keeps every matrix's shape. */
  lemma {:induction false} WrittenFits(ps: seq<Mat>, g: seq<real>)
    requires AllWf(ps)
    ensures Fitting(ps, Written(ps, g)) && AllWf(Written(ps, g))
  {
    if |ps| > 0 {
      WrittenFits(ps[..|ps| - 1], g);
      OverlayShape(ps[|ps| - 1].data, Drop(g, |Flatten(ps[..|ps| - 1])|));
    }
  }

  /** Read back, the written parameters give the flat cells with the genes written over them. */
  lemma {:induction false} FlattenWritten(ps: seq<Mat>, g: seq<real>)
    ensures Flatten(Written(ps, g)) == Overlay(Flatten(ps), g)
  {
    if |ps| > 0 {
      var init, last := ps[..|ps| - 1], ps[|ps| - 1];
      FlattenWritten(init, g);
      var w := Written(ps, g);
      assert w[..|w| - 1] == Written(init, g);
      OverlayConcat(Flatten(init), last.data, g);
    }
  }

  /** Writing genes over two runs of cells is writing over the first, then the rest of the genes over the second. */
  lemma OverlayConcat(a: seq<real>, b: seq<real>, g: seq<real>)
    ensures Overlay(a + b, g) == Overlay(a, g) + Overlay(b, Drop(g, |a|))
  {
    OverlayShape(a + b, g);
    OverlayShape(a, g);
    OverlayShape(b, Drop(g, |a|));
    var lhs, rhs := Overlay(a + b, g), Overlay(a, g) + Overlay(b, Drop(g, |a|));
    forall k | 0 <= k < |lhs| ensures lhs[k] == rhs[k] {
      if k >= |a| {
        assert rhs[k] == Overlay(b, Drop(g, |a|))[k - |a|];
      }
    }
  }

  /**
   * Genes that start with the flattened parameters write the parameters
   * over themselves.
   */
  lemma {:induction false} WrittenOwnGenes(ps: seq<Mat>, g: seq<real>)
    requires |Flatten(ps)| <= |g| && g[..|Flatten(ps)|] == Flatten(ps)
    ensures Written(ps, g) == ps
  {
    if |ps| > 0 {
      var init, last := ps[..|ps| - 1], ps[|ps| - 1];
      assert Flatten(ps) == Flatten(init) + last.data;
      PrefixParts(g, Flatten(init), last.data);
      WrittenOwnGenes(init, g);
      OverlayOwn(last.data, Drop(g, |Flatten(init)|));
      WrittenLast(ps, g);
      assert last.(data := last.data) == last;
      LastSplit(ps);
    }
  }

  lemma LastSplit(ps: seq<Mat>)
    requires |ps| > 0
    ensures ps == ps[..|ps| - 1] + [ps[|ps| - 1]]
  {
  }

  /** Written, one matrix at a time: the last matrix takes the genes the others left. */
  lemma WrittenLast(ps: seq<Mat>, g: seq<real>)
    requires |ps| > 0
    ensures Written(ps, g) == Written(ps[..|ps| - 1], g) +
      [ps[|ps| - 1].(data := Overlay(ps[|ps| - 1].data, Drop(g, |Flatten(ps[..|ps| - 1])|)))]
  {
  }

  /** A prefix a + b of g gives a as g's prefix and b as the prefix of what follows it. */
  lemma PrefixParts(g: seq<real>, a: seq<real>, b: seq<real>)
    requires |a| + |b| <= |g| && g[..|a + b|] == a + b
    ensures g[..|a|] == a && |b| <= |Drop(g, |a|)| && Drop(g, |a|)[..|b|] == b
  {
    assert g[..|a|] == (a + b)[..|a|];
    forall k | 0 <= k < |b| ensures Drop(g, |a|)[k] == b[k] {
      assert Drop(g, |a|)[k] == g[|a| + k] == (a + b)[|a| + k];
    }
  }

  /** Genes that start with d's own cells write d over itself. */
  lemma OverlayOwn(d: seq<real>, h: seq<real>)
    requires |d| <= |h| && h[..|d|] == d
    ensures Overlay(d, h) == d
  {
  }

  /** `setGenes(getGenes())` leaves a genome whose genes match its network unchanged. */
  lemma SetOwnGenes(ps: seq<Mat>)
    ensures Written(ps, Flatten(ps)) == ps
  {
    WrittenOwnGenes(ps, Flatten(ps));
  }

  /** After `setGenes(g)` with exactly as many genes as cells, flattening the network gives back g. */
  lemma GenesRoundTrip(ps: seq<Mat>, g: seq<real>)
    requires |g| == |Flatten(ps)|
    ensures Flatten(Written(ps, g)) == g
  {
    FlattenWritten(ps, g);
  }

  // ----------------------------------------------------------- the loops

  /** One matrix's cells appended to the genes, row by row. */
  method PushCells(genes0: seq<real>, p: Mat) returns (genes: seq<real>)
    requires Wf(p)
    ensures genes == genes0 + p.data
  {
    genes := genes0;
    var i := 0;
    while i < p.rows
      invariant 0 <= i <= p.rows
      invariant i * p.cols <= |p.data| && genes == genes0 + p.data[..i * p.cols]
    {
      var j := 0;
      while j < p.cols
        invariant 0 <= j <= p.cols
        invariant i * p.cols + j <= |p.data| && genes == genes0 + p.data[..i * p.cols + j]
      {
        FlatIndex(i, j, p.rows, p.cols);
        assert p.data[..i * p.cols + j + 1] == p.data[..i * p.cols + j] + [Get(p, i, j)];
        genes := genes + [Get(p, i, j)];
        j := j + 1;
      }
      assert i * p.cols + p.cols == (i + 1) * p.cols;
      i := i + 1;
    }
    assert p.data[..p.rows * p.cols] == p.data;
  }

  /** The constructor's loops: every parameter's cells, in order. */
  method FlattenParameters(ps: seq<Mat>) returns (genes: seq<real>)
    requires AllWf(ps)
    ensures genes == Flatten(ps)
  {
    genes := [];
    var i := 0;
    while i < |ps|
      invariant 0 <= i <= |ps| && genes == Flatten(ps[..i])
    {
      assert ps[..i + 1][..i] == ps[..i];
      genes := PushCells(genes, ps[i]);
      i := i + 1;
    }
    assert ps[..i] == ps;
  }

  /**
   * The cell loops of `setGenes` over one matrix, starting at gene `start`:
   * each cell takes the next gene while there is one. `complete` is false
   * when the genes ran out before the last cell.
   */
  method WriteCells(p: Mat, g: seq<real>, start: nat) returns (q: Mat, next: nat, complete: bool)
    requires Wf(p) && start <= |g|
    ensures q == p.(data := Overlay(p.data, g[start..]))
    ensures complete <==> start + |p.data| <= |g|
    ensures next == if complete then start + |p.data| else |g|
  {
    var d := p.data;
    var i := 0;
    while i < p.rows
      invariant 0 <= i <= p.rows && i * p.cols <= |p.data|
      invariant start + i * p.cols <= |g| && d == g[start..start + i * p.cols] + p.data[i * p.cols..]
    {
      var ok;
      d, ok := WriteRow(p, g, start, d, i);
      if !ok {
        return p.(data := d), |g|, false;
      }
      i := i + 1;
    }
    assert p.rows * p.cols == |p.data|;
    OverlayFull(p.data, g, start, d);
    q, next, complete := p.(data := d), start + |p.data|, true;
  }

  /** The inner loop of `setGenes` for row i: its cells take the next genes while there are any. */
  method WriteRow(p: Mat, g: seq<real>, start: nat, d0: seq<real>, i: nat) returns (d: seq<real>, complete: bool)
    requires Wf(p) && i < p.rows && start + i * p.cols <= |g|
    requires d0 == g[start..start + i * p.cols] + p.data[i * p.cols..]
    ensures (i + 1) * p.cols <= |p.data|
    ensures complete <==> start + (i + 1) * p.cols <= |g|
    ensures complete ==> d == g[start..start + (i + 1) * p.cols] + p.data[(i + 1) * p.cols..]
    ensures !complete ==> d == Overlay(p.data, g[start..])
  {
    RowWithin(i, p.rows, p.cols);
    d := d0;
    var next := start + i * p.cols;
    var j := 0;
    while j < p.cols
      invariant 0 <= j <= p.cols && next == start + i * p.cols + j <= |g|
      invariant d == g[start..next] + p.data[i * p.cols + j..]
    {
      if next < |g| {
        WriteOne(p.data, g, start, next, d);
        d := d[next - start := g[next]];
        next := next + 1;
      } else {
        OverlayShort(p.data, g, start, d);
        return d, false;
      }
      j := j + 1;
    }
    assert i * p.cols + p.cols == (i + 1) * p.cols;
    complete := true;
  }

  /** Row i of a rows x cols matrix ends within its cells. */
  lemma RowWithin(i: nat, rows: nat, cols: nat)
    requires i < rows
    ensures 0 <= i * cols && (i + 1) * cols <= rows * cols
  {
    assert (i + 1) * cols <= rows * cols by {
      assert i + 1 <= rows;
    }
  }

  /** Writing gene `next` into cell next - start extends the written prefix by one. */
  lemma WriteOne(cells: seq<real>, g: seq<real>, start: nat, next: nat, d: seq<real>)
    requires start <= next < |g| && next - start < |cells| && d == g[start..next] + cells[next - start..]
    ensures d[next - start := g[next]] == g[start..next + 1] + cells[next - start + 1..]
  {
  }

  /** Genes that run out at cell |g| - start leave the cells overlaid with all of them. */
  lemma OverlayShort(cells: seq<real>, g: seq<real>, start: nat, d: seq<real>)
    requires start <= |g| < start + |cells| && d == g[start..] + cells[|g| - start..]
    ensures d == Overlay(cells, g[start..])
  {
  }

  /** Genes that cover every cell leave exactly the genes used. */
  lemma OverlayFull(cells: seq<real>, g: seq<real>, start: nat, d: seq<real>)
    requires start + |cells| <= |g| && d == g[start..start + |cells|] + cells[|cells|..]
    ensures d == Overlay(cells, g[start..])
  {
    assert cells[|cells|..] == [];
  }

  /**
   * The parameter loop of `setGenes`: the matrices in order, stopping at the
   * first one the genes do not cover. `used` is how many genes were written.
   */
  method WriteGenes(ps: seq<Mat>, g: seq<real>) returns (qs: seq<Mat>, used: nat, complete: bool)
    requires AllWf(ps)
    ensures qs == Written(ps, g)
    ensures complete <==> |Flatten(ps)| <= |g|
    ensures used == if complete then |Flatten(ps)| else |g|
  {
    qs := [];
    used := 0;
    var i := 0;
    while i < |ps|
      invariant 0 <= i <= |ps| && qs == Written(ps[..i], g)
      invariant |Flatten(ps[..i])| <= |g| && used == |Flatten(ps[..i])|
    {
      assert ps[..i + 1][..i] == ps[..i];
      assert Flatten(ps[..i + 1]) == Flatten(ps[..i]) + ps[i].data;
      var q, next, ok := WriteCells(ps[i], g, used);
      assert Drop(g, used) == g[used..];
      qs := qs + [q];
      if !ok {
        qs := qs + ps[i + 1..];
        used, complete := next, false;
        ExhaustedFlatten(ps, i + 1, g);
        return;
      }
      used := next;
      i := i + 1;
    }
    assert ps[..i] == ps;
    complete := true;
  }

  lemma ExhaustedFlatten(ps: seq<Mat>, i: nat, g: seq<real>)
    requires 0 < i <= |ps| && AllWf(ps) && |g| < |Flatten(ps[..i])|
    ensures |g| < |Flatten(ps)|
    ensures Written(ps[..i], g) + ps[i..] == Written(ps, g)
  {
    FlattenAppend(ps[..i], ps[i..]);
    assert ps[..i] + ps[i..] == ps;
    WrittenExhausted(ps, i, g);
  }

  lemma {:induction false} WrittenExhausted(ps: seq<Mat>, i: nat, g: seq<real>)
    requires 0 < i <= |ps| && |g| < |Flatten(ps[..i])|
    ensures Written(ps[..i], g) + ps[i..] == Written(ps, g)
  {
    if i < |ps| {
      var init, last := ps[..|ps| - 1], ps[|ps| - 1];
      assert init[..i] == ps[..i];
      PrefixGenes(init, i);
      WrittenExhausted(init, i, g);
      WrittenPastGenes(ps, g);
      assert ps[i..] == init[i..] + [last];
      MatsAssoc(Written(ps[..i], g), init[i..], [last]);
    } else {
      assert ps[..i] == ps;
    }
  }

  lemma MatsAssoc(a: seq<Mat>, b: seq<Mat>, c: seq<Mat>)
    ensures a + (b + c) == (a + b) + c
  {
  }

  /** The genes of a prefix are no more than those of the whole. */
  lemma PrefixGenes(ps: seq<Mat>, i: nat)
    requires i <= |ps|
    ensures |Flatten(ps[..i])| <= |Flatten(ps)|
  {
    FlattenAppend(ps[..i], ps[i..]);
    assert ps[..i] + ps[i..] == ps;
  }

  /** The last matrix, when the genes ran out before it, is written unchanged. */
  lemma WrittenPastGenes(ps: seq<Mat>, g: seq<real>)
    requires 0 < |ps| && |g| <= |Flatten(ps[..|ps| - 1])|
    ensures Written(ps, g) == Written(ps[..|ps| - 1], g) + [ps[|ps| - 1]]
  {
    assert Drop(g, |Flatten(ps[..|ps| - 1])|) == [];
    assert Overlay(ps[|ps| - 1].data, []) == ps[|ps| - 1].data;
  }

  // ------------------------------------------------------------ the genome

  /**
   * `NeuralGenome`: a network (the brain) with genes and a fitness. The
   * genes are the brain's flattened parameters when the genome is built,
   * and again after every successful `setGenes`.
   */
  class NeuralGenome {
    var brain: NeuralNetwork
    var genes: seq<real>
    var fitness: real

    ghost predicate Valid()
      reads this, brain, brain.Repr()
    {
      brain.Valid()
    }

    /** The genes match the brain's parameters. */
    ghost predicate Synced()
      reads this, brain, Objs(brain.layers)
    {
      genes == Flatten(brain.Parameters())
    }

    /** `NeuralGenome(nn)`: the network's parameters, flattened, become the genes; the fitness is 0. */
    constructor (nn: NeuralNetwork)
      requires nn.Valid()
      ensures brain == nn && Valid() && Synced() && fitness == 0.0
    {
      var g := GenesOf(nn);
      brain, genes, fitness := nn, g, 0.0;
      new;
      GenomeApart(this, nn);
    }

    /**
     * The copy constructor: the genes and the fitness of other, with
     * `copy` standing for the copy of other's network that
     * `NeuralNetwork`'s copy constructor makes.
     */
    constructor Copy(other: NeuralGenome, copy: NeuralNetwork)
      requires copy.Valid()
      ensures brain == copy && genes == other.genes && fitness == other.fitness && Valid()
    {
      brain, genes, fitness := copy, other.genes, other.fitness;
      new;
      GenomeApart(this, copy);
    }

    /** `operator=`: a genome assigned to itself is unchanged; otherwise it takes other's network copy, genes and fitness. */
    method Assign(other: NeuralGenome, copy: NeuralNetwork)
      modifies this
      ensures this == other ==> brain == old(brain) && genes == old(genes) && fitness == old(fitness)
      ensures this != other ==> brain == copy && genes == old(other.genes) && fitness == old(other.fitness)
    {
      if this != other {
        brain, genes, fitness := copy, other.genes, other.fitness;
      }
    }

    /** `predict`: the brain's prediction. */
    method Predict(x: Mat) returns (r: Result<Mat>)
      requires Valid() && Wf(x)
      modifies Objs(brain.layers)
      ensures Valid() && brain.Parameters() == old(brain.Parameters())
      ensures r == Run(old(brain.States()), x, old(|brain.layers|))
    {
      var b := brain;
      GenomeApart(this, b);
      r := b.Predict(x);
    }

    method SetFitness(f: real)
      modifies this
      ensures fitness == f && brain == old(brain) && genes == old(genes)
    {
      fitness := f;
    }

    /**
     * `setGenes(g)`: the cells of the brain take the genes in flattened
     * order. Too few genes throw "Not enough genes" after the cells they
     * covered were written; too many throw "Too many genes" after every cell
     * was written; in both cases the genome keeps its old genes.
     */
    method SetGenes(g: seq<real>) returns (r: Result<()>)
      requires Valid()
      modifies this, Objs(brain.layers)
      ensures Valid() && brain == old(brain) && fitness == old(fitness)
      ensures brain.Parameters() == Written(old(brain.Parameters()), g)
      ensures |g| < |Flatten(old(brain.Parameters()))| ==> r == Err("Not enough genes to set all parameters.")
      ensures |g| > |Flatten(old(brain.Parameters()))| ==> r == Err("Too many genes provided for the genome.")
      ensures |g| == |Flatten(old(brain.Parameters()))| ==> r == Ok(())
      ensures genes == if r.Ok? then g else old(genes)
    {
      var b := brain;
      GenomeApart(this, b);
      var qs, used, complete := WriteAll(b, g);
      if !complete {
        return Err("Not enough genes to set all parameters.");
      }
      if used != |g| {
        return Err("Too many genes provided for the genome.");
      }
      genes := g;
      r := Ok(());
    }
  }

  /** The constructor's loops over a network: its parameters, flattened. */
  method GenesOf(nn: NeuralNetwork) returns (g: seq<real>)
    requires nn.Valid()
    ensures nn.Valid() && g == Flatten(nn.Parameters())
  {
    var ps := nn.Parameters();
    ghost var pss := ParamLists(nn.layers);
    ParametersWf(nn.layers);
    label Before:
    g := FlattenParameters(ps);
    forall k | 0 <= k < |nn.layers|
      ensures ParamLists(nn.layers)[k] == pss[k] && nn.layers[k].Valid()
    {
      assert unchanged@Before(nn.layers[k].Obj());
    }
    assert ParamLists(nn.layers) == pss;
    assert unchanged@Before(nn.optimizer.Obj());
  }

  /** The genome is neither its network nor one of the objects the network owns. */
  lemma GenomeApart(g: NeuralGenome, n: NeuralNetwork)
    ensures g as object != n && g !in n.Repr() && g !in Objs(n.layers)
  {
  }

  /** The loops of `setGenes`: the network's cells take the genes, and the network takes the result. */
  method WriteAll(b: NeuralNetwork, g: seq<real>) returns (qs: seq<Mat>, used: nat, complete: bool)
    requires b.Valid()
    modifies Objs(b.layers)
    ensures b.Valid() && qs == Written(old(b.Parameters()), g) && b.Parameters() == qs
    ensures complete <==> |Flatten(old(b.Parameters()))| <= |g|
    ensures used == if complete then |Flatten(old(b.Parameters()))| else |g|
  {
    qs, used, complete := GenesWritten(b, g);
    b.Store(qs);
  }

  /** The value half of `setGenes`' loops: what the network's cells become, the network still untouched. */
  method GenesWritten(b: NeuralNetwork, g: seq<real>) returns (qs: seq<Mat>, used: nat, complete: bool)
    requires b.Valid()
    ensures b.Valid() && b.Parameters() == old(b.Parameters()) && qs == Written(b.Parameters(), g)
    ensures Fitting(b.Parameters(), qs) && AllWf(qs)
    ensures complete <==> |Flatten(b.Parameters())| <= |g|
    ensures used == if complete then |Flatten(b.Parameters())| else |g|
  {
    var ps := b.Parameters();
    ghost var pss := ParamLists(b.layers);
    ParametersWf(b.layers);
    label Before:
    qs, used, complete := WriteGenes(ps, g);
    forall k | 0 <= k < |b.layers|
      ensures ParamLists(b.layers)[k] == pss[k] && b.layers[k].Valid()
    {
      assert unchanged@Before(b.layers[k].Obj());
    }
    assert ParamLists(b.layers) == pss;
    assert unchanged@Before(b.optimizer.Obj());
    WrittenFits(ps, g);
  }
}
