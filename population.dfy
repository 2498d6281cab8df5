// `Population<T>` of include/talawa/evo/Population.hpp: a double-buffered
// genetic-algorithm population. The active buffer holds the current
// generation; `step` scores it, breeds the next generation into the spare
// buffer and swaps the two. Genomes are owned by their slot (`unique_ptr`),
// so a slot holds a genome value or nothing. The four strategies are
// functions; the random numbers a strategy draws are given to it as one
// drawn number per call.
module Populations {
  import opened Common

  /** `Genome<T>` as the population sees it: genes and a fitness. */
  datatype Genome<T> = Genome(genes: T, fitness: real)

  /** A slot of a generation buffer: a genome, or a null pointer. */
  type Slot<T> = Option<Genome<T>>

  /** `ISelectionStrategy::select` given its drawn number. */
  type Selection<!T> = (seq<Slot<T>>, nat) -> Genome<T>
  /** `ICrossoverStrategy::crossover` given its drawn number; `None` is a null offspring. */
  type Crossover<!T> = (Genome<T>, Genome<T>, nat) -> Slot<T>
  /** `IMutationStrategy::mutate` given its drawn number. */
  type Mutation<!T> = (Genome<T>, nat) -> Genome<T>
  /** `IFitnessStrategy::calculateFitness`. */
  type Fitness<!T> = Genome<T> -> real

  /** The four strategies once all of them are configured. */
  datatype Strategies<!T> = Strategies(select: Selection<T>, cross: Crossover<T>, mutate: Mutation<T>, fitness: Fitness<T>)

  // ------------------------------------------------------------ specification

  /** The first n genomes a generator produces, slot i taking the i-th. */
  function Generated<T>(generate: nat -> Slot<T>, n: nat): (r: seq<Slot<T>>)
    ensures |r| == n
  {
    if n == 0 then [] else Generated(generate, n - 1) + [generate(n - 1)]
  }

  lemma {:induction false} GeneratedAt<T>(generate: nat -> Slot<T>, n: nat, i: nat)
    requires i < n
    ensures Generated(generate, n)[i] == generate(i)
  {
    if i < n - 1 {
      GeneratedAt(generate, n - 1, i);
    }
  }

  /** A slot after `evaluateFitness`: a genome takes the fitness of itself, a null slot is skipped. */
  function Scored<T>(s: Slot<T>, fit: Fitness<T>): Slot<T>
  {
    match s
    case None => None
    case Some(g) => Some(g.(fitness := fit(g)))
  }

  /** The first n slots of pop after `evaluateFitness`. */
  function Evaluated<T>(pop: seq<Slot<T>>, fit: Fitness<T>, n: nat): (r: seq<Slot<T>>)
    requires n <= |pop|
    ensures |r| == n
  {
    if n == 0 then [] else Evaluated(pop, fit, n - 1) + [Scored(pop[n - 1], fit)]
  }

  lemma {:induction false} EvaluatedIs<T>(pop: seq<Slot<T>>, fit: Fitness<T>, n: nat, i: nat)
    requires i < n <= |pop|
    ensures Evaluated(pop, fit, n)[i] == Scored(pop[i], fit)
  {
    if i < n - 1 {
      EvaluatedIs(pop, fit, n - 1, i);
    }
  }

  /** Evaluation keeps null slots null and every genome's genes, and gives each genome its own fitness. */
  lemma {:induction false} EvaluatedAt<T>(pop: seq<Slot<T>>, fit: Fitness<T>, n: nat, i: nat)
    requires i < n <= |pop|
    ensures Evaluated(pop, fit, n)[i].Some? <==> pop[i].Some?
    ensures pop[i].Some? ==> Evaluated(pop, fit, n)[i].value.genes == pop[i].value.genes
    ensures pop[i].Some? ==> Evaluated(pop, fit, n)[i].value.fitness == fit(pop[i].value)
  {
    EvaluatedIs(pop, fit, n, i);
  }

  /**
   * Offspring i of `createNewGeneration`: two selections from pop, their
   * crossover, then the child mutated and given its fitness; `None` when
   * the crossover returns a null offspring. Call i draws numbers
   * draws(4i) to draws(4i + 3), one per strategy call.
   */
  function Offspring<T>(pop: seq<Slot<T>>, st: Strategies<T>, draws: nat -> nat, i: nat): Slot<T>
  {
    var p1 := st.select(pop, draws(4 * i));
    var p2 := st.select(pop, draws(4 * i + 1));
    match st.cross(p1, p2, draws(4 * i + 2))
    case None => None
    case Some(c) =>
      var m := st.mutate(c, draws(4 * i + 3));
      Some(m.(fitness := st.fitness(m)))
  }

  /** The first n offspring, in slot order. */
  function Bred<T>(pop: seq<Slot<T>>, st: Strategies<T>, draws: nat -> nat, n: nat): (r: seq<Slot<T>>)
    ensures |r| == n
  {
    if n == 0 then [] else Bred(pop, st, draws, n - 1) + [Offspring(pop, st, draws, n - 1)]
  }

  /** The first slot below n whose crossover returns a null offspring, or n when there is none. */
  function FirstNull<T>(pop: seq<Slot<T>>, st: Strategies<T>, draws: nat -> nat, n: nat): (k: nat)
    ensures k <= n
    ensures k < n ==> Offspring(pop, st, draws, k).None?
    ensures forall i :: 0 <= i < k ==> Offspring(pop, st, draws, i).Some?
  {
    if n == 0 then 0
    else
      var k := FirstNull(pop, st, draws, n - 1);
      if k < n - 1 then k
      else if Offspring(pop, st, draws, n - 1).None? then n - 1
      else n
  }

  lemma {:induction false} BredAt<T>(pop: seq<Slot<T>>, st: Strategies<T>, draws: nat -> nat, n: nat, i: nat)
    requires i < n
    ensures Bred(pop, st, draws, n)[i] == Offspring(pop, st, draws, i)
  {
    if i < n - 1 {
      BredAt(pop, st, draws, n - 1, i);
    }
  }

  /** A sequence agreeing with a on its first k places and with b after them is a followed by b[k..]. */
  lemma Spliced<X>(s: seq<X>, a: seq<X>, b: seq<X>, k: nat)
    requires |a| == k <= |b| == |s|
    requires forall j :: 0 <= j < k ==> s[j] == a[j]
    requires forall j :: k <= j < |s| ==> s[j] == b[j]
    ensures s == a + b[k..]
  {
  }

  // ------------------------------------------------------------ the loops

  /** `evaluateFitness`: every genome of the buffer takes its fitness. */
  method EvaluateFitness<T>(pop: seq<Slot<T>>, fit: Fitness<T>) returns (r: seq<Slot<T>>)
    ensures r == Evaluated(pop, fit, |pop|)
  {
    r := pop;
    var i := 0;
    while i < |pop|
      invariant 0 <= i <= |pop| && |r| == |pop|
      invariant forall j :: 0 <= j < i ==> r[j] == Scored(pop[j], fit)
      invariant forall j :: i <= j < |pop| ==> r[j] == pop[j]
    {
      r := r[i := Scored(pop[i], fit)];
      i := i + 1;
    }
    ghost var e := Evaluated(pop, fit, |pop|);
    forall j | 0 <= j < |pop|
      ensures r[j] == e[j]
    {
      EvaluatedIs(pop, fit, |pop|, j);
    }
    Spliced(r, e, pop, |pop|);
  }

  /**
   * `createNewGeneration`: slot i of the spare buffer takes offspring i, for
   * i below size; a null offspring stops the loop, leaving the slots before
   * it written and `ok` false.
   */
  method CreateNewGeneration<T>(pop: seq<Slot<T>>, st: Strategies<T>, draws: nat -> nat, spare: seq<Slot<T>>, size: nat)
    returns (next: seq<Slot<T>>, ok: bool)
    requires |spare| == size
    ensures var k := FirstNull(pop, st, draws, size);
      ok == (k == size) && next == Bred(pop, st, draws, k) + spare[k..]
  {
    next := spare;
    var i := 0;
    while i < size
      invariant 0 <= i <= size && |next| == size
      invariant FirstNull(pop, st, draws, i) == i
      invariant forall j :: 0 <= j < i ==> next[j] == Offspring(pop, st, draws, j)
      invariant forall j :: i <= j < size ==> next[j] == spare[j]
    {
      var p1 := st.select(pop, draws(4 * i));
      var p2 := st.select(pop, draws(4 * i + 1));
      var offspring := st.cross(p1, p2, draws(4 * i + 2));
      if offspring.None? {
        NullStops(pop, st, draws, i, size);
        BredSplice(pop, st, draws, i, next, spare);
        return next, false;
      }
      var child := st.mutate(offspring.value, draws(4 * i + 3));
      child := child.(fitness := st.fitness(child));
      assert Offspring(pop, st, draws, i) == Some(child);
      assert FirstNull(pop, st, draws, i + 1) == i + 1;
      next := next[i := Some(child)];
      i := i + 1;
    }
    BredSplice(pop, st, draws, size, next, spare);
    ok := true;
  }

  /** A buffer holding the first k offspring, then the rest of spare, is Bred(k) followed by spare[k..]. */
  lemma BredSplice<T>(pop: seq<Slot<T>>, st: Strategies<T>, draws: nat -> nat, k: nat, next: seq<Slot<T>>, spare: seq<Slot<T>>)
    requires k <= |spare| == |next|
    requires forall j :: 0 <= j < k ==> next[j] == Offspring(pop, st, draws, j)
    requires forall j :: k <= j < |next| ==> next[j] == spare[j]
    ensures next == Bred(pop, st, draws, k) + spare[k..]
  {
    var b := Bred(pop, st, draws, k);
    forall j | 0 <= j < k
      ensures next[j] == b[j]
    {
      BredAt(pop, st, draws, k, j);
    }
    Spliced(next, b, spare, k);
  }

  /** The first null offspring is the first null offspring below any larger bound. */
  lemma {:induction false} NullStops<T>(pop: seq<Slot<T>>, st: Strategies<T>, draws: nat -> nat, k: nat, n: nat)
    requires k < n && FirstNull(pop, st, draws, k) == k && Offspring(pop, st, draws, k).None?
    ensures FirstNull(pop, st, draws, n) == k
    decreases n
  {
    if n - 1 > k {
      NullStops(pop, st, draws, k, n - 1);
    }
  }

  // ------------------------------------------------------------ the population

  class Population<T> {
    var initialized: bool
    /** `_genomesA`, the active buffer that `getGenomes()` returns. */
    var genomesA: seq<Slot<T>>
    /** `_genomesB`, the spare buffer that `getNewGenomes()` returns. */
    var genomesB: seq<Slot<T>>
    const size: nat

    var selection: Option<Selection<T>>
    var crossover: Option<Crossover<T>>
    var mutation: Option<Mutation<T>>
    var fitnessCalc: Option<Fitness<T>>

    /** Both buffers hold exactly `size` slots. */
    ghost predicate Valid()
      reads this
    {
      |genomesA| == size && |genomesB| == size
    }

    /** `Population(size)`: two buffers of size null slots, no strategy, not initialized. */
    constructor (n: nat)
      ensures Valid() && size == n && !initialized
      ensures genomesA == seq(n, _ => None) && genomesB == seq(n, _ => None)
      ensures selection.None? && crossover.None? && mutation.None? && fitnessCalc.None?
    {
      size := n;
      initialized := false;
      genomesA, genomesB := seq(n, _ => None), seq(n, _ => None);
      selection, crossover, mutation, fitnessCalc := None, None, None, None;
    }

    method SetSelectionStrategy(s: Selection<T>)
      modifies this
      ensures selection == Some(s) && crossover == old(crossover) && mutation == old(mutation)
      ensures fitnessCalc == old(fitnessCalc) && initialized == old(initialized)
      ensures genomesA == old(genomesA) && genomesB == old(genomesB)
    {
      selection := Some(s);
    }

    method SetCrossoverStrategy(c: Crossover<T>)
      modifies this
      ensures crossover == Some(c) && selection == old(selection) && mutation == old(mutation)
      ensures fitnessCalc == old(fitnessCalc) && initialized == old(initialized)
      ensures genomesA == old(genomesA) && genomesB == old(genomesB)
    {
      crossover := Some(c);
    }

    method SetMutationStrategy(m: Mutation<T>)
      modifies this
      ensures mutation == Some(m) && selection == old(selection) && crossover == old(crossover)
      ensures fitnessCalc == old(fitnessCalc) && initialized == old(initialized)
      ensures genomesA == old(genomesA) && genomesB == old(genomesB)
    {
      mutation := Some(m);
    }

    method SetFitnessStrategy(f: Fitness<T>)
      modifies this
      ensures fitnessCalc == Some(f) && selection == old(selection) && crossover == old(crossover)
      ensures mutation == old(mutation) && initialized == old(initialized)
      ensures genomesA == old(genomesA) && genomesB == old(genomesB)
    {
      fitnessCalc := Some(f);
    }

    /** `initialize(generator)`: slot i of the active buffer takes the i-th generated genome. */
    method Initialize(generate: nat -> Slot<T>)
      requires Valid()
      modifies this
      ensures Valid() && initialized
      ensures genomesA == Generated(generate, size) && genomesB == old(genomesB)
      ensures selection == old(selection) && crossover == old(crossover)
      ensures mutation == old(mutation) && fitnessCalc == old(fitnessCalc)
    {
      var i := 0;
      while i < |genomesA|
        invariant 0 <= i <= size && |genomesA| == size && genomesB == old(genomesB)
        invariant forall j :: 0 <= j < i ==> genomesA[j] == generate(j)
        invariant selection == old(selection) && crossover == old(crossover)
        invariant mutation == old(mutation) && fitnessCalc == old(fitnessCalc)
      {
        genomesA := genomesA[i := generate(i)];
        i := i + 1;
      }
      ghost var gen := Generated(generate, size);
      forall j | 0 <= j < size
        ensures genomesA[j] == gen[j]
      {
        GeneratedAt(generate, size, j);
      }
      Spliced(genomesA, gen, genomesA, size);
      initialized := true;
    }

    /** The strategies, when all four are configured. */
    function Configured(): Option<Strategies<T>>
      reads this
    {
      if selection.Some? && crossover.Some? && mutation.Some? && fitnessCalc.Some? then
        Some(Strategies(selection.value, crossover.value, mutation.value, fitnessCalc.value))
      else None
    }

    /**
     * `step()`: it throws before touching anything when the population is
     * not initialized or a strategy is missing. Otherwise the active buffer
     * is scored, the next generation is bred from it into the spare buffer
     * and the buffers are swapped, so the new generation is active and the
     * scored one is spare. A null offspring throws after the scoring and the
     * slots bred before it, without the swap.
     */
    method Step(draws: nat -> nat) returns (r: Result<seq<Slot<T>>>)
      requires Valid()
      modifies this
      ensures Valid() && initialized == old(initialized)
      ensures selection == old(selection) && crossover == old(crossover)
      ensures mutation == old(mutation) && fitnessCalc == old(fitnessCalc)
      ensures !old(initialized) ==>
        r == Err("Population not initialized with genes.") &&
        genomesA == old(genomesA) && genomesB == old(genomesB)
      ensures old(initialized) && old(Configured()).None? ==>
        r == Err("Population strategies not fully configured.") &&
        genomesA == old(genomesA) && genomesB == old(genomesB)
      ensures old(initialized) && old(Configured()).Some? ==>
        var st := old(Configured()).value;
        var scored := Evaluated(old(genomesA), st.fitness, size);
        var k := FirstNull(scored, st, draws, size);
        (k == size ==> r == Ok(genomesA) && genomesA == Bred(scored, st, draws, size) && genomesB == scored) &&
        (k < size ==>
          r == Err("Crossover returned null offspring.") &&
          genomesA == scored && genomesB == Bred(scored, st, draws, k) + old(genomesB)[k..])
    {
      if !initialized {
        return Err("Population not initialized with genes.");
      }
      if selection.None? || crossover.None? || mutation.None? || fitnessCalc.None? {
        return Err("Population strategies not fully configured.");
      }
      var st := Configured().value;
      genomesA := EvaluateFitness(genomesA, st.fitness);
      var next, ok := CreateNewGeneration(genomesA, st, draws, genomesB, size);
      genomesB := next;
      if !ok {
        return Err("Crossover returned null offspring.");
      }
      genomesA, genomesB := genomesB, genomesA;
      r := Ok(genomesA);
    }
  }

  /** The fitness a strategy computes for a genome does not read the genome's old fitness. */
  ghost predicate ReadsGenesOnly<T(!new)>(fit: Fitness<T>)
  {
    forall g: Genome<T>, f: real :: fit(g.(fitness := f)) == fit(g)
  }

  /**
   * After a successful step the active buffer is full: size genomes, each
   * carrying the fitness the strategy gives it.
   */
  lemma StepFillsGeneration<T(!new)>(scored: seq<Slot<T>>, st: Strategies<T>, draws: nat -> nat, size: nat, i: nat)
    requires i < size && FirstNull(scored, st, draws, size) == size && ReadsGenesOnly(st.fitness)
    ensures |Bred(scored, st, draws, size)| == size
    ensures Bred(scored, st, draws, size)[i].Some?
    ensures Bred(scored, st, draws, size)[i].value.fitness == st.fitness(Bred(scored, st, draws, size)[i].value)
  {
    BredAt(scored, st, draws, size, i);
    var c := st.cross(st.select(scored, draws(4 * i)), st.select(scored, draws(4 * i + 1)), draws(4 * i + 2));
    assert c.Some?;
    var m := st.mutate(c.value, draws(4 * i + 3));
    assert Bred(scored, st, draws, size)[i] == Some(m.(fitness := st.fitness(m)));
    assert st.fitness(m.(fitness := st.fitness(m))) == st.fitness(m);
  }
}
