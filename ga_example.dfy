// The string strategies of examples/ga.example.cpp: genomes are strings
// evolved towards a fixed sentence. The generator, the fitness, the one-point
// crossover, the one-character mutation and the tournament selection are
// modelled; `rand()` is a stream of numbers, the k-th call returning rand(k).
// The tournament selection is shared with examples/xor_ga.example.cpp, whose
// selection strategy is the same code.
module StringGA {
  import opened Common
  import opened Populations

  /** `solution`: the sentence the population evolves towards. */
  const Solution: string := "Maybe you will understand when you are older"

  /** n consecutive characters from lo on. */
  function Span(lo: char, n: nat): (s: string)
    requires lo as int + n <= 0xD800
    ensures |s| == n && forall i :: 0 <= i < n ==> s[i] as int == lo as int + i
  {
    seq(n, i requires 0 <= i < n => (lo as int + i) as char)
  }

  /** The generator's charset: the lower-case letters, the upper-case letters, the digits. */
  const GeneCharset: string := Span('a', 26) + Span('A', 26) + Span('0', 10)

  /** The mutation's charset: the generator's, then the space. */
  const MutationCharset: string := GeneCharset + " "

  predicate IsAlnum(c: char)
  {
    'a' <= c <= 'z' || 'A' <= c <= 'Z' || '0' <= c <= '9'
  }

  lemma CharsetsAreAlnum()
    ensures |GeneCharset| == 62 && |MutationCharset| == 63
    ensures forall i :: 0 <= i < 62 ==> IsAlnum(GeneCharset[i])
    ensures forall i :: 0 <= i < 63 ==> IsAlnum(MutationCharset[i]) || MutationCharset[i] == ' '
  {
    forall i | 0 <= i < 62 ensures IsAlnum(GeneCharset[i]) {
      if i < 26 {
        assert GeneCharset[i] == Span('a', 26)[i];
      } else if i < 52 {
        assert GeneCharset[i] == Span('A', 26)[i - 26];
      } else {
        assert GeneCharset[i] == Span('0', 10)[i - 52];
      }
    }
  }

  // ------------------------------------------------------------ generator

  /**
   * `GenomeGeneratorStrategy::generateGene`: one character of the charset
   * per character of the solution, the i-th picked by rand(i) modulo 62.
   */
  method GenerateGene(rand: nat -> nat) returns (g: Genome<string>)
    ensures |g.genes| == |Solution| && g.fitness == 0.0
    ensures forall i :: 0 <= i < |g.genes| ==> IsAlnum(g.genes[i]) && g.genes[i] == GeneCharset[rand(i) % 62]
  {
    CharsetsAreAlnum();
    var gene := "";
    var i := 0;
    while i < |Solution|
      invariant 0 <= i <= |Solution| && |gene| == i
      invariant forall k :: 0 <= k < i ==> IsAlnum(gene[k]) && gene[k] == GeneCharset[rand(k) % 62]
    {
      gene := gene + [GeneCharset[rand(i) % 62]];
      i := i + 1;
    }
    g := Genome(gene, 0.0);
  }

  // ------------------------------------------------------------ fitness

  /** `solution[i]` of the C string: the terminating NUL right after the last character. */
  function SolutionAt(i: nat): char
    requires i <= |Solution|
  {
    if i < |Solution| then Solution[i] else '\0'
  }

  /** `std::abs(g - s)`: how far apart two character codes are. */
  function Distance(g: char, s: char): nat
  {
    if g as int >= s as int then g as int - s as int else s as int - g as int
  }

  /** The credit of one character: 1 for a match, else half of how close its code is, out of 128. */
  function Credit(g: char, s: char): real
  {
    if g == s then 1.0 else 0.5 * (1.0 - Distance(g, s) as real / 128.0)
  }

  /** The credits of the first n characters of genes, added up. */
  function Score(genes: string, n: nat): real
    requires n <= |genes| <= |Solution| + 1
  {
    if n == 0 then 0.0 else Score(genes, n - 1) + Credit(genes[n - 1], SolutionAt(n - 1))
  }

  /** `FitnessStrategy::calculateFitness`: the credits of every character, accumulated in a loop. */
  method CalculateFitness(g: Genome<string>) returns (fitness: real)
    requires |g.genes| <= |Solution| + 1
    ensures fitness == Score(g.genes, |g.genes|)
  {
    fitness := 0.0;
    var i := 0;
    while i < |g.genes|
      invariant 0 <= i <= |g.genes| && fitness == Score(g.genes, i)
    {
      if g.genes[i] == SolutionAt(i) {
        fitness := fitness + 1.0;
      } else {
        fitness := fitness + 0.5 * (1.0 - Distance(g.genes[i], SolutionAt(i)) as real / 128.0);
      }
      i := i + 1;
    }
  }

  /** A character earns full credit exactly when it matches; otherwise at most one half. */
  lemma CreditBound(g: char, s: char)
    ensures Credit(g, s) <= 1.0
    ensures Credit(g, s) == 1.0 <==> g == s
  {
    if g != s {
      var q := Distance(g, s) as real / 128.0;
      assert q > 0.0;
      HalfBelow(1.0 - q);
    }
  }

  lemma HalfBelow(e: real)
    requires e < 1.0
    ensures 0.5 * e < 1.0
  {
  }

  /** The fitness never exceeds the length, and reaches it exactly when every character matches the solution. */
  lemma {:induction false} ScoreBound(genes: string, n: nat)
    requires n <= |genes| <= |Solution| + 1
    ensures Score(genes, n) <= n as real
    ensures Score(genes, n) == n as real <==> forall i :: 0 <= i < n ==> genes[i] == SolutionAt(i)
  {
    if n > 0 {
      ScoreBound(genes, n - 1);
      CreditBound(genes[n - 1], SolutionAt(n - 1));
    }
  }

  /** A genome of the solution's length scores `strlen(solution)` if and only if it is the solution. */
  lemma FullScoreIsSolution(genes: string)
    requires |genes| == |Solution|
    ensures Score(genes, |genes|) == |Solution| as real <==> genes == Solution
  {
    ScoreBound(genes, |genes|);
    if genes != Solution {
      var i :| 0 <= i < |genes| && genes[i] != Solution[i];
      assert genes[i] != SolutionAt(i);
    }
  }

  // ------------------------------------------------------------ crossover

  /**
   * `CrossoverStrategy::crossover` with r the number `rand()` returns: an
   * empty parent gives a child with the other parent's genes; otherwise
   * the child is parent 1 before point = r mod |parent 1| and parent 2 from
   * point on. `substr(point)` throws when point is past the end of parent 2.
   */
  function Crossover(p1: string, p2: string, r: nat): (c: Result<string>)
    ensures |p1| == 0 || |p2| == 0 ==> c == Ok(if |p1| == 0 then p2 else p1)
    ensures |p1| > 0 && |p2| > 0 ==> (c.Err? <==> r % |p1| > |p2|)
    ensures |p1| > 0 && |p2| > 0 && c.Ok? ==>
      |c.value| == |p2| &&
      (forall i :: 0 <= i < r % |p1| ==> c.value[i] == p1[i]) &&
      (forall i :: r % |p1| <= i < |p2| ==> c.value[i] == p2[i])
  {
    if |p1| == 0 || |p2| == 0 then Ok(if |p1| == 0 then p2 else p1)
    else
      var point := r % |p1|;
      if point > |p2| then Err("basic_string::substr: __pos > this->size()")
      else Ok(p1[..point] + p2[point..])
  }

  /** Parents of the same length never throw; each character of the child sits where it sat in one of the parents. */
  lemma CrossoverSameLength(p1: string, p2: string, r: nat)
    requires |p1| == |p2|
    ensures Crossover(p1, p2, r).Ok?
    ensures |Crossover(p1, p2, r).value| == |p1|
    ensures forall i :: 0 <= i < |p1| ==> Crossover(p1, p2, r).value[i] in {p1[i], p2[i]}
  {
    if |p1| > 0 {
      var c := Crossover(p1, p2, r).value;
      forall i | 0 <= i < |p1| ensures c[i] in {p1[i], p2[i]} {
        if i < r % |p1| {
          assert c[i] == p1[i];
        } else {
          assert c[i] == p2[i];
        }
      }
    }
  }

  /** A genome crossed with itself gives itself back. */
  lemma CrossoverSelf(p: string, r: nat)
    ensures Crossover(p, p, r) == Ok(p)
  {
    if |p| > 0 {
      var c := Crossover(p, p, r).value;
      assert |c| == |p|;
      forall i | 0 <= i < |p| ensures c[i] == p[i] {
        if i < r % |p| {
          assert c[i] == p[i];
        }
      }
      assert c == p;
    }
  }

  // ------------------------------------------------------------ mutation

  /**
   * `MutationStrategy::mutate` with r1 and r2 the two numbers `rand()`
   * returns: an empty genome is untouched; otherwise character r1 mod |genes|
   * becomes character r2 mod 63 of the mutation charset.
   */
  function Mutate(g: Genome<string>, r1: nat, r2: nat): (m: Genome<string>)
    ensures m.fitness == g.fitness && |m.genes| == |g.genes|
  {
    if |g.genes| == 0 then g
    else g.(genes := g.genes[r1 % |g.genes| := MutationCharset[r2 % 63]])
  }

  /**
   * A mutation changes at most one character, and the character it writes
   * is a letter, a digit or a space.
   */
  lemma MutateChangesOne(g: Genome<string>, r1: nat, r2: nat)
    ensures |g.genes| == 0 ==> Mutate(g, r1, r2) == g
    ensures |g.genes| > 0 ==>
      var k := r1 % |g.genes|;
      var c := Mutate(g, r1, r2).genes[k];
      (IsAlnum(c) || c == ' ') &&
      forall i :: 0 <= i < |g.genes| && i != k ==> Mutate(g, r1, r2).genes[i] == g.genes[i]
  {
    CharsetsAreAlnum();
  }

  // ------------------------------------------------------------ selection

  /** The slot the k-th draw of a tournament over n slots picks. */
  function Contender(rand: nat -> nat, base: nat, k: nat, n: nat): nat
    requires n > 0
  {
    rand(base + k) % n
  }

  /** The number of contenders of a tournament. */
  const TournamentSize: nat := 5

  /**
   * `SelectionStrategy::select`: five contenders drawn from the slots
   * (the k-th by rand(base + k)); null slots are skipped; a contender
   * replaces the best so far only when its fitness is strictly larger.
   * The result is the slot of the best contender, or `None` when every
   * contender was null, where the source dereferences a null pointer.
   */
  method Select<T>(pop: seq<Slot<T>>, rand: nat -> nat, base: nat) returns (best: Option<nat>)
    requires |pop| > 0
    ensures best.None? <==> forall k :: 0 <= k < TournamentSize ==> pop[Contender(rand, base, k, |pop|)].None?
    ensures best.Some? ==> best.value < |pop| && pop[best.value].Some?
    ensures best.Some? ==>
      exists m :: (0 <= m < TournamentSize && Contender(rand, base, m, |pop|) == best.value &&
        forall k :: 0 <= k < m && pop[Contender(rand, base, k, |pop|)].Some? ==>
          pop[Contender(rand, base, k, |pop|)].value.fitness < pop[best.value].value.fitness)
    ensures best.Some? ==> forall k :: 0 <= k < TournamentSize && pop[Contender(rand, base, k, |pop|)].Some? ==>
      pop[Contender(rand, base, k, |pop|)].value.fitness <= pop[best.value].value.fitness
  {
    best := None;
    ghost var round := 0;
    var i := 0;
    while i < TournamentSize
      invariant 0 <= i <= TournamentSize
      invariant best.None? <==> forall k :: 0 <= k < i ==> pop[Contender(rand, base, k, |pop|)].None?
      invariant best.Some? ==> best.value < |pop| && pop[best.value].Some?
      invariant best.Some? ==>
        round < i && Contender(rand, base, round, |pop|) == best.value &&
        forall k :: 0 <= k < round && pop[Contender(rand, base, k, |pop|)].Some? ==>
          pop[Contender(rand, base, k, |pop|)].value.fitness < pop[best.value].value.fitness
      invariant best.Some? ==> forall k :: 0 <= k < i && pop[Contender(rand, base, k, |pop|)].Some? ==>
        pop[Contender(rand, base, k, |pop|)].value.fitness <= pop[best.value].value.fitness
    {
      var idx := rand(base + i) % |pop|;
      assert idx == Contender(rand, base, i, |pop|);
      if pop[idx].Some? {
        if best.None? || pop[idx].value.fitness > pop[best.value].value.fitness {
          best := Some(idx);
          round := i;
        }
      }
      i := i + 1;
    }
  }
}
