// The scoring side of include/talawa/rl/Arena.hpp: the per-agent metrics of
// a tournament and the win / loss / draw classification of each round. The
// matches themselves drive foreign agents and environments; what a round
// leaves behind is the total reward each agent collected, given by `Play`.
module Arenas {
  import opened Common

  // ------------------------------------------------------------ AgentMetrics

  /**
   * `AgentMetrics`. The extremes start at minus and plus infinity in the
   * source; here None stands for the infinity no reward has beaten yet.
   */
  datatype Metrics = Metrics(history: seq<real>, wins: int, losses: int, draws: int,
                             maxReward: Option<real>, minReward: Option<real>)

  /** A default-constructed `AgentMetrics`, as `stats.agents[id]` creates it. */
  const Fresh: Metrics := Metrics([], 0, 0, 0, None, None)

  /** The left fold of `std::accumulate`. */
  function Sum(h: seq<real>): real
  {
    if |h| == 0 then 0.0 else Sum(h[..|h| - 1]) + h[|h| - 1]
  }

  /** The left fold of `std::inner_product` of the history with itself. */
  function SumSq(h: seq<real>): real
  {
    if |h| == 0 then 0.0 else SumSq(h[..|h| - 1]) + h[|h| - 1] * h[|h| - 1]
  }

  /** The largest reward of a history; None for an empty one. */
  function MaxOf(h: seq<real>): (r: Option<real>)
    ensures r.Some? <==> |h| > 0
    ensures r.Some? ==> (forall i :: 0 <= i < |h| ==> h[i] <= r.value) && (exists i :: 0 <= i < |h| && h[i] == r.value)
  {
    if |h| == 0 then None
    else
      var m := MaxOf(h[..|h| - 1]);
      if m.None? || h[|h| - 1] > m.value then Some(h[|h| - 1]) else m
  }

  /** The smallest reward of a history; None for an empty one. */
  function MinOf(h: seq<real>): (r: Option<real>)
    ensures r.Some? <==> |h| > 0
    ensures r.Some? ==> (forall i :: 0 <= i < |h| ==> r.value <= h[i]) && (exists i :: 0 <= i < |h| && h[i] == r.value)
  {
    if |h| == 0 then None
    else
      var m := MinOf(h[..|h| - 1]);
      if m.None? || h[|h| - 1] < m.value then Some(h[|h| - 1]) else m
  }

  /**
   * `reward_history.size()` as a double, counted one reward at a time so
   * that the arithmetic below stays over the reals.
   */
  function Count(h: seq<real>): (n: real)
    ensures |h| == 0 ==> n == 0.0
    ensures |h| > 0 ==> n >= 1.0
  {
    if |h| == 0 then 0.0 else Count(h[..|h| - 1]) + 1.0
  }

  lemma {:induction false} CountIsSize(h: seq<real>)
    ensures Count(h) == |h| as real
  {
    if |h| > 0 {
      CountIsSize(h[..|h| - 1]);
    }
  }

  /** `avg_reward`: 0 for an empty history, the mean otherwise. */
  function AvgReward(m: Metrics): (r: real)
    ensures |m.history| == 0 ==> r == 0.0
    ensures |m.history| > 0 ==> r * Count(m.history) == Sum(m.history)
  {
    if |m.history| == 0 then 0.0 else Sum(m.history) / Count(m.history)
  }

  /** A sum of n values each at most hi (at least lo) is at most n*hi (at least n*lo). */
  lemma {:induction false} SumBetween(h: seq<real>, lo: real, hi: real)
    requires forall i :: 0 <= i < |h| ==> lo <= h[i] <= hi
    ensures Count(h) * lo <= Sum(h) <= Count(h) * hi
  {
    if |h| > 0 {
      var p := h[..|h| - 1];
      SumBetween(p, lo, hi);
      LinearStep(Count(p), lo, Count(h));
      LinearStep(Count(p), hi, Count(h));
    }
  }

  lemma LinearStep(n: real, c: real, n2: real)
    requires n2 == n + 1.0
    ensures n2 * c == n * c + c
  {
  }

  /** Dividing out a positive factor keeps an inequality. */
  lemma Unscale(a: real, b: real, n: real)
    requires n > 0.0 && a * n <= b * n
    ensures a <= b
  {
  }

  lemma MeanBetween(s: real, n: real, a: real, lo: real, hi: real)
    requires n > 0.0 && n * lo <= s <= n * hi && a * n == s
    ensures lo <= a <= hi
  {
    Unscale(lo, a, n);
    Unscale(a, hi, n);
  }

  /** The mean lies between the smallest and the largest reward. */
  lemma AvgWithinRange(m: Metrics)
    requires |m.history| > 0
    ensures MinOf(m.history).value <= AvgReward(m) <= MaxOf(m.history).value
  {
    var lo, hi := MinOf(m.history).value, MaxOf(m.history).value;
    SumBetween(m.history, lo, hi);
    MeanBetween(Sum(m.history), Count(m.history), AvgReward(m), lo, hi);
  }

  /** `variance`: 0 for fewer than two rewards, E[x^2] - mean^2 otherwise. */
  function Variance(m: Metrics): (r: real)
    ensures |m.history| < 2 ==> r == 0.0
  {
    if |m.history| < 2 then 0.0
    else
      var mean := AvgReward(m);
      SumSq(m.history) / Count(m.history) - mean * mean
  }

  /** The squared deviations of a history from x. */
  function SqDev(h: seq<real>, x: real): real
  {
    if |h| == 0 then 0.0 else SqDev(h[..|h| - 1], x) + (h[|h| - 1] - x) * (h[|h| - 1] - x)
  }

  /** The same deviations, each one expanded. */
  function Expanded(h: seq<real>, x: real): real
  {
    if |h| == 0 then 0.0
    else
      var y := h[|h| - 1];
      Expanded(h[..|h| - 1], x) + (y * y - 2.0 * (x * y) + x * x)
  }

  /** The sum of x * h[i]. */
  function Scaled(h: seq<real>, x: real): real
  {
    if |h| == 0 then 0.0 else Scaled(h[..|h| - 1], x) + x * h[|h| - 1]
  }

  /** |h| copies of x * x. */
  function Copies(h: seq<real>, x: real): real
  {
    if |h| == 0 then 0.0 else Copies(h[..|h| - 1], x) + x * x
  }

  lemma SquareOfDifference(y: real, x: real)
    ensures (y - x) * (y - x) == y * y - 2.0 * (x * y) + x * x
  {
  }

  lemma Distribute(x: real, a: real, b: real)
    ensures x * (a + b) == x * a + x * b
  {
  }

  lemma NonNegStep(d: real, d2: real, e: real)
    requires d >= 0.0 && d2 == d + e * e
    ensures d2 >= 0.0
  {
  }

  /** A sum of squares is never negative. */
  lemma {:induction false} SqDevNonNegative(h: seq<real>, x: real)
    ensures SqDev(h, x) >= 0.0
  {
    if |h| > 0 {
      var p := h[..|h| - 1];
      SqDevNonNegative(p, x);
      NonNegStep(SqDev(p, x), SqDev(h, x), h[|h| - 1] - x);
    }
  }

  /** The squared deviations from x, expanded term by term. */
  lemma {:induction false} SqDevExpands(h: seq<real>, x: real)
    ensures SqDev(h, x) == Expanded(h, x)
    ensures Expanded(h, x) == SumSq(h) - 2.0 * Scaled(h, x) + Copies(h, x)
  {
    if |h| > 0 {
      SqDevExpands(h[..|h| - 1], x);
      SquareOfDifference(h[|h| - 1], x);
    }
  }

  lemma {:induction false} ScaledIsProduct(h: seq<real>, x: real)
    ensures Scaled(h, x) == x * Sum(h)
  {
    if |h| > 0 {
      var p := h[..|h| - 1];
      ScaledIsProduct(p, x);
      Distribute(x, Sum(p), h[|h| - 1]);
    }
  }

  lemma {:induction false} CopiesIsProduct(h: seq<real>, x: real)
    ensures Copies(h, x) == Count(h) * (x * x)
  {
    if |h| > 0 {
      var p := h[..|h| - 1];
      CopiesIsProduct(p, x);
      Distribute(x * x, Count(p), 1.0);
    }
  }

  /** The squared deviations around x add up to sum of squares - 2 x sum + n x^2. */
  lemma DeviationIdentity(h: seq<real>, a: real)
    ensures SqDev(h, a) == SumSq(h) - 2.0 * (a * Sum(h)) + Count(h) * (a * a)
  {
    SqDevExpands(h, a);
    ScaledIsProduct(h, a);
    CopiesIsProduct(h, a);
  }

  lemma CollectMoments(d: real, q: real, s: real, n: real, a: real)
    ensures d >= 0.0 && d == q - 2.0 * (a * s) + n * (a * a) && a * n == s ==> q >= n * (a * a)
  {
    if d >= 0.0 && d == q - 2.0 * (a * s) + n * (a * a) && a * n == s {
      assert a * s == a * (a * n);
      assert a * (a * n) == n * (a * a);
    }
  }

  lemma MeanSquareBound(q: real, n: real, a: real)
    ensures n > 0.0 && q >= n * (a * a) ==> q / n - a * a >= 0.0
  {
    if n > 0.0 && q >= n * (a * a) {
      var t := q / n;
      assert t * n == q;
      Unscale(a * a, t, n);
    }
  }

  /** Around any x with x * n == sum, the sum of squares is at least n * x^2. */
  lemma MomentsBoundAt(h: seq<real>, a: real)
    ensures a * Count(h) == Sum(h) ==> SumSq(h) >= Count(h) * (a * a)
  {
    if a * Count(h) == Sum(h) {
      DeviationIdentity(h, a);
      SqDevNonNegative(h, a);
      CollectMoments(SqDev(h, a), SumSq(h), Sum(h), Count(h), a);
    }
  }

  /** E[x^2] - mean^2 of a history of at least two rewards is not negative. */
  lemma MomentsBound(m: Metrics)
    requires |m.history| >= 2
    ensures SumSq(m.history) / Count(m.history) - AvgReward(m) * AvgReward(m) >= 0.0
  {
    MomentsBoundAt(m.history, AvgReward(m));
    MeanSquareBound(SumSq(m.history), Count(m.history), AvgReward(m));
  }

  /**
   * In exact arithmetic the variance is never negative: it is the mean of
   * the squared deviations from the mean.
   */
  lemma VarianceNonNegative(m: Metrics)
    ensures Variance(m) >= 0.0
  {
    if |m.history| >= 2 {
      MomentsBound(m);
    }
  }

  /** `win_rate`: 0 for an empty history, 100 * wins / |history| otherwise. */
  function WinRate(m: Metrics): (r: real)
    ensures |m.history| == 0 ==> r == 0.0
    ensures 0 <= m.wins <= |m.history| ==> 0.0 <= r <= 100.0
    ensures |m.history| > 0 && m.wins == |m.history| ==> r == 100.0
  {
    if |m.history| == 0 then 0.0 else (m.wins as real / |m.history| as real) * 100.0
  }

  /** What a tournament keeps true of every agent's metrics. */
  predicate Consistent(m: Metrics)
  {
    m.wins >= 0 && m.losses >= 0 && m.draws >= 0 &&
    m.wins + m.losses + m.draws == |m.history| &&
    m.maxReward == MaxOf(m.history) && m.minReward == MinOf(m.history)
  }

  // ------------------------------------------------------------- tournament

  datatype Outcome = Win | Loss | Draw

  /** Within 0.0001 of the round's top score. */
  predicate Close(score: real, top: real)
  {
    AbsR(score - top) < 0.0001
  }

  /** A top scorer alone wins, one of several draws, and everyone else loses. */
  function Classify(score: real, top: real, winners: int): (o: Outcome)
    ensures o == Win <==> Close(score, top) && winners <= 1
    ensures o == Draw <==> Close(score, top) && winners > 1
    ensures o == Loss <==> !Close(score, top)
  {
    if Close(score, top) then (if winners > 1 then Draw else Win) else Loss
  }

  /**
   * One round's entry for an agent: the score appended, the extremes moved
   * when the score passes them, and exactly one of the counters incremented.
   */
  function Record(m: Metrics, score: real, o: Outcome): (r: Metrics)
    ensures r.history == m.history + [score]
    ensures r.wins == m.wins + (if o == Win then 1 else 0)
    ensures r.draws == m.draws + (if o == Draw then 1 else 0)
    ensures r.losses == m.losses + (if o == Loss then 1 else 0)
  {
    var h := m.history + [score];
    var mx := if m.maxReward.None? || score > m.maxReward.value then Some(score) else m.maxReward;
    var mn := if m.minReward.None? || score < m.minReward.value then Some(score) else m.minReward;
    match o
    case Win => Metrics(h, m.wins + 1, m.losses, m.draws, mx, mn)
    case Draw => Metrics(h, m.wins, m.losses, m.draws + 1, mx, mn)
    case Loss => Metrics(h, m.wins, m.losses + 1, m.draws, mx, mn)
  }

  /**
   * Recording keeps the counters summing to the number of rounds and the
   * extremes equal to those of the history.
   */
  lemma RecordKeepsConsistent(m: Metrics, score: real, o: Outcome)
    requires Consistent(m)
    ensures Consistent(Record(m, score, o))
  {
    var h := m.history + [score];
    assert h[..|h| - 1] == m.history;
  }

  /** The total reward each agent collected in a round, as the environment reports it after the match. */
  datatype Play = Play(total: (int, nat) -> real)

  function Score(p: Play, round: int, id: nat): real
  {
    p.total(round, id)
  }

  /** `episode_scores` of a round: one score per agent of the order. */
  function RoundScores(order: seq<nat>, p: Play, round: int): (s: map<nat, real>)
    ensures s.Keys == set id | id in order
    ensures forall id :: id in s ==> s[id] == Score(p, round, id)
  {
    map id | id in order :: Score(p, round, id)
  }

  /** `highest_score` after the first j agents of the order; None while it is still minus infinity. */
  function HighestUpTo(order: seq<nat>, p: Play, round: int, j: nat): (h: Option<real>)
    requires j <= |order|
    ensures h.Some? <==> j > 0
    ensures h.Some? ==> (forall k :: 0 <= k < j ==> Score(p, round, order[k]) <= h.value) &&
                        (exists k :: 0 <= k < j && Score(p, round, order[k]) == h.value)
  {
    if j == 0 then None
    else
      var h := HighestUpTo(order, p, round, j - 1);
      var s := Score(p, round, order[j - 1]);
      if h.None? || s > h.value then Some(s) else h
  }

  /** The agents within 0.0001 of the top score. */
  function CloseSet(scores: map<nat, real>, top: real): set<nat>
  {
    set id | id in scores && Close(scores[id], top)
  }

  /** An agent's metrics after its entry for the round. */
  function Entry(agents: map<nat, Metrics>, scores: map<nat, real>, top: real, winners: int, id: nat): Metrics
    requires id in scores
  {
    Record(if id in agents then agents[id] else Fresh, scores[id], Classify(scores[id], top, winners))
  }

  /**
   * The loop of step 4 after the first j agents of the order: an agent met
   * for the first time gets its entry, computed from its current metrics.
   */
  function Visit(agents: map<nat, Metrics>, order: seq<nat>, scores: map<nat, real>, top: real, winners: int, j: nat): map<nat, Metrics>
    requires j <= |order| && forall id :: id in order ==> id in scores
  {
    if j == 0 then agents
    else
      var before := Visit(agents, order, scores, top, winners, j - 1);
      var id := order[j - 1];
      if id in order[..j - 1] then before
      else before[id := Record(if id in before then before[id] else Fresh, scores[id], Classify(scores[id], top, winners))]
  }

  /** After j steps exactly the agents met so far have their entry. */
  lemma {:induction false} VisitFacts(agents: map<nat, Metrics>, order: seq<nat>, scores: map<nat, real>, top: real, winners: int, j: nat)
    requires j <= |order| && forall id :: id in order ==> id in scores
    ensures var v := Visit(agents, order, scores, top, winners, j);
      (forall id :: id in v <==> id in agents || id in order[..j]) &&
      (forall id :: id in v ==> v[id] == if id in order[..j] then Entry(agents, scores, top, winners, id) else agents[id])
  {
    if j > 0 {
      VisitFacts(agents, order, scores, top, winners, j - 1);
      assert order[..j] == order[..j - 1] + [order[j - 1]];
    }
  }

  /** The metrics after a round: steps 3 and 4 over the agents of the order. */
  function PlayedRound(agents: map<nat, Metrics>, order: seq<nat>, scores: map<nat, real>, top: real): map<nat, Metrics>
    requires forall id :: id in order ==> id in scores
  {
    Visit(agents, order, scores, top, |CloseSet(scores, top)|, |order|)
  }

  /**
   * After a round every agent of the order has its entry for the round,
   * whatever repeats the order holds, and nobody else is touched.
   */
  lemma RoundFacts(agents: map<nat, Metrics>, order: seq<nat>, scores: map<nat, real>, top: real)
    requires forall id :: id in order ==> id in scores
    ensures var r := PlayedRound(agents, order, scores, top);
      (forall id :: id in r <==> id in agents || id in order) &&
      (forall id :: id in r ==> r[id] == if id in order then Entry(agents, scores, top, |CloseSet(scores, top)|, id) else agents[id])
  {
    VisitFacts(agents, order, scores, top, |CloseSet(scores, top)|, |order|);
    assert order[..|order|] == order;
  }

  /** The metrics after `rounds` rounds. */
  function Played(order: seq<nat>, p: Play, rounds: int): map<nat, Metrics>
    decreases rounds
  {
    if rounds <= 0 || |order| == 0 then map[]
    else
      var before := Played(order, p, rounds - 1);
      PlayedRound(before, order, RoundScores(order, p, rounds - 1), HighestUpTo(order, p, rounds - 1, |order|).value)
  }

  /** Two distinct agents close to the top make two winners, so nobody wins. */
  lemma AtMostOneWin(scores: map<nat, real>, top: real, a: nat, b: nat)
    requires a in scores && b in scores
    requires Classify(scores[a], top, |CloseSet(scores, top)|) == Win
    requires Classify(scores[b], top, |CloseSet(scores, top)|) == Win
    ensures a == b
  {
    if a != b {
      assert {a, b} <= CloseSet(scores, top);
      assert |{a, b}| == 2;
      SubsetCard({a, b}, CloseSet(scores, top));
    }
  }

  lemma SubsetCard(a: set<nat>, b: set<nat>)
    requires a <= b
    ensures |a| <= |b|
  {
    assert b == a + (b - a);
  }

  /** The round's top scorer is always among those close to the top. */
  lemma TopIsClose(order: seq<nat>, p: Play, round: int)
    requires |order| > 0
    ensures var top := HighestUpTo(order, p, round, |order|).value;
      |CloseSet(RoundScores(order, p, round), top)| >= 1
  {
    var top := HighestUpTo(order, p, round, |order|).value;
    var k :| 0 <= k < |order| && Score(p, round, order[k]) == top;
    assert order[k] in CloseSet(RoundScores(order, p, round), top);
  }

  /**
   * After `rounds` >= 1 rounds every agent of the order has played each of
   * them exactly once: one reward and one of win / loss / draw per round,
   * with its extremes tracking its history; nobody else has metrics.
   */
  lemma {:induction false} PlayedFacts(order: seq<nat>, p: Play, rounds: int)
    ensures var r := Played(order, p, rounds);
      (rounds <= 0 || |order| == 0 ==> r == map[]) &&
      (rounds > 0 && |order| > 0 ==> forall id :: id in r <==> id in order) &&
      (forall id :: id in r ==> Consistent(r[id]) && |r[id].history| == rounds)
    decreases rounds
  {
    if rounds > 0 && |order| > 0 {
      PlayedFacts(order, p, rounds - 1);
      RoundKeepsFacts(Played(order, p, rounds - 1), order, RoundScores(order, p, rounds - 1),
        HighestUpTo(order, p, rounds - 1, |order|).value, rounds - 1);
    }
  }

  /**
   * A round adds one entry to the metrics of every agent of the order and
   * keeps them consistent; with metrics for no one else before, there are
   * none after.
   */
  lemma RoundKeepsFacts(before: map<nat, Metrics>, order: seq<nat>, scores: map<nat, real>, top: real, k: int)
    requires forall id :: id in order ==> id in scores
    requires forall id :: id in before ==> id in order && Consistent(before[id]) && |before[id].history| == k
    requires k == 0 || forall id :: id in order ==> id in before
    ensures var r := PlayedRound(before, order, scores, top);
      (forall id :: id in r <==> id in order) &&
      (forall id :: id in r ==> Consistent(r[id]) && |r[id].history| == k + 1)
  {
    RoundFacts(before, order, scores, top);
    var r := PlayedRound(before, order, scores, top);
    forall id | id in r
      ensures Consistent(r[id]) && |r[id].history| == k + 1
    {
      var m := if id in before then before[id] else Fresh;
      RecordKeepsConsistent(m, scores[id], Classify(scores[id], top, |CloseSet(scores, top)|));
    }
  }

  /** In a consistent record the win rate is a percentage. */
  lemma ConsistentWinRate(m: Metrics)
    requires Consistent(m)
    ensures 0.0 <= WinRate(m) <= 100.0
  {
  }

  /** One more round of the tournament. */
  lemma PlayedNext(order: seq<nat>, p: Play, i: int)
    requires i >= 0
    ensures |order| == 0 ==> Played(order, p, i + 1) == map[]
    ensures |order| > 0 ==>
      Played(order, p, i + 1) == PlayedRound(Played(order, p, i), order, RoundScores(order, p, i), HighestUpTo(order, p, i, |order|).value)
  {
  }

  /** `TournamentStats`. */
  datatype Stats = Stats(episodesPlayed: int, agents: map<nat, Metrics>)

  /**
   * Step 2 of a round: the scores of the agents of the order, and the
   * highest of them.
   */
  method CollectScores(order: seq<nat>, p: Play, round: int) returns (scores: map<nat, real>, top: Option<real>)
    ensures scores == RoundScores(order, p, round) && top == HighestUpTo(order, p, round, |order|)
  {
    scores, top := map[], None;
    var j := 0;
    while j < |order|
      invariant 0 <= j <= |order|
      invariant scores == map id | id in order[..j] :: Score(p, round, id)
      invariant top == HighestUpTo(order, p, round, j)
    {
      var score := Score(p, round, order[j]);
      scores := scores[order[j] := score];
      if top.None? || score > top.value {
        top := Some(score);
      }
      assert order[..j + 1] == order[..j] + [order[j]];
      j := j + 1;
    }
    assert order[..j] == order;
  }

  /**
   * Steps 3 and 4 of a round: count the agents close to the top, then
   * record each agent's score and outcome. Each agent is visited once, as
   * the source's loop over the score map does.
   */
  method UpdateStats(agents: map<nat, Metrics>, order: seq<nat>, scores: map<nat, real>, top: real)
    returns (updated: map<nat, Metrics>)
    requires forall id :: id in order ==> id in scores
    ensures updated == PlayedRound(agents, order, scores, top)
  {
    var winners := |CloseSet(scores, top)|;
    updated := agents;
    var j := 0;
    while j < |order|
      invariant 0 <= j <= |order|
      invariant updated == Visit(agents, order, scores, top, winners, j)
    {
      var id := order[j];
      if id !in order[..j] {
        var m := if id in updated then updated[id] else Fresh;
        updated := updated[id := Record(m, scores[id], Classify(scores[id], top, winners))];
      }
      j := j + 1;
    }
  }

  /**
   * One round, given the metrics of the rounds before it: the match's
   * scores are collected, then every agent is scored.
   */
  method PlayRound(agents: map<nat, Metrics>, order: seq<nat>, p: Play, round: nat) returns (updated: map<nat, Metrics>)
    requires agents == Played(order, p, round)
    ensures updated == Played(order, p, round + 1)
  {
    PlayedNext(order, p, round);
    var scores, top := CollectScores(order, p, round);
    updated := agents;
    if top.Some? {
      updated := UpdateStats(agents, order, scores, top.value);
    }
  }

  /**
   * `tournament`: `rounds` rounds, each a match followed by the scoring of
   * every agent; `episodes_played` is the configured number of rounds.
   */
  method Tournament(order: seq<nat>, p: Play, rounds: int) returns (stats: Stats)
    ensures stats.episodesPlayed == rounds
    ensures stats.agents == Played(order, p, rounds)
  {
    var agents: map<nat, Metrics> := map[];
    var i: nat := 0;
    while i < rounds
      invariant i <= rounds || i == 0
      invariant agents == Played(order, p, i)
    {
      agents := PlayRound(agents, order, p, i);
      i := i + 1;
    }
    stats := Stats(rounds, agents);
  }
}
