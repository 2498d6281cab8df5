// Hyper-parameter schedules (include/talawa-ai/rl/Scheduler.hpp): step
// conditions, the constant / linear / exponential / step-wise / chained
// schedulers, and the set of bindings a trainer drives. A scheduler is owned
// through a unique pointer by exactly one binding or phase, so its `step` and
// `reset` are modelled as functions from the old state to the new one.
module Schedulers {
  import opened Common

  /** ScheduleContext: what a condition may look at. */
  datatype Context = Context(episode: int, step: int, totalSteps: int, episodeReward: real, lastReward: real)

  /** The `conditions::` factories. */
  datatype Condition =
    | EveryNEpisodes(n: int)
    | EveryNSteps(n: int)
    | Always
    | OnRewardDecrease(percent: real)
    | AfterEpisode(n: int)
    | AllOf(a: Condition, b: Condition)

  /** The divisibility tests take `% n`, so n must not be zero. */
  predicate Defined(c: Condition)
  {
    match c
    case EveryNEpisodes(n) => n != 0
    case EveryNSteps(n) => n != 0
    case AllOf(a, b) => Defined(a) && Defined(b)
    case _ => true
  }

  /** Whether the condition's lambda returns true on ctx. */
  predicate Holds(c: Condition, ctx: Context)
    requires Defined(c)
  {
    match c
    case EveryNEpisodes(n) => CMod(ctx.episode, n) == 0
    case EveryNSteps(n) => CMod(ctx.totalSteps, n) == 0
    case Always => true
    case OnRewardDecrease(percent) => ctx.lastReward - ctx.episodeReward > AbsR(ctx.lastReward) * percent
    case AfterEpisode(n) => ctx.episode >= n
    case AllOf(a, b) => Holds(a, ctx) && Holds(b, ctx)
  }

  /** C++'s truncated remainder is zero exactly when n divides a. */
  lemma TruncatedRemainderZero(a: int, n: int)
    requires n != 0
    ensures CMod(a, n) == 0 <==> exists k :: a == k * n
  {
    if CMod(a, n) == 0 {
      assert a == CDiv(a, n) * n;
    }
    if exists k :: a == k * n {
      var k :| a == k * n;
      DivisibleQuotient(a, n, k);
    }
  }

  /** A multiple of n leaves a truncated remainder of zero, whatever the signs. */
  lemma DivisibleQuotient(a: int, n: int, k: int)
    requires n != 0 && a == k * n
    ensures CMod(a, n) == 0
  {
    var ua := if a >= 0 then a else -a;
    var un := if n > 0 then n else -n;
    var m := if k >= 0 then k else -k;
    var w := m * un;
    Magnitudes(a, n, k, ua, un, m, w);
    DivUnique(ua, un, m, 0);
    var q := CDiv(a, n);
    assert q == if (a >= 0) == (n > 0) then m else -m;
    QuotientTimes(a, n, k, q);
  }

  /** |k·n| == |k|·|n|. */
  lemma Magnitudes(a: int, n: int, k: int, ua: int, un: int, m: int, w: int)
    requires a == k * n
    requires ua == (if a >= 0 then a else -a) && un == (if n > 0 then n else -n) && m == (if k >= 0 then k else -k)
    requires w == m * un
    ensures ua == w
  {
    if k >= 0 && n > 0 {
    } else if k >= 0 {
      assert w == k * (-n);
    } else if n > 0 {
      assert w == (-k) * n;
    } else {
      assert w == (-k) * (-n);
    }
  }

  /** The quotient of an exact division, multiplied back, gives the dividend. */
  lemma QuotientTimes(a: int, n: int, k: int, q: int)
    requires n != 0 && a == k * n
    requires q == if (a >= 0) == (n > 0) then (if k >= 0 then k else -k) else -(if k >= 0 then k else -k)
    ensures a == q * n
  {
    if a == 0 {
      ZeroFactor(k, n);
    } else if k >= 0 && n > 0 {
      SignOf(k, n);
    } else if k >= 0 {
      SignOf(k, -n);
    } else if n > 0 {
      SignOf(-k, n);
    } else {
      SignOf(-k, -n);
    }
  }

  lemma ZeroFactor(k: int, n: int)
    requires n != 0 && k * n == 0
    ensures k == 0
  {
    if k != 0 {
      SignOf(if k > 0 then k else -k, if n > 0 then n else -n);
    }
  }

  /** `every_n_episodes(n)` fires exactly on the multiples of n. */
  lemma EveryNEpisodesDivides(n: int, ctx: Context)
    requires n != 0
    ensures Holds(EveryNEpisodes(n), ctx) <==> exists k :: ctx.episode == k * n
  {
    TruncatedRemainderZero(ctx.episode, n);
  }

  /** With percent 0, `on_reward_decrease` fires exactly when the reward went down. */
  lemma RewardDecreaseAtZero(ctx: Context)
    ensures Holds(OnRewardDecrease(0.0), ctx) <==> ctx.episodeReward < ctx.lastReward
  {
    assert AbsR(ctx.lastReward) * 0.0 == 0.0;
  }

  /** With a non-negative percent, a reward that went up never fires it. */
  lemma RewardIncreaseNeverFires(ctx: Context, percent: real)
    requires percent >= 0.0 && ctx.episodeReward >= ctx.lastReward
    ensures !Holds(OnRewardDecrease(percent), ctx)
  {
    var t := AbsR(ctx.lastReward) * percent;
    NonNegative(AbsR(ctx.lastReward), percent, t);
  }

  lemma NonNegative(x: real, y: real, w: real)
    requires x >= 0.0 && y >= 0.0 && w == x * y
    ensures w >= 0.0
  {}

  // ------------------------------------------------------------- schedulers

  /** One scheduler object; `Chained` owns its phases' schedulers. */
  datatype Scheduler =
    | Constant(value: real)
    | Linear(initial: real, current: real, floor: real, decay: real)
    | Exponential(initial: real, current: real, floor: real, factor: real)
    | Stepwise(initial: real, current: real, factor: real, count: int, size: int)
    | Chained(phases: seq<Phase>, phase: nat, stepsInPhase: int)

  /** A phase: a scheduler and a duration (-1, or any value <= 0, runs until the end). */
  datatype Phase = Phase(scheduler: Scheduler, duration: int)

  const UntilEnd: int := -1

  function LinearDecay(start: real, floor: real, decay: real): Scheduler { Linear(start, start, floor, decay) }
  function ExponentialDecay(start: real, floor: real, factor: real): Scheduler { Exponential(start, start, floor, factor) }
  function StepDecay(start: real, factor: real, size: int): Scheduler { Stepwise(start, start, factor, 0, size) }

  /**
   * The states on which the virtual calls are defined: a step decay divides
   * by its step size, and a chain reads `phases_.back()` once exhausted.
   */
  predicate Valid(s: Scheduler)
  {
    match s
    case Stepwise(_, _, _, _, size) => size != 0
    case Chained(ps, _, _) => |ps| > 0 && forall i :: 0 <= i < |ps| ==> Valid(ps[i].scheduler)
    case _ => true
  }

  /** `value()`: a chain reports its current phase, or its last phase once every phase is exhausted. */
  function Value(s: Scheduler): real
    requires Valid(s)
  {
    match s
    case Constant(v) => v
    case Linear(_, current, _, _) => current
    case Exponential(_, current, _, _) => current
    case Stepwise(_, current, _, _, _) => current
    case Chained(ps, k, _) => if k >= |ps| then Value(ps[|ps| - 1].scheduler) else Value(ps[k].scheduler)
  }

  /** `step()`. */
  function Step(s: Scheduler): (t: Scheduler)
    requires Valid(s)
    ensures Valid(t)
  {
    match s
    case Constant(_) => s
    case Linear(initial, current, floor, decay) => Linear(initial, MaxR(floor, current - decay), floor, decay)
    case Exponential(initial, current, floor, factor) => Exponential(initial, MaxR(floor, current * factor), floor, factor)
    case Stepwise(initial, current, factor, count, size) =>
      if CMod(count + 1, size) == 0 then Stepwise(initial, current * factor, factor, count + 1, size)
      else Stepwise(initial, current, factor, count + 1, size)
    case Chained(ps, k, n) =>
      if k >= |ps| then s
      else
        var ps' := ps[k := Phase(Step(ps[k].scheduler), ps[k].duration)];
        if ps[k].duration > 0 && n + 1 >= ps[k].duration then Chained(ps', k + 1, 0)
        else Chained(ps', k, n + 1)
  }

  /** `reset()`: back to the start value; a chain returns to phase 0 and resets every phase. */
  function Reset(s: Scheduler): (t: Scheduler)
    requires Valid(s)
    ensures Valid(t)
  {
    match s
    case Constant(_) => s
    case Linear(initial, _, floor, decay) => Linear(initial, initial, floor, decay)
    case Exponential(initial, _, floor, factor) => Exponential(initial, initial, floor, factor)
    case Stepwise(initial, _, factor, _, size) => Stepwise(initial, initial, factor, 0, size)
    case Chained(ps, _, _) =>
      Chained(seq(|ps|, i requires 0 <= i < |ps| => Phase(Reset(ps[i].scheduler), ps[i].duration)), 0, 0)
  }

  /** `clone()`: a copy; a chain clones each phase but restarts at phase 0 with no steps taken. */
  function Clone(s: Scheduler): (t: Scheduler)
    requires Valid(s)
    ensures Valid(t)
  {
    match s
    case Chained(ps, _, _) =>
      Chained(seq(|ps|, i requires 0 <= i < |ps| => Phase(Clone(ps[i].scheduler), ps[i].duration)), 0, 0)
    case _ => s
  }

  /** n successive calls of `step()`. */
  function Steps(s: Scheduler, n: nat): (t: Scheduler)
    requires Valid(s)
    ensures Valid(t)
  {
    if n == 0 then s else Step(Steps(s, n - 1))
  }

  /** A constant scheduler ignores `step` and `reset`. */
  lemma {:induction false} ConstantNeverChanges(v: real, n: nat)
    ensures Steps(Constant(v), n) == Constant(v) && Reset(Constant(v)) == Constant(v)
  {
    if n > 0 { ConstantNeverChanges(v, n - 1); }
  }

  /**
   * Linear decay never falls below its floor after a step, never rises for a
   * non-negative decay, and `reset` restores the start value.
   */
  lemma LinearStep(s: Scheduler)
    requires s.Linear?
    ensures Value(Step(s)) >= s.floor
    ensures s.decay >= 0.0 && s.current >= s.floor ==> Value(Step(s)) <= Value(s)
    ensures Value(Reset(s)) == s.initial
  {}

  /**
   * From the start, n >= 1 linear steps give max(floor, start - n·decay) for a
   * non-negative decay (the start value itself is not clamped).
   */
  lemma {:induction false} LinearAfter(start: real, floor: real, decay: real, n: nat)
    requires decay >= 0.0
    ensures Steps(LinearDecay(start, floor, decay), n) ==
      Linear(start, if n == 0 then start else MaxR(floor, start - n as real * decay), floor, decay)
  {
    if n > 0 {
      LinearAfter(start, floor, decay, n - 1);
      var w := (n - 1) as real * decay;
      var v := n as real * decay;
      OneMoreTime(n, decay, w, v);
      var before := if n == 1 then start else MaxR(floor, start - w);
      assert Steps(LinearDecay(start, floor, decay), n) == Step(Linear(start, before, floor, decay));
      assert MaxR(floor, before - decay) == MaxR(floor, start - v);
    }
  }

  lemma OneMoreTime(n: nat, x: real, w: real, v: real)
    requires n > 0 && w == (n - 1) as real * x && v == n as real * x
    ensures v == w + x
  {}

  /** Exponential decay never falls below its floor, and never rises for a factor in [0, 1] above it. */
  lemma ExponentialStep(s: Scheduler)
    requires s.Exponential?
    ensures Value(Step(s)) >= s.floor
    ensures 0.0 <= s.factor <= 1.0 && s.current >= 0.0 ==> Value(Step(s)) <= MaxR(s.floor, s.current)
    ensures Value(Reset(s)) == s.initial
  {
    if 0.0 <= s.factor <= 1.0 && s.current >= 0.0 {
      var w := s.current * s.factor;
      Shrinks(s.current, s.factor, w);
    }
  }

  lemma Shrinks(x: real, f: real, w: real)
    requires x >= 0.0 && 0.0 <= f <= 1.0 && w == x * f
    ensures w <= x
  {
    NonNegative(x, 1.0 - f, x - w);
  }

  /** `start` multiplied k times by `factor`. */
  function Compounded(start: real, factor: real, k: nat): real
  {
    if k == 0 then start else Compounded(start, factor, k - 1) * factor
  }

  /** Compounding k times is multiplying by factor^k. */
  lemma {:induction false} CompoundedIsPower(start: real, factor: real, k: nat)
    ensures Compounded(start, factor, k) == start * Pow(factor, k)
  {
    if k > 0 {
      CompoundedIsPower(start, factor, k - 1);
      var p := Pow(factor, k - 1);
      var w := Compounded(start, factor, k - 1) * factor;
      Regroup(start, p, factor, w);
    }
  }

  lemma CompoundedStep(start: real, factor: real, k: nat)
    ensures Compounded(start, factor, k + 1) == Compounded(start, factor, k) * factor
  {}

  /**
   * After n steps from the start, a step decay has counted n and has
   * multiplied its start value by the factor once per completed block of
   * `size` steps: start·factor^(n div size).
   */
  lemma {:induction false} StepDecayAfter(start: real, factor: real, size: int, n: nat)
    requires size > 0
    ensures Steps(StepDecay(start, factor, size), n) == Stepwise(start, Compounded(start, factor, n / size), factor, n, size)
  {
    if n == 0 {
      DivUnique(0, size, 0, 0);
    } else {
      StepDecayAfter(start, factor, size, n - 1);
      QuotientOfNatural(n - 1, size);
      var k: nat := (n - 1) / size;
      StepDecayNext(start, factor, size, n, k);
    }
  }

  /** The inductive step: from n - 1 counted steps to n. */
  lemma StepDecayNext(start: real, factor: real, size: int, n: nat, k: nat)
    requires size > 0 && n > 0 && k == (n - 1) / size
    ensures Step(Stepwise(start, Compounded(start, factor, k), factor, n - 1, size)) ==
      Stepwise(start, Compounded(start, factor, n / size), factor, n, size)
  {
    if n % size == 0 {
      BlockEnds(start, factor, size, n, k);
    } else {
      BlockContinues(start, factor, size, n, k);
    }
  }

  /** A step that completes a block multiplies by the factor once more. */
  lemma BlockEnds(start: real, factor: real, size: int, n: nat, k: nat)
    requires size > 0 && n > 0 && k == (n - 1) / size && n % size == 0
    ensures Step(Stepwise(start, Compounded(start, factor, k), factor, n - 1, size)) ==
      Stepwise(start, Compounded(start, factor, n / size), factor, n, size)
  {
    StepwiseStep(start, Compounded(start, factor, k), factor, n - 1, size);
    NextQuotient(n - 1, size);
    CompoundedStep(start, factor, k);
  }

  /** A step inside a block keeps the value. */
  lemma BlockContinues(start: real, factor: real, size: int, n: nat, k: nat)
    requires size > 0 && n > 0 && k == (n - 1) / size && n % size != 0
    ensures Step(Stepwise(start, Compounded(start, factor, k), factor, n - 1, size)) ==
      Stepwise(start, Compounded(start, factor, n / size), factor, n, size)
  {
    StepwiseStep(start, Compounded(start, factor, k), factor, n - 1, size);
    SameQuotient(n - 1, size);
  }

  /** One step of a step decay that has counted `count >= 0` steps. */
  lemma StepwiseStep(initial: real, current: real, factor: real, count: nat, size: int)
    requires size > 0
    ensures Step(Stepwise(initial, current, factor, count, size)) ==
      if (count + 1) % size == 0 then Stepwise(initial, current * factor, factor, count + 1, size)
      else Stepwise(initial, current, factor, count + 1, size)
  {
    CModOfNatural(count + 1, size);
  }

  /** (start·p)·f == start·(f·p). */
  lemma Regroup(start: real, p: real, f: real, w: real)
    requires w == (start * p) * f
    ensures w == start * (f * p)
  {}

  /** On non-negative operands C++'s remainder is Dafny's. */
  lemma CModOfNatural(a: int, b: int)
    requires a >= 0 && b > 0
    ensures CMod(a, b) == a % b
  {
    DivUnique(a, b, CDiv(a, b), CMod(a, b));
  }

  lemma QuotientOfNatural(a: nat, b: int)
    requires b > 0
    ensures a / b >= 0
  {
    var q := a / b;
    if q < 0 {
      AtLeastDivisor(-q, b);
    }
  }

  lemma NextQuotient(m: nat, size: int)
    requires size > 0 && (m + 1) % size == 0
    ensures (m + 1) / size == m / size + 1
  {
    var q := (m + 1) / size;
    assert m + 1 == q * size;
    DivUnique(m, size, q - 1, size - 1);
  }

  lemma SameQuotient(m: nat, size: int)
    requires size > 0 && (m + 1) % size != 0
    ensures (m + 1) / size == m / size
  {
    var q := (m + 1) / size;
    DivUnique(m, size, q, (m + 1) % size - 1);
  }

  /** Once every phase is exhausted, a chain stays frozen on its last phase's value. */
  lemma ChainedExhausted(s: Scheduler)
    requires Valid(s) && s.Chained? && s.phase >= |s.phases|
    ensures Step(s) == s
    ensures Value(s) == Value(s.phases[|s.phases| - 1].scheduler)
  {}

  /**
   * From the start of phase k, the chain stays in phase k for exactly
   * `duration` steps when the duration is positive, and forever otherwise.
   */
  lemma {:induction false} ChainedPhaseLength(s: Scheduler, j: nat)
    requires Valid(s) && s.Chained? && s.phase < |s.phases| && s.stepsInPhase == 0
    ensures var d := s.phases[s.phase].duration;
      (d <= 0 || j < d) ==> Steps(s, j).Chained? && Steps(s, j).phase == s.phase && Steps(s, j).stepsInPhase == j
    ensures var d := s.phases[s.phase].duration;
      d > 0 && j == d ==> Steps(s, j).Chained? && Steps(s, j).phase == s.phase + 1 && Steps(s, j).stepsInPhase == 0
    ensures Steps(s, j).Chained? && |Steps(s, j).phases| == |s.phases|
    ensures forall i :: 0 <= i < |s.phases| ==> Steps(s, j).phases[i].duration == s.phases[i].duration
  {
    if j > 0 {
      ChainedPhaseLength(s, j - 1);
    }
  }

  /** `reset` returns a chain to phase 0 with no steps, resets every phase, and is idempotent. */
  lemma {:induction false} ResetIdempotent(s: Scheduler)
    requires Valid(s)
    ensures Reset(Reset(s)) == Reset(s)
    ensures s.Chained? ==> Reset(s).phase == 0 && Reset(s).stepsInPhase == 0 && |Reset(s).phases| == |s.phases|
    ensures s.Chained? ==> forall i :: 0 <= i < |s.phases| ==>
      Reset(s).phases[i] == Phase(Reset(s.phases[i].scheduler), s.phases[i].duration)
    decreases s
  {
    if s.Chained? {
      var r := Reset(s);
      forall i | 0 <= i < |s.phases|
        ensures Reset(r.phases[i].scheduler) == r.phases[i].scheduler
      {
        ResetIdempotent(s.phases[i].scheduler);
      }
      assert Reset(r).phases == r.phases;
    }
  }

  /** A clone keeps the phases' durations, restarts the chain, and cloning again changes nothing. */
  lemma {:induction false} CloneIdempotent(s: Scheduler)
    requires Valid(s)
    ensures Clone(Clone(s)) == Clone(s)
    ensures !s.Chained? ==> Clone(s) == s
    ensures s.Chained? ==> Clone(s).phase == 0 && Clone(s).stepsInPhase == 0 && |Clone(s).phases| == |s.phases|
    ensures s.Chained? ==> forall i :: 0 <= i < |s.phases| ==> Clone(s).phases[i].duration == s.phases[i].duration
    decreases s
  {
    if s.Chained? {
      var c := Clone(s);
      forall i | 0 <= i < |s.phases|
        ensures Clone(c.phases[i].scheduler) == c.phases[i].scheduler
      {
        CloneIdempotent(s.phases[i].scheduler);
      }
      assert Clone(c).phases == c.phases;
    }
  }

  // --------------------------------------------------------------- bindings

  datatype Event = OnStep | OnEpisodeEnd

  /** A binding: its name, its scheduler, the event it listens to and its condition. */
  datatype Binding = Binding(name: string, scheduler: Scheduler, event: Event, condition: Condition)

  predicate BindingValid(b: Binding)
  {
    Valid(b.scheduler) && Defined(b.condition)
  }

  predicate AllValid(bs: seq<Binding>)
  {
    forall i :: 0 <= i < |bs| ==> BindingValid(bs[i])
  }

  /** One call of a binding's setter: the binding's name and the value passed. */
  datatype Write = Write(name: string, value: real)

  /** `maybe_step` on a binding that listens to `event`: step the scheduler only when the condition holds. */
  function Advance(b: Binding, ctx: Context): (c: Binding)
    requires BindingValid(b)
    ensures BindingValid(c) && c.name == b.name && c.event == b.event && c.condition == b.condition
    ensures c.scheduler == if Holds(b.condition, ctx) then Step(b.scheduler) else b.scheduler
  {
    if Holds(b.condition, ctx) then b.(scheduler := Step(b.scheduler)) else b
  }

  /** What an event does to one binding: a binding listening to it advances, any other is untouched. */
  function Respond(b: Binding, event: Event, ctx: Context): (c: Binding)
    requires BindingValid(b)
    ensures BindingValid(c) && c.name == b.name && c.event == b.event && c.condition == b.condition
    ensures b.event != event ==> c == b
  {
    if b.event == event then Advance(b, ctx) else b
  }

  /** The bindings after an event. */
  function AdvanceAll(bs: seq<Binding>, event: Event, ctx: Context): (cs: seq<Binding>)
    requires AllValid(bs)
    ensures |cs| == |bs| && AllValid(cs)
    ensures forall i :: 0 <= i < |bs| ==> cs[i] == Respond(bs[i], event, ctx)
  {
    seq(|bs|, i requires 0 <= i < |bs| => Respond(bs[i], event, ctx))
  }

  /** Responding one more binding to the event replaces that binding in place. */
  lemma AdvanceAllStep(bs: seq<Binding>, i: int, event: Event, ctx: Context)
    requires AllValid(bs) && 0 <= i < |bs|
    ensures BindingValid(bs[i])
    ensures AdvanceAll(bs[..i + 1], event, ctx) + bs[i + 1..] ==
      (AdvanceAll(bs[..i], event, ctx) + bs[i..])[i := Respond(bs[i], event, ctx)]
    ensures (AdvanceAll(bs[..i], event, ctx) + bs[i..])[i] == bs[i]
  {
    assert BindingValid(bs[i]);
  }

  /** The setter calls an event makes: one per binding listening to it whose condition holds, in order. */
  function Fired(bs: seq<Binding>, event: Event, ctx: Context): seq<Write>
    requires AllValid(bs)
  {
    if |bs| == 0 then []
    else
      var b := bs[|bs| - 1];
      assert BindingValid(b);
      Fired(bs[..|bs| - 1], event, ctx) + Fire(b, event, ctx)
  }

  /** The setter call one binding makes on an event: its stepped value, when it listens and its condition holds. */
  function Fire(b: Binding, event: Event, ctx: Context): (ws: seq<Write>)
    requires BindingValid(b)
    ensures |ws| <= 1
    ensures ws != [] <==> b.event == event && Holds(b.condition, ctx)
    ensures ws != [] ==> ws[0] == Write(b.name, Value(Advance(b, ctx).scheduler))
  {
    if b.event == event && Holds(b.condition, ctx) then [Write(b.name, Value(Step(b.scheduler)))] else []
  }

  /** `initialize`: every setter called once with its scheduler's value. */
  function Applied(bs: seq<Binding>): seq<Write>
    requires AllValid(bs)
  {
    if |bs| == 0 then []
    else
      var b := bs[|bs| - 1];
      assert BindingValid(b);
      Applied(bs[..|bs| - 1]) + [Write(b.name, Value(b.scheduler))]
  }

  /** Extending the bindings by one adds that binding's call, if it fires. */
  lemma FiredStep(bs: seq<Binding>, i: int, event: Event, ctx: Context)
    requires AllValid(bs)
    requires 0 <= i < |bs|
    ensures BindingValid(bs[i])
    ensures Fired(bs[..i + 1], event, ctx) == Fired(bs[..i], event, ctx) + Fire(bs[i], event, ctx)
  {
    assert bs[..i + 1][..i] == bs[..i];
  }

  /** Extending the bindings by one adds that binding's call. */
  lemma AppliedStep(bs: seq<Binding>, i: int)
    requires AllValid(bs)
    requires 0 <= i < |bs|
    ensures BindingValid(bs[i])
    ensures Applied(bs[..i + 1]) == Applied(bs[..i]) + [Write(bs[i].name, Value(bs[i].scheduler))]
  {
    assert bs[..i + 1][..i] == bs[..i];
  }

  /** `initialize` makes exactly one setter call per binding, with that binding's name and value. */
  lemma {:induction false} AppliedOnePerBinding(bs: seq<Binding>)
    requires AllValid(bs)
    ensures |Applied(bs)| == |bs|
    ensures forall i :: 0 <= i < |bs| ==> Applied(bs)[i] == Write(bs[i].name, Value(bs[i].scheduler))
  {
    if |bs| > 0 {
      AppliedOnePerBinding(bs[..|bs| - 1]);
    }
  }

  /** An event fires at most one setter call per binding, and none when no binding listens to it. */
  lemma {:induction false} FiredAtMostOnce(bs: seq<Binding>, event: Event, ctx: Context)
    requires AllValid(bs)
    ensures |Fired(bs, event, ctx)| <= |bs|
    ensures (forall i :: 0 <= i < |bs| ==> bs[i].event != event) ==> Fired(bs, event, ctx) == []
  {
    if |bs| > 0 {
      FiredAtMostOnce(bs[..|bs| - 1], event, ctx);
    }
  }

  /** `maybe_step`: when the condition holds, step the scheduler and call the setter with the new value. */
  method MaybeStep(b: Binding, ctx: Context) returns (c: Binding, ws: seq<Write>)
    requires BindingValid(b)
    ensures c == Advance(b, ctx)
    ensures ws == Fire(b, b.event, ctx)
  {
    c := b;
    ws := [];
    if Holds(b.condition, ctx) {
      c := b.(scheduler := Step(b.scheduler));
      ws := [Write(c.name, Value(c.scheduler))];
    }
  }

  /**
   * The loop of `on_step` / `on_episode_end` over the bindings in order:
   * each binding listening to `event` runs `maybe_step`.
   */
  method RespondAll(bs: seq<Binding>, event: Event, ctx: Context) returns (cs: seq<Binding>, ws: seq<Write>)
    requires AllValid(bs)
    ensures cs == AdvanceAll(bs, event, ctx)
    ensures ws == Fired(bs, event, ctx)
  {
    cs, ws := bs, [];
    var i := 0;
    while i < |bs|
      invariant 0 <= i <= |bs|
      invariant ws == Fired(bs[..i], event, ctx)
      invariant cs == AdvanceAll(bs[..i], event, ctx) + bs[i..]
    {
      FiredStep(bs, i, event, ctx);
      AdvanceAllStep(bs, i, event, ctx);
      if bs[i].event == event {
        var c, fired := MaybeStep(bs[i], ctx);
        cs := cs[i := c];
        ws := ws + fired;
      }
      i := i + 1;
    }
    assert bs[..|bs|] == bs;
  }

  /** Every binding with its scheduler reset. */
  function ResetBindings(bs: seq<Binding>): (cs: seq<Binding>)
    requires AllValid(bs)
    ensures |cs| == |bs| && AllValid(cs)
    ensures forall i :: 0 <= i < |bs| ==> cs[i] == bs[i].(scheduler := Reset(bs[i].scheduler))
  {
    seq(|bs|, i requires 0 <= i < |bs| => bs[i].(scheduler := Reset(bs[i].scheduler)))
  }

  /** The loop of `SchedulerSet::reset`: each binding resets, then calls its setter. */
  method ResetEach(bs: seq<Binding>) returns (cs: seq<Binding>, ws: seq<Write>)
    requires AllValid(bs)
    ensures cs == ResetBindings(bs)
    ensures ws == Applied(cs)
  {
    cs, ws := bs, [];
    var i := 0;
    while i < |bs|
      invariant 0 <= i <= |bs| == |cs|
      invariant AllValid(cs)
      invariant forall k :: 0 <= k < i ==> cs[k] == bs[k].(scheduler := Reset(bs[k].scheduler))
      invariant forall k :: i <= k < |bs| ==> cs[k] == bs[k]
      invariant ws == Applied(cs[..i])
    {
      var r := bs[i].(scheduler := Reset(bs[i].scheduler));
      assert cs[i := r][..i] == cs[..i];
      cs := cs[i := r];
      AppliedStep(cs, i);
      ws := ws + [Write(r.name, Value(r.scheduler))];
      i := i + 1;
    }
    assert cs[..|cs|] == cs;
  }

  /**
   * SchedulerSet: the bindings in the order they were added, and the setter
   * calls made so far (the bound variables live outside the model; the log
   * callback is not modelled).
   */
  class SchedulerSet {
    var bindings: seq<Binding>
    var writes: seq<Write>

    ghost predicate Valid()
      reads this
    {
      AllValid(bindings)
    }

    constructor()
      ensures Valid() && bindings == [] && writes == []
    {
      bindings := [];
      writes := [];
    }

    /** `add`. */
    method Add(b: Binding)
      requires Valid() && BindingValid(b)
      modifies this
      ensures Valid() && bindings == old(bindings) + [b] && writes == old(writes)
    {
      bindings := bindings + [b];
    }

    /** `on_step` / `on_episode_end`: every binding listening to `event` may step and re-apply. */
    method OnEvent(event: Event, ctx: Context)
      requires Valid()
      modifies this
      ensures Valid()
      ensures bindings == AdvanceAll(old(bindings), event, ctx)
      ensures writes == old(writes) + Fired(old(bindings), event, ctx)
    {
      var cs, ws := RespondAll(bindings, event, ctx);
      bindings, writes := cs, writes + ws;
    }

    /** `on_step`: only OnStep bindings are touched. */
    method OnStepEvent(ctx: Context)
      requires Valid()
      modifies this
      ensures Valid()
      ensures bindings == AdvanceAll(old(bindings), OnStep, ctx)
      ensures writes == old(writes) + Fired(old(bindings), OnStep, ctx)
    {
      OnEvent(OnStep, ctx);
    }

    /** `on_episode_end`: only OnEpisodeEnd bindings are touched. */
    method OnEpisodeEndEvent(ctx: Context)
      requires Valid()
      modifies this
      ensures Valid()
      ensures bindings == AdvanceAll(old(bindings), OnEpisodeEnd, ctx)
      ensures writes == old(writes) + Fired(old(bindings), OnEpisodeEnd, ctx)
    {
      OnEvent(OnEpisodeEnd, ctx);
    }

    /** `initialize`: call every setter with its scheduler's current value. */
    method Initialize()
      requires Valid()
      modifies this
      ensures Valid() && bindings == old(bindings)
      ensures writes == old(writes) + Applied(bindings)
    {
      var bs, out := bindings, writes;
      var i := 0;
      while i < |bs|
        invariant 0 <= i <= |bs| && AllValid(bs)
        invariant bindings == bs && writes == old(writes)
        invariant out == writes + Applied(bs[..i])
      {
        AppliedStep(bs, i);
        out := out + [Write(bs[i].name, Value(bs[i].scheduler))];
        i := i + 1;
      }
      assert bs[..|bs|] == bs;
      writes := out;
    }

    /** `reset`: each binding in turn resets its scheduler and re-applies its value. */
    method ResetAll()
      requires Valid()
      modifies this
      ensures Valid() && bindings == ResetBindings(old(bindings))
      ensures writes == old(writes) + Applied(bindings)
    {
      var cs, ws := ResetEach(bindings);
      bindings, writes := cs, writes + ws;
    }

    /** `values()`: each binding's name and current value, which is what `initialize` writes. */
    function Values(): (vs: seq<Write>)
      reads this
      requires Valid()
      ensures vs == Applied(bindings)
    {
      var bs := bindings;
      AppliedOnePerBinding(bs);
      seq(|bs|, k requires 0 <= k < |bs| => assert BindingValid(bs[k]); Write(bs[k].name, Value(bs[k].scheduler)))
    }
  }
}
