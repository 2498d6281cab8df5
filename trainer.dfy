// The training loop of src/rl/Trainer.cpp. The environment and the agent are
// foreign objects here: what they answer is given by a `World` indexed by the
// episode and the step within it, and the calls the trainer makes on them are
// recorded in order. The schedulers are driven through the Schedulers model.
module Trainers {
  import opened Common
  import opened Schedulers

  /**
   * What the environment and the agent answer: the reward of step s of
   * episode e, whether the environment is done after s steps of episode e,
   * and whether the agent is ready to learn after observing step s.
   */
  datatype World = World(rewardOf: (int, int) -> real, doneAt: (int, int) -> bool, readyAt: (int, int) -> bool)

  function Reward(w: World, e: int, s: int): real
  {
    w.rewardOf(e, s)
  }

  predicate Done(w: World, e: int, s: int)
  {
    w.doneAt(e, s)
  }

  predicate Ready(w: World, e: int, s: int)
  {
    w.readyAt(e, s)
  }

  /** The calls the trainer makes, in order. */
  datatype Call =
    | InitializeSchedulers
    | EnvReset
    | Act             // snapshot, get_legal_mask and act
    | EnvStep
    | Observe
    | Learn
    | OnStepCall(ctx: Context)
    | StepEndCallback(ctx: Context)
    | OnEpisodeEndCall(ctx: Context)
    | EpisodeEndCallback(ctx: Context)

  /**
   * `TrainConfig` without its schedulers, which are a `SchedulerSet` of
   * their own; the two callbacks are present or absent.
   */
  datatype Config = Config(episodes: int, maxSteps: int, stopOnReward: Option<real>, onStepEnd: bool, onEpisodeEnd: bool)

  /** `should_stop`: a threshold is set and the episode reward reaches it. */
  predicate ShouldStop(cfg: Config, reward: real)
  {
    cfg.stopOnReward.Some? && reward >= cfg.stopOnReward.value
  }

  /** The calls of `run_step` for step s of episode e: `learn` only when the agent is ready. */
  function StepCalls(w: World, e: int, s: int): (cs: seq<Call>)
  {
    [Act, EnvStep, Observe] + (if Ready(w, e, s) then [Learn] else [])
  }

  /** The state of an episode in progress: the step, the total steps, the episode reward and the calls made. */
  datatype Run = Run(step: int, total: int, reward: real, calls: seq<Call>)

  /** The calls that end a step: the schedulers' `on_step`, then the callback when there is one. */
  function StepEndCalls(cfg: Config, ctx: Context): seq<Call>
  {
    [OnStepCall(ctx)] + (if cfg.onStepEnd then [StepEndCallback(ctx)] else [])
  }

  /** The context a step of episode e reports when it brings p to its next step. */
  function StepContext(w: World, e: int, last: real, p: Run): (ctx: Context)
    ensures ctx.episode == e && ctx.step == p.step + 1 && ctx.totalSteps == p.total + 1 && ctx.lastReward == last
    ensures ctx.episodeReward == p.reward + Reward(w, e, p.step)
  {
    Context(e, p.step + 1, p.total + 1, p.reward + Reward(w, e, p.step), last)
  }

  /** The step at which an episode that has taken s steps stops: the first that is done or reaches max_steps. */
  function StopStep(w: World, cfg: Config, e: int, s: int): int
    decreases cfg.maxSteps - s
  {
    if s >= cfg.maxSteps || Done(w, e, s) then s else StopStep(w, cfg, e, s + 1)
  }

  /** The rewards of steps a .. b-1 of episode e. */
  function RewardSum(w: World, e: int, a: int, b: int): real
    decreases b - a
  {
    if a >= b then 0.0 else Reward(w, e, a) + RewardSum(w, e, a + 1, b)
  }

  /** The number of steps a .. b-1 of episode e after which the agent is ready to learn. */
  function ReadyCount(w: World, e: int, a: int, b: int): nat
    decreases b - a
  {
    if a >= b then 0 else (if Ready(w, e, a) then 1 else 0) + ReadyCount(w, e, a + 1, b)
  }

  /**
   * The rest of `run_episode` from p: steps until the environment is done or
   * max_steps steps were taken. It stops at StopStep, each step adding one
   * to both counters and its reward to the episode reward, and only appends
   * to the calls.
   */
  function Episode(w: World, cfg: Config, e: int, last: real, p: Run): (q: Run)
    ensures q.step == StopStep(w, cfg, e, p.step) && p.step <= q.step
    ensures q.total == p.total + (q.step - p.step)
    ensures q.reward == p.reward + RewardSum(w, e, p.step, q.step)
    ensures |p.calls| <= |q.calls| && q.calls[..|p.calls|] == p.calls
    decreases cfg.maxSteps - p.step
  {
    if p.step >= cfg.maxSteps || Done(w, e, p.step) then p
    else
      var ctx := StepContext(w, e, last, p);
      Episode(w, cfg, e, last, Run(ctx.step, ctx.totalSteps, ctx.episodeReward,
                                   p.calls + StepCalls(w, e, p.step) + StepEndCalls(cfg, ctx)))
  }

  /** The number of `on_step` calls in a list of calls. */
  function OnStepCount(cs: seq<Call>): nat
  {
    if |cs| == 0 then 0 else (if cs[0].OnStepCall? then 1 else 0) + OnStepCount(cs[1..])
  }

  /** The number of `learn` calls in a list of calls. */
  function LearnCount(cs: seq<Call>): nat
  {
    if |cs| == 0 then 0 else (if cs[0].Learn? then 1 else 0) + LearnCount(cs[1..])
  }

  lemma {:induction false} CountsAppend(a: seq<Call>, b: seq<Call>)
    ensures OnStepCount(a + b) == OnStepCount(a) + OnStepCount(b)
    ensures LearnCount(a + b) == LearnCount(a) + LearnCount(b)
  {
    if |a| == 0 {
      assert a + b == b;
    } else {
      assert (a + b)[0] == a[0];
      assert (a + b)[1..] == a[1..] + b;
      CountsAppend(a[1..], b);
    }
  }

  lemma CountsSingle(c: Call)
    ensures OnStepCount([c]) == (if c.OnStepCall? then 1 else 0)
    ensures LearnCount([c]) == (if c.Learn? then 1 else 0)
  {
    assert [c][1..] == [];
  }

  /** One step's calls hold one `on_step` call, and one `learn` call exactly when the agent was ready. */
  lemma StepCounts(w: World, cfg: Config, e: int, s: int, ctx: Context)
    ensures var cs := StepCalls(w, e, s) + StepEndCalls(cfg, ctx);
      OnStepCount(cs) == 1 && LearnCount(cs) == if Ready(w, e, s) then 1 else 0
  {
    var learn: seq<Call> := if Ready(w, e, s) then [Learn] else [];
    var tail: seq<Call> := if cfg.onStepEnd then [StepEndCallback(ctx)] else [];
    CountsSingle(Act);
    CountsSingle(EnvStep);
    CountsSingle(Observe);
    CountsSingle(Learn);
    CountsSingle(OnStepCall(ctx));
    CountsSingle(StepEndCallback(ctx));
    CountsAppend([Act], [EnvStep]);
    CountsAppend([Act] + [EnvStep], [Observe]);
    assert [Act, EnvStep, Observe] == [Act] + [EnvStep] + [Observe];
    CountsAppend([Act, EnvStep, Observe], learn);
    assert StepCalls(w, e, s) == [Act, EnvStep, Observe] + learn;
    CountsAppend([OnStepCall(ctx)], tail);
    CountsAppend(StepCalls(w, e, s), StepEndCalls(cfg, ctx));
  }

  /**
   * Over an episode run from p the calls hold exactly one `on_step` call per
   * step, and a `learn` call for each step after which the agent was ready.
   */
  lemma {:induction false} EpisodeCounts(w: World, cfg: Config, e: int, last: real, p: Run)
    ensures var q := Episode(w, cfg, e, last, p);
      OnStepCount(q.calls[|p.calls|..]) == q.step - p.step &&
      LearnCount(q.calls[|p.calls|..]) == ReadyCount(w, e, p.step, q.step)
    decreases cfg.maxSteps - p.step
  {
    if p.step >= cfg.maxSteps || Done(w, e, p.step) {
      assert p.calls[|p.calls|..] == [];
    } else {
      var ctx := StepContext(w, e, last, p);
      var mine := StepCalls(w, e, p.step) + StepEndCalls(cfg, ctx);
      var n := Run(ctx.step, ctx.totalSteps, ctx.episodeReward, p.calls + StepCalls(w, e, p.step) + StepEndCalls(cfg, ctx));
      EpisodeCounts(w, cfg, e, last, n);
      var q := Episode(w, cfg, e, last, n);
      assert n.calls == p.calls + mine;
      assert q.calls[|p.calls|..] == mine + q.calls[|n.calls|..];
      StepCounts(w, cfg, e, p.step, ctx);
      CountsAppend(mine, q.calls[|n.calls|..]);
      assert ReadyCount(w, e, p.step, q.step) == (if Ready(w, e, p.step) then 1 else 0) + ReadyCount(w, e, n.step, q.step);
    }
  }

  /** The episode stops at a step that is done or is max_steps, and no earlier step is done. */
  lemma {:induction false} StopStepFacts(w: World, cfg: Config, e: int, s: int)
    ensures s <= StopStep(w, cfg, e, s)
    ensures s <= cfg.maxSteps ==> StopStep(w, cfg, e, s) <= cfg.maxSteps
    ensures StopStep(w, cfg, e, s) >= cfg.maxSteps || Done(w, e, StopStep(w, cfg, e, s))
    ensures forall k :: s <= k < StopStep(w, cfg, e, s) ==> !Done(w, e, k) && k < cfg.maxSteps
    decreases cfg.maxSteps - s
  {
    if !(s >= cfg.maxSteps || Done(w, e, s)) {
      StopStepFacts(w, cfg, e, s + 1);
    }
  }

  /** The reward of a whole episode e, which does not depend on what came before it. */
  function EpisodeReward(w: World, cfg: Config, e: int): real
  {
    RewardSum(w, e, 0, StopStep(w, cfg, e, 0))
  }

  /**
   * The context passed to `on_episode_end` as written: `last_rewards` is
   * overwritten with this episode's reward before the context is built.
   */
  function EndContext(e: int, steps: int, total: int, reward: real): (ctx: Context)
    ensures ctx.lastReward == ctx.episodeReward
  {
    Context(e, steps, total, reward, reward)
  }

  /** The state of `train` in progress. */
  datatype Progress = Progress(ran: int, total: int, last: real, sum: real, stopped: bool, calls: seq<Call>)

  /** The calls that end an episode: the schedulers' `on_episode_end`, then the callback when there is one. */
  function EpisodeEndCalls(cfg: Config, ctx: Context): seq<Call>
  {
    [OnEpisodeEndCall(ctx)] + (if cfg.onEpisodeEnd then [EpisodeEndCallback(ctx)] else [])
  }

  /**
   * One turn of the `train` loop: an episode, the episode-end calls, and the
   * stop test. The episode-end context carries the previous episode's reward
   * as the last reward (IntendedEndContext), not this episode's (EndContext):
   * this is the corrected loop, not the one Trainer.cpp runs.
   */
  function NextEpisode(w: World, cfg: Config, p: Progress): (q: Progress)
    ensures q.ran == p.ran + 1
    ensures q.last == EpisodeReward(w, cfg, p.ran) && q.sum == p.sum + q.last
    ensures q.stopped == ShouldStop(cfg, q.last)
  {
    var r := Episode(w, cfg, p.ran, p.last, Run(0, p.total, 0.0, p.calls + [EnvReset]));
    var ctx := IntendedEndContext(p.ran, r.step, r.total, r.reward, p.last);
    Progress(p.ran + 1, r.total, r.reward, p.sum + r.reward, ShouldStop(cfg, r.reward),
             r.calls + EpisodeEndCalls(cfg, ctx))
  }

  /** The rest of `train` from p: episodes until `episodes` ran or one met the threshold. */
  function Training(w: World, cfg: Config, p: Progress): Progress
    decreases cfg.episodes - p.ran, if p.stopped then 0 else 1
  {
    if p.stopped || p.ran >= cfg.episodes then p
    else Training(w, cfg, NextEpisode(w, cfg, p))
  }

  /** A turn of the `train` loop that is not the last leaves the rest of training to run. */
  lemma TrainingStep(w: World, cfg: Config, p: Progress)
    requires !p.stopped && p.ran < cfg.episodes
    ensures Training(w, cfg, p) == Training(w, cfg, NextEpisode(w, cfg, p))
  {
  }

  /** Once stopped or out of episodes, training is over. */
  lemma TrainingDone(w: World, cfg: Config, p: Progress)
    requires p.stopped || p.ran >= cfg.episodes
    ensures Training(w, cfg, p) == p
  {
  }

  /** The rewards of episodes a .. b-1. */
  function RewardsOf(w: World, cfg: Config, a: int, b: int): real
    decreases b - a
  {
    if a >= b then 0.0 else EpisodeReward(w, cfg, a) + RewardsOf(w, cfg, a + 1, b)
  }

  /**
   * `train` runs episodes p.ran, p.ran+1, ... and stops right after the
   * first whose reward meets the threshold, or after the last one; it
   * returns the sum of the rewards of the episodes it ran, and each episode
   * got the previous one's reward as its last reward.
   */
  lemma {:induction false} TrainingFacts(w: World, cfg: Config, p: Progress)
    requires !p.stopped
    ensures var q := Training(w, cfg, p);
      p.ran <= q.ran && (p.ran < cfg.episodes ==> q.ran <= cfg.episodes) &&
      q.sum == p.sum + RewardsOf(w, cfg, p.ran, q.ran) &&
      (forall e :: p.ran <= e < q.ran - 1 ==> !ShouldStop(cfg, EpisodeReward(w, cfg, e))) &&
      (q.ran > p.ran ==> q.last == EpisodeReward(w, cfg, q.ran - 1)) &&
      (q.ran < cfg.episodes ==> q.ran > p.ran && ShouldStop(cfg, EpisodeReward(w, cfg, q.ran - 1)))
    decreases cfg.episodes - p.ran
  {
    if p.ran < cfg.episodes {
      var n := NextEpisode(w, cfg, p);
      if !n.stopped {
        TrainingFacts(w, cfg, n);
      }
    }
  }

  /** Calls that leave the schedulers alone. */
  predicate Quiet(c: Call)
  {
    !(c.InitializeSchedulers? || c.OnStepCall? || c.OnEpisodeEndCall?)
  }

  /** What one call does to the bindings: `on_step` and `on_episode_end` advance those listening. */
  function Advanced(bs: seq<Binding>, c: Call): (r: seq<Binding>)
    requires AllValid(bs)
    ensures AllValid(r) && |r| == |bs|
    ensures Quiet(c) || c.InitializeSchedulers? ==> r == bs
  {
    match c
    case OnStepCall(ctx) => AdvanceAll(bs, OnStep, ctx)
    case OnEpisodeEndCall(ctx) => AdvanceAll(bs, OnEpisodeEnd, ctx)
    case _ => bs
  }

  /** The setter calls one call makes: `initialize` applies every binding, an event fires those listening whose condition holds. */
  function Fires(bs: seq<Binding>, c: Call): (ws: seq<Write>)
    requires AllValid(bs)
    ensures Quiet(c) ==> ws == []
  {
    match c
    case InitializeSchedulers => Applied(bs)
    case OnStepCall(ctx) => Fired(bs, OnStep, ctx)
    case OnEpisodeEndCall(ctx) => Fired(bs, OnEpisodeEnd, ctx)
    case _ => []
  }

  /** The bindings after the scheduler calls among calls[from..], starting from bs. */
  function Schedule(bs: seq<Binding>, calls: seq<Call>, from: nat): (r: seq<Binding>)
    requires AllValid(bs)
    ensures AllValid(r) && |r| == |bs|
    decreases |calls|
  {
    if |calls| <= from then bs
    else Advanced(Schedule(bs, calls[..|calls| - 1], from), calls[|calls| - 1])
  }

  /** The setter calls the scheduler calls among calls[from..] make, starting from bs. */
  function Writes(bs: seq<Binding>, calls: seq<Call>, from: nat): seq<Write>
    requires AllValid(bs)
    decreases |calls|
  {
    if |calls| <= from then []
    else Writes(bs, calls[..|calls| - 1], from) + Fires(Schedule(bs, calls[..|calls| - 1], from), calls[|calls| - 1])
  }

  /** Quiet calls change neither the bindings nor the setter calls. */
  lemma {:induction false} QuietAppend(bs: seq<Binding>, calls: seq<Call>, more: seq<Call>, from: nat)
    requires AllValid(bs) && from <= |calls|
    requires forall i :: 0 <= i < |more| ==> Quiet(more[i])
    ensures Schedule(bs, calls + more, from) == Schedule(bs, calls, from)
    ensures Writes(bs, calls + more, from) == Writes(bs, calls, from)
    decreases |more|
  {
    if |more| > 0 {
      var init := more[..|more| - 1];
      assert (calls + more)[..|calls + more| - 1] == calls + init;
      assert (calls + more)[|calls + more| - 1] == more[|more| - 1];
      QuietAppend(bs, calls, init, from);
    } else {
      assert calls + more == calls;
    }
  }

  /** One more call: what Schedule and Writes add for it. */
  lemma Snoc(bs: seq<Binding>, calls: seq<Call>, c: Call, from: nat)
    requires AllValid(bs) && from <= |calls|
    ensures Schedule(bs, calls + [c], from) == Advanced(Schedule(bs, calls, from), c)
    ensures Writes(bs, calls + [c], from) == Writes(bs, calls, from) + Fires(Schedule(bs, calls, from), c)
  {
    assert (calls + [c])[..|calls|] == calls;
  }

  /** The calls ending a step advance and fire the `on_step` bindings, and nothing else. */
  lemma StepEndFold(bs: seq<Binding>, calls: seq<Call>, cfg: Config, ctx: Context, from: nat)
    requires AllValid(bs) && from <= |calls|
    ensures Schedule(bs, calls + StepEndCalls(cfg, ctx), from) == AdvanceAll(Schedule(bs, calls, from), OnStep, ctx)
    ensures Writes(bs, calls + StepEndCalls(cfg, ctx), from) == Writes(bs, calls, from) + Fired(Schedule(bs, calls, from), OnStep, ctx)
  {
    Snoc(bs, calls, OnStepCall(ctx), from);
    var tail: seq<Call> := if cfg.onStepEnd then [StepEndCallback(ctx)] else [];
    QuietAppend(bs, calls + [OnStepCall(ctx)], tail, from);
    assert calls + StepEndCalls(cfg, ctx) == calls + [OnStepCall(ctx)] + tail;
  }

  /** The calls ending an episode advance and fire the `on_episode_end` bindings, and nothing else. */
  lemma EpisodeEndFold(bs: seq<Binding>, calls: seq<Call>, cfg: Config, ctx: Context, from: nat)
    requires AllValid(bs) && from <= |calls|
    ensures Schedule(bs, calls + EpisodeEndCalls(cfg, ctx), from) == AdvanceAll(Schedule(bs, calls, from), OnEpisodeEnd, ctx)
    ensures Writes(bs, calls + EpisodeEndCalls(cfg, ctx), from) ==
            Writes(bs, calls, from) + Fired(Schedule(bs, calls, from), OnEpisodeEnd, ctx)
  {
    Snoc(bs, calls, OnEpisodeEndCall(ctx), from);
    var tail: seq<Call> := if cfg.onEpisodeEnd then [EpisodeEndCallback(ctx)] else [];
    QuietAppend(bs, calls + [OnEpisodeEndCall(ctx)], tail, from);
    assert calls + EpisodeEndCalls(cfg, ctx) == calls + [OnEpisodeEndCall(ctx)] + tail;
  }

  lemma WritesAssoc(a: seq<Write>, b: seq<Write>, c: seq<Write>)
    ensures a + (b + c) == (a + b) + c
  {
  }

  /** Folding the scheduler calls in two pieces is folding them at once. */
  lemma {:induction false} ScheduleSplit(bs: seq<Binding>, c1: seq<Call>, c2: seq<Call>, from: nat)
    requires AllValid(bs) && from <= |c1| <= |c2| && c2[..|c1|] == c1
    ensures Schedule(bs, c2, from) == Schedule(Schedule(bs, c1, from), c2, |c1|)
    ensures Writes(bs, c2, from) == Writes(bs, c1, from) + Writes(Schedule(bs, c1, from), c2, |c1|)
    decreases |c2|
  {
    if |c2| == |c1| {
      assert c2 == c1;
    } else {
      var init, last := c2[..|c2| - 1], c2[|c2| - 1];
      assert init[..|c1|] == c1;
      ScheduleSplit(bs, c1, init, from);
      var s1 := Schedule(bs, c1, from);
      var mid := Schedule(bs, init, from);
      assert Schedule(bs, c2, from) == Advanced(mid, last);
      assert Schedule(s1, c2, |c1|) == Advanced(Schedule(s1, init, |c1|), last);
      assert Writes(bs, c2, from) == Writes(bs, init, from) + Fires(mid, last);
      assert Writes(s1, c2, |c1|) == Writes(s1, init, |c1|) + Fires(mid, last);
      WritesAssoc(Writes(bs, c1, from), Writes(s1, init, |c1|), Fires(mid, last));
    }
  }

  class Trainer {
    const world: World
    var calls: seq<Call>

    constructor (world: World)
      ensures this.world == world && calls == []
    {
      this.world := world;
      calls := [];
    }

    /** `run_step`: act, step, observe, and learn when the agent is ready; the step's reward. */
    method RunStep(e: int, s: int) returns (reward: real)
      modifies this
      ensures calls == old(calls) + StepCalls(world, e, s)
      ensures reward == Reward(world, e, s)
    {
      calls := calls + [Act, EnvStep, Observe];
      if Ready(world, e, s) {
        calls := calls + [Learn];
      }
      reward := Reward(world, e, s);
    }

    /**
     * The schedulers' `on_step` or `on_episode_end`, then the callback when
     * there is one: `ending` are those calls, whose fold over the bindings is
     * the event's.
     */
    method Notify(event: Event, ctx: Context, ending: seq<Call>, sched: SchedulerSet,
                  ghost bs0: seq<Binding>, ghost ws0: seq<Write>, ghost from: nat)
      requires AllValid(bs0) && sched.Valid() && from <= |calls|
      requires sched.bindings == Schedule(bs0, calls, from) && sched.writes == ws0 + Writes(bs0, calls, from)
      requires Schedule(bs0, calls + ending, from) == AdvanceAll(sched.bindings, event, ctx)
      requires Writes(bs0, calls + ending, from) == Writes(bs0, calls, from) + Fired(sched.bindings, event, ctx)
      modifies this, sched
      ensures calls == old(calls) + ending
      ensures sched.Valid() && from <= |calls|
      ensures sched.bindings == Schedule(bs0, calls, from) && sched.writes == ws0 + Writes(bs0, calls, from)
    {
      WritesAssoc(ws0, Writes(bs0, calls, from), Fired(sched.bindings, event, ctx));
      sched.OnEvent(event, ctx);
      calls := calls + ending;
    }

    /** The end of a step: the schedulers' `on_step`, then the step callback. */
    method StepEnd(ctx: Context, cfg: Config, sched: SchedulerSet, ghost bs0: seq<Binding>, ghost ws0: seq<Write>, ghost from: nat)
      requires AllValid(bs0) && sched.Valid() && from <= |calls|
      requires sched.bindings == Schedule(bs0, calls, from) && sched.writes == ws0 + Writes(bs0, calls, from)
      modifies this, sched
      ensures calls == old(calls) + StepEndCalls(cfg, ctx)
      ensures sched.Valid() && from <= |calls|
      ensures sched.bindings == Schedule(bs0, calls, from) && sched.writes == ws0 + Writes(bs0, calls, from)
    {
      StepEndFold(bs0, calls, cfg, ctx, from);
      Notify(OnStep, ctx, StepEndCalls(cfg, ctx), sched, bs0, ws0, from);
    }

    /** The end of an episode: the schedulers' `on_episode_end`, then the episode callback. */
    method EpisodeEnd(ctx: Context, cfg: Config, sched: SchedulerSet, ghost bs0: seq<Binding>, ghost ws0: seq<Write>, ghost from: nat)
      requires AllValid(bs0) && sched.Valid() && from <= |calls|
      requires sched.bindings == Schedule(bs0, calls, from) && sched.writes == ws0 + Writes(bs0, calls, from)
      modifies this, sched
      ensures calls == old(calls) + EpisodeEndCalls(cfg, ctx)
      ensures sched.Valid() && from <= |calls|
      ensures sched.bindings == Schedule(bs0, calls, from) && sched.writes == ws0 + Writes(bs0, calls, from)
    {
      EpisodeEndFold(bs0, calls, cfg, ctx, from);
      Notify(OnEpisodeEnd, ctx, EpisodeEndCalls(cfg, ctx), sched, bs0, ws0, from);
    }

    /**
     * One turn of the `run_episode` loop: `run_step`, the reward added, both
     * counters moved on, then the schedulers' `on_step` and the callback.
     */
    method StepOn(e: int, last: real, cfg: Config, sched: SchedulerSet, steps: int, totalSteps: int, reward: real,
                  ghost bs0: seq<Binding>, ghost ws0: seq<Write>, ghost from: nat)
      returns (stepsAfter: int, totalAfter: int, rewardAfter: real)
      requires AllValid(bs0) && sched.Valid() && from <= |calls|
      requires sched.bindings == Schedule(bs0, calls, from) && sched.writes == ws0 + Writes(bs0, calls, from)
      modifies this, sched
      ensures var ctx := StepContext(world, e, last, Run(steps, totalSteps, reward, old(calls)));
        stepsAfter == ctx.step && totalAfter == ctx.totalSteps && rewardAfter == ctx.episodeReward &&
        calls == old(calls) + StepCalls(world, e, steps) + StepEndCalls(cfg, ctx)
      ensures sched.Valid() && from <= |calls|
      ensures sched.bindings == Schedule(bs0, calls, from) && sched.writes == ws0 + Writes(bs0, calls, from)
    {
      var r := RunStep(e, steps);
      QuietAppend(bs0, old(calls), StepCalls(world, e, steps), from);
      rewardAfter := reward + r;
      stepsAfter := steps + 1;
      totalAfter := totalSteps + 1;
      var ctx := Context(e, stepsAfter, totalAfter, rewardAfter, last);
      assert ctx == StepContext(world, e, last, Run(steps, totalSteps, reward, old(calls)));
      ghost var mid := calls;
      StepEnd(ctx, cfg, sched, bs0, ws0, from);
      assert calls == mid + StepEndCalls(cfg, ctx);
    }

    /**
     * `run_episode`: reset, then step while the environment is not done and
     * fewer than max_steps steps were taken; every step counts towards both
     * counters and calls the schedulers' `on_step` and the callback. The
     * schedulers end as the fold of the scheduler calls made.
     */
    method RunEpisode(e: int, totalSteps: int, last: real, cfg: Config, sched: SchedulerSet)
      returns (steps: int, reward: real, totalAfter: int)
      requires sched.Valid()
      modifies this, sched
      ensures var q := Episode(world, cfg, e, last, Run(0, totalSteps, 0.0, old(calls) + [EnvReset]));
        steps == q.step && reward == q.reward && totalAfter == q.total && calls == q.calls
      ensures |old(calls)| < |calls| && calls[..|old(calls)|] == old(calls)
      ensures sched.Valid()
      ensures sched.bindings == Schedule(old(sched.bindings), calls, |old(calls)|)
      ensures sched.writes == old(sched.writes) + Writes(old(sched.bindings), calls, |old(calls)|)
    {
      ghost var from := |calls|;
      ghost var start := Run(0, totalSteps, 0.0, calls + [EnvReset]);
      QuietAppend(sched.bindings, calls, [EnvReset], from);
      calls := calls + [EnvReset];
      steps, reward, totalAfter := 0, 0.0, totalSteps;
      while !Done(world, e, steps) && steps < cfg.maxSteps
        invariant sched.Valid() && from <= |calls|
        invariant Episode(world, cfg, e, last, start) == Episode(world, cfg, e, last, Run(steps, totalAfter, reward, calls))
        invariant sched.bindings == Schedule(old(sched.bindings), calls, from)
        invariant sched.writes == old(sched.writes) + Writes(old(sched.bindings), calls, from)
        decreases cfg.maxSteps - steps
      {
        steps, totalAfter, reward := StepOn(e, last, cfg, sched, steps, totalAfter, reward, old(sched.bindings), old(sched.writes), from);
      }
    }

    /**
     * `train`: initialize the schedulers once, then run the episodes, each
     * followed by the schedulers' `on_episode_end` and the callback, until
     * `episodes` ran or one met the reward threshold; the summed rewards.
     * `sched` is the copy of the schedulers `train` makes with its
     * configuration.
     */
    method Train(cfg: Config, sched: SchedulerSet) returns (totalReward: real)
      requires sched.Valid()
      modifies this, sched
      ensures var q := Training(world, cfg, Progress(0, 0, 0.0, 0.0, false, old(calls) + [InitializeSchedulers]));
        totalReward == q.sum && calls == q.calls
      ensures sched.Valid()
      ensures sched.bindings == Schedule(old(sched.bindings), calls, |old(calls)|)
      ensures sched.writes == old(sched.writes) + Writes(old(sched.bindings), calls, |old(calls)|)
    {
      ghost var from := |calls|;
      ghost var b0 := sched.bindings;
      ghost var start := Progress(0, 0, 0.0, 0.0, false, calls + [InitializeSchedulers]);
      Snoc(b0, calls, InitializeSchedulers, from);
      sched.Initialize();
      calls := calls + [InitializeSchedulers];
      totalReward := 0.0;
      var last := 0.0;
      var totalSteps := 0;
      var e := 0;
      ghost var goal := Training(world, cfg, start);
      while e < cfg.episodes
        invariant sched.Valid() && from <= |calls|
        invariant goal == Training(world, cfg, Progress(e, totalSteps, last, totalReward, false, calls))
        invariant sched.bindings == Schedule(b0, calls, from)
        invariant sched.writes == old(sched.writes) + Writes(b0, calls, from)
        decreases cfg.episodes - e
      {
        ghost var p := Progress(e, totalSteps, last, totalReward, false, calls);
        var stop;
        totalSteps, last, totalReward, stop := EpisodeOn(e, totalSteps, last, totalReward, cfg, sched, b0, old(sched.writes), from);
        TrainingStep(world, cfg, p);
        if stop {
          TrainingDone(world, cfg, Progress(e + 1, totalSteps, last, totalReward, stop, calls));
          return;
        }
        e := e + 1;
      }
      TrainingDone(world, cfg, Progress(e, totalSteps, last, totalReward, false, calls));
    }

    /**
     * One turn of the `train` loop: an episode, its reward added to the
     * sum and kept as the last reward, then the schedulers'
     * `on_episode_end` and the callback, told the previous episode's reward
     * as the last reward, and the stop test.
     */
    method EpisodeOn(e: int, totalSteps: int, last: real, totalReward: real, cfg: Config, sched: SchedulerSet,
                     ghost bs0: seq<Binding>, ghost ws0: seq<Write>, ghost from: nat)
      returns (totalAfter: int, lastAfter: real, sumAfter: real, stop: bool)
      requires AllValid(bs0) && sched.Valid() && from <= |calls|
      requires sched.bindings == Schedule(bs0, calls, from) && sched.writes == ws0 + Writes(bs0, calls, from)
      modifies this, sched
      ensures Progress(e + 1, totalAfter, lastAfter, sumAfter, stop, calls) ==
              NextEpisode(world, cfg, Progress(e, totalSteps, last, totalReward, false, old(calls)))
      ensures sched.Valid() && from <= |calls|
      ensures sched.bindings == Schedule(bs0, calls, from) && sched.writes == ws0 + Writes(bs0, calls, from)
    {
      ghost var before := calls;
      ghost var bsE := sched.bindings;
      var steps, reward;
      steps, reward, totalAfter := RunEpisode(e, totalSteps, last, cfg, sched);
      ScheduleSplit(bs0, before, calls, from);
      WritesAssoc(ws0, Writes(bs0, before, from), Writes(bsE, calls, |before|));
      lastAfter := reward;
      sumAfter := totalReward + reward;
      var ctx := IntendedEndContext(e, steps, totalAfter, reward, last);
      EpisodeEnd(ctx, cfg, sched, bs0, ws0, from);
      stop := ShouldStop(cfg, reward);
    }
  }

  /**
   * As written, the context passed to `on_episode_end` carries this
   * episode's reward as the last reward too, so an `on_reward_decrease`
   * condition with a non-negative percent never holds there.
   */
  lemma EndContextNeverSeesDecrease(e: int, steps: int, total: int, reward: real, percent: real)
    requires percent >= 0.0
    ensures !Holds(OnRewardDecrease(percent), EndContext(e, steps, total, reward))
  {
    RewardIncreaseNeverFires(EndContext(e, steps, total, reward), percent);
  }

  /** The context the condition needs: the previous episode's reward as the last reward. */
  function IntendedEndContext(e: int, steps: int, total: int, reward: real, previous: real): (ctx: Context)
    ensures ctx.episodeReward == reward && ctx.lastReward == previous
  {
    Context(e, steps, total, reward, previous)
  }

  /** With it, `on_reward_decrease(0)` fires exactly when the reward dropped. */
  lemma IntendedEndContextSeesDecrease(e: int, steps: int, total: int, reward: real, previous: real)
    ensures Holds(OnRewardDecrease(0.0), IntendedEndContext(e, steps, total, reward, previous)) <==> reward < previous
  {
    RewardDecreaseAtZero(IntendedEndContext(e, steps, total, reward, previous));
  }
}
