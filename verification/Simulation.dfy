/** The simulated executors as an environment, and how long a halted controller takes to unwind. */
module Simulation {
  import opened Prelude
  import opened Bands
  import opened Executors
  import opened Controller
  import opened World

  /** What the simulated market contributes to a tick: the true price moves the executors, while
      the controller only sees `obs`, which may be stale. */
  datatype SimTick = SimTick(now: real, price: real, feePct: real, slippage: real, obs: Obs, latency: real)

  predicate ValidSim(w: World, st: SimTick, maxLatency: real) {
    && w.now < st.now && 0.0 < st.price && 0.0 <= st.feePct && 0.0 <= st.slippage <= 1.0
    && 0.0 <= st.latency <= maxLatency
    && (st.obs.Pool? ==> 0.0 < st.obs.price)
  }

  predicate Ready(es: seq<Executor>) { forall i :: 0 <= i < |es| ==> Simulated(es[i]) }

  function StepAll(es: seq<Executor>, st: SimTick): (es': seq<Executor>)
    requires Ready(es) && 0.0 < st.price
    ensures |es'| == |es|
  {
    seq(|es|, i requires 0 <= i < |es| => StepExecutor(es[i], st.now, st.price, st.feePct, st.slippage))
  }

  function Input(w: World, st: SimTick): Tick
    requires Ready(w.execs) && 0.0 < st.price
  {
    Tick(st.now, StepAll(w.execs, st), st.obs, st.latency)
  }

  function Longest(maxLatency: real): real { MaxR(maxLatency, AUTO_CLOSE_LATENCY) }

  /** Deadlines of the running executor. Once the controller has halted, its position is closing. */
  predicate Deadlines(c: Ctrl, e: Executor, now: real, maxLatency: real) {
    match e
    case Lp(x) =>
      && (x.born == now ==> !x.landed)
      && x.opensAt <= now + maxLatency
      && (x.closingAt.Some? ==> x.closingAt.value <= now + Longest(maxLatency))
      && (c.stopRequested == Some(x.id) || Halted(c.phase) ==> x.closingAt.Some?)
    case Order(x) =>
      x.fillsAt <= x.born + maxLatency && (x.born == now || now < x.fillsAt)
  }

  /** Nothing has failed, and swaps that are over filled completely. */
  predicate Unfailed(e: Executor) {
    !e.Failed() && (e.Order? && !e.Active() ==> e.order.executed == e.order.amount)
  }

  /** What simulated runs keep besides Inv: nothing fails, swaps fill completely, deadlines hold. */
  predicate SimInv(w: World, maxLatency: real) {
    && Ready(w.execs)
    && (forall i :: 0 <= i < |w.execs| ==> Unfailed(w.execs[i]))
    && (Running(w.execs) ==> Deadlines(w.ctrl, Last(w.execs), w.now, maxLatency))
  }

  /** The simulated executors never do anything the general environment excludes. */
  lemma SimTickValid(cfg: Config, w: World, st: SimTick, maxLatency: real)
    requires Inv(cfg, w) && SimInv(w, maxLatency) && ValidSim(w, st, maxLatency)
    ensures ValidTick(w, Input(w, st)) && Ready(Input(w, st).execs)
  {
    forall i | 0 <= i < |w.execs|
      ensures Evolves(w.execs[i], StepAll(w.execs, st)[i], w.now) && Simulated(StepAll(w.execs, st)[i])
    {
      SimEvolves(w.execs[i], w.now, st.now, st.price, st.feePct, st.slippage);
    }
  }

  /** What the stepped executors satisfy before the controller acts on them. */
  predicate Stepped(es: seq<Executor>, now: real, maxLatency: real) {
    && Ready(es)
    && (forall i :: 0 <= i < |es| ==> Unfailed(es[i]))
    && (RunningLp(es) ==>
          var x := Last(es).lp;
          && x.born < now && x.opensAt <= now + maxLatency
          && (x.closingAt.Some? ==> x.closingAt.value <= now + Longest(maxLatency)))
    && (RunningOrder(es) ==> Last(es).order.fillsAt <= Last(es).order.born + maxLatency && now < Last(es).order.fillsAt)
  }

  lemma StepAllStepped(cfg: Config, w: World, st: SimTick, maxLatency: real)
    requires Inv(cfg, w) && SimInv(w, maxLatency) && ValidSim(w, st, maxLatency)
    ensures Stepped(StepAll(w.execs, st), st.now, maxLatency)
    ensures RunningLp(StepAll(w.execs, st)) && Last(w.execs).lp.closingAt.Some? ==>
      Last(StepAll(w.execs, st)).lp.closingAt == Last(w.execs).lp.closingAt
  {
    SimTickValid(cfg, w, st, maxLatency);
    EvolvedBook(w, Input(w, st));
  }

  lemma SimAppliedEach(cfg: Config, s: Ctrl, es: seq<Executor>, now: real, latency: real, c': Ctrl, acts: seq<Action>)
    requires ExecsInv(es, now) && ActSpec(cfg, s, es, now, c', acts) && Ready(es)
    requires forall i :: 0 <= i < |es| ==> Unfailed(es[i])
    requires acts != [] && acts[0].CreateLp? ==> Steppable(acts[0].cfg)
    ensures var es' := Applied(es, acts, now, latency); Ready(es') && forall i :: 0 <= i < |es'| ==> Unfailed(es'[i])
  {
    if acts != [] {
      ApplyShape(cfg, s, es, now, latency, c', acts);
      var es' := Applied(es, acts, now, latency);
      forall i | 0 <= i < |es'| ensures Simulated(es'[i]) && Unfailed(es'[i]) {
        if i < |es'| - 1 { assert es'[i] == Front(es')[i]; } else { assert es'[i] == Last(es'); }
      }
    }
  }

  lemma SimAppliedDeadlines(cfg: Config, s: Ctrl, es: seq<Executor>, now: real, latency: real,
                            c': Ctrl, acts: seq<Action>, maxLatency: real)
    requires ExecsInv(es, now) && ActSpec(cfg, s, es, now, c', acts)
    requires Stepped(es, now, maxLatency) && 0.0 <= latency <= maxLatency
    requires s.stopRequested.Some? ==> s.stopRequested.value < |es|
    requires RunningLp(es) ==>
      && (s.stopRequested == Some(|es| - 1) ==> Last(es).lp.closingAt.Some?)
      && (acts == [] ==> !Halted(s.phase) || s.stopRequested == Some(|es| - 1))
    ensures var es' := Applied(es, acts, now, latency); Running(es') ==> Deadlines(c', Last(es'), now, maxLatency)
  {
    if acts != [] { ApplyBook(cfg, s, es, now, latency, c', acts); }
  }

  lemma CreatedSteppable(cfg: Config, c: Ctrl)
    requires Solvent(cfg, c) && Spreads(cfg.geometry)
    ensures CreateConfig(cfg, c).1.Some? ==> Steppable(CreateConfig(cfg, c).1.value)
  {
    CreatedConfig(cfg, c);
    CreatedTop(cfg, c);
  }

  /** The deadlines after a tick, from what its two parts do. */
  lemma TickKeepsDeadlines(cfg: Config, w: World, st: SimTick, maxLatency: real, s: Ctrl, c': Ctrl, acts: seq<Action>)
    requires CfgOk(cfg) && Spreads(cfg.geometry) && Inv(cfg, w) && SimInv(w, maxLatency) && ValidSim(w, st, maxLatency)
    requires ValidTick(w, Input(w, st))
    requires var t := Input(w, st);
      var settled := Settle(Observe(cfg, w.ctrl, t.obs), t.execs, t.now);
      && s == settled.(phase := NextPhase(cfg, settled))
      && ExecsInv(t.execs, t.now) && Tracks(s, t.execs, t.now) && Solvent(cfg, s)
      && (c', acts) == Act(cfg, s, ActiveLp(t.execs), t.now) && ActSpec(cfg, s, t.execs, t.now, c', acts)
    ensures var es' := Applied(Input(w, st).execs, acts, st.now, st.latency);
      && Ready(es') && (forall i :: 0 <= i < |es'| ==> Unfailed(es'[i]))
      && (Running(es') ==> Deadlines(c', Last(es'), st.now, maxLatency))
  {
    var t := Input(w, st);
    StepAllStepped(cfg, w, st, maxLatency);
    StopsCarried(cfg, w, t, maxLatency, s);
    ActOutcome(cfg, s, t.execs, t.now);
    CreatedSteppable(cfg, s);
    SimAppliedEach(cfg, s, t.execs, t.now, t.latency, c', acts);
    SimAppliedDeadlines(cfg, s, t.execs, t.now, t.latency, c', acts, maxLatency);
  }

  /** A simulated tick is a valid tick and keeps the simulation's own invariant. */
  lemma SimStepKeepsInv(cfg: Config, w: World, st: SimTick, maxLatency: real)
    requires CfgOk(cfg) && Spreads(cfg.geometry) && Inv(cfg, w) && SimInv(w, maxLatency) && ValidSim(w, st, maxLatency)
    ensures ValidTick(w, Input(w, st)) && Inv(cfg, Step(cfg, w, Input(w, st)))
    ensures SimInv(Step(cfg, w, Input(w, st)), maxLatency)
  {
    var t := Input(w, st);
    SimTickValid(cfg, w, st, maxLatency);
    StepKeepsInv(cfg, w, t);
    var s, c', acts := StepParts(cfg, w, t);
    TickKeepsDeadlines(cfg, w, st, maxLatency, s, c', acts);
  }

  lemma StopsCarried(cfg: Config, w: World, t: Tick, maxLatency: real, s: Ctrl)
    requires Inv(cfg, w) && ValidTick(w, t) && SimInv(w, maxLatency)
    requires var settled := Settle(Observe(cfg, w.ctrl, t.obs), t.execs, t.now);
      s == settled.(phase := NextPhase(cfg, settled))
    ensures s.stopRequested.Some? ==> s.stopRequested.value < |t.execs|
    ensures RunningLp(t.execs) && s.stopRequested == Some(|t.execs| - 1) ==>
      RunningLp(w.execs) && Last(w.execs).lp.closingAt.Some?
  {
    SettleOutcome(w, t, Observe(cfg, w.ctrl, t.obs));
    EvolvedBook(w, t);
  }

  // ---------------------------------------------------------------- simulated runs

  /** A run whose environment is the simulation, with every latency at most `maxLatency`. The formulas
      of the simulated position divide by band prices, which a negative width could make zero. */
  predicate IsSimRun(cfg: Config, r: Trace, sts: seq<SimTick>, maxLatency: real) {
    && CfgOk(cfg) && Spreads(cfg.geometry) && 0.0 <= maxLatency
    && Shaped(r) && |sts| == |r.ticks| && r.worlds[0] == Init(r.worlds[0].now)
    && forall k :: 0 <= k < |sts| ==> SimFollows(cfg, r, sts, maxLatency, k)
  }

  predicate SimFollows(cfg: Config, r: Trace, sts: seq<SimTick>, maxLatency: real, k: nat)
    requires Shaped(r) && |sts| == |r.ticks| && k < |sts|
  {
    && ValidSim(r.worlds[k], sts[k], maxLatency) && Ready(r.worlds[k].execs)
    && r.ticks[k] == Input(r.worlds[k], sts[k])
    && r.acts[k] == Emits(cfg, r.worlds[k], r.ticks[k])
    && r.worlds[k + 1] == Step(cfg, r.worlds[k], r.ticks[k])
  }

  lemma SimTickAt(cfg: Config, r: Trace, sts: seq<SimTick>, maxLatency: real, k: nat)
    requires IsSimRun(cfg, r, sts, maxLatency) && k < |sts|
    requires Inv(cfg, r.worlds[k]) && SimInv(r.worlds[k], maxLatency)
    ensures Inv(cfg, r.worlds[k + 1]) && SimInv(r.worlds[k + 1], maxLatency) && Follows(cfg, r, k)
  {
    assert SimFollows(cfg, r, sts, maxLatency, k);
    SimStepKeepsInv(cfg, r.worlds[k], sts[k], maxLatency);
  }

  lemma SimInit(r: Trace, maxLatency: real)
    requires |r.worlds| > 0 && r.worlds[0] == Init(r.worlds[0].now)
    ensures SimInv(r.worlds[0], maxLatency)
  {
  }

  lemma {:induction false} SimRunInv(cfg: Config, r: Trace, sts: seq<SimTick>, maxLatency: real, k: nat)
    requires IsSimRun(cfg, r, sts, maxLatency) && k < |r.worlds|
    ensures Inv(cfg, r.worlds[k]) && SimInv(r.worlds[k], maxLatency)
  {
    if k == 0 {
      InitInv(cfg, r.worlds[0].now);
      SimInit(r, maxLatency);
    } else {
      SimRunInv(cfg, r, sts, maxLatency, k - 1);
      SimTickAt(cfg, r, sts, maxLatency, k - 1);
    }
  }

  /** Everything proved of all runs holds of simulated runs. */
  lemma SimRunIsRun(cfg: Config, r: Trace, sts: seq<SimTick>, maxLatency: real)
    requires IsSimRun(cfg, r, sts, maxLatency)
    ensures IsRun(cfg, r)
  {
    forall k | 0 <= k < |r.ticks| ensures Follows(cfg, r, k) {
      SimRunInv(cfg, r, sts, maxLatency, k);
      SimTickAt(cfg, r, sts, maxLatency, k);
    }
  }

  /** The run after one more simulated tick. */
  function Extend(cfg: Config, r: Trace, st: SimTick): Trace
    requires r.worlds != [] && Ready(Last(r.worlds).execs) && 0.0 < st.price
  {
    var w := Last(r.worlds);
    var t := Input(w, st);
    Trace(r.worlds + [Step(cfg, w, t)], r.ticks + [t], r.acts + [Emits(cfg, w, t)])
  }

  lemma ExtendsRun(cfg: Config, r: Trace, sts: seq<SimTick>, maxLatency: real, st: SimTick)
    requires IsSimRun(cfg, r, sts, maxLatency)
    requires Ready(Last(r.worlds).execs) && ValidSim(Last(r.worlds), st, maxLatency)
    ensures IsSimRun(cfg, Extend(cfg, r, st), sts + [st], maxLatency) && r.worlds <= Extend(cfg, r, st).worlds
  {
    var r' := Extend(cfg, r, st);
    forall k | 0 <= k < |sts| + 1 ensures SimFollows(cfg, r', sts + [st], maxLatency, k) {
      if k < |sts| { assert SimFollows(cfg, r, sts, maxLatency, k); }
    }
  }
}
