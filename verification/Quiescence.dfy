/** A halted controller (panic, ashes or veto) winds down: few actions, bounded time. */
module Quiescence {
  import opened Prelude
  import opened Bands
  import opened Executors
  import opened Controller
  import opened World
  import opened Simulation
  import opened Safety

  // ---------------------------------------------------------------- how many actions

  function StopsLeft(c: Ctrl, es: seq<Executor>): nat {
    if RunningLp(es) && c.stopRequested != Some(|es| - 1) then 1 else 0
  }

  /** A swap sells all held base, so once one has been sent there is nothing left to sell. */
  function FlattensLeft(c: Ctrl, es: seq<Executor>): nat {
    if RunningOrder(es) || (!RunningLp(es) && c.holdBase == 0.0) then 0 else 1
  }

  function IsStop(acts: seq<Action>): nat { if acts != [] && acts[0].Stop? then 1 else 0 }

  function IsFlatten(acts: seq<Action>): nat { if acts != [] && acts[0].CreateFlatten? then 1 else 0 }

  lemma SettlePays(cfg: Config, w: World, st: SimTick, maxLatency: real)
    requires Inv(cfg, w) && SimInv(w, maxLatency) && ValidSim(w, st, maxLatency)
    ensures var (es, s) := (StepAll(w.execs, st), Settle(Observe(cfg, w.ctrl, st.obs), StepAll(w.execs, st), st.now));
      StopsLeft(s, es) <= StopsLeft(w.ctrl, w.execs) && FlattensLeft(s, es) <= FlattensLeft(w.ctrl, w.execs)
  {
    SimTickValid(cfg, w, st, maxLatency);
    StepAllStepped(cfg, w, st, maxLatency);
    EvolvedBook(w, Input(w, st));
    SettleOutcome(w, Input(w, st), Observe(cfg, w.ctrl, st.obs));
    if w.execs != [] { assert Evolves(Last(w.execs), Last(StepAll(w.execs, st)), w.now); }
  }

  lemma ActPays(cfg: Config, s: Ctrl, es: seq<Executor>, now: real, latency: real, c': Ctrl, acts: seq<Action>)
    requires ExecsInv(es, now) && ActSpec(cfg, s, es, now, c', acts) && Halted(s.phase)
    requires IsFlatten(acts) == 1 ==> s.holdBase != 0.0
    ensures |acts| == IsStop(acts) + IsFlatten(acts)
    ensures StopsLeft(c', Applied(es, acts, now, latency)) + IsStop(acts) <= StopsLeft(s, es)
    ensures FlattensLeft(c', Applied(es, acts, now, latency)) + IsFlatten(acts) <= FlattensLeft(s, es)
  {
    if acts != [] { ApplyBook(cfg, s, es, now, latency, c', acts); }
  }

  /** A tick that ends halted pays for each action out of what is left. */
  lemma HaltedTickPays(cfg: Config, w: World, st: SimTick, maxLatency: real, w': World, acts: seq<Action>)
    requires CfgOk(cfg) && Inv(cfg, w) && SimInv(w, maxLatency) && ValidSim(w, st, maxLatency)
    requires w' == Step(cfg, w, Input(w, st)) && acts == Emits(cfg, w, Input(w, st)) && Halted(w'.ctrl.phase)
    ensures |acts| == IsStop(acts) + IsFlatten(acts)
    ensures StopsLeft(w'.ctrl, w'.execs) + IsStop(acts) <= StopsLeft(w.ctrl, w.execs)
    ensures FlattensLeft(w'.ctrl, w'.execs) + IsFlatten(acts) <= FlattensLeft(w.ctrl, w.execs)
  {
    var t := Input(w, st);
    SimTickValid(cfg, w, st, maxLatency);
    var s, c', acts' := StepParts(cfg, w, t);
    SettlePays(cfg, w, st, maxLatency);
    ActOutcome(cfg, s, t.execs, t.now);
    ActPays(cfg, s, t.execs, t.now, t.latency, c', acts);
  }

  function CountStops(r: Trace, i: nat, j: nat): nat
    requires i <= j <= |r.acts|
    decreases j
  {
    if i == j then 0 else CountStops(r, i, j - 1) + IsStop(r.acts[j - 1])
  }

  function CountFlattens(r: Trace, i: nat, j: nat): nat
    requires i <= j <= |r.acts|
    decreases j
  {
    if i == j then 0 else CountFlattens(r, i, j - 1) + IsFlatten(r.acts[j - 1])
  }

  function CountActions(r: Trace, i: nat, j: nat): nat
    requires i <= j <= |r.acts|
    decreases j
  {
    if i == j then 0 else CountActions(r, i, j - 1) + |r.acts[j - 1]|
  }

  function StopsAt(r: Trace, k: nat): nat
    requires k < |r.worlds|
  {
    StopsLeft(r.worlds[k].ctrl, r.worlds[k].execs)
  }

  function FlattensAt(r: Trace, k: nat): nat
    requires k < |r.worlds|
  {
    FlattensLeft(r.worlds[k].ctrl, r.worlds[k].execs)
  }

  lemma HaltedTickPaysAt(cfg: Config, r: Trace, sts: seq<SimTick>, maxLatency: real, k: nat)
    requires IsSimRun(cfg, r, sts, maxLatency) && k < |sts| && Halted(r.worlds[k + 1].ctrl.phase)
    ensures |r.acts[k]| == IsStop(r.acts[k]) + IsFlatten(r.acts[k])
    ensures StopsAt(r, k + 1) + IsStop(r.acts[k]) <= StopsAt(r, k)
    ensures FlattensAt(r, k + 1) + IsFlatten(r.acts[k]) <= FlattensAt(r, k)
  {
    SimRunInv(cfg, r, sts, maxLatency, k);
    assert SimFollows(cfg, r, sts, maxLatency, k);
    HaltedTickPays(cfg, r.worlds[k], sts[k], maxLatency, r.worlds[k + 1], r.acts[k]);
  }

  /** From the world before the tick that halts, for as long as the controller stays halted, it
      emits at most one stop and at most one flatten, hence at most two actions, whatever the
      prices and scores. In particular this bounds everything after the equity floor is breached. */
  lemma {:induction false} HaltedActsAtMostTwice(cfg: Config, r: Trace, sts: seq<SimTick>, maxLatency: real,
                                                 i: nat, j: nat)
    requires IsSimRun(cfg, r, sts, maxLatency) && i <= j < |r.worlds|
    requires forall k :: i < k <= j ==> Halted(r.worlds[k].ctrl.phase)
    ensures CountStops(r, i, j) + StopsAt(r, j) <= StopsAt(r, i) <= 1
    ensures CountFlattens(r, i, j) + FlattensAt(r, j) <= FlattensAt(r, i) <= 1
    ensures CountActions(r, i, j) == CountStops(r, i, j) + CountFlattens(r, i, j) <= 2
    decreases j
  {
    if i < j {
      HaltedActsAtMostTwice(cfg, r, sts, maxLatency, i, j - 1);
      HaltedTickPaysAt(cfg, r, sts, maxLatency, j - 1);
    }
  }

  // ---------------------------------------------------------------- how long

  /** The running position, if any, is closing and all its deadlines are at or before `due`. */
  predicate DueBy(es: seq<Executor>, due: real) {
    RunningLp(es) ==>
      var x := Last(es).lp;
      x.opensAt <= due && x.closingAt.Some? && x.closingAt.value <= due
  }

  predicate LandedLp(es: seq<Executor>) { RunningLp(es) ==> Last(es).lp.landed }

  lemma StepAllProgress(cfg: Config, w: World, st: SimTick, maxLatency: real, due: real)
    requires Inv(cfg, w) && SimInv(w, maxLatency) && ValidSim(w, st, maxLatency) && DueBy(w.execs, due)
    ensures var es := StepAll(w.execs, st);
      && DueBy(es, due)
      && (st.now >= due ==> LandedLp(es))
      && (st.now >= due && LandedLp(w.execs) ==> !RunningLp(es))
  {
    SimTickValid(cfg, w, st, maxLatency);
    EvolvedBook(w, Input(w, st));
  }

  lemma ActProgress(cfg: Config, s: Ctrl, es: seq<Executor>, now: real, latency: real,
                    c': Ctrl, acts: seq<Action>, due: real)
    requires ExecsInv(es, now) && ActSpec(cfg, s, es, now, c', acts) && Halted(s.phase) && DueBy(es, due)
    ensures var es' := Applied(es, acts, now, latency);
      && DueBy(es', due)
      && (LandedLp(es) ==> LandedLp(es'))
      && (!RunningLp(es) ==> !RunningLp(es'))
  {
    if acts != [] { ApplyBook(cfg, s, es, now, latency, c', acts); }
  }

  lemma HaltedTickProgress(cfg: Config, w: World, st: SimTick, maxLatency: real, w': World, due: real)
    requires CfgOk(cfg) && Inv(cfg, w) && SimInv(w, maxLatency) && ValidSim(w, st, maxLatency)
    requires w' == Step(cfg, w, Input(w, st)) && Halted(w'.ctrl.phase) && DueBy(w.execs, due)
    ensures DueBy(w'.execs, due)
    ensures st.now >= due ==> LandedLp(w'.execs)
    ensures st.now >= due && LandedLp(w.execs) ==> !RunningLp(w'.execs)
  {
    var t := Input(w, st);
    SimTickValid(cfg, w, st, maxLatency);
    var s, c', acts := StepParts(cfg, w, t);
    StepAllProgress(cfg, w, st, maxLatency, due);
    ActProgress(cfg, s, t.execs, t.now, t.latency, c', acts, due);
  }

  lemma HaltedTickProgressAt(cfg: Config, r: Trace, sts: seq<SimTick>, maxLatency: real, k: nat, due: real)
    requires IsSimRun(cfg, r, sts, maxLatency) && k < |sts|
    requires Halted(r.worlds[k + 1].ctrl.phase) && DueBy(r.worlds[k].execs, due)
    ensures DueBy(r.worlds[k + 1].execs, due)
    ensures r.worlds[k + 1].now >= due ==> LandedLp(r.worlds[k + 1].execs)
    ensures r.worlds[k + 1].now >= due && LandedLp(r.worlds[k].execs) ==> !RunningLp(r.worlds[k + 1].execs)
    ensures r.worlds[k].now < r.worlds[k + 1].now
  {
    SimRunInv(cfg, r, sts, maxLatency, k);
    assert SimFollows(cfg, r, sts, maxLatency, k);
    HaltedTickProgress(cfg, r.worlds[k], sts[k], maxLatency, r.worlds[k + 1], due);
  }

  lemma {:induction false} StaysDue(cfg: Config, r: Trace, sts: seq<SimTick>, maxLatency: real,
                                    i: nat, j: nat, due: real)
    requires IsSimRun(cfg, r, sts, maxLatency) && i <= j < |r.worlds|
    requires forall k :: i <= k <= j ==> Halted(r.worlds[k].ctrl.phase)
    requires DueBy(r.worlds[i].execs, due)
    ensures DueBy(r.worlds[j].execs, due)
    ensures i < j && r.worlds[j].now >= due ==> LandedLp(r.worlds[j].execs)
    ensures i + 1 < j && r.worlds[j - 1].now >= due ==> !RunningLp(r.worlds[j].execs)
    decreases j
  {
    if i < j {
      StaysDue(cfg, r, sts, maxLatency, i, j - 1, due);
      HaltedTickProgressAt(cfg, r, sts, maxLatency, j - 1, due);
    }
  }

  /** Two ticks after the longest latency has passed, a controller that has stayed halted has no
      live position and none waiting to be settled. */
  lemma HaltedUnwindsInTime(cfg: Config, r: Trace, sts: seq<SimTick>, maxLatency: real, i: nat, j: nat)
    requires IsSimRun(cfg, r, sts, maxLatency) && i + 2 <= j < |r.worlds|
    requires forall k :: i <= k <= j ==> Halted(r.worlds[k].ctrl.phase)
    requires r.worlds[j - 1].now >= r.worlds[i].now + Longest(maxLatency)
    ensures r.worlds[j].ctrl.current == None
    ensures forall k :: 0 <= k < |r.worlds[j].execs| && r.worlds[j].execs[k].Lp? ==> !r.worlds[j].execs[k].Active()
  {
    SimRunInv(cfg, r, sts, maxLatency, i);
    StaysDue(cfg, r, sts, maxLatency, i, j, r.worlds[i].now + Longest(maxLatency));
    SimRunInv(cfg, r, sts, maxLatency, j);
  }

  /** No flatten is ever outstanding for longer than the latency it was sent with: it is either
      brand new or younger than the bound. */
  lemma FlattenIsShortLived(cfg: Config, r: Trace, sts: seq<SimTick>, maxLatency: real, k: nat)
    requires IsSimRun(cfg, r, sts, maxLatency) && k < |r.worlds|
    requires r.worlds[k].ctrl.flatten != NoFlatten
    ensures RunningOrder(r.worlds[k].execs)
    ensures var age := r.worlds[k].now - Last(r.worlds[k].execs).order.born; age == 0.0 || 0.0 <= age < maxLatency
  {
    SimRunInv(cfg, r, sts, maxLatency, k);
  }

  // ---------------------------------------------------------------- coming to rest

  /** The held base, if any, is worth a quote unit at the price observed last. */
  predicate Worthy(c: Ctrl) { c.holdBase == 0.0 || WorthFlattening(c) }

  predicate Dumping(phase: Phase) { phase == Ashes || phase == Perched }

  /** No position is live, and base is held only while a swap is running. */
  predicate Unwound(w: World) { !RunningLp(w.execs) && (!Running(w.execs) ==> w.ctrl.holdBase == 0.0) }

  lemma SameWorth(c: Ctrl, c': Ctrl)
    requires c'.holdBase == c.holdBase && c'.poolPrice == c.poolPrice
    ensures WorthFlattening(c') == WorthFlattening(c)
  {
  }

  lemma NothingToSell(c: Ctrl)
    requires c.holdBase == 0.0
    ensures !WorthFlattening(c)
  {
  }

  /** A tick that leaves no position live leaves base unsold only to a running swap. */
  lemma TickUnwinds(cfg: Config, w: World, st: SimTick, maxLatency: real)
    requires CfgOk(cfg) && Inv(cfg, w) && SimInv(w, maxLatency) && ValidSim(w, st, maxLatency) && cfg.panicFlatten
    ensures var w' := Step(cfg, w, Input(w, st));
      Dumping(w'.ctrl.phase) && Worthy(w'.ctrl) && !RunningLp(w'.execs) ==> Unwound(w')
  {
    var t := Input(w, st);
    SimTickValid(cfg, w, st, maxLatency);
    var s, c', acts := StepParts(cfg, w, t);
    ActOutcome(cfg, s, t.execs, t.now);
    SameWorth(s, c');
    if acts != [] { ApplyBook(cfg, s, t.execs, t.now, t.latency, c', acts); }
  }

  /** What is running in `w'` was running in `w`. */
  predicate StillRunning(w: World, w': World) {
    Running(w'.execs) ==> Running(w.execs) && Last(w'.execs).Born() == Last(w.execs).Born()
  }

  lemma UnwoundSettles(cfg: Config, w: World, st: SimTick, maxLatency: real)
    requires Inv(cfg, w) && SimInv(w, maxLatency) && ValidSim(w, st, maxLatency) && Unwound(w)
    ensures var (es, s) := (StepAll(w.execs, st), Settle(Observe(cfg, w.ctrl, st.obs), StepAll(w.execs, st), st.now));
      && !RunningLp(es) && (!Running(es) ==> s.holdBase == 0.0)
      && (Running(es) ==> Running(w.execs) && Last(es).Born() == Last(w.execs).Born())
  {
    SimTickValid(cfg, w, st, maxLatency);
    StepAllStepped(cfg, w, st, maxLatency);
    EvolvedBook(w, Input(w, st));
    SettleOutcome(w, Input(w, st), Observe(cfg, w.ctrl, st.obs));
    if w.execs != [] { assert Evolves(Last(w.execs), Last(StepAll(w.execs, st)), w.now); }
  }

  /** From an unwound world a tick emits nothing and starts nothing. */
  lemma UnwoundTick(cfg: Config, w: World, st: SimTick, maxLatency: real, w': World)
    requires CfgOk(cfg) && Inv(cfg, w) && SimInv(w, maxLatency) && ValidSim(w, st, maxLatency) && Unwound(w)
    requires w' == Step(cfg, w, Input(w, st)) && Dumping(w'.ctrl.phase)
    ensures Emits(cfg, w, Input(w, st)) == [] && Unwound(w') && StillRunning(w, w')
  {
    var t := Input(w, st);
    SimTickValid(cfg, w, st, maxLatency);
    var s, c', acts := StepParts(cfg, w, t);
    UnwoundSettles(cfg, w, st, maxLatency);
    ActOutcome(cfg, s, t.execs, t.now);
    if !Running(t.execs) { NothingToSell(s); }
  }

  /** From index `i` on the controller is in panic or ashes, with flattening on. */
  predicate DumpsFrom(cfg: Config, r: Trace, i: nat) {
    cfg.panicFlatten && forall k :: i <= k < |r.worlds| ==> Dumping(r.worlds[k].ctrl.phase)
  }

  lemma UnwoundTickAt(cfg: Config, r: Trace, sts: seq<SimTick>, maxLatency: real, k: nat)
    requires IsSimRun(cfg, r, sts, maxLatency) && k < |sts| && Unwound(r.worlds[k]) && Dumping(r.worlds[k + 1].ctrl.phase)
    ensures r.acts[k] == [] && Unwound(r.worlds[k + 1]) && StillRunning(r.worlds[k], r.worlds[k + 1])
  {
    SimRunInv(cfg, r, sts, maxLatency, k);
    assert SimFollows(cfg, r, sts, maxLatency, k);
    UnwoundTick(cfg, r.worlds[k], sts[k], maxLatency, r.worlds[k + 1]);
  }

  lemma {:induction false} StaysUnwound(cfg: Config, r: Trace, sts: seq<SimTick>, maxLatency: real, a: nat, c: nat)
    requires IsSimRun(cfg, r, sts, maxLatency) && a <= c < |r.worlds| && DumpsFrom(cfg, r, a) && Unwound(r.worlds[a])
    ensures Unwound(r.worlds[c]) && StillRunning(r.worlds[a], r.worlds[c])
    ensures c < |sts| ==> r.acts[c] == []
    decreases c
  {
    if a < c {
      StaysUnwound(cfg, r, sts, maxLatency, a, c - 1);
      UnwoundTickAt(cfg, r, sts, maxLatency, c - 1);
    }
    if c < |sts| { UnwoundTickAt(cfg, r, sts, maxLatency, c); }
  }

  lemma NoPositionAt(cfg: Config, r: Trace, sts: seq<SimTick>, maxLatency: real, i: nat, a: nat)
    requires IsSimRun(cfg, r, sts, maxLatency) && i + 2 <= a < |r.worlds| && DumpsFrom(cfg, r, i)
    requires r.worlds[a - 1].now >= r.worlds[i].now + Longest(maxLatency)
    ensures !RunningLp(r.worlds[a].execs)
  {
    forall k | i <= k <= a ensures Halted(r.worlds[k].ctrl.phase) { assert Dumping(r.worlds[k].ctrl.phase); }
    HaltedUnwindsInTime(cfg, r, sts, maxLatency, i, a);
  }

  lemma TickUnwindsAt(cfg: Config, r: Trace, sts: seq<SimTick>, maxLatency: real, k: nat)
    requires IsSimRun(cfg, r, sts, maxLatency) && k < |sts| && cfg.panicFlatten
    requires var w' := r.worlds[k + 1]; Dumping(w'.ctrl.phase) && Worthy(w'.ctrl) && !RunningLp(w'.execs)
    ensures Unwound(r.worlds[k + 1])
  {
    SimRunInv(cfg, r, sts, maxLatency, k);
    assert SimFollows(cfg, r, sts, maxLatency, k);
    TickUnwinds(cfg, r.worlds[k], sts[k], maxLatency);
  }

  lemma UnwoundAt(cfg: Config, r: Trace, sts: seq<SimTick>, maxLatency: real, i: nat, a: nat)
    requires IsSimRun(cfg, r, sts, maxLatency) && i + 2 <= a < |r.worlds| && DumpsFrom(cfg, r, i)
    requires r.worlds[a - 1].now >= r.worlds[i].now + Longest(maxLatency) && Worthy(r.worlds[a].ctrl)
    ensures Unwound(r.worlds[a])
  {
    NoPositionAt(cfg, r, sts, maxLatency, i, a);
    TickUnwindsAt(cfg, r, sts, maxLatency, a - 1);
  }

  /** A swap that runs at both ends of a span of the latency bound cannot be the same one. */
  lemma SwapIsOver(cfg: Config, r: Trace, sts: seq<SimTick>, maxLatency: real, a: nat, c: nat)
    requires IsSimRun(cfg, r, sts, maxLatency) && a < c < |r.worlds| && DumpsFrom(cfg, r, a) && Unwound(r.worlds[a])
    requires r.worlds[c].now >= r.worlds[a].now + maxLatency
    ensures !Running(r.worlds[c].execs)
  {
    StaysUnwound(cfg, r, sts, maxLatency, a, c);
    TimeGrows(cfg, r, sts, maxLatency, a, c);
    SimRunInv(cfg, r, sts, maxLatency, a);
    SimRunInv(cfg, r, sts, maxLatency, c);
    if Running(r.worlds[c].execs) { FlattenIsShortLived(cfg, r, sts, maxLatency, c); }
  }

  lemma {:induction false} TimeGrows(cfg: Config, r: Trace, sts: seq<SimTick>, maxLatency: real, a: nat, c: nat)
    requires IsSimRun(cfg, r, sts, maxLatency) && a < c < |r.worlds|
    ensures r.worlds[a].now < r.worlds[c].now
    decreases c
  {
    assert SimFollows(cfg, r, sts, maxLatency, c - 1);
    if a < c - 1 { TimeGrows(cfg, r, sts, maxLatency, a, c - 1); }
  }

  /** A controller that stays in panic or ashes, and two ticks after the longest latency observes a price
      that makes what it still holds worth a unit, comes to rest: from then on it never acts again, and
      one latency later nothing is running and nothing is held. */
  lemma ComesToRest(cfg: Config, r: Trace, sts: seq<SimTick>, maxLatency: real, i: nat, a: nat, c: nat)
    requires IsSimRun(cfg, r, sts, maxLatency) && i + 2 <= a < c < |r.worlds| && DumpsFrom(cfg, r, i)
    requires r.worlds[a - 1].now >= r.worlds[i].now + Longest(maxLatency) && Worthy(r.worlds[a].ctrl)
    requires r.worlds[c].now >= r.worlds[a].now + maxLatency
    ensures !Running(r.worlds[c].execs) && r.worlds[c].ctrl.holdBase == 0.0
    ensures r.worlds[c].ctrl.current == None && r.worlds[c].ctrl.flatten == NoFlatten
    ensures forall k :: a <= k < |r.acts| ==> r.acts[k] == []
  {
    UnwoundAt(cfg, r, sts, maxLatency, i, a);
    StaysUnwound(cfg, r, sts, maxLatency, a, c);
    SwapIsOver(cfg, r, sts, maxLatency, a, c);
    SimRunInv(cfg, r, sts, maxLatency, c);
    forall k | a <= k < |r.acts| ensures r.acts[k] == [] {
      StaysUnwound(cfg, r, sts, maxLatency, a, k);
    }
  }

  predicate SecondsApart(r: Trace) {
    forall k :: 0 < k < |r.worlds| ==> r.worlds[k - 1].now + 1.0 <= r.worlds[k].now
  }

  lemma {:induction false} SecondsPass(r: Trace, a: nat, c: nat)
    requires SecondsApart(r) && a <= c < |r.worlds|
    ensures r.worlds[a].now + (c - a) as real <= r.worlds[c].now
    decreases c
  {
    if a < c {
      SecondsPass(r, a, c - 1);
      assert r.worlds[c - 1].now + 1.0 <= r.worlds[c].now;
    }
  }

  lemma AshesDumps(cfg: Config, r: Trace, sts: seq<SimTick>, maxLatency: real, i: nat)
    requires IsSimRun(cfg, r, sts, maxLatency) && i < |r.worlds| && cfg.panicFlatten && r.worlds[i].ctrl.phase == Ashes
    ensures DumpsFrom(cfg, r, i)
  {
    SimRunIsRun(cfg, r, sts, maxLatency);
    forall k | i <= k < |r.worlds| ensures Dumping(r.worlds[k].ctrl.phase) {
      TerminalAbsorbs(cfg, r, i, k);
    }
  }

  /** In ticks: when ticks are a second or more apart, rest comes within as many ticks of the one that
      breaches the floor as the two latencies have seconds, and four more. */
  lemma AshesRestInTicks(cfg: Config, r: Trace, sts: seq<SimTick>, maxLatency: real, i: nat, c: nat)
    requires IsSimRun(cfg, r, sts, maxLatency) && SecondsApart(r) && i < c < |r.worlds|
    requires cfg.panicFlatten && r.worlds[i].ctrl.phase == Ashes
    requires forall k :: i < k <= c ==> Worthy(r.worlds[k].ctrl)
    requires (c - i) as real >= Longest(maxLatency) + maxLatency + 4.0
    ensures !Running(r.worlds[c].execs) && r.worlds[c].ctrl.holdBase == 0.0
    ensures forall k :: c <= k < |r.acts| ==> r.acts[k] == []
  {
    AshesDumps(cfg, r, sts, maxLatency, i);
    var a := i + 2 + Longest(maxLatency).Floor;
    SecondsPass(r, i, a - 1);
    SecondsPass(r, a, c);
    ComesToRest(cfg, r, sts, maxLatency, i, a, c);
  }

  /** Consecutive ticks from `i` to `c` are at most `d` apart. */
  predicate AtMostApart(r: Trace, i: nat, c: nat, d: real)
    requires c < |r.worlds|
  {
    forall k :: i < k <= c ==> r.worlds[k].now - r.worlds[k - 1].now <= d
  }

  /** The first world after `i` at or after time `t`. */
  lemma FirstAt(r: Trace, i: nat, c: nat, t: real) returns (m: nat)
    requires i < c < |r.worlds| && t <= r.worlds[c].now
    ensures i < m <= c && t <= r.worlds[m].now && (m == i + 1 || r.worlds[m - 1].now < t)
  {
    m := i + 1;
    while r.worlds[m].now < t
      invariant i < m <= c && (m == i + 1 || r.worlds[m - 1].now < t)
      decreases c - m
    {
      m := m + 1;
    }
  }

  /** In time: with ticks at most `d` apart, rest comes within the longest latency, one latency and two
      gaps of the tick that breaches the floor, provided that what is still held between the longest
      latency and two gaps more is worth a unit. */
  lemma AshesRestInTime(cfg: Config, r: Trace, sts: seq<SimTick>, maxLatency: real, i: nat, c: nat, d: real)
    requires IsSimRun(cfg, r, sts, maxLatency) && i < c < |r.worlds| && AtMostApart(r, i, c, d)
    requires cfg.panicFlatten && r.worlds[i].ctrl.phase == Ashes
    requires var due := r.worlds[i].now + Longest(maxLatency);
      && (forall k :: i < k <= c && due <= r.worlds[k].now <= due + 2.0 * d ==> Worthy(r.worlds[k].ctrl))
      && r.worlds[c].now > due + maxLatency + 2.0 * d
    ensures !Running(r.worlds[c].execs) && r.worlds[c].ctrl.holdBase == 0.0
    ensures r.worlds[c].ctrl.current == None && r.worlds[c].ctrl.flatten == NoFlatten
    ensures forall k :: c <= k < |r.acts| ==> r.acts[k] == []
  {
    AshesDumps(cfg, r, sts, maxLatency, i);
    TimeGrows(cfg, r, sts, maxLatency, i, i + 1);
    assert r.worlds[i + 1].now - r.worlds[i].now <= d;
    var m := FirstAt(r, i, c, r.worlds[i].now + Longest(maxLatency));
    assert r.worlds[m].now - r.worlds[m - 1].now <= d;
    assert m < c && r.worlds[m + 1].now - r.worlds[m].now <= d;
    TimeGrows(cfg, r, sts, maxLatency, m, m + 1);
    ComesToRest(cfg, r, sts, maxLatency, i, m + 1, c);
  }

  // ---------------------------------------------------------------- when the flatten comes

  /** With nothing running a tick leaves every executor as it is. */
  lemma RestingBook(w: World, t: Tick)
    requires ExecsInv(w.execs, w.now) && ValidTick(w, t) && !Running(w.execs)
    ensures t.execs == w.execs
  {
    EvolvedBook(w, t);
    if w.execs != [] {
      assert Evolves(Last(w.execs), Last(t.execs), w.now);
      assert t.execs == Front(t.execs) + [Last(t.execs)] && w.execs == Front(w.execs) + [Last(w.execs)];
    }
  }

  /** Unwinding is not the end, though: in ashes with nothing running, a tick sends the flatten if
      and only if flattening is on and the held base is worth at least one quote unit at the
      observed price; otherwise the tick changes no executor. So the price alone decides when. */
  lemma AshesFlattensIff(cfg: Config, w: World, t: Tick)
    requires CfgOk(cfg) && Inv(cfg, w) && ValidTick(w, t)
    requires w.ctrl.phase == Ashes && !Running(w.execs)
    ensures var c := Observe(cfg, w.ctrl, t.obs);
      if cfg.panicFlatten && WorthFlattening(c)
      then Emits(cfg, w, t) == [CreateFlatten(w.ctrl.holdBase)]
      else Emits(cfg, w, t) == [] && Step(cfg, w, t).execs == w.execs
    ensures Step(cfg, w, t).ctrl.holdBase == w.ctrl.holdBase && Step(cfg, w, t).ctrl.phase == Ashes
    ensures Price(Step(cfg, w, t).ctrl) == Price(Observe(cfg, w.ctrl, t.obs))
  {
    var s, c', acts := StepParts(cfg, w, t);
    RestingBook(w, t);
    SettleNothing(Observe(cfg, w.ctrl, t.obs), t.execs, t.now);
    ActOutcome(cfg, s, t.execs, t.now);
  }

  /** In ashes with nothing running, holding `base`. */
  predicate Rests(w: World, base: real) { w.ctrl.phase == Ashes && !Running(w.execs) && w.ctrl.holdBase == base }

  /** Ticks `i` to `k` emit nothing. */
  predicate Quiet(r: Trace, i: nat, k: nat)
    requires k <= |r.acts|
  {
    forall m :: i <= m < k ==> r.acts[m] == []
  }

  /** No price seen from tick `i` up to `k` makes `base` worth a unit. */
  predicate NeverWorth(r: Trace, i: nat, k: nat, base: real)
    requires k < |r.worlds|
  {
    forall m :: i < m <= k ==> !WorthAt(base, Price(r.worlds[m].ctrl))
  }

  lemma RestingTick(cfg: Config, r: Trace, k: nat, base: real)
    requires IsRun(cfg, r) && k < |r.ticks| && Rests(r.worlds[k], base)
    ensures r.acts[k] == [] <==> !cfg.panicFlatten || !WorthAt(base, Price(r.worlds[k + 1].ctrl))
    ensures r.acts[k] == [] ==> Rests(r.worlds[k + 1], base)
  {
    TickAt(cfg, r, k);
    AshesFlattensIff(cfg, r.worlds[k], r.ticks[k]);
  }

  /** Over a run: from ashes with nothing running, no action follows up to any later tick if and only if
      flattening is off or no price seen until then makes the held base worth a unit. */
  lemma {:induction false} QuietIff(cfg: Config, r: Trace, i: nat, k: nat, base: real)
    requires IsRun(cfg, r) && i <= k < |r.worlds| && Rests(r.worlds[i], base)
    ensures Quiet(r, i, k) <==> !cfg.panicFlatten || NeverWorth(r, i, k, base)
    ensures Quiet(r, i, k) ==> Rests(r.worlds[k], base)
    decreases k
  {
    if i < k {
      QuietIff(cfg, r, i, k - 1, base);
      assert Quiet(r, i, k) <==> Quiet(r, i, k - 1) && r.acts[k - 1] == [];
      assert NeverWorth(r, i, k, base) <==> NeverWorth(r, i, k - 1, base) && !WorthAt(base, Price(r.worlds[k].ctrl));
      if Quiet(r, i, k - 1) { RestingTick(cfg, r, k - 1, base); }
    }
  }

  /** A tick in which nothing moves but the clock and the observed price. */
  function PriceTick(w: World, price: real): Tick {
    Tick(w.now + 1.0, w.execs, Pool(price, 0.0, "", w.ctrl.signals), 0.0)
  }

  /** From `v` a tick at price `low` leads to `v'` and emits nothing. */
  predicate IdleTick(cfg: Config, v: World, low: real, v': World) {
    && ValidTick(v, PriceTick(v, low))
    && v' == Step(cfg, v, PriceTick(v, low))
    && Emits(cfg, v, PriceTick(v, low)) == []
  }

  /** The ashes worlds with nothing running that still hold `base`. */
  predicate HoldsInAshes(cfg: Config, v: World, base: real) {
    Inv(cfg, v) && v.ctrl.phase == Ashes && !Running(v.execs) && v.ctrl.holdBase == base
  }

  lemma PriceTickValid(cfg: Config, w: World, price: real)
    requires Inv(cfg, w) && !Running(w.execs) && 0.0 < price
    ensures ValidTick(w, PriceTick(w, price))
  {
    forall i | 0 <= i < |w.execs| ensures Evolves(w.execs[i], w.execs[i], w.now) {
      if i == |w.execs| - 1 { assert Last(w.execs) == w.execs[i]; }
    }
  }

  lemma IdleStep(cfg: Config, v: World, base: real, low: real) returns (v': World)
    requires CfgOk(cfg) && HoldsInAshes(cfg, v, base) && 0.0 < low && !WorthAt(base, low)
    ensures IdleTick(cfg, v, low, v') && HoldsInAshes(cfg, v', base)
  {
    PriceTickValid(cfg, v, low);
    AshesFlattensIff(cfg, v, PriceTick(v, low));
    StepKeepsInv(cfg, v, PriceTick(v, low));
    v' := Step(cfg, v, PriceTick(v, low));
  }

  /** From `v` a tick at price `high` sells `base`. */
  predicate SendsFlatten(cfg: Config, v: World, high: real, base: real) {
    ValidTick(v, PriceTick(v, high)) && Emits(cfg, v, PriceTick(v, high)) == [CreateFlatten(base)]
  }

  lemma FlattenNow(cfg: Config, v: World, base: real, high: real)
    requires CfgOk(cfg) && HoldsInAshes(cfg, v, base) && cfg.panicFlatten && WorthAt(base, high)
    ensures SendsFlatten(cfg, v, high, base)
  {
    PriceTickValid(cfg, v, high);
    AshesFlattensIff(cfg, v, PriceTick(v, high));
  }

  /** A sequence of worlds linked by idle ticks. */
  predicate IdleChain(cfg: Config, vs: seq<World>, low: real) {
    |vs| <= 1 || (IdleTick(cfg, vs[0], low, vs[1]) && IdleChain(cfg, vs[1..], low))
  }

  lemma ChainPush(cfg: Config, v: World, us: seq<World>, low: real)
    requires us != [] && IdleTick(cfg, v, low, us[0]) && IdleChain(cfg, us, low)
    ensures IdleChain(cfg, [v] + us, low)
  {
    assert ([v] + us)[1..] == us;
  }

  /** `n` idle ticks from `w`, in worlds that all hold `base` in ashes. */
  lemma {:induction false} IdleTicks(cfg: Config, w: World, base: real, low: real, n: nat) returns (vs: seq<World>)
    requires CfgOk(cfg) && HoldsInAshes(cfg, w, base) && 0.0 < low && !WorthAt(base, low)
    ensures |vs| == n + 1 && vs[0] == w && IdleChain(cfg, vs, low) && HoldsInAshes(cfg, Last(vs), base)
    decreases n
  {
    if n == 0 {
      vs := [w];
    } else {
      var v' := IdleStep(cfg, w, base, low);
      var us := IdleTicks(cfg, v', base, low, n - 1);
      ChainPush(cfg, w, us, low);
      vs := [w] + us;
      assert Last(vs) == Last(us);
    }
  }

  /** No bound in time: for every n there are n ticks without an action followed by one that
      flattens, from any ashes world that holds base worth a unit at `high` but not at `low`. */
  lemma FlattenCanComeLate(cfg: Config, w: World, base: real, low: real, high: real, n: nat) returns (vs: seq<World>)
    requires CfgOk(cfg) && HoldsInAshes(cfg, w, base) && cfg.panicFlatten
    requires 0.0 < low && !WorthAt(base, low) && WorthAt(base, high)
    ensures |vs| == n + 1 && vs[0] == w && IdleChain(cfg, vs, low) && SendsFlatten(cfg, vs[n], high, base)
  {
    vs := IdleTicks(cfg, w, base, low, n);
    FlattenNow(cfg, Last(vs), base, high);
  }
}
