/** What holds over every run of the Phoenix controller, in every environment. */
module Safety {
  import opened Prelude
  import opened Bands
  import opened Executors
  import opened Controller
  import opened World

  /** The cascade score the controller acts on in tick `k`. */
  function ScoreAt(r: Trace, k: nat): real
    requires k + 1 < |r.worlds|
  {
    r.worlds[k + 1].ctrl.signals.score
  }

  // ---------------------------------------------------------------- mutual exclusion

  /** At any moment at most one executor runs, position or swap. */
  lemma OneExecutorAtATime(cfg: Config, r: Trace, k: nat, i: nat, j: nat)
    requires IsRun(cfg, r) && k < |r.worlds|
    requires var es := r.worlds[k].execs; i < |es| && j < |es| && es[i].Active() && es[j].Active()
    ensures i == j == |r.worlds[k].execs| - 1
  {
    RunInv(cfg, r, k);
  }

  /** An outstanding flatten is for the running swap, which sells exactly the held base; then no
      position is live or unsettled. A live position excludes a flatten. With nothing running the
      controller is waiting for nothing. */
  lemma FlattenExcludesPosition(cfg: Config, r: Trace, k: nat)
    requires IsRun(cfg, r) && k < |r.worlds|
    ensures var w := r.worlds[k];
      && (w.ctrl.flatten != NoFlatten <==> RunningOrder(w.execs))
      && (w.ctrl.flatten != NoFlatten ==> w.ctrl.current == None && Last(w.execs).order.amount == w.ctrl.holdBase)
      && (w.ctrl.current.Some? ==> RunningLp(w.execs) && w.ctrl.current.value == |w.execs| - 1)
      && (forall i :: 0 <= i < |w.execs| && w.execs[i].Active() && w.execs[i].Lp? ==> w.ctrl.flatten == NoFlatten)
  {
    RunInv(cfg, r, k);
  }

  lemma StopsGrow(cfg: Config, r: Trace, k: nat)
    requires IsRun(cfg, r) && k < |r.ticks|
    ensures r.worlds[k].stops <= r.worlds[k + 1].stops
  {
    assert Follows(cfg, r, k);
  }

  lemma {:induction false} StopsStay(cfg: Config, r: Trace, i: nat, j: nat)
    requires IsRun(cfg, r) && i <= j < |r.worlds|
    ensures r.worlds[i].stops <= r.worlds[j].stops
    decreases j
  {
    if i < j {
      StopsStay(cfg, r, i, j - 1);
      StopsGrow(cfg, r, j - 1);
    }
  }

  /** Tick `k` sends a stop request to `id`. */
  predicate SendsStop(r: Trace, k: nat, id: nat)
    requires k < |r.acts|
  {
    r.acts[k] != [] && r.acts[k][0] == Stop(id)
  }

  /** Every tick emits at most one action, and no executor is ever sent a second stop request. */
  lemma StoppedAtMostOnce(cfg: Config, r: Trace, i: nat, j: nat, id: nat)
    requires IsRun(cfg, r) && i < j < |r.ticks|
    requires SendsStop(r, i, id)
    ensures |r.acts[j]| <= 1 && !SendsStop(r, j, id)
  {
    StopRecorded(cfg, r, i, id);
    StopsStay(cfg, r, i + 1, j);
    StopRecorded(cfg, r, j, id);
  }

  lemma StopRecorded(cfg: Config, r: Trace, k: nat, id: nat)
    requires IsRun(cfg, r) && k < |r.ticks|
    ensures |r.acts[k]| <= 1
    ensures SendsStop(r, k, id) ==> id in r.worlds[k + 1].stops && id !in r.worlds[k].stops
  {
    TickAt(cfg, r, k);
    var s, c', acts := StepParts(cfg, r.worlds[k], r.ticks[k]);
    if SendsStop(r, k, id) {
      var stops' := r.worlds[k + 1].stops;
      assert stops' == r.worlds[k].stops + [id];
      assert stops'[|stops'| - 1] == id;
      assert forall m :: 0 <= m < |r.worlds[k].stops| ==> stops'[m] == r.worlds[k].stops[m];
    }
  }

  // ---------------------------------------------------------------- money

  /** The held base is never negative, and neither is the bankroll plus the held quote; so
      equity is never negative either, at any price. */
  lemma AlwaysSolvent(cfg: Config, r: Trace, k: nat, price: real)
    requires IsRun(cfg, r) && k < |r.worlds| && 0.0 <= price
    ensures var c := r.worlds[k].ctrl;
      && 0.0 <= c.holdBase && 0.0 <= cfg.totalAmountQuote + c.holdQuote
      && 0.0 <= cfg.totalAmountQuote + c.holdQuote + c.holdBase * price
  {
    RunInv(cfg, r, k);
    var base := r.worlds[k].ctrl.holdBase;
    MulNonNeg(base, price);
  }

  /** The ledger is exactly the sum of the wallet changes of all executors that have ended
      without failing: none is skipped, none counted twice. */
  lemma LedgerIsExactlyOnce(cfg: Config, r: Trace, k: nat)
    requires IsRun(cfg, r) && k < |r.worlds|
    ensures r.worlds[k].ctrl.holdBase == SumBase(r.worlds[k].execs)
    ensures r.worlds[k].ctrl.holdQuote == SumQuote(r.worlds[k].execs)
  {
    RunInv(cfg, r, k);
  }

  // ---------------------------------------------------------------- what is emitted

  /** Every position ever created is worth at least one quote unit and is funded by what the ledger
      holds at that moment; with a sound geometry it has a proper band on its side of the price. */
  lemma CreatedPositionsAreSound(cfg: Config, r: Trace, k: nat)
    requires IsRun(cfg, r) && k < |r.ticks|
    requires Creates(r, k)
    ensures |r.acts[k]| == 1
    ensures var (p, c) := (r.acts[k][0].cfg, r.worlds[k + 1].ctrl);
      && c.poolPrice.Some?
      && (Sound(cfg.geometry) ==> WellFormed(p.side, c.poolPrice.value, Band(p.lower, p.upper, p.lowerLimit, p.upperLimit)))
      && Affordable(p, c.holdBase, cfg.totalAmountQuote + c.holdQuote, Cap(cfg), c.poolPrice.value)
  {
    TickAt(cfg, r, k);
    CreatedInStep(cfg, r.worlds[k], r.ticks[k]);
  }

  lemma CreatedInStep(cfg: Config, w: World, t: Tick)
    requires CfgOk(cfg) && Inv(cfg, w) && ValidTick(w, t)
    ensures var (acts, c) := (Emits(cfg, w, t), Step(cfg, w, t).ctrl);
      acts != [] && acts[0].CreateLp? ==>
        var p := acts[0].cfg;
        && |acts| == 1 && c.poolPrice.Some?
        && (Sound(cfg.geometry) ==> WellFormed(p.side, c.poolPrice.value, Band(p.lower, p.upper, p.lowerLimit, p.upperLimit)))
        && Affordable(p, c.holdBase, cfg.totalAmountQuote + c.holdQuote, Cap(cfg), c.poolPrice.value)
  {
    var s, c', acts := StepParts(cfg, w, t);
    ActOutcome(cfg, s, t.execs, t.now);
    CreatedConfig(cfg, s);
    if Sound(cfg.geometry) { CreatedBand(cfg, s); }
  }

  // ---------------------------------------------------------------- rebalance rate

  function CountSettled(log: seq<LpEvent>): nat {
    if log == [] then 0 else CountSettled(Front(log)) + (if Last(log).Settled? then 1 else 0)
  }

  function CountOpened(log: seq<LpEvent>): nat {
    if log == [] then 0 else CountOpened(Front(log)) + (if Last(log).Opened? then 1 else 0)
  }

  lemma CountsPush(log: seq<LpEvent>, e: LpEvent)
    ensures CountSettled(log + [e]) == CountSettled(log) + (if e.Settled? then 1 else 0)
    ensures CountOpened(log + [e]) == CountOpened(log) + (if e.Opened? then 1 else 0)
  {
    assert Front(log + [e]) == log;
  }

  lemma CountsStep(log: seq<LpEvent>, i: nat, j: nat)
    requires i <= j < |log|
    ensures CountSettled(log[i..j + 1]) == CountSettled(log[i..j]) + (if log[j].Settled? then 1 else 0)
    ensures CountOpened(log[i..j + 1]) == CountOpened(log[i..j]) + (if log[j].Opened? then 1 else 0)
  {
    assert log[i..j + 1] == log[i..j] + [log[j]];
    CountsPush(log[i..j], log[j]);
  }

  /** `n` intervals. */
  function Intervals(n: int, interval: real): real { n as real * interval }

  lemma OneMoreInterval(n: int, interval: real)
    ensures Intervals(n + 1, interval) == Intervals(n, interval) + interval
  {
  }

  lemma {:induction false} Spaced(cfg: Config, log: seq<LpEvent>, i: nat, j: nat)
    requires Alternates(cfg, log) && i <= j < |log| && log[i].Opened?
    ensures var n := CountSettled(log[i..j + 1]);
      && CountOpened(log[i..j + 1]) == n + (if log[j].Opened? then 1 else 0)
      && (log[j].Opened? ==> log[j].at - log[i].at >= Intervals(n, cfg.minRebalanceInterval))
      && (log[j].Settled? ==> log[j].at - log[i].at >= Intervals(n - 1, cfg.minRebalanceInterval))
    decreases j
  {
    CountsStep(log, i, j);
    if i < j {
      Spaced(cfg, log, i, j - 1);
      assert Link(cfg, log[j - 1], log[j]);
      OneMoreInterval(CountSettled(log[i..j]) - 1, cfg.minRebalanceInterval);
    } else {
      assert log[i..j] == [];
    }
  }

  /** Between two creates of a run there is exactly one settlement per position opened, and each
      costs at least the rebalance interval. */
  lemma RebalanceRate(cfg: Config, r: Trace, i: nat, j: nat)
    requires IsRun(cfg, r)
    requires var log := Last(r.worlds).lpLog; i < j < |log| && log[i].Opened? && log[j].Opened?
    ensures var log := Last(r.worlds).lpLog; RateOk(cfg, log, i, j)
  {
    RunInv(cfg, r, |r.ticks|);
    RateOnLog(cfg, Last(r.worlds).lpLog, i, j);
  }

  predicate RateOk(cfg: Config, log: seq<LpEvent>, i: nat, j: nat)
    requires i < j < |log|
  {
    var n := CountSettled(log[i..j]);
    n >= 1 && CountOpened(log[i..j]) == n && log[j].at - log[i].at >= Intervals(n, cfg.minRebalanceInterval)
  }

  lemma RateOnLog(cfg: Config, log: seq<LpEvent>, i: nat, j: nat)
    requires Alternates(cfg, log) && i < j < |log| && log[i].Opened? && log[j].Opened?
    ensures RateOk(cfg, log, i, j)
  {
    Spaced(cfg, log, i, j);
    CountsStep(log, i, j);
    CountsStep(log, i, j - 1);
    assert Link(cfg, log[j - 1], log[j]);
  }

  /** The position that was running in `w` has ended in tick `t`. */
  function EndedEvents(w: World, t: Tick): seq<LpEvent> {
    if RunningLp(w.execs) && !RunningLp(t.execs) then [Settled(|w.execs| - 1, t.now)] else []
  }

  lemma StepRecords(cfg: Config, w: World, t: Tick)
    requires CfgOk(cfg) && Inv(cfg, w) && ValidTick(w, t)
    ensures Step(cfg, w, t).lpLog == w.lpLog + EndedEvents(w, t) + OpenEvents(Emits(cfg, w, t), |w.execs|, t.now)
  {
    var c := Observe(cfg, w.ctrl, t.obs);
    var s, c', acts := StepParts(cfg, w, t);
    SettledWhenEnded(w, t, c);
    assert SettleEvents(c, s, t.now) == SettleEvents(c, Settle(c, t.execs, t.now), t.now);
  }

  /** The log is the record of the run: a tick appends the settlement of the position that was
      running, if it ended, and then an opening, stamped with the tick's time, if it creates one. */
  lemma LogRecordsTick(cfg: Config, r: Trace, k: nat)
    requires IsRun(cfg, r) && k < |r.ticks|
    ensures var created := if Creates(r, k) then [Opened(|r.worlds[k].execs|, r.ticks[k].now)] else [];
      r.worlds[k + 1].lpLog == r.worlds[k].lpLog + EndedEvents(r.worlds[k], r.ticks[k]) + created
  {
    TickAt(cfg, r, k);
    StepRecords(cfg, r.worlds[k], r.ticks[k]);
  }

  lemma SettledWhenEnded(w: World, t: Tick, c: Ctrl)
    requires ExecsInv(w.execs, w.now) && ValidTick(w, t) && Tracks(c, w.execs, w.now)
    ensures SettleEvents(c, Settle(c, t.execs, t.now), t.now) == EndedEvents(w, t)
  {
    SettleOutcome(w, t, c);
    EvolvedBook(w, t);
    if w.execs != [] { assert Evolves(Last(w.execs), Last(t.execs), w.now); }
  }

  // ---------------------------------------------------------------- phases

  lemma PanicHalts(cfg: Config, r: Trace, k: nat)
    requires IsRun(cfg, r) && k < |r.ticks|
    requires ScoreAt(r, k) >= cfg.panicRatio
    ensures Halted(r.worlds[k + 1].ctrl.phase)
  {
    TickAt(cfg, r, k);
    var s, c', acts := StepParts(cfg, r.worlds[k], r.ticks[k]);
  }

  /** A halted controller stays halted, and creates nothing, while the score is above resume; from
      the terminal phases it does so whatever the score. */
  lemma HaltPersists(cfg: Config, r: Trace, k: nat)
    requires IsRun(cfg, r) && k < |r.ticks|
    requires Halted(r.worlds[k].ctrl.phase)
    requires ScoreAt(r, k) > cfg.resumeRatio || r.worlds[k].ctrl.phase != Perched
    ensures Halted(r.worlds[k + 1].ctrl.phase) && !Creates(r, k)
    ensures r.worlds[k].ctrl.phase != Perched ==> r.worlds[k + 1].ctrl.phase == r.worlds[k].ctrl.phase
  {
    TickAt(cfg, r, k);
    var s, c', acts := StepParts(cfg, r.worlds[k], r.ticks[k]);
    var c := Observe(cfg, r.worlds[k].ctrl, r.ticks[k].obs);
    SettleKeepsPhase(c, r.ticks[k].execs, r.ticks[k].now);
    HaltedNext(cfg, Settle(c, r.ticks[k].execs, r.ticks[k].now));
  }

  lemma SettleKeepsPhase(c: Ctrl, es: seq<Executor>, now: real)
    ensures var s := Settle(c, es, now); s.phase == c.phase && s.signals == c.signals
  {
  }

  lemma HaltedNext(cfg: Config, c: Ctrl)
    requires Halted(c.phase) && (c.signals.score > cfg.resumeRatio || c.phase != Perched)
    ensures Halted(NextPhase(cfg, c)) && (c.phase != Perched ==> NextPhase(cfg, c) == c.phase)
  {
  }

  lemma {:induction false} HaltedUntil(cfg: Config, r: Trace, i: nat, j: nat)
    requires IsRun(cfg, r) && i <= j < |r.worlds|
    requires Halted(r.worlds[i].ctrl.phase)
    requires forall k :: i <= k < j ==> ScoreAt(r, k) > cfg.resumeRatio
    ensures Halted(r.worlds[j].ctrl.phase)
    decreases j
  {
    if i < j {
      HaltedUntil(cfg, r, i, j - 1);
      assert ScoreAt(r, j - 1) > cfg.resumeRatio;
      HaltPersists(cfg, r, j - 1);
    }
  }

  /** After a tick with a panic score, no position is created before the score has fallen to the
      resume level at some tick in between. */
  lemma PanicHysteresis(cfg: Config, r: Trace, i: nat, j: nat)
    requires IsRun(cfg, r) && i < j < |r.ticks|
    requires ScoreAt(r, i) >= cfg.panicRatio && Creates(r, j)
    ensures exists k :: i < k <= j && ScoreAt(r, k) <= cfg.resumeRatio
  {
    PanicHalts(cfg, r, i);
    if forall k :: i < k <= j ==> ScoreAt(r, k) > cfg.resumeRatio {
      HaltedUntil(cfg, r, i + 1, j);
      assert ScoreAt(r, j) > cfg.resumeRatio;
      HaltPersists(cfg, r, j);
    }
  }

  /** ASHES and VETOED are never left, and no position is created from them. */
  lemma {:induction false} TerminalAbsorbs(cfg: Config, r: Trace, i: nat, j: nat)
    requires IsRun(cfg, r) && i <= j < |r.worlds|
    requires r.worlds[i].ctrl.phase == Ashes || r.worlds[i].ctrl.phase == Vetoed
    ensures r.worlds[j].ctrl.phase == r.worlds[i].ctrl.phase
    ensures j < |r.ticks| ==> !Creates(r, j)
    decreases j
  {
    if i < j {
      TerminalAbsorbs(cfg, r, i, j - 1);
      HaltPersists(cfg, r, j - 1);
    }
    if j < |r.ticks| { HaltPersists(cfg, r, j); }
  }

  lemma ActionLeavesExecutor(cfg: Config, w: World, t: Tick)
    requires CfgOk(cfg) && Inv(cfg, w) && ValidTick(w, t)
    ensures Emits(cfg, w, t) != [] || w.execs != [] ==> Step(cfg, w, t).execs != []
  {
    var s, c', acts := StepParts(cfg, w, t);
    if acts != [] { ApplyBook(cfg, s, t.execs, t.now, t.latency, c', acts); }
  }

  lemma TickLeavesExecutor(cfg: Config, r: Trace, k: nat)
    requires IsRun(cfg, r) && k < |r.ticks|
    requires r.acts[k] != [] || r.worlds[k].execs != []
    ensures r.worlds[k + 1].execs != []
  {
    TickAt(cfg, r, k);
    ActionLeavesExecutor(cfg, r.worlds[k], r.ticks[k]);
  }

  lemma {:induction false} ExecutorsStay(cfg: Config, r: Trace, i: nat, j: nat)
    requires IsRun(cfg, r) && i <= j < |r.worlds| && r.worlds[i].execs != []
    ensures r.worlds[j].execs != []
    decreases j
  {
    if i < j {
      ExecutorsStay(cfg, r, i, j - 1);
      TickLeavesExecutor(cfg, r, j - 1);
    }
  }

  /** A run that is vetoed at any point has never emitted an action and never will. */
  lemma VetoedRunNeverActs(cfg: Config, r: Trace, n: nat, k: nat)
    requires IsRun(cfg, r) && n < |r.worlds| && k < |r.ticks|
    requires r.worlds[n].ctrl.phase == Vetoed
    ensures r.acts[k] == []
  {
    if r.acts[k] != [] {
      TickLeavesExecutor(cfg, r, k);
      if k < n {
        ExecutorsStay(cfg, r, k + 1, n);
        RunInv(cfg, r, n);
      } else {
        TerminalAbsorbs(cfg, r, n, k + 1);
        RunInv(cfg, r, k + 1);
      }
    }
  }

  // ---------------------------------------------------------------- which side is quoted

  /** In flight, with coverage beyond the hysteresis on the side now quoted. */
  predicate BeyondHysteresis(cfg: Config, c: Ctrl) {
    && c.phase == Flying && Deploy(cfg, c) > 0.0
    && (c.quoting == Sell ==> Coverage(cfg, c) > 0.5 + cfg.flipHysteresis)
    && (c.quoting == Buy ==> Coverage(cfg, c) < 0.5 - cfg.flipHysteresis)
  }

  /** Deployment and coverage do not depend on the side quoted so far. */
  lemma SameCoverage(cfg: Config, c: Ctrl, c': Ctrl)
    requires c'.holdBase == c.holdBase && c'.holdQuote == c.holdQuote && c'.poolPrice == c.poolPrice
    ensures Deploy(cfg, c') == Deploy(cfg, c)
    ensures Deploy(cfg, c) > 0.0 ==> Coverage(cfg, c') == Coverage(cfg, c)
  {
    assert Equity(cfg, c') == Equity(cfg, c);
  }

  lemma PickBeyond(cfg: Config, c: Ctrl)
    requires c.phase == Flying && PickSide(cfg, c) != c.quoting
    ensures BeyondHysteresis(cfg, c.(quoting := PickSide(cfg, c)))
  {
    SameCoverage(cfg, c, c.(quoting := PickSide(cfg, c)));
  }

  lemma CreatePicks(cfg: Config, c: Ctrl)
    ensures CreateConfig(cfg, c).0.quoting in {c.quoting, PickSide(cfg, c)}
  {
  }

  lemma CreateQuoting(cfg: Config, c: Ctrl)
    requires c.phase == Flying
    ensures CreateConfig(cfg, c).0.quoting != c.quoting ==> BeyondHysteresis(cfg, c.(quoting := CreateConfig(cfg, c).0.quoting))
  {
    CreatePicks(cfg, c);
    if PickSide(cfg, c) != c.quoting { PickBeyond(cfg, c); }
  }

  /** What happens to the quoted side, apart from what else a pass does. */
  lemma ActQuoting(cfg: Config, c: Ctrl, active: Option<nat>, now: real, c': Ctrl, acts: seq<Action>)
    requires (c', acts) == Act(cfg, c, active, now)
    ensures c'.quoting != c.quoting ==> BeyondHysteresis(cfg, c.(quoting := c'.quoting))
  {
    if c.phase == Flying { CreateQuoting(cfg, c); }
  }

  lemma SideCarries(cfg: Config, c: Ctrl, c': Ctrl)
    requires c' == c.(stopRequested := c'.stopRequested, flatten := c'.flatten, quoting := c'.quoting)
    requires BeyondHysteresis(cfg, c.(quoting := c'.quoting))
    ensures BeyondHysteresis(cfg, c')
  {
    SameCoverage(cfg, c.(quoting := c'.quoting), c');
  }

  lemma SettleKeepsSide(c: Ctrl, es: seq<Executor>, now: real)
    ensures Settle(c, es, now).quoting == c.quoting
  {
  }

  lemma StepQuoting(cfg: Config, w: World, t: Tick)
    requires CfgOk(cfg) && Inv(cfg, w) && ValidTick(w, t)
    ensures Step(cfg, w, t).ctrl.quoting != w.ctrl.quoting ==> BeyondHysteresis(cfg, Step(cfg, w, t).ctrl)
  {
    var s, c', acts := StepParts(cfg, w, t);
    SettleKeepsSide(Observe(cfg, w.ctrl, t.obs), t.execs, t.now);
    ActQuoting(cfg, s, ActiveLp(t.execs), t.now, c', acts);
    if c'.quoting != s.quoting { SideCarries(cfg, s, c'); }
  }

  /** The side flips only in flight, and only beyond the hysteresis around half coverage. */
  lemma FlipsBeyondHysteresis(cfg: Config, r: Trace, k: nat)
    requires IsRun(cfg, r) && k < |r.ticks|
    requires r.worlds[k + 1].ctrl.quoting != r.worlds[k].ctrl.quoting
    ensures BeyondHysteresis(cfg, r.worlds[k + 1].ctrl)
  {
    TickAt(cfg, r, k);
    StepQuoting(cfg, r.worlds[k], r.ticks[k]);
  }

  /** No thrash at the boundary: a flip to the ask and a flip to the bid, in any order and at any
      distance in a run, are more than twice the hysteresis apart in coverage. */
  lemma FlipsAreApart(cfg: Config, r: Trace, i: nat, j: nat)
    requires IsRun(cfg, r) && i < |r.ticks| && j < |r.ticks|
    requires r.worlds[i].ctrl.quoting == Buy && r.worlds[i + 1].ctrl.quoting == Sell
    requires r.worlds[j].ctrl.quoting == Sell && r.worlds[j + 1].ctrl.quoting == Buy
    ensures var (a, b) := (r.worlds[i + 1].ctrl, r.worlds[j + 1].ctrl);
      Deploy(cfg, a) > 0.0 && Deploy(cfg, b) > 0.0 && Coverage(cfg, a) - Coverage(cfg, b) > 2.0 * cfg.flipHysteresis
  {
    FlipsBeyondHysteresis(cfg, r, i);
    FlipsBeyondHysteresis(cfg, r, j);
  }
}
