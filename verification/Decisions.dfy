/** What each tick of a run decides, stated by the quantities themselves: when phases change, when the
    venue is refused, and exactly when the controller stops, sells, opens, and on which terms. */
module Decisions {
  import opened Prelude
  import opened Bands
  import opened Executors
  import opened Controller
  import opened World
  import Safety

  // ---------------------------------------------------------------- observation and veto

  /** After a tick the controller knows the price and the signals it was shown last. */
  lemma ObservedIs(cfg: Config, r: Trace, k: nat)
    requires IsRun(cfg, r) && k < |r.ticks|
    ensures var (c, c', o) := (r.worlds[k].ctrl, r.worlds[k + 1].ctrl, r.ticks[k].obs);
      if o.Pool? then c'.poolPrice == Some(o.price) && c'.signals == o.signals && c'.venueChecked
      else c'.poolPrice == c.poolPrice && c'.signals == c.signals && c'.venueChecked == c.venueChecked
  {
    TickAt(cfg, r, k);
    StepObserves(cfg, r.worlds[k], r.ticks[k]);
  }

  lemma SettleKeepsSight(c: Ctrl, es: seq<Executor>, now: real)
    ensures var s := Settle(c, es, now);
      && s.poolPrice == c.poolPrice && s.signals == c.signals && s.venueChecked == c.venueChecked
      && s.phase == c.phase && s.quoting == c.quoting
  {
  }

  lemma StepObserves(cfg: Config, w: World, t: Tick)
    requires CfgOk(cfg) && Inv(cfg, w) && ValidTick(w, t)
    ensures var (c, c') := (Observe(cfg, w.ctrl, t.obs), Step(cfg, w, t).ctrl);
      c'.poolPrice == c.poolPrice && c'.signals == c.signals && c'.venueChecked == c.venueChecked
  {
    var s, c', acts := StepParts(cfg, w, t);
    SettleKeepsSight(Observe(cfg, w.ctrl, t.obs), t.execs, t.now);
  }

  /** The venue is refused: the mint ends with a banned suffix, or the fee tier is below the minimum. */
  ghost predicate Refused(cfg: Config, o: Obs) {
    o.Pool? && ((exists i, head :: 0 <= i < |cfg.bannedSuffixes| && o.mint == head + cfg.bannedSuffixes[i]) || o.feePct < cfg.minPoolFeePct)
  }

  /** The suffix test is exactly that the rest of the string comes before it. */
  lemma EndsWithIff(s: string, suffix: string)
    ensures EndsWith(s, suffix) <==> exists head :: s == head + suffix
  {
    if EndsWith(s, suffix) { assert s == s[..|s| - |suffix|] + suffix; }
  }

  lemma RefusedIs(cfg: Config, o: Obs)
    requires o.Pool?
    ensures Refused(cfg, o) <==> Banned(cfg, o.mint) || o.feePct < cfg.minPoolFeePct
  {
    forall i | 0 <= i < |cfg.bannedSuffixes|
      ensures EndsWith(o.mint, cfg.bannedSuffixes[i]) <==> exists head :: o.mint == head + cfg.bannedSuffixes[i]
    {
      EndsWithIff(o.mint, cfg.bannedSuffixes[i]);
    }
  }

  /** Tick `i` is the first that sees the pool, and what it sees is refused. */
  ghost predicate FirstLook(cfg: Config, ticks: seq<Tick>, i: nat)
    requires i < |ticks|
  {
    Refused(cfg, ticks[i].obs) && forall j :: 0 <= j < i ==> ticks[j].obs.NoPool?
  }

  /** The first look at the pool in the first `k` ticks, if there was one, refused it. */
  ghost predicate FirstLookRefuses(cfg: Config, ticks: seq<Tick>, k: nat)
    requires k <= |ticks|
  {
    exists i :: 0 <= i < k && FirstLook(cfg, ticks, i)
  }

  lemma StepVetoes(cfg: Config, w: World, t: Tick)
    requires CfgOk(cfg) && Inv(cfg, w) && ValidTick(w, t)
    ensures Step(cfg, w, t).ctrl.phase == Vetoed <==>
      w.ctrl.phase == Vetoed || (!w.ctrl.venueChecked && Refused(cfg, t.obs))
  {
    var s, c', acts := StepParts(cfg, w, t);
    SettleKeepsSight(Observe(cfg, w.ctrl, t.obs), t.execs, t.now);
    if t.obs.Pool? { RefusedIs(cfg, t.obs); }
  }

  /** The pool was seen in the first `k` ticks. */
  predicate Looked(ticks: seq<Tick>, k: nat)
    requires k <= |ticks|
  {
    exists i :: 0 <= i < k && ticks[i].obs.Pool?
  }

  lemma LookedStep(ticks: seq<Tick>, k: nat)
    requires k < |ticks|
    ensures Looked(ticks, k + 1) <==> Looked(ticks, k) || ticks[k].obs.Pool?
  {
    if Looked(ticks, k) {
      var i :| 0 <= i < k && ticks[i].obs.Pool?;
      assert ticks[i].obs.Pool? && i < k + 1;
    }
    if ticks[k].obs.Pool? { assert k < k + 1; }
  }

  lemma FirstLookStep(cfg: Config, ticks: seq<Tick>, k: nat)
    requires k < |ticks|
    ensures FirstLookRefuses(cfg, ticks, k + 1) <==>
      FirstLookRefuses(cfg, ticks, k) || (!Looked(ticks, k) && Refused(cfg, ticks[k].obs))
  {
    if !Looked(ticks, k) && Refused(cfg, ticks[k].obs) { assert FirstLook(cfg, ticks, k); }
    if FirstLookRefuses(cfg, ticks, k) {
      var i :| 0 <= i < k && FirstLook(cfg, ticks, i);
      assert i < k + 1 && FirstLook(cfg, ticks, i);
    }
  }

  lemma TickVetoes(cfg: Config, r: Trace, k: nat)
    requires IsRun(cfg, r) && k < |r.ticks|
    ensures var (c, c', o) := (r.worlds[k].ctrl, r.worlds[k + 1].ctrl, r.ticks[k].obs);
      && (c'.phase == Vetoed <==> c.phase == Vetoed || (!c.venueChecked && Refused(cfg, o)))
      && (c'.venueChecked <==> c.venueChecked || o.Pool?)
  {
    TickAt(cfg, r, k);
    StepVetoes(cfg, r.worlds[k], r.ticks[k]);
    ObservedIs(cfg, r, k);
  }

  /** The controller is vetoed exactly when its first look at the pool refused it; later looks never do. */
  lemma {:induction false} VetoedIff(cfg: Config, r: Trace, k: nat)
    requires IsRun(cfg, r) && k < |r.worlds|
    ensures r.worlds[k].ctrl.phase == Vetoed <==> FirstLookRefuses(cfg, r.ticks, k)
    ensures r.worlds[k].ctrl.venueChecked <==> Looked(r.ticks, k)
  {
    if k > 0 {
      VetoedIff(cfg, r, k - 1);
      TickVetoes(cfg, r, k - 1);
      LookedStep(r.ticks, k - 1);
      FirstLookStep(cfg, r.ticks, k - 1);
    }
  }

  // ---------------------------------------------------------------- phases

  /** The phase `c.phase` that follows phase `was`: ashes at or below the floor, else perched in a panic
      and until the score has come down to the resume level, else warming up or flying. */
  predicate PhaseRule(cfg: Config, was: Phase, c: Ctrl) {
    var broke := c.poolPrice.Some?
      && cfg.totalAmountQuote + c.holdQuote + c.holdBase * c.poolPrice.value <= cfg.totalAmountQuote * cfg.ashesFloorPct;
    var score := c.signals.score;
    var panic := score >= cfg.panicRatio || (was == Perched && score > cfg.resumeRatio);
    && (c.phase == Ashes <==> broke)
    && (c.phase == Perched <==> !broke && panic)
    && (c.phase == Hatching <==> !broke && !panic && c.signals.samples < cfg.minSamples)
    && (c.phase == Flying <==> !broke && !panic && c.signals.samples >= cfg.minSamples)
  }

  lemma NextFollowsRule(cfg: Config, c: Ctrl)
    requires c.phase != Ashes && c.phase != Vetoed
    ensures PhaseRule(cfg, c.phase, c.(phase := NextPhase(cfg, c)))
  {
  }

  lemma RuleCarries(cfg: Config, was: Phase, c: Ctrl, c': Ctrl)
    requires c' == c.(stopRequested := c'.stopRequested, flatten := c'.flatten, quoting := c'.quoting)
    requires PhaseRule(cfg, was, c)
    ensures PhaseRule(cfg, was, c')
  {
  }

  lemma StepFollowsRule(cfg: Config, w: World, t: Tick)
    requires CfgOk(cfg) && Inv(cfg, w) && ValidTick(w, t)
    requires w.ctrl.phase != Ashes && w.ctrl.phase != Vetoed && (w.ctrl.venueChecked || !Refused(cfg, t.obs))
    ensures PhaseRule(cfg, w.ctrl.phase, Step(cfg, w, t).ctrl)
  {
    var s, c', acts := StepParts(cfg, w, t);
    var c := Observe(cfg, w.ctrl, t.obs);
    if t.obs.Pool? { RefusedIs(cfg, t.obs); }
    SettleKeepsSight(c, t.execs, t.now);
    NextFollowsRule(cfg, Settle(c, t.execs, t.now));
    RuleCarries(cfg, w.ctrl.phase, s, c');
  }

  /** Over runs: unless it is in ashes or vetoed, or vetoed in this very tick, the phase after a tick is the
      one the rule gives; in particular a perched controller resumes once the score is down. */
  lemma PhaseAfterTick(cfg: Config, r: Trace, k: nat)
    requires IsRun(cfg, r) && k < |r.ticks|
    requires r.worlds[k].ctrl.phase != Ashes && r.worlds[k + 1].ctrl.phase != Vetoed
    ensures PhaseRule(cfg, r.worlds[k].ctrl.phase, r.worlds[k + 1].ctrl)
  {
    TickAt(cfg, r, k);
    StepVetoes(cfg, r.worlds[k], r.ticks[k]);
    StepFollowsRule(cfg, r.worlds[k], r.ticks[k]);
  }

  // ---------------------------------------------------------------- stopping and selling

  /** Halted, with a position live that was not asked to stop yet. */
  predicate MustStop(c: Ctrl, c': Ctrl, es: seq<Executor>) {
    c'.phase in {Vetoed, Ashes, Perched} && RunningLp(es) && c.stopRequested != Some(|es| - 1)
  }

  /** In panic or ashes with flattening on, nothing running, and the held base worth a quote unit. */
  predicate MustSell(cfg: Config, c: Ctrl, es: seq<Executor>) {
    && c.phase in {Ashes, Perched} && cfg.panicFlatten && !Running(es)
    && c.poolPrice.Some? && c.holdBase * c.poolPrice.value >= 1.0
  }

  lemma SettleKeepsStopRequest(c: Ctrl, es: seq<Executor>, now: real)
    ensures Settle(c, es, now).stopRequested == c.stopRequested
  {
  }

  lemma WorthIs(c: Ctrl)
    requires c.poolPrice.Some? ==> 0.0 < c.poolPrice.value
    ensures WorthFlattening(c) <==> c.poolPrice.Some? && c.holdBase * c.poolPrice.value >= 1.0
  {
  }

  lemma StepStops(cfg: Config, w: World, t: Tick)
    requires CfgOk(cfg) && Inv(cfg, w) && ValidTick(w, t)
    ensures var acts := Emits(cfg, w, t);
      && ((acts != [] && acts[0].Stop?) <==> MustStop(w.ctrl, Step(cfg, w, t).ctrl, t.execs))
      && (acts != [] && acts[0].Stop? ==> acts == [Stop(|t.execs| - 1)])
  {
    var s, c', acts := StepParts(cfg, w, t);
    SettleKeepsStopRequest(Observe(cfg, w.ctrl, t.obs), t.execs, t.now);
    ActOutcome(cfg, s, t.execs, t.now);
  }

  lemma SellCarries(cfg: Config, s: Ctrl, c': Ctrl, es: seq<Executor>)
    requires c' == s.(stopRequested := c'.stopRequested, flatten := c'.flatten, quoting := c'.quoting)
    requires s.poolPrice.Some? ==> 0.0 < s.poolPrice.value
    ensures MustSell(cfg, c', es) <==>
      (s.phase == Ashes || s.phase == Perched) && cfg.panicFlatten && !Running(es) && WorthFlattening(s)
  {
    WorthIs(s);
  }

  lemma StepSells(cfg: Config, w: World, t: Tick)
    requires CfgOk(cfg) && Inv(cfg, w) && ValidTick(w, t)
    ensures var (c', acts) := (Step(cfg, w, t).ctrl, Emits(cfg, w, t));
      && ((acts != [] && acts[0].CreateFlatten?) <==> MustSell(cfg, c', t.execs))
      && (acts != [] && acts[0].CreateFlatten? ==> acts == [CreateFlatten(c'.holdBase)])
  {
    var s, c', acts := StepParts(cfg, w, t);
    SettleKeepsVenue(cfg, w, t, s);
    ActOutcome(cfg, s, t.execs, t.now);
    SellCarries(cfg, s, c', t.execs);
  }

  /** A tick sends a stop exactly when it must, and a swap of everything held exactly when it must. */
  lemma StopsAndSellsIff(cfg: Config, r: Trace, k: nat)
    requires IsRun(cfg, r) && k < |r.ticks|
    ensures var (c, c', es, acts) := (r.worlds[k].ctrl, r.worlds[k + 1].ctrl, r.ticks[k].execs, r.acts[k]);
      && ((acts != [] && acts[0].Stop?) <==> MustStop(c, c', es))
      && (acts != [] && acts[0].Stop? ==> acts == [Stop(|es| - 1)])
      && ((acts != [] && acts[0].CreateFlatten?) <==> MustSell(cfg, c', es))
      && (acts != [] && acts[0].CreateFlatten? ==> acts == [CreateFlatten(c'.holdBase)])
  {
    TickAt(cfg, r, k);
    StepStops(cfg, r.worlds[k], r.ticks[k]);
    StepSells(cfg, r.worlds[k], r.ticks[k]);
  }

  // ---------------------------------------------------------------- opening

  /** `d` is what the sizing rule deploys at `price`: the Kelly share of what the books are worth, capped. */
  predicate Deploys(cfg: Config, c: Ctrl, price: real, d: real) {
    d == MinR(MaxR(cfg.totalAmountQuote + c.holdQuote + c.holdBase * price, 0.0) * cfg.kellyFraction,
              cfg.totalAmountQuote * cfg.maxCompoundFactor)
  }

  /** The side quoted after `was`: the ask once the held base is worth more than half of what is deployed,
      plus the hysteresis; back to the bid once it is worth less than half, minus the hysteresis. */
  predicate SideRule(cfg: Config, was: Side, c: Ctrl, price: real, d: real) {
    c.quoting == Sell <==>
      (was == Buy && c.holdBase * price > (0.5 + cfg.flipHysteresis) * d)
      || (was == Sell && c.holdBase * price >= (0.5 - cfg.flipHysteresis) * d)
  }

  /** The band around `price` for the side quoted, given what is held. */
  function Offer(cfg: Config, c: Ctrl, price: real): Band {
    var value := Value(c.holdBase, price);
    MakeBand(cfg.geometry, c.quoting, price, c.signals.sigma, c.signals.trend,
             value, value + (c.holdQuote + cfg.totalAmountQuote))
  }

  /** What the position takes in base and in quote: all it deploys that the wallet holds, of one token. */
  predicate Funding(cfg: Config, c: Ctrl, price: real, d: real, base: real, quote: real)
    requires 0.0 < price
  {
    if c.quoting == Buy then base == 0.0 && quote == MinR(d, cfg.totalAmountQuote + c.holdQuote)
    else quote == 0.0 && base == MinR(d / price, c.holdBase)
  }

  lemma DeployedIs(cfg: Config, c: Ctrl, d: real)
    requires Deploys(cfg, c, Price(c), d)
    ensures d == Deploy(cfg, c)
  {
  }

  lemma FlipRule(was: Side, v: real, d: real, h: real)
    requires 0.0 < d
    ensures Flip(was, v / d, h) == Sell <==>
      (was == Buy && v > (0.5 + h) * d) || (was == Sell && v >= (0.5 - h) * d)
  {
    Compare(v, d, 0.5 + h);
    Compare(v, d, 0.5 - h);
  }

  lemma FlipIs(cfg: Config, c: Ctrl, price: real, d: real)
    requires price == Price(c) && 0.0 < price && d == Deploy(cfg, c) && 0.0 < d
    ensures SideRule(cfg, c.quoting, c.(quoting := PickSide(cfg, c)), price, d)
  {
    var v := c.holdBase * price;
    assert Coverage(cfg, c) == v / d;
    FlipRule(c.quoting, v, d, cfg.flipHysteresis);
  }

  lemma Compare(v: real, d: real, x: real)
    requires 0.0 < d
    ensures v / d > x <==> v > x * d
    ensures v / d < x <==> v < x * d
  {
    var q := v / d;
    assert q * d == v;
    assert (q - x) * d == v - x * d;
    if q > x { MulPos(q - x, d); }
    if q < x {
      MulPos(x - q, d);
      assert (x - q) * d == x * d - v;
    }
  }

  /** What `Build` gives for the side quoted, in terms of the offer and the funding. */
  lemma BuildIs(cfg: Config, c: Ctrl, side: Side, price: real, d: real, b: Band, base: real, quote: real)
    requires Solvent(cfg, c) && price == Price(c) && 0.0 < price && d == Deploy(cfg, c) && 0.0 < d
    requires Funding(cfg, c.(quoting := side), price, d, base, quote)
    ensures Build(cfg, c, side, b) ==
      if b.lower < b.upper && quote + base * price >= 1.0
      then Some(LpConfig(side, b.lower, b.upper, b.lowerLimit, b.upperLimit, base, quote)) else None
  {
  }

  /** The position on offer. */
  function Offered(cfg: Config, c: Ctrl, price: real, base: real, quote: real): LpConfig {
    var b := Offer(cfg, c, price);
    LpConfig(c.quoting, b.lower, b.upper, b.lowerLimit, b.upperLimit, base, quote)
  }

  /** The offer is worth making: something to deploy, a band in the right order, and at least one quote
      unit of funding. */
  predicate WorthOpening(cfg: Config, c: Ctrl, price: real, d: real, base: real, quote: real) {
    0.0 < d && Offer(cfg, c, price).lower < Offer(cfg, c, price).upper && quote + base * price >= 1.0
  }

  lemma OfferIs(cfg: Config, c: Ctrl, side: Side, price: real)
    requires price == Price(c)
    ensures BandFor(cfg, c, side) == Offer(cfg, c.(quoting := side), price)
  {
  }

  lemma CreateParts(cfg: Config, c: Ctrl)
    requires 0.0 < Price(c)
    ensures CreateConfig(cfg, c) ==
      if Deploy(cfg, c) <= 0.0 then (c, None)
      else (c.(quoting := PickSide(cfg, c)), Build(cfg, c, PickSide(cfg, c), BandFor(cfg, c, PickSide(cfg, c))))
  {
  }

  /** With band `b` on offer. */
  lemma OfferedIs(cfg: Config, c: Ctrl, price: real, d: real, base: real, quote: real, b: Band)
    requires b == Offer(cfg, c, price)
    ensures WorthOpening(cfg, c, price, d, base, quote) <==> 0.0 < d && b.lower < b.upper && quote + base * price >= 1.0
    ensures Offered(cfg, c, price, base, quote)
         == LpConfig(c.quoting, b.lower, b.upper, b.lowerLimit, b.upperLimit, base, quote)
  {
  }

  lemma CreateIs(cfg: Config, c: Ctrl, price: real, d: real, base: real, quote: real, c': Ctrl)
    requires Solvent(cfg, c) && price == Price(c) && 0.0 < price && Deploys(cfg, c, price, d)
    requires c' == CreateConfig(cfg, c).0 && Funding(cfg, c', price, d, base, quote)
    ensures CreateConfig(cfg, c).1 ==
      if WorthOpening(cfg, c', price, d, base, quote) then Some(Offered(cfg, c', price, base, quote)) else None
    ensures if 0.0 < d then c' == c.(quoting := c'.quoting) && SideRule(cfg, c.quoting, c', price, d) else c' == c
  {
    DeployedIs(cfg, c, d);
    CreateParts(cfg, c);
    if 0.0 < d {
      FlipIs(cfg, c, price, d);
      BuiltIs(cfg, c, PickSide(cfg, c), price, d, base, quote);
    }
  }

  lemma BuiltIs(cfg: Config, c: Ctrl, side: Side, price: real, d: real, base: real, quote: real)
    requires Solvent(cfg, c) && price == Price(c) && 0.0 < price && d == Deploy(cfg, c) && 0.0 < d
    requires Funding(cfg, c.(quoting := side), price, d, base, quote)
    ensures var c' := c.(quoting := side);
      Build(cfg, c, side, BandFor(cfg, c, side)) ==
        if WorthOpening(cfg, c', price, d, base, quote) then Some(Offered(cfg, c', price, base, quote)) else None
  {
    var c', b := c.(quoting := side), BandFor(cfg, c, side);
    OfferIs(cfg, c, side, price);
    OfferedIs(cfg, c', price, d, base, quote, b);
    BuildIs(cfg, c, side, price, d, b, base, quote);
  }

  /** In flight with nothing running, the interval over and a price known. */
  predicate MayOpen(cfg: Config, c: Ctrl, es: seq<Executor>, now: real) {
    c.phase == Flying && !Running(es) && now - c.lastClose >= cfg.minRebalanceInterval && c.poolPrice.Some?
  }

  /** What a pass opens, and which side it quotes afterwards. */
  predicate OpensAsDue(cfg: Config, was: Side, c: Ctrl, es: seq<Executor>, now: real, acts: seq<Action>,
                       price: real, d: real, base: real, quote: real)
  {
    && ((acts != [] && acts[0].CreateLp?) <==> MayOpen(cfg, c, es, now) && WorthOpening(cfg, c, price, d, base, quote))
    && (acts != [] && acts[0].CreateLp? ==> acts == [CreateLp(Offered(cfg, c, price, base, quote))])
    && (if MayOpen(cfg, c, es, now) && 0.0 < d then SideRule(cfg, was, c, price, d) else c.quoting == was)
  }

  lemma ActOpens(cfg: Config, s: Ctrl, es: seq<Executor>, now: real, c': Ctrl, acts: seq<Action>,
                 price: real, d: real, base: real, quote: real)
    requires CfgOk(cfg) && ExecsInv(es, now) && Tracks(s, es, now) && Solvent(cfg, s)
    requires s.poolPrice == Some(price) && 0.0 < price && Deploys(cfg, s, price, d)
    requires (c', acts) == Act(cfg, s, ActiveLp(es), now) && Funding(cfg, c', price, d, base, quote)
    ensures OpensAsDue(cfg, s.quoting, c', es, now, acts, price, d, base, quote)
  {
    ActiveLpIs(es);
    if s.phase == Flying && !Running(es) && now - s.lastClose >= cfg.minRebalanceInterval {
      CreateIs(cfg, s, price, d, base, quote, c');
    }
  }

  lemma FundsCarry(cfg: Config, s: Ctrl, c': Ctrl, price: real, d: real)
    requires c' == s.(stopRequested := c'.stopRequested, flatten := c'.flatten, quoting := c'.quoting)
    requires Deploys(cfg, c', price, d)
    ensures Deploys(cfg, s, price, d)
  {
  }

  lemma StepOpens(cfg: Config, w: World, t: Tick, price: real, d: real, base: real, quote: real)
    requires CfgOk(cfg) && Inv(cfg, w) && ValidTick(w, t)
    requires var c' := Step(cfg, w, t).ctrl;
      && c'.poolPrice == Some(price) && 0.0 < price
      && Deploys(cfg, c', price, d) && Funding(cfg, c', price, d, base, quote)
    ensures OpensAsDue(cfg, w.ctrl.quoting, Step(cfg, w, t).ctrl, t.execs, t.now, Emits(cfg, w, t), price, d, base, quote)
  {
    var s, c', acts := StepParts(cfg, w, t);
    SettleKeepsSight(Observe(cfg, w.ctrl, t.obs), t.execs, t.now);
    FundsCarry(cfg, s, c', price, d);
    ActOpens(cfg, s, t.execs, t.now, c', acts, price, d, base, quote);
  }

  /** Over runs: a tick opens a position exactly when it may and the offer is worth making, on exactly the
      offered terms; and the side quoted changes only then, by the rule. */
  lemma OpensIff(cfg: Config, r: Trace, k: nat, price: real, d: real, base: real, quote: real)
    requires IsRun(cfg, r) && k < |r.ticks|
    requires var c' := r.worlds[k + 1].ctrl;
      && c'.poolPrice == Some(price) && 0.0 < price
      && Deploys(cfg, c', price, d) && Funding(cfg, c', price, d, base, quote)
    ensures OpensAsDue(cfg, r.worlds[k].ctrl.quoting, r.worlds[k + 1].ctrl, r.ticks[k].execs, r.ticks[k].now, r.acts[k],
                       price, d, base, quote)
  {
    TickAt(cfg, r, k);
    StepOpens(cfg, r.worlds[k], r.ticks[k], price, d, base, quote);
  }

  // ---------------------------------------------------------------- the wallet

  /** An executor counts for the wallet once it has ended without failing. */
  predicate CountsForWallet(e: Executor) {
    match e
    case Lp(x) => !x.active && !x.failed
    case Order(x) => !x.active && !x.failed
  }

  /** Base that came back from a position, with fees, less what it was opened with; or that was swapped. */
  function BaseBack(e: Executor): real {
    match e
    case Lp(x) => (x.base + x.baseFee) - x.cfg.baseAmount
    case Order(x) => -x.executed
  }

  /** Quote that came back from a position, with fees, less what it was opened with; or from a swap. */
  function QuoteBack(e: Executor): real {
    match e
    case Lp(x) => (x.quote + x.quoteFee) - x.cfg.quoteAmount
    case Order(x) => x.averagePrice * x.executed
  }

  function BaseMoved(es: seq<Executor>): real {
    if es == [] then 0.0 else BaseMoved(Front(es)) + (if CountsForWallet(Last(es)) then BaseBack(Last(es)) else 0.0)
  }

  function QuoteMoved(es: seq<Executor>): real {
    if es == [] then 0.0 else QuoteMoved(Front(es)) + (if CountsForWallet(Last(es)) then QuoteBack(Last(es)) else 0.0)
  }

  lemma {:induction false} MovedIsSum(es: seq<Executor>)
    ensures BaseMoved(es) == SumBase(es) && QuoteMoved(es) == SumQuote(es)
  {
    if es != [] { MovedIsSum(Front(es)); }
  }

  /** At every tick of every run the controller's holdings are what all executors that ended without failing
      have brought back, fees included, less what went into them. */
  lemma HoldingsBalance(cfg: Config, r: Trace, k: nat)
    requires IsRun(cfg, r) && k < |r.worlds|
    ensures r.worlds[k].ctrl.holdBase == BaseMoved(r.worlds[k].execs)
    ensures r.worlds[k].ctrl.holdQuote == QuoteMoved(r.worlds[k].execs)
  {
    MovedIsSum(r.worlds[k].execs);
    Safety.LedgerIsExactlyOnce(cfg, r, k);
  }
}
