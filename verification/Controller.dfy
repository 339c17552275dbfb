/** The Phoenix controller as a transition function: what one control-loop pass does to the
    controller state, and which action it emits. Module Phoenix runs the same passes on fields. */
module Controller {
  import opened Prelude
  import opened Bands
  import opened Executors

  datatype Phase = Hatching | Flying | Perched | Ashes | Vetoed

  datatype Config = Config(
    totalAmountQuote: real, kellyFraction: real, maxCompoundFactor: real, ashesFloorPct: real,
    minRebalanceInterval: real, flipHysteresis: real, minSamples: nat,
    panicRatio: real, resumeRatio: real, panicFlatten: bool,
    minPoolFeePct: real, bannedSuffixes: seq<string>, geometry: Geometry)

  /** Outputs of the price statistics: cascade score, trend, sigma per sample, number of samples. */
  datatype Signals = Signals(score: real, trend: real, sigma: real, samples: nat)

  datatype FlattenRef = NoFlatten | Pending | Flatten(id: nat)

  datatype Ctrl = Ctrl(
    phase: Phase, poolPrice: Option<real>, venueChecked: bool, signals: Signals,
    current: Option<nat>, stopRequested: Option<nat>, flatten: FlattenRef, lastClose: real,
    holdBase: real, holdQuote: real, quoting: Side)

  datatype Action = Stop(id: nat) | CreateLp(cfg: LpConfig) | CreateFlatten(amount: real)

  /** One pool fetch: nothing usable, or a price, fee tier, lower-cased base mint and fresh signals. */
  datatype Obs = NoPool | Pool(price: real, feePct: real, mint: string, signals: Signals)

  function InitCtrl(): Ctrl {
    Ctrl(Hatching, None, false, Signals(0.0, 0.0, 0.0, 0), None, None, NoFlatten, 0.0, 0.0, 0.0, Buy)
  }

  // ---------------------------------------------------------------- observing

  predicate EndsWith(s: string, suffix: string) {
    |suffix| <= |s| && s[|s| - |suffix|..] == suffix
  }

  predicate Banned(cfg: Config, mint: string) {
    exists i :: 0 <= i < |cfg.bannedSuffixes| && EndsWith(mint, cfg.bannedSuffixes[i])
  }

  function Observe(cfg: Config, c: Ctrl, o: Obs): Ctrl {
    if o.NoPool? then c
    else
      var refused := !c.venueChecked && (Banned(cfg, o.mint) || o.feePct < cfg.minPoolFeePct);
      c.(poolPrice := Some(o.price), venueChecked := true, signals := o.signals,
         phase := if refused then Vetoed else c.phase)
  }

  // ---------------------------------------------------------------- sizing and accounting

  function Price(c: Ctrl): real { if c.poolPrice.Some? then c.poolPrice.value else 0.0 }

  function Equity(cfg: Config, c: Ctrl): real {
    cfg.totalAmountQuote + c.holdQuote + c.holdBase * Price(c)
  }

  function Cap(cfg: Config): real { cfg.totalAmountQuote * cfg.maxCompoundFactor }

  function Deploy(cfg: Config, c: Ctrl): (d: real)
    ensures d <= Cap(cfg)
  {
    MinR(KellyShare(cfg, c), Cap(cfg))
  }

  /** The share of equity that the Kelly fraction allows. */
  function KellyShare(cfg: Config, c: Ctrl): real { MaxR(Equity(cfg, c), 0.0) * cfg.kellyFraction }

  /** Deployment never exceeds the cap; with a Kelly fraction of at most one it never exceeds equity, and it
      is not negative when the cap is not. */
  lemma DeployBounds(cfg: Config, c: Ctrl)
    ensures Deploy(cfg, c) <= Cap(cfg)
    ensures 0.0 < cfg.kellyFraction <= 1.0 ==> Deploy(cfg, c) <= MaxR(Equity(cfg, c), 0.0)
    ensures 0.0 < cfg.kellyFraction && 0.0 <= Cap(cfg) ==> 0.0 <= Deploy(cfg, c)
  {
    ShareWithin(MaxR(Equity(cfg, c), 0.0), cfg.kellyFraction, Cap(cfg));
  }

  lemma ShareWithin(equity: real, fraction: real, cap: real)
    requires 0.0 <= equity
    ensures 0.0 < fraction <= 1.0 ==> MinR(equity * fraction, cap) <= equity
    ensures 0.0 < fraction && 0.0 <= cap ==> 0.0 <= MinR(equity * fraction, cap)
  {
    if 0.0 < fraction { ShareLaw(equity, fraction); }
  }

  lemma ShareLaw(equity: real, fraction: real)
    requires 0.0 <= equity && 0.0 < fraction
    ensures 0.0 <= equity * fraction && (fraction <= 1.0 ==> equity * fraction <= equity)
  {
    MulNonNeg(equity, fraction);
    if fraction <= 1.0 {
      MulNonNeg(equity, 1.0 - fraction);
      assert equity * (1.0 - fraction) == equity - equity * fraction;
    }
  }

  function AvailableQuote(cfg: Config, c: Ctrl): real {
    MaxR(cfg.totalAmountQuote + c.holdQuote, 0.0)
  }

  // ---------------------------------------------------------------- looking executors up

  /** The first running LP executor. */
  function ActiveLp(es: seq<Executor>): Option<nat> {
    if es == [] then None
    else if es[0].Lp? && es[0].lp.active then Some(es[0].lp.id)
    else ActiveLp(es[1..])
  }

  /** The first executor with the given id. */
  function Find(es: seq<Executor>, id: nat): Option<Executor> {
    if es == [] then None else if es[0].Id() == id then Some(es[0]) else Find(es[1..], id)
  }

  /** The last panic-flatten order in the list. */
  function LastOrder(es: seq<Executor>): Option<nat> {
    if es == [] then None
    else if Last(es).Order? then Some(Last(es).order.id)
    else LastOrder(Front(es))
  }

  // ---------------------------------------------------------------- settlement

  function Adopt(c: Ctrl, active: Option<nat>): Ctrl {
    if active.Some? && c.current.None? then c.(current := active) else c
  }

  function SettleClosed(c: Ctrl, es: seq<Executor>, now: real): Ctrl {
    if c.current.None? then c
    else match Find(es, c.current.value)
      case None => c
      case Some(e) =>
        if e.Active() then c
        else if e.Lp? && !e.lp.failed then
          c.(current := None, lastClose := now,
             holdBase := c.holdBase + (e.lp.base + e.lp.baseFee - e.lp.cfg.baseAmount),
             holdQuote := c.holdQuote + (e.lp.quote + e.lp.quoteFee - e.lp.cfg.quoteAmount))
        else c.(current := None, lastClose := now)
  }

  function ResolvePending(c: Ctrl, es: seq<Executor>): Ctrl {
    if c.flatten.Pending? && LastOrder(es).Some? then c.(flatten := Flatten(LastOrder(es).value)) else c
  }

  function SettleFlatten(c: Ctrl, es: seq<Executor>): Ctrl {
    var c := ResolvePending(c, es);
    if !c.flatten.Flatten? then c
    else match Find(es, c.flatten.id)
      case None => c
      case Some(e) =>
        if e.Active() then c
        else if e.Order? && !e.order.failed then
          c.(flatten := NoFlatten,
             holdBase := c.holdBase - e.order.executed,
             holdQuote := c.holdQuote + e.order.executed * e.order.averagePrice)
        else c.(flatten := NoFlatten)
  }

  /** Adoption of a newly visible position, then settlement of whatever has terminated. */
  function Settle(c: Ctrl, es: seq<Executor>, now: real): Ctrl {
    var active := ActiveLp(es);
    var adopted := Adopt(c, active);
    SettleFlatten(if active.None? then SettleClosed(adopted, es, now) else adopted, es)
  }

  // ---------------------------------------------------------------- phase transitions

  predicate Halted(phase: Phase) { phase == Vetoed || phase == Ashes || phase == Perched }

  function WarmOrFlying(cfg: Config, c: Ctrl): Phase {
    if c.signals.samples < cfg.minSamples then Hatching else Flying
  }

  function NextPhase(cfg: Config, c: Ctrl): Phase {
    if c.phase == Vetoed || c.phase == Ashes then c.phase
    else if c.poolPrice.Some? && Equity(cfg, c) <= cfg.totalAmountQuote * cfg.ashesFloorPct then Ashes
    else if c.signals.score >= cfg.panicRatio then Perched
    else if c.phase == Perched && c.signals.score > cfg.resumeRatio then Perched
    else WarmOrFlying(cfg, c)
  }

  // ---------------------------------------------------------------- actions

  /** A swap is worth its fee only when the held base is worth at least one quote unit. */
  predicate WorthAt(holdBase: real, price: real) {
    price > 0.0 && holdBase * price >= 1.0
  }

  predicate WorthFlattening(c: Ctrl) {
    WorthAt(c.holdBase, Price(c))
  }

  predicate FlattenDue(cfg: Config, c: Ctrl, active: Option<nat>) {
    cfg.panicFlatten && c.flatten == NoFlatten && c.current.None? && active.None? && WorthFlattening(c)
  }

  /** Share of the next deployment that the held base could fund. */
  function Coverage(cfg: Config, c: Ctrl): real
    requires Deploy(cfg, c) > 0.0
  {
    c.holdBase * Price(c) / Deploy(cfg, c)
  }

  function Flip(quoting: Side, coverage: real, hysteresis: real): Side {
    if quoting == Buy && coverage > 0.5 + hysteresis then Sell
    else if quoting == Sell && coverage < 0.5 - hysteresis then Buy
    else quoting
  }

  function PickSide(cfg: Config, c: Ctrl): Side {
    if Deploy(cfg, c) <= 0.0 || Price(c) <= 0.0 then c.quoting
    else Flip(c.quoting, Coverage(cfg, c), cfg.flipHysteresis)
  }

  function Value(base: real, price: real): real { base * price }

  function BandFor(cfg: Config, c: Ctrl, side: Side): Band {
    var value := Value(c.holdBase, Price(c));
    MakeBand(cfg.geometry, side, Price(c), c.signals.sigma, c.signals.trend,
             value, value + (c.holdQuote + cfg.totalAmountQuote))
  }

  /** The deposit uses one token only, is worth at least one quote unit at `price`, and neither
      exceeds the wallet nor, for a bid, the cap on deployment. */
  predicate Affordable(k: LpConfig, holdBase: real, availableQuote: real, cap: real, price: real) {
    && 0.0 <= k.baseAmount <= holdBase
    && 0.0 <= k.quoteAmount <= availableQuote && (k.side == Buy ==> k.quoteAmount <= cap)
    && (k.side == Buy ==> k.baseAmount == 0.0 && 1.0 <= k.quoteAmount)
    && (k.side == Sell ==> k.quoteAmount == 0.0 && 1.0 <= k.baseAmount * price)
  }

  /** A position on the given band, sized to what the wallet can fund; none if the band is not
      proper or the deposit would be below one quote unit. */
  function Build(cfg: Config, c: Ctrl, side: Side, b: Band): (k: Option<LpConfig>)
    requires Price(c) > 0.0 && Deploy(cfg, c) > 0.0
    ensures k.Some? ==>
      && b.lower < b.upper && k.value.side == side
      && b == Band(k.value.lower, k.value.upper, k.value.lowerLimit, k.value.upperLimit)
      && Affordable(k.value, MaxR(c.holdBase, 0.0), AvailableQuote(cfg, c), Cap(cfg), Price(c))
  {
    var deploy, price := Deploy(cfg, c), Price(c);
    DivNonNeg(deploy, price);
    var base := if side == Buy then 0.0 else MinR(deploy / price, MaxR(c.holdBase, 0.0));
    var quote := if side == Buy then MinR(deploy, AvailableQuote(cfg, c)) else 0.0;
    var funded := if side == Buy then quote else base * price;
    if b.lower >= b.upper || funded < 1.0 then None
    else Some(LpConfig(side, b.lower, b.upper, b.lowerLimit, b.upperLimit, base, quote))
  }

  /** The next position, if any; the side picked is remembered even when none is created. */
  function CreateConfig(cfg: Config, c: Ctrl): (Ctrl, Option<LpConfig>) {
    if Price(c) <= 0.0 || Deploy(cfg, c) <= 0.0 then (c, None)
    else
      var side := PickSide(cfg, c);
      (c.(quoting := side), Build(cfg, c, side, BandFor(cfg, c, side)))
  }

  /** Halted: stop the live position once, and sell the held base once it is back in the wallet. */
  function ActHalted(cfg: Config, c: Ctrl, active: Option<nat>): (Ctrl, seq<Action>) {
    var stopping := active.Some? && active != c.stopRequested;
    var c1 := if stopping then c.(stopRequested := active) else c;
    var stops := if stopping then [Stop(active.value)] else [];
    if c.phase != Vetoed && FlattenDue(cfg, c1, active)
    then (c1.(flatten := Pending), stops + [CreateFlatten(c1.holdBase)])
    else (c1, stops)
  }

  /** Flying: open a position when none is live and no swap is out, a rebalance interval after the last. */
  function ActFlying(cfg: Config, c: Ctrl, active: Option<nat>, now: real): (Ctrl, seq<Action>) {
    if active.None? && c.flatten == NoFlatten && now - c.lastClose >= cfg.minRebalanceInterval then
      var (c1, created) := CreateConfig(cfg, c);
      (c1, if created.Some? then [CreateLp(created.value)] else [])
    else (c, [])
  }

  /** The action part of a pass, on a settled controller whose phase is already updated. */
  function Act(cfg: Config, c: Ctrl, active: Option<nat>, now: real): (Ctrl, seq<Action>) {
    if Halted(c.phase) then ActHalted(cfg, c, active)
    else if c.phase == Flying then ActFlying(cfg, c, active, now)
    else (c, [])
  }

  /** One pass of determine_executor_actions. */
  function Decide(cfg: Config, c: Ctrl, es: seq<Executor>, now: real): (Ctrl, seq<Action>) {
    var settled := Settle(c, es, now);
    Act(cfg, settled.(phase := NextPhase(cfg, settled)), ActiveLp(es), now)
  }
}
