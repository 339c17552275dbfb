/** The executors the Phoenix controller drives: what the controller can see of them, how any
    executor may evolve between two ticks, and the simulated executors as one instance. */
module Executors {
  import opened Prelude
  import opened Bands
  import Position

  datatype LpConfig = LpConfig(side: Side, lower: real, upper: real, lowerLimit: real, upperLimit: real,
                               baseAmount: real, quoteAmount: real)

  /** `active` is is_active; a running executor is active and a terminated one is not.
      `failed` is close_type == FAILED. */
  datatype LpState = LpState(
    id: nat, born: real, active: bool, failed: bool,
    cfg: LpConfig, opensAt: real, landed: bool, closingAt: Option<real>,
    base: real, quote: real, baseFee: real, quoteFee: real, lastPrice: Option<real>)

  datatype OrderState = OrderState(
    id: nat, born: real, active: bool, failed: bool,
    amount: real, fillsAt: real, executed: real, averagePrice: real)

  datatype Executor = Lp(lp: LpState) | Order(order: OrderState) {
    function Id(): nat { if Lp? then lp.id else order.id }
    function Born(): real { if Lp? then lp.born else order.born }
    predicate Active() { if Lp? then lp.active else order.active }
    predicate Failed() { if Lp? then lp.failed else order.failed }
  }

  function NewLp(id: nat, cfg: LpConfig, now: real, latency: real): LpState {
    LpState(id, now, true, false, cfg, now + latency, false, None, cfg.baseAmount, cfg.quoteAmount, 0.0, 0.0, None)
  }

  function NewOrder(id: nat, amount: real, now: real, latency: real): OrderState {
    OrderState(id, now, true, false, amount, now + latency, 0.0, 0.0)
  }

  function RequestClose(e: LpState, now: real, latency: real): LpState {
    if e.closingAt.None? && e.active then e.(closingAt := Some(now + latency)) else e
  }

  // ---------------------------------------------------------------- any executor

  /** Amounts and fees are never negative, and a swap sells at most its order amount. */
  predicate Sane(e: Executor) {
    match e
    case Lp(x) => 0.0 <= x.base && 0.0 <= x.quote && 0.0 <= x.baseFee && 0.0 <= x.quoteFee
    case Order(x) => 0.0 <= x.executed <= x.amount && 0.0 <= x.averagePrice
  }

  /** What may happen to an executor from a tick at time `now` to the next one. A terminated
      executor is frozen; a position created in the tick at `now` is still running when the
      controller first sees it; everything else (failing, partial fills, any amounts) is open. */
  predicate Evolves(e: Executor, e': Executor, now: real) {
    && e'.Id() == e.Id() && e'.Born() == e.Born()
    && (e.Lp? ==> e'.Lp? && e'.lp.cfg == e.lp.cfg)
    && (e.Order? ==> e'.Order? && e'.order.amount == e.order.amount)
    && Sane(e')
    && (!e.Active() ==> e' == e)
    && (e.Lp? && e.Born() == now ==> e'.Active())
  }

  /** What a terminated executor changed in the wallet; nothing while it runs or if it failed. */
  function NetBase(e: Executor): real {
    if e.Active() || e.Failed() then 0.0
    else match e
      case Lp(x) => x.base + x.baseFee - x.cfg.baseAmount
      case Order(x) => -x.executed
  }

  function NetQuote(e: Executor): real {
    if e.Active() || e.Failed() then 0.0
    else match e
      case Lp(x) => x.quote + x.quoteFee - x.cfg.quoteAmount
      case Order(x) => x.executed * x.averagePrice
  }

  /** The fold of the wallet changes over a whole executor history. */
  function SumBase(es: seq<Executor>): real {
    if es == [] then 0.0 else SumBase(Front(es)) + NetBase(Last(es))
  }

  function SumQuote(es: seq<Executor>): real {
    if es == [] then 0.0 else SumQuote(Front(es)) + NetQuote(Last(es))
  }

  // ---------------------------------------------------------------- simulated executors

  const AUTO_CLOSE_LATENCY := 4.0

  predicate InRange(cfg: LpConfig, p: real) { cfg.lower <= p <= cfg.upper }

  /** What a bid has to convert, in quote. */
  function Deposit(cfg: LpConfig): real { cfg.quoteAmount + cfg.baseAmount * (cfg.upper + cfg.lower) / 2.0 }

  function Holdings(cfg: LpConfig, p: real): Position.Holdings
    requires cfg.lower < cfg.upper && 0.0 < cfg.upper && 0.0 < p
  {
    if cfg.quoteAmount > 0.0 then Position.BidHoldings(cfg.lower, cfg.upper, Deposit(cfg), p)
    else Position.AskHoldings(cfg.lower, cfg.upper, cfg.baseAmount, p)
  }

  /** The fee earned when the price moves inside the band. */
  function Accrued(e: LpState, h: Position.Holdings, p: real, feePct: real): real
    requires 0.0 < p
  {
    if InRange(e.cfg, p) && e.lastPrice.Some?
    then Position.ValueAt(h, p) * (Abs(p - e.lastPrice.value) / p) * (feePct / 100.0) * 2.0
    else 0.0
  }

  function StepLp(e: LpState, now: real, p: real, feePct: real): LpState
    requires 0.0 < p && e.cfg.lower < e.cfg.upper && 0.0 < e.cfg.upper
  {
    if !e.landed then
      if now >= e.opensAt then e.(landed := true, lastPrice := Some(p)) else e
    else if e.closingAt.Some? then
      if now >= e.closingAt.value then e.(active := false) else e
    else
      var h := Holdings(e.cfg, p);
      var e1 := e.(base := h.base, quote := h.quote, quoteFee := e.quoteFee + Accrued(e, h, p, feePct),
                   lastPrice := Some(p));
      if p >= e.cfg.upperLimit || p <= e.cfg.lowerLimit then RequestClose(e1, now, AUTO_CLOSE_LATENCY) else e1
  }

  /** A market swap fills completely, once, at the true price less slippage. */
  function StepOrder(e: OrderState, now: real, p: real, slippage: real): OrderState {
    if e.active && now >= e.fillsAt
    then e.(active := false, executed := e.amount, averagePrice := p * (1.0 - slippage))
    else e
  }

  /** A position config the simulation can step: a band whose top is positive, non-negative deposits, and
      a positive bottom as well unless the deposit is all quote. */
  predicate Steppable(cfg: LpConfig) {
    && cfg.lower < cfg.upper && 0.0 < cfg.upper && 0.0 <= cfg.baseAmount && 0.0 <= cfg.quoteAmount
    && (0.0 < cfg.lower || (cfg.baseAmount == 0.0 && 0.0 < cfg.quoteAmount))
  }

  function StepExecutor(e: Executor, now: real, p: real, feePct: real, slippage: real): Executor
    requires 0.0 < p && (e.Lp? ==> Steppable(e.lp.cfg))
  {
    match e
    case Lp(x) => Lp(StepLp(x, now, p, feePct))
    case Order(x) => Order(StepOrder(x, now, p, slippage))
  }

  lemma DepositNonNegative(cfg: LpConfig)
    requires Steppable(cfg)
    ensures 0.0 <= Deposit(cfg)
  {
    if 0.0 < cfg.lower { MulNonNeg(cfg.baseAmount, cfg.upper + cfg.lower); }
  }

  lemma HoldingsNonNegative(cfg: LpConfig, p: real)
    requires Steppable(cfg) && 0.0 < p
    ensures 0.0 <= Holdings(cfg, p).base && 0.0 <= Holdings(cfg, p).quote
  {
    if cfg.quoteAmount > 0.0 {
      DepositNonNegative(cfg);
      Position.BidHoldingsNonNegative(cfg.lower, cfg.upper, Deposit(cfg), p);
    } else {
      Position.AskHoldingsNonNegative(cfg.lower, cfg.upper, cfg.baseAmount, p);
    }
  }

  lemma AccruedNonNegative(e: LpState, h: Position.Holdings, p: real, feePct: real)
    requires 0.0 < p && 0.0 <= feePct && 0.0 <= h.base && 0.0 <= h.quote
    ensures 0.0 <= Accrued(e, h, p, feePct)
  {
    if InRange(e.cfg, p) && e.lastPrice.Some? {
      var v, t := Position.ValueAt(h, p), Abs(p - e.lastPrice.value) / p;
      MulNonNeg(h.base, p);
      DivNonNeg(Abs(p - e.lastPrice.value), p);
      MulNonNeg(v, t);
      MulNonNeg(v * t, feePct / 100.0);
    }
  }

  /** What a simulated executor satisfies between ticks. A terminated position has landed and
      has a close time in the past of its termination, so stepping it again changes nothing. */
  predicate Simulated(e: Executor) {
    && Sane(e)
    && (e.Lp? ==> Steppable(e.lp.cfg) && (!e.lp.active ==> e.lp.landed && e.lp.closingAt.Some?))
  }

  /** Simulated executors are one instance of the general evolution. */
  lemma SimEvolves(e: Executor, before: real, now: real, p: real, feePct: real, slippage: real)
    requires Simulated(e)
    requires e.Lp? && e.lp.born == before ==> e.lp.active && !e.lp.landed
    requires 0.0 < p && 0.0 <= feePct && 0.0 <= slippage <= 1.0
    ensures Evolves(e, StepExecutor(e, now, p, feePct, slippage), before)
    ensures Simulated(StepExecutor(e, now, p, feePct, slippage))
  {
    match e
    case Order(x) =>
      MulNonNeg(p, 1.0 - slippage);
    case Lp(x) =>
      HoldingsNonNegative(x.cfg, p);
      AccruedNonNegative(x, Holdings(x.cfg, p), p, feePct);
  }
}
