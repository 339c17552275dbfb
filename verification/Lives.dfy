/** Whole lives of the simulated executors: when a position left to itself lands, starts to close and ends,
    what it holds meanwhile, what it has earned, and what it leaves in the wallet. */
module Lives {
  import opened Prelude
  import opened Bands
  import opened Executors
  import Position

  /** The clock and the true price of one step. */
  datatype Moment = Moment(now: real, price: real)

  predicate Priced(ms: seq<Moment>) { forall i :: 0 <= i < |ms| ==> 0.0 < ms[i].price }

  /** The position after the first `n` moments. */
  function After(e: LpState, ms: seq<Moment>, n: nat, feePct: real): (r: LpState)
    requires n <= |ms| && Priced(ms) && Steppable(e.cfg)
    ensures r.cfg == e.cfg
  {
    if n == 0 then e else StepLp(After(e, ms, n - 1, feePct), ms[n - 1].now, ms[n - 1].price, feePct)
  }

  /** The clock has reached `t` in one of the first `n` moments. */
  predicate Reached(ms: seq<Moment>, t: real, n: nat)
    requires n <= |ms|
  {
    exists i :: 0 <= i < n && ms[i].now >= t
  }

  predicate OutOfLimits(cfg: LpConfig, p: real) { p <= cfg.lowerLimit || cfg.upperLimit <= p }

  /** At moment `b` the price is out of the limits of a position that landed before. */
  predicate Breach(cfg: LpConfig, ms: seq<Moment>, t: real, b: nat)
    requires b < |ms|
  {
    Reached(ms, t, b) && OutOfLimits(cfg, ms[b].price)
  }

  predicate Breached(cfg: LpConfig, ms: seq<Moment>, t: real, n: nat)
    requires n <= |ms|
  {
    exists b :: 0 <= b < n && Breach(cfg, ms, t, b)
  }

  predicate FirstBreach(cfg: LpConfig, ms: seq<Moment>, t: real, b: nat)
    requires b < |ms|
  {
    Breach(cfg, ms, t, b) && !Breached(cfg, ms, t, b)
  }

  /** Four seconds or more have passed since the first breach. */
  predicate Over(cfg: LpConfig, ms: seq<Moment>, t: real, n: nat)
    requires n <= |ms|
  {
    exists b, k :: 0 <= b < k < n && FirstBreach(cfg, ms, t, b) && ms[k].now >= ms[b].now + 4.0
  }

  lemma ReachedStep(ms: seq<Moment>, t: real, n: nat)
    requires n < |ms|
    ensures Reached(ms, t, n + 1) <==> Reached(ms, t, n) || ms[n].now >= t
  {
    if ms[n].now >= t { assert 0 <= n < n + 1; }
  }

  lemma BreachedStep(cfg: LpConfig, ms: seq<Moment>, t: real, n: nat)
    requires n < |ms|
    ensures Breached(cfg, ms, t, n + 1) <==> Breached(cfg, ms, t, n) || Breach(cfg, ms, t, n)
    ensures Breached(cfg, ms, t, n) ==> Reached(ms, t, n)
  {
    if Breached(cfg, ms, t, n) {
      var b :| 0 <= b < n && Breach(cfg, ms, t, b);
      assert Reached(ms, t, b);
    }
  }

  lemma {:induction false} FirstOf(cfg: LpConfig, ms: seq<Moment>, t: real, n: nat) returns (b: nat)
    requires n <= |ms| && Breached(cfg, ms, t, n)
    ensures b < n && FirstBreach(cfg, ms, t, b)
    ensures forall a :: 0 <= a < |ms| && FirstBreach(cfg, ms, t, a) ==> a == b
  {
    if Breached(cfg, ms, t, n - 1) {
      b := FirstOf(cfg, ms, t, n - 1);
    } else {
      BreachedStep(cfg, ms, t, n - 1);
      b := n - 1;
      forall a | 0 <= a < |ms| && FirstBreach(cfg, ms, t, a) ensures a == b {
        assert Breach(cfg, ms, t, a) && Breach(cfg, ms, t, b);
      }
    }
  }

  /** A position with first breach `b`, seen after `n` moments. */
  lemma OverStep(cfg: LpConfig, ms: seq<Moment>, t: real, n: nat, b: nat)
    requires b < n < |ms| && FirstBreach(cfg, ms, t, b)
    ensures Over(cfg, ms, t, n + 1) <==> Over(cfg, ms, t, n) || ms[n].now >= ms[b].now + 4.0
  {
    var first := FirstOf(cfg, ms, t, b + 1);
    if ms[n].now >= ms[b].now + 4.0 { assert 0 <= b < n < n + 1; }
  }

  lemma NotOver(cfg: LpConfig, ms: seq<Moment>, t: real, n: nat)
    requires n < |ms| && !Breached(cfg, ms, t, n)
    ensures !Over(cfg, ms, t, n) && !Over(cfg, ms, t, n + 1)
  {
  }

  /** One step of a position at price `p`, with what it holds there while it is live and the fee of the move. */
  function Stepped(e: LpState, now: real, p: real, h: Position.Holdings, fee: real): LpState {
    if !e.landed then
      if now >= e.opensAt then e.(landed := true, lastPrice := Some(p)) else e
    else if e.closingAt.Some? then
      if now >= e.closingAt.value then e.(active := false) else e
    else
      var e1 := e.(base := h.base, quote := h.quote, quoteFee := e.quoteFee + fee, lastPrice := Some(p));
      if p >= e.cfg.upperLimit || p <= e.cfg.lowerLimit then RequestClose(e1, now, AUTO_CLOSE_LATENCY) else e1
  }

  lemma StepIs(e: LpState, now: real, p: real, feePct: real)
    requires 0.0 < p && Steppable(e.cfg)
    ensures StepLp(e, now, p, feePct) == Stepped(e, now, p, Holdings(e.cfg, p), Accrued(e, Holdings(e.cfg, p), p, feePct))
  {
  }

  /** The states of a position before and after each moment; `hs` is what it would hold, live, at each price,
      and `fees` what it would earn. */
  predicate Life(es: seq<LpState>, ms: seq<Moment>, hs: seq<Position.Holdings>, fees: seq<real>) {
    && |es| == |ms| + 1 == |hs| + 1 == |fees| + 1
    && forall i :: 0 <= i < |ms| ==> StepAt(es, ms, hs, fees, i)
  }

  predicate StepAt(es: seq<LpState>, ms: seq<Moment>, hs: seq<Position.Holdings>, fees: seq<real>, i: nat)
    requires i < |ms| && |es| == |ms| + 1 == |hs| + 1 == |fees| + 1
  {
    es[i + 1] == Stepped(es[i], ms[i].now, ms[i].price, hs[i], fees[i])
  }

  /** How a position stands after `n` moments: landed once its latency has passed; closing from the first
      breach on, for four seconds, and then over, still holding what it held at the breach. */
  predicate Stands(e: LpState, ms: seq<Moment>, hs: seq<Position.Holdings>, n: nat)
    requires n <= |ms| == |hs|
  {
    && (e.landed <==> Reached(ms, e.opensAt, n))
    && (e.closingAt.Some? <==> Breached(e.cfg, ms, e.opensAt, n))
    && (forall b :: 0 <= b < n && FirstBreach(e.cfg, ms, e.opensAt, b) ==>
          e.closingAt == Some(ms[b].now + 4.0) && e.base == hs[b].base && e.quote == hs[b].quote)
    && (e.active <==> !Over(e.cfg, ms, e.opensAt, n))
    && (e.landed && e.closingAt.None? ==> n > 0 && e.lastPrice == Some(ms[n - 1].price))
    && e.baseFee == 0.0 && !e.failed
  }

  lemma StepStands(e: LpState, r: LpState, ms: seq<Moment>, hs: seq<Position.Holdings>, n: nat, fee: real)
    requires n < |ms| == |hs| && Stands(e, ms, hs, n) && r == Stepped(e, ms[n].now, ms[n].price, hs[n], fee)
    ensures Stands(r, ms, hs, n + 1) && r.cfg == e.cfg && r.opensAt == e.opensAt
  {
    var t, cfg := e.opensAt, e.cfg;
    ReachedStep(ms, t, n);
    BreachedStep(cfg, ms, t, n);
    if Breached(cfg, ms, t, n) {
      var b := FirstOf(cfg, ms, t, n);
      OverStep(cfg, ms, t, n, b);
    } else {
      NotOver(cfg, ms, t, n);
      if Breach(cfg, ms, t, n) { var b := FirstOf(cfg, ms, t, n + 1); }
    }
  }

  /** A position that nobody closes, through any prices and any clock: at every moment it stands as it
      should. */
  lemma {:induction false} LeftAlone(es: seq<LpState>, ms: seq<Moment>, hs: seq<Position.Holdings>, fees: seq<real>, n: nat)
    requires n <= |ms| && Life(es, ms, hs, fees) && Stands(es[0], ms, hs, 0)
    ensures Stands(es[n], ms, hs, n) && es[n].cfg == es[0].cfg && es[n].opensAt == es[0].opensAt
  {
    if n > 0 {
      LeftAlone(es, ms, hs, fees, n - 1);
      assert StepAt(es, ms, hs, fees, n - 1);
      StepStands(es[n - 1], es[n], ms, hs, n - 1, fees[n - 1]);
    }
  }

  function Composition(cfg: LpConfig, ms: seq<Moment>): (hs: seq<Position.Holdings>)
    requires Priced(ms) && Steppable(cfg)
    ensures |hs| == |ms|
  {
    seq(|ms|, i requires 0 <= i < |ms| => Holdings(cfg, ms[i].price))
  }

  /** The fee of the move to moment `n`. */
  function FeeAt(e: LpState, ms: seq<Moment>, n: nat, feePct: real): real
    requires n < |ms| && Priced(ms) && Steppable(e.cfg)
  {
    Accrued(After(e, ms, n, feePct), Holdings(e.cfg, ms[n].price), ms[n].price, feePct)
  }

  function Course(e: LpState, ms: seq<Moment>, feePct: real): (es: seq<LpState>)
    requires Priced(ms) && Steppable(e.cfg)
    ensures |es| == |ms| + 1
  {
    seq(|ms| + 1, n requires 0 <= n <= |ms| => After(e, ms, n, feePct))
  }

  function Earned(e: LpState, ms: seq<Moment>, feePct: real): (fees: seq<real>)
    requires Priced(ms) && Steppable(e.cfg)
    ensures |fees| == |ms|
  {
    seq(|ms|, n requires 0 <= n < |ms| => FeeAt(e, ms, n, feePct))
  }

  lemma CourseStep(e: LpState, ms: seq<Moment>, n: nat, feePct: real)
    requires n < |ms| && Priced(ms) && Steppable(e.cfg)
    ensures StepAt(Course(e, ms, feePct), ms, Composition(e.cfg, ms), Earned(e, ms, feePct), n)
  {
    assert After(e, ms, n + 1, feePct) == StepLp(After(e, ms, n, feePct), ms[n].now, ms[n].price, feePct);
    StepIs(After(e, ms, n, feePct), ms[n].now, ms[n].price, feePct);
  }

  lemma CourseIsLife(e: LpState, ms: seq<Moment>, feePct: real)
    requires Priced(ms) && Steppable(e.cfg)
    ensures Life(Course(e, ms, feePct), ms, Composition(e.cfg, ms), Earned(e, ms, feePct))
  {
    forall n | 0 <= n < |ms| ensures StepAt(Course(e, ms, feePct), ms, Composition(e.cfg, ms), Earned(e, ms, feePct), n) {
      CourseStep(e, ms, n, feePct);
    }
  }

  /** A position as it is created: running, and with nothing on its way. */
  predicate Fresh(e: LpState) {
    Steppable(e.cfg) && e.active && !e.failed && !e.landed && e.closingAt.None? && e.baseFee == 0.0
  }

  lemma NewIsFresh(id: nat, cfg: LpConfig, now: real, latency: real, amount: real)
    requires Steppable(cfg)
    ensures Fresh(NewLp(id, cfg, now, latency)) && NewLp(id, cfg, now, latency).opensAt == now + latency
    ensures var o := NewOrder(id, amount, now, latency); o.active && !o.failed && o.amount == amount && o.fillsAt == now + latency
  {
  }

  lemma Alone(e: LpState, ms: seq<Moment>, n: nat, feePct: real)
    requires n <= |ms| && Priced(ms) && Fresh(e)
    ensures var r := After(e, ms, n, feePct);
      Stands(r, ms, Composition(e.cfg, ms), n) && r.opensAt == e.opensAt && r.cfg == e.cfg
  {
    CourseIsLife(e, ms, feePct);
    LeftAlone(Course(e, ms, feePct), ms, Composition(e.cfg, ms), Earned(e, ms, feePct), n);
  }

  predicate Clock(ms: seq<Moment>) { forall i, j :: 0 <= i < j < |ms| ==> ms[i].now <= ms[j].now }

  /** It landed, was then found out of its limits, and four seconds have passed since. */
  predicate LandedLeftWaited(cfg: LpConfig, ms: seq<Moment>, t: real, l: nat, b: nat, k: nat) {
    l < b < k < |ms| && ms[l].now >= t && (ms[b].price <= cfg.lowerLimit || cfg.upperLimit <= ms[b].price)
    && ms[k].now >= ms[b].now + 4.0
  }

  ghost predicate Ended(cfg: LpConfig, ms: seq<Moment>, t: real) {
    exists l: nat, b: nat, k: nat :: LandedLeftWaited(cfg, ms, t, l, b, k)
  }

  /** On a clock that runs forward: a position is over exactly when it landed, was then found out of its
      limits, at the top or at the bottom, and four seconds have passed since. */
  lemma EndsIff(e: LpState, ms: seq<Moment>, feePct: real)
    requires Priced(ms) && Fresh(e) && Clock(ms)
    ensures !After(e, ms, |ms|, feePct).active <==> Ended(e.cfg, ms, e.opensAt)
  {
    Alone(e, ms, |ms|, feePct);
    OverIff(e.cfg, ms, e.opensAt);
  }

  lemma OverIff(cfg: LpConfig, ms: seq<Moment>, t: real)
    requires Clock(ms)
    ensures Over(cfg, ms, t, |ms|) <==> Ended(cfg, ms, t)
  {
    if Over(cfg, ms, t, |ms|) {
      var b, k :| 0 <= b < k < |ms| && FirstBreach(cfg, ms, t, b) && ms[k].now >= ms[b].now + 4.0;
      var l :| 0 <= l < b && ms[l].now >= t;
      assert LandedLeftWaited(cfg, ms, t, l, b, k);
    }
    if l: nat, b: nat, k: nat :| LandedLeftWaited(cfg, ms, t, l, b, k) {
      assert Reached(ms, t, b);
      assert Breach(cfg, ms, t, b);
      var a := FirstOf(cfg, ms, t, b + 1);
      assert ms[a].now <= ms[b].now;
      assert ms[k].now >= ms[a].now + 4.0;
    }
  }

  // ---------------------------------------------------------------- what it holds, earns and leaves

  /** What a position does with its amounts and fees at price `p`, after `q`: once it is live it holds `h`, and
      earns if the price is inside its band: its worth times the relative size of the move times twice the fee
      rate. Otherwise nothing changes. */
  predicate Earns(live: bool, e: LpState, r: LpState, h: Position.Holdings, q: real, p: real, feePct: real) {
    if !live then r.quoteFee == e.quoteFee && r.base == e.base && r.quote == e.quote
    else
      && r.base == h.base && r.quote == h.quote
      && if r.cfg.lower <= p <= r.cfg.upper
         then 50.0 * p * (r.quoteFee - e.quoteFee) == (h.quote + h.base * p) * (if p >= q then p - q else q - p) * feePct
         else r.quoteFee == e.quoteFee
  }

  lemma StepEarns(e: LpState, r: LpState, now: real, h: Position.Holdings, fee: real, q: real, p: real, feePct: real)
    requires r == Stepped(e, now, p, h, fee) && 0.0 < p && fee == Accrued(e, h, p, feePct)
    requires e.landed && e.closingAt.None? ==> e.lastPrice == Some(q)
    ensures Earns(e.landed && e.closingAt.None?, e, r, h, q, p, feePct)
  {
    if e.lastPrice == Some(q) && InRange(e.cfg, p) { MoveFee(Position.ValueAt(h, p), Abs(p - q), p, feePct, fee); }
  }

  lemma MoveFee(v: real, d: real, p: real, feePct: real, fee: real)
    requires 0.0 < p && fee == v * (d / p) * (feePct / 100.0) * 2.0
    ensures 50.0 * p * fee == v * d * feePct
  {
    var x := d / p;
    assert x * p == d;
    assert 50.0 * fee == v * x * feePct;
    assert p * (v * x * feePct) == v * (x * p) * feePct;
  }

  /** At every moment of its life a position earns as it should: it is live from its landing up to and with
      its first breach. */
  lemma EarnsAsDue(e: LpState, ms: seq<Moment>, n: nat, feePct: real)
    requires 0 < n < |ms| && Priced(ms) && Fresh(e)
    ensures Earns(Reached(ms, e.opensAt, n) && !Breached(e.cfg, ms, e.opensAt, n),
            After(e, ms, n, feePct), After(e, ms, n + 1, feePct), Holdings(e.cfg, ms[n].price), ms[n - 1].price, ms[n].price, feePct)
  {
    Alone(e, ms, n, feePct);
    EarnsAt(e, ms, n, feePct);
  }

  lemma EarnsAt(e: LpState, ms: seq<Moment>, n: nat, feePct: real)
    requires 0 < n < |ms| && Priced(ms) && Steppable(e.cfg)
    requires var r := After(e, ms, n, feePct); r.landed && r.closingAt.None? ==> r.lastPrice == Some(ms[n - 1].price)
    ensures var r := After(e, ms, n, feePct);
      Earns(r.landed && r.closingAt.None?, r, After(e, ms, n + 1, feePct), Holdings(e.cfg, ms[n].price), ms[n - 1].price, ms[n].price, feePct)
  {
    CourseStep(e, ms, n, feePct);
    StepEarns(After(e, ms, n, feePct), After(e, ms, n + 1, feePct), ms[n].now, Holdings(e.cfg, ms[n].price), FeeAt(e, ms, n, feePct), ms[n - 1].price, ms[n].price, feePct);
  }

  /** A finished position that holds `h`. */
  predicate Finished(e: LpState, cfg: LpConfig, h: Position.Holdings) {
    !e.active && !e.failed && e.baseFee == 0.0 && e.cfg == cfg && e.base == h.base && e.quote == h.quote
  }

  lemma StandsFinished(e: LpState, ms: seq<Moment>, hs: seq<Position.Holdings>, b: nat)
    requires |ms| == |hs| && Stands(e, ms, hs, |ms|) && b < |ms|
    requires FirstBreach(e.cfg, ms, e.opensAt, b) && Over(e.cfg, ms, e.opensAt, |ms|)
    ensures Finished(e, e.cfg, hs[b])
  {
  }

  /** The state that a finished position leaves for the wallet. */
  lemma Leaves(e: LpState, ms: seq<Moment>, b: nat, feePct: real)
    requires Priced(ms) && Fresh(e)
    requires b < |ms| && FirstBreach(e.cfg, ms, e.opensAt, b) && Over(e.cfg, ms, e.opensAt, |ms|)
    ensures Finished(After(e, ms, |ms|, feePct), e.cfg, Composition(e.cfg, ms)[b])
  {
    Alone(e, ms, |ms|, feePct);
    StandsFinished(After(e, ms, |ms|, feePct), ms, Composition(e.cfg, ms), b);
  }

  /** What a position that was funded with quote leaves in the wallet, by the price at which it was first found
      out of its limits: if that price is at or under the bottom of the band, base bought at the mean of the
      bounds with all of its quote; if it is at or over the top, its fees alone, and quote at that mean for
      whatever base it was given. */
  lemma BidLeaves(e: LpState, ms: seq<Moment>, b: nat, feePct: real)
    requires Priced(ms) && Fresh(e) && 0.0 < e.cfg.quoteAmount
    requires b < |ms| && FirstBreach(e.cfg, ms, e.opensAt, b) && Over(e.cfg, ms, e.opensAt, |ms|)
    ensures BidNet(After(e, ms, |ms|, feePct), ms[b].price)
  {
    Leaves(e, ms, b, feePct);
    BidNets(After(e, ms, |ms|, feePct), e.cfg, Composition(e.cfg, ms)[b], ms[b].price);
  }

  predicate BidNet(e: LpState, p: real) {
    && (e.cfg.upper <= p ==>
          && NetBase(Lp(e)) == -e.cfg.baseAmount
          && 2.0 * (NetQuote(Lp(e)) - e.quoteFee) == e.cfg.baseAmount * (e.cfg.upper + e.cfg.lower))
    && (p <= e.cfg.lower ==>
          && NetBase(Lp(e)) * (e.cfg.upper + e.cfg.lower) == 2.0 * e.cfg.quoteAmount
          && NetQuote(Lp(e)) == e.quoteFee - e.cfg.quoteAmount)
  }

  lemma BidNets(e: LpState, cfg: LpConfig, h: Position.Holdings, p: real)
    requires Steppable(cfg) && 0.0 < cfg.quoteAmount && 0.0 < p
    requires Finished(e, cfg, h) && h == Holdings(cfg, p)
    ensures BidNet(e, p)
  {
    DepositIs(cfg);
    Position.BidComposition(cfg.lower, cfg.upper, Deposit(cfg), p);
    if p <= cfg.lower { BoughtAtMean(h.base, cfg.baseAmount, cfg.quoteAmount, Deposit(cfg), cfg.upper + cfg.lower); }
  }

  lemma BoughtAtMean(base: real, initial: real, quote: real, deposit: real, sum: real)
    requires base * sum == 2.0 * deposit && 2.0 * (deposit - quote) == initial * sum
    ensures (base - initial) * sum == 2.0 * quote
  {
  }

  lemma DepositIs(cfg: LpConfig)
    ensures 2.0 * (Deposit(cfg) - cfg.quoteAmount) == cfg.baseAmount * (cfg.upper + cfg.lower)
  {
  }

  /** And one that was funded with base only: its fees alone at or under the bottom, and quote at the mean of
      the bounds for all of its base at or over the top. */
  lemma AskLeaves(e: LpState, ms: seq<Moment>, b: nat, feePct: real)
    requires Priced(ms) && Fresh(e) && e.cfg.quoteAmount == 0.0
    requires b < |ms| && FirstBreach(e.cfg, ms, e.opensAt, b) && Over(e.cfg, ms, e.opensAt, |ms|)
    ensures AskNet(After(e, ms, |ms|, feePct), ms[b].price)
  {
    Leaves(e, ms, b, feePct);
    AskNets(After(e, ms, |ms|, feePct), e.cfg, Composition(e.cfg, ms)[b], ms[b].price);
  }

  predicate AskNet(e: LpState, p: real) {
    && (p <= e.cfg.lower ==> NetBase(Lp(e)) == 0.0 && NetQuote(Lp(e)) == e.quoteFee)
    && (e.cfg.upper <= p ==>
          && NetBase(Lp(e)) == -e.cfg.baseAmount
          && 2.0 * (NetQuote(Lp(e)) - e.quoteFee) == e.cfg.baseAmount * (e.cfg.lower + e.cfg.upper))
  }

  lemma AskNets(e: LpState, cfg: LpConfig, h: Position.Holdings, p: real)
    requires Steppable(cfg) && cfg.quoteAmount == 0.0 && 0.0 < p
    requires Finished(e, cfg, h) && h == Holdings(cfg, p)
    ensures AskNet(e, p)
  {
    Position.AskComposition(cfg.lower, cfg.upper, cfg.baseAmount, p);
  }

  // ---------------------------------------------------------------- swaps

  function OrderAfter(e: OrderState, ms: seq<Moment>, n: nat, slippage: real): OrderState
    requires n <= |ms|
  {
    if n == 0 then e else StepOrder(OrderAfter(e, ms, n - 1, slippage), ms[n - 1].now, ms[n - 1].price, slippage)
  }

  /** A swap moves nothing until its latency has passed; at the first moment when it has, all of its amount
      is sold at the price less the slippage, and that is the end of it. */
  lemma {:induction false} SwapsOnce(e: OrderState, ms: seq<Moment>, n: nat, slippage: real)
    requires n <= |ms| && e.active && !e.failed
    ensures Swapped(OrderAfter(e, ms, n, slippage), e.amount, e.fillsAt, ms, n, slippage)
  {
    if n > 0 {
      SwapsOnce(e, ms, n - 1, slippage);
      SwapStep(OrderAfter(e, ms, n - 1, slippage), e.amount, e.fillsAt, ms, n - 1, slippage);
    }
  }

  predicate Swapped(e: OrderState, amount: real, t: real, ms: seq<Moment>, n: nat, slippage: real)
    requires n <= |ms|
  {
    && (e.active <==> !Reached(ms, t, n)) && e.fillsAt == t && e.amount == amount && !e.failed
    && (e.active ==> NetBase(Order(e)) == 0.0 && NetQuote(Order(e)) == 0.0)
    && forall i :: 0 <= i < n && ms[i].now >= t && !Reached(ms, t, i) ==>
         NetBase(Order(e)) == -amount && NetQuote(Order(e)) == Proceeds(amount, ms[i].price, slippage)
  }

  /** What `amount` fetches at price `p` less the slippage. */
  function Proceeds(amount: real, p: real, slippage: real): real { amount * (p - p * slippage) }

  lemma SwapStep(e: OrderState, amount: real, t: real, ms: seq<Moment>, n: nat, slippage: real)
    requires n < |ms| && Swapped(e, amount, t, ms, n, slippage)
    ensures Swapped(StepOrder(e, ms[n].now, ms[n].price, slippage), amount, t, ms, n + 1, slippage)
  {
    ReachedStep(ms, t, n);
    var p := ms[n].price;
    assert p * (1.0 - slippage) == p - p * slippage;
  }
}
