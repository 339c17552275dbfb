/** The controller in its environment. One tick: the clock advances, every executor evolves, the
    controller observes the pool, decides, and its actions are applied, so that an executor created
    in a tick is first visible in the next one. */
module World {
  import opened Prelude
  import opened Bands
  import opened Executors
  import opened Controller

  datatype LpEvent = Opened(id: nat, at: real) | Settled(id: nat, at: real)

  /** `lpLog` and `stops` record the run: positions opened and settled, and stop requests sent. */
  datatype World = World(now: real, ctrl: Ctrl, execs: seq<Executor>, lpLog: seq<LpEvent>, stops: seq<nat>)

  /** What the environment contributes to a tick: the time, the evolved executors, the pool
      observation, and the landing latency of the action emitted. */
  datatype Tick = Tick(now: real, execs: seq<Executor>, obs: Obs, latency: real)

  /** The start of a run, at clock time `now`. */
  function Init(now: real): World { World(now, InitCtrl(), [], [], []) }

  predicate ValidTick(w: World, t: Tick) {
    && w.now < t.now && 0.0 <= t.latency
    && (t.obs.Pool? ==> 0.0 < t.obs.price)
    && |t.execs| == |w.execs|
    && forall i :: 0 <= i < |t.execs| ==> Evolves(w.execs[i], t.execs[i], w.now)
  }

  // ---------------------------------------------------------------- the step

  function StopOne(e: Executor, id: nat, now: real, latency: real): Executor {
    if e.Lp? && e.lp.id == id then Lp(RequestClose(e.lp, now, latency)) else e
  }

  function Apply(es: seq<Executor>, a: Action, now: real, latency: real): seq<Executor> {
    match a
    case Stop(id) => seq(|es|, i requires 0 <= i < |es| => StopOne(es[i], id, now, latency))
    case CreateLp(cfg) => es + [Lp(NewLp(|es|, cfg, now, latency))]
    case CreateFlatten(amount) => es + [Order(NewOrder(|es|, amount, now, latency))]
  }

  function ApplyAll(es: seq<Executor>, acts: seq<Action>, now: real, latency: real): seq<Executor> {
    if acts == [] then es
    else Apply(ApplyAll(es, Front(acts), now, latency), Last(acts), now, latency)
  }

  function Emits(cfg: Config, w: World, t: Tick): seq<Action> {
    Decide(cfg, Observe(cfg, w.ctrl, t.obs), t.execs, t.now).1
  }

  function SettleEvents(before: Ctrl, after: Ctrl, now: real): seq<LpEvent> {
    if before.current.Some? && after.current.None? then [Settled(before.current.value, now)] else []
  }

  function OpenEvents(acts: seq<Action>, id: nat, now: real): seq<LpEvent> {
    if acts != [] && acts[0].CreateLp? then [Opened(id, now)] else []
  }

  function StopEvents(acts: seq<Action>): seq<nat> {
    if acts != [] && acts[0].Stop? then [acts[0].id] else []
  }

  function Step(cfg: Config, w: World, t: Tick): World {
    var observed := Observe(cfg, w.ctrl, t.obs);
    var (ctrl, acts) := Decide(cfg, observed, t.execs, t.now);
    World(t.now, ctrl, ApplyAll(t.execs, acts, t.now, t.latency),
          w.lpLog + SettleEvents(observed, ctrl, t.now) + OpenEvents(acts, |t.execs|, t.now),
          w.stops + StopEvents(acts))
  }

  // ---------------------------------------------------------------- the invariant

  predicate Indexed(es: seq<Executor>) { forall i :: 0 <= i < |es| ==> es[i].Id() == i }

  /** Only the newest executor may be running. */
  predicate Sequential(es: seq<Executor>) { forall i :: 0 <= i < |es| - 1 ==> !es[i].Active() }

  predicate Running(es: seq<Executor>) { |es| > 0 && Last(es).Active() }

  predicate RunningLp(es: seq<Executor>) { Running(es) && Last(es).Lp? }

  predicate RunningOrder(es: seq<Executor>) { Running(es) && Last(es).Order? }

  /** The controller's references point at the running executor and at nothing else. */
  predicate Tracks(c: Ctrl, es: seq<Executor>, now: real) {
    if RunningLp(es) then
      c.flatten == NoFlatten && (c.current == Some(|es| - 1) || (c.current == None && Last(es).Born() == now))
    else if RunningOrder(es) then
      c.current == None && c.flatten in {Pending, Flatten(|es| - 1)} && Last(es).order.amount == c.holdBase
    else c.current == None && c.flatten == NoFlatten
  }

  predicate Solvent(cfg: Config, c: Ctrl) { 0.0 <= c.holdBase && 0.0 <= cfg.totalAmountQuote + c.holdQuote }

  /** A position risks no more than the ledger holds while it runs. */
  predicate Funded(cfg: Config, c: Ctrl, es: seq<Executor>) {
    RunningLp(es) ==>
      Last(es).lp.cfg.baseAmount <= c.holdBase && Last(es).lp.cfg.quoteAmount <= cfg.totalAmountQuote + c.holdQuote
  }

  predicate LedgerExact(c: Ctrl, es: seq<Executor>) { c.holdBase == SumBase(es) && c.holdQuote == SumQuote(es) }

  predicate VenueInv(c: Ctrl, es: seq<Executor>) {
    && (c.venueChecked <==> c.poolPrice.Some?)
    && (c.poolPrice.Some? ==> 0.0 < c.poolPrice.value)
    && (!c.venueChecked ==> es == [] && c.phase != Ashes && c.phase != Vetoed)
    && (c.phase == Vetoed ==> es == [])
  }

  predicate ProperDeposit(cfg: LpConfig) { 0.0 <= cfg.baseAmount && 0.0 <= cfg.quoteAmount }

  predicate ExecsInv(es: seq<Executor>, now: real) {
    && Indexed(es) && Sequential(es)
    && forall i :: 0 <= i < |es| ==>
         && Sane(es[i]) && es[i].Born() <= now && (es[i].Born() == now ==> es[i].Active())
         && (es[i].Lp? ==> ProperDeposit(es[i].lp.cfg))
  }

  /** Consecutive log entries: a position is settled once, later than it was opened; the next
      one is newer and waits for the rebalance interval. */
  predicate Link(cfg: Config, a: LpEvent, b: LpEvent) {
    match (a, b)
    case (Opened(i, s), Settled(j, t)) => i == j && s < t
    case (Settled(i, s), Opened(j, t)) => i < j && t - s >= cfg.minRebalanceInterval
    case _ => false
  }

  predicate Alternates(cfg: Config, log: seq<LpEvent>) {
    && (log != [] ==> log[0].Opened?)
    && forall i :: 0 < i < |log| ==> Link(cfg, log[i - 1], log[i])
  }

  predicate LogInv(cfg: Config, c: Ctrl, es: seq<Executor>, log: seq<LpEvent>, now: real) {
    && Alternates(cfg, log)
    && (RunningLp(es) <==> log != [] && Last(log).Opened?)
    && (RunningLp(es) ==> Last(log).id == |es| - 1 && Last(log).at <= now)
    && (log != [] && Last(log).Settled? ==> Last(log).id < |es| && Last(log).at == c.lastClose)
  }

  /** Stop requests are distinct, and the ones still in force are for the running position. */
  predicate StopsInv(c: Ctrl, es: seq<Executor>, stops: seq<nat>) {
    && (forall i, j :: 0 <= i < j < |stops| ==> stops[i] != stops[j])
    && (forall i :: 0 <= i < |stops| ==> stops[i] < |es|)
    && (forall i :: 0 <= i < |stops| ==> !es[stops[i]].Active() || c.stopRequested == Some(stops[i]))
    && (c.stopRequested.Some? ==> c.stopRequested.value in stops)
  }

  predicate Inv(cfg: Config, w: World) {
    && ExecsInv(w.execs, w.now)
    && Tracks(w.ctrl, w.execs, w.now)
    && Solvent(cfg, w.ctrl) && Funded(cfg, w.ctrl, w.execs)
    && LedgerExact(w.ctrl, w.execs)
    && VenueInv(w.ctrl, w.execs)
    && LogInv(cfg, w.ctrl, w.execs, w.lpLog, w.now)
    && StopsInv(w.ctrl, w.execs, w.stops)
  }

  /** The configurations the claims are about: a bankroll that is not negative. */
  predicate CfgOk(cfg: Config) { 0.0 <= cfg.totalAmountQuote }

  // ---------------------------------------------------------------- lookups

  lemma {:induction false} FindAt(es: seq<Executor>, k: nat, id: nat)
    requires k < |es| && es[k].Id() == id && forall i :: 0 <= i < k ==> es[i].Id() != id
    ensures Find(es, id) == Some(es[k])
  {
    if k > 0 { FindAt(es[1..], k - 1, id); }
  }

  lemma {:induction false} ActiveLpIs(es: seq<Executor>)
    requires Sequential(es)
    ensures ActiveLp(es) == if RunningLp(es) then Some(Last(es).lp.id) else None
  {
    if |es| > 1 {
      assert Last(es[1..]) == Last(es);
      assert forall i :: 0 <= i < |es[1..]| - 1 ==> es[1..][i] == es[i + 1];
      ActiveLpIs(es[1..]);
    }
  }

  /** Evolution keeps a sequential book sequential: only its last executor can have changed. */
  lemma EvolvedBook(w: World, t: Tick)
    requires ExecsInv(w.execs, w.now) && ValidTick(w, t)
    ensures ExecsInv(t.execs, t.now)
    ensures t.execs != [] ==> Front(t.execs) == Front(w.execs)
    ensures Running(t.execs) ==> Running(w.execs)
    ensures t.execs != [] ==> (Last(t.execs).Lp? <==> Last(w.execs).Lp?)
  {
    forall i | 0 <= i < |t.execs|
      ensures t.execs[i].Id() == i && t.execs[i].Born() < t.now && Sane(t.execs[i])
      ensures t.execs[i].Lp? ==> ProperDeposit(t.execs[i].lp.cfg)
      ensures i < |t.execs| - 1 ==> t.execs[i] == w.execs[i]
    {
      assert Evolves(w.execs[i], t.execs[i], w.now);
    }
  }

  // ---------------------------------------------------------------- settlement

  lemma SettleRunningLp(c: Ctrl, es: seq<Executor>, now: real)
    requires Indexed(es) && Sequential(es) && RunningLp(es)
    requires c.flatten == NoFlatten && c.current in {None, Some(|es| - 1)}
    ensures Settle(c, es, now) == c.(current := Some(|es| - 1))
  {
    ActiveLpIs(es);
  }

  lemma SettleRunningOrder(c: Ctrl, es: seq<Executor>, now: real)
    requires Indexed(es) && Sequential(es) && RunningOrder(es)
    requires c.current == None && c.flatten in {Pending, Flatten(|es| - 1)}
    ensures Settle(c, es, now) == c.(flatten := Flatten(|es| - 1))
  {
    ActiveLpIs(es);
    FindAt(es, |es| - 1, |es| - 1);
    assert ResolvePending(c, es) == c.(flatten := Flatten(|es| - 1));
  }

  lemma SettleEndedLp(c: Ctrl, es: seq<Executor>, now: real)
    requires Indexed(es) && Sequential(es) && es != [] && !Running(es) && Last(es).Lp?
    requires c.flatten == NoFlatten && c.current == Some(|es| - 1)
    ensures Settle(c, es, now) == c.(current := None, lastClose := now,
      holdBase := c.holdBase + NetBase(Last(es)), holdQuote := c.holdQuote + NetQuote(Last(es)))
  {
    ActiveLpIs(es);
    FindAt(es, |es| - 1, |es| - 1);
    var c1 := c.(current := None, lastClose := now,
                 holdBase := c.holdBase + NetBase(Last(es)), holdQuote := c.holdQuote + NetQuote(Last(es)));
    assert Adopt(c, None) == c && SettleClosed(c, es, now) == c1 && SettleFlatten(c1, es) == c1;
  }

  lemma SettleEndedOrder(c: Ctrl, es: seq<Executor>, now: real)
    requires Indexed(es) && Sequential(es) && es != [] && !Running(es) && Last(es).Order?
    requires c.current == None && c.flatten in {Pending, Flatten(|es| - 1)}
    ensures Settle(c, es, now) == c.(flatten := NoFlatten,
      holdBase := c.holdBase + NetBase(Last(es)), holdQuote := c.holdQuote + NetQuote(Last(es)))
  {
    ActiveLpIs(es);
    FindAt(es, |es| - 1, |es| - 1);
    assert ResolvePending(c, es) == c.(flatten := Flatten(|es| - 1));
  }

  lemma SettleNothing(c: Ctrl, es: seq<Executor>, now: real)
    requires Sequential(es) && !Running(es) && c.current == None && c.flatten == NoFlatten
    ensures Settle(c, es, now) == c
  {
    ActiveLpIs(es);
  }

  /** What settling does: it names the running executor, or folds in the one that just ended. */
  lemma SettleOutcome(w: World, t: Tick, c: Ctrl)
    requires ExecsInv(w.execs, w.now) && ValidTick(w, t)
    requires Tracks(c, w.execs, w.now)
    ensures var s := Settle(c, t.execs, t.now);
      if RunningLp(t.execs) then s == c.(current := Some(|t.execs| - 1))
      else if RunningOrder(t.execs) then s == c.(flatten := Flatten(|t.execs| - 1))
      else
        s == c.(current := None, flatten := NoFlatten,
                holdBase := c.holdBase + (if Running(w.execs) then NetBase(Last(t.execs)) else 0.0),
                holdQuote := c.holdQuote + (if Running(w.execs) then NetQuote(Last(t.execs)) else 0.0),
                lastClose := if RunningLp(w.execs) then t.now else c.lastClose)
  {
    EvolvedBook(w, t);
    if t.execs != [] { assert Evolves(Last(w.execs), Last(t.execs), w.now); }
    if RunningLp(t.execs) {
      SettleRunningLp(c, t.execs, t.now);
    } else if RunningOrder(t.execs) {
      SettleRunningOrder(c, t.execs, t.now);
    } else if RunningLp(w.execs) {
      SettleEndedLp(c, t.execs, t.now);
    } else if RunningOrder(w.execs) {
      SettleEndedOrder(c, t.execs, t.now);
    } else {
      SettleNothing(c, t.execs, t.now);
    }
  }

  /** The ledger folds in exactly the executor that ended in this tick. */
  lemma SettleLedger(w: World, t: Tick, c: Ctrl)
    requires ExecsInv(w.execs, w.now) && ValidTick(w, t)
    requires Tracks(c, w.execs, w.now) && LedgerExact(c, w.execs)
    ensures LedgerExact(Settle(c, t.execs, t.now), t.execs)
  {
    SettleOutcome(w, t, c);
    EvolvedBook(w, t);
    if t.execs != [] {
      assert Evolves(Last(w.execs), Last(t.execs), w.now);
    }
  }

  lemma SettleSolvent(cfg: Config, w: World, t: Tick, c: Ctrl)
    requires ExecsInv(w.execs, w.now) && ValidTick(w, t)
    requires Tracks(c, w.execs, w.now) && Solvent(cfg, c) && Funded(cfg, c, w.execs)
    ensures var s := Settle(c, t.execs, t.now);
      && Solvent(cfg, s) && Funded(cfg, s, t.execs) && Tracks(s, t.execs, t.now)
  {
    SettleOutcome(w, t, c);
    EvolvedBook(w, t);
    if t.execs != [] {
      var e := Last(t.execs);
      assert Evolves(Last(w.execs), e, w.now);
      if e.Order? { MulNonNeg(e.order.executed, e.order.averagePrice); }
    }
  }

  // ---------------------------------------------------------------- actions

  /** A created position asks for no more than the wallet holds. */
  lemma CreatedConfig(cfg: Config, c: Ctrl)
    requires Solvent(cfg, c)
    ensures var k := CreateConfig(cfg, c).1;
      k.Some? ==>
        ProperDeposit(k.value) && Affordable(k.value, c.holdBase, cfg.totalAmountQuote + c.holdQuote, Cap(cfg), Price(c))
  {
    if CreateConfig(cfg, c).1.Some? {
      var side := PickSide(cfg, c);
      var k := Build(cfg, c, side, BandFor(cfg, c, side));
    }
  }

  /** With a sound geometry it has a proper band on the right side of the price. */
  lemma CreatedBand(cfg: Config, c: Ctrl)
    requires Sound(cfg.geometry)
    ensures var k := CreateConfig(cfg, c).1;
      k.Some? ==>
        WellFormed(k.value.side, Price(c), Band(k.value.lower, k.value.upper, k.value.lowerLimit, k.value.upperLimit))
  {
    if CreateConfig(cfg, c).1.Some? {
      var side := PickSide(cfg, c);
      var b := BandFor(cfg, c, side);
      var k := Build(cfg, c, side, b);
      assert WellFormed(side, Price(c), b);
    }
  }

  /** Where widths are not negative it has a band with a positive top, and an ask a positive bottom. */
  lemma CreatedTop(cfg: Config, c: Ctrl)
    requires Spreads(cfg.geometry)
    ensures var k := CreateConfig(cfg, c).1;
      k.Some? ==> k.value.lower < k.value.upper && 0.0 < k.value.upper && (k.value.side == Sell ==> 0.0 < k.value.lower)
  {
    if CreateConfig(cfg, c).1.Some? {
      var side := PickSide(cfg, c);
      var b := BandFor(cfg, c, side);
      var k := Build(cfg, c, side, b);
      assert b.lower < b.upper ==> 0.0 < b.upper && (side == Sell ==> 0.0 < b.lower);
    }
  }

  /** What a pass may do: at most one action, each kind only in its own situation. */
  predicate ActSpec(cfg: Config, c: Ctrl, es: seq<Executor>, now: real, c': Ctrl, acts: seq<Action>) {
    && |acts| <= 1
    && c' == c.(stopRequested := c'.stopRequested, flatten := c'.flatten, quoting := c'.quoting)
    && (acts == [] ==> c'.stopRequested == c.stopRequested && c'.flatten == c.flatten)
    && (acts != [] ==>
          match acts[0]
          case Stop(id) =>
            && RunningLp(es) && Halted(c.phase) && id == |es| - 1
            && c.stopRequested != Some(id) && c'.stopRequested == Some(id) && c'.flatten == c.flatten
          case CreateFlatten(amount) =>
            && !Running(es) && Halted(c.phase) && c.phase != Vetoed && amount == c.holdBase && 0.0 <= amount
            && c'.stopRequested == c.stopRequested && c'.flatten == Pending
          case CreateLp(k) =>
            && !Running(es) && c.phase == Flying && now - c.lastClose >= cfg.minRebalanceInterval
            && ProperDeposit(k) && k.baseAmount <= c.holdBase && k.quoteAmount <= cfg.totalAmountQuote + c.holdQuote
            && c'.stopRequested == c.stopRequested && c'.flatten == c.flatten)
  }

  lemma ActOutcome(cfg: Config, c: Ctrl, es: seq<Executor>, now: real)
    requires CfgOk(cfg) && ExecsInv(es, now) && Tracks(c, es, now) && Solvent(cfg, c)
    ensures var (c', acts) := Act(cfg, c, ActiveLp(es), now); ActSpec(cfg, c, es, now, c', acts)
    ensures var (c', acts) := Act(cfg, c, ActiveLp(es), now);
      && (RunningLp(es) ==> (acts == [] <==> !Halted(c.phase) || c.stopRequested == Some(|es| - 1)))
      && ((acts != [] && acts[0].CreateFlatten?) <==>
            ((c.phase == Ashes || c.phase == Perched) && cfg.panicFlatten && !Running(es) && WorthFlattening(c)))
      && (acts != [] && acts[0].CreateLp? ==> CreateConfig(cfg, c).1 == Some(acts[0].cfg) && c.poolPrice.Some?)
  {
    ActiveLpIs(es);
    CreatedConfig(cfg, c);
  }

  function Applied(es: seq<Executor>, acts: seq<Action>, now: real, latency: real): seq<Executor> {
    if acts == [] then es else Apply(es, acts[0], now, latency)
  }

  /** A tick in two parts: `s` is the controller settled and with its new phase, then it acts. */
  lemma StepParts(cfg: Config, w: World, t: Tick) returns (s: Ctrl, c': Ctrl, acts: seq<Action>)
    requires CfgOk(cfg) && Inv(cfg, w) && ValidTick(w, t)
    ensures var settled := Settle(Observe(cfg, w.ctrl, t.obs), t.execs, t.now);
      s == settled.(phase := NextPhase(cfg, settled))
    ensures ExecsInv(t.execs, t.now) && Tracks(s, t.execs, t.now)
    ensures Solvent(cfg, s) && Funded(cfg, s, t.execs) && LedgerExact(s, t.execs)
    ensures (c', acts) == Act(cfg, s, ActiveLp(t.execs), t.now) && acts == Emits(cfg, w, t)
    ensures ActSpec(cfg, s, t.execs, t.now, c', acts)
    ensures Step(cfg, w, t) == World(t.now, c', Applied(t.execs, acts, t.now, t.latency),
      w.lpLog + SettleEvents(Observe(cfg, w.ctrl, t.obs), s, t.now) + OpenEvents(acts, |t.execs|, t.now),
      w.stops + StopEvents(acts))
  {
    var c := Observe(cfg, w.ctrl, t.obs);
    var settled := Settle(c, t.execs, t.now);
    EvolvedBook(w, t);
    SettleSolvent(cfg, w, t, c);
    SettleLedger(w, t, c);
    s := settled.(phase := NextPhase(cfg, settled));
    ActOutcome(cfg, s, t.execs, t.now);
    var r := Act(cfg, s, ActiveLp(t.execs), t.now);
    c', acts := r.0, r.1;
    if acts != [] { assert Front(acts) == []; }
    assert ApplyAll(t.execs, acts, t.now, t.latency) == Applied(t.execs, acts, t.now, t.latency);
  }

  /** The shape of the book after one action. */
  lemma ApplyShape(cfg: Config, c: Ctrl, es: seq<Executor>, now: real, latency: real, c': Ctrl, acts: seq<Action>)
    requires Indexed(es) && ActSpec(cfg, c, es, now, c', acts) && acts != []
    ensures var es' := Applied(es, acts, now, latency);
      && |es'| == |es| + (if acts[0].Stop? then 0 else 1) && |es'| > 0
      && Front(es') == (if acts[0].Stop? then Front(es) else es)
      && (acts[0].Stop? ==> Last(es') == Lp(RequestClose(Last(es).lp, now, latency)))
      && (acts[0].CreateLp? ==> Last(es') == Lp(NewLp(|es|, acts[0].cfg, now, latency)))
      && (acts[0].CreateFlatten? ==> Last(es') == Order(NewOrder(|es|, acts[0].amount, now, latency)))
  {
    var es' := Applied(es, acts, now, latency);
    if acts[0].Stop? {
      forall i | 0 <= i < |es| ensures i < |es| - 1 ==> es'[i] == es[i] {
        assert es[i].Id() == i;
      }
      assert Front(es') == Front(es);
    } else {
      assert Front(es') == es;
    }
  }

  lemma ApplySums(cfg: Config, c: Ctrl, es: seq<Executor>, now: real, latency: real, c': Ctrl, acts: seq<Action>)
    requires Indexed(es) && ActSpec(cfg, c, es, now, c', acts) && acts != []
    ensures var es' := Applied(es, acts, now, latency); SumBase(es') == SumBase(es) && SumQuote(es') == SumQuote(es)
  {
    ApplyShape(cfg, c, es, now, latency, c', acts);
  }

  lemma ApplyExecs(cfg: Config, c: Ctrl, es: seq<Executor>, now: real, latency: real, c': Ctrl, acts: seq<Action>)
    requires ExecsInv(es, now) && ActSpec(cfg, c, es, now, c', acts) && acts != []
    ensures var es' := Applied(es, acts, now, latency);
      && ExecsInv(es', now)
      && |es'| == |es| + (if acts[0].Stop? then 0 else 1)
      && (forall i :: 0 <= i < |es| ==> es'[i].Active() == es[i].Active())
  {
    ApplyShape(cfg, c, es, now, latency, c', acts);
    var es' := Applied(es, acts, now, latency);
    forall i | 0 <= i < |es'|
      ensures i < |es'| - 1 ==> es'[i] == es[i]
      ensures i == |es'| - 1 ==> es'[i] == Last(es')
    {
      if i < |es'| - 1 { assert es'[i] == Front(es')[i]; }
    }
  }

  /** Applying one action keeps the book sequential and the ledger fold unchanged. */
  lemma ApplyBook(cfg: Config, c: Ctrl, es: seq<Executor>, now: real, latency: real, c': Ctrl, acts: seq<Action>)
    requires ExecsInv(es, now) && ActSpec(cfg, c, es, now, c', acts) && acts != []
    ensures var es' := Applied(es, acts, now, latency);
      && ExecsInv(es', now) && Running(es')
      && (RunningLp(es') <==> !acts[0].CreateFlatten?)
      && SumBase(es') == SumBase(es) && SumQuote(es') == SumQuote(es)
      && |es'| == |es| + (if acts[0].Stop? then 0 else 1)
      && (forall i :: 0 <= i < |es| ==> es'[i].Active() == es[i].Active())
      && (acts[0].Stop? ==> Last(es') == Lp(RequestClose(Last(es).lp, now, latency)))
      && (acts[0].CreateLp? ==> Last(es') == Lp(NewLp(|es|, acts[0].cfg, now, latency)))
      && (acts[0].CreateFlatten? ==> Last(es') == Order(NewOrder(|es|, acts[0].amount, now, latency)))
  {
    ApplyShape(cfg, c, es, now, latency, c', acts);
    ApplySums(cfg, c, es, now, latency, c', acts);
    ApplyExecs(cfg, c, es, now, latency, c', acts);
  }

  // ---------------------------------------------------------------- one tick keeps the invariant

  lemma ActKeepsBook(cfg: Config, c: Ctrl, es: seq<Executor>, now: real, latency: real, c': Ctrl, acts: seq<Action>)
    requires ExecsInv(es, now) && ActSpec(cfg, c, es, now, c', acts)
    requires Tracks(c, es, now) && Solvent(cfg, c) && Funded(cfg, c, es) && LedgerExact(c, es)
    ensures var es' := Applied(es, acts, now, latency);
      && ExecsInv(es', now) && Tracks(c', es', now)
      && Solvent(cfg, c') && Funded(cfg, c', es') && LedgerExact(c', es')
  {
    if acts != [] { ApplyBook(cfg, c, es, now, latency, c', acts); }
  }

  lemma AlternatesPush(cfg: Config, log: seq<LpEvent>, e: LpEvent)
    requires Alternates(cfg, log)
    requires if log == [] then e.Opened? else Link(cfg, Last(log), e)
    ensures Alternates(cfg, log + [e]) && Last(log + [e]) == e
  {
  }

  lemma SettleKeepsLog(cfg: Config, w: World, t: Tick, c: Ctrl)
    requires ExecsInv(w.execs, w.now) && ValidTick(w, t)
    requires Tracks(c, w.execs, w.now) && LogInv(cfg, c, w.execs, w.lpLog, w.now)
    ensures var s := Settle(c, t.execs, t.now);
      LogInv(cfg, s, t.execs, w.lpLog + SettleEvents(c, s, t.now), t.now)
  {
    SettleOutcome(w, t, c);
    EvolvedBook(w, t);
    var s := Settle(c, t.execs, t.now);
    if RunningLp(w.execs) {
      assert Evolves(Last(w.execs), Last(t.execs), w.now);
      if RunningLp(t.execs) {
        assert w.lpLog + SettleEvents(c, s, t.now) == w.lpLog;
      } else {
        AlternatesPush(cfg, w.lpLog, Settled(|w.execs| - 1, t.now));
      }
    } else {
      assert w.lpLog + SettleEvents(c, s, t.now) == w.lpLog;
    }
  }

  lemma PhaseKeepsLog(cfg: Config, c: Ctrl, s: Ctrl, s': Ctrl, es: seq<Executor>, log: seq<LpEvent>, now: real)
    requires s' == s.(phase := s'.phase)
    ensures LogInv(cfg, s, es, log + SettleEvents(c, s, now), now) ==>
      LogInv(cfg, s', es, log + SettleEvents(c, s', now), now)
  {
  }

  lemma ActKeepsLog(cfg: Config, c: Ctrl, es: seq<Executor>, log: seq<LpEvent>, now: real, latency: real,
                    c': Ctrl, acts: seq<Action>)
    requires ExecsInv(es, now) && ActSpec(cfg, c, es, now, c', acts) && LogInv(cfg, c, es, log, now)
    ensures LogInv(cfg, c', Applied(es, acts, now, latency), log + OpenEvents(acts, |es|, now), now)
  {
    if acts != [] { ApplyBook(cfg, c, es, now, latency, c', acts); }
    if acts != [] && acts[0].CreateLp? {
      if log != [] { assert Link(cfg, Last(log), Opened(|es|, now)); }
      AlternatesPush(cfg, log, Opened(|es|, now));
    } else {
      assert log + OpenEvents(acts, |es|, now) == log;
    }
  }

  lemma SettleKeepsStops(w: World, t: Tick, c: Ctrl)
    requires ExecsInv(w.execs, w.now) && ValidTick(w, t)
    requires Tracks(c, w.execs, w.now) && StopsInv(c, w.execs, w.stops)
    ensures StopsInv(Settle(c, t.execs, t.now), t.execs, w.stops)
  {
    SettleOutcome(w, t, c);
    forall i | 0 <= i < |w.stops|
      ensures !t.execs[w.stops[i]].Active() || c.stopRequested == Some(w.stops[i])
    {
      assert Evolves(w.execs[w.stops[i]], t.execs[w.stops[i]], w.now);
    }
  }

  lemma ActKeepsStops(cfg: Config, c: Ctrl, es: seq<Executor>, stops: seq<nat>, now: real, latency: real,
                      c': Ctrl, acts: seq<Action>)
    requires ExecsInv(es, now) && ActSpec(cfg, c, es, now, c', acts) && StopsInv(c, es, stops)
    ensures StopsInv(c', Applied(es, acts, now, latency), stops + StopEvents(acts))
  {
    if acts != [] { ApplyBook(cfg, c, es, now, latency, c', acts); }
    var es', stops' := Applied(es, acts, now, latency), stops + StopEvents(acts);
    if acts != [] && acts[0].Stop? {
      assert stops' == stops + [|es| - 1];
      assert |es| - 1 !in stops;
    } else {
      assert stops' == stops;
    }
  }

  lemma ActKeepsVenue(cfg: Config, c: Ctrl, es: seq<Executor>, now: real, latency: real, c': Ctrl, acts: seq<Action>)
    requires VenueInv(c, es) && ActSpec(cfg, c, es, now, c', acts)
    requires acts != [] ==> c.poolPrice.Some?
    ensures VenueInv(c', Applied(es, acts, now, latency))
  {
  }

  lemma StepKeepsBook(cfg: Config, w: World, t: Tick)
    requires CfgOk(cfg) && Inv(cfg, w) && ValidTick(w, t)
    ensures var w' := Step(cfg, w, t);
      && ExecsInv(w'.execs, w'.now) && Tracks(w'.ctrl, w'.execs, w'.now)
      && Solvent(cfg, w'.ctrl) && Funded(cfg, w'.ctrl, w'.execs) && LedgerExact(w'.ctrl, w'.execs)
  {
    var s, c', acts := StepParts(cfg, w, t);
    ActKeepsBook(cfg, s, t.execs, t.now, t.latency, c', acts);
  }

  lemma StepKeepsLog(cfg: Config, w: World, t: Tick)
    requires CfgOk(cfg) && Inv(cfg, w) && ValidTick(w, t)
    ensures var w' := Step(cfg, w, t); LogInv(cfg, w'.ctrl, w'.execs, w'.lpLog, w'.now)
  {
    var c := Observe(cfg, w.ctrl, t.obs);
    var s, c', acts := StepParts(cfg, w, t);
    SettleKeepsLog(cfg, w, t, c);
    PhaseKeepsLog(cfg, c, Settle(c, t.execs, t.now), s, t.execs, w.lpLog, t.now);
    ActKeepsLog(cfg, s, t.execs, w.lpLog + SettleEvents(c, s, t.now), t.now, t.latency, c', acts);
  }

  lemma StepKeepsStops(cfg: Config, w: World, t: Tick)
    requires CfgOk(cfg) && Inv(cfg, w) && ValidTick(w, t)
    ensures var w' := Step(cfg, w, t); StopsInv(w'.ctrl, w'.execs, w'.stops)
  {
    var s, c', acts := StepParts(cfg, w, t);
    SettleKeepsStops(w, t, Observe(cfg, w.ctrl, t.obs));
    ActKeepsStops(cfg, s, t.execs, w.stops, t.now, t.latency, c', acts);
  }

  /** Before the venue is known there is no price, hence no executor and no halt. */
  lemma SettleKeepsVenue(cfg: Config, w: World, t: Tick, s: Ctrl)
    requires Inv(cfg, w) && ValidTick(w, t)
    requires var settled := Settle(Observe(cfg, w.ctrl, t.obs), t.execs, t.now);
      s == settled.(phase := NextPhase(cfg, settled))
    ensures VenueInv(s, t.execs) && (t.execs != [] ==> s.poolPrice.Some?)
  {
    SettleOutcome(w, t, Observe(cfg, w.ctrl, t.obs));
  }

  lemma StepKeepsVenue(cfg: Config, w: World, t: Tick)
    requires CfgOk(cfg) && Inv(cfg, w) && ValidTick(w, t)
    ensures VenueInv(Step(cfg, w, t).ctrl, Step(cfg, w, t).execs)
  {
    var s, c', acts := StepParts(cfg, w, t);
    SettleKeepsVenue(cfg, w, t, s);
    ActOutcome(cfg, s, t.execs, t.now);
    ActKeepsVenue(cfg, s, t.execs, t.now, t.latency, c', acts);
  }

  /** Every tick of every environment keeps the invariant. */
  lemma StepKeepsInv(cfg: Config, w: World, t: Tick)
    requires CfgOk(cfg) && Inv(cfg, w) && ValidTick(w, t)
    ensures Inv(cfg, Step(cfg, w, t))
  {
    StepKeepsBook(cfg, w, t);
    StepKeepsVenue(cfg, w, t);
    StepKeepsLog(cfg, w, t);
    StepKeepsStops(cfg, w, t);
  }

  lemma InitInv(cfg: Config, now: real)
    requires CfgOk(cfg)
    ensures Inv(cfg, Init(now))
  {
  }

  // ---------------------------------------------------------------- runs

  /** A run: the worlds passed through, the ticks between them, and the actions of each tick. */
  datatype Trace = Trace(worlds: seq<World>, ticks: seq<Tick>, acts: seq<seq<Action>>)

  predicate Shaped(r: Trace) { |r.worlds| == |r.ticks| + 1 && |r.acts| == |r.ticks| }

  predicate Follows(cfg: Config, r: Trace, k: nat)
    requires Shaped(r) && k < |r.ticks|
  {
    && ValidTick(r.worlds[k], r.ticks[k])
    && r.acts[k] == Emits(cfg, r.worlds[k], r.ticks[k])
    && r.worlds[k + 1] == Step(cfg, r.worlds[k], r.ticks[k])
  }

  predicate IsRun(cfg: Config, r: Trace) {
    && CfgOk(cfg) && Shaped(r) && r.worlds[0] == Init(r.worlds[0].now)
    && forall k :: 0 <= k < |r.ticks| ==> Follows(cfg, r, k)
  }

  /** Tick `k` creates a position. */
  predicate Creates(r: Trace, k: nat)
    requires k < |r.acts|
  {
    r.acts[k] != [] && r.acts[k][0].CreateLp?
  }

  lemma {:induction false} RunInv(cfg: Config, r: Trace, k: nat)
    requires IsRun(cfg, r) && k < |r.worlds|
    ensures Inv(cfg, r.worlds[k])
  {
    if k == 0 {
      InitInv(cfg, r.worlds[0].now);
    } else {
      RunInv(cfg, r, k - 1);
      assert Follows(cfg, r, k - 1);
      StepKeepsInv(cfg, r.worlds[k - 1], r.ticks[k - 1]);
    }
  }

  lemma TickAt(cfg: Config, r: Trace, k: nat)
    requires IsRun(cfg, r) && k < |r.ticks|
    ensures Inv(cfg, r.worlds[k]) && ValidTick(r.worlds[k], r.ticks[k])
    ensures r.worlds[k + 1] == Step(cfg, r.worlds[k], r.ticks[k]) && Inv(cfg, r.worlds[k + 1])
    ensures r.acts[k] == Emits(cfg, r.worlds[k], r.ticks[k])
  {
    RunInv(cfg, r, k);
    RunInv(cfg, r, k + 1);
    assert Follows(cfg, r, k);
  }
}
