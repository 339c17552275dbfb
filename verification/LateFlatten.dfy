/** A simulated run in which the controller breaches its floor, waits for any number of ticks, and only
    then sells what it holds. */
module LateFlatten {
  import opened Prelude
  import opened Bands
  import opened Executors
  import opened Controller
  import opened World
  import opened Simulation
  import opened Quiescence
  import Position

  /** Bands half as wide as their price, about a tenth of the bankroll in reserve. */
  const CFG: Config := Config(10.0, 0.89955, 5.0, 0.6, 300.0, 0.1, 1, 0.7, 0.4, true, 0.25, [],
                              Geometry(0.8, 0.01, 720.0, 50.0, 60.0, 1.0, 0.5, 50.0))

  /** After one price sample: no trend, no volatility, no cascade. */
  const CALM: Signals := Signals(0.0, 0.0, 0.0, 1)

  /** After a second, far lower one: falling, and a cascade. */
  const FALLING: Signals := Signals(0.95, -1.0, 0.0, 2)

  const START := 1000000.0

  /** The `k`-th tick comes ten seconds after the one before. */
  function At(k: nat): real { START + 10.0 * k as real }

  function SimAt(k: nat, price: real, obs: Obs): SimTick { SimTick(At(k), price, 0.25, 0.005, obs, 0.0) }

  function Seen(price: real): Obs { Pool(price, 0.25, "", if price == 2.0 then CALM else FALLING) }

  const BID: LpConfig := LpConfig(Buy, 0.9995, 1.999, 0.49975, 2.008995, 0.0, 8.9955)

  // ---------------------------------------------------------------- the four ticks to the floor

  lemma BidWidth()
    ensures Width(CFG.geometry, 0.0) == 0.5
  {
    assert HalfSpread(CFG.geometry, 0.0) == 0.01;
  }

  lemma BidCenter()
    ensures Center(CFG.geometry, 0.0, 0.0, 2.0, 0.0, 10.0) == 2.0
  {
    BidWidth();
    assert Skew(0.0, 10.0) == -1.0;
    CenterIs(CFG.geometry, 0.0, 0.0, 2.0, 0.0, 10.0);
    assert Risk(CFG.geometry, 0.0) == 0.0;
    assert Leaned(2.0, -1.0, 0.0, 0.5, 0.0) == 2.0;
  }

  const BAND: Band := Band(0.9995, 1.999, 0.49975, 2.008995)

  lemma BidPlace()
    ensures Place(CFG.geometry, Buy, 2.0, 2.0, 0.5) == BAND
  {
    assert Down(1.999, 0.5) == 0.9995 && Down(0.9995, 0.5) == 0.49975 && Up(1.999, 0.005) == 2.008995;
  }

  lemma BidBand()
    ensures MakeBand(CFG.geometry, Buy, 2.0, 0.0, 0.0, 0.0, 10.0) == BAND
  {
    BidWidth();
    BidCenter();
    BidPlace();
  }

  /** The controller as it flies with `current` as its position. */
  function Flier(current: Option<nat>): Ctrl {
    Ctrl(Flying, Some(2.0), true, CALM, current, None, NoFlatten, 0.0, 0.0, 0.0, Buy)
  }

  lemma FlierDeploys()
    ensures Equity(CFG, Flier(None)) == 10.0 && Deploy(CFG, Flier(None)) == 8.9955 && PickSide(CFG, Flier(None)) == Buy
  {
    assert Equity(CFG, Flier(None)) == 10.0;
    assert KellyShare(CFG, Flier(None)) == 8.9955 && Cap(CFG) == 50.0;
    assert Coverage(CFG, Flier(None)) == 0.0;
  }

  lemma FlierBuilds()
    ensures Price(Flier(None)) == 2.0 && Deploy(CFG, Flier(None)) == 8.9955
    ensures Build(CFG, Flier(None), Buy, BAND) == Some(BID)
  {
    FlierDeploys();
  }

  lemma FlierBand()
    ensures BandFor(CFG, Flier(None), Buy) == BAND
  {
    BidBand();
  }

  lemma Creates()
    ensures CreateConfig(CFG, Flier(None)) == (Flier(None), Some(BID))
  {
    FlierDeploys();
    FlierBand();
    FlierBuilds();
  }

  lemma Opens()
    ensures Act(CFG, Flier(None), None, At(1)) == (Flier(None), [CreateLp(BID)])
  {
    Creates();
  }

  function Executor1(): LpState { NewLp(0, BID, At(1), 0.0) }

  function World1(): World { World(At(1), Flier(None), [Lp(Executor1())], [Opened(0, At(1))], []) }

  lemma Input1()
    ensures ValidSim(Init(START), SimAt(1, 2.0, Seen(2.0)), 0.0)
    ensures Input(Init(START), SimAt(1, 2.0, Seen(2.0))) == Tick(At(1), [], Seen(2.0), 0.0)
  {
  }

  lemma Tick1()
    ensures var t := Tick(At(1), [], Seen(2.0), 0.0); TickTo(CFG, Init(START), t, [CreateLp(BID)], World1())
  {
    FirstDecision();
    OpeningTick(CFG, Init(START), Tick(At(1), [], Seen(2.0), 0.0), Flier(None), BID);
  }

  /** From `w` tick `t` emits `acts` and leads to `w'`. */
  predicate TickTo(cfg: Config, w: World, t: Tick, acts: seq<Action>, w': World) {
    Emits(cfg, w, t) == acts && Step(cfg, w, t) == w'
  }

  /** The tick in which the first position is created. */
  lemma OpeningTick(cfg: Config, w: World, t: Tick, ctrl: Ctrl, k: LpConfig)
    requires t.execs == [] && w.lpLog == [] && w.stops == [] && w.ctrl.current.None?
    ensures Decide(cfg, Observe(cfg, w.ctrl, t.obs), t.execs, t.now) == (ctrl, [CreateLp(k)]) ==>
      TickTo(cfg, w, t, [CreateLp(k)],
             World(t.now, ctrl, [Lp(NewLp(0, k, t.now, t.latency))], [Opened(0, t.now)], []))
  {
    ApplyOne([], CreateLp(k), t.now, t.latency);
  }

  /** A tick without actions, in which the position live before is live after or has just been settled. */
  lemma QuietTick(cfg: Config, w: World, t: Tick, ctrl: Ctrl)
    ensures Decide(cfg, Observe(cfg, w.ctrl, t.obs), t.execs, t.now) == (ctrl, []) ==>
      TickTo(cfg, w, t, [], World(t.now, ctrl, t.execs,
        w.lpLog + SettleEvents(Observe(cfg, w.ctrl, t.obs), ctrl, t.now), w.stops))
  {
    assert w.lpLog + SettleEvents(Observe(cfg, w.ctrl, t.obs), ctrl, t.now) + []
      == w.lpLog + SettleEvents(Observe(cfg, w.ctrl, t.obs), ctrl, t.now);
    assert w.stops + [] == w.stops;
  }

  lemma FirstDecision()
    ensures Decide(CFG, Observe(CFG, InitCtrl(), Seen(2.0)), [], At(1)) == (Flier(None), [CreateLp(BID)])
  {
    Warms();
    Opens();
    DecideBy(Observe(CFG, InitCtrl(), Seen(2.0)), [], At(1), Flier(None), None, (Flier(None), [CreateLp(BID)]));
  }

  lemma DecideBy(c: Ctrl, es: seq<Executor>, now: real, s: Ctrl, active: Option<nat>, r: (Ctrl, seq<Action>))
    requires s == Settle(c, es, now).(phase := NextPhase(CFG, Settle(c, es, now))) && active == ActiveLp(es)
    requires r == Act(CFG, s, active, now)
    ensures Decide(CFG, c, es, now) == r
  {
  }

  /** The first observation takes the controller from warming up to flying. */
  lemma Warms()
    ensures var s := Settle(Observe(CFG, InitCtrl(), Seen(2.0)), [], At(1));
      s.(phase := NextPhase(CFG, s)) == Flier(None)
  {
    var s := Settle(Observe(CFG, InitCtrl(), Seen(2.0)), [], At(1));
    assert Equity(CFG, s) == 10.0;
  }

  lemma ApplyOne(es: seq<Executor>, a: Action, now: real, latency: real)
    ensures ApplyAll(es, [a], now, latency) == Apply(es, a, now, latency)
  {
    assert Front([a]) == [];
  }

  function Executor2(): LpState { Executor1().(landed := true, lastPrice := Some(2.0)) }

  function World2(): World { World(At(2), Flier(Some(0)), [Lp(Executor2())], [Opened(0, At(1))], []) }

  /** While a position is live and nothing is observed, a flying controller does nothing. */
  lemma FlierWaits(current: Option<nat>, e: LpState, now: real)
    requires current in {None, Some(0)} && e.active && e.id == 0
    ensures Decide(CFG, Flier(current), [Lp(e)], now) == (Flier(Some(0)), [])
  {
    var c := Flier(current);
    assert ActiveLp([Lp(e)]) == Some(0) && Settle(c, [Lp(e)], now) == Flier(Some(0));
    assert Equity(CFG, Flier(Some(0))) == 10.0 && NextPhase(CFG, Flier(Some(0))) == Flying;
  }

  /** What a simulated tick hands to the controller when there is one position. */
  lemma InputOne(w: World, st: SimTick, e: LpState, e': LpState)
    requires w.execs == [Lp(e)] && Simulated(Lp(e)) && 0.0 < st.price
    requires StepLp(e, st.now, st.price, st.feePct) == e'
    ensures Ready(w.execs) && Input(w, st) == Tick(st.now, [Lp(e')], st.obs, st.latency)
  {
  }

  lemma Stepped2()
    ensures StepLp(Executor1(), At(2), 2.0, 0.25) == Executor2() && Simulated(Lp(Executor1()))
    ensures ValidSim(World1(), SimAt(2, 2.0, NoPool), 0.0)
  {
  }

  lemma Tick2()
    ensures TickTo(CFG, World1(), Tick(At(2), [Lp(Executor2())], NoPool, 0.0), [], World2())
  {
    FlierWaits(None, Executor2(), At(2));
    QuietTick(CFG, World1(), Tick(At(2), [Lp(Executor2())], NoPool, 0.0), Flier(Some(0)));
    assert World1().lpLog + [] == World2().lpLog;
  }

  function Executor3(): LpState {
    Executor2().(base := 6.0, quote := 0.0, lastPrice := Some(0.01), closingAt := Some(At(3) + AUTO_CLOSE_LATENCY))
  }

  function World3(): World { World(At(3), Flier(Some(0)), [Lp(Executor3())], [Opened(0, At(1))], []) }

  /** The executor after a step below its limit: all of its deposit has become `b` base, and it closes. */
  function Converted(e: LpState, st: SimTick, b: real): LpState {
    e.(base := b, quote := 0.0, lastPrice := Some(st.price), closingAt := Some(st.now + AUTO_CLOSE_LATENCY))
  }

  /** A landed bid whose price is at or below its limit, where `b` base at its middle price cost the
      deposit. */
  predicate Converts(e: LpState, st: SimTick, b: real) {
    && e.landed && e.active && e.closingAt.None? && Steppable(e.cfg)
    && e.cfg.baseAmount == 0.0 && 0.0 < e.cfg.quoteAmount && b * ((e.cfg.upper + e.cfg.lower) / 2.0) == e.cfg.quoteAmount
    && 0.0 < st.price <= e.cfg.lowerLimit && st.price < e.cfg.lower
  }

  lemma StepConverts(e: LpState, st: SimTick, b: real)
    requires Converts(e, st, b)
    ensures StepLp(e, st.now, st.price, st.feePct) == Converted(e, st, b)
  {
    HoldsBase(e.cfg, st.price, b);
    assert Accrued(e, Holdings(e.cfg, st.price), st.price, st.feePct) == 0.0;
  }

  lemma HoldsBase(cfg: LpConfig, p: real, b: real)
    requires Steppable(cfg) && cfg.baseAmount == 0.0 && 0.0 < cfg.quoteAmount && 0.0 < p <= cfg.lower
    requires b * ((cfg.upper + cfg.lower) / 2.0) == cfg.quoteAmount
    ensures Holdings(cfg, p) == Position.Holdings(b, 0.0)
  {
    assert Position.FracBelow(cfg.lower, cfg.upper, p) == 1.0;
    Quotient(b, (cfg.upper + cfg.lower) / 2.0, cfg.quoteAmount);
  }

  lemma Quotient(b: real, c: real, q: real)
    requires 0.0 < c && b * c == q
    ensures q / c == b
  {
    Position.CancelFactor(q / c, b, c);
  }

  lemma Valid3()
    ensures Simulated(Lp(Executor2())) && ValidSim(World2(), SimAt(3, 0.01, NoPool), 0.0)
    ensures Converts(Executor2(), SimAt(3, 0.01, NoPool), 6.0)
    ensures Converted(Executor2(), SimAt(3, 0.01, NoPool), 6.0) == Executor3()
  {
  }

  lemma Tick3()
    ensures TickTo(CFG, World2(), Tick(At(3), [Lp(Executor3())], NoPool, 0.0), [], World3())
  {
    FlierWaits(Some(0), Executor3(), At(3));
    QuietTick(CFG, World2(), Tick(At(3), [Lp(Executor3())], NoPool, 0.0), Flier(Some(0)));
    assert World2().lpLog + [] == World3().lpLog;
  }

  function Executor4(): LpState { Executor3().(active := false) }

  /** The controller after the floor is breached: six base, worth less than one quote unit. */
  function Fallen(): Ctrl {
    Ctrl(Ashes, Some(0.01), true, FALLING, None, None, NoFlatten, At(4), 6.0, -8.9955, Buy)
  }

  function World4(): World {
    World(At(4), Fallen(), [Lp(Executor4())], [Opened(0, At(1)), Settled(0, At(4))], [])
  }

  lemma Falls()
    ensures Decide(CFG, Observe(CFG, Flier(Some(0)), Seen(0.01)), [Lp(Executor4())], At(4)) == (Fallen(), [])
  {
    var c, es := Observe(CFG, Flier(Some(0)), Seen(0.01)), [Lp(Executor4())];
    assert c == Flier(Some(0)).(poolPrice := Some(0.01), signals := FALLING);
    assert ActiveLp(es[1..]) == None && ActiveLp(es) == None && Find(es, 0) == Some(es[0]);
    var s := Settle(c, es, At(4));
    assert s == Fallen().(phase := Flying);
    assert Equity(CFG, s) == 1.0645 && NextPhase(CFG, s) == Ashes;
    assert !WorthFlattening(Fallen());
  }

  lemma Stepped4()
    ensures StepLp(Executor3(), At(4), 0.01, 0.25) == Executor4() && Simulated(Lp(Executor3()))
    ensures ValidSim(World3(), SimAt(4, 0.01, Seen(0.01)), 0.0)
  {
  }

  lemma Tick4()
    ensures TickTo(CFG, World3(), Tick(At(4), [Lp(Executor4())], Seen(0.01), 0.0), [], World4())
  {
    Falls();
    QuietTick(CFG, World3(), Tick(At(4), [Lp(Executor4())], Seen(0.01), 0.0), Fallen());
    assert World3().lpLog + [Settled(0, At(4))] == World4().lpLog;
  }

  // ---------------------------------------------------------------- the run

  /** A simulated run of `n` ticks that ends in world `w`. */
  predicate Reaches(r: Trace, sts: seq<SimTick>, n: nat, w: World) {
    IsSimRun(CFG, r, sts, 0.0) && |sts| == n && r.worlds[n] == w
  }

  lemma GoOn(r: Trace, sts: seq<SimTick>, n: nat, w: World, st: SimTick, t: Tick, acts: seq<Action>, w': World)
    requires Reaches(r, sts, n, w) && Ready(w.execs) && ValidSim(w, st, 0.0)
    requires Input(w, st) == t && TickTo(CFG, w, t, acts, w')
    ensures Reaches(Extend(CFG, r, st), sts + [st], n + 1, w')
    ensures Extend(CFG, r, st).acts == r.acts + [acts] && r.worlds <= Extend(CFG, r, st).worlds
  {
    ExtendsRun(CFG, r, sts, 0.0, st);
  }

  lemma Run0()
    ensures Reaches(Trace([Init(START)], [], []), [], 0, Init(START))
  {
  }

  lemma Run1() returns (r: Trace, sts: seq<SimTick>)
    ensures Reaches(r, sts, 1, World1())
  {
    var st := SimAt(1, 2.0, Seen(2.0));
    Run0();
    Input1();
    Tick1();
    r, sts := Trace([Init(START)], [], []), [];
    GoOn(r, sts, 0, Init(START), st, Tick(At(1), [], Seen(2.0), 0.0), [CreateLp(BID)], World1());
    r, sts := Extend(CFG, r, st), sts + [st];
  }

  /** One more tick of a run with one position. */
  lemma GoOnOne(r: Trace, sts: seq<SimTick>, n: nat, w: World, st: SimTick, e: LpState, e': LpState,
                acts: seq<Action>, w': World) returns (r': Trace, sts': seq<SimTick>)
    requires Reaches(r, sts, n, w) && w.execs == [Lp(e)] && Simulated(Lp(e)) && ValidSim(w, st, 0.0)
    requires StepLp(e, st.now, st.price, st.feePct) == e'
    requires TickTo(CFG, w, Tick(st.now, [Lp(e')], st.obs, st.latency), acts, w')
    ensures Reaches(r', sts', n + 1, w') && r.worlds <= r'.worlds && r'.acts == r.acts + [acts]
  {
    InputOne(w, st, e, e');
    GoOn(r, sts, n, w, st, Tick(st.now, [Lp(e')], st.obs, st.latency), acts, w');
    r', sts' := Extend(CFG, r, st), sts + [st];
  }

  /** One more tick of a run with one position, below its limit. */
  lemma GoOnConverted(r: Trace, sts: seq<SimTick>, n: nat, w: World, st: SimTick, e: LpState, b: real,
                      acts: seq<Action>, w': World) returns (r': Trace, sts': seq<SimTick>)
    requires Reaches(r, sts, n, w) && w.execs == [Lp(e)] && Simulated(Lp(e)) && ValidSim(w, st, 0.0)
    requires Converts(e, st, b)
    requires TickTo(CFG, w, Tick(st.now, [Lp(Converted(e, st, b))], st.obs, st.latency), acts, w')
    ensures Reaches(r', sts', n + 1, w') && r.worlds <= r'.worlds && r'.acts == r.acts + [acts]
  {
    StepConverts(e, st, b);
    r', sts' := GoOnOne(r, sts, n, w, st, e, Converted(e, st, b), acts, w');
  }

  lemma ToTheFloor() returns (r: Trace, sts: seq<SimTick>)
    ensures Reaches(r, sts, 4, World4()) && r.worlds[3] == World3()
  {
    r, sts := Run1();
    r, sts := Run2(r, sts);
    r, sts := Run3(r, sts);
    Stepped4();
    Tick4();
    r, sts := GoOnOne(r, sts, 3, World3(), SimAt(4, 0.01, Seen(0.01)), Executor3(), Executor4(), [], World4());
  }

  lemma Run2(r: Trace, sts: seq<SimTick>) returns (r': Trace, sts': seq<SimTick>)
    requires Reaches(r, sts, 1, World1())
    ensures Reaches(r', sts', 2, World2())
  {
    Stepped2();
    Tick2();
    r', sts' := GoOnOne(r, sts, 1, World1(), SimAt(2, 2.0, NoPool), Executor1(), Executor2(), [], World2());
  }

  lemma Run3(r: Trace, sts: seq<SimTick>) returns (r': Trace, sts': seq<SimTick>)
    requires Reaches(r, sts, 2, World2())
    ensures Reaches(r', sts', 3, World3())
  {
    Valid3();
    Tick3();
    r', sts' := GoOnConverted(r, sts, 2, World2(), SimAt(3, 0.01, NoPool), Executor2(), 6.0, [], World3());
  }

  /** One more tick, at observed price `price`, of a run that has come down to six held base. */
  lemma OneMore(r: Trace, sts: seq<SimTick>, n: nat, w: World, price: real) returns (r': Trace, sts': seq<SimTick>, w': World)
    requires Reaches(r, sts, n, w) && HoldsInAshes(CFG, w, 6.0) && 0.0 < price
    ensures Reaches(r', sts', n + 1, w') && r.worlds <= r'.worlds
    ensures r'.acts == r.acts + [if WorthAt(6.0, price) then [CreateFlatten(6.0)] else []]
    ensures !WorthAt(6.0, price) ==> HoldsInAshes(CFG, w', 6.0)
  {
    SimRunInv(CFG, r, sts, 0.0, n);
    var st := SimTick(w.now + 10.0, 0.01, 0.25, 0.005, Seen(price), 0.0);
    SimTickValid(CFG, w, st, 0.0);
    AshesFlattensIff(CFG, w, Input(w, st));
    GoOn(r, sts, n, w, st, Input(w, st), Emits(CFG, w, Input(w, st)), Step(CFG, w, Input(w, st)));
    StepKeepsInv(CFG, w, Input(w, st));
    r', sts', w' := Extend(CFG, r, st), sts + [st], Step(CFG, w, Input(w, st));
  }

  lemma World4Holds()
    ensures HoldsInAshes(CFG, World4(), 6.0)
  {
    var r, sts := ToTheFloor();
    SimRunInv(CFG, r, sts, 0.0, 4);
  }

  /** After the fourth tick: `n` ticks without an action. */
  predicate Idles(r: Trace, n: nat) {
    |r.acts| == n + 4 && |r.worlds| == n + 5 && r.worlds[3] == World3() && r.worlds[4] == World4()
    && forall k :: 4 <= k < n + 4 ==> r.acts[k] == []
  }

  lemma {:induction false} IdleRun(n: nat) returns (r: Trace, sts: seq<SimTick>, w: World)
    ensures Reaches(r, sts, n + 4, w) && HoldsInAshes(CFG, w, 6.0) && Idles(r, n)
  {
    if n == 0 {
      r, sts := ToTheFloor();
      w := World4();
      World4Holds();
    } else {
      var r0, sts0, w0 := IdleRun(n - 1);
      r, sts, w := OneMore(r0, sts0, n + 3, w0, 0.01);
      assert r.worlds[3] == r0.worlds[3] && r.worlds[4] == r0.worlds[4];
    }
  }

  /** No bound in time, in a simulated run from the start: for every n there is a run that breaches the
      floor in its fourth tick, emits nothing for n ticks, and then sends the flatten. */
  lemma FlattenComesLate(n: nat) returns (r: Trace, sts: seq<SimTick>)
    ensures IsSimRun(CFG, r, sts, 0.0) && |sts| == n + 5
    ensures r.worlds[3].ctrl.phase == Flying && r.worlds[4].ctrl.phase == Ashes
    ensures (forall k :: 4 <= k < n + 4 ==> r.acts[k] == []) && r.acts[n + 4] == [CreateFlatten(6.0)]
  {
    var r0, sts0, w0 := IdleRun(n);
    var w;
    r, sts, w := OneMore(r0, sts0, n + 4, w0, 2.0);
    assert r.worlds[3] == r0.worlds[3] && r.worlds[4] == r0.worlds[4];
  }
}
