/** The paper-trading harness on the heap: mutable executor objects, a controller object and the
    tick loop, proved to run the simulated world of module Simulation. */
module HarnessHeap {
  import opened Prelude
  import opened Bands
  import opened Executors
  import opened Controller
  import opened World
  import opened Simulation
  import opened Phoenix
  import Position

  const SLIPPAGE := 0.005

  class SimLPExecutor {
    const id: nat
    const born: real
    const cfg: LpConfig
    const opensAt: real
    var landed: bool
    var closingAt: Option<real>
    var isActive: bool
    var base: real
    var quote: real
    var quoteFee: real
    var lastPrice: Option<real>

    function View(): LpState
      reads this
    {
      LpState(id, born, isActive, false, cfg, opensAt, landed, closingAt, base, quote, 0.0, quoteFee, lastPrice)
    }

    constructor (id: nat, cfg: LpConfig, now: real, latency: real)
      ensures View() == NewLp(id, cfg, now, latency)
    {
      this.id, this.born, this.cfg, this.opensAt := id, now, cfg, now + latency;
      landed, closingAt, isActive := false, None, true;
      base, quote, quoteFee, lastPrice := cfg.baseAmount, cfg.quoteAmount, 0.0, None;
    }

    method Close(now: real, latency: real)
      modifies this
      ensures View() == RequestClose(old(View()), now, latency)
    {
      if closingAt == None && isActive {
        closingAt := Some(now + latency);
      }
    }

    method Step(now: real, p: real, feePct: real)
      requires 0.0 < p && Steppable(cfg)
      modifies this
      ensures View() == StepLp(old(View()), now, p, feePct)
    {
      if !landed {
        if now >= opensAt {
          landed, lastPrice := true, Some(p);
        }
        return;
      }
      if closingAt.Some? {
        if now >= closingAt.value {
          isActive := false;
        }
        return;
      }
      Convert(p, feePct);
      if p >= cfg.upperLimit || p <= cfg.lowerLimit {
        Close(now, AUTO_CLOSE_LATENCY);
      }
    }

    /** Recompute the composition at the new price and accrue the fee for the move. */
    method Convert(p: real, feePct: real)
      requires 0.0 < p && Steppable(cfg)
      modifies this
      ensures var (e, h) := (old(View()), Holdings(cfg, p));
        View() == e.(base := h.base, quote := h.quote, quoteFee := e.quoteFee + Accrued(e, h, p, feePct),
                     lastPrice := Some(p))
    {
      var h := Holdings(cfg, p);
      quoteFee := quoteFee + Accrued(View(), h, p, feePct);
      base, quote, lastPrice := h.base, h.quote, Some(p);
    }
  }

  class SimOrderExecutor {
    const id: nat
    const born: real
    const amount: real
    const fillsAt: real
    var isActive: bool
    var executedPrice: real

    function View(): OrderState
      reads this
    {
      OrderState(id, born, isActive, false, amount, fillsAt, if isActive then 0.0 else amount, executedPrice)
    }

    constructor (id: nat, amount: real, now: real, latency: real)
      ensures View() == NewOrder(id, amount, now, latency)
    {
      this.id, this.born, this.amount, this.fillsAt := id, now, amount, now + latency;
      isActive, executedPrice := true, 0.0;
    }

    method Step(now: real, p: real)
      modifies this
      ensures View() == StepOrder(old(View()), now, p, SLIPPAGE)
    {
      if isActive && now >= fillsAt {
        executedPrice, isActive := p * (1.0 - SLIPPAGE), false;
      }
    }
  }

  datatype Slot = LpSlot(lp: SimLPExecutor) | OrderSlot(order: SimOrderExecutor) {
    function Obj(): object { if LpSlot? then lp else order }

    function View(): Executor
      reads Obj()
    {
      if LpSlot? then Lp(lp.View()) else Order(order.View())
    }
  }

  /** The slots hold pairwise distinct objects, all of them in `repr`. */
  ghost predicate Owned(slots: seq<Slot>, repr: set<object>) {
    && (forall i :: 0 <= i < |slots| ==> slots[i].Obj() in repr)
    && forall i, j :: 0 <= i < j < |slots| ==> slots[i].Obj() != slots[j].Obj()
  }

  /** The executors as values, in list order. */
  function Views(slots: seq<Slot>, ghost repr: set<object>): (es: seq<Executor>)
    requires forall i :: 0 <= i < |slots| ==> slots[i].Obj() in repr
    reads repr
    ensures |es| == |slots| && forall i :: 0 <= i < |slots| ==> es[i] == slots[i].View()
  {
    if slots == [] then [] else Views(Front(slots), repr) + [Last(slots).View()]
  }

  /** One market move handed to the loop: the true price and what the controller gets to see. */
  datatype Market = Market(price: real, obs: Obs)

  predicate ValidMarket(m: Market) { 0.0 < m.price && (m.obs.Pool? ==> 0.0 < m.obs.price) }

  class Harness {
    const feePct: real
    const actionLatency: real
    var now: real
    const ctrl: PhoenixLP
    var executors: seq<Slot>
    // The executor objects of the harness.
    ghost var repr: set<object>
    // The run so far, as the value-level simulation sees it.
    ghost var trace: Trace
    ghost var ticks: seq<SimTick>

    ghost predicate Valid()
      reads this, ctrl, repr
    {
      && 0.0 <= feePct && 0.0 <= actionLatency
      && Owned(executors, repr) && ctrl !in repr && this !in repr
      && IsSimRun(ctrl.config, trace, ticks, actionLatency)
      && var w := Last(trace.worlds); w.now == now && w.ctrl == ctrl.State() && w.execs == Views(executors, repr)
    }

    constructor (config: Config, feePct: real, actionLatency: real)
      requires CfgOk(config) && Spreads(config.geometry) && 0.0 <= feePct && 0.0 <= actionLatency
      ensures Valid() && fresh(ctrl) && executors == [] && ctrl.config == config && now == 1000000.0 && ticks == []
    {
      this.feePct, this.actionLatency, now := feePct, actionLatency, 1000000.0;
      ctrl := new PhoenixLP(config);
      executors, repr := [], {};
      trace, ticks := Trace([Init(1000000.0)], [], []), [];
    }

    /** Step every executor, once each, against the true price. */
    method StepExecutors(m: Market)
      requires Owned(executors, repr) && ctrl !in repr && this !in repr && ValidMarket(m)
      requires Ready(Views(executors, repr))
      modifies repr
      ensures Views(executors, repr) == StepAll(old(Views(executors, repr)), SimTick(now, m.price, feePct, SLIPPAGE, m.obs, actionLatency))
    {
      ghost var before := Views(executors, repr);
      ghost var st := SimTick(now, m.price, feePct, SLIPPAGE, m.obs, actionLatency);
      for i := 0 to |executors|
        invariant forall j :: 0 <= j < i ==> executors[j].View() == StepExecutor(before[j], now, m.price, feePct, SLIPPAGE)
        invariant forall j :: i <= j < |executors| ==> executors[j].View() == before[j]
      {
        assert executors[i].Obj() in repr;
        assert Simulated(before[i]);
        match executors[i]
        case LpSlot(lp) => lp.Step(now, m.price, feePct);
        case OrderSlot(order) => order.Step(now, m.price);
      }
    }

    /** Apply one action of the controller: request a close, or append a new executor. */
    method ApplyAction(a: Action)
      requires Owned(executors, repr) && ctrl !in repr && this !in repr
      modifies this`executors, this`repr, repr
      ensures Owned(executors, repr) && ctrl !in repr && this !in repr && fresh(repr - old(repr))
      ensures Views(executors, repr) == Apply(old(Views(executors, repr)), a, now, actionLatency)
    {
      match a
      case Stop(id) => RequestStop(id);
      case CreateLp(cfg) => OpenPosition(cfg);
      case CreateFlatten(amount) => SendSwap(amount);
    }

    method OpenPosition(cfg: LpConfig)
      requires Owned(executors, repr) && ctrl !in repr && this !in repr
      modifies this`executors, this`repr
      ensures Owned(executors, repr) && ctrl !in repr && this !in repr && fresh(repr - old(repr))
      ensures Views(executors, repr) == old(Views(executors, repr)) + [Lp(NewLp(|old(executors)|, cfg, now, actionLatency))]
    {
      var lp := new SimLPExecutor(|executors|, cfg, now, actionLatency);
      executors, repr := executors + [LpSlot(lp)], repr + {lp};
    }

    method SendSwap(amount: real)
      requires Owned(executors, repr) && ctrl !in repr && this !in repr
      modifies this`executors, this`repr
      ensures Owned(executors, repr) && ctrl !in repr && this !in repr && fresh(repr - old(repr))
      ensures Views(executors, repr) == old(Views(executors, repr)) + [Order(NewOrder(|old(executors)|, amount, now, actionLatency))]
    {
      var order := new SimOrderExecutor(|executors|, amount, now, actionLatency);
      executors, repr := executors + [OrderSlot(order)], repr + {order};
    }

    method RequestStop(id: nat)
      requires Owned(executors, repr) && ctrl !in repr && this !in repr
      modifies repr
      ensures Views(executors, repr) == Apply(old(Views(executors, repr)), Stop(id), now, actionLatency)
    {
      ghost var before := Views(executors, repr);
      for i := 0 to |executors|
        invariant forall j :: 0 <= j < i ==> executors[j].View() == StopOne(before[j], id, now, actionLatency)
        invariant forall j :: i <= j < |executors| ==> executors[j].View() == before[j]
      {
        assert executors[i].Obj() in repr;
        if executors[i].LpSlot? && executors[i].lp.id == id {
          executors[i].lp.Close(now, actionLatency);
        }
      }
    }

    method ApplyActions(actions: seq<Action>)
      requires Owned(executors, repr) && ctrl !in repr && this !in repr
      modifies this`executors, this`repr, repr
      ensures Owned(executors, repr) && ctrl !in repr && this !in repr && fresh(repr - old(repr))
      ensures Views(executors, repr) == ApplyAll(old(Views(executors, repr)), actions, now, actionLatency)
    {
      ghost var before := Views(executors, repr);
      for i := 0 to |actions|
        invariant Owned(executors, repr) && ctrl !in repr && this !in repr && fresh(repr - old(repr))
        invariant Views(executors, repr) == ApplyAll(before, actions[..i], now, actionLatency)
      {
        ApplyAction(actions[i]);
        assert Front(actions[..i + 1]) == actions[..i] && Last(actions[..i + 1]) == actions[i];
      }
      assert actions[..|actions|] == actions;
    }

    /** Executors step, then the controller observes and decides. */
    method ControlPass(m: Market) returns (actions: seq<Action>)
      requires Owned(executors, repr) && ctrl !in repr && this !in repr
      requires ValidMarket(m) && Ready(Views(executors, repr))
      modifies ctrl, repr
      ensures Views(executors, repr)
           == StepAll(old(Views(executors, repr)), SimTick(now, m.price, feePct, SLIPPAGE, m.obs, actionLatency))
      ensures (ctrl.State(), actions)
           == Decide(ctrl.config, Observe(ctrl.config, old(ctrl.State()), m.obs), Views(executors, repr), now)
    {
      StepExecutors(m);
      ghost var stepped := Views(executors, repr);
      ctrl.UpdateProcessedData(m.obs);
      actions := ctrl.DetermineExecutorActions(Views(executors, repr), now);
      assert Views(executors, repr) == stepped;
    }

    /** One pass of the loop: clock, executors, controller, actions. The history grows by the tick
        the value-level simulation would take. */
    method Tick(m: Market)
      requires Valid() && ValidMarket(m)
      modifies this, ctrl, repr
      ensures Valid() && fresh(repr - old(repr))
      ensures now == old(now) + 1.0
      ensures ticks == old(ticks) + [SimTick(now, m.price, feePct, SLIPPAGE, m.obs, actionLatency)]
      ensures old(trace.worlds) <= trace.worlds
    {
      ghost var w := Last(trace.worlds);
      HistoryReady(ctrl.config, trace, ticks, actionLatency);
      now := now + 1.0;
      ghost var st := SimTick(now, m.price, feePct, SLIPPAGE, m.obs, actionLatency);
      var actions := ControlPass(m);
      ghost var c' := ctrl.State();
      ApplyActions(actions);
      assert ctrl.State() == c';
      Record(st, c', actions);
    }

    /** Add a tick to the history. */
    ghost method Record(st: SimTick, c': Ctrl, acts: seq<Action>)
      requires IsSimRun(ctrl.config, trace, ticks, actionLatency)
      requires Ready(Last(trace.worlds).execs) && ValidSim(Last(trace.worlds), st, actionLatency)
      requires var w := Last(trace.worlds);
        (c', acts) == Decide(ctrl.config, Observe(ctrl.config, w.ctrl, st.obs), StepAll(w.execs, st), st.now)
      modifies this`trace, this`ticks
      ensures IsSimRun(ctrl.config, trace, ticks, actionLatency)
      ensures ticks == old(ticks) + [st] && old(trace.worlds) <= trace.worlds
      ensures var w := Last(trace.worlds);
        && w.now == st.now && w.ctrl == c'
        && w.execs == ApplyAll(StepAll(old(Last(trace.worlds).execs), st), acts, st.now, st.latency)
    {
      HistoryGrows(ctrl.config, trace, ticks, actionLatency, st, c', acts);
      trace, ticks := Extend(ctrl.config, trace, st), ticks + [st];
    }

    /** Run the loop over a sequence of market moves, one per second. */
    method Run(ms: seq<Market>)
      requires Valid() && forall i :: 0 <= i < |ms| ==> ValidMarket(ms[i])
      modifies this, ctrl, repr
      ensures Valid() && now == old(now) + |ms| as real
      ensures old(trace.worlds) <= trace.worlds && |ticks| == |old(ticks)| + |ms|
      ensures forall i :: 0 <= i < |ms| ==>
        ticks[|old(ticks)| + i].price == ms[i].price && ticks[|old(ticks)| + i].obs == ms[i].obs
    {
      for i := 0 to |ms|
        invariant Valid() && fresh(repr - old(repr))
        invariant now == old(now) + i as real
        invariant old(trace.worlds) <= trace.worlds && |ticks| == |old(ticks)| + i
        invariant forall j :: 0 <= j < i ==>
          ticks[|old(ticks)| + j].price == ms[j].price && ticks[|old(ticks)| + j].obs == ms[j].obs
      {
        Tick(ms[i]);
      }
    }
  }

  lemma HistoryReady(cfg: Config, r: Trace, sts: seq<SimTick>, maxLatency: real)
    requires IsSimRun(cfg, r, sts, maxLatency)
    ensures Ready(Last(r.worlds).execs)
  {
    SimRunInv(cfg, r, sts, maxLatency, |sts|);
  }

  lemma HistoryGrows(cfg: Config, r: Trace, sts: seq<SimTick>, maxLatency: real, st: SimTick,
                     c': Ctrl, acts: seq<Action>)
    requires IsSimRun(cfg, r, sts, maxLatency)
    requires Ready(Last(r.worlds).execs) && ValidSim(Last(r.worlds), st, maxLatency)
    requires var w := Last(r.worlds);
      (c', acts) == Decide(cfg, Observe(cfg, w.ctrl, st.obs), StepAll(w.execs, st), st.now)
    ensures var r' := Extend(cfg, r, st);
      && IsSimRun(cfg, r', sts + [st], maxLatency) && r.worlds <= r'.worlds
      && Last(r'.worlds).now == st.now && Last(r'.worlds).ctrl == c'
      && Last(r'.worlds).execs == ApplyAll(StepAll(Last(r.worlds).execs, st), acts, st.now, st.latency)
  {
    ExtendsRun(cfg, r, sts, maxLatency, st);
  }
}
