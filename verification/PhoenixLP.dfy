/** The controller object. Each method updates the fields in place, as the control loop does, and
    is proved to compute the transition function of module Controller. */
module Phoenix {
  import opened Prelude
  import opened Bands
  import opened Executors
  import opened Controller

  class PhoenixLP {
    const config: Config

    var state: Phase
    var poolPrice: Option<real>
    var venueChecked: bool
    var signals: Signals
    var currentExecutorId: Option<nat>
    var stopRequestedId: Option<nat>
    var flattenExecutorId: FlattenRef
    var lastCloseTs: real
    var holdBase: real
    var holdQuote: real
    var quotingSide: Side

    function State(): Ctrl
      reads this
    {
      Ctrl(state, poolPrice, venueChecked, signals, currentExecutorId, stopRequestedId,
           flattenExecutorId, lastCloseTs, holdBase, holdQuote, quotingSide)
    }

    constructor (config: Config)
      ensures this.config == config && State() == InitCtrl()
    {
      this.config := config;
      state, poolPrice, venueChecked, signals := Hatching, None, false, Signals(0.0, 0.0, 0.0, 0);
      currentExecutorId, stopRequestedId, flattenExecutorId := None, None, NoFlatten;
      lastCloseTs, holdBase, holdQuote, quotingSide := 0.0, 0.0, 0.0, Buy;
    }

    method UpdateProcessedData(o: Obs)
      modifies this
      ensures State() == Observe(config, old(State()), o)
    {
      if o.NoPool? { return; }
      poolPrice := Some(o.price);
      if !venueChecked {
        CheckVenue(o.mint, o.feePct);
      }
      signals := o.signals;
    }

    method CheckVenue(mint: string, feePct: real)
      modifies this`state, this`venueChecked
      ensures venueChecked
      ensures state == if Banned(config, mint) || feePct < config.minPoolFeePct then Vetoed else old(state)
    {
      for i := 0 to |config.bannedSuffixes|
        invariant state == old(state)
        invariant forall j :: 0 <= j < i ==> !EndsWith(mint, config.bannedSuffixes[j])
      {
        if EndsWith(mint, config.bannedSuffixes[i]) {
          state, venueChecked := Vetoed, true;
          return;
        }
      }
      if feePct < config.minPoolFeePct {
        state := Vetoed;
      }
      venueChecked := true;
    }

    /** Fold a terminated position's net token change into the hold. */
    method SettleClosedExecutor(es: seq<Executor>, now: real)
      modifies this
      ensures State() == SettleClosed(old(State()), es, now)
    {
      if currentExecutorId.None? { return; }
      var found := Find(es, currentExecutorId.value);
      if found.None? || found.value.Active() { return; }
      var e := found.value;
      if !e.Failed() && e.Lp? {
        holdBase := holdBase + (e.lp.base + e.lp.baseFee - e.lp.cfg.baseAmount);
        holdQuote := holdQuote + (e.lp.quote + e.lp.quoteFee - e.lp.cfg.quoteAmount);
      }
      currentExecutorId := None;
      lastCloseTs := now;
    }

    /** Fold a completed panic swap into the hold. */
    method SettleFlattenExecutor(es: seq<Executor>)
      modifies this
      ensures State() == SettleFlatten(old(State()), es)
    {
      if flattenExecutorId.NoFlatten? { return; }
      if flattenExecutorId.Pending? {
        var candidate := LastOrder(es);
        if candidate.None? { return; }
        flattenExecutorId := Flatten(candidate.value);
      }
      var found := Find(es, flattenExecutorId.id);
      if found.None? || found.value.Active() { return; }
      var e := found.value;
      if !e.Failed() && e.Order? {
        holdBase := holdBase - e.order.executed;
        holdQuote := holdQuote + e.order.executed * e.order.averagePrice;
      }
      flattenExecutorId := NoFlatten;
    }

    method PanicFlattenAction(es: seq<Executor>) returns (a: Option<Action>)
      modifies this`flattenExecutorId
      ensures var c := old(State());
        if FlattenDue(config, c, ActiveLp(es))
        then a == Some(CreateFlatten(c.holdBase)) && State() == c.(flatten := Pending)
        else a == None && State() == c
    {
      if !config.panicFlatten || flattenExecutorId != NoFlatten { return None; }
      if currentExecutorId.Some? || ActiveLp(es).Some? { return None; }
      if !WorthAt(holdBase, Price(State())) { return None; }
      flattenExecutorId := Pending;
      return Some(CreateFlatten(holdBase));
    }

    /** Quote the side the inventory can fund, with hysteresis around half coverage. */
    method PickQuotingSide()
      modifies this`quotingSide
      ensures quotingSide == PickSide(config, old(State()))
    {
      if Deploy(config, State()) <= 0.0 || Price(State()) <= 0.0 { return; }
      var coverage := Coverage(config, State());
      if quotingSide == Buy && coverage > 0.5 + config.flipHysteresis {
        quotingSide := Sell;
      } else if quotingSide == Sell && coverage < 0.5 - config.flipHysteresis {
        quotingSide := Buy;
      }
    }

    method CreateExecutorConfig() returns (k: Option<LpConfig>)
      modifies this`quotingSide
      ensures State() == CreateConfig(config, old(State())).0 && k == CreateConfig(config, old(State())).1
    {
      var before := State();
      if Price(before) <= 0.0 || Deploy(config, before) <= 0.0 { return None; }
      PickQuotingSide();
      k := Build(config, before, quotingSide, BandFor(config, before, quotingSide));
    }

    method UpdatePhase()
      modifies this`state
      ensures State() == old(State()).(phase := NextPhase(config, old(State())))
    {
      if state != Vetoed && state != Ashes {
        if poolPrice.Some? && Equity(config, State()) <= config.totalAmountQuote * config.ashesFloorPct {
          state := Ashes;
        } else if signals.score >= config.panicRatio {
          state := Perched;
        } else if state == Perched && signals.score <= config.resumeRatio {
          state := if signals.samples < config.minSamples then Hatching else Flying;
        } else if state == Hatching || state == Flying {
          state := if signals.samples < config.minSamples then Hatching else Flying;
        }
      }
    }

    /** First half of the control loop: adopt a newly visible position, settle what has ended. */
    method AdoptAndSettle(es: seq<Executor>, now: real)
      modifies this
      ensures State() == Settle(old(State()), es, now)
    {
      var active := ActiveLp(es);
      if active.Some? && currentExecutorId.None? {
        currentExecutorId := active;
      }
      if active.None? {
        SettleClosedExecutor(es, now);
      }
      SettleFlattenExecutor(es);
    }

    method StopAndFlatten(es: seq<Executor>) returns (actions: seq<Action>)
      requires Halted(state)
      modifies this
      ensures (State(), actions) == ActHalted(config, old(State()), ActiveLp(es))
    {
      actions := [];
      var active := ActiveLp(es);
      if active.Some? && active != stopRequestedId {
        stopRequestedId := active;
        actions := actions + [Stop(active.value)];
        assert actions == [Stop(active.value)];
      }
      if state == Ashes || state == Perched {
        var flatten := PanicFlattenAction(es);
        if flatten.Some? {
          actions := actions + [flatten.value];
        }
      }
    }

    method KeepOnePosition(es: seq<Executor>, now: real) returns (actions: seq<Action>)
      modifies this
      ensures (State(), actions) == ActFlying(config, old(State()), ActiveLp(es), now)
    {
      actions := [];
      if ActiveLp(es).None? && flattenExecutorId == NoFlatten {
        if now - lastCloseTs >= config.minRebalanceInterval {
          var created := CreateExecutorConfig();
          if created.Some? {
            actions := actions + [CreateLp(created.value)];
            assert actions == [CreateLp(created.value)];
          }
        }
      }
    }

    /** The control loop: settle, move between phases, act. */
    method DetermineExecutorActions(es: seq<Executor>, now: real) returns (actions: seq<Action>)
      modifies this
      ensures (State(), actions) == Decide(config, old(State()), es, now)
    {
      AdoptAndSettle(es, now);
      UpdatePhase();
      if Halted(state) {
        actions := StopAndFlatten(es);
      } else if state == Flying {
        actions := KeepOnePosition(es, now);
      } else {
        actions := [];
      }
    }
  }
}
