/** What order tracking announces and adds up, spelled out: which updates reach an order, which events they
    raise, and what a sequence of fills amounts to. */
module TrackingEvents {
  import opened Prelude
  import opened Tracking

  // ---------------------------------------------------------------- fills

  /** The order after the first `n` fills. */
  function FillAll(o: Order, fs: seq<Fill>, n: nat): Order
    requires n <= |fs|
  {
    if n == 0 then o else FillOrder(FillAll(o, fs, n - 1), fs[n - 1])
  }

  /** A fill is for an order if it names the order by either id. */
  predicate IsFor(f: Fill, o: Order) { f.clientId == o.id || Some(f.exchangeId) == o.exchangeId }

  /** A fill counts if it is for the order and its trade has not been seen before. */
  predicate Counts(o: Order, fs: seq<Fill>, i: nat)
    requires i < |fs|
  {
    IsFor(fs[i], o) && fs[i].tradeId !in o.fills && forall j :: 0 <= j < i && IsFor(fs[j], o) ==> fs[j].tradeId != fs[i].tradeId
  }

  function BaseTotal(o: Order, fs: seq<Fill>, n: nat): real
    requires n <= |fs|
  {
    if n == 0 then 0.0 else BaseTotal(o, fs, n - 1) + (if Counts(o, fs, n - 1) then fs[n - 1].amount else 0.0)
  }

  function QuoteTotal(o: Order, fs: seq<Fill>, n: nat): real
    requires n <= |fs|
  {
    if n == 0 then 0.0 else QuoteTotal(o, fs, n - 1) + (if Counts(o, fs, n - 1) then fs[n - 1].quoteAmount else 0.0)
  }

  /** After some counted fill, no more than half of the eighth decimal was missing. */
  predicate CameFull(o: Order, fs: seq<Fill>, n: nat)
    requires n <= |fs|
  {
    exists i :: 0 <= i < n && FullAfter(o, fs, i)
  }

  predicate FullAfter(o: Order, fs: seq<Fill>, i: nat)
    requires i < |fs|
  {
    Counts(o, fs, i) && Abs(o.amount) - (o.executed + BaseTotal(o, fs, i + 1)) <= 0.000000005
  }

  predicate SeenBy(o: Order, fs: seq<Fill>, n: nat, trade: string)
    requires n <= |fs|
  {
    trade in o.fills || exists j :: 0 <= j < n && IsFor(fs[j], o) && fs[j].tradeId == trade
  }

  /** Each trade counts once, for the order it names: the executed amounts grow by the sums of the fills
      counted, the order has seen exactly their trades, and it announces its complete filling exactly when a
      counted fill leaves nothing to eight decimals. Nothing else of the order changes. */
  lemma {:induction false} FillTotals(o: Order, fs: seq<Fill>, n: nat)
    requires n <= |fs|
    ensures var o' := FillAll(o, fs, n);
      && o'.executed == o.executed + BaseTotal(o, fs, n) && o'.executedQuote == o.executedQuote + QuoteTotal(o, fs, n)
      && (forall trade :: trade in o'.fills <==> SeenBy(o, fs, n, trade))
      && (o'.signalled <==> o.signalled || CameFull(o, fs, n))
      && o'.id == o.id && o'.exchangeId == o.exchangeId && o'.state == o.state && o'.born == o.born && o'.amount == o.amount
  {
    if n > 0 {
      FillTotals(o, fs, n - 1);
      var f := fs[n - 1];
      assert Counts(o, fs, n - 1) <==> IsFor(f, o) && !SeenBy(o, fs, n - 1, f.tradeId);
      assert CameFull(o, fs, n) <==> CameFull(o, fs, n - 1) || FullAfter(o, fs, n - 1);
      forall trade ensures SeenBy(o, fs, n, trade) <==> SeenBy(o, fs, n - 1, trade) || (IsFor(f, o) && f.tradeId == trade) {
        if IsFor(f, o) && f.tradeId == trade { assert IsFor(fs[n - 1], o); }
      }
    }
  }

  /** A fill is announced exactly when it is for the tracked order it names, its trade is new, and it adds a
      positive amount. */
  lemma FillAnnouncedIff(limit: nat, s: Tracker, f: Fill)
    requires Inv(limit, s)
    ensures var s' := Next(limit, s, Trade(f));
      s'.events == s.events + if f.clientId in s.active + s.cached + s.lost && f.tradeId !in s.orders[f.clientId].fills && 0.0 < f.amount
                              then [Event(FillEvent, f.clientId)] else []
  {
    if f.clientId in s.active + s.cached + s.lost { assert OrderOk(s, f.clientId); }
  }

  // ---------------------------------------------------------------- events of an update

  /** The executed amount is the order's, up to a billionth, or more. */
  predicate Full(o: Order) {
    || o.executed >= o.amount
    || o.amount - o.executed <= 0.000000001 * (if Abs(o.executed) > Abs(o.amount) then Abs(o.executed) else Abs(o.amount))
  }

  /** Exactly what update `u` may say of order `o`. It must change the state, or bring the exchange id. A
      creation is announced when the order leaves PENDING_CREATE for a state that is not canceled, failed or
      about to be canceled. An ending is announced when the new state is not an open one: a cancellation for
      CANCELED; else a completion if the state is FILLED or the order is full; else a failure for FAILED. */
  predicate Announces(o: Order, u: Update, said: seq<Event>) {
    var changed := u.newState != o.state || (o.exchangeId == None && u.exchangeId != None);
    var full := u.newState == Filled || (o.amount != 0.0 && Full(o));
    && (Event(CreatedEvent, o.id) in said <==>
          changed && o.state == PendingCreate
          && u.newState in {Open, PartiallyFilled, Filled, PendingApproval, Approved, Created, Completed})
    && (Event(CanceledEvent, o.id) in said <==> changed && u.newState == Canceled)
    && (Event(CompletedEvent, o.id) in said <==>
          changed && full && u.newState !in {PendingCreate, Open, PartiallyFilled, PendingCancel, Canceled})
    && (Event(FailedEvent, o.id) in said <==> changed && !full && u.newState == Failed)
    && Event(FillEvent, o.id) !in said && |said| <= 2
  }

  lemma LoggedAnnounces(o: Order, u: Update)
    requires Matches(o, u)
    ensures Announces(o, u, Logged(o, UpdateOrder(o, u)))
  {
    var o' := UpdateOrder(o, u);
    FullIs(o');
    assert Full(o') == Full(o);
  }

  /** What an update that found an order announces: that, and nothing of any other order. */
  lemma UpdateAnnounces(s: Tracker, id: string, u: Update) returns (said: seq<Event>)
    requires id in s.orders && s.orders[id].id == id && Matches(s.orders[id], u)
    ensures Apply(s, id, u).events == s.events + said && Announces(s.orders[id], u, said)
    ensures forall e :: e in said ==> e.id == id
  {
    ApplyLogs(s, id, u);
    LoggedAnnounces(s.orders[id], u);
    said := Logged(s.orders[id], UpdateOrder(s.orders[id], u));
  }

  lemma FullIs(o: Order)
    ensures FullyExecuted(o) <==> Full(o)
  {
  }

  /** Exactly where a status update goes. Without any id it is ignored. If no order filed as active or cached
      is found, it only takes a lost order off the list, when it reports it finished. If the order found is
      reported FILLED before it is done, the update waits. Otherwise the order takes its state, and the first
      exchange id it hears of. */
  lemma StatusRoutes(limit: nat, s: Tracker, u: Update, hit: Option<string>, lostHit: Option<string>)
    requires Inv(limit, s) && Possible(s, Status(u, hit, lostHit))
    ensures var s' := Next(limit, s, Status(u, hit, lostHit));
      if u.clientId in {None, Some("")} && u.exchangeId in {None, Some("")} then s' == s
      else if hit == None then
        s' == s.(lost := if lostHit != None && u.newState in {Canceled, Filled, Failed} then s.lost - {lostHit.value} else s.lost)
      else
        var o := s.orders[hit.value];
        if u.newState == Filled && o.state !in {Canceled, Filled, Failed} && !Full(o) then
          s' == s.(waiting := s.waiting + [Waiting(hit.value, u)])
        else
          && s'.waiting == s.waiting && s'.lost == s.lost
          && s'.orders == s.orders[hit.value := o.(state := u.newState, exchangeId := if o.exchangeId == None then u.exchangeId else o.exchangeId)]
  {
    if hit.Some? {
      FoundConcerned(s, s.active + s.cached, u, hit);
      assert OrderOk(s, hit.value);
      FullIs(s.orders[hit.value]);
      ApplyConcerned(s, hit.value, u);
    }
  }

  /** A search finds an order filed there by its client id, whatever the exchange id; else one that has the
      exchange id, if any has; and nothing otherwise. */
  lemma SearchFinds(s: Tracker, keys: set<string>, u: Update, hit: Option<string>)
    requires keys <= s.orders.Keys && Found(s, keys, u, hit)
    ensures hit.Some? ==> hit.value in keys
    ensures u.clientId.Some? && u.clientId.value in keys ==> hit == u.clientId
    ensures hit == None <==>
      && !(u.clientId.Some? && u.clientId.value in keys)
      && !(u.exchangeId.Some? && exists id :: id in keys && s.orders[id].exchangeId == u.exchangeId)
  {
  }

  /** A report that an order was not found only takes it off the lost orders, unless it is active. */
  lemma NotFoundElsewhere(limit: nat, s: Tracker, id: string)
    requires Inv(limit, s) && id !in s.active
    ensures Next(limit, s, NotFound(id)) == s.(lost := s.lost - {id})
  {
    if id !in s.lost { assert s.lost - {id} == s.lost; }
  }
}
