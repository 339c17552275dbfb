/** The order tracker on the heap: the three maps share mutable order objects with each other, with
    the updates that wait for fills, and with whoever started the orders. */
module OrderTracking {
  import opened Prelude
  import opened Tracking

  class InFlightOrder {
    const clientOrderId: string
    const amount: real
    const initialState: State
    var exchangeOrderId: Option<string>
    var currentState: State
    var executedAmount: real
    var executedQuote: real
    var fills: set<string>
    var completelyFilled: bool

    constructor (id: string, amount: real, exchangeId: Option<string>, initialState: State)
      ensures View() == Order(id, exchangeId, initialState, initialState, amount, 0.0, 0.0, {}, false)
    {
      clientOrderId, this.amount, this.initialState := id, amount, initialState;
      exchangeOrderId, currentState := exchangeId, initialState;
      executedAmount, executedQuote, fills, completelyFilled := 0.0, 0.0, {}, false;
    }

    function View(): Order
      reads this
    {
      Order(clientOrderId, exchangeOrderId, currentState, initialState, amount, executedAmount, executedQuote,
            fills, completelyFilled)
    }

    method UpdateWithOrderUpdate(u: Update) returns (updated: bool)
      modifies this
      ensures View() == UpdateOrder(old(View()), u) && updated == (View() != old(View()))
    {
      if u.clientId != Some(clientOrderId) && u.exchangeId != exchangeOrderId {
        return false;
      }
      var previous := (exchangeOrderId, currentState);
      if exchangeOrderId == None && u.exchangeId != None {
        exchangeOrderId := u.exchangeId;
      }
      currentState := u.newState;
      updated := previous != (exchangeOrderId, currentState);
    }

    method UpdateWithTradeUpdate(f: Fill) returns (updated: bool)
      modifies this
      ensures View() == FillOrder(old(View()), f) && updated == (View() != old(View()))
    {
      if f.tradeId in fills || (clientOrderId != f.clientId && exchangeOrderId != Some(f.exchangeId)) {
        return false;
      }
      fills := fills + {f.tradeId};
      executedAmount, executedQuote := executedAmount + f.amount, executedQuote + f.quoteAmount;
      if RoundsToNothing(Abs(amount) - executedAmount) {
        completelyFilled := true;
      }
      updated := true;
    }
  }

  function Views(all: map<string, InFlightOrder>): map<string, Order>
    reads all.Values
  {
    map id | id in all :: all[id].View()
  }

  function WaitingViews(ws: seq<(InFlightOrder, Update)>): seq<Waiting> {
    seq(|ws|, i requires 0 <= i < |ws| => Waiting(ws[i].0.clientOrderId, ws[i].1))
  }

  predicate Within(part: map<string, InFlightOrder>, all: map<string, InFlightOrder>) {
    forall id :: id in part ==> id in all && part[id] == all[id]
  }

  predicate Holds(all: map<string, InFlightOrder>, order: InFlightOrder) {
    order.clientOrderId in all && all[order.clientOrderId] == order
  }

  predicate OwnIds(all: map<string, InFlightOrder>) {
    forall id :: id in all ==> all[id].clientOrderId == id
  }

  /** A new order fits in beside the old ones. */
  lemma OneMore(all: map<string, InFlightOrder>, part: map<string, InFlightOrder>, order: InFlightOrder)
    requires OwnIds(all) && Within(part, all) && order.clientOrderId !in all
    ensures OwnIds(all[order.clientOrderId := order])
    ensures Within(part, all[order.clientOrderId := order])
    ensures Within(part[order.clientOrderId := order], all[order.clientOrderId := order])
  {
  }

  /** Moving an order from one map to another keeps both within all orders. */
  lemma Move(all: map<string, InFlightOrder>, from: map<string, InFlightOrder>, to: map<string, InFlightOrder>, id: string)
    requires Within(from, all) && Within(to, all) && id in from
    ensures Within(from - {id}, all) && Within(to[id := from[id]], all)
    ensures (from - {id}).Keys == from.Keys - {id} && to[id := from[id]].Keys == to.Keys + {id}
  {
  }

  class ClientOrderTracker {
    const lostOrderCountLimit: nat
    var inFlightOrders: map<string, InFlightOrder>
    var cachedOrders: map<string, InFlightOrder>
    var lostOrders: map<string, InFlightOrder>
    var notFoundRecords: map<string, nat>
    var waiting: seq<(InFlightOrder, Update)>
    var events: seq<Event>
    /** Every order ever started. */
    ghost var all: map<string, InFlightOrder>

    ghost predicate Valid()
      reads this
    {
      && OwnIds(all)
      && Within(inFlightOrders, all) && Within(cachedOrders, all) && Within(lostOrders, all)
      && forall k :: 0 <= k < |waiting| ==> Holds(all, waiting[k].0)
    }

    ghost function View(): Tracker
      reads this, all.Values
    {
      Tracker(Views(all), inFlightOrders.Keys, cachedOrders.Keys, lostOrders.Keys, notFoundRecords,
              WaitingViews(waiting), events)
    }

    constructor (limit: nat)
      ensures Valid() && View() == EMPTY && lostOrderCountLimit == limit && all == map[]
    {
      lostOrderCountLimit := limit;
      inFlightOrders, cachedOrders, lostOrders, notFoundRecords := map[], map[], map[], map[];
      waiting, events, all := [], [], map[];
    }

    lemma OneMoreView(order: InFlightOrder)
      requires order.clientOrderId !in all
      ensures Views(all[order.clientOrderId := order]) == Views(all)[order.clientOrderId := order.View()]
    {
    }

    /** Any order may be started; one under an id never used before is a step of the specification. */
    method StartTrackingOrder(order: InFlightOrder)
      requires Valid()
      modifies this`inFlightOrders, this`all
      ensures inFlightOrders == old(inFlightOrders)[order.clientOrderId := order]
      ensures all == old(all)[order.clientOrderId := order]
      ensures old(order.clientOrderId !in all && order.View().state == order.View().born) ==>
        Valid() && Possible(old(View()), Start(order.View()))
        && View() == Next(lostOrderCountLimit, old(View()), Start(order.View()))
    {
      if order.clientOrderId !in all {
        OneMoreView(order);
        OneMore(all, inFlightOrders, order);
        OneMore(all, cachedOrders, order);
        OneMore(all, lostOrders, order);
      }
      ghost var s := View();
      inFlightOrders := inFlightOrders[order.clientOrderId := order];
      all := all[order.clientOrderId := order];
      assert inFlightOrders.Keys == s.active + {order.clientOrderId};
    }

    method StopTrackingOrder(id: string)
      requires Valid()
      modifies this`inFlightOrders, this`cachedOrders, this`notFoundRecords
      ensures Valid() && View() == StopTracking(old(View()), id)
    {
      if id in inFlightOrders {
        MoveToCache(id);
        ForgetReports(id);
      }
    }

    method MoveToCache(id: string)
      requires Valid() && id in inFlightOrders
      modifies this`inFlightOrders, this`cachedOrders
      ensures Valid()
      ensures View() == old(View()).(active := old(View()).active - {id}, cached := old(View()).cached + {id})
    {
      Move(all, inFlightOrders, cachedOrders, id);
      cachedOrders := cachedOrders[id := inFlightOrders[id]];
      inFlightOrders := inFlightOrders - {id};
    }

    method ForgetReports(id: string)
      requires Valid()
      modifies this`notFoundRecords
      ensures Valid() && View() == old(View()).(notFound := Without(old(View()).notFound, id))
    {
      ghost var s := View();
      if id in notFoundRecords {
        notFoundRecords := notFoundRecords - {id};
      }
      assert notFoundRecords == Without(s.notFound, id);
    }

    method TriggerOrderCreation(order: InFlightOrder, previous: State, newState: State)
      modifies this`events
      ensures events == old(events) + CreationEvents(order.View().(state := previous), newState)
    {
      if previous == PendingCreate && newState != previous && newState !in {Canceled, Failed, PendingCancel} {
        events := events + [Event(CreatedEvent, order.clientOrderId)];
      }
    }

    method TriggerOrderCompletion(order: InFlightOrder)
      requires Valid()
      modifies this`events, this`inFlightOrders, this`cachedOrders, this`notFoundRecords
      ensures Valid()
      ensures View() == if IsOpen(order.View().state) then old(View())
        else StopTracking(old(View()).(events := old(events) + CompletionEvents(order.View())), order.clientOrderId)
    {
      if IsOpen(order.currentState) {
        return;
      }
      if order.currentState == Canceled {
        events := events + [Event(CanceledEvent, order.clientOrderId)];
      } else if IsFilled(order.View()) {
        events := events + [Event(CompletedEvent, order.clientOrderId)];
      } else if order.currentState == Failed {
        events := events + [Event(FailedEvent, order.clientOrderId)];
      }
      StopTrackingOrder(order.clientOrderId);
    }

    /** A change of one order object changes the view at its id and nowhere else. */
    twostate lemma OneOrderChanged(order: InFlightOrder)
      requires old(Valid()) && all == old(all) && order in all.Values
      requires forall o :: o in all.Values && o != order ==> o.View() == old(o.View())
      ensures order.clientOrderId in old(Views(all))
      ensures Views(all) == old(Views(all))[order.clientOrderId := order.View()]
    {
    }

    /** Update the shared order object itself. */
    method UpdateShared(order: InFlightOrder, u: Update) returns (updated: bool)
      requires Valid() && order in all.Values
      modifies order
      ensures order.clientOrderId in old(Views(all)) && Views(all)[order.clientOrderId] == order.View()
      ensures Valid() && View() == old(View()).(orders := old(Views(all))[order.clientOrderId := order.View()])
      ensures order.View() == UpdateOrder(old(order.View()), u) && updated == (order.View() != old(order.View()))
      ensures old(Views(all)[order.clientOrderId]) == old(order.View())
    {
      updated := order.UpdateWithOrderUpdate(u);
      OneOrderChanged(order);
    }

    /** The part of a status update from where no more waiting happens. */
    method ApplyUpdate(order: InFlightOrder, u: Update)
      requires Valid() && order in all.Values
      modifies order, this`events, this`inFlightOrders, this`cachedOrders, this`notFoundRecords
      ensures order.clientOrderId in old(Views(all))
      ensures Valid() && View() == Apply(old(View()), order.clientOrderId, u)
    {
      var previous := order.currentState;
      var updated := UpdateShared(order, u);
      if updated {
        TriggerOrderCreation(order, previous, u.newState);
        TriggerOrderCompletion(order);
      }
    }

    /** Search active and cached orders, by client id or else by exchange id. */
    method FetchOrder(u: Update) returns (order: Option<InFlightOrder>)
      requires Valid()
      ensures order.Some? ==> order.value in all.Values
      ensures Found(View(), View().active + View().cached, u, IdOf(order))
    {
      if u.clientId.Some? && u.clientId.value in inFlightOrders.Keys + cachedOrders.Keys {
        var id := u.clientId.value;
        return Some(if id in cachedOrders then cachedOrders[id] else inFlightOrders[id]);
      }
      if u.exchangeId.Some? {
        if id :| id in inFlightOrders && inFlightOrders[id].exchangeOrderId == u.exchangeId {
          return Some(inFlightOrders[id]);
        }
        if id :| id in cachedOrders && cachedOrders[id].exchangeOrderId == u.exchangeId {
          return Some(cachedOrders[id]);
        }
      }
      return None;
    }

    method FetchLostOrder(u: Update) returns (order: Option<InFlightOrder>)
      requires Valid()
      ensures order.Some? ==> order.value in all.Values
      ensures Found(View(), View().lost, u, IdOf(order))
    {
      if u.clientId.Some? && u.clientId.value in lostOrders {
        return Some(lostOrders[u.clientId.value]);
      }
      if u.exchangeId.Some? {
        if id :| id in lostOrders && lostOrders[id].exchangeOrderId == u.exchangeId {
          return Some(lostOrders[id]);
        }
      }
      return None;
    }

    /** A status update, up to where it may have to wait for fills. */
    method ProcessOrderUpdate(u: Update) returns (ghost op: Op)
      requires Valid()
      modifies this`inFlightOrders, this`cachedOrders, this`lostOrders, this`notFoundRecords, this`waiting, this`events
      modifies all.Values
      ensures Valid() && op.Status? && op.u == u && Possible(old(View()), op)
      ensures View() == Next(lostOrderCountLimit, old(View()), op)
    {
      var found := FetchOrder(u);
      var lost := FetchLostOrder(u);
      op := Status(u, IdOf(found), IdOf(lost));
      Deliver(u, found, lost);
    }

    method Deliver(u: Update, found: Option<InFlightOrder>, lost: Option<InFlightOrder>)
      requires Valid() && (found.Some? ==> found.value in all.Values)
      modifies this`inFlightOrders, this`cachedOrders, this`lostOrders, this`notFoundRecords, this`waiting, this`events
      modifies all.Values
      ensures IdOf(found).Some? ==> IdOf(found).value in old(View()).orders
      ensures Valid() && View() == OnStatus(old(View()), u, IdOf(found), IdOf(lost))
    {
      ghost var s := View();
      if (u.clientId == None || u.clientId == Some("")) && (u.exchangeId == None || u.exchangeId == Some("")) {
        return;
      }
      if found.Some? {
        var order := found.value;
        if u.newState == Filled && !IsDone(order.View()) {
          waiting := waiting + [(order, u)];
          assert WaitingViews(waiting) == s.waiting + [Waiting(order.clientOrderId, u)];
        } else {
          ApplyUpdate(order, u);
        }
      } else if lost.Some? && Finished(u.newState) {
        lostOrders := lostOrders - {lost.value.clientOrderId};
        assert lostOrders.Keys == s.lost - {lost.value.clientOrderId};
      }
    }

    /** The k-th waiting update goes on, because the order is filled or the wait timed out. */
    method ResumeOrderUpdate(k: nat)
      requires Valid() && k < |waiting|
      modifies this`inFlightOrders, this`cachedOrders, this`notFoundRecords, this`waiting, this`events
      modifies all.Values
      ensures Valid() && Possible(old(View()), Resume(k))
      ensures View() == Next(lostOrderCountLimit, old(View()), Resume(k))
    {
      var (order, u) := waiting[k];
      ghost var views := WaitingViews(waiting);
      waiting := waiting[..k] + waiting[k + 1..];
      assert WaitingViews(waiting) == views[..k] + views[k + 1..];
      ApplyUpdate(order, u);
    }

    method ProcessOrderNotFound(id: string)
      requires Valid()
      modifies this`inFlightOrders, this`cachedOrders, this`lostOrders, this`notFoundRecords, this`waiting, this`events
      modifies all.Values
      ensures Valid() && View() == Next(lostOrderCountLimit, old(View()), NotFound(id))
    {
      if id in inFlightOrders {
        ReportActive(id);
      } else if id in lostOrders {
        ghost var s := View();
        lostOrders := lostOrders - {id};
        assert lostOrders.Keys == s.lost - {id};
      }
    }

    method ReportActive(id: string)
      requires Valid() && id in inFlightOrders
      modifies this`inFlightOrders, this`cachedOrders, this`lostOrders, this`notFoundRecords, this`waiting, this`events
      modifies all.Values
      ensures Valid() && id in old(View()).orders && View() == ReportLost(old(View()), lostOrderCountLimit, id)
    {
      var order := inFlightOrders[id];
      var n := CountReport(id);
      if n > lostOrderCountLimit && !Finished(order.currentState) {
        MarkLost(order);
      }
    }

    method CountReport(id: string) returns (n: nat)
      requires Valid()
      modifies this`notFoundRecords
      ensures Valid() && View() == Counted(old(View()), id) && n == View().notFound[id]
    {
      n := (if id in notFoundRecords then notFoundRecords[id] else 0) + 1;
      notFoundRecords := notFoundRecords[id := n];
    }

    method MarkLost(order: InFlightOrder)
      requires Valid() && order.clientOrderId in inFlightOrders && inFlightOrders[order.clientOrderId] == order
      requires !Finished(order.currentState)
      modifies order, this`inFlightOrders, this`cachedOrders, this`lostOrders, this`notFoundRecords, this`events
      ensures order.clientOrderId in old(Views(all))
      ensures Valid()
      ensures View() == Lose(old(View()), order.clientOrderId)
    {
      ghost var s := View();
      ApplyConcerned(s, order.clientOrderId, FailedUpdate(order.clientOrderId));
      ApplyUpdate(order, FailedUpdate(order.clientOrderId));
      assert order.clientOrderId in View().cached;
      MoveToLost(order);
    }

    method MoveToLost(order: InFlightOrder)
      requires Valid() && order.clientOrderId in cachedOrders && Holds(all, order)
      modifies this`cachedOrders, this`lostOrders
      ensures Valid()
      ensures View() == old(View()).(cached := old(View()).cached - {order.clientOrderId},
                                     lost := old(View()).lost + {order.clientOrderId})
    {
      Move(all, cachedOrders, lostOrders, order.clientOrderId);
      cachedOrders := cachedOrders - {order.clientOrderId};
      lostOrders := lostOrders[order.clientOrderId := order];
    }

    method ProcessTradeUpdate(f: Fill)
      requires Valid()
      modifies this`events, all.Values
      ensures Valid() && View() == Next(lostOrderCountLimit, old(View()), Trade(f))
    {
      var id := f.clientId;
      if id !in inFlightOrders && id !in cachedOrders && id !in lostOrders {
        return;
      }
      var order := if id in lostOrders then lostOrders[id]
        else if id in cachedOrders then cachedOrders[id]
        else inFlightOrders[id];
      ApplyFill(order, f);
    }

    /** Add the fill to the shared order object itself. */
    method FillShared(order: InFlightOrder, f: Fill) returns (updated: bool)
      requires Valid() && order in all.Values
      modifies order
      ensures Valid() && View() == old(View()).(orders := old(Views(all))[order.clientOrderId := order.View()])
      ensures order.View() == FillOrder(old(order.View()), f) && updated == (order.View() != old(order.View()))
    {
      updated := order.UpdateWithTradeUpdate(f);
      OneOrderChanged(order);
    }

    method ApplyFill(order: InFlightOrder, f: Fill)
      requires Valid() && order in all.Values
      modifies order, this`events
      ensures Valid() && View() == Filling(old(View()), old(order.View()), f)
    {
      var previous := order.executedAmount;
      var updated := FillShared(order, f);
      if updated && previous < order.executedAmount {
        events := events + [Event(FillEvent, order.clientOrderId)];
      }
    }

    /** The cache drops entries by age or for want of room. */
    method ExpireCached(ids: set<string>)
      requires Valid() && ids <= cachedOrders.Keys
      modifies this`cachedOrders
      ensures Valid() && View() == Next(lostOrderCountLimit, old(View()), Evict(ids))
    {
      cachedOrders := cachedOrders - ids;
    }
  }

  function IdOf(order: Option<InFlightOrder>): Option<string> {
    if order.Some? then Some(order.value.clientOrderId) else None
  }
}
