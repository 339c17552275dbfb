/** Order tracking as a state machine: status updates, fills, not-found reports, cache expiry, and
    FILLED updates that wait for their fills. */
module Tracking {
  import opened Prelude

  datatype State =
    PendingCreate | Open | PendingCancel | Canceled | PartiallyFilled | Filled | Failed
    | PendingApproval | Approved | Created | Completed

  predicate IsOpen(st: State) { st in {PendingCreate, Open, PartiallyFilled, PendingCancel} }

  predicate Finished(st: State) { st in {Canceled, Filled, Failed} }

  /** `born` is the state the order was constructed in; `fills` are the ids of the trades it has seen;
      `signalled` says that it has announced its complete filling. */
  datatype Order = Order(id: string, exchangeId: Option<string>, state: State, born: State, amount: real,
                         executed: real, executedQuote: real, fills: set<string>, signalled: bool)

  datatype Update = Update(newState: State, clientId: Option<string>, exchangeId: Option<string>)

  datatype Fill = Fill(tradeId: string, clientId: string, exchangeId: string, amount: real, quoteAmount: real)

  datatype Kind = CreatedEvent | FillEvent | CanceledEvent | CompletedEvent | FailedEvent

  datatype Event = Event(kind: Kind, id: string)

  predicate Terminal(e: Event) { e.kind in {CanceledEvent, CompletedEvent, FailedEvent} }

  predicate IsClose(a: real, b: real) { Abs(a - b) <= 0.000000001 * MaxR(Abs(a), Abs(b)) }

  predicate FullyExecuted(o: Order) { IsClose(o.executed, o.amount) || o.executed >= o.amount }

  predicate IsDone(o: Order) { Finished(o.state) || FullyExecuted(o) }

  predicate IsFilled(o: Order) { o.state == Filled || (o.amount != 0.0 && FullyExecuted(o)) }

  predicate Concerns(o: Order, u: Update) { u.clientId == Some(o.id) || u.exchangeId == o.exchangeId }

  /** A search by client id, or by a known exchange id, can have found the order. */
  predicate Matches(o: Order, u: Update) {
    u.clientId == Some(o.id) || (u.exchangeId.Some? && u.exchangeId == o.exchangeId)
  }

  function UpdateOrder(o: Order, u: Update): Order {
    if !Concerns(o, u) then o
    else
      o.(state := u.newState,
         exchangeId := if o.exchangeId.None? && u.exchangeId.Some? then u.exchangeId else o.exchangeId)
  }

  function FillOrder(o: Order, f: Fill): Order {
    if f.tradeId in o.fills || (o.id != f.clientId && o.exchangeId != Some(f.exchangeId)) then o
    else
      o.(fills := o.fills + {f.tradeId}, executed := o.executed + f.amount,
         executedQuote := o.executedQuote + f.quoteAmount,
         signalled := o.signalled || RoundsToNothing(Abs(o.amount) - (o.executed + f.amount)))
  }

  /** Not positive once rounded, half to even, to eight decimals. */
  predicate RoundsToNothing(x: real) { x <= 0.000000005 }

  // ---------------------------------------------------------------- the tracker

  datatype Waiting = Waiting(id: string, u: Update)

  /** `orders` holds every order ever started; the three sets say where an order is filed, if anywhere.
      `waiting` are the FILLED updates suspended until the fills arrive or the wait times out. */
  datatype Tracker = Tracker(orders: map<string, Order>, active: set<string>, cached: set<string>, lost: set<string>,
                             notFound: map<string, nat>, waiting: seq<Waiting>, events: seq<Event>)

  const EMPTY := Tracker(map[], {}, {}, {}, map[], [], [])

  predicate Filed(s: Tracker) {
    s.active + s.cached + s.lost <= s.orders.Keys
  }

  function Without(counts: map<string, nat>, id: string): map<string, nat> { counts - {id} }

  /** An active order moves to the cache and loses its count. */
  function Shelve(s: Tracker, id: string): Tracker {
    s.(active := s.active - {id}, cached := s.cached + {id}, notFound := Without(s.notFound, id))
  }

  function StopTracking(s: Tracker, id: string): Tracker {
    if id in s.active then Shelve(s, id) else s
  }

  function CreationEvents(o: Order, newState: State): seq<Event> {
    if o.state == PendingCreate && newState !in {PendingCreate, Canceled, Failed, PendingCancel}
    then [Event(CreatedEvent, o.id)] else []
  }

  /** The event of an order that is no longer open. */
  function CompletionEvents(o: Order): seq<Event> {
    if o.state == Canceled then [Event(CanceledEvent, o.id)]
    else if IsFilled(o) then [Event(CompletedEvent, o.id)]
    else if o.state == Failed then [Event(FailedEvent, o.id)]
    else []
  }

  /** An update reaches an order: nothing happens unless it changes the state or brings the exchange id. */
  function Apply(s: Tracker, id: string, u: Update): Tracker
    requires id in s.orders
  {
    var o := s.orders[id];
    var o' := UpdateOrder(o, u);
    if o' == o then s
    else
      var s1 := s.(orders := s.orders[id := o'], events := s.events + CreationEvents(o, u.newState));
      if IsOpen(o'.state) then s1
      else StopTracking(s1.(events := s1.events + CompletionEvents(o')), o'.id)
  }

  /** `hit` is what a search among `keys` by client id, else by exchange id, may find. */
  predicate Found(s: Tracker, keys: set<string>, u: Update, hit: Option<string>)
    requires keys <= s.orders.Keys
  {
    if u.clientId.Some? && u.clientId.value in keys then hit == u.clientId
    else if u.exchangeId.Some? then
      match hit
      case Some(id) => id in keys && s.orders[id].exchangeId == u.exchangeId
      case None => forall id :: id in keys ==> s.orders[id].exchangeId != u.exchangeId
    else hit == None
  }

  predicate Blank(name: Option<string>) { name == None || name == Some("") }

  predicate Anonymous(u: Update) { Blank(u.clientId) && Blank(u.exchangeId) }

  function FailedUpdate(id: string): Update { Update(Failed, Some(id), None) }

  /** One more report counted. */
  function Counted(s: Tracker, id: string): Tracker {
    s.(notFound := s.notFound[id := (if id in s.notFound then s.notFound[id] else 0) + 1])
  }

  /** The order is failed, which files it in the cache, and then moved from there to the lost orders. */
  function Lose(s: Tracker, id: string): Tracker
    requires id in s.orders
  {
    var s' := Apply(s, id, FailedUpdate(id));
    s'.(cached := s'.cached - {id}, lost := s'.lost + {id})
  }

  function ReportLost(s: Tracker, limit: nat, id: string): Tracker
    requires id in s.orders
  {
    var s1 := Counted(s, id);
    if s1.notFound[id] <= limit || Finished(s.orders[id].state) then s1 else Lose(s1, id)
  }

  // ---------------------------------------------------------------- steps and runs

  datatype Op =
    | Start(order: Order)
    | Status(u: Update, hit: Option<string>, lostHit: Option<string>)
    | Resume(k: nat)
    | NotFound(id: string)
    | Trade(f: Fill)
    | Evict(ids: set<string>)

  /** Every order object is started under an id never used before, in the state it was constructed in;
      searches find what is there; only waiting updates resume; only cached orders expire. */
  predicate Possible(s: Tracker, op: Op)
    requires Filed(s)
  {
    match op
    case Start(o) => o.id !in s.orders && o.state == o.born
    case Status(u, hit, lostHit) => Found(s, s.active + s.cached, u, hit) && Found(s, s.lost, u, lostHit)
    case Resume(k) => k < |s.waiting| && s.waiting[k].id in s.orders
    case NotFound(_) => true
    case Trade(_) => true
    case Evict(ids) => ids <= s.cached
  }

  function DropLost(s: Tracker, lostHit: Option<string>, st: State): Tracker {
    if lostHit.Some? && Finished(st) then s.(lost := s.lost - {lostHit.value}) else s
  }

  function OnStatus(s: Tracker, u: Update, hit: Option<string>, lostHit: Option<string>): Tracker
    requires hit.Some? ==> hit.value in s.orders
  {
    if Anonymous(u) then s
    else if hit.None? then DropLost(s, lostHit, u.newState)
    else if u.newState == Filled && !IsDone(s.orders[hit.value]) then s.(waiting := s.waiting + [Waiting(hit.value, u)])
    else Apply(s, hit.value, u)
  }

  /** A fill reaches order `o`, and is reported when it adds to the executed amount. */
  function Filling(s: Tracker, o: Order, f: Fill): Tracker {
    var o' := FillOrder(o, f);
    s.(orders := s.orders[o.id := o'],
       events := s.events + (if o.executed < o'.executed then [Event(FillEvent, o.id)] else []))
  }

  function OnFill(s: Tracker, f: Fill): Tracker
    requires Filed(s)
  {
    if f.clientId !in s.active + s.cached + s.lost then s else Filling(s, s.orders[f.clientId], f)
  }

  /** The tracker without its `k`-th waiting update. */
  function WithoutWaiting(s: Tracker, k: nat): Tracker
    requires k < |s.waiting|
  {
    s.(waiting := s.waiting[..k] + s.waiting[k + 1..])
  }

  function Next(limit: nat, s: Tracker, op: Op): Tracker
    requires Filed(s) && Possible(s, op)
  {
    match op
    case Start(o) => s.(orders := s.orders[o.id := o], active := s.active + {o.id})
    case Status(u, hit, lostHit) => OnStatus(s, u, hit, lostHit)
    case Resume(k) =>
      var w := s.waiting[k];
      Apply(WithoutWaiting(s, k), w.id, w.u)
    case NotFound(id) =>
      if id in s.active then ReportLost(s, limit, id)
      else if id in s.lost then DropLost(s, Some(id), Failed)
      else s
    case Trade(f) => OnFill(s, f)
    case Evict(ids) => s.(cached := s.cached - ids)
  }

  predicate Disjoint(s: Tracker) {
    s.active !! s.cached && s.active !! s.lost && s.cached !! s.lost
  }

  /** An order is filed under its own id. While it is active it is open, or still in the state it was
      constructed in. Once it is lost it has failed, or a late fill update has arrived. */
  predicate OrderOk(s: Tracker, id: string)
    requires id in s.orders
  {
    && s.orders[id].id == id
    && (id in s.active ==> IsOpen(s.orders[id].state) || s.orders[id].state == s.orders[id].born)
    && (id in s.lost ==> s.orders[id].state in {Failed, Filled})
  }

  predicate CountOk(limit: nat, s: Tracker, id: string)
    requires id in s.orders && id in s.notFound
  {
    0 < s.notFound[id] && (!Finished(s.orders[id].born) ==> s.notFound[id] <= limit)
  }

  predicate WaitingOk(s: Tracker, w: Waiting) {
    w.id in s.orders && w.u.newState == Filled && Matches(s.orders[w.id], w.u)
  }

  predicate Inv(limit: nat, s: Tracker) {
    && Filed(s) && Disjoint(s) && s.notFound.Keys <= s.active
    && (forall id :: id in s.orders ==> OrderOk(s, id))
    && (forall id :: id in s.notFound ==> CountOk(limit, s, id))
    && (forall k :: 0 <= k < |s.waiting| ==> WaitingOk(s, s.waiting[k]))
    && (forall k :: 0 <= k < |s.events| ==> EventOk(s, s.events[k]))
  }

  // ---------------------------------------------------------------- the invariant

  lemma ApplyConcerned(s: Tracker, id: string, u: Update)
    requires id in s.orders && s.orders[id].id == id && Matches(s.orders[id], u)
    ensures var o, s' := s.orders[id], Apply(s, id, u);
      && s'.orders == s.orders[id := UpdateOrder(o, u)] && s'.lost == s.lost && s'.waiting == s.waiting
      && UpdateOrder(o, u).state == u.newState && Matches(UpdateOrder(o, u), u) && UpdateOrder(o, u).born == o.born
      && (if id in s.active && UpdateOrder(o, u) != o && !IsOpen(u.newState)
          then s'.active == s.active - {id} && s'.cached == s.cached + {id} && s'.notFound == Without(s.notFound, id)
          else s'.active == s.active && s'.cached == s.cached && s'.notFound == s.notFound)
  {
    if UpdateOrder(s.orders[id], u) == s.orders[id] { assert s.orders == s.orders[id := s.orders[id]]; }
  }

  /** The events of a change from `o` to `o'`. */
  function Logged(o: Order, o': Order): seq<Event> {
    if o' == o then []
    else CreationEvents(o, o'.state) + (if IsOpen(o'.state) then [] else CompletionEvents(o'))
  }

  /** What one update adds to the log: nothing unless it changes the order, and a terminal event only
      when the order is not open any more. */
  lemma ApplyLogs(s: Tracker, id: string, u: Update)
    requires id in s.orders && s.orders[id].id == id && Matches(s.orders[id], u)
    ensures var o, o' := s.orders[id], UpdateOrder(s.orders[id], u);
      Apply(s, id, u).events == s.events + Logged(o, o')
  {
  }

  predicate EventOk(s: Tracker, e: Event) {
    e.id in s.orders && (Terminal(e) ==> e.id !in s.active)
  }

  lemma ApplyEventsOk(limit: nat, s: Tracker, id: string, u: Update)
    requires Inv(limit, s) && id in s.orders && Matches(s.orders[id], u)
    ensures forall k :: 0 <= k < |Apply(s, id, u).events| ==> EventOk(Apply(s, id, u), Apply(s, id, u).events[k])
  {
    assert OrderOk(s, id);
    ApplyConcerned(s, id, u);
    ApplyLogs(s, id, u);
    var s' := Apply(s, id, u);
    forall k | 0 <= k < |s'.events| ensures EventOk(s', s'.events[k]) {
      if k < |s.events| { assert EventOk(s, s.events[k]); }
    }
  }

  lemma ApplyKeepsInv(limit: nat, s: Tracker, id: string, u: Update)
    requires Inv(limit, s) && id in s.orders && Matches(s.orders[id], u)
    requires id in s.lost ==> u.newState == Filled
    ensures Inv(limit, Apply(s, id, u))
  {
    assert OrderOk(s, id);
    ApplyConcerned(s, id, u);
    ApplyEventsOk(limit, s, id, u);
    var s' := Apply(s, id, u);
    forall x | x in s'.orders ensures OrderOk(s', x) { assert OrderOk(s, x); }
    forall x | x in s'.notFound ensures CountOk(limit, s', x) { assert CountOk(limit, s, x); }
    forall k | 0 <= k < |s'.waiting| ensures WaitingOk(s', s'.waiting[k]) { assert WaitingOk(s, s.waiting[k]); }
    assert forall k :: 0 <= k < |s'.events| ==> EventOk(s', s'.events[k]);
  }

  /** An order that a status update finds is one the update concerns. */
  lemma FoundConcerned(s: Tracker, keys: set<string>, u: Update, hit: Option<string>)
    requires keys <= s.orders.Keys && Found(s, keys, u, hit) && hit.Some? && OrderOk(s, hit.value)
    ensures hit.value in keys && Matches(s.orders[hit.value], u)
  {
  }

  /** Marking an order lost takes it from the active orders, by way of the cache, to the lost ones. */
  lemma ReportLostMoves(limit: nat, s: Tracker, id: string)
    requires Inv(limit, s) && id in s.active
    ensures var n, s' := (if id in s.notFound then s.notFound[id] else 0) + 1, ReportLost(s, limit, id);
      if n <= limit || Finished(s.orders[id].state) then s' == s.(notFound := s.notFound[id := n])
      else
        && s'.orders == s.orders[id := s.orders[id].(state := Failed)] && s'.waiting == s.waiting
        && s'.active == s.active - {id} && s'.cached == s.cached && s'.lost == s.lost + {id}
        && s'.notFound == Without(s.notFound, id)
        && s'.events == s.events + CompletionEvents(s.orders[id].(state := Failed))
  {
    assert OrderOk(s, id);
    var n := (if id in s.notFound then s.notFound[id] else 0) + 1;
    var s1 := s.(notFound := s.notFound[id := n]);
    ApplyConcerned(s1, id, FailedUpdate(id));
    ApplyLogs(s1, id, FailedUpdate(id));
    assert Without(s1.notFound, id) == Without(s.notFound, id);
    if n > limit && !Finished(s.orders[id].state) {
      assert s.cached + {id} - {id} == s.cached;
    }
  }

  lemma ReportLostKeepsInv(limit: nat, s: Tracker, id: string)
    requires Inv(limit, s) && id in s.active
    ensures Inv(limit, ReportLost(s, limit, id))
  {
    ReportLostMoves(limit, s, id);
    assert OrderOk(s, id);
    assert id in s.notFound ==> CountOk(limit, s, id);
    var s' := ReportLost(s, limit, id);
    forall x | x in s'.orders ensures OrderOk(s', x) { assert OrderOk(s, x); }
    forall x | x in s'.notFound ensures CountOk(limit, s', x) { assert x != id ==> CountOk(limit, s, x); }
    forall k | 0 <= k < |s'.waiting| ensures WaitingOk(s', s'.waiting[k]) { assert WaitingOk(s, s.waiting[k]); }
    forall k | 0 <= k < |s'.events| ensures EventOk(s', s'.events[k]) {
      if k < |s.events| { assert EventOk(s, s.events[k]); }
    }
  }

  lemma FillKeepsInv(limit: nat, s: Tracker, f: Fill)
    requires Inv(limit, s)
    ensures Inv(limit, OnFill(s, f))
  {
    var s' := OnFill(s, f);
    if f.clientId in s.active + s.cached + s.lost {
      assert OrderOk(s, f.clientId);
      forall x | x in s'.orders ensures OrderOk(s', x) { assert OrderOk(s, x); }
      forall x | x in s'.notFound ensures CountOk(limit, s', x) { assert CountOk(limit, s, x); }
      forall k | 0 <= k < |s'.waiting| ensures WaitingOk(s', s'.waiting[k]) { assert WaitingOk(s, s.waiting[k]); }
      forall k | 0 <= k < |s'.events| ensures EventOk(s', s'.events[k]) {
        if k < |s.events| { assert EventOk(s, s.events[k]); }
      }
    }
  }

  lemma StatusKeepsInv(limit: nat, s: Tracker, u: Update, hit: Option<string>, lostHit: Option<string>)
    requires Inv(limit, s) && Possible(s, Status(u, hit, lostHit))
    ensures Inv(limit, OnStatus(s, u, hit, lostHit))
  {
    if hit.Some? {
      FoundConcerned(s, s.active + s.cached, u, hit);
      ApplyKeepsInv(limit, s, hit.value, u);
    }
  }

  lemma WithoutWaitingKeepsInv(limit: nat, s: Tracker, k: nat)
    requires Inv(limit, s) && k < |s.waiting|
    ensures Inv(limit, WithoutWaiting(s, k))
  {
    var s1 := WithoutWaiting(s, k);
    forall j | 0 <= j < |s1.waiting| ensures WaitingOk(s1, s1.waiting[j]) {
      assert WaitingOk(s, s.waiting[if j < k then j else j + 1]);
    }
    forall x | x in s.orders ensures OrderOk(s1, x) { assert OrderOk(s, x); }
    forall x | x in s.notFound ensures CountOk(limit, s1, x) { assert CountOk(limit, s, x); }
    forall j | 0 <= j < |s1.events| ensures EventOk(s1, s1.events[j]) { assert EventOk(s, s.events[j]); }
  }

  lemma ResumeKeepsInv(limit: nat, s: Tracker, k: nat)
    requires Inv(limit, s) && k < |s.waiting|
    ensures Possible(s, Resume(k)) && Inv(limit, Next(limit, s, Resume(k)))
  {
    var w := s.waiting[k];
    assert WaitingOk(s, w);
    WithoutWaitingKeepsInv(limit, s, k);
    ApplyKeepsInv(limit, WithoutWaiting(s, k), w.id, w.u);
  }

  lemma StartKeepsInv(limit: nat, s: Tracker, o: Order)
    requires Inv(limit, s) && Possible(s, Start(o))
    ensures Inv(limit, Next(limit, s, Start(o)))
  {
    var s' := Next(limit, s, Start(o));
    forall x | x in s'.orders ensures OrderOk(s', x) { assert x != o.id ==> OrderOk(s, x); }
    forall x | x in s'.notFound ensures CountOk(limit, s', x) { assert CountOk(limit, s, x); }
    forall k | 0 <= k < |s'.waiting| ensures WaitingOk(s', s'.waiting[k]) { assert WaitingOk(s, s.waiting[k]); }
    forall k | 0 <= k < |s'.events| ensures EventOk(s', s'.events[k]) { assert EventOk(s, s.events[k]); }
  }

  /** Shrinking the cache or the lost orders, or what is filed there, keeps the invariant. */
  lemma ShrinkKeepsInv(limit: nat, s: Tracker, cached: set<string>, lost: set<string>)
    requires Inv(limit, s) && cached <= s.cached && lost <= s.lost
    ensures Inv(limit, s.(cached := cached, lost := lost))
  {
    var s' := s.(cached := cached, lost := lost);
    forall x | x in s'.orders ensures OrderOk(s', x) { assert OrderOk(s, x); }
    forall x | x in s'.notFound ensures CountOk(limit, s', x) { assert CountOk(limit, s, x); }
    forall k | 0 <= k < |s'.waiting| ensures WaitingOk(s', s'.waiting[k]) { assert WaitingOk(s, s.waiting[k]); }
    forall k | 0 <= k < |s'.events| ensures EventOk(s', s'.events[k]) { assert EventOk(s, s.events[k]); }
  }

  lemma NextKeepsInv(limit: nat, s: Tracker, op: Op)
    requires Inv(limit, s) && Possible(s, op)
    ensures Inv(limit, Next(limit, s, op))
  {
    match op
    case Start(o) => StartKeepsInv(limit, s, o);
    case Status(u, hit, lostHit) =>
      StatusKeepsInv(limit, s, u, hit, lostHit);
    case Resume(k) => ResumeKeepsInv(limit, s, k);
    case NotFound(id) =>
      if id in s.active { ReportLostKeepsInv(limit, s, id); }
      else { ShrinkKeepsInv(limit, s, s.cached, s.lost - {id}); }
    case Trade(f) => FillKeepsInv(limit, s, f);
    case Evict(ids) => ShrinkKeepsInv(limit, s, s.cached - ids, s.lost);
  }
}
