/** What holds of order tracking over whole runs. */
module TrackingRuns {
  import opened Prelude
  import opened Tracking

  datatype Run = Run(states: seq<Tracker>, ops: seq<Op>)

  predicate StepOk(limit: nat, s: Tracker, op: Op, s': Tracker) {
    Filed(s) && Possible(s, op) && s' == Next(limit, s, op)
  }

  predicate RunStep(limit: nat, r: Run, k: nat)
    requires k < |r.ops| < |r.states|
  {
    StepOk(limit, r.states[k], r.ops[k], r.states[k + 1])
  }

  predicate IsRun(limit: nat, r: Run) {
    && |r.states| == |r.ops| + 1 && r.states[0] == EMPTY
    && forall k :: 0 <= k < |r.ops| ==> RunStep(limit, r, k)
  }

  /** In every state of every run: the three files are disjoint, only active orders have not-found
      counts, active orders are open, and the rest of the invariant. */
  lemma {:induction false} RunInv(limit: nat, r: Run, n: nat)
    requires IsRun(limit, r) && n < |r.states|
    ensures Inv(limit, r.states[n])
  {
    if n > 0 {
      RunInv(limit, r, n - 1);
      assert RunStep(limit, r, n - 1);
      NextKeepsInv(limit, r.states[n - 1], r.ops[n - 1]);
    }
  }

  // ---------------------------------------------------------------- where an order is filed

  datatype Place = Unknown | Active | Cached | Lost | Gone

  function PlaceOf(s: Tracker, id: string): Place {
    if id !in s.orders then Unknown
    else if id in s.active then Active
    else if id in s.cached then Cached
    else if id in s.lost then Lost
    else Gone
  }

  /** The ways an order may go. Nothing leads back, and nothing leads from the cache to the lost orders. */
  predicate Leads(p: Place, q: Place) {
    p == q || p == Unknown || (p == Active && q != Unknown) || ((p == Cached || p == Lost) && q == Gone)
  }

  function Count(s: Tracker, id: string): nat { if id in s.notFound then s.notFound[id] else 0 }

  predicate Reported(s: Tracker, op: Op, id: string) { op == NotFound(id) && id in s.active }

  /** One step, seen from one order. */
  predicate Moved(limit: nat, s: Tracker, op: Op, s': Tracker, id: string) {
    && Leads(PlaceOf(s, id), PlaceOf(s', id))
    && (PlaceOf(s', id) == Active ==> Count(s', id) == Count(s, id) + if Reported(s, op, id) then 1 else 0)
    && (PlaceOf(s, id) == Active ==>
          (PlaceOf(s', id) == Lost <==> Reported(s, op, id) && Count(s, id) >= limit && !Finished(s.orders[id].state)))
    && (PlaceOf(s, id) != Active ==> Count(s, id) == 0)
    && (id in s.orders ==> id in s'.orders && s'.orders[id].born == s.orders[id].born)
    && (PlaceOf(s, id) == Unknown ==> PlaceOf(s', id) in {Unknown, Active})
  }

  /** The order in question is untouched, or another one is. */
  lemma ApplyMoves(limit: nat, s: Tracker, w: string, u: Update, op: Op, id: string)
    requires Inv(limit, s) && w in s.orders && Matches(s.orders[w], u) && !Reported(s, op, id)
    ensures Moved(limit, s, op, Apply(s, w, u), id)
  {
    assert OrderOk(s, w);
    ApplyConcerned(s, w, u);
  }

  lemma StepMoves(limit: nat, s: Tracker, op: Op, id: string)
    requires Inv(limit, s) && Possible(s, op)
    ensures Moved(limit, s, op, Next(limit, s, op), id)
  {
    match op
    case Start(o) =>
    case Status(u, hit, lostHit) => StatusMoves(limit, s, u, hit, lostHit, id);
    case Resume(k) =>
      assert WaitingOk(s, s.waiting[k]);
      ResumeMoves(limit, s, k, id);
    case NotFound(x) => ReportMoves(limit, s, x, id);
    case Trade(f) =>
    case Evict(ids) =>
  }

  lemma StatusMoves(limit: nat, s: Tracker, u: Update, hit: Option<string>, lostHit: Option<string>, id: string)
    requires Inv(limit, s) && Possible(s, Status(u, hit, lostHit))
    ensures Moved(limit, s, Status(u, hit, lostHit), OnStatus(s, u, hit, lostHit), id)
  {
    if hit.Some? {
      assert OrderOk(s, hit.value);
      FoundConcerned(s, s.active + s.cached, u, hit);
      ApplyMoves(limit, s, hit.value, u, Status(u, hit, lostHit), id);
    }
  }

  lemma ReportMoves(limit: nat, s: Tracker, x: string, id: string)
    requires Inv(limit, s)
    ensures Moved(limit, s, NotFound(x), Next(limit, s, NotFound(x)), id)
  {
    if x in s.active { ReportLostMoves(limit, s, x); }
  }

  lemma ResumeMoves(limit: nat, s: Tracker, k: nat, id: string)
    requires Inv(limit, s) && k < |s.waiting| && s.waiting[k].id in s.orders
    ensures Moved(limit, s, Resume(k), Next(limit, s, Resume(k)), id)
  {
    var w := s.waiting[k];
    assert WaitingOk(s, w) && OrderOk(s, w.id);
    ApplyConcerned(WithoutWaiting(s, k), w.id, w.u);
  }

  lemma RunMoves(limit: nat, r: Run, k: nat, id: string)
    requires IsRun(limit, r) && k < |r.ops|
    ensures Moved(limit, r.states[k], r.ops[k], r.states[k + 1], id)
  {
    RunInv(limit, r, k);
    assert RunStep(limit, r, k);
    StepMoves(limit, r.states[k], r.ops[k], id);
  }

  /** An order goes one way only: from active to cached or lost, and from there out of sight. */
  lemma {:induction false} OneWay(limit: nat, r: Run, i: nat, j: nat, id: string)
    requires IsRun(limit, r) && i <= j < |r.states|
    ensures Leads(PlaceOf(r.states[i], id), PlaceOf(r.states[j], id))
    decreases j
  {
    if i < j {
      OneWay(limit, r, i, j - 1, id);
      RunMoves(limit, r, j - 1, id);
    }
  }

  // ---------------------------------------------------------------- not-found reports

  /** How many not-found reports reached the order while it was active, in the first `n` steps. */
  function Reports(r: Run, id: string, n: nat): nat
    requires n <= |r.ops| < |r.states|
  {
    if n == 0 then 0 else Reports(r, id, n - 1) + if Reported(r.states[n - 1], r.ops[n - 1], id) then 1 else 0
  }

  /** The count kept for an active order is the number of reports, and before it starts there were none. */
  lemma {:induction false} CountIsReports(limit: nat, r: Run, id: string, n: nat)
    requires IsRun(limit, r) && n < |r.states|
    ensures PlaceOf(r.states[n], id) == Active ==> Count(r.states[n], id) == Reports(r, id, n)
    ensures PlaceOf(r.states[n], id) == Unknown ==> Reports(r, id, n) == 0
  {
    if n > 0 {
      CountIsReports(limit, r, id, n - 1);
      RunMoves(limit, r, n - 1, id);
      RunInv(limit, r, n - 1);
    }
  }

  /** The order becomes lost in step `k`. */
  predicate BecomesLost(r: Run, id: string, k: nat)
    requires k < |r.ops| < |r.states|
  {
    PlaceOf(r.states[k], id) != Lost && PlaceOf(r.states[k + 1], id) == Lost
  }

  /** An order becomes lost exactly by a not-found report that reaches it while active and unfinished,
      after at least `limit` others did. */
  lemma BecomesLostIff(limit: nat, r: Run, id: string, k: nat)
    requires IsRun(limit, r) && k < |r.ops|
    ensures BecomesLost(r, id, k) <==>
      Reported(r.states[k], r.ops[k], id) && Reports(r, id, k) >= limit
      && id in r.states[k].orders && !Finished(r.states[k].orders[id].state)
  {
    RunMoves(limit, r, k, id);
    RunInv(limit, r, k);
    CountIsReports(limit, r, id, k);
  }

  predicate BornUnfinished(s: Tracker, id: string) { id in s.orders && !Finished(s.orders[id].born) }

  /** An order constructed in an unfinished state has had at most `limit` reports while it is active,
      and exactly one more once it is lost. */
  lemma {:induction false} LostAfterLimit(limit: nat, r: Run, id: string, n: nat)
    requires IsRun(limit, r) && n < |r.states| && BornUnfinished(r.states[n], id)
    ensures PlaceOf(r.states[n], id) == Active ==> Reports(r, id, n) <= limit
    ensures PlaceOf(r.states[n], id) == Lost ==> Reports(r, id, n) == limit + 1
  {
    var s := r.states[n];
    RunInv(limit, r, n);
    CountIsReports(limit, r, id, n);
    if PlaceOf(s, id) == Active && id in s.notFound { assert CountOk(limit, s, id); }
    if PlaceOf(s, id) == Lost && n > 0 {
      RunMoves(limit, r, n - 1, id);
      if BecomesLost(r, id, n - 1) { BecomesLostIff(limit, r, id, n - 1); }
      LostAfterLimit(limit, r, id, n - 1);
    }
  }

  /** For such an order the last report is the one that makes it lost, and there is no other way. */
  lemma LostExactly(limit: nat, r: Run, id: string, k: nat)
    requires IsRun(limit, r) && k < |r.ops| && BornUnfinished(r.states[k], id)
    ensures BecomesLost(r, id, k) <==> Reported(r.states[k], r.ops[k], id) && Reports(r, id, k) == limit
  {
    BecomesLostIff(limit, r, id, k);
    LostAfterLimit(limit, r, id, k);
    RunInv(limit, r, k);
    assert OrderOk(r.states[k], id);
  }

  // ---------------------------------------------------------------- late fills

  predicate Resumes(s: Tracker, op: Op, id: string) {
    op.Resume? && op.k < |s.waiting| && s.waiting[op.k].id == id
  }

  function ResumedEvents(s: Tracker, k: nat): seq<Event>
    requires k < |s.waiting| && s.waiting[k].id in s.orders
  {
    var o := s.orders[s.waiting[k].id];
    Logged(o, UpdateOrder(o, s.waiting[k].u))
  }

  lemma ResumeLogs(limit: nat, s: Tracker, k: nat)
    requires Inv(limit, s) && k < |s.waiting|
    ensures Possible(s, Resume(k)) && Next(limit, s, Resume(k)).events == s.events + ResumedEvents(s, k)
  {
    assert WaitingOk(s, s.waiting[k]) && OrderOk(s, s.waiting[k].id);
    ApplyLogs(WithoutWaiting(s, k), s.waiting[k].id, s.waiting[k].u);
  }

  /** A second FILLED update that waited for the same order reports nothing, exactly when it does not
      bring an exchange id that the order did not have. */
  lemma SecondFillIsSilentIff(limit: nat, s: Tracker, k: nat)
    requires Inv(limit, s) && k < |s.waiting| && s.waiting[k].id in s.orders && s.orders[s.waiting[k].id].state == Filled
    ensures var o := s.orders[s.waiting[k].id];
      Next(limit, s, Resume(k)).events == s.events <==> (o.exchangeId.Some? || s.waiting[k].u.exchangeId.None?)
  {
    ResumeLogs(limit, s, k);
    assert WaitingOk(s, s.waiting[k]) && OrderOk(s, s.waiting[k].id);
  }

  /** An order that is lost for good stays failed in every step but one: an update that had been
      waiting for its fills resumes, and then it is reported complete and yet remains lost. */
  lemma LostStep(limit: nat, s: Tracker, op: Op, id: string)
    requires Inv(limit, s) && Possible(s, op) && PlaceOf(s, id) == Lost && PlaceOf(Next(limit, s, op), id) == Lost
    ensures var st, st' := s.orders[id].state, Next(limit, s, op).orders[id].state;
      st' == if Resumes(s, op, id) then Filled else st
    ensures Resumes(s, op, id) && s.orders[id].state == Failed ==>
      Next(limit, s, op).events == s.events + [Event(CompletedEvent, id)]
  {
    assert OrderOk(s, id);
    match op
    case Start(o) =>
    case Status(u, hit, lostHit) =>
      if hit.Some? {
        assert OrderOk(s, hit.value);
        FoundConcerned(s, s.active + s.cached, u, hit);
        ApplyConcerned(s, hit.value, u);
      }
    case Resume(k) =>
      var w := s.waiting[k];
      assert WaitingOk(s, w) && OrderOk(s, w.id);
      ApplyConcerned(WithoutWaiting(s, k), w.id, w.u);
      ResumeLogs(limit, s, k);
    case NotFound(x) =>
      if x in s.active { ReportLostMoves(limit, s, x); }
    case Trade(f) =>
    case Evict(ids) =>
  }

  /** Since it became lost in step `m`, an order is still marked failed exactly when no waiting update
      for it has resumed. */
  lemma {:induction false} LostIsFailedIff(limit: nat, r: Run, id: string, m: nat, n: nat)
    requires IsRun(limit, r) && m < n < |r.states| && BecomesLost(r, id, m)
    requires PlaceOf(r.states[n], id) == Lost
    ensures r.states[n].orders[id].state == Failed <==>
      forall k :: m < k < n ==> !Resumes(r.states[k], r.ops[k], id)
  {
    if n == m + 1 {
      RunLoses(limit, r, id, m);
    } else {
      OneWay(limit, r, m + 1, n - 1, id);
      RunMoves(limit, r, n - 1, id);
      LostIsFailedIff(limit, r, id, m, n - 1);
      RunStaysLost(limit, r, id, n - 1);
    }
  }

  lemma RunLoses(limit: nat, r: Run, id: string, k: nat)
    requires IsRun(limit, r) && k < |r.ops| && BecomesLost(r, id, k)
    ensures r.states[k + 1].orders[id].state == Failed
  {
    BecomesLostIff(limit, r, id, k);
    RunInv(limit, r, k);
    RunMoves(limit, r, k, id);
    CountIsReports(limit, r, id, k);
    assert RunStep(limit, r, k);
    ReportLostMoves(limit, r.states[k], id);
  }

  lemma RunStaysLost(limit: nat, r: Run, id: string, k: nat)
    requires IsRun(limit, r) && k < |r.ops|
    requires PlaceOf(r.states[k], id) == Lost && PlaceOf(r.states[k + 1], id) == Lost
    ensures r.states[k + 1].orders[id].state
         == if Resumes(r.states[k], r.ops[k], id) then Filled else r.states[k].orders[id].state
  {
    RunInv(limit, r, k);
    assert RunStep(limit, r, k);
    LostStep(limit, r.states[k], r.ops[k], id);
  }

  /** The report that makes an order lost, while a FILLED update still waits for its fills: the order
      is then reported failed and later complete, and remains lost. */
  lemma FailedThenCompleted(limit: nat, s: Tracker, id: string, k: nat)
    requires Inv(limit, s) && PlaceOf(s, id) == Active && !Finished(s.orders[id].state) && !IsFilled(s.orders[id])
    requires Count(s, id) == limit && k < |s.waiting| && s.waiting[k].id == id
    ensures var s1 := Next(limit, s, NotFound(id));
      Inv(limit, s1) && Possible(s1, Resume(k)) &&
      var s2 := Next(limit, s1, Resume(k));
      PlaceOf(s2, id) == Lost && s2.orders[id].state == Filled
      && s2.events == s.events + [Event(FailedEvent, id), Event(CompletedEvent, id)]
  {
    ReportLostMoves(limit, s, id);
    NextKeepsInv(limit, s, NotFound(id));
    assert OrderOk(s, id);
    var s1 := Next(limit, s, NotFound(id));
    ResumeMoves(limit, s1, k, id);
    ResumeLogs(limit, s1, k);
    assert WaitingOk(s1, s1.waiting[k]);
    var o := s1.orders[id];
    assert UpdateOrder(o, s1.waiting[k].u).state == Filled;
    LateFill(limit, s1, id, k);
    assert s.events + [Event(FailedEvent, id)] + [Event(CompletedEvent, id)]
      == s.events + [Event(FailedEvent, id), Event(CompletedEvent, id)];
  }

  lemma LateFill(limit: nat, s: Tracker, id: string, k: nat)
    requires Inv(limit, s) && PlaceOf(s, id) == Lost && s.orders[id].state == Failed
    requires k < |s.waiting| && s.waiting[k].id == id
    ensures Possible(s, Resume(k))
    ensures var s' := Next(limit, s, Resume(k));
      PlaceOf(s', id) == Lost && s'.orders[id].state == Filled && s'.events == s.events + [Event(CompletedEvent, id)]
  {
    assert WaitingOk(s, s.waiting[k]) && OrderOk(s, id);
    ApplyConcerned(WithoutWaiting(s, k), id, s.waiting[k].u);
    ResumeLogs(limit, s, k);
  }

  // ---------------------------------------------------------------- a run in which it happens

  function Then(limit: nat, r: Run, op: Op): Run
    requires r.states != [] && Filed(Last(r.states)) && Possible(Last(r.states), op)
  {
    Run(r.states + [Next(limit, Last(r.states), op)], r.ops + [op])
  }

  lemma RunThen(limit: nat, r: Run, op: Op)
    requires IsRun(limit, r) && Filed(Last(r.states)) && Possible(Last(r.states), op)
    ensures IsRun(limit, Then(limit, r, op)) && Last(Then(limit, r, op).states) == Next(limit, Last(r.states), op)
  {
    var r' := Then(limit, r, op);
    forall k | 0 <= k < |r'.ops| ensures RunStep(limit, r', k) {
      if k < |r.ops| { assert RunStep(limit, r, k); }
    }
  }

  /** An order of one unit, not known to the exchange yet. */
  function NewOrder(id: string): Order { Order(id, None, Open, Open, 1.0, 0.0, 0.0, {}, false) }

  /** The order is open and unfilled, has had `n` reports, and one update for it waits. */
  predicate Awaits(limit: nat, s: Tracker, id: string, n: nat) {
    && Inv(limit, s) && PlaceOf(s, id) == Active && s.orders[id].state == Open && !IsDone(s.orders[id])
    && Count(s, id) == n && s.waiting == [Waiting(id, Update(Filled, Some(id), None))] && s.events == []
    && s.orders[id].exchangeId == None && s.lost == {}
  }

  lemma {:induction false} AwaitingRun(limit: nat, id: string, n: nat) returns (r: Run)
    requires id != "" && n <= limit
    ensures IsRun(limit, r) && Awaits(limit, Last(r.states), id, n)
  {
    if n == 0 {
      r := Run([EMPTY], []);
      var start := Start(NewOrder(id));
      var status := Status(Update(Filled, Some(id), None), Some(id), None);
      RunThen(limit, r, start);
      r := Then(limit, r, start);
      RunThen(limit, r, status);
      r := Then(limit, r, status);
      RunInv(limit, r, 2);
    } else {
      r := AwaitingRun(limit, id, n - 1);
      ReportLostMoves(limit, Last(r.states), id);
      RunThen(limit, r, NotFound(id));
      r := Then(limit, r, NotFound(id));
      RunInv(limit, r, |r.ops|);
    }
  }

  /** For every limit there is a run that reports one order first failed and then complete, and
      leaves it among the lost. */
  lemma FailedThenCompletedHappens(limit: nat, id: string) returns (r: Run)
    requires id != ""
    ensures IsRun(limit, r)
    ensures var s := Last(r.states);
      && PlaceOf(s, id) == Lost && s.orders[id].state == Filled
      && s.events == [Event(FailedEvent, id), Event(CompletedEvent, id)]
  {
    r := AwaitingRun(limit, id, limit);
    FailedThenCompleted(limit, Last(r.states), id, 0);
    RunThen(limit, r, NotFound(id));
    r := Then(limit, r, NotFound(id));
    RunThen(limit, r, Resume(0));
    r := Then(limit, r, Resume(0));
  }

  /** Two FILLED updates wait for the order, the second with an exchange id that it does not have. */
  predicate AwaitsTwice(limit: nat, s: Tracker, id: string, exchangeId: string) {
    && Inv(limit, s) && PlaceOf(s, id) == Active && s.orders[id].state == Open && s.orders[id].exchangeId == None
    && s.waiting == [Waiting(id, Update(Filled, Some(id), None)), Waiting(id, Update(Filled, Some(id), Some(exchangeId)))]
    && s.events == []
  }

  lemma AwaitingTwiceRun(limit: nat, id: string, exchangeId: string) returns (r: Run)
    requires id != ""
    ensures IsRun(limit, r) && AwaitsTwice(limit, Last(r.states), id, exchangeId)
  {
    r := AwaitingRun(limit, id, 0);
    var second := Status(Update(Filled, Some(id), Some(exchangeId)), Some(id), None);
    RunThen(limit, r, second);
    r := Then(limit, r, second);
    RunInv(limit, r, |r.ops|);
  }

  lemma CompletesTwice(limit: nat, s: Tracker, id: string, exchangeId: string)
    requires AwaitsTwice(limit, s, id, exchangeId)
    ensures Possible(s, Resume(0))
    ensures var s1 := Next(limit, s, Resume(0));
      Inv(limit, s1) && Possible(s1, Resume(0))
      && Next(limit, s1, Resume(0)).events == [Event(CompletedEvent, id), Event(CompletedEvent, id)]
  {
    assert OrderOk(s, id);
    ResumeLogs(limit, s, 0);
    ResumeKeepsInv(limit, s, 0);
    ApplyConcerned(WithoutWaiting(s, 0), id, s.waiting[0].u);
    var s1 := Next(limit, s, Resume(0));
    assert s1.waiting == [s.waiting[1]] && s1.events == [Event(CompletedEvent, id)];
    ResumeLogs(limit, s1, 0);
  }

  /** A run that reports one order complete twice: two FILLED updates wait for its fills, and the second
      brings the exchange id. */
  lemma CompletedTwiceHappens(limit: nat, id: string, exchangeId: string) returns (r: Run)
    requires id != ""
    ensures IsRun(limit, r)
    ensures Last(r.states).events == [Event(CompletedEvent, id), Event(CompletedEvent, id)]
  {
    r := AwaitingTwiceRun(limit, id, exchangeId);
    CompletesTwice(limit, Last(r.states), id, exchangeId);
    RunThen(limit, r, Resume(0));
    r := Then(limit, r, Resume(0));
    RunThen(limit, r, Resume(0));
    r := Then(limit, r, Resume(0));
  }

  // ---------------------------------------------------------------- ids used again

  /** What starting any order does, its id fresh or not. */
  function Restart(s: Tracker, o: Order): Tracker {
    s.(orders := s.orders[o.id := o], active := s.active + {o.id})
  }

  /** Starting an order keeps the three files disjoint exactly when its id is neither cached nor lost. */
  lemma RestartDisjointIff(s: Tracker, o: Order)
    requires Disjoint(s)
    ensures Disjoint(Restart(s, o)) <==> o.id !in s.cached && o.id !in s.lost
  {
    if o.id in s.cached { assert o.id in Restart(s, o).active * Restart(s, o).cached; }
    if o.id in s.lost { assert o.id in Restart(s, o).active * Restart(s, o).lost; }
  }

  // ---------------------------------------------------------------- events

  predicate LogsTerminal(s: Tracker, s': Tracker, id: string) {
    exists k :: |s.events| <= k < |s'.events| && s'.events[k].id == id && Terminal(s'.events[k])
  }

  /** An order that a step takes off the active ones gets its terminal event in that step, exactly when
      it ended canceled, filled or failed (the remaining states end tracking silently). */
  lemma LeavesWithEventIff(limit: nat, s: Tracker, op: Op, id: string)
    requires Inv(limit, s) && Possible(s, op)
    requires PlaceOf(s, id) == Active && PlaceOf(Next(limit, s, op), id) != Active
    ensures id in Next(limit, s, op).orders
    ensures var s' := Next(limit, s, op);
      LogsTerminal(s, s', id) <==> Finished(s'.orders[id].state) || IsFilled(s'.orders[id])
  {
    var s' := Next(limit, s, op);
    assert OrderOk(s, id);
    match op
    case Start(o) =>
    case Status(u, hit, lostHit) =>
      if hit.Some? {
        assert OrderOk(s, hit.value);
        FoundConcerned(s, s.active + s.cached, u, hit);
        ApplyLeaves(s, hit.value, u, id);
      }
    case Resume(k) =>
      var w := s.waiting[k];
      assert WaitingOk(s, w) && OrderOk(s, w.id);
      ApplyLeaves(WithoutWaiting(s, k), w.id, w.u, id);
    case NotFound(x) =>
      if x in s.active {
        ReportLostMoves(limit, s, x);
        assert s'.events[|s.events|].id == id && Terminal(s'.events[|s.events|]);
      }
    case Trade(f) =>
    case Evict(ids) =>
  }

  lemma ApplyLeaves(s: Tracker, w: string, u: Update, id: string)
    requires w in s.orders && s.orders[w].id == w && Matches(s.orders[w], u)
    requires id in s.active && id !in Apply(s, w, u).active
    ensures w == id
    ensures LogsTerminal(s, Apply(s, w, u), id) <==>
      Finished(Apply(s, w, u).orders[id].state) || IsFilled(Apply(s, w, u).orders[id])
  {
    ApplyConcerned(s, w, u);
    ApplyLogs(s, w, u);
    var o' := Apply(s, w, u).orders[id];
    var log := Logged(s.orders[w], o');
    if Finished(o'.state) || IsFilled(o') {
      assert Terminal(log[|log| - 1]) && log[|log| - 1].id == id;
      assert Apply(s, w, u).events[|s.events| + |log| - 1] == log[|log| - 1];
    } else {
      assert log == CreationEvents(s.orders[w], o'.state);
    }
  }

  lemma {:induction false} EventsGrow(limit: nat, r: Run, i: nat, j: nat)
    requires IsRun(limit, r) && i <= j < |r.states|
    ensures r.states[i].events <= r.states[j].events
    decreases j
  {
    if i < j {
      EventsGrow(limit, r, i, j - 1);
      RunLogs(limit, r, j - 1);
    }
  }

  lemma RunLogs(limit: nat, r: Run, k: nat)
    requires IsRun(limit, r) && k < |r.ops|
    ensures r.states[k].events <= r.states[k + 1].events
  {
    assert RunStep(limit, r, k);
    StepLogs(limit, r.states[k], r.ops[k]);
  }

  lemma StepLogs(limit: nat, s: Tracker, op: Op)
    requires Filed(s) && Possible(s, op)
    ensures s.events <= Next(limit, s, op).events
  {
    match op
    case Start(o) =>
    case Status(u, hit, lostHit) =>
      if hit.Some? { ApplyGrows(s, hit.value, u); }
    case Resume(k) => ApplyGrows(WithoutWaiting(s, k), s.waiting[k].id, s.waiting[k].u);
    case NotFound(id) =>
      if id in s.active {
        ApplyGrows(s.(notFound := s.notFound[id := Count(s, id) + 1]), id, FailedUpdate(id));
      }
    case Trade(f) =>
    case Evict(ids) =>
  }

  lemma ApplyGrows(s: Tracker, id: string, u: Update)
    requires id in s.orders
    ensures s.events <= Apply(s, id, u).events
  {
  }

  /** Once an order has been reported canceled, complete or failed, it is never active again. */
  lemma TerminalEventEndsTracking(limit: nat, r: Run, i: nat, k: nat, j: nat)
    requires IsRun(limit, r) && i <= j < |r.states|
    requires k < |r.states[i].events| && Terminal(r.states[i].events[k])
    ensures r.states[i].events[k].id !in r.states[j].active
  {
    EventsGrow(limit, r, i, j);
    RunInv(limit, r, j);
    assert EventOk(r.states[j], r.states[j].events[k]);
  }
}
