/** Whole runs of the fleet: each cycle ticks every pod, then rotates the book. */
module FleetRuns {
  import opened Prelude
  import opened Fleet

  /** The states that the pods report in one cycle, and the candidates on offer. */
  datatype Cycle = Cycle(states: seq<Option<Snapshot>>, picks: seq<Pick>)

  datatype Run = Run(books: seq<Book>, cycles: seq<Cycle>)

  function Tick(b: Book, states: seq<Option<Snapshot>>): Book
    requires |states| == |b.pods|
  {
    b.(pods := seq(|b.pods|, i requires 0 <= i < |b.pods| => b.pods[i].(state := states[i])))
  }

  predicate Starts(c: Params, b: Book) {
    && |b.pods| <= c.target
    && (forall i :: 0 <= i < |b.pods| ==> b.pods[i] == NewPod(b.pods[i].symbol))
    && b.bank.pnl == b.bank.fees == 0.0
  }

  predicate StepOk(c: Params, r: Run, k: nat)
    requires k < |r.cycles| < |r.books|
  {
    && |r.cycles[k].states| == |r.books[k].pods|
    && r.books[k + 1] == Rotate(c, Ticked(r, k), k + 1, r.cycles[k].picks)
  }

  /** The book of cycle `k` after its ticks, before it is rotated. */
  function Ticked(r: Run, k: nat): Book
    requires k < |r.cycles| < |r.books| && |r.cycles[k].states| == |r.books[k].pods|
  {
    Tick(r.books[k], r.cycles[k].states)
  }

  predicate IsRun(c: Params, r: Run) {
    && |r.books| == |r.cycles| + 1 && Starts(c, r.books[0])
    && forall k :: 0 <= k < |r.cycles| ==> StepOk(c, r, k)
  }

  lemma {:induction false} SizeNeverExceedsTarget(c: Params, r: Run, n: nat)
    requires IsRun(c, r) && n < |r.books|
    ensures |r.books[n].pods| <= c.target
  {
    if n > 0 {
      SizeNeverExceedsTarget(c, r, n - 1);
      assert StepOk(c, r, n - 1);
      RotateSize(c, Ticked(r, n - 1), n, r.cycles[n - 1].picks);
    }
  }

  // ---------------------------------------------------------------- money over a run

  /** How much the ticks of the first `n` cycles moved the live pods. */
  function Earned(c: Params, m: Measure, r: Run, n: nat): real
    requires IsRun(c, r) && n < |r.books|
  {
    if n == 0 then 0.0
    else
      assert StepOk(c, r, n - 1);
      Earned(c, m, r, n - 1) + (Live(m, Ticked(r, n - 1).pods) - Live(m, r.books[n - 1].pods))
  }

  /** Profit and fees of the book, live and banked, are at all times the sum of what ticks moved:
      churn neither hides losses nor makes profits. */
  lemma {:induction false} TotalsAreEarned(c: Params, m: Measure, r: Run, n: nat)
    requires IsRun(c, r) && n < |r.books| && m != Equity
    ensures Total(m, r.books[n]) == Earned(c, m, r, n)
  {
    if n == 0 {
      StartsAtZero(m, r.books[0].pods);
    } else {
      TotalsAreEarned(c, m, r, n - 1);
      assert StepOk(c, r, n - 1);
      RotationConserves(c, Ticked(r, n - 1), n, r.cycles[n - 1].picks);
    }
  }

  lemma {:induction false} StartsAtZero(m: Measure, ps: seq<PodView>)
    requires forall i :: 0 <= i < |ps| ==> ps[i] == NewPod(ps[i].symbol)
    ensures Live(m, ps) == 0.0
  {
    if ps != [] {
      StartsAtZero(m, Front(ps));
      assert Last(ps) == ps[|ps| - 1];
    }
  }

  // ---------------------------------------------------------------- staleness

  /** How many of the latest states seen were idle, without a break. */
  function Streak(seen: seq<Option<Snapshot>>): nat {
    if seen == [] || !Idle(Last(seen)) then 0 else Streak(Front(seen)) + 1
  }

  /** A streak of `k` means exactly that the last `k` states seen were idle. */
  lemma {:induction false} StreakIff(seen: seq<Option<Snapshot>>, k: nat)
    ensures Streak(seen) >= k <==> |seen| >= k && forall i :: |seen| - k <= i < |seen| ==> Idle(seen[i])
  {
    if seen != [] {
      if Idle(Last(seen)) && k > 0 {
        StreakIff(Front(seen), k - 1);
        assert forall i :: 0 <= i < |seen| - 1 ==> Front(seen)[i] == seen[i];
      } else {
        assert Last(seen) == seen[|seen| - 1];
      }
    }
  }

  /** The stale counter is the streak of idle states that the markings saw. */
  predicate Honest(p: PodView) { p.stale == Streak(p.seen) }

  predicate AllHonest(ps: seq<PodView>) { forall i :: 0 <= i < |ps| ==> Honest(ps[i]) }

  predicate Among(ps: seq<PodView>, qs: seq<PodView>) { forall i :: 0 <= i < |ps| ==> ps[i] in qs }

  lemma MarkIsHonest(p: PodView)
    requires Honest(p)
    ensures Honest(Mark(p))
  {
    assert Front(p.seen + [p.state]) == p.seen;
  }

  lemma {:induction false} LivingAmong(ps: seq<PodView>)
    ensures Among(Living(ps), ps) && Among(Fallen(ps), ps)
  {
    if ps != [] {
      LivingAmong(Front(ps));
      assert ps == Front(ps) + [Last(ps)];
    }
  }

  lemma TickIsHonest(b: Book, states: seq<Option<Snapshot>>)
    requires |states| == |b.pods| && AllHonest(b.pods)
    ensures AllHonest(Tick(b, states).pods)
  {
    var ps := Tick(b, states).pods;
    forall i | 0 <= i < |ps| ensures Honest(ps[i]) {
      assert Honest(b.pods[i]);
    }
  }

  lemma PurgeIsHonest(c: Params, b: Book, now: int)
    requires AllHonest(b.pods)
    ensures AllHonest(Purged(c, b, now).pods)
  {
    forall i | 0 <= i < |b.pods| ensures Honest(MarkAll(b.pods)[i]) {
      MarkIsHonest(b.pods[i]);
    }
    LivingAmong(MarkAll(b.pods));
  }

  lemma RotateIsHonest(c: Params, b: Book, now: int, picks: seq<Pick>)
    requires AllHonest(b.pods)
    ensures AllHonest(Rotate(c, b, now, picks).pods)
  {
    var b1 := Purged(c, b, now);
    PurgeIsHonest(c, b, now);
    WithoutHas(b1.pods, c.staleCycles, Swapped(c, b1, picks));
  }

  lemma {:induction false} RunIsHonest(c: Params, r: Run, n: nat)
    requires IsRun(c, r) && n < |r.books|
    ensures AllHonest(r.books[n].pods)
  {
    if n > 0 {
      RunIsHonest(c, r, n - 1);
      assert StepOk(c, r, n - 1);
      TickIsHonest(r.books[n - 1], r.cycles[n - 1].states);
      RotateIsHonest(c, Ticked(r, n - 1), n, r.cycles[n - 1].picks);
    }
  }

  /** A pod is swapped out as stale only after at least `staleCycles` consecutive cycles in which it
      was idle and not warming up, this one included. */
  lemma StaleRetirementsAreEarned(c: Params, r: Run, k: nat, i: nat)
    requires IsRun(c, r) && k < |r.cycles| && c.staleCycles >= 0 && StepOk(c, r, k)
    requires i < |SwappedOut(c, Purged(c, Ticked(r, k), k + 1), r.cycles[k].picks)|
    ensures var seen := SwappedOut(c, Purged(c, Ticked(r, k), k + 1), r.cycles[k].picks)[i].seen;
      |seen| >= c.staleCycles && forall j :: |seen| - c.staleCycles <= j < |seen| ==> Idle(seen[j])
  {
    RunIsHonest(c, r, k);
    var b1 := Purged(c, Ticked(r, k), k + 1);
    TickIsHonest(r.books[k], r.cycles[k].states);
    PurgeIsHonest(c, Ticked(r, k), k + 1);
    StaleSize(b1.pods, c.staleCycles);
    var p := Stale(b1.pods, c.staleCycles)[i];
    assert p in b1.pods && Honest(p);
    StreakIff(p.seen, c.staleCycles);
  }

  // ---------------------------------------------------------------- refill rate

  predicate RefillsAt(c: Params, r: Run, k: nat)
    requires k < |r.cycles| < |r.books| && |r.cycles[k].states| == |r.books[k].pods|
  {
    Refills(c, Purged(c, Ticked(r, k), k + 1), k + 1)
  }

  lemma RotateRefills(c: Params, b: Book, now: int, picks: seq<Pick>)
    ensures Rotate(c, b, now, picks).bank.lastRefill
         == if Refills(c, Purged(c, b, now), now) then now else b.bank.lastRefill
    ensures Refills(c, Purged(c, b, now), now) ==> now - b.bank.lastRefill >= c.refillCooldown
  {
    var b1 := Purged(c, b, now);
    BankedAll(b.bank, Fallen(MarkAll(b.pods)), now, true, c.staleCycles);
    BankedAll(b1.bank.(lastRefill := now), SwappedOut(c, b1, picks), now, false, c.staleCycles);
  }

  lemma {:induction false} LastRefillGrows(c: Params, r: Run, i: nat, j: nat)
    requires IsRun(c, r) && i < j < |r.books| && StepOk(c, r, i) && RefillsAt(c, r, i)
    ensures i + 1 <= r.books[j].bank.lastRefill
  {
    assert StepOk(c, r, j - 1);
    RotateRefills(c, Ticked(r, j - 1), j, r.cycles[j - 1].picks);
    if i + 1 < j { LastRefillGrows(c, r, i, j - 1); }
  }

  /** Two refilling cycles are at least the cooldown apart. */
  lemma RefillsAreSpaced(c: Params, r: Run, i: nat, j: nat)
    requires IsRun(c, r) && i < j < |r.cycles| && StepOk(c, r, i) && StepOk(c, r, j)
    requires RefillsAt(c, r, i) && RefillsAt(c, r, j)
    ensures j - i >= c.refillCooldown
  {
    LastRefillGrows(c, r, i, j);
    RotateRefills(c, Ticked(r, j), j + 1, r.cycles[j].picks);
  }

  // ---------------------------------------------------------------- no relapse

  function Excluded(b: Bank, now: int): set<string> {
    b.blacklist + set s | s in b.cooldown && b.cooldown[s] > now
  }

  /** The selection skips what it is told to skip, and a pod is armed under the symbol it was picked by. */
  predicate Truthful(picks: seq<Pick>, skip: set<string>) {
    forall i :: 0 <= i < |picks| ==>
      picks[i].symbol !in skip && (picks[i].armed.Some? ==> picks[i].armed.value == picks[i].symbol)
  }

  predicate Distinct(ps: seq<PodView>) { forall i, j :: 0 <= i < j < |ps| ==> ps[i].symbol != ps[j].symbol }

  /** No symbol twice, and none of a token that once fell. */
  predicate Clean(b: Book) { Distinct(b.pods) && Symbols(b.pods) !! b.bank.blacklist }

  predicate TruthfulRun(c: Params, r: Run)
    requires IsRun(c, r)
  {
    forall k :: 0 <= k < |r.cycles| ==> StepOk(c, r, k) && TruthfulCycle(c, Ticked(r, k), k + 1, r.cycles[k].picks)
  }

  predicate TruthfulCycle(c: Params, b: Book, now: int, picks: seq<Pick>) {
    var b1 := Purged(c, b, now);
    Truthful(picks, Excluded(b1.bank, now) + Symbols(b1.pods))
  }

  lemma {:induction false} LivingClean(ps: seq<PodView>)
    requires Distinct(ps)
    ensures Distinct(Living(ps)) && Symbols(Living(ps)) <= Symbols(ps) && Symbols(Living(ps)) !! Symbols(Fallen(ps))
    ensures Symbols(Fallen(ps)) <= Symbols(ps)
  {
    if ps != [] {
      var front, p := Front(ps), Last(ps);
      assert forall i :: 0 <= i < |front| ==> front[i] == ps[i];
      LivingClean(front);
      assert ps == front + [p];
      SymbolsPush(front, p);
      assert p.symbol !in Symbols(front);
      SymbolsPush(Living(front), p);
      SymbolsPush(Fallen(front), p);
      if Dead(p) {
        assert Living(ps) == Living(front) && Fallen(ps) == Fallen(front) + [p];
      } else {
        assert Fallen(ps) == Fallen(front) && Living(ps) == Living(front) + [p];
        DistinctPush(Living(front), p);
      }
    }
  }

  lemma DistinctPush(ps: seq<PodView>, p: PodView)
    requires Distinct(ps) && p.symbol !in Symbols(ps)
    ensures Distinct(ps + [p])
  {
  }

  lemma {:induction false} WithoutClean(ps: seq<PodView>, k: int, n: nat)
    requires Distinct(ps)
    ensures Distinct(Without(ps, k, n)) && Symbols(Without(ps, k, n)) <= Symbols(ps)
  {
    if ps != [] {
      var front, p := Front(ps), Last(ps);
      assert forall i :: 0 <= i < |front| ==> front[i] == ps[i];
      WithoutClean(front, k, n);
      assert ps == front + [p];
      SymbolsPush(front, p);
      SymbolsPush(Without(front, k, n), p);
      assert p.symbol !in Symbols(front);
      if p.stale >= k && |Stale(front, k)| < n {
        assert Without(ps, k, n) == Without(front, k, n);
      } else {
        DistinctPush(Without(front, k, n), p);
      }
    }
  }

  lemma MarkedSymbols(ps: seq<PodView>)
    ensures Symbols(MarkAll(ps)) == Symbols(ps) && (Distinct(ps) ==> Distinct(MarkAll(ps)))
  {
    assert forall i :: 0 <= i < |ps| ==> MarkAll(ps)[i].symbol == ps[i].symbol;
  }

  lemma {:induction false} ArmedIsNew(picks: seq<Pick>, held: set<string>, skip: set<string>, want: int)
    requires Truthful(picks, skip)
    ensures Names(Arm(picks, held, want)) !! held && Names(Arm(picks, held, want)) !! skip
    ensures var ns := Arm(picks, held, want); forall i, j :: 0 <= i < j < |ns| ==> ns[i] != ns[j]
  {
    if picks != [] {
      assert Last(picks) == picks[|picks| - 1];
      assert forall i :: 0 <= i < |Front(picks)| ==> Front(picks)[i] == picks[i];
      ArmedIsNew(Front(picks), held, skip, want);
    }
  }

  lemma NewSymbols(ns: seq<string>)
    ensures Symbols(NewPods(ns)) == Names(ns)
  {
    assert forall i :: 0 <= i < |ns| ==> NewPods(ns)[i].symbol == ns[i];
  }

  lemma SymbolsAppend(a: seq<PodView>, b: seq<PodView>)
    ensures Symbols(a + b) == Symbols(a) + Symbols(b)
  {
    forall x | x in Symbols(b) ensures x in Symbols(a + b) {
      var i :| 0 <= i < |b| && b[i].symbol == x;
      assert (a + b)[|a| + i].symbol == x;
    }
    forall x | x in Symbols(a) ensures x in Symbols(a + b) {
      var i :| 0 <= i < |a| && a[i].symbol == x;
      assert (a + b)[i].symbol == x;
    }
  }

  lemma PurgeClean(c: Params, b: Book, now: int)
    requires Clean(b)
    ensures Clean(Purged(c, b, now))
  {
    MarkedSymbols(b.pods);
    LivingClean(MarkAll(b.pods));
    BankedAll(b.bank, Fallen(MarkAll(b.pods)), now, true, c.staleCycles);
  }

  lemma RefillClean(c: Params, b: Book, now: int, picks: seq<Pick>)
    requires Clean(b) && Truthful(picks, Excluded(b.bank, now) + Symbols(b.pods))
    ensures Clean(Refill(c, b, now, picks))
  {
    var n, ns := Swapped(c, b, picks), Armed(c, b, picks);
    var kept := Without(b.pods, c.staleCycles, n);
    WithoutClean(b.pods, c.staleCycles, n);
    ArmedIsNew(picks, Symbols(b.pods), Excluded(b.bank, now) + Symbols(b.pods),
               c.target - |b.pods| + |Stale(b.pods, c.staleCycles)|);
    NewSymbols(ns);
    SymbolsAppend(kept, NewPods(ns));
    DistinctAppend(kept, ns);
    BankedAll(b.bank.(lastRefill := now), SwappedOut(c, b, picks), now, false, c.staleCycles);
  }

  lemma DistinctAppend(ps: seq<PodView>, ns: seq<string>)
    requires Distinct(ps) && Names(ns) !! Symbols(ps) && forall i, j :: 0 <= i < j < |ns| ==> ns[i] != ns[j]
    ensures Distinct(ps + NewPods(ns))
  {
    var all := ps + NewPods(ns);
    forall i, j | 0 <= i < j < |all| ensures all[i].symbol != all[j].symbol {
      if i < |ps| <= j {
        assert all[i].symbol in Symbols(ps) && all[j].symbol == ns[j - |ps|] && ns[j - |ps|] in Names(ns);
      }
    }
  }

  lemma TickClean(b: Book, states: seq<Option<Snapshot>>)
    requires |states| == |b.pods| && Clean(b)
    ensures Clean(Tick(b, states))
  {
    var ps := Tick(b, states).pods;
    assert forall i :: 0 <= i < |ps| ==> ps[i].symbol == b.pods[i].symbol;
  }

  /** With a truthful selection the book never holds a symbol twice, and a token that once fell never
      comes back. */
  lemma {:induction false} NoRelapse(c: Params, r: Run, n: nat)
    requires IsRun(c, r) && TruthfulRun(c, r) && n < |r.books| && Clean(r.books[0])
    ensures Clean(r.books[n])
  {
    if n > 0 {
      NoRelapse(c, r, n - 1);
      assert StepOk(c, r, n - 1);
      TickClean(r.books[n - 1], r.cycles[n - 1].states);
      PurgeClean(c, Ticked(r, n - 1), n);
      var b1 := Purged(c, Ticked(r, n - 1), n);
      if Refills(c, b1, n) { RefillClean(c, b1, n, r.cycles[n - 1].picks); }
    }
  }

  /** A token that fell stays on the blacklist. */
  lemma {:induction false} BlacklistGrows(c: Params, r: Run, i: nat, j: nat)
    requires IsRun(c, r) && i <= j < |r.books|
    ensures r.books[i].bank.blacklist <= r.books[j].bank.blacklist
    decreases j
  {
    if i < j {
      BlacklistGrows(c, r, i, j - 1);
      assert StepOk(c, r, j - 1);
      var b, picks := Ticked(r, j - 1), r.cycles[j - 1].picks;
      var b1 := Purged(c, b, j);
      BankedAll(b.bank, Fallen(MarkAll(b.pods)), j, true, c.staleCycles);
      BankedAll(b1.bank.(lastRefill := j), SwappedOut(c, b1, picks), j, false, c.staleCycles);
    }
  }

  /** Whatever the book started with: with a truthful selection no cycle ever arms a symbol that fell
      in this or an earlier cycle, that is held, or that it arms already. */
  lemma NeverRearmed(c: Params, r: Run, i: nat, k: nat, s: string)
    requires IsRun(c, r) && TruthfulRun(c, r) && i <= k < |r.cycles| && StepOk(c, r, k)
    requires s in r.books[i].bank.blacklist || s in Symbols(Fallen(MarkAll(Ticked(r, k).pods)))
    ensures s !in Names(Armed(c, Purged(c, Ticked(r, k), k + 1), r.cycles[k].picks))
  {
    var b := Ticked(r, k);
    var b1, picks := Purged(c, b, k + 1), r.cycles[k].picks;
    BlacklistGrows(c, r, i, k);
    BankedAll(b.bank, Fallen(MarkAll(b.pods)), k + 1, true, c.staleCycles);
    assert TruthfulCycle(c, b, k + 1, picks);
    ArmedIsNew(picks, Symbols(b1.pods), Excluded(b1.bank, k + 1) + Symbols(b1.pods),
               c.target - |b1.pods| + |Stale(b1.pods, c.staleCycles)|);
  }

  lemma ArmedAreFresh(c: Params, r: Run, k: nat)
    requires IsRun(c, r) && TruthfulRun(c, r) && k < |r.cycles| && StepOk(c, r, k)
    ensures var b1 := Purged(c, Ticked(r, k), k + 1);
      var ns := Armed(c, b1, r.cycles[k].picks);
      Names(ns) !! Symbols(b1.pods) && forall i, j :: 0 <= i < j < |ns| ==> ns[i] != ns[j]
  {
    var b1, picks := Purged(c, Ticked(r, k), k + 1), r.cycles[k].picks;
    assert TruthfulCycle(c, Ticked(r, k), k + 1, picks);
    ArmedIsNew(picks, Symbols(b1.pods), Excluded(b1.bank, k + 1) + Symbols(b1.pods),
               c.target - |b1.pods| + |Stale(b1.pods, c.staleCycles)|);
  }

  // ---------------------------------------------------------------- cooldown

  /** The symbol is on cooldown at least until `until`. */
  predicate CoolsUntil(b: Bank, s: string, until: int) { s in b.cooldown && b.cooldown[s] >= until }

  /** Retiring for good leaves the cooldowns; retiring for a time sets that of each pod to the same end. */
  lemma {:induction false} RetireAllCools(b: Bank, ps: seq<PodView>, now: int, permanent: bool, staleCycles: int, s: string)
    ensures var b' := RetireAll(b, ps, now, permanent, staleCycles);
      if !permanent && s in Symbols(ps) then s in b'.cooldown && b'.cooldown[s] == now + staleCycles * 2
      else (s in b'.cooldown <==> s in b.cooldown) && (s in b.cooldown ==> b'.cooldown[s] == b.cooldown[s])
  {
    if ps != [] {
      RetireAllCools(b, Front(ps), now, permanent, staleCycles, s);
      SymbolsPush(Front(ps), Last(ps));
      assert ps == Front(ps) + [Last(ps)];
    }
  }

  lemma PurgeKeepsCooldown(c: Params, b: Book, now: int, s: string, until: int)
    requires CoolsUntil(b.bank, s, until)
    ensures CoolsUntil(Purged(c, b, now).bank, s, until)
  {
    RetireAllCools(b.bank, Fallen(MarkAll(b.pods)), now, true, c.staleCycles, s);
  }

  lemma RotateKeepsCooldown(c: Params, b: Book, now: int, picks: seq<Pick>, s: string, until: int)
    requires CoolsUntil(b.bank, s, until) && until <= now + c.staleCycles * 2
    ensures CoolsUntil(Rotate(c, b, now, picks).bank, s, until)
  {
    var b1 := Purged(c, b, now);
    PurgeKeepsCooldown(c, b, now, s, until);
    RetireAllCools(b1.bank.(lastRefill := now), SwappedOut(c, b1, picks), now, false, c.staleCycles, s);
  }

  /** Cycle `k` swaps out a stale pod of symbol `s`. */
  predicate SwapsOut(c: Params, r: Run, k: nat, s: string)
    requires k < |r.cycles| < |r.books| && |r.cycles[k].states| == |r.books[k].pods|
  {
    RefillsAt(c, r, k) && s in Symbols(SwappedOut(c, Purged(c, Ticked(r, k), k + 1), r.cycles[k].picks))
  }

  lemma SwapStartsCooldown(c: Params, r: Run, k: nat, s: string)
    requires IsRun(c, r) && k < |r.cycles| && StepOk(c, r, k) && SwapsOut(c, r, k, s)
    ensures CoolsUntil(r.books[k + 1].bank, s, k + 1 + c.staleCycles * 2)
  {
    var b1 := Purged(c, Ticked(r, k), k + 1);
    RetireAllCools(b1.bank.(lastRefill := k + 1), SwappedOut(c, b1, r.cycles[k].picks), k + 1, false, c.staleCycles, s);
  }

  lemma {:induction false} CooldownLasts(c: Params, r: Run, k: nat, j: nat, s: string)
    requires IsRun(c, r) && k < j < |r.books| && StepOk(c, r, k) && SwapsOut(c, r, k, s)
    ensures CoolsUntil(r.books[j].bank, s, k + 1 + c.staleCycles * 2)
    decreases j
  {
    if j == k + 1 {
      SwapStartsCooldown(c, r, k, s);
    } else {
      CooldownLasts(c, r, k, j - 1, s);
      assert StepOk(c, r, j - 1);
      RotateKeepsCooldown(c, Ticked(r, j - 1), j, r.cycles[j - 1].picks, s, k + 1 + c.staleCycles * 2);
    }
  }

  /** What is excluded or held is not armed. */
  lemma SkippedNotArmed(c: Params, r: Run, j: nat, s: string)
    requires IsRun(c, r) && TruthfulRun(c, r) && j < |r.cycles| && StepOk(c, r, j)
    requires var b1 := Purged(c, Ticked(r, j), j + 1); s in Excluded(b1.bank, j + 1) + Symbols(b1.pods)
    ensures s !in Names(Armed(c, Purged(c, Ticked(r, j), j + 1), r.cycles[j].picks))
  {
    var b1, picks := Purged(c, Ticked(r, j), j + 1), r.cycles[j].picks;
    assert TruthfulCycle(c, Ticked(r, j), j + 1, picks);
    ArmedIsNew(picks, Symbols(b1.pods), Excluded(b1.bank, j + 1) + Symbols(b1.pods),
               c.target - |b1.pods| + |Stale(b1.pods, c.staleCycles)|);
  }

  /** With a truthful selection a symbol that was swapped out as stale is not armed again, neither in that
      cycle nor in the 2 * STALE_CYCLES - 1 cycles after it. */
  lemma StaleNotRearmed(c: Params, r: Run, k: nat, j: nat, s: string)
    requires IsRun(c, r) && TruthfulRun(c, r) && k <= j < |r.cycles| && StepOk(c, r, k) && StepOk(c, r, j)
    requires SwapsOut(c, r, k, s) && (j == k || j < k + c.staleCycles * 2)
    ensures s !in Names(Armed(c, Purged(c, Ticked(r, j), j + 1), r.cycles[j].picks))
  {
    if j == k {
      SwappedHeld(c, Purged(c, Ticked(r, k), k + 1), r.cycles[k].picks, s);
    } else {
      CooldownLasts(c, r, k, j, s);
      PurgeKeepsCooldown(c, Ticked(r, j), j + 1, s, k + 1 + c.staleCycles * 2);
    }
    SkippedNotArmed(c, r, j, s);
  }

  lemma SwappedHeld(c: Params, b: Book, picks: seq<Pick>, s: string)
    requires s in Symbols(SwappedOut(c, b, picks))
    ensures s in Symbols(b.pods)
  {
    StaleSize(b.pods, c.staleCycles);
    var i :| 0 <= i < |SwappedOut(c, b, picks)| && SwappedOut(c, b, picks)[i].symbol == s;
    assert Stale(b.pods, c.staleCycles)[i] in b.pods;
  }

  // ---------------------------------------------------------------- a run in which the portfolio value drops

  /** A book of one pod with a bankroll of 100, in a quote token worth two dollars, that falls at an equity
      of 40. */
  function FallingRun(): Run {
    var start := Book([NewPod("A")], Bank({}, map[], 0.0, 0.0, 0, -1000000000));
    var fall := Cycle([Some(Snapshot("ASHES", "idle", 40.0, -60.0, 5.0, Some(2.0)))], []);
    Run([start, Rotate(FallingParams(), Tick(start, fall.states), 1, [])], [fall])
  }

  function FallingParams(): Params { Params(1, false, 40, 4) }

  lemma FallenPush(ps: seq<PodView>, p: PodView)
    ensures Living(ps + [p]) == Living(ps) + (if Dead(p) then [] else [p])
    ensures Fallen(ps + [p]) == Fallen(ps) + (if Dead(p) then [p] else [])
  {
    assert Front(ps + [p]) == ps;
  }

  /** Where there is one pod and it is dead, a cycle without refills banks it and empties the book. */
  lemma OnePodFalls(c: Params, p: PodView, bank: Bank, now: int)
    requires Dead(p) && !c.auto
    ensures var b' := Rotate(c, Book([p], bank), now, []);
      b'.pods == [] && b'.bank.pnl == bank.pnl + Worth(Pnl, p) && b'.bank.fees == bank.fees + Worth(Fees, p)
    ensures forall m :: Live(m, [p]) == Worth(m, p)
  {
    var marked := MarkAll([p]);
    assert marked == [] + [Mark(p)];
    FallenPush([], Mark(p));
    BankedAll(bank, [Mark(p)], now, true, c.staleCycles);
    forall m ensures Live(m, [p]) == Worth(m, p) && Live(m, [Mark(p)]) == Worth(m, p) {
      LivePush(m, [], p);
      LivePush(m, [], Mark(p));
      assert [] + [p] == [p] && [] + [Mark(p)] == [Mark(p)];
    }
  }

  function FallenPod(): PodView {
    PodView("A", 0, Some(Snapshot("ASHES", "idle", 40.0, -60.0, 5.0, Some(2.0))), [])
  }

  lemma FallingRunIsRun()
    ensures IsRun(FallingParams(), FallingRun()) && StepOk(FallingParams(), FallingRun(), 0)
    ensures Ticked(FallingRun(), 0).pods == [FallenPod()]
  {
    assert StepOk(FallingParams(), FallingRun(), 0);
  }

  /** Retiring it leaves profit where it was, and takes its principal off the portfolio value. */
  lemma PortfolioValueDrops()
    ensures IsRun(FallingParams(), FallingRun()) && StepOk(FallingParams(), FallingRun(), 0)
    ensures Total(Equity, Ticked(FallingRun(), 0)) == 80.0 && Total(Equity, FallingRun().books[1]) == -120.0
    ensures Total(Pnl, Ticked(FallingRun(), 0)) == Total(Pnl, FallingRun().books[1]) == -120.0
    ensures Total(Fees, Ticked(FallingRun(), 0)) == Total(Fees, FallingRun().books[1]) == 10.0
  {
    FallingRunIsRun();
    OnePodFalls(FallingParams(), FallenPod(), FallingRun().books[0].bank, 1);
    assert Priced(40.0, 2.0) == 80.0 && Priced(-60.0, 2.0) == -120.0 && Priced(5.0, 2.0) == 10.0;
  }
}
