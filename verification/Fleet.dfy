/** The fleet as a rolling book: one cycle marks staleness, retires pods and banks their results, and
    refills the book; then whole runs of cycles. */
module Fleet {
  import opened Prelude

  /** What a pod reports after a tick. */
  datatype Snapshot = Snapshot(runtime: string, position: string, equity: real, pnl: real, fees: real,
                               quoteUsd: Option<real>)

  /** `state` is absent until the first tick; `seen` records the states that past markings looked at. */
  datatype PodView = PodView(symbol: string, stale: nat, state: Option<Snapshot>, seen: seq<Option<Snapshot>>)

  datatype Bank = Bank(blacklist: set<string>, cooldown: map<string, int>, pnl: real, fees: real, retired: nat,
                       lastRefill: int)

  datatype Book = Book(pods: seq<PodView>, bank: Bank)

  datatype Params = Params(target: nat, auto: bool, staleCycles: int, refillCooldown: int)

  /** A candidate token, and the symbol of the pod it becomes unless arming fails. */
  datatype Pick = Pick(symbol: string, armed: Option<string>)

  // ---------------------------------------------------------------- money

  datatype Measure = Equity | Pnl | Fees

  function Priced(v: real, q: real): real { v * q }

  function Usd(v: Option<real>, q: Option<real>): Option<real> {
    if q.Some? && q.value != 0.0 && v.Some? then Some(Priced(v.value, q.value)) else None
  }

  function OrZero(v: Option<real>): real { if v.Some? then v.value else 0.0 }

  function Reading(m: Measure, s: Option<Snapshot>): Option<real> {
    if s.None? then None
    else match m case Equity => Some(s.value.equity) case Pnl => Some(s.value.pnl) case Fees => Some(s.value.fees)
  }

  function QuoteUsd(s: Option<Snapshot>): Option<real> { if s.None? then None else s.value.quoteUsd }

  function Worth(m: Measure, p: PodView): real { OrZero(Usd(Reading(m, p.state), QuoteUsd(p.state))) }

  function Live(m: Measure, ps: seq<PodView>): real {
    if ps == [] then 0.0 else Live(m, Front(ps)) + Worth(m, Last(ps))
  }

  /** The totals that the book reports. The equity total adds banked profit, not banked equity. */
  function Total(m: Measure, b: Book): real {
    Live(m, b.pods) + if m == Fees then b.bank.fees else b.bank.pnl
  }

  lemma {:induction false} LiveAppend(m: Measure, a: seq<PodView>, b: seq<PodView>)
    ensures Live(m, a + b) == Live(m, a) + Live(m, b)
  {
    if b == [] {
      assert a + b == a;
    } else {
      assert Front(a + b) == a + Front(b) && Last(a + b) == Last(b);
      LiveAppend(m, a, Front(b));
    }
  }

  // ---------------------------------------------------------------- one cycle

  predicate Hatching(s: Option<Snapshot>) { s.Some? && s.value.runtime == "HATCHING" }

  predicate Placed(s: Option<Snapshot>) { s.Some? && s.value.position != "idle" && s.value.position != "" }

  /** Neither warming up nor holding a position. */
  predicate Idle(s: Option<Snapshot>) { !Hatching(s) && !Placed(s) }

  function Mark(p: PodView): PodView {
    p.(stale := if Hatching(p.state) || Placed(p.state) then 0 else p.stale + 1, seen := p.seen + [p.state])
  }

  function MarkAll(ps: seq<PodView>): (r: seq<PodView>)
    ensures |r| == |ps|
  {
    seq(|ps|, i requires 0 <= i < |ps| => Mark(ps[i]))
  }

  predicate Dead(p: PodView) { p.state.Some? && p.state.value.runtime in {"VETOED", "ASHES"} }

  function Living(ps: seq<PodView>): seq<PodView> {
    if ps == [] then [] else Living(Front(ps)) + (if Dead(Last(ps)) then [] else [Last(ps)])
  }

  function Fallen(ps: seq<PodView>): seq<PodView> {
    if ps == [] then [] else Fallen(Front(ps)) + (if Dead(Last(ps)) then [Last(ps)] else [])
  }

  function Retire(b: Bank, p: PodView, now: int, permanent: bool, staleCycles: int): Bank {
    var b1 := b.(pnl := b.pnl + Worth(Pnl, p), fees := b.fees + Worth(Fees, p), retired := b.retired + 1);
    if permanent then b1.(blacklist := b1.blacklist + {p.symbol})
    else b1.(cooldown := b1.cooldown[p.symbol := now + staleCycles * 2])
  }

  function RetireAll(b: Bank, ps: seq<PodView>, now: int, permanent: bool, staleCycles: int): Bank {
    if ps == [] then b
    else Retire(RetireAll(b, Front(ps), now, permanent, staleCycles), Last(ps), now, permanent, staleCycles)
  }

  lemma RetireAllPush(b: Bank, ps: seq<PodView>, p: PodView, now: int, permanent: bool, staleCycles: int)
    ensures RetireAll(b, ps + [p], now, permanent, staleCycles)
         == Retire(RetireAll(b, ps, now, permanent, staleCycles), p, now, permanent, staleCycles)
  {
    assert Front(ps + [p]) == ps;
  }

  function Stale(ps: seq<PodView>, k: int): seq<PodView> {
    if ps == [] then [] else Stale(Front(ps), k) + (if Last(ps).stale >= k then [Last(ps)] else [])
  }

  /** The pods without the first `n` stale ones. */
  function Without(ps: seq<PodView>, k: int, n: nat): seq<PodView> {
    if ps == [] then []
    else Without(Front(ps), k, n) + (if Last(ps).stale >= k && |Stale(Front(ps), k)| < n then [] else [Last(ps)])
  }

  /** The first `n` stale pods, or all of them. */
  function FirstStale(ps: seq<PodView>, k: int, n: nat): seq<PodView> {
    Stale(ps, k)[..MinI(n, |Stale(ps, k)|)]
  }

  function Symbols(ps: seq<PodView>): set<string> { set i | 0 <= i < |ps| :: ps[i].symbol }

  function Names(ns: seq<string>): set<string> { set i | 0 <= i < |ns| :: ns[i] }

  /** The symbols of the pods armed from the picks: at most `want`, skipping what is held already. */
  function Arm(picks: seq<Pick>, held: set<string>, want: int): (ns: seq<string>)
    ensures |ns| <= MaxI(0, want)
  {
    if picks == [] then []
    else
      var ns := Arm(Front(picks), held, want);
      if |ns| >= want || Last(picks).symbol in held + Names(ns) || Last(picks).armed.None? then ns
      else ns + [Last(picks).armed.value]
  }

  function NewPod(symbol: string): PodView { PodView(symbol, 0, None, []) }

  function NewPods(ns: seq<string>): (r: seq<PodView>)
    ensures |r| == |ns|
  {
    seq(|ns|, i requires 0 <= i < |ns| => NewPod(ns[i]))
  }

  /** Whether the next pick is armed after `ns` have been. */
  predicate Arms(ns: seq<string>, p: Pick, held: set<string>, want: int) {
    |ns| < want && p.symbol !in held + Names(ns) && p.armed.Some?
  }

  lemma ArmPush(picks: seq<Pick>, p: Pick, held: set<string>, want: int)
    ensures var ns := Arm(picks, held, want);
      Arm(picks + [p], held, want) == if Arms(ns, p, held, want) then ns + [p.armed.value] else ns
  {
    assert Front(picks + [p]) == picks && Last(picks + [p]) == p;
  }

  lemma NewPodsPush(ns: seq<string>, n: string)
    ensures NewPods(ns + [n]) == NewPods(ns) + [NewPod(n)]
  {
  }

  /** The book after marking and after the dead are gone. */
  function Purged(c: Params, b: Book, now: int): Book {
    var marked := MarkAll(b.pods);
    Book(Living(marked), RetireAll(b.bank, Fallen(marked), now, true, c.staleCycles))
  }

  predicate Refills(c: Params, b: Book, now: int) {
    c.auto && now - b.bank.lastRefill >= c.refillCooldown
    && (|b.pods| < c.target || Stale(b.pods, c.staleCycles) != [])
  }

  function Armed(c: Params, b: Book, picks: seq<Pick>): seq<string> {
    Arm(picks, Symbols(b.pods), c.target - |b.pods| + |Stale(b.pods, c.staleCycles)|)
  }

  /** How many stale pods the refill swaps out: the newcomers beyond the empty slots. */
  function Swapped(c: Params, b: Book, picks: seq<Pick>): nat {
    MaxI(0, |Armed(c, b, picks)| - (c.target - |b.pods|))
  }

  function Refill(c: Params, b: Book, now: int, picks: seq<Pick>): Book {
    var n := Swapped(c, b, picks);
    Book(Without(b.pods, c.staleCycles, n) + NewPods(Armed(c, b, picks)),
         RetireAll(b.bank.(lastRefill := now), FirstStale(b.pods, c.staleCycles, n), now, false, c.staleCycles))
  }

  function Rotate(c: Params, b: Book, now: int, picks: seq<Pick>): Book {
    var b1 := Purged(c, b, now);
    if Refills(c, b1, now) then Refill(c, b1, now, picks) else b1
  }

  // ---------------------------------------------------------------- size

  lemma {:induction false} WithoutSize(ps: seq<PodView>, k: int, n: nat)
    ensures |Without(ps, k, n)| == |ps| - MinI(n, |Stale(ps, k)|)
  {
    if ps != [] { WithoutSize(Front(ps), k, n); }
  }

  lemma {:induction false} LivingSize(ps: seq<PodView>)
    ensures |Living(ps)| + |Fallen(ps)| == |ps|
    ensures forall i :: 0 <= i < |Living(ps)| ==> !Dead(Living(ps)[i])
  {
    if ps != [] { LivingSize(Front(ps)); }
  }

  lemma {:induction false} StaleSize(ps: seq<PodView>, k: int)
    ensures |Stale(ps, k)| <= |ps|
    ensures forall i :: 0 <= i < |Stale(ps, k)| ==> Stale(ps, k)[i].stale >= k && Stale(ps, k)[i] in ps
  {
    if ps != [] {
      StaleSize(Front(ps), k);
      assert ps == Front(ps) + [Last(ps)];
    }
  }

  /** A refill ends with exactly as many pods as the target and the newcomers allow, and swapping
      stale pods for newcomers never shrinks the book. */
  lemma RefillSize(c: Params, b: Book, now: int, picks: seq<Pick>)
    requires |b.pods| <= c.target
    ensures |Refill(c, b, now, picks).pods| == MinI(c.target, |b.pods| + |Armed(c, b, picks)|)
    ensures |b.pods| <= |Refill(c, b, now, picks).pods|
    ensures Swapped(c, b, picks) <= |Stale(b.pods, c.staleCycles)|
  {
    WithoutSize(b.pods, c.staleCycles, Swapped(c, b, picks));
  }

  /** A cycle never takes the book above its target; only dead pods make it smaller. */
  lemma RotateSize(c: Params, b: Book, now: int, picks: seq<Pick>)
    requires |b.pods| <= c.target
    ensures |Rotate(c, b, now, picks).pods| <= c.target
    ensures |Rotate(c, b, now, picks).pods| >= |b.pods| - |Fallen(MarkAll(b.pods))|
    ensures Refills(c, Purged(c, b, now), now) ==>
      |Rotate(c, b, now, picks).pods|
      == MinI(c.target, |b.pods| - |Fallen(MarkAll(b.pods))| + |Armed(c, Purged(c, b, now), picks)|)
  {
    LivingSize(MarkAll(b.pods));
    RefillSize(c, Purged(c, b, now), now, picks);
  }

  // ---------------------------------------------------------------- conservation

  lemma {:induction false} MarkKeepsLive(m: Measure, ps: seq<PodView>)
    ensures Live(m, MarkAll(ps)) == Live(m, ps)
  {
    if ps != [] {
      MarkKeepsLive(m, Front(ps));
      assert Front(MarkAll(ps)) == MarkAll(Front(ps)) && Last(MarkAll(ps)) == Mark(Last(ps));
    }
  }

  lemma {:induction false} LivingAndFallen(m: Measure, ps: seq<PodView>)
    ensures Live(m, Living(ps)) + Live(m, Fallen(ps)) == Live(m, ps)
  {
    if ps != [] {
      LivingAndFallen(m, Front(ps));
      if Dead(Last(ps)) {
        LivePush(m, Fallen(Front(ps)), Last(ps));
        assert Living(ps) == Living(Front(ps));
      } else {
        LivePush(m, Living(Front(ps)), Last(ps));
        assert Fallen(ps) == Fallen(Front(ps));
      }
    }
  }

  lemma LivePush(m: Measure, ps: seq<PodView>, p: PodView)
    ensures Live(m, ps + [p]) == Live(m, ps) + Worth(m, p)
  {
    assert Front(ps + [p]) == ps;
  }

  /** One more pod is either kept or gone. */
  lemma StalePush(ps: seq<PodView>, p: PodView, k: int, n: nat)
    ensures if p.stale >= k && |Stale(ps, k)| < n
      then Without(ps + [p], k, n) == Without(ps, k, n) && FirstStale(ps + [p], k, n) == FirstStale(ps, k, n) + [p]
      else Without(ps + [p], k, n) == Without(ps, k, n) + [p] && FirstStale(ps + [p], k, n) == FirstStale(ps, k, n)
  {
    assert Front(ps + [p]) == ps && Last(ps + [p]) == p;
  }

  lemma {:induction false} WithoutAndGone(m: Measure, ps: seq<PodView>, k: int, n: nat)
    ensures Live(m, Without(ps, k, n)) + Live(m, FirstStale(ps, k, n)) == Live(m, ps)
  {
    if ps != [] {
      var front, p := Front(ps), Last(ps);
      assert ps == front + [p];
      WithoutAndGone(m, front, k, n);
      StalePush(front, p, k, n);
      LivePush(m, FirstStale(front, k, n), p);
      LivePush(m, Without(front, k, n), p);
    }
  }

  lemma {:induction false} BankedAll(b: Bank, ps: seq<PodView>, now: int, permanent: bool, staleCycles: int)
    ensures var b' := RetireAll(b, ps, now, permanent, staleCycles);
      && b'.pnl == b.pnl + Live(Pnl, ps) && b'.fees == b.fees + Live(Fees, ps) && b'.retired == b.retired + |ps|
      && b'.lastRefill == b.lastRefill && b.blacklist <= b'.blacklist
      && b'.blacklist == b.blacklist + (if permanent then Symbols(ps) else {})
  {
    if ps != [] {
      BankedAll(b, Front(ps), now, permanent, staleCycles);
      SymbolsPush(Front(ps), Last(ps));
      assert ps == Front(ps) + [Last(ps)];
    }
  }

  lemma SymbolsPush(ps: seq<PodView>, p: PodView)
    ensures Symbols(ps + [p]) == Symbols(ps) + {p.symbol}
  {
    forall x | x in Symbols(ps) ensures x in Symbols(ps + [p]) {
      var i :| 0 <= i < |ps| && ps[i].symbol == x;
      assert (ps + [p])[i].symbol == x;
    }
    assert (ps + [p])[|ps|].symbol == p.symbol;
  }

  lemma {:induction false} NewPodsAreWorthless(m: Measure, ns: seq<string>)
    ensures Live(m, NewPods(ns)) == 0.0
  {
    if ns != [] {
      NewPodsAreWorthless(m, Front(ns));
      assert Front(NewPods(ns)) == NewPods(Front(ns)) && Last(NewPods(ns)) == NewPod(Last(ns));
    }
  }

  /** The pods that a refill of book `b` swaps out. */
  function SwappedOut(c: Params, b: Book, picks: seq<Pick>): seq<PodView> {
    FirstStale(b.pods, c.staleCycles, Swapped(c, b, picks))
  }

  /** Every pod that a cycle retires, dead or stale, as it stands when it is retired. */
  function Retired(c: Params, b: Book, now: int, picks: seq<Pick>): seq<PodView> {
    var b1 := Purged(c, b, now);
    Fallen(MarkAll(b.pods)) + if Refills(c, b1, now) then SwappedOut(c, b1, picks) else []
  }

  function Banked(m: Measure, ps: seq<PodView>): real { if m == Fees then Live(Fees, ps) else Live(Pnl, ps) }

  lemma PurgeTotals(m: Measure, c: Params, b: Book, now: int)
    ensures Total(m, Purged(c, b, now))
         == Total(m, b) - Live(m, Fallen(MarkAll(b.pods))) + Banked(m, Fallen(MarkAll(b.pods)))
  {
    MarkKeepsLive(m, b.pods);
    LivingAndFallen(m, MarkAll(b.pods));
    BankedAll(b.bank, Fallen(MarkAll(b.pods)), now, true, c.staleCycles);
  }

  lemma RefillTotals(m: Measure, c: Params, b: Book, now: int, picks: seq<Pick>)
    ensures Total(m, Refill(c, b, now, picks))
         == Total(m, b) - Live(m, SwappedOut(c, b, picks)) + Banked(m, SwappedOut(c, b, picks))
  {
    var n := Swapped(c, b, picks);
    WithoutAndGone(m, b.pods, c.staleCycles, n);
    LiveAppend(m, Without(b.pods, c.staleCycles, n), NewPods(Armed(c, b, picks)));
    NewPodsAreWorthless(m, Armed(c, b, picks));
    BankedAll(b.bank.(lastRefill := now), SwappedOut(c, b, picks), now, false, c.staleCycles);
  }

  lemma RotateTotals(m: Measure, c: Params, b: Book, now: int, picks: seq<Pick>)
    ensures Total(m, Rotate(c, b, now, picks))
         == Total(m, b) - Live(m, Retired(c, b, now, picks)) + Banked(m, Retired(c, b, now, picks))
  {
    var b1 := Purged(c, b, now);
    PurgeTotals(m, c, b, now);
    if Refills(c, b1, now) {
      RefillTotals(m, c, b1, now, picks);
      LiveAppend(m, Fallen(MarkAll(b.pods)), SwappedOut(c, b1, picks));
      LiveAppend(Pnl, Fallen(MarkAll(b.pods)), SwappedOut(c, b1, picks));
      LiveAppend(Fees, Fallen(MarkAll(b.pods)), SwappedOut(c, b1, picks));
    } else {
      assert Fallen(MarkAll(b.pods)) + [] == Fallen(MarkAll(b.pods));
    }
  }

  /** A cycle leaves live plus banked profit, and live plus banked fees, exactly as they were. */
  lemma RotationConserves(c: Params, b: Book, now: int, picks: seq<Pick>)
    ensures Total(Pnl, Rotate(c, b, now, picks)) == Total(Pnl, b)
    ensures Total(Fees, Rotate(c, b, now, picks)) == Total(Fees, b)
  {
    RotateTotals(Pnl, c, b, now, picks);
    RotateTotals(Fees, c, b, now, picks);
  }

  /** A pod whose worth in dollars is known; a quote price of zero counts as unknown. */
  predicate IsPriced(p: PodView) {
    p.state.Some? && p.state.value.quoteUsd.Some? && p.state.value.quoteUsd.value != 0.0
  }

  /** Equity exceeds profit, by the bankroll of the pod, and quote tokens have no negative prices. */
  predicate Staked(p: PodView) {
    p.state.Some? ==>
      p.state.value.equity > p.state.value.pnl && (p.state.value.quoteUsd.Some? ==> p.state.value.quoteUsd.value >= 0.0)
  }

  lemma StakeIsPositive(p: PodView)
    requires Staked(p)
    ensures if IsPriced(p) then Worth(Pnl, p) < Worth(Equity, p) else Worth(Pnl, p) == Worth(Equity, p)
  {
    if IsPriced(p) {
      var x := p.state.value;
      MulPos(x.equity - x.pnl, x.quoteUsd.value);
      assert Priced(x.equity - x.pnl, x.quoteUsd.value)
          == Priced(x.equity, x.quoteUsd.value) - Priced(x.pnl, x.quoteUsd.value);
    }
  }

  lemma {:induction false} StakesAddUp(ps: seq<PodView>)
    requires forall i :: 0 <= i < |ps| ==> Staked(ps[i])
    ensures Live(Pnl, ps) <= Live(Equity, ps)
    ensures Live(Pnl, ps) == Live(Equity, ps) <==> forall i :: 0 <= i < |ps| ==> !IsPriced(ps[i])
  {
    if ps != [] {
      StakesAddUp(Front(ps));
      assert forall i :: 0 <= i < |Front(ps)| ==> Front(ps)[i] == ps[i];
      StakeIsPositive(ps[|ps| - 1]);
    }
  }

  /** The reported portfolio value drops by the principal of the pods that are retired; so it never
      rises, and it is unchanged exactly when no retired pod had a known worth. */
  lemma PortfolioValueKeptIff(c: Params, b: Book, now: int, picks: seq<Pick>)
    requires forall i :: 0 <= i < |Retired(c, b, now, picks)| ==> Staked(Retired(c, b, now, picks)[i])
    ensures Total(Equity, Rotate(c, b, now, picks)) <= Total(Equity, b)
    ensures Total(Equity, Rotate(c, b, now, picks)) == Total(Equity, b) <==>
      forall i :: 0 <= i < |Retired(c, b, now, picks)| ==> !IsPriced(Retired(c, b, now, picks)[i])
  {
    RotateTotals(Equity, c, b, now, picks);
    StakesAddUp(Retired(c, b, now, picks));
  }

  /** No pod is lost: what was live or is new is live or retired. */
  lemma PodsConserved(c: Params, b: Book, now: int, picks: seq<Pick>)
    requires |b.pods| <= c.target
    ensures var b' := Rotate(c, b, now, picks);
      var newcomers := if Refills(c, Purged(c, b, now), now) then |Armed(c, Purged(c, b, now), picks)| else 0;
      |b'.pods| + b'.bank.retired == |b.pods| + b.bank.retired + newcomers
  {
    var b1 := Purged(c, b, now);
    LivingSize(MarkAll(b.pods));
    BankedAll(b.bank, Fallen(MarkAll(b.pods)), now, true, c.staleCycles);
    RefillSize(c, b1, now, picks);
    WithoutSize(b1.pods, c.staleCycles, Swapped(c, b1, picks));
    BankedAll(b1.bank.(lastRefill := now), SwappedOut(c, b1, picks), now, false, c.staleCycles);
  }

  // ---------------------------------------------------------------- who stays, who goes

  /** How often `p` occurs. */
  function Tally(ps: seq<PodView>, p: PodView): nat {
    if ps == [] then 0 else Tally(Front(ps), p) + if Last(ps) == p then 1 else 0
  }

  lemma {:induction false} TallyAppend(a: seq<PodView>, b: seq<PodView>, p: PodView)
    ensures Tally(a + b, p) == Tally(a, p) + Tally(b, p)
  {
    if b == [] {
      assert a + b == a;
    } else {
      assert Front(a + b) == a + Front(b) && Last(a + b) == Last(b);
      TallyAppend(a, Front(b), p);
    }
  }

  lemma TallyPush(ps: seq<PodView>, q: PodView, p: PodView)
    ensures Tally(ps + [q], p) == Tally(ps, p) + if q == p then 1 else 0
  {
    assert Front(ps + [q]) == ps;
  }

  lemma {:induction false} LivingOrFallen(ps: seq<PodView>, p: PodView)
    ensures Tally(Living(ps), p) + Tally(Fallen(ps), p) == Tally(ps, p)
  {
    if ps != [] {
      LivingOrFallen(Front(ps), p);
      if Dead(Last(ps)) {
        TallyPush(Fallen(Front(ps)), Last(ps), p);
        assert Living(ps) == Living(Front(ps));
      } else {
        TallyPush(Living(Front(ps)), Last(ps), p);
        assert Fallen(ps) == Fallen(Front(ps));
      }
    }
  }

  lemma {:induction false} FallenAreDead(ps: seq<PodView>)
    ensures forall i :: 0 <= i < |Fallen(ps)| ==> Dead(Fallen(ps)[i])
  {
    if ps != [] { FallenAreDead(Front(ps)); }
  }

  lemma {:induction false} WithoutOrGone(ps: seq<PodView>, k: int, n: nat, p: PodView)
    ensures Tally(Without(ps, k, n), p) + Tally(FirstStale(ps, k, n), p) == Tally(ps, p)
  {
    if ps != [] {
      var front, q := Front(ps), Last(ps);
      assert ps == front + [q];
      WithoutOrGone(front, k, n, p);
      StalePush(front, q, k, n);
      TallyPush(FirstStale(front, k, n), q, p);
      TallyPush(Without(front, k, n), q, p);
    }
  }

  function Newcomers(c: Params, b: Book, now: int, picks: seq<Pick>): seq<PodView> {
    var b1 := Purged(c, b, now);
    if Refills(c, b1, now) then NewPods(Armed(c, b1, picks)) else []
  }

  /** Every pod of a cycle, marked, is afterwards in the book or retired, as it is and as often as it
      was; nothing else is in the book but the newcomers. */
  lemma EveryPodAccountedFor(c: Params, b: Book, now: int, picks: seq<Pick>, p: PodView)
    ensures Tally(Rotate(c, b, now, picks).pods, p) + Tally(Retired(c, b, now, picks), p)
         == Tally(MarkAll(b.pods), p) + Tally(Newcomers(c, b, now, picks), p)
  {
    var b1 := Purged(c, b, now);
    LivingOrFallen(MarkAll(b.pods), p);
    TallyAppend(Fallen(MarkAll(b.pods)), SwappedOut(c, b1, picks), p);
    if Refills(c, b1, now) {
      WithoutOrGone(b1.pods, c.staleCycles, Swapped(c, b1, picks), p);
      TallyAppend(Without(b1.pods, c.staleCycles, Swapped(c, b1, picks)), NewPods(Armed(c, b1, picks)), p);
    } else {
      assert Retired(c, b, now, picks) == Fallen(MarkAll(b.pods));
    }
  }

  /** Only dead and stale pods are retired, and no dead pod stays. */
  lemma OnlyDeadOrStaleRetire(c: Params, b: Book, now: int, picks: seq<Pick>)
    ensures forall i :: 0 <= i < |Retired(c, b, now, picks)| ==>
      Dead(Retired(c, b, now, picks)[i]) || Retired(c, b, now, picks)[i].stale >= c.staleCycles
    ensures forall i :: 0 <= i < |Rotate(c, b, now, picks).pods| ==> !Dead(Rotate(c, b, now, picks).pods[i])
  {
    var b1 := Purged(c, b, now);
    FallenAreDead(MarkAll(b.pods));
    LivingSize(MarkAll(b.pods));
    StaleSize(b1.pods, c.staleCycles);
    WithoutHas(b1.pods, c.staleCycles, Swapped(c, b1, picks));
  }

  lemma {:induction false} WithoutHas(ps: seq<PodView>, k: int, n: nat)
    ensures forall i :: 0 <= i < |Without(ps, k, n)| ==> Without(ps, k, n)[i] in ps
  {
    if ps != [] {
      WithoutHas(Front(ps), k, n);
      assert ps == Front(ps) + [Last(ps)];
    }
  }

  /** A refill stops short of what it wants only when every pick is held, fails to arm, or is in. */
  lemma {:induction false} ArmIsExhaustive(picks: seq<Pick>, held: set<string>, want: int)
    ensures var ns := Arm(picks, held, want);
      |ns| < want ==> forall i :: 0 <= i < |picks| && picks[i].armed.Some? ==>
        picks[i].symbol in held + Names(ns) || picks[i].armed.value in Names(ns)
  {
    if picks != [] {
      ArmIsExhaustive(Front(picks), held, want);
      var before, ns := Arm(Front(picks), held, want), Arm(picks, held, want);
      assert forall i :: 0 <= i < |before| ==> ns[i] == before[i];
      assert Names(before) <= Names(ns);
      if |ns| > |before| { assert ns[|before|] in Names(ns); }
      assert forall i :: 0 <= i < |Front(picks)| ==> picks[i] == Front(picks)[i];
    }
  }

  // ---------------------------------------------------------------- when a refill happens

  /** The pod blew its floor or refused its venue. */
  predicate IsOut(p: PodView) {
    p.state.Some? && (p.state.value.runtime == "ASHES" || p.state.value.runtime == "VETOED")
  }

  /** The stale counter after one more cycle: reset while warming up or holding a position. */
  function NextStale(p: PodView): nat {
    if p.state.Some? && (p.state.value.runtime == "HATCHING" || p.state.value.position !in {"", "idle"}) then 0
    else p.stale + 1
  }

  /** The positions of the pods that survive a cycle's purge. */
  function SurvivorsAt(ps: seq<PodView>): set<nat> { set i: nat | i < |ps| && !IsOut(ps[i]) }

  lemma SurvivorsPush(ps: seq<PodView>, p: PodView)
    ensures SurvivorsAt(ps + [p]) == SurvivorsAt(ps) + (if IsOut(p) then {} else {|ps|})
    ensures |ps| !in SurvivorsAt(ps)
  {
    assert forall i: nat :: i < |ps| ==> (ps + [p])[i] == ps[i];
    assert (ps + [p])[|ps|] == p;
  }

  lemma {:induction false} LivingCount(ps: seq<PodView>)
    ensures |Living(ps)| == |SurvivorsAt(ps)|
  {
    if ps != [] {
      var front, p := Front(ps), Last(ps);
      assert ps == front + [p];
      LivingCount(front);
      SurvivorsPush(front, p);
    }
  }

  lemma {:induction false} LivingHas(ps: seq<PodView>, p: PodView)
    ensures p in Living(ps) <==> p in ps && !Dead(p)
  {
    if ps != [] {
      LivingHas(Front(ps), p);
      assert ps == Front(ps) + [Last(ps)];
    }
  }

  lemma {:induction false} StaleHas(ps: seq<PodView>, k: int, p: PodView)
    ensures p in Stale(ps, k) <==> p in ps && p.stale >= k
  {
    if ps != [] {
      StaleHas(Front(ps), k, p);
      assert ps == Front(ps) + [Last(ps)];
    }
  }

  lemma MarkingIs(p: PodView)
    ensures Mark(p).stale == NextStale(p) && Mark(p).symbol == p.symbol && Mark(p).state == p.state
    ensures Dead(Mark(p)) <==> IsOut(p)
  {
  }

  lemma MarkedCount(ps: seq<PodView>)
    ensures |Living(MarkAll(ps))| == |SurvivorsAt(ps)|
  {
    LivingCount(MarkAll(ps));
    forall i: nat | i < |ps| ensures IsOut(MarkAll(ps)[i]) == IsOut(ps[i]) { MarkingIs(ps[i]); }
    assert SurvivorsAt(MarkAll(ps)) == SurvivorsAt(ps);
  }

  /** A surviving pod is stale by the end of this cycle. */
  predicate SomeStale(c: Params, ps: seq<PodView>) {
    exists i :: 0 <= i < |ps| && !IsOut(ps[i]) && NextStale(ps[i]) >= c.staleCycles
  }

  lemma StaleIff(c: Params, ps: seq<PodView>)
    ensures Stale(Living(MarkAll(ps)), c.staleCycles) != [] <==> SomeStale(c, ps)
  {
    var stale := Stale(Living(MarkAll(ps)), c.staleCycles);
    if stale != [] {
      var p := stale[0];
      StaleHas(Living(MarkAll(ps)), c.staleCycles, p);
      LivingHas(MarkAll(ps), p);
      var i :| 0 <= i < |ps| && MarkAll(ps)[i] == p;
      MarkingIs(ps[i]);
    }
    if i :| 0 <= i < |ps| && !IsOut(ps[i]) && NextStale(ps[i]) >= c.staleCycles {
      var p := MarkAll(ps)[i];
      MarkingIs(ps[i]);
      LivingHas(MarkAll(ps), p);
      StaleHas(Living(MarkAll(ps)), c.staleCycles, p);
    }
  }

  /** A refill is due: it is automatic, the cooldown has passed, and a slot is empty or a survivor stale. */
  predicate RefillDue(c: Params, b: Book, now: int) {
    && c.auto && now - b.bank.lastRefill >= c.refillCooldown
    && (|SurvivorsAt(b.pods)| < c.target || SomeStale(c, b.pods))
  }

  lemma DueIs(c: Params, b: Book, now: int)
    ensures RefillDue(c, b, now) <==> Refills(c, Purged(c, b, now), now)
    ensures |Purged(c, b, now).pods| == |SurvivorsAt(b.pods)|
  {
    MarkedCount(b.pods);
    StaleIff(c, b.pods);
    BankedAll(b.bank, Fallen(MarkAll(b.pods)), now, true, c.staleCycles);
  }

  /** A cycle refills, and says so by its time, exactly when a refill is due. */
  lemma RefillIff(c: Params, b: Book, now: int, picks: seq<Pick>)
    requires b.bank.lastRefill != now
    ensures Rotate(c, b, now, picks).bank.lastRefill == now <==> RefillDue(c, b, now)
  {
    var b1 := Purged(c, b, now);
    DueIs(c, b, now);
    BankedAll(b.bank, Fallen(MarkAll(b.pods)), now, true, c.staleCycles);
    BankedAll(b1.bank.(lastRefill := now), SwappedOut(c, b1, picks), now, false, c.staleCycles);
  }

  /** The symbol belongs to a pod that survives the cycle's purge. */
  predicate HeldOn(ps: seq<PodView>, s: string) {
    exists i :: 0 <= i < |ps| && !IsOut(ps[i]) && ps[i].symbol == s
  }

  lemma HeldSymbols(ps: seq<PodView>, s: string)
    ensures s in Symbols(Living(MarkAll(ps))) ==> HeldOn(ps, s)
  {
    if s in Symbols(Living(MarkAll(ps))) {
      var k :| 0 <= k < |Living(MarkAll(ps))| && Living(MarkAll(ps))[k].symbol == s;
      var p := Living(MarkAll(ps))[k];
      LivingHas(MarkAll(ps), p);
      var i :| 0 <= i < |ps| && MarkAll(ps)[i] == p;
      MarkingIs(ps[i]);
    }
  }

  /** A pick that is not held and arms makes for at least one newcomer. */
  lemma ArmSome(picks: seq<Pick>, held: set<string>, want: int, i: nat)
    requires i < |picks| && picks[i].armed.Some? && picks[i].symbol !in held && 0 < want
    ensures Arm(picks, held, want) != []
  {
    ArmIsExhaustive(picks, held, want);
  }

  /** When a refill is due, slots are empty, and some pick that is not held arms, the book grows beyond
      its survivors. */
  lemma RefillGrows(c: Params, b: Book, now: int, picks: seq<Pick>, i: nat)
    requires |b.pods| <= c.target && RefillDue(c, b, now) && |SurvivorsAt(b.pods)| < c.target
    requires i < |picks| && picks[i].armed.Some? && !HeldOn(b.pods, picks[i].symbol)
    ensures |SurvivorsAt(b.pods)| < |Rotate(c, b, now, picks).pods| <= c.target
  {
    var b1 := Purged(c, b, now);
    DueIs(c, b, now);
    HeldSymbols(b.pods, picks[i].symbol);
    ArmSome(picks, Symbols(b1.pods), c.target - |b1.pods| + |Stale(b1.pods, c.staleCycles)|, i);
    RefillSize(c, b1, now, picks);
  }

  /** Without a refill exactly the survivors stay. */
  lemma NoRefillKeeps(c: Params, b: Book, now: int, picks: seq<Pick>)
    requires !RefillDue(c, b, now)
    ensures |Rotate(c, b, now, picks).pods| == |SurvivorsAt(b.pods)|
  {
    DueIs(c, b, now);
  }

  // ---------------------------------------------------------------- which stale pods go

  /** The pods that are not stale. */
  function Healthy(ps: seq<PodView>, k: int): seq<PodView> {
    if ps == [] then [] else Healthy(Front(ps), k) + (if Last(ps).stale >= k then [] else [Last(ps)])
  }

  /** The stale pods swapped out are the first in the list: up to some place every stale pod goes, and
      from there on every pod stays. */
  lemma {:induction false} SwapsFirst(ps: seq<PodView>, k: int, n: nat) returns (m: nat)
    ensures m <= |ps|
    ensures FirstStale(ps, k, n) == Stale(ps[..m], k) && Without(ps, k, n) == Healthy(ps[..m], k) + ps[m..]
    ensures |Stale(ps[..m], k)| == MinI(n, |Stale(ps, k)|)
  {
    if ps == [] {
      m := 0;
    } else {
      var front, p := Front(ps), Last(ps);
      assert ps == front + [p];
      m := SwapsFirst(front, k, n);
      StalePush(front, p, k, n);
      assert ps[..m] == front[..m] && ps[m..] == front[m..] + [p];
      if |Stale(front, k)| < n {
        AllStale(front, k, n);
        m := |ps|;
        assert ps[..m] == ps && ps[m..] == [];
      }
    }
  }

  /** Where the whole list has fewer than `n` stale pods, all of them go. */
  lemma {:induction false} AllStale(ps: seq<PodView>, k: int, n: nat)
    requires |Stale(ps, k)| <= n
    ensures FirstStale(ps, k, n) == Stale(ps, k) && Without(ps, k, n) == Healthy(ps, k)
  {
    if ps != [] {
      var front, p := Front(ps), Last(ps);
      assert ps == front + [p];
      AllStale(front, k, n);
      StalePush(front, p, k, n);
    }
  }
}
