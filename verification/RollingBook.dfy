/** The fleet on the heap: pods are objects in a list that rotation shrinks and extends, and the
    swarm is an object that banks what they leave. */
module RollingBook {
  import opened Prelude
  import opened Fleet

  class Pod {
    const symbol: string
    var stale: nat
    var state: Option<Snapshot>
    /** The states that past markings looked at. */
    ghost var seen: seq<Option<Snapshot>>

    constructor (symbol: string)
      ensures View() == NewPod(symbol)
    {
      this.symbol := symbol;
      stale, state, seen := 0, None, [];
    }

    ghost function View(): PodView
      reads this
    {
      PodView(symbol, stale, state, seen)
    }

    method MarkStale()
      modifies this`stale, this`seen
      ensures View() == Mark(old(View()))
    {
      seen := seen + [state];
      if state.Some? && state.value.runtime == "HATCHING" {
        stale := 0;
        return;
      }
      var active := state.Some? && state.value.position !in {"idle", ""};
      stale := if active then 0 else stale + 1;
    }

    function Value(m: Measure): Option<real>
      reads this
    {
      Usd(Reading(m, state), QuoteUsd(state))
    }

    predicate IsDead()
      reads this
    {
      state.Some? && state.value.runtime in {"VETOED", "ASHES"}
    }
  }

  class Swarm {
    var blacklist: set<string>
    var cooldown: map<string, int>
    var retiredPnl: real
    var retiredFees: real
    var retired: nat
    var lastRefill: int

    constructor (blacklist: set<string>)
      ensures View() == Bank(blacklist, map[], 0.0, 0.0, 0, -1000000000)
    {
      this.blacklist, cooldown := blacklist, map[];
      retiredPnl, retiredFees, retired, lastRefill := 0.0, 0.0, 0, -1000000000;
    }

    function View(): Bank
      reads this
    {
      Bank(blacklist, cooldown, retiredPnl, retiredFees, retired, lastRefill)
    }

    method Retire(pod: Pod, now: int, permanent: bool, staleCycles: int)
      modifies this
      ensures View() == Fleet.Retire(old(View()), pod.View(), now, permanent, staleCycles)
    {
      retiredPnl := retiredPnl + OrZero(pod.Value(Pnl));
      retiredFees := retiredFees + OrZero(pod.Value(Fees));
      retired := retired + 1;
      if permanent {
        blacklist := blacklist + {pod.symbol};
      } else {
        cooldown := cooldown[pod.symbol := now + staleCycles * 2];
      }
    }
  }

  ghost function Views(ps: seq<Pod>): (vs: seq<PodView>)
    reads ps
    ensures |vs| == |ps| && forall i :: 0 <= i < |ps| ==> vs[i] == ps[i].View()
  {
    seq(|ps|, i requires 0 <= i < |ps| reads ps => ps[i].View())
  }

  predicate NoRepeats(ps: seq<Pod>) { forall i, j :: 0 <= i < j < |ps| ==> ps[i] != ps[j] }

  lemma ViewsPush(ps: seq<Pod>, p: Pod)
    ensures Views(ps + [p]) == Views(ps) + [p.View()]
  {
  }

  lemma ViewsFront(ps: seq<Pod>)
    requires ps != []
    ensures Front(Views(ps)) == Views(Front(ps)) && Last(Views(ps)) == Last(ps).View()
  {
  }

  /** `ps` without the pods in `gone`. */
  function Minus(ps: seq<Pod>, gone: seq<Pod>): seq<Pod> {
    if ps == [] then [] else Minus(Front(ps), gone) + (if Last(ps) in gone then [] else [Last(ps)])
  }

  /** `ps` without the first occurrence of `p`. */
  function Remove(ps: seq<Pod>, p: Pod): seq<Pod> {
    if ps == [] then [] else if ps[0] == p then ps[1..] else [ps[0]] + Remove(ps[1..], p)
  }

  lemma {:induction false} RemoveAbsent(ps: seq<Pod>, p: Pod)
    requires p !in ps
    ensures Remove(ps, p) == ps
  {
    if ps != [] { RemoveAbsent(ps[1..], p); }
  }

  lemma {:induction false} RemovePush(ps: seq<Pod>, q: Pod, p: Pod)
    ensures Remove(ps + [q], p) == if p in ps then Remove(ps, p) + [q] else if p == q then ps else ps + [q]
  {
    if ps == [] {
      assert [] + [q] == [q];
    } else {
      assert (ps + [q])[1..] == ps[1..] + [q];
      RemovePush(ps[1..], q, p);
      if p !in ps { RemoveAbsent(ps[1..], p); }
    }
  }

  lemma {:induction false} MinusHas(ps: seq<Pod>, gone: seq<Pod>, p: Pod)
    ensures p in Minus(ps, gone) <==> p in ps && p !in gone
  {
    if ps != [] {
      MinusHas(Front(ps), gone, p);
      assert ps == Front(ps) + [Last(ps)];
    }
  }

  lemma MinusLast(ps: seq<Pod>, q: Pod, gone: seq<Pod>)
    ensures Minus(ps + [q], gone) == Minus(ps, gone) + (if q in gone then [] else [q])
  {
    assert Front(ps + [q]) == ps;
  }

  /** Nothing to take away. */
  lemma {:induction false} MinusNone(ps: seq<Pod>)
    ensures Minus(ps, []) == ps
  {
    if ps != [] {
      var front, q := Front(ps), Last(ps);
      assert ps == front + [q];
      MinusNone(front);
      MinusLast(front, q, []);
    }
  }

  lemma {:induction false} MinusAbsent(ps: seq<Pod>, gone: seq<Pod>, p: Pod)
    requires p !in ps
    ensures Minus(ps, gone + [p]) == Minus(ps, gone)
  {
    if ps != [] {
      assert ps == Front(ps) + [Last(ps)];
      MinusAbsent(Front(ps), gone, p);
    }
  }

  /** Removing one more pod from the list. */
  lemma {:induction false} MinusPush(ps: seq<Pod>, gone: seq<Pod>, p: Pod)
    requires NoRepeats(ps) && p !in gone
    ensures Remove(Minus(ps, gone), p) == Minus(ps, gone + [p])
  {
    if ps != [] {
      var front, q := Front(ps), Last(ps);
      assert ps == front + [q];
      MinusPush(front, gone, p);
      MinusHas(front, gone, p);
      if q in gone {
        assert Minus(ps, gone) == Minus(front, gone) && Minus(ps, gone + [p]) == Minus(front, gone + [p]);
      } else {
        RemovePush(Minus(front, gone), q, p);
        if p == q {
          assert p !in front;
          MinusAbsent(front, gone, p);
        } else if p !in front {
          RemoveAbsent(Minus(front, gone), p);
        }
      }
    }
  }

  function DeadOnes(ps: seq<Pod>): seq<Pod>
    reads ps
  {
    if ps == [] then [] else DeadOnes(Front(ps)) + (if Last(ps).IsDead() then [Last(ps)] else [])
  }

  function StaleOnes(ps: seq<Pod>, k: int): seq<Pod>
    reads ps
  {
    if ps == [] then [] else StaleOnes(Front(ps), k) + (if Last(ps).stale >= k then [Last(ps)] else [])
  }

  lemma {:induction false} DeadOnesLaw(ps: seq<Pod>)
    requires NoRepeats(ps)
    ensures Views(DeadOnes(ps)) == Fallen(Views(ps)) && Views(Minus(ps, DeadOnes(ps))) == Living(Views(ps))
    ensures NoRepeats(DeadOnes(ps)) && forall p :: p in DeadOnes(ps) ==> p in ps
  {
    if ps != [] {
      var front, p := Front(ps), Last(ps);
      assert ps == front + [p];
      DeadOnesLaw(front);
      ViewsFront(ps);
      assert p !in front;
      if p.IsDead() {
        MinusAbsent(front, DeadOnes(front), p);
        ViewsPush(DeadOnes(front), p);
        assert Minus(ps, DeadOnes(ps)) == Minus(front, DeadOnes(front));
        assert Living(Views(ps)) == Living(Views(front));
      } else {
        assert DeadOnes(ps) == DeadOnes(front) && Fallen(Views(ps)) == Fallen(Views(front));
        ViewsPush(Minus(front, DeadOnes(front)), p);
      }
    }
  }

  lemma {:induction false} StaleOnesLaw(ps: seq<Pod>, k: int)
    requires NoRepeats(ps)
    ensures Views(StaleOnes(ps, k)) == Stale(Views(ps), k)
    ensures NoRepeats(StaleOnes(ps, k)) && forall p :: p in StaleOnes(ps, k) ==> p in ps
  {
    if ps != [] {
      var front, p := Front(ps), Last(ps);
      assert ps == front + [p];
      StaleOnesLaw(front, k);
      ViewsFront(ps);
      if p.stale >= k {
        assert p !in front;
        ViewsPush(StaleOnes(front, k), p);
      } else {
        assert StaleOnes(ps, k) == StaleOnes(front, k) && Stale(Views(ps), k) == Stale(Views(front), k);
      }
    }
  }

  function FirstOf<T>(s: seq<T>, n: nat): seq<T> { s[..MinI(n, |s|)] }

  lemma FirstOfPush<T>(s: seq<T>, x: T, n: nat)
    ensures FirstOf(s + [x], n) == if |s| < n then s + [x] else FirstOf(s, n)
    ensures |s| < n ==> FirstOf(s, n) == s
  {
  }

  lemma RefillIs(c: Params, b: Fleet.Book, now: int, picks: seq<Pick>, b': Fleet.Book)
    requires b'.pods == Fleet.Without(b.pods, c.staleCycles, Swapped(c, b, picks)) + NewPods(Armed(c, b, picks))
    requires b'.bank == RetireAll(b.bank.(lastRefill := now),
                                  FirstStale(b.pods, c.staleCycles, Swapped(c, b, picks)), now, false, c.staleCycles)
    ensures b' == Fleet.Refill(c, b, now, picks)
  {
  }

  lemma {:induction false} WithoutStale(ps: seq<Pod>, k: int, n: nat)
    requires NoRepeats(ps)
    ensures Views(Minus(ps, FirstOf(StaleOnes(ps, k), n))) == Fleet.Without(Views(ps), k, n)
  {
    if ps != [] {
      var front, p := Front(ps), Last(ps);
      var before := StaleOnes(front, k);
      assert ps == front + [p] && p !in front;
      WithoutStale(front, k, n);
      ViewsFront(ps);
      StaleOnesLaw(front, k);
      FirstOfPush(before, p, n);
      if p.stale >= k && |before| < n {
        MinusAbsent(front, before, p);
        assert Minus(ps, before + [p]) == Minus(front, before);
        assert Fleet.Without(Views(ps), k, n) == Fleet.Without(Views(front), k, n);
      } else {
        assert StaleOnes(ps, k) == before + (if p.stale >= k then [p] else []);
        assert FirstOf(StaleOnes(ps, k), n) == FirstOf(before, n) && p !in FirstOf(before, n);
        ViewsPush(Minus(front, FirstOf(before, n)), p);
      }
    }
  }

  lemma JoinNoRepeats(a: seq<Pod>, b: seq<Pod>)
    requires NoRepeats(a) && NoRepeats(b) && forall p :: p in b ==> p !in a
    ensures NoRepeats(a + b)
  {
    forall i, j | 0 <= i < j < |a + b| ensures (a + b)[i] != (a + b)[j] {
      if i < |a| <= j { assert (a + b)[j] in b && (a + b)[i] in a; }
    }
  }

  lemma NotBefore(ps: seq<Pod>, i: nat)
    requires NoRepeats(ps) && i < |ps|
    ensures ps[i] !in ps[..i]
  {
  }

  lemma Shows(ps: seq<Pod>, vs: seq<PodView>)
    requires |vs| == |ps| && forall i :: 0 <= i < |ps| ==> ps[i].View() == vs[i]
    ensures Views(ps) == vs
  {
  }

  class Book {
    const swarm: Swarm
    const c: Params
    var pods: seq<Pod>

    constructor (swarm: Swarm, c: Params, pods: seq<Pod>)
      ensures this.swarm == swarm && this.c == c && this.pods == pods
    {
      this.swarm, this.c, this.pods := swarm, c, pods;
    }

    ghost function View(): Fleet.Book
      reads this, swarm, pods
    {
      Fleet.Book(Views(pods), swarm.View())
    }

    method MarkAllStale()
      requires NoRepeats(pods)
      modifies pods
      ensures Views(pods) == MarkAll(old(Views(pods)))
    {
      for i := 0 to |pods|
        invariant forall j :: 0 <= j < i ==> pods[j].View() == Mark(old(pods[j].View()))
        invariant forall j :: i <= j < |pods| ==> pods[j].View() == old(pods[j].View())
      {
        pods[i].MarkStale();
      }
      assert Views(pods) == MarkAll(old(Views(pods)));
    }

    /** Retire the pods in `gone` one by one, and take each off the list. */
    method RetireEach(gone: seq<Pod>, now: int, permanent: bool)
      requires NoRepeats(pods) && NoRepeats(gone)
      modifies this`pods, swarm
      ensures pods == Minus(old(pods), gone)
      ensures swarm.View() == RetireAll(old(swarm.View()), Views(gone), now, permanent, c.staleCycles)
    {
      ghost var all, views, bank := pods, Views(gone), swarm.View();
      MinusNone(all);
      for i := 0 to |gone|
        invariant pods == Minus(all, gone[..i])
        invariant swarm.View() == RetireAll(bank, views[..i], now, permanent, c.staleCycles)
      {
        PrefixPush(views, i);
        PrefixPush(gone, i);
        NotBefore(gone, i);
        RetireAllPush(bank, views[..i], views[i], now, permanent, c.staleCycles);
        MinusPush(all, gone[..i], gone[i]);
        RetireOne(gone[i], now, permanent);
      }
      assert gone[..|gone|] == gone && views[..|gone|] == views;
    }

    method RetireOne(pod: Pod, now: int, permanent: bool)
      modifies this`pods, swarm
      ensures pods == Remove(old(pods), pod)
      ensures swarm.View() == Fleet.Retire(old(swarm.View()), pod.View(), now, permanent, c.staleCycles)
    {
      swarm.Retire(pod, now, permanent, c.staleCycles);
      pods := Remove(pods, pod);
    }

    method RemoveDead(now: int)
      requires NoRepeats(pods)
      modifies this`pods, swarm
      ensures Views(pods) == Living(old(Views(pods))) && NoRepeats(pods)
      ensures forall p :: p in pods ==> p in old(pods)
      ensures swarm.View() == RetireAll(old(swarm.View()), Fallen(old(Views(pods))), now, true, c.staleCycles)
    {
      var dead := DeadOnes(pods);
      DeadOnesLaw(pods);
      MinusLaw(pods, dead);
      ghost var rest, living := Minus(pods, dead), Living(Views(pods));
      assert Views(rest) == living;
      RetireEach(dead, now, true);
      Shows(rest, living);
    }

    method Arm(picks: seq<Pick>, held: set<string>, want: int) returns (newPods: seq<Pod>)
      ensures Views(newPods) == NewPods(Fleet.Arm(picks, held, want))
      ensures NoRepeats(newPods) && forall p :: p in newPods ==> fresh(p)
    {
      newPods := [];
      var names: seq<string> := [];
      for i := 0 to |picks|
        invariant names == Fleet.Arm(picks[..i], held, want)
        invariant Views(newPods) == NewPods(names)
        invariant NoRepeats(newPods) && forall p :: p in newPods ==> fresh(p)
      {
        ArmPush(picks[..i], picks[i], held, want);
        assert picks[..i + 1] == picks[..i] + [picks[i]];
        if Arms(names, picks[i], held, want) {
          newPods := AddPod(newPods, picks[i].armed.value, names);
          names := names + [picks[i].armed.value];
        }
      }
      assert picks[..|picks|] == picks;
    }

    method AddPod(pods: seq<Pod>, symbol: string, ghost names: seq<string>) returns (more: seq<Pod>)
      requires NoRepeats(pods) && Views(pods) == NewPods(names)
      ensures Views(more) == NewPods(names + [symbol]) && NoRepeats(more)
      ensures forall p :: p in more ==> p in pods || fresh(p)
    {
      var pod := new Pod(symbol);
      ViewsPush(pods, pod);
      NewPodsPush(names, symbol);
      JoinNoRepeats(pods, [pod]);
      more := pods + [pod];
    }

    /** Bring in pods armed from the picks, and swap out as many stale pods as there are newcomers
        beyond the empty slots. */
    method Refill(now: int, picks: seq<Pick>)
      requires NoRepeats(pods)
      modifies this`pods, swarm
      ensures View() == Fleet.Refill(c, old(View()), now, picks)
      ensures NoRepeats(pods)
    {
      ghost var b := View();
      swarm.lastRefill := now;
      var stale := StaleOnes(pods, c.staleCycles);
      StaleOnesLaw(pods, c.staleCycles);
      var newPods := ArmFor(picks, |stale|, b);
      var n := MaxI(0, |newPods| - (c.target - |pods|));
      ghost var ns := Armed(c, b, picks);
      assert n == Swapped(c, b, picks);
      Exchange(stale, n, now, newPods, ns);
      RefillIs(c, b, now, picks, View());
    }

    /** Arm pods for the empty slots and for `staleCount` more. */
    method ArmFor(picks: seq<Pick>, staleCount: nat, ghost b: Fleet.Book) returns (newPods: seq<Pod>)
      requires b.pods == Views(pods) && staleCount == |Stale(b.pods, c.staleCycles)|
      ensures Views(newPods) == NewPods(Armed(c, b, picks))
      ensures NoRepeats(newPods) && forall p :: p in newPods ==> fresh(p)
    {
      var held := set p | p in pods :: p.symbol;
      assert held == Symbols(b.pods);
      newPods := Arm(picks, held, c.target - |pods| + staleCount);
    }

    method Exchange(stale: seq<Pod>, n: nat, now: int, newPods: seq<Pod>, ghost ns: seq<string>)
      requires NoRepeats(pods) && stale == StaleOnes(pods, c.staleCycles)
      requires NoRepeats(newPods) && (forall p :: p in newPods ==> p !in pods) && Views(newPods) == NewPods(ns)
      modifies this`pods, swarm
      ensures Views(pods) == Fleet.Without(old(Views(pods)), c.staleCycles, n) + NewPods(ns)
      ensures NoRepeats(pods)
      ensures swarm.View() == RetireAll(old(swarm.View()), FirstStale(old(Views(pods)), c.staleCycles, n),
                                        now, false, c.staleCycles)
    {
      SwapOut(stale, n, now);
      ghost var kept := Views(pods);
      JoinNoRepeats(pods, newPods);
      pods := pods + newPods;
      Shows(pods, kept + NewPods(ns));
    }

    /** Retire the first `n` stale pods, or all of them. */
    method SwapOut(stale: seq<Pod>, n: nat, now: int)
      requires NoRepeats(pods) && stale == StaleOnes(pods, c.staleCycles)
      modifies this`pods, swarm
      ensures Views(pods) == Fleet.Without(old(Views(pods)), c.staleCycles, n)
      ensures NoRepeats(pods) && forall p :: p in pods ==> p in old(pods)
      ensures swarm.View() == RetireAll(old(swarm.View()), FirstStale(old(Views(pods)), c.staleCycles, n),
                                        now, false, c.staleCycles)
    {
      var gone := stale[..MinI(n, |stale|)];
      StaleOnesLaw(pods, c.staleCycles);
      WithoutStale(pods, c.staleCycles, n);
      MinusLaw(pods, gone);
      ghost var rest, kept := Minus(pods, gone), Fleet.Without(Views(pods), c.staleCycles, n);
      assert Views(gone) == FirstStale(Views(pods), c.staleCycles, n);
      assert Views(rest) == kept;
      RetireEach(gone, now, false);
      Shows(rest, kept);
    }

    /** Mark every pod, then retire the dead. */
    method Purge(now: int)
      requires NoRepeats(pods)
      modifies this`pods, swarm, pods
      ensures View() == Purged(c, old(View()), now)
      ensures NoRepeats(pods) && forall p :: p in pods ==> p in old(pods)
    {
      MarkAllStale();
      RemoveDead(now);
    }

    /** Refill if it is time and there are empty slots or stale pods. */
    method RefillIfDue(now: int, picks: seq<Pick>)
      requires NoRepeats(pods)
      modifies this`pods, swarm
      ensures View() == if Refills(c, old(View()), now) then Fleet.Refill(c, old(View()), now, picks) else old(View())
      ensures NoRepeats(pods)
    {
      if !c.auto || now - swarm.lastRefill < c.refillCooldown {
        return;
      }
      var stale := StaleOnes(pods, c.staleCycles);
      StaleOnesLaw(pods, c.staleCycles);
      if c.target - |pods| <= 0 && stale == [] {
        return;
      }
      Refill(now, picks);
    }

    /** One cycle of the rolling book. */
    method Rotate(now: int, picks: seq<Pick>)
      requires NoRepeats(pods)
      modifies this`pods, swarm, pods
      ensures View() == Fleet.Rotate(c, old(View()), now, picks)
      ensures NoRepeats(pods)
    {
      Purge(now);
      RefillIfDue(now, picks);
    }
  }

  lemma {:induction false} MinusLaw(ps: seq<Pod>, gone: seq<Pod>)
    requires NoRepeats(ps)
    ensures NoRepeats(Minus(ps, gone)) && forall p :: p in Minus(ps, gone) ==> p in ps
  {
    if ps != [] {
      MinusLaw(Front(ps), gone);
      assert ps == Front(ps) + [Last(ps)];
      MinusHas(Front(ps), gone, Last(ps));
    }
  }
}
