/** Performance metrics on the heap: fills are objects that aggregation overwrites, and pairing
    removes them from mutable lists. */
module Performance {
  import opened Prelude
  import opened Trades

  class TradeFill {
    const orderId: string
    const side: Side
    const position: Position
    const feePct: Option<real>
    const deducted: bool
    var price: real
    var amount: real

    function View(): Trade
      reads this
    {
      Trade(orderId, side, position, price, amount, feePct, deducted)
    }

    constructor (t: Trade)
      ensures View() == t
    {
      orderId, side, position, feePct, deducted := t.orderId, t.side, t.position, t.feePct, t.deducted;
      price, amount := t.price, t.amount;
    }
  }

  function Views(fs: seq<TradeFill>): (ts: seq<Trade>)
    reads fs
    ensures |ts| == |fs| && forall i :: 0 <= i < |fs| ==> ts[i] == fs[i].View()
  {
    seq(|fs|, i requires 0 <= i < |fs| reads fs => fs[i].View())
  }

  predicate NoRepeats(fs: seq<TradeFill>) { forall i, j :: 0 <= i < j < |fs| ==> fs[i] != fs[j] }

  // ---------------------------------------------------------------- pairing

  /** A list that its users shrink. */
  class FillList {
    var items: seq<Trade>

    constructor (items: seq<Trade>)
      ensures this.items == items
    {
      this.items := items;
    }
  }

  function With(fs: seq<Trade>, p: Position): seq<Trade> {
    if fs == [] then [] else (if fs[0].position == p then [fs[0]] else []) + With(fs[1..], p)
  }

  /** The k-th with the k-th, up to the shorter length. */
  function Zip(a: seq<Trade>, b: seq<Trade>): seq<(Trade, Trade)> {
    if a == [] || b == [] then [] else [(a[0], b[0])] + Zip(a[1..], b[1..])
  }

  lemma {:induction false} ZipAt(a: seq<Trade>, b: seq<Trade>, k: nat)
    requires k < |a| && k < |b|
    ensures k < |Zip(a, b)| && Zip(a, b)[k] == (a[k], b[k])
  {
    if k > 0 { ZipAt(a[1..], b[1..], k - 1); }
  }

  function RemoveAt(fs: seq<Trade>, k: nat): seq<Trade>
    requires k < |fs|
  {
    fs[..k] + fs[k + 1..]
  }

  /** Removing the first fill with position `p` drops the head of the fills with that position and
      leaves the fills with another position as they were. */
  lemma {:induction false} RemoveFirst(fs: seq<Trade>, k: nat, p: Position, q: Position)
    requires k < |fs| && fs[k].position == p && forall j :: 0 <= j < k ==> fs[j].position != p
    ensures With(fs, p) != [] && With(fs, p)[0] == fs[k]
    ensures With(RemoveAt(fs, k), q) == if p == q then With(fs, p)[1..] else With(fs, q)
  {
    if k > 0 {
      assert RemoveAt(fs, k) == [fs[0]] + RemoveAt(fs[1..], k - 1);
      assert ([fs[0]] + RemoveAt(fs[1..], k - 1))[1..] == RemoveAt(fs[1..], k - 1);
      RemoveFirst(fs[1..], k - 1, p, q);
    } else {
      assert RemoveAt(fs, 0) == fs[1..];
    }
  }

  lemma {:induction false} NoneWith(fs: seq<Trade>, p: Position)
    requires forall j :: 0 <= j < |fs| ==> fs[j].position != p
    ensures With(fs, p) == []
  {
    if fs != [] { NoneWith(fs[1..], p); }
  }

  /** Index of the first fill with position `p`, or the length. */
  method FirstWith(fs: seq<Trade>, p: Position) returns (k: nat)
    ensures k <= |fs| && (forall j :: 0 <= j < k ==> fs[j].position != p)
    ensures k < |fs| ==> fs[k].position == p
  {
    k := 0;
    while k < |fs| && fs[k].position != p
      invariant k <= |fs| && forall j :: 0 <= j < k ==> fs[j].position != p
    {
      k := k + 1;
    }
  }

  /** Take the first OPEN of one list and the first CLOSE of the other out of both; if either is
      missing, take nothing. */
  method PositionOrder(open: FillList, close: FillList) returns (pair: Option<(Trade, Trade)>)
    requires open != close
    modifies open, close
    ensures var (o, c) := (With(old(open.items), Open), With(old(close.items), Close));
      if o == [] || c == [] then pair == None && open.items == old(open.items) && close.items == old(close.items)
      else
        && pair == Some((o[0], c[0]))
        && With(open.items, Open) == o[1..] && With(open.items, Close) == With(old(open.items), Close)
        && With(close.items, Close) == c[1..] && With(close.items, Open) == With(old(close.items), Open)
        && |open.items| == |old(open.items)| - 1 && |close.items| == |old(close.items)| - 1
  {
    var i := FirstWith(open.items, Open);
    if i == |open.items| {
      NoneWith(open.items, Open);
      return None;
    }
    var j := FirstWith(close.items, Close);
    if j == |close.items| {
      NoneWith(close.items, Close);
      return None;
    }
    RemoveFirst(open.items, i, Open, Open);
    RemoveFirst(open.items, i, Open, Close);
    RemoveFirst(close.items, j, Close, Close);
    RemoveFirst(close.items, j, Close, Open);
    pair := Some((open.items[i], close.items[j]));
    open.items, close.items := RemoveAt(open.items, i), RemoveAt(close.items, j);
  }

  /** The pairs taken so far, completed by what the rest would give, are the goal. */
  predicate OnTrack(taken: seq<(Trade, Trade)>, o: seq<Trade>, c: seq<Trade>,
                    goal: seq<(Trade, Trade)>)
  {
    taken + Zip(o, c) == goal
  }

  lemma TakePair(taken: seq<(Trade, Trade)>, o: seq<Trade>, c: seq<Trade>,
                 goal: seq<(Trade, Trade)>)
    requires OnTrack(taken, o, c, goal)
    ensures if o == [] || c == [] then taken == goal else OnTrack(taken + [(o[0], c[0])], o[1..], c[1..], goal)
  {
    if o == [] || c == [] {
      assert taken + [] == taken;
    } else {
      assert taken + [(o[0], c[0])] + Zip(o[1..], c[1..]) == taken + ([(o[0], c[0])] + Zip(o[1..], c[1..]));
    }
  }

  /** The alternating loop pairs exactly the k-th opening buy with the k-th closing sell, and the
      k-th opening sell with the k-th closing buy, until neither kind is left. */
  method PairPositions(buys: FillList, sells: FillList)
    returns (longs: seq<(Trade, Trade)>, shorts: seq<(Trade, Trade)>)
    requires buys != sells
    modifies buys, sells
    ensures longs == Zip(With(old(buys.items), Open), With(old(sells.items), Close))
    ensures shorts == Zip(With(old(sells.items), Open), With(old(buys.items), Close))
  {
    ghost var longGoal := Zip(With(buys.items, Open), With(sells.items, Close));
    ghost var shortGoal := Zip(With(sells.items, Open), With(buys.items, Close));
    longs, shorts := [], [];
    while true
      invariant OnTrack(longs, With(buys.items, Open), With(sells.items, Close), longGoal)
      invariant OnTrack(shorts, With(sells.items, Open), With(buys.items, Close), shortGoal)
      decreases |buys.items| + |sells.items|
    {
      TakePair(longs, With(buys.items, Open), With(sells.items, Close), longGoal);
      var long := PositionOrder(buys, sells);
      if long.Some? {
        longs := longs + [long.value];
      }
      TakePair(shorts, With(sells.items, Open), With(buys.items, Close), shortGoal);
      var short := PositionOrder(sells, buys);
      if short.Some? {
        shorts := shorts + [short.value];
      }
      if long.None? && short.None? {
        break;
      }
    }
  }

  function LongPnl(lg: (Trade, Trade)): real { (lg.1.price - lg.0.price) * lg.1.amount }

  function ShortPnl(st: (Trade, Trade)): real { (st.0.price - st.1.price) * st.1.amount }

  function LongTotal(pairs: seq<(Trade, Trade)>): real {
    if pairs == [] then 0.0 else LongTotal(Front(pairs)) + LongPnl(Last(pairs))
  }

  function ShortTotal(pairs: seq<(Trade, Trade)>): real {
    if pairs == [] then 0.0 else ShortTotal(Front(pairs)) + ShortPnl(Last(pairs))
  }

  method DerivativePnl(longs: seq<(Trade, Trade)>, shorts: seq<(Trade, Trade)>) returns (pnls: seq<real>)
    ensures Sum(pnls) == LongTotal(longs) + ShortTotal(shorts)
  {
    pnls := [];
    for i := 0 to |longs|
      invariant Sum(pnls) == LongTotal(longs[..i])
    {
      assert Front(longs[..i + 1]) == longs[..i] && Last(longs[..i + 1]) == longs[i];
      assert Front(pnls + [LongPnl(longs[i])]) == pnls;
      pnls := pnls + [LongPnl(longs[i])];
    }
    assert longs[..|longs|] == longs;
    for i := 0 to |shorts|
      invariant Sum(pnls) == LongTotal(longs) + ShortTotal(shorts[..i])
    {
      assert Front(shorts[..i + 1]) == shorts[..i] && Last(shorts[..i + 1]) == shorts[i];
      assert Front(pnls + [ShortPnl(shorts[i])]) == pnls;
      pnls := pnls + [ShortPnl(shorts[i])];
    }
    assert shorts[..|shorts|] == shorts;
  }

  /** The profit of the k-th opening buys against the k-th closing sells, and of the k-th opening
      sells against the k-th closing buys. */
  function PairedPnl(buys: seq<Trade>, sells: seq<Trade>): real {
    LongTotal(Zip(With(buys, Open), With(sells, Close))) + ShortTotal(Zip(With(sells, Open), With(buys, Close)))
  }

  method PairAndSum(buys: seq<Trade>, sells: seq<Trade>) returns (pnl: real)
    ensures pnl == PairedPnl(buys, sells)
  {
    var buyList := new FillList(buys);
    var sellList := new FillList(sells);
    var longs, shorts := PairPositions(buyList, sellList);
    var pnls := DerivativePnl(longs, shorts);
    pnl := Sum(pnls);
  }

  // ---------------------------------------------------------------- aggregation in place

  /** The fills of one order. */
  function Of(fs: seq<TradeFill>, id: string): seq<TradeFill> {
    if fs == [] then []
    else Of(Front(fs), id) + (if Last(fs).orderId == id then [Last(fs)] else [])
  }

  /** Order ids by first occurrence. */
  function Ids(fs: seq<TradeFill>): seq<string> {
    if fs == [] then []
    else
      var ids := Ids(Front(fs));
      if Last(fs).orderId in ids then ids else ids + [Last(fs).orderId]
  }

  lemma {:induction false} OfViews(fs: seq<TradeFill>, id: string)
    ensures Members(Views(fs), id) == Views(Of(fs, id))
    ensures forall f :: f in Of(fs, id) <==> f in fs && f.orderId == id
  {
    if fs != [] {
      OfViews(Front(fs), id);
      assert fs == Front(fs) + [Last(fs)];
      assert Front(Views(fs)) == Views(Front(fs)) && Last(Views(fs)) == Last(fs).View();
      if Last(fs).orderId == id {
        var g := Of(fs, id);
        assert Front(g) == Of(Front(fs), id) && Last(g) == Last(fs);
        assert Views(g) == Views(Front(g)) + [Last(g).View()];
      } else {
        assert Of(fs, id) == Of(Front(fs), id);
      }
    }
  }

  predicate FirstOf(fs: seq<TradeFill>, i: nat)
    requires i < |fs|
  {
    forall j :: 0 <= j < i ==> fs[j].orderId != fs[i].orderId
  }

  /** The first of an order's fills heads its group. */
  lemma {:induction false} OfHead(fs: seq<TradeFill>, i: nat)
    requires i < |fs| && FirstOf(fs, i)
    ensures Of(fs, fs[i].orderId) != [] && Of(fs, fs[i].orderId)[0] == fs[i]
    decreases |fs|
  {
    var front := Front(fs);
    if i < |front| {
      assert FirstOf(front, i);
      OfHead(front, i);
    } else {
      OfNone(front, fs[i].orderId);
    }
  }

  lemma {:induction false} OfNone(fs: seq<TradeFill>, id: string)
    requires forall j :: 0 <= j < |fs| ==> fs[j].orderId != id
    ensures Of(fs, id) == []
  {
    if fs != [] { OfNone(Front(fs), id); }
  }

  lemma {:induction false} IdsLaw(fs: seq<TradeFill>)
    ensures forall id :: id in Ids(fs) <==> exists j :: 0 <= j < |fs| && fs[j].orderId == id
    ensures forall i, j :: 0 <= i < j < |Ids(fs)| ==> Ids(fs)[i] != Ids(fs)[j]
  {
    if fs != [] {
      IdsLaw(Front(fs));
      forall id ensures id in Ids(fs) <==> exists j :: 0 <= j < |fs| && fs[j].orderId == id {
        if j :| 0 <= j < |fs| && fs[j].orderId == id {
          if j < |fs| - 1 { assert Front(fs)[j].orderId == id; }
        }
        if id in Ids(Front(fs)) {
          var j :| 0 <= j < |Front(fs)| && Front(fs)[j].orderId == id;
          assert fs[j].orderId == id;
        }
      }
    }
  }

  /** Group the fills by order, in order of first occurrence. */
  method GroupByOrder(orders: seq<TradeFill>) returns (keys: seq<string>, grouped: map<string, seq<TradeFill>>)
    ensures keys == Ids(orders)
    ensures forall id :: id in grouped <==> id in keys
    ensures forall id :: id in grouped ==> grouped[id] == Of(orders, id)
  {
    keys, grouped := [], map[];
    for i := 0 to |orders|
      invariant keys == Ids(orders[..i])
      invariant forall id :: id in grouped <==> id in keys
      invariant forall id :: id in grouped ==> grouped[id] == Of(orders[..i], id)
    {
      assert Front(orders[..i + 1]) == orders[..i] && Last(orders[..i + 1]) == orders[i];
      var id := orders[i].orderId;
      IdsLaw(orders[..i]);
      if id in grouped {
        grouped := grouped[id := grouped[id] + [orders[i]]];
      } else {
        OfNone(orders[..i], id);
        keys, grouped := keys + [id], grouped[id := [orders[i]]];
      }
    }
    assert orders[..|orders|] == orders;
  }

  /** Overwrite the first fill of a group with the merged one. */
  method MergeGroup(group: seq<TradeFill>)
    requires group != []
    modifies group[0]
    ensures group[0].View() == Merged(old(group[0].View()), old(Views(group)))
  {
    var prices, amounts := 0.0, 0.0;
    for i := 0 to |group|
      invariant prices == Sum(Prices(Views(group))[..i]) && amounts == Sum(Amounts(Views(group))[..i])
    {
      var ps, qs := Prices(Views(group)), Amounts(Views(group));
      assert Front(ps[..i + 1]) == ps[..i] && Front(qs[..i + 1]) == qs[..i];
      prices, amounts := prices + group[i].price, amounts + group[i].amount;
    }
    assert Prices(Views(group))[..|group|] == Prices(Views(group));
    assert Amounts(Views(group))[..|group|] == Amounts(Views(group));
    group[0].price := prices / |group| as real;
    group[0].amount := amounts;
  }

  /** The position of an order's first fill. */
  lemma {:induction false} FirstIndex(fs: seq<TradeFill>, id: string) returns (i: nat)
    requires exists j :: 0 <= j < |fs| && fs[j].orderId == id
    ensures i < |fs| && FirstOf(fs, i) && fs[i].orderId == id
    ensures Of(fs, id) != [] && Of(fs, id)[0] == fs[i]
    ensures forall k :: 0 <= k < |fs| && FirstOf(fs, k) && fs[k].orderId == id ==> k == i
  {
    i := 0;
    while fs[i].orderId != id
      invariant i < |fs| && forall j :: 0 <= j < i ==> fs[j].orderId != id
      decreases |fs| - i
    {
      i := i + 1;
    }
    OfHead(fs, i);
  }

  /** A group none of whose fills has been overwritten yet shows the original values. */
  lemma {:induction false} UntouchedGroup(fs: seq<TradeFill>, before: seq<Trade>, id: string)
    requires |before| == |fs| && forall i :: 0 <= i < |fs| ==> before[i].orderId == fs[i].orderId
    requires forall i :: 0 <= i < |fs| && fs[i].orderId == id ==> fs[i].View() == before[i]
    ensures Views(Of(fs, id)) == Members(before, id)
  {
    if fs != [] {
      var front, f, past, t := Front(fs), Last(fs), Front(before), Last(before);
      assert fs == front + [f] && before == past + [t];
      assert forall i :: 0 <= i < |front| ==> front[i] == fs[i] && past[i] == before[i];
      assert f == fs[|fs| - 1] && t == before[|fs| - 1];
      UntouchedGroup(front, past, id);
      OfPush(front, f, id);
      MembersPush(past, t, id);
      if f.orderId == id { ViewsPush(Of(front, id), f); }
    }
  }

  lemma OfPush(fs: seq<TradeFill>, f: TradeFill, id: string)
    ensures Of(fs + [f], id) == Of(fs, id) + (if f.orderId == id then [f] else [])
  {
    assert Front(fs + [f]) == fs;
  }

  /** What fill `i` shows once the orders in `done` have been merged. */
  ghost predicate MergedUpTo(fs: seq<TradeFill>, before: seq<Trade>, done: seq<string>)
    requires |before| == |fs|
    reads fs
  {
    forall i :: 0 <= i < |fs| ==>
      fs[i].View() == (if FirstOf(fs, i) && fs[i].orderId in done then InPlaceAt(before, i) else before[i])
  }

  predicate SameOrders(fs: seq<TradeFill>, ts: seq<Trade>) {
    |ts| == |fs| && forall i :: 0 <= i < |fs| ==> ts[i].orderId == fs[i].orderId
  }

  /** Merge one more order. */
  method MergeOrder(orders: seq<TradeFill>, group: seq<TradeFill>, ghost id: string,
                    ghost before: seq<Trade>, ghost done: seq<string>)
    requires NoRepeats(orders) && SameOrders(orders, before) && MergedUpTo(orders, before, done)
    requires id !in done && group == Of(orders, id) && exists j :: 0 <= j < |orders| && orders[j].orderId == id
    modifies orders
    ensures MergedUpTo(orders, before, done + [id])
  {
    ghost var first := FirstIndex(orders, id);
    UntouchedGroup(orders, before, id);
    assert FirstOf(orders, first) && IsFirst(before, first);
    label BeforeMerge:
    MergeGroup(group);
    assert group[0].View() == InPlaceAt(before, first);
    forall i | 0 <= i < |orders|
      ensures orders[i].View()
           == (if FirstOf(orders, i) && orders[i].orderId in done + [id] then InPlaceAt(before, i) else before[i])
    {
      if i != first {
        assert orders[i] != group[0];
        assert orders[i].View() == old@BeforeMerge(orders[i].View());
      }
    }
  }

  lemma AllMerged(fs: seq<TradeFill>, before: seq<Trade>)
    requires SameOrders(fs, before) && MergedUpTo(fs, before, Ids(fs))
    ensures Views(fs) == InPlace(before)
  {
    IdsLaw(fs);
    forall i | 0 <= i < |fs| ensures Views(fs)[i] == InPlace(before)[i] {
      assert fs[i].orderId in Ids(fs);
      assert FirstOf(fs, i) <==> IsFirst(before, i);
    }
  }

  /** The groups in order of first occurrence. */
  function Groups(fs: seq<TradeFill>): seq<seq<TradeFill>> {
    seq(|Ids(fs)|, k requires 0 <= k < |Ids(fs)| => Of(fs, Ids(fs)[k]))
  }

  method ListGroups(orders: seq<TradeFill>) returns (groups: seq<seq<TradeFill>>)
    ensures groups == Groups(orders)
  {
    var keys, grouped := GroupByOrder(orders);
    ghost var goal := Groups(orders);
    groups := [];
    for k := 0 to |keys|
      invariant groups == goal[..k]
    {
      assert keys[k] in keys;
      PrefixPush(goal, k);
      groups := groups + [grouped[keys[k]]];
    }
  }

  /** The k-th group belongs to an order that occurs, and to no earlier group. */
  lemma GroupLaw(fs: seq<TradeFill>, k: nat)
    requires k < |Ids(fs)|
    ensures exists j :: 0 <= j < |fs| && fs[j].orderId == Ids(fs)[k]
    ensures Ids(fs)[k] !in Ids(fs)[..k]
    ensures Groups(fs)[k] != []
  {
    IdsLaw(fs);
    assert Ids(fs)[k] in Ids(fs);
    var i := FirstIndex(fs, Ids(fs)[k]);
  }

  predicate NoneEmpty(groups: seq<seq<TradeFill>>) { forall k :: 0 <= k < |groups| ==> groups[k] != [] }

  /** The first fill of each group. */
  function Heads(groups: seq<seq<TradeFill>>): seq<TradeFill>
    requires NoneEmpty(groups)
  {
    seq(|groups|, k requires 0 <= k < |groups| => groups[k][0])
  }

  lemma GroupsNoneEmpty(fs: seq<TradeFill>)
    ensures NoneEmpty(Groups(fs))
  {
    forall k | 0 <= k < |Groups(fs)| ensures Groups(fs)[k] != [] {
      GroupLaw(fs, k);
    }
  }

  /** The fills that are the first of their order, among the first `n`. */
  function FirstFills(fs: seq<TradeFill>, n: nat): seq<TradeFill>
    requires n <= |fs|
  {
    if n == 0 then [] else FirstFills(fs, n - 1) + (if FirstOf(fs, n - 1) then [fs[n - 1]] else [])
  }

  lemma {:induction false} FirstFillsLaw(fs: seq<TradeFill>, n: nat)
    requires n <= |fs|
    ensures |FirstFills(fs, n)| == |Ids(fs[..n])|
    ensures forall k :: 0 <= k < |Ids(fs[..n])| ==>
      FirstFills(fs, n)[k].orderId == Ids(fs[..n])[k] && Of(fs, Ids(fs[..n])[k]) != []
      && FirstFills(fs, n)[k] == Of(fs, Ids(fs[..n])[k])[0]
  {
    if n > 0 {
      FirstFillsLaw(fs, n - 1);
      assert Front(fs[..n]) == fs[..n - 1] && Last(fs[..n]) == fs[n - 1];
      IdsLaw(fs[..n - 1]);
      if FirstOf(fs, n - 1) { OfHead(fs, n - 1); }
    }
  }

  lemma HeadsAreFirstFills(fs: seq<TradeFill>)
    ensures NoneEmpty(Groups(fs)) && Heads(Groups(fs)) == FirstFills(fs, |fs|)
  {
    GroupsNoneEmpty(fs);
    var heads, firsts := Heads(Groups(fs)), FirstFills(fs, |fs|);
    assert fs[..|fs|] == fs;
    FirstFillsLaw(fs, |fs|);
    assert |heads| == |firsts|;
    forall k | 0 <= k < |heads| ensures heads[k] == firsts[k] {
      assert heads[k] == Of(fs, Ids(fs)[k])[0];
    }
  }

  lemma ViewsPush(fs: seq<TradeFill>, f: TradeFill)
    ensures Views(fs + [f]) == Views(fs) + [f.View()]
  {
    assert Front(fs + [f]) == fs;
  }

  /** The first fills, read at any time. */
  lemma {:induction false} FirstFillsShow(fs: seq<TradeFill>, before: seq<Trade>, after: seq<Trade>, n: nat)
    requires SameOrders(fs, before) && n <= |fs| == |after|
    requires forall i :: 0 <= i < |fs| ==> fs[i].View() == after[i]
    ensures Views(FirstFills(fs, n)) == PickFirsts(before, after, n)
  {
    if n > 0 {
      FirstFillsShow(fs, before, after, n - 1);
      assert FirstOf(fs, n - 1) <==> IsFirst(before, n - 1);
      if FirstOf(fs, n - 1) {
        ViewsPush(FirstFills(fs, n - 1), fs[n - 1]);
      } else {
        assert FirstFills(fs, n) == FirstFills(fs, n - 1);
      }
    }
  }

  /** Merge each order's fills into its first fill, which callers keep sharing. */
  method AggregateOrders(orders: seq<TradeFill>) returns (agg: seq<TradeFill>)
    requires NoRepeats(orders)
    modifies orders
    ensures Views(orders) == InPlace(old(Views(orders)))
    ensures Views(agg) == Aggregate(old(Views(orders)))
  {
    ghost var before := Views(orders);
    agg := MergeGroups(orders, before);
    FirstFillsShow(orders, before, Views(orders), |orders|);
  }

  lemma NothingMerged(fs: seq<TradeFill>)
    ensures MergedUpTo(fs, Views(fs), [])
  {
  }

  method MergeGroups(orders: seq<TradeFill>, ghost before: seq<Trade>) returns (agg: seq<TradeFill>)
    requires NoRepeats(orders) && before == Views(orders)
    modifies orders
    ensures Views(orders) == InPlace(before) && agg == FirstFills(orders, |orders|)
  {
    var groups := ListGroups(orders);
    HeadsAreFirstFills(orders);
    agg := MergeEach(orders, groups, before);
    assert Ids(orders)[..|groups|] == Ids(orders) && Heads(groups)[..|groups|] == Heads(groups);
    AllMerged(orders, before);
  }

  method MergeEach(orders: seq<TradeFill>, groups: seq<seq<TradeFill>>, ghost before: seq<Trade>)
    returns (agg: seq<TradeFill>)
    requires NoRepeats(orders) && before == Views(orders) && groups == Groups(orders) && NoneEmpty(groups)
    modifies orders
    ensures MergedUpTo(orders, before, Ids(orders)[..|groups|]) && agg == Heads(groups)[..|groups|]
  {
    NothingMerged(orders);
    ghost var heads, ids := Heads(groups), Ids(orders);
    agg := [];
    for k := 0 to |groups|
      invariant MergedUpTo(orders, before, ids[..k])
      invariant agg == heads[..k]
    {
      GroupLaw(orders, k);
      PrefixPush(ids, k);
      MergeOrder(orders, groups[k], ids[k], before, ids[..k]);
      PrefixPush(heads, k);
      agg := agg + [groups[k][0]];
    }
  }

  // ---------------------------------------------------------------- the metrics object

  function OfSide(fs: seq<TradeFill>, side: Side): seq<TradeFill> {
    if fs == [] then []
    else OfSide(Front(fs), side) + (if Last(fs).side == side then [Last(fs)] else [])
  }

  lemma {:induction false} OfSideLaw(fs: seq<TradeFill>, side: Side)
    ensures forall i :: 0 <= i < |OfSide(fs, side)| ==> OfSide(fs, side)[i] in fs && OfSide(fs, side)[i].side == side
    ensures NoRepeats(fs) ==> NoRepeats(OfSide(fs, side))
  {
    if fs != [] {
      var front, g := Front(fs), OfSide(Front(fs), side);
      OfSideLaw(front, side);
      assert fs == front + [Last(fs)];
      if NoRepeats(fs) {
        assert NoRepeats(front);
        forall i | 0 <= i < |g| ensures g[i] != Last(fs) {
          var j :| 0 <= j < |front| && front[j] == g[i];
          assert fs[j] == g[i];
        }
      }
    }
  }

  lemma {:induction false} OfSideViews(fs: seq<TradeFill>, side: Side)
    ensures Views(OfSide(fs, side)) == TradesOf(Views(fs), side)
  {
    if fs != [] {
      OfSideViews(Front(fs), side);
      assert Front(Views(fs)) == Views(Front(fs)) && Last(Views(fs)) == Last(fs).View();
      if Last(fs).side == side {
        ViewsPush(OfSide(Front(fs), side), Last(fs));
      } else {
        assert OfSide(fs, side) == OfSide(Front(fs), side);
      }
    }
  }

  lemma SidesShow(fs: seq<TradeFill>, bs: seq<Trade>, ss: seq<Trade>, os: seq<Trade>)
    requires Views(OfSide(fs, Buy)) == bs && Views(OfSide(fs, Sell)) == ss && Views(OfSide(fs, OtherSide)) == os
    ensures TradesOf(Views(fs), Buy) == bs && TradesOf(Views(fs), Sell) == ss && TradesOf(Views(fs), OtherSide) == os
  {
    OfSideViews(fs, Buy);
    OfSideViews(fs, Sell);
    OfSideViews(fs, OtherSide);
  }

  predicate Apart(a: seq<TradeFill>, b: seq<TradeFill>) {
    forall i, j :: 0 <= i < |a| && 0 <= j < |b| ==> a[i] != b[j]
  }

  /** The profit of trades `ts` at closing price `p`. */
  function ProfitOf(ts: seq<Trade>, p: real): real {
    if Derivative(ts) then ClosedPnl(ts) else TotalGain(ts, p)
  }

  /** The profit of the positions that were closed, an order counting as one fill. */
  function ClosedPnl(ts: seq<Trade>): real {
    PairedPnl(Aggregate(TradesOf(ts, Buy)), Aggregate(TradesOf(ts, Sell)))
  }

  /** `pnl` is the profit of `ts` at closing price `p`, and computing it left the trades as `after`. */
  predicate Booked(ts: seq<Trade>, after: seq<Trade>, p: real, pnl: real) {
    pnl == ProfitOf(ts, p) && AfterPnl(ts, after)
  }

  lemma BookedDerivative(ts: seq<Trade>, after: seq<Trade>, p: real, pnl: real)
    requires Derivative(ts) && AggregatedBySide(ts, after) && pnl == ClosedPnl(ts)
    ensures Booked(ts, after, p, pnl)
  {
  }

  lemma BookedSpot(ts: seq<Trade>, p: real)
    requires !Derivative(ts)
    ensures Booked(ts, ts, p, TotalGain(ts, p))
  {
  }

  lemma ApartUnchanged(fs: seq<TradeFill>, ts: seq<Trade>)
    requires |ts| == |fs| && forall i :: 0 <= i < |fs| ==> fs[i].View() == ts[i]
    ensures Views(fs) == ts
  {
  }

  /** Aggregate both sides; what they hand on is read off as values. */
  method AggregatePositionOrder(buys: seq<TradeFill>, sells: seq<TradeFill>)
    returns (aggBuys: seq<Trade>, aggSells: seq<Trade>)
    requires NoRepeats(buys) && NoRepeats(sells) && Apart(buys, sells)
    modifies buys, sells
    ensures Views(buys) == InPlace(old(Views(buys))) && Views(sells) == InPlace(old(Views(sells)))
    ensures aggBuys == Aggregate(old(Views(buys))) && aggSells == Aggregate(old(Views(sells)))
  {
    ghost var sellViews := Views(sells);
    var mergedBuys := AggregateOrders(buys);
    aggBuys := Views(mergedBuys);
    ghost var buyViews := Views(buys);
    ApartUnchanged(sells, sellViews);
    var mergedSells := AggregateOrders(sells);
    aggSells := Views(mergedSells);
    ApartUnchanged(buys, buyViews);
  }

  class PerformanceMetrics {
    var buyVolBase: real
    var buyVolQuote: real
    var sellVolBase: real
    var sellVolQuote: real
    var startBaseBal: real
    var startQuoteBal: real
    var curPrice: real
    var holdValue: real
    var curValue: real
    var tradePnl: real
    var feeInQuote: real
    var totalPnl: real

    function Vols(): Volumes
      reads this
    {
      Volumes(buyVolBase, buyVolQuote, sellVolBase, sellVolQuote)
    }

    constructor ()
      ensures Vols() == Volumes(0.0, 0.0, 0.0, 0.0) && feeInQuote == 0.0
    {
      buyVolBase, buyVolQuote, sellVolBase, sellVolQuote := 0.0, 0.0, 0.0, 0.0;
      startBaseBal, startQuoteBal, curPrice, holdValue, curValue := 0.0, 0.0, 0.0, 0.0, 0.0;
      tradePnl, feeInQuote, totalPnl := 0.0, 0.0, 0.0;
    }

    /** Accumulate one trade. */
    method Accumulate(f: TradeFill)
      modifies this`buyVolBase, this`buyVolQuote, this`sellVolBase, this`sellVolQuote
      ensures Vols() == AddTrade(old(Vols()), f.View())
    {
      var t := f.View();
      if f.side == Buy {
        buyVolBase := buyVolBase + t.amount;
        buyVolQuote := buyVolQuote + t.amount * t.price * -1.0;
      } else if f.side == Sell {
        sellVolBase := sellVolBase + t.amount * -1.0;
        sellVolQuote := sellVolQuote + t.amount * t.price;
      }
      sellVolQuote := sellVolQuote + Impact(t);
    }

    method Preprocess(trades: seq<TradeFill>) returns (buys: seq<TradeFill>, sells: seq<TradeFill>)
      requires Vols() == Volumes(0.0, 0.0, 0.0, 0.0)
      modifies this`buyVolBase, this`buyVolQuote, this`sellVolBase, this`sellVolQuote
      ensures buys == OfSide(trades, Buy) && sells == OfSide(trades, Sell)
      ensures Vols() == VolumesOf(Views(trades))
    {
      ghost var ts := Views(trades);
      buys, sells := [], [];
      for i := 0 to |trades|
        invariant buys == OfSide(trades[..i], Buy) && sells == OfSide(trades[..i], Sell)
        invariant Views(trades) == ts && Vols() == VolumesOf(ts[..i])
      {
        assert Front(trades[..i + 1]) == trades[..i] && Last(trades[..i + 1]) == trades[i];
        assert Front(ts[..i + 1]) == ts[..i] && Last(ts[..i + 1]) == trades[i].View();
        if trades[i].side == Buy {
          buys := buys + [trades[i]];
        } else if trades[i].side == Sell {
          sells := sells + [trades[i]];
        }
        Accumulate(trades[i]);
      }
      assert trades[..|trades|] == trades && ts[..|trades|] == ts;
    }

    /** Balances before the trades, and the value of holding them against what there is now. */
    method SetBalances(curBase: real, curQuote: real)
      modifies this`startBaseBal, this`startQuoteBal, this`holdValue, this`curValue
      ensures curValue - holdValue == Worth(Vols(), curPrice)
    {
      startBaseBal := curBase - (buyVolBase + sellVolBase);
      startQuoteBal := curQuote - (buyVolQuote + sellVolQuote);
      holdValue := startBaseBal * curPrice + startQuoteBal;
      curValue := curBase * curPrice + curQuote;
      assert startBaseBal * curPrice == curBase * curPrice - (buyVolBase + sellVolBase) * curPrice;
    }

    /** Profit of the closed positions; the fills are aggregated in place on the way. */
    method CloseOutPnl(buys: seq<TradeFill>, sells: seq<TradeFill>, ghost others: seq<TradeFill>)
      returns (pnl: real)
      requires NoRepeats(buys) && NoRepeats(sells) && Apart(buys, sells)
      requires Apart(buys, others) && Apart(sells, others)
      modifies buys, sells
      ensures Views(buys) == InPlace(old(Views(buys))) && Views(sells) == InPlace(old(Views(sells)))
      ensures Views(others) == old(Views(others))
      ensures pnl == PairedPnl(Aggregate(old(Views(buys))), Aggregate(old(Views(sells))))
    {
      ghost var otherViews := Views(others);
      var aggBuys, aggSells := AggregatePositionOrder(buys, sells);
      ApartUnchanged(others, otherViews);
      pnl := PairAndSum(aggBuys, aggSells);
    }

    /** Percentage fees of all trades, as they stand by now. */
    method CalculateFees(trades: seq<TradeFill>)
      requires feeInQuote == 0.0
      modifies this`feeInQuote
      ensures feeInQuote == Sum(Fees(Views(trades)))
    {
      var fees := Fees(Views(trades));
      for i := 0 to |trades|
        invariant feeInQuote == Sum(fees[..i])
      {
        assert Front(fees[..i + 1]) == fees[..i] && Last(fees[..i + 1]) == fees[i];
        feeInQuote := feeInQuote + Fee(trades[i].View());
      }
      assert fees[..|trades|] == fees;
    }

    /** Volumes, balances, and the profit as if all trades were spot. */
    method SpotPnl(trades: seq<TradeFill>, curBase: real, curQuote: real, ratePrice: Option<real>)
      returns (buys: seq<TradeFill>, sells: seq<TradeFill>)
      requires trades != [] && Vols() == Volumes(0.0, 0.0, 0.0, 0.0)
      modifies this
      ensures buys == OfSide(trades, Buy) && sells == OfSide(trades, Sell)
      ensures curPrice == if ratePrice.Some? then ratePrice.value else Last(trades).price
      ensures tradePnl == TotalGain(old(Views(trades)), curPrice) && feeInQuote == old(feeInQuote)
    {
      ghost var ts := Views(trades);
      buys, sells := Preprocess(trades);
      curPrice := if ratePrice.Some? then ratePrice.value else Last(trades).price;
      SetBalances(curBase, curQuote);
      VolumesGain(ts, curPrice);
      tradePnl := curValue - holdValue;
    }

    /** The profit metric: the spot figure, unless the trades are derivatives. */
    method CalculateTradePnl(trades: seq<TradeFill>, buys: seq<TradeFill>, sells: seq<TradeFill>)
      requires NoRepeats(trades) && buys == OfSide(trades, Buy) && sells == OfSide(trades, Sell)
      requires tradePnl == TotalGain(Views(trades), curPrice)
      modifies this`tradePnl, trades
      ensures Booked(old(Views(trades)), Views(trades), curPrice, tradePnl)
    {
      ghost var ts := Views(trades);
      OfSideViews(trades, Buy);
      OfSideViews(trades, Sell);
      if AreDerivatives(Views(buys)) || AreDerivatives(Views(sells)) {
        tradePnl := CloseOutTrades(trades, buys, sells);
        BookedDerivative(ts, Views(trades), curPrice, tradePnl);
      } else {
        BookedSpot(ts, curPrice);
      }
    }

    method CloseOutTrades(trades: seq<TradeFill>, buys: seq<TradeFill>, sells: seq<TradeFill>) returns (pnl: real)
      requires NoRepeats(trades) && buys == OfSide(trades, Buy) && sells == OfSide(trades, Sell)
      modifies trades
      ensures AggregatedBySide(old(Views(trades)), Views(trades))
      ensures pnl == ClosedPnl(old(Views(trades)))
    {
      ghost var others := OfSide(trades, OtherSide);
      ghost var ts, bs, ss := Views(trades), Views(buys), Views(sells);
      ghost var os := Views(others);
      OfSideLaw(trades, Buy);
      OfSideLaw(trades, Sell);
      OfSideLaw(trades, OtherSide);
      SidesShow(trades, bs, ss, os);
      pnl := CloseOutPnl(buys, sells, others);
      SidesShow(trades, InPlace(bs), InPlace(ss), os);
    }

    /** All metrics. For spot trades the profit does not depend on the balances at all: it is what
        the trades gained against holding. For derivatives it is the profit of the k-th opens against
        the k-th closes. Fees are charged on the fills as aggregation has left them. */
    method InitializeMetrics(trades: seq<TradeFill>, curBase: real, curQuote: real, ratePrice: Option<real>)
      requires trades != [] && NoRepeats(trades)
      requires Vols() == Volumes(0.0, 0.0, 0.0, 0.0) && feeInQuote == 0.0
      modifies this, trades
      ensures curPrice == if ratePrice.Some? then ratePrice.value else old(Last(trades).price)
      ensures Booked(old(Views(trades)), Views(trades), curPrice, tradePnl)
      ensures feeInQuote == Sum(Fees(Views(trades)))
      ensures totalPnl == tradePnl - feeInQuote
    {
      ComputeTradePnl(trades, curBase, curQuote, ratePrice);
      CalculateFees(trades);
      totalPnl := tradePnl - feeInQuote;
    }

    method ComputeTradePnl(trades: seq<TradeFill>, curBase: real, curQuote: real, ratePrice: Option<real>)
      requires trades != [] && NoRepeats(trades)
      requires Vols() == Volumes(0.0, 0.0, 0.0, 0.0) && feeInQuote == 0.0
      modifies this, trades
      ensures curPrice == if ratePrice.Some? then ratePrice.value else old(Last(trades).price)
      ensures Booked(old(Views(trades)), Views(trades), curPrice, tradePnl) && feeInQuote == 0.0
    {
      ghost var ts := Views(trades);
      var buys, sells := SpotPnl(trades, curBase, curQuote, ratePrice);
      assert Views(trades) == ts;
      CalculateTradePnl(trades, buys, sells);
    }
  }
}
