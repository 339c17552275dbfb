/** What the reported profit means: cash. The profit of derivatives is what the sells of the paired fills
    brought in less what their buys cost, and that of spot trades adds what the base still held is worth. */
module Profits {
  import opened Prelude
  import opened Trades
  import opened Performance

  /** Cash that a trade brings in: its notional, received for a sell and paid for a buy. */
  function CashOf(t: Trade): real {
    match t.side
    case Buy => -t.amount * t.price
    case Sell => t.amount * t.price
    case OtherSide => 0.0
  }

  /** Base that a trade adds. */
  function BaseOf(t: Trade): real {
    match t.side
    case Buy => t.amount
    case Sell => -t.amount
    case OtherSide => 0.0
  }

  /** The percentage fee of a trade, if it is deducted from returns. */
  function DeductedOf(t: Trade): real {
    match t.feePct
    case Some(pct) => if t.deducted then t.price * t.amount * pct else 0.0
    case None => 0.0
  }

  function Total(ts: seq<Trade>, f: Trade -> real): real {
    if ts == [] then 0.0 else Total(Front(ts), f) + f(Last(ts))
  }

  lemma TotalPush(ts: seq<Trade>, t: Trade, f: Trade -> real)
    ensures Total(ts + [t], f) == Total(ts, f) + f(t)
  {
    assert Front(ts + [t]) == ts;
  }

  // ---------------------------------------------------------------- spot

  /** Cash, base at price `p`, less fees. */
  function NetWorth(cash: real, base: real, deducted: real, p: real): real { cash + base * p - deducted }

  lemma NetWorthAdds(c: real, b: real, d: real, c': real, b': real, d': real, p: real)
    ensures NetWorth(c + c', b + b', d + d', p) == NetWorth(c, b, d, p) + NetWorth(c', b', d', p)
  {
    assert (b + b') * p == b * p + b' * p;
  }

  lemma GainIs(t: Trade, p: real)
    ensures Gain(t, p) == NetWorth(CashOf(t), BaseOf(t), DeductedOf(t), p)
  {
    var a, q := t.amount, t.price;
    assert a * (p - q) == a * p - a * q && a * (q - p) == a * q - a * p;
    if t.feePct.Some? { assert a * q * t.feePct.value == q * a * t.feePct.value; }
  }

  /** The profit of spot trades is the cash they brought in plus the closing value of the base they added,
      less the fees deducted from returns. */
  lemma {:induction false} SpotProfit(ts: seq<Trade>, p: real)
    ensures TotalGain(ts, p) == NetWorth(Total(ts, CashOf), Total(ts, BaseOf), Total(ts, DeductedOf), p)
  {
    if ts != [] {
      var front, t := Front(ts), Last(ts);
      SpotProfit(front, p);
      GainIs(t, p);
      NetWorthAdds(Total(front, CashOf), Total(front, BaseOf), Total(front, DeductedOf),
                   CashOf(t), BaseOf(t), DeductedOf(t), p);
    }
  }

  // ---------------------------------------------------------------- pairs

  predicate AllOn(ts: seq<Trade>, side: Side) { forall i :: 0 <= i < |ts| ==> ts[i].side == side }

  predicate Sided(pairs: seq<(Trade, Trade)>, open: Side, close: Side) {
    forall i :: 0 <= i < |pairs| ==> pairs[i].0.side == open && pairs[i].1.side == close
  }

  /** The fills of the pairs, each opening fill cut to the amount that its closing fill closed. */
  function Settled(pairs: seq<(Trade, Trade)>): seq<Trade> {
    if pairs == [] then []
    else Settled(Front(pairs)) + [Last(pairs).0.(amount := Last(pairs).1.amount)] + [Last(pairs).1]
  }

  lemma SettledPush(pairs: seq<(Trade, Trade)>, o: Trade, c: Trade, f: Trade -> real)
    ensures Total(Settled(pairs + [(o, c)]), f) == Total(Settled(pairs), f) + f(o.(amount := c.amount)) + f(c)
  {
    assert Front(pairs + [(o, c)]) == pairs;
    TotalPush(Settled(pairs), o.(amount := c.amount), f);
    TotalPush(Settled(pairs) + [o.(amount := c.amount)], c, f);
  }

  lemma {:induction false} LongsPay(pairs: seq<(Trade, Trade)>)
    requires Sided(pairs, Buy, Sell)
    ensures LongTotal(pairs) == Total(Settled(pairs), CashOf)
  {
    if pairs != [] {
      var o, c := Last(pairs).0, Last(pairs).1;
      LongsPay(Front(pairs));
      assert pairs == Front(pairs) + [(o, c)];
      SettledPush(Front(pairs), o, c, CashOf);
      assert (c.price - o.price) * c.amount == c.price * c.amount - o.price * c.amount;
    }
  }

  lemma {:induction false} ShortsPay(pairs: seq<(Trade, Trade)>)
    requires Sided(pairs, Sell, Buy)
    ensures ShortTotal(pairs) == Total(Settled(pairs), CashOf)
  {
    if pairs != [] {
      var o, c := Last(pairs).0, Last(pairs).1;
      ShortsPay(Front(pairs));
      assert pairs == Front(pairs) + [(o, c)];
      SettledPush(Front(pairs), o, c, CashOf);
      assert (o.price - c.price) * c.amount == o.price * c.amount - c.price * c.amount;
    }
  }

  /** The profit of any pairs of buys with sells and sells with buys is the cash of their fills, each opening
      fill cut to what was closed. */
  lemma PairsPayCash(longs: seq<(Trade, Trade)>, shorts: seq<(Trade, Trade)>, pnls: seq<real>)
    requires Sided(longs, Buy, Sell) && Sided(shorts, Sell, Buy)
    requires Sum(pnls) == LongTotal(longs) + ShortTotal(shorts)
    ensures Sum(pnls) == Total(Settled(longs), CashOf) + Total(Settled(shorts), CashOf)
  {
    LongsPay(longs);
    ShortsPay(shorts);
  }

  lemma {:induction false} ZipLength(a: seq<Trade>, b: seq<Trade>)
    ensures |Zip(a, b)| == MinI(|a|, |b|)
  {
    if a != [] && b != [] { ZipLength(a[1..], b[1..]); }
  }

  /** As many closes as opens, of the same amounts in the same order. */
  predicate Even(o: seq<Trade>, c: seq<Trade>) {
    |o| == |c| && forall i :: 0 <= i < |o| ==> o[i].amount == c[i].amount
  }

  lemma ZipPush(o: seq<Trade>, c: seq<Trade>, x: Trade, y: Trade)
    requires |o| == |c|
    ensures Zip(o + [x], c + [y]) == Zip(o, c) + [(x, y)]
  {
    var z, w := Zip(o + [x], c + [y]), Zip(o, c) + [(x, y)];
    ZipLength(o + [x], c + [y]);
    ZipLength(o, c);
    forall k | 0 <= k < |z| ensures z[k] == w[k] {
      ZipAt(o + [x], c + [y], k);
      if k < |o| { ZipAt(o, c, k); }
    }
  }

  lemma {:induction false} EvenTotal(o: seq<Trade>, c: seq<Trade>, f: Trade -> real)
    requires Even(o, c)
    ensures Total(Settled(Zip(o, c)), f) == Total(o, f) + Total(c, f)
  {
    if o != [] {
      var x, y := Last(o), Last(c);
      EvenTotal(Front(o), Front(c), f);
      assert o == Front(o) + [x] && c == Front(c) + [y];
      ZipPush(Front(o), Front(c), x, y);
      SettledPush(Zip(Front(o), Front(c)), x, y, f);
      assert x.(amount := y.amount) == x;
    }
  }

  lemma {:induction false} EvenBase(o: seq<Trade>, c: seq<Trade>, side: Side)
    requires Even(o, c) && AllOn(o, side) && AllOn(c, if side == Buy then Sell else Buy) && side != OtherSide
    ensures Total(o, BaseOf) + Total(c, BaseOf) == 0.0
  {
    if o != [] {
      assert Last(o).amount == Last(c).amount;
      EvenBase(Front(o), Front(c), side);
    }
  }

  // ---------------------------------------------------------------- whole lists

  /** A filter by position keeps order and loses nothing. */
  lemma {:induction false} WithAppend(a: seq<Trade>, t: Trade, p: Position)
    ensures With(a + [t], p) == With(a, p) + (if t.position == p then [t] else [])
  {
    if a == [] {
      assert a + [t] == [t] && [t][1..] == [];
    } else {
      WithAppend(a[1..], t, p);
      assert (a + [t])[1..] == a[1..] + [t];
    }
  }

  lemma {:induction false} WithOn(ts: seq<Trade>, p: Position, side: Side)
    requires AllOn(ts, side)
    ensures AllOn(With(ts, p), side)
  {
    if ts != [] { WithOn(ts[1..], p, side); }
  }

  predicate Positioned(ts: seq<Trade>) { forall i :: 0 <= i < |ts| ==> ts[i].position != Nil }

  lemma {:induction false} TotalByPosition(ts: seq<Trade>, f: Trade -> real)
    requires Positioned(ts)
    ensures Total(ts, f) == Total(With(ts, Open), f) + Total(With(ts, Close), f)
  {
    if ts != [] {
      var front, t := Front(ts), Last(ts);
      assert ts == front + [t];
      TotalByPosition(front, f);
      WithAppend(front, t, Open);
      WithAppend(front, t, Close);
      if t.position == Open {
        TotalPush(With(front, Open), t, f);
        assert With(ts, Close) == With(front, Close);
      } else {
        TotalPush(With(front, Close), t, f);
        assert With(ts, Open) == With(front, Open);
      }
    }
  }

  lemma {:induction false} TotalBySide(ts: seq<Trade>, f: Trade -> real)
    requires forall t: Trade :: t.side == OtherSide ==> f(t) == 0.0
    ensures Total(ts, f) == Total(TradesOf(ts, Buy), f) + Total(TradesOf(ts, Sell), f)
  {
    if ts != [] {
      TotalBySide(Front(ts), f);
      TotalOfSide(ts, Buy, f);
      TotalOfSide(ts, Sell, f);
    }
  }

  lemma TotalOfSide(ts: seq<Trade>, side: Side, f: Trade -> real)
    requires ts != []
    ensures Total(TradesOf(ts, side), f) ==
              Total(TradesOf(Front(ts), side), f) + (if Last(ts).side == side then f(Last(ts)) else 0.0)
  {
    if Last(ts).side == side {
      TotalPush(TradesOf(Front(ts), side), Last(ts), f);
    } else {
      assert TradesOf(ts, side) == TradesOf(Front(ts), side);
    }
  }

  lemma {:induction false} TradesOfOn(ts: seq<Trade>, side: Side)
    ensures AllOn(TradesOf(ts, side), side)
    ensures Positioned(ts) ==> Positioned(TradesOf(ts, side))
  {
    if ts != [] { TradesOfOn(Front(ts), side); }
  }

  /** All positions of some buys and sells are closed: every opening buy by a sell and every opening sell by
      a buy, each in full. */
  predicate Closed(buys: seq<Trade>, sells: seq<Trade>) {
    Even(With(buys, Open), With(sells, Close)) && Even(With(sells, Open), With(buys, Close))
  }

  lemma ZipSided(o: seq<Trade>, c: seq<Trade>, open: Side, close: Side)
    requires AllOn(o, open) && AllOn(c, close)
    ensures Sided(Zip(o, c), open, close)
  {
    ZipLength(o, c);
    forall k | 0 <= k < |Zip(o, c)| ensures Zip(o, c)[k].0.side == open && Zip(o, c)[k].1.side == close {
      ZipAt(o, c, k);
    }
  }

  /** The profit of buys and sells whose positions are all closed is their cash, and no base is left. */
  lemma ClosedPayCash(buys: seq<Trade>, sells: seq<Trade>)
    requires AllOn(buys, Buy) && AllOn(sells, Sell) && Positioned(buys) && Positioned(sells) && Closed(buys, sells)
    ensures PairedPnl(buys, sells) == Total(buys, CashOf) + Total(sells, CashOf)
    ensures Total(buys, BaseOf) + Total(sells, BaseOf) == 0.0
  {
    var bo, bc, so, sc := With(buys, Open), With(buys, Close), With(sells, Open), With(sells, Close);
    WithOn(buys, Open, Buy);
    WithOn(buys, Close, Buy);
    WithOn(sells, Open, Sell);
    WithOn(sells, Close, Sell);
    ZipSided(bo, sc, Buy, Sell);
    ZipSided(so, bc, Sell, Buy);
    LongsPay(Zip(bo, sc));
    ShortsPay(Zip(so, bc));
    EvenTotal(bo, sc, CashOf);
    EvenTotal(so, bc, CashOf);
    TotalByPosition(buys, CashOf);
    TotalByPosition(sells, CashOf);
    EvenBase(bo, sc, Buy);
    EvenBase(so, bc, Sell);
    TotalByPosition(buys, BaseOf);
    TotalByPosition(sells, BaseOf);
  }

  // ---------------------------------------------------------------- through aggregation

  lemma {:induction false} PickedOn(ts: seq<Trade>, after: seq<Trade>, n: nat, side: Side)
    requires n <= |ts| == |after| && AllOn(after, side)
    ensures AllOn(PickFirsts(ts, after, n), side)
    ensures Positioned(after) ==> Positioned(PickFirsts(ts, after, n))
  {
    if n > 0 { PickedOn(ts, after, n - 1, side); }
  }

  /** Merging keeps the side and the position of an order's first fill. */
  lemma AggregateOn(ts: seq<Trade>, side: Side)
    requires AllOn(ts, side)
    ensures AllOn(Aggregate(ts), side) && (Positioned(ts) ==> Positioned(Aggregate(ts)))
  {
    PickedOn(ts, InPlace(ts), |ts|, side);
  }

  /** The profit of derivatives, for any trades at all: the cash of the pairs that merged orders form, each
      opening order cut to the amount that its closing order closed. */
  lemma ReportedProfit(ts: seq<Trade>)
    ensures var (buys, sells) := (Aggregate(TradesOf(ts, Buy)), Aggregate(TradesOf(ts, Sell)));
      ClosedPnl(ts) == Total(Settled(Zip(With(buys, Open), With(sells, Close))), CashOf)
                     + Total(Settled(Zip(With(sells, Open), With(buys, Close))), CashOf)
  {
    TradesOfOn(ts, Buy);
    TradesOfOn(ts, Sell);
    AggregateOn(TradesOf(ts, Buy), Buy);
    AggregateOn(TradesOf(ts, Sell), Sell);
    PairedPays(Aggregate(TradesOf(ts, Buy)), Aggregate(TradesOf(ts, Sell)));
  }

  lemma PairedPays(buys: seq<Trade>, sells: seq<Trade>)
    requires AllOn(buys, Buy) && AllOn(sells, Sell)
    ensures PairedPnl(buys, sells) == Total(Settled(Zip(With(buys, Open), With(sells, Close))), CashOf)
                                    + Total(Settled(Zip(With(sells, Open), With(buys, Close))), CashOf)
  {
    WithOn(buys, Open, Buy);
    WithOn(buys, Close, Buy);
    WithOn(sells, Open, Sell);
    WithOn(sells, Close, Sell);
    ZipSided(With(buys, Open), With(sells, Close), Buy, Sell);
    ZipSided(With(sells, Open), With(buys, Close), Sell, Buy);
    LongsPay(Zip(With(buys, Open), With(sells, Close)));
    ShortsPay(Zip(With(sells, Open), With(buys, Close)));
  }

  /** Every order fills at one price. */
  predicate PricesAgree(ts: seq<Trade>) {
    forall i, j :: 0 <= i < |ts| && 0 <= j < |ts| && ts[i].orderId == ts[j].orderId ==> ts[i].price == ts[j].price
  }

  function NotionalOf(t: Trade): real { t.price * t.amount }

  function AsNotional(t: Trade): Trade { t.(amount := NotionalOf(t)) }

  /** The trades with their notional for an amount. */
  function Notional(ts: seq<Trade>): (r: seq<Trade>)
    ensures |r| == |ts| && forall i :: 0 <= i < |ts| ==> r[i].orderId == ts[i].orderId
  {
    seq(|ts|, i requires 0 <= i < |ts| => AsNotional(ts[i]))
  }

  lemma NotionalPush(ts: seq<Trade>, t: Trade)
    ensures Notional(ts + [t]) == Notional(ts) + [AsNotional(t)]
    ensures ts + [t] == [t] || Front(ts + [t]) == ts
  {
    var r, r' := Notional(ts + [t]), Notional(ts) + [AsNotional(t)];
    assert |r| == |r'|;
    forall i | 0 <= i < |r| ensures r[i] == r'[i] {
    }
  }

  lemma NotionalGroupPush(ts: seq<Trade>, t: Trade, id: string)
    ensures GroupAmount(Notional(ts + [t]), id) == GroupAmount(Notional(ts), id) + (if t.orderId == id then NotionalOf(t) else 0.0)
  {
    NotionalPush(ts, t);
    GroupPush(Notional(ts), AsNotional(t), id);
  }

  /** `n` is `price` times `a`, for any order of which `a` is the amount. */
  lemma ScaledStep(price: real, a: real, n: real, more: real)
    requires n == price * a
    ensures n + price * more == price * (a + more)
  {
  }

  /** The notional of order `id` is `price` times its amount. */
  predicate PricedAt(ts: seq<Trade>, id: string, price: real) {
    GroupAmount(Notional(ts), id) == price * GroupAmount(ts, id)
  }

  lemma PricedAtPush(ts: seq<Trade>, t: Trade, id: string, price: real)
    requires PricedAt(ts, id, price) && (t.orderId == id ==> t.price == price)
    ensures PricedAt(ts + [t], id, price)
  {
    NotionalGroupPush(ts, t, id);
    GroupPush(ts, t, id);
    if t.orderId == id { ScaledStep(price, GroupAmount(ts, id), GroupAmount(Notional(ts), id), t.amount); }
  }

  lemma PricedAtNone(id: string, price: real)
    ensures PricedAt([], id, price)
  {
    assert Notional([]) == [];
  }

  lemma {:induction false} GroupNotional(ts: seq<Trade>, id: string, price: real)
    requires forall i :: 0 <= i < |ts| && ts[i].orderId == id ==> ts[i].price == price
    ensures PricedAt(ts, id, price)
  {
    if ts == [] {
      PricedAtNone(id, price);
    } else {
      assert forall i :: 0 <= i < |Front(ts)| ==> Front(ts)[i] == ts[i];
      GroupNotional(Front(ts), id, price);
      PricedAtPush(Front(ts), Last(ts), id, price);
      assert ts == Front(ts) + [Last(ts)];
    }
  }

  lemma {:induction false} NotionalTotal(ts: seq<Trade>)
    ensures Sum(Amounts(Notional(ts))) == Total(ts, NotionalOf)
  {
    if ts != [] {
      NotionalTotal(Front(ts));
      assert ts == Front(ts) + [Last(ts)];
      NotionalPush(Front(ts), Last(ts));
      AmountsPush(Notional(Front(ts)), AsNotional(Last(ts)));
    }
  }

  lemma Amounted(ts: seq<Trade>, t: Trade, t': Trade)
    requires t' == t.(amount := GroupAmount(ts, t.orderId)) && PricedAt(ts, t.orderId, t.price)
    ensures NotionalOf(t') == GroupAmount(Notional(ts), t.orderId)
  {
  }

  lemma MergedNotional(ts: seq<Trade>, i: nat)
    requires i < |ts| && IsFirst(ts, i) && PricesAgree(ts)
    ensures NotionalOf(InPlaceAt(ts, i)) == GroupAmount(Notional(ts), ts[i].orderId)
  {
    MergedAtOnePrice(ts, i);
    GroupNotional(ts, ts[i].orderId, ts[i].price);
    Amounted(ts, ts[i], InPlaceAt(ts, i));
  }

  lemma SameFirsts(ts: seq<Trade>, i: nat)
    requires i < |ts|
    ensures IsFirst(Notional(ts), i) <==> IsFirst(ts, i)
  {
    var ns := Notional(ts);
    assert forall j :: 0 <= j < |ts| ==> ns[j].orderId == ts[j].orderId;
  }

  lemma PickedPush(ts: seq<Trade>, after: seq<Trade>, n: nat, f: Trade -> real)
    requires 0 < n <= |ts| == |after|
    ensures Total(PickFirsts(ts, after, n), f)
         == Total(PickFirsts(ts, after, n - 1), f) + (if IsFirst(ts, n - 1) then f(after[n - 1]) else 0.0)
  {
    if IsFirst(ts, n - 1) {
      TotalPush(PickFirsts(ts, after, n - 1), after[n - 1], f);
    } else {
      assert PickFirsts(ts, after, n) == PickFirsts(ts, after, n - 1);
    }
  }

  /** What fill `i` contributes if it is the first of its order. */
  function IfFirst(ts: seq<Trade>, after: seq<Trade>, i: nat, f: Trade -> real): real
    requires i < |ts| == |after|
  {
    if IsFirst(ts, i) then f(after[i]) else 0.0
  }

  lemma {:induction false} PickedTotals(ts: seq<Trade>, after: seq<Trade>, ns: seq<Trade>, n: nat, f: Trade -> real)
    requires n <= |ts| == |after| == |ns|
    requires forall i :: 0 <= i < |ts| ==> IfFirst(ts, after, i, f) == FirstAmount(ns, i)
    ensures Total(PickFirsts(ts, after, n), f) == MergedAmounts(ns, n)
  {
    if n > 0 {
      PickedTotals(ts, after, ns, n - 1, f);
      PickedPush(ts, after, n, f);
      assert IfFirst(ts, after, n - 1, f) == FirstAmount(ns, n - 1);
    }
  }

  lemma FirstNotional(ts: seq<Trade>, i: nat)
    requires i < |ts| && PricesAgree(ts)
    ensures IfFirst(ts, InPlace(ts), i, NotionalOf) == FirstAmount(Notional(ts), i)
  {
    SameFirsts(ts, i);
    if IsFirst(ts, i) { MergedNotional(ts, i); }
  }

  /** Aggregation conserves notional when every order fills at one price. */
  lemma AggregationConservesNotional(ts: seq<Trade>)
    requires PricesAgree(ts)
    ensures Total(Aggregate(ts), NotionalOf) == Total(ts, NotionalOf)
  {
    forall i | 0 <= i < |ts| ensures IfFirst(ts, InPlace(ts), i, NotionalOf) == FirstAmount(Notional(ts), i) {
      FirstNotional(ts, i);
    }
    PickedTotals(ts, InPlace(ts), Notional(ts), |ts|, NotionalOf);
    MergedAmountsAll(Notional(ts));
    NotionalTotal(ts);
  }

  lemma {:induction false} TotalsOn(ts: seq<Trade>, side: Side, sign: real)
    requires AllOn(ts, side) && side != OtherSide && sign == if side == Buy then 1.0 else -1.0
    ensures Total(ts, CashOf) == -sign * Total(ts, NotionalOf)
    ensures Total(ts, BaseOf) == sign * Sum(Amounts(ts))
  {
    if ts != [] {
      TotalsOn(Front(ts), side, sign);
      assert ts == Front(ts) + [Last(ts)];
      AmountsPush(Front(ts), Last(ts));
      assert Last(ts).side == side;
      assert CashOf(Last(ts)) == -sign * NotionalOf(Last(ts));
    }
  }

  /** Aggregating one side keeps its base, and at one price an order its cash. */
  lemma AggregateTotals(ts: seq<Trade>, side: Side)
    requires AllOn(ts, side) && side != OtherSide
    ensures Total(Aggregate(ts), BaseOf) == Total(ts, BaseOf)
    ensures PricesAgree(ts) ==> Total(Aggregate(ts), CashOf) == Total(ts, CashOf)
  {
    var sign := if side == Buy then 1.0 else -1.0;
    AggregateOn(ts, side);
    TotalsOn(ts, side, sign);
    TotalsOn(Aggregate(ts), side, sign);
    AggregationConservesAmount(ts);
    if PricesAgree(ts) { AggregationConservesNotional(ts); }
  }

  lemma {:induction false} TradesOfAgree(ts: seq<Trade>, side: Side)
    requires PricesAgree(ts)
    ensures PricesAgree(TradesOf(ts, side))
  {
    TradesOfIn(ts, side);
  }

  /** How much cash aggregation makes up. */
  function CashError(ts: seq<Trade>): real {
    Total(Aggregate(TradesOf(ts, Buy)), CashOf) + Total(Aggregate(TradesOf(ts, Sell)), CashOf) - Total(ts, CashOf)
  }

  /** Both ways of accounting agree on closed books, up to what aggregation makes up: when every position is
      closed in full and no fee is deducted, the profit of the pairs is what the trades gained against holding,
      at whatever closing price, plus the cash error; so they agree if and only if there is none. */
  lemma ClosedBookProfit(ts: seq<Trade>, p: real)
    requires Positioned(ts) && Total(ts, DeductedOf) == 0.0
    requires Closed(Aggregate(TradesOf(ts, Buy)), Aggregate(TradesOf(ts, Sell)))
    ensures TotalGain(ts, p) == Total(ts, CashOf)
    ensures ClosedPnl(ts) == TotalGain(ts, p) + CashError(ts)
    ensures ClosedPnl(ts) == TotalGain(ts, p) <==> CashError(ts) == 0.0
  {
    ClosedAggregates(ts);
    TotalBySide(ts, BaseOf);
    SpotProfit(ts, p);
    FlatWorth(Total(ts, CashOf), p);
  }

  lemma ClosedAggregates(ts: seq<Trade>)
    requires Positioned(ts) && Closed(Aggregate(TradesOf(ts, Buy)), Aggregate(TradesOf(ts, Sell)))
    ensures Total(TradesOf(ts, Buy), BaseOf) + Total(TradesOf(ts, Sell), BaseOf) == 0.0
    ensures ClosedPnl(ts) == Total(ts, CashOf) + CashError(ts)
  {
    var buys, sells := TradesOf(ts, Buy), TradesOf(ts, Sell);
    TradesOfOn(ts, Buy);
    TradesOfOn(ts, Sell);
    AggregateOn(buys, Buy);
    AggregateOn(sells, Sell);
    AggregateTotals(buys, Buy);
    AggregateTotals(sells, Sell);
    ClosedPayCash(Aggregate(buys), Aggregate(sells));
  }

  /** There is no error when every order fills at one price. */
  lemma OnePriceNoError(ts: seq<Trade>)
    requires PricesAgree(ts)
    ensures CashError(ts) == 0.0
  {
    TradesOfOn(ts, Buy);
    TradesOfOn(ts, Sell);
    TradesOfAgree(ts, Buy);
    TradesOfAgree(ts, Sell);
    AggregateTotals(TradesOf(ts, Buy), Buy);
    AggregateTotals(TradesOf(ts, Sell), Sell);
    TotalBySide(ts, CashOf);
  }

  lemma FlatWorth(cash: real, p: real)
    ensures NetWorth(cash, 0.0, 0.0, p) == cash
  {
  }

  // ---------------------------------------------------------------- which accounting applies

  /** Whether some trade is on a side. */
  predicate HasSide(ts: seq<Trade>, side: Side) { exists i :: 0 <= i < |ts| && ts[i].side == side }

  /** No trade of a side lacks a position action. */
  predicate NoNilOn(ts: seq<Trade>, side: Side) {
    forall i :: 0 <= i < |ts| && ts[i].side == side ==> ts[i].position != Nil
  }

  lemma {:induction false} SideIs(ts: seq<Trade>, side: Side)
    ensures TradesOf(ts, side) != [] <==> HasSide(ts, side)
    ensures Positioned(TradesOf(ts, side)) <==> NoNilOn(ts, side)
  {
    if ts != [] {
      var front, t := Front(ts), Last(ts);
      SideIs(front, side);
      assert ts[|ts| - 1] == t && forall i :: 0 <= i < |front| ==> front[i] == ts[i];
      assert HasSide(ts, side) <==> HasSide(front, side) || t.side == side;
      var past, now := TradesOf(front, side), TradesOf(ts, side);
      assert now == past + (if t.side == side then [t] else []);
      assert forall i :: 0 <= i < |past| ==> now[i] == past[i];
      if t.side == side { assert now[|past|] == t; }
    }
  }

  /** Pairs are formed exactly when, on one side or the other, there are trades and all of that side have a
      position action. */
  lemma DerivativeIff(ts: seq<Trade>)
    ensures Derivative(ts) <==>
      (HasSide(ts, Buy) && NoNilOn(ts, Buy)) || (HasSide(ts, Sell) && NoNilOn(ts, Sell))
  {
    SideIs(ts, Buy);
    SideIs(ts, Sell);
  }
}
