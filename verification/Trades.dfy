/** Trades as values: grouping of fills by order, pairing of opens with closes, and profit sums. */
module Trades {
  import opened Prelude

  datatype Side = Buy | Sell | OtherSide

  datatype Position = Open | Close | Nil

  /** `feePct` is the percentage fee, if the trade has one; `deducted` says that it is of the type
      deducted from returns. */
  datatype Trade = Trade(orderId: string, side: Side, position: Position, price: real, amount: real,
                         feePct: Option<real>, deducted: bool)

  // ---------------------------------------------------------------- sums

  function Sum(s: seq<real>): real {
    if s == [] then 0.0 else Sum(Front(s)) + Last(s)
  }

  lemma {:induction false} SumAppend(a: seq<real>, b: seq<real>)
    ensures Sum(a + b) == Sum(a) + Sum(b)
  {
    if b == [] {
      assert a + b == a;
    } else {
      assert Front(a + b) == a + Front(b) && Last(a + b) == Last(b);
      SumAppend(a, Front(b));
    }
  }

  function Prices(ts: seq<Trade>): seq<real> { seq(|ts|, i requires 0 <= i < |ts| => ts[i].price) }

  function Amounts(ts: seq<Trade>): seq<real> { seq(|ts|, i requires 0 <= i < |ts| => ts[i].amount) }

  // ---------------------------------------------------------------- spot accounting

  function Impact(t: Trade): real {
    if t.feePct.Some? && t.deducted then t.amount * t.price * t.feePct.value * -1.0 else 0.0
  }

  /** What one trade gains against holding, at closing price `p`. */
  function Gain(t: Trade, p: real): real {
    (match t.side
     case Buy => t.amount * (p - t.price)
     case Sell => t.amount * (t.price - p)
     case OtherSide => 0.0) + Impact(t)
  }

  function TotalGain(ts: seq<Trade>, p: real): real {
    if ts == [] then 0.0 else TotalGain(Front(ts), p) + Gain(Last(ts), p)
  }

  datatype Volumes = Volumes(buyBase: real, buyQuote: real, sellBase: real, sellQuote: real)

  function AddTrade(v: Volumes, t: Trade): Volumes {
    var v' := match t.side
      case Buy => v.(buyBase := v.buyBase + t.amount, buyQuote := v.buyQuote + t.amount * t.price * -1.0)
      case Sell => v.(sellBase := v.sellBase + t.amount * -1.0, sellQuote := v.sellQuote + t.amount * t.price)
      case OtherSide => v;
    v'.(sellQuote := v'.sellQuote + Impact(t))
  }

  function VolumesOf(ts: seq<Trade>): Volumes {
    if ts == [] then Volumes(0.0, 0.0, 0.0, 0.0) else AddTrade(VolumesOf(Front(ts)), Last(ts))
  }

  /** The volumes valued at closing price `p`. */
  function Worth(v: Volumes, p: real): real {
    (v.buyBase + v.sellBase) * p + (v.buyQuote + v.sellQuote)
  }

  lemma AddTradeGain(v: Volumes, t: Trade, p: real)
    ensures Worth(AddTrade(v, t), p) == Worth(v, p) + Gain(t, p)
  {
    assert t.amount * (p - t.price) == t.amount * p - t.amount * t.price;
    assert t.amount * (t.price - p) == t.amount * t.price - t.amount * p;
    assert (v.buyBase + t.amount + v.sellBase) * p == (v.buyBase + v.sellBase) * p + t.amount * p;
    assert (v.buyBase + (v.sellBase - t.amount)) * p == (v.buyBase + v.sellBase) * p - t.amount * p;
  }

  /** The volumes, valued at the closing price, are the sum of what each trade gained. */
  lemma {:induction false} VolumesGain(ts: seq<Trade>, p: real)
    ensures Worth(VolumesOf(ts), p) == TotalGain(ts, p)
  {
    if ts != [] {
      VolumesGain(Front(ts), p);
      AddTradeGain(VolumesOf(Front(ts)), Last(ts), p);
    }
  }

  // ---------------------------------------------------------------- grouping by order

  /** The fills of one order, in list order. */
  function Members(ts: seq<Trade>, id: string): seq<Trade> {
    if ts == [] then []
    else Members(Front(ts), id) + (if Last(ts).orderId == id then [Last(ts)] else [])
  }

  lemma MembersPush(ts: seq<Trade>, t: Trade, id: string)
    ensures Members(ts + [t], id) == Members(ts, id) + (if t.orderId == id then [t] else [])
  {
    assert Front(ts + [t]) == ts;
  }

  predicate IsFirst(ts: seq<Trade>, i: nat)
    requires i < |ts|
  {
    forall j :: 0 <= j < i ==> ts[j].orderId != ts[i].orderId
  }

  /** The merged fill of an order: plain mean of the prices, sum of the amounts. */
  function Merged(t: Trade, group: seq<Trade>): Trade
    requires group != []
  {
    t.(price := Sum(Prices(group)) / |group| as real, amount := Sum(Amounts(group)))
  }

  lemma {:induction false} MembersHas(ts: seq<Trade>, i: nat)
    requires i < |ts|
    ensures Members(ts, ts[i].orderId) != []
  {
    if i < |ts| - 1 { MembersHas(Front(ts), i); }
  }

  /** The list after aggregation in place: the first fill of each order has become the merged one,
      the others are untouched. */
  function InPlaceAt(ts: seq<Trade>, i: nat): Trade
    requires i < |ts|
  {
    if IsFirst(ts, i) then MembersHas(ts, i); Merged(ts[i], Members(ts, ts[i].orderId)) else ts[i]
  }

  function InPlace(ts: seq<Trade>): (r: seq<Trade>)
    ensures |r| == |ts|
  {
    seq(|ts|, i requires 0 <= i < |ts| => InPlaceAt(ts, i))
  }

  /** The entries of `after` at the positions, among the first `n`, where `ts` has the first fill of
      an order. */
  function PickFirsts(ts: seq<Trade>, after: seq<Trade>, n: nat): seq<Trade>
    requires n <= |ts| == |after|
  {
    if n == 0 then []
    else PickFirsts(ts, after, n - 1) + (if IsFirst(ts, n - 1) then [after[n - 1]] else [])
  }

  /** What aggregation returns: one merged fill per order, in order of first occurrence. */
  function Aggregate(ts: seq<Trade>): seq<Trade> { PickFirsts(ts, InPlace(ts), |ts|) }

  function GroupAmount(ts: seq<Trade>, id: string): real { Sum(Amounts(Members(ts, id))) }

  function FirstAmount(ts: seq<Trade>, i: nat): real
    requires i < |ts|
  {
    if IsFirst(ts, i) then GroupAmount(ts, ts[i].orderId) else 0.0
  }

  /** Sum of the merged amounts of the orders whose first fill is among the first `n`. */
  function MergedAmounts(ts: seq<Trade>, n: nat): real
    requires n <= |ts|
  {
    if n == 0 then 0.0
    else MergedAmounts(ts, n - 1) + FirstAmount(ts, n - 1)
  }

  predicate Seen(ts: seq<Trade>, n: nat, id: string)
    requires n <= |ts|
  {
    exists j :: 0 <= j < n && ts[j].orderId == id
  }

  lemma AmountsPush(group: seq<Trade>, t: Trade)
    ensures Sum(Amounts(group + [t])) == Sum(Amounts(group)) + t.amount
  {
    assert Front(Amounts(group + [t])) == Amounts(group);
  }

  lemma GroupPush(ts: seq<Trade>, t: Trade, id: string)
    ensures GroupAmount(ts + [t], id) == GroupAmount(ts, id) + (if t.orderId == id then t.amount else 0.0)
  {
    assert Front(ts + [t]) == ts && Last(ts + [t]) == t;
    if t.orderId == id {
      AmountsPush(Members(ts, id), t);
    } else {
      assert Members(ts + [t], id) == Members(ts, id);
    }
  }

  lemma FirstPush(ts: seq<Trade>, t: Trade, i: nat)
    requires i < |ts|
    ensures IsFirst(ts + [t], i) <==> IsFirst(ts, i)
  {
    assert forall j :: 0 <= j <= i ==> (ts + [t])[j] == ts[j];
  }

  lemma FirstAmountPush(ts: seq<Trade>, t: Trade, i: nat)
    requires i < |ts|
    ensures FirstAmount(ts + [t], i) ==
      FirstAmount(ts, i) + (if IsFirst(ts, i) && ts[i].orderId == t.orderId then t.amount else 0.0)
  {
    FirstPush(ts, t, i);
    GroupPush(ts, t, ts[i].orderId);
  }

  /** One more fill adds to the amount at its order's first fill. */
  lemma FirstAmountStep(ts: seq<Trade>, t: Trade, n: nat)
    requires 0 < n <= |ts|
    ensures FirstAmount(ts + [t], n - 1) == FirstAmount(ts, n - 1)
      + (if Seen(ts, n, t.orderId) && !Seen(ts, n - 1, t.orderId) then t.amount else 0.0)
    ensures Seen(ts, n - 1, t.orderId) ==> Seen(ts, n, t.orderId)
  {
    FirstAmountPush(ts, t, n - 1);
    SeenStep(ts, n, t.orderId);
  }

  lemma {:induction false} MergedAmountsPush(ts: seq<Trade>, t: Trade, n: nat)
    requires n <= |ts|
    ensures MergedAmounts(ts + [t], n) == MergedAmounts(ts, n) + (if Seen(ts, n, t.orderId) then t.amount else 0.0)
  {
    if n > 0 {
      MergedAmountsPush(ts, t, n - 1);
      FirstAmountStep(ts, t, n);
    }
  }

  /** An id is first seen at a first fill, and after that no first fill has it. */
  lemma SeenStep(ts: seq<Trade>, n: nat, id: string)
    requires 0 < n <= |ts|
    ensures Seen(ts, n, id) <==> Seen(ts, n - 1, id) || ts[n - 1].orderId == id
    ensures ts[n - 1].orderId == id ==> (IsFirst(ts, n - 1) <==> !Seen(ts, n - 1, id))
  {
  }

  function AmountAtFirsts(ts: seq<Trade>, after: seq<Trade>, n: nat): real
    requires n <= |ts| == |after|
  {
    if n == 0 then 0.0
    else AmountAtFirsts(ts, after, n - 1) + (if IsFirst(ts, n - 1) then after[n - 1].amount else 0.0)
  }

  lemma {:induction false} PickedAmounts(ts: seq<Trade>, after: seq<Trade>, n: nat)
    requires n <= |ts| == |after|
    ensures Sum(Amounts(PickFirsts(ts, after, n))) == AmountAtFirsts(ts, after, n)
  {
    if n > 0 {
      PickedAmounts(ts, after, n - 1);
      var picked := PickFirsts(ts, after, n - 1);
      if IsFirst(ts, n - 1) {
        AmountsPush(picked, after[n - 1]);
      } else {
        assert PickFirsts(ts, after, n) == picked;
      }
    }
  }

  /** Each first fill shows the amount of its whole order. */
  predicate ShowsGroups(ts: seq<Trade>, after: seq<Trade>) {
    |after| == |ts| && forall i {:trigger after[i]} :: 0 <= i < |ts| && IsFirst(ts, i) ==> after[i].amount == GroupAmount(ts, ts[i].orderId)
  }

  lemma {:induction false} MergedAtFirsts(ts: seq<Trade>, after: seq<Trade>, n: nat)
    requires n <= |ts| && ShowsGroups(ts, after)
    ensures AmountAtFirsts(ts, after, n) == MergedAmounts(ts, n)
  {
    if n > 0 { MergedAtFirsts(ts, after, n - 1); }
  }

  lemma InPlaceShowsGroups(ts: seq<Trade>)
    ensures ShowsGroups(ts, InPlace(ts))
  {
    forall i | 0 <= i < |ts| && IsFirst(ts, i) ensures InPlace(ts)[i].amount == GroupAmount(ts, ts[i].orderId) {
      MergedAmountAt(ts, i);
    }
  }

  lemma MergedAmountAt(ts: seq<Trade>, i: nat)
    requires i < |ts| && IsFirst(ts, i)
    ensures InPlace(ts)[i].amount == GroupAmount(ts, ts[i].orderId)
  {
    MembersHas(ts, i);
  }

  /** Aggregation conserves the total amount (it does not conserve notional). */
  lemma AggregationConservesAmount(ts: seq<Trade>)
    ensures Sum(Amounts(Aggregate(ts))) == Sum(Amounts(ts))
  {
    PickedAmounts(ts, InPlace(ts), |ts|);
    InPlaceShowsGroups(ts);
    MergedAtFirsts(ts, InPlace(ts), |ts|);
    MergedAmountsAll(ts);
  }

  lemma {:induction false} MergedAmountsAll(ts: seq<Trade>)
    ensures MergedAmounts(ts, |ts|) == Sum(Amounts(ts))
  {
    if ts != [] {
      var front, t := Front(ts), Last(ts);
      assert ts == front + [t];
      MergedAmountsAll(front);
      MergedAmountsPush(front, t, |front|);
      AmountsPush(front, t);
      if !Seen(front, |front|, t.orderId) {
        NoMembers(front, t.orderId);
        GroupPush(front, t, t.orderId);
        assert IsFirst(ts, |front|);
      } else {
        assert !IsFirst(ts, |front|);
      }
    }
  }

  lemma {:induction false} NoMembers(ts: seq<Trade>, id: string)
    requires !Seen(ts, |ts|, id)
    ensures Members(ts, id) == []
  {
    if ts != [] {
      assert ts[|ts| - 1].orderId != id;
      assert forall j :: 0 <= j < |Front(ts)| ==> Front(ts)[j] == ts[j];
      NoMembers(Front(ts), id);
    }
  }

  // ---------------------------------------------------------------- percentage fees

  function Charge(price: real, amount: real, pct: real): real { price * amount * pct }

  function Fee(t: Trade): real {
    if t.feePct.Some? then Charge(t.price, t.amount, t.feePct.value) else 0.0
  }

  function Fees(ts: seq<Trade>): seq<real> { seq(|ts|, i requires 0 <= i < |ts| => Fee(ts[i])) }

  predicate DistinctOrders(ts: seq<Trade>) {
    forall i, j :: 0 <= i < j < |ts| ==> ts[i].orderId != ts[j].orderId
  }

  /** The plain mean of the prices of an order's fills. */
  function MeanPrice(ts: seq<Trade>, i: nat): real
    requires i < |ts|
  {
    MembersHas(ts, i);
    var g := Members(ts, ts[i].orderId);
    Sum(Prices(g)) / |g| as real
  }

  /** How far the fee charged on fill `i` after aggregation exceeds its own fee. Only the first fill of
      an order changes: it then stands for the mean price times the total amount. */
  function FeeErrorAt(ts: seq<Trade>, i: nat): real
    requires i < |ts|
  {
    if IsFirst(ts, i) && ts[i].feePct.Some? then
      ts[i].feePct.value * (MeanPrice(ts, i) * GroupAmount(ts, ts[i].orderId) - ts[i].price * ts[i].amount)
    else 0.0
  }

  function FeeErrors(ts: seq<Trade>): seq<real> { seq(|ts|, i requires 0 <= i < |ts| => FeeErrorAt(ts, i)) }

  /** The sum over the first fills of the orders. */
  function FeeError(ts: seq<Trade>): real { Sum(FeeErrors(ts)) }

  lemma ChargeError(p: real, a: real, q: real, b: real, pct: real)
    ensures Charge(q, b, pct) == Charge(p, a, pct) + pct * (q * b - p * a)
  {
    assert Charge(q, b, pct) == pct * (q * b) && Charge(p, a, pct) == pct * (p * a);
  }

  lemma FeeErrorIs(ts: seq<Trade>, i: nat)
    requires i < |ts|
    ensures Fee(InPlaceAt(ts, i)) == Fee(ts[i]) + FeeErrorAt(ts, i)
  {
    if IsFirst(ts, i) && ts[i].feePct.Some? {
      MembersHas(ts, i);
      ChargeError(ts[i].price, ts[i].amount, MeanPrice(ts, i), GroupAmount(ts, ts[i].orderId), ts[i].feePct.value);
    }
  }

  lemma {:induction false} SumAdds(a: seq<real>, b: seq<real>, c: seq<real>)
    requires |a| == |b| == |c| && forall i :: 0 <= i < |a| ==> c[i] == a[i] + b[i]
    ensures Sum(c) == Sum(a) + Sum(b)
  {
    if a != [] { SumAdds(Front(a), Front(b), Front(c)); }
  }

  /** For any list of trades: aggregation in place changes the fee total by exactly the fee error; so
      the total is right if and only if the error is zero. */
  lemma FeesAfterAggregation(ts: seq<Trade>)
    ensures Sum(Fees(InPlace(ts))) == Sum(Fees(ts)) + FeeError(ts)
    ensures Sum(Fees(InPlace(ts))) == Sum(Fees(ts)) <==> FeeError(ts) == 0.0
  {
    forall i | 0 <= i < |ts| ensures Fees(InPlace(ts))[i] == Fees(ts)[i] + FeeErrors(ts)[i] {
      FeeErrorIs(ts, i);
    }
    SumAdds(Fees(ts), FeeErrors(ts), Fees(InPlace(ts)));
  }

  /** Where no order has two fills, aggregation changes nothing at all. */
  lemma DistinctUnchanged(ts: seq<Trade>)
    requires DistinctOrders(ts)
    ensures InPlace(ts) == ts
  {
    forall i | 0 <= i < |ts| ensures InPlace(ts)[i] == ts[i] {
      GroupAlone(ts, i);
      MergedAlone(ts[i]);
    }
  }

  lemma MergedAlone(t: Trade)
    ensures Merged(t, [t]) == t
  {
    assert Prices([t]) == [t.price] && Amounts([t]) == [t.amount];
    SumOne(t.price);
    SumOne(t.amount);
  }

  lemma SumOne(x: real)
    ensures Sum([x]) == x
  {
    assert Front([x]) == [];
  }

  /** Fills with positive amounts, prices and fee rates, if any; all fills of an order at one price. */
  predicate OnePrice(ts: seq<Trade>) {
    && (forall i :: 0 <= i < |ts| ==>
          0.0 < ts[i].price && 0.0 < ts[i].amount && (ts[i].feePct.Some? ==> 0.0 < ts[i].feePct.value))
    && forall i, j :: 0 <= i < |ts| && 0 <= j < |ts| && ts[i].orderId == ts[j].orderId ==> ts[i].price == ts[j].price
  }

  /** No order whose first fill bears a percentage fee has a second fill. */
  predicate ChargedOnce(ts: seq<Trade>) {
    forall i, j :: 0 <= i < j < |ts| && ts[i].orderId == ts[j].orderId && IsFirst(ts, i) ==> ts[i].feePct.None?
  }

  predicate PositiveAmounts(ts: seq<Trade>) { forall i :: 0 <= i < |ts| ==> 0.0 < ts[i].amount }

  lemma {:induction false} GroupHolds(ts: seq<Trade>, i: nat, j: nat)
    requires i < |ts| && j < |ts| && PositiveAmounts(ts) && ts[i].orderId == ts[j].orderId
    ensures GroupAmount(ts, ts[i].orderId) >= (if i == j then ts[i].amount else ts[i].amount + ts[j].amount)
    decreases |ts|
  {
    var front, t, id := Front(ts), Last(ts), ts[i].orderId;
    assert ts == front + [t];
    GroupPush(front, t, id);
    GroupNonNegative(front, id);
    var n := |front|;
    if i < n && j < n {
      GroupHolds(front, i, j);
    } else if i < n {
      GroupHolds(front, i, i);
    } else if j < n {
      GroupHolds(front, j, j);
    }
  }

  lemma {:induction false} GroupNonNegative(ts: seq<Trade>, id: string)
    requires PositiveAmounts(ts)
    ensures 0.0 <= GroupAmount(ts, id)
  {
    if ts != [] {
      assert ts == Front(ts) + [Last(ts)];
      GroupPush(Front(ts), Last(ts), id);
      GroupNonNegative(Front(ts), id);
    }
  }

  /** An order filled once is merged into itself. */
  lemma {:induction false} GroupAlone(ts: seq<Trade>, i: nat)
    requires i < |ts| && forall j :: 0 <= j < |ts| && j != i ==> ts[j].orderId != ts[i].orderId
    ensures Members(ts, ts[i].orderId) == [ts[i]]
  {
    var front := Front(ts);
    assert forall j :: 0 <= j < |front| ==> front[j] == ts[j];
    if i < |front| { GroupAlone(front, i); } else { NoMembers(front, ts[i].orderId); }
  }

  /** The prices of a group add up to its size times `price`. */
  predicate SumsAt(group: seq<Trade>, price: real) {
    Sum(Prices(group)) == |group| as real * price
  }

  lemma PricesPush(group: seq<Trade>, t: Trade, price: real)
    requires SumsAt(group, price) && t.price == price
    ensures SumsAt(group + [t], price)
  {
    assert Front(Prices(group + [t])) == Prices(group);
    assert (|group| + 1) as real * price == |group| as real * price + price;
  }

  lemma NoPrices(price: real)
    ensures SumsAt([], price)
  {
  }

  lemma {:induction false} MembersPrice(ts: seq<Trade>, id: string, price: real)
    requires forall i :: 0 <= i < |ts| && ts[i].orderId == id ==> ts[i].price == price
    ensures SumsAt(Members(ts, id), price)
  {
    if ts == [] {
      NoPrices(price);
    } else {
      var front, group := Front(ts), Members(Front(ts), id);
      assert forall j :: 0 <= j < |front| ==> front[j] == ts[j];
      MembersPrice(front, id, price);
      if Last(ts).orderId == id {
        PricesPush(group, Last(ts), price);
        assert Members(ts, id) == group + [Last(ts)];
      } else {
        assert Members(ts, id) == group;
      }
    }
  }

  /** The merged fill of an order whose fills share a price keeps that price, whatever the others. */
  lemma MergedAtOnePrice(ts: seq<Trade>, i: nat)
    requires i < |ts| && IsFirst(ts, i)
    requires forall j :: 0 <= j < |ts| && ts[j].orderId == ts[i].orderId ==> ts[j].price == ts[i].price
    ensures InPlaceAt(ts, i) == ts[i].(amount := GroupAmount(ts, ts[i].orderId))
  {
    MembersHas(ts, i);
    var g := Members(ts, ts[i].orderId);
    MembersPrice(ts, ts[i].orderId, ts[i].price);
    MeanOfEqual(Sum(Prices(g)), |g|, ts[i].price);
  }

  lemma MeanOfEqual(sum: real, n: nat, price: real)
    requires n > 0 && sum == n as real * price
    ensures sum / n as real == price
  {
  }

  lemma FeeMono(price: real, a: real, b: real, pct: real)
    requires 0.0 < price && 0.0 < pct && a <= b
    ensures Charge(price, a, pct) <= Charge(price, b, pct)
    ensures a < b ==> Charge(price, a, pct) < Charge(price, b, pct)
  {
    ChargeDiff(price, a, b, pct);
    ChargeSign(price, b - a, pct);
  }

  lemma ChargeDiff(price: real, a: real, b: real, pct: real)
    ensures Charge(price, b - a, pct) == Charge(price, b, pct) - Charge(price, a, pct)
  {
    assert price * (b - a) == price * b - price * a;
  }

  lemma ChargeSign(price: real, d: real, pct: real)
    requires 0.0 < price && 0.0 < pct && 0.0 <= d
    ensures 0.0 <= Charge(price, d, pct) && (0.0 < d ==> 0.0 < Charge(price, d, pct))
  {
    MulNonNeg(price, d);
    MulNonNeg(price * d, pct);
    if 0.0 < d {
      MulPos(price, d);
      MulPos(price * d, pct);
    }
  }

  lemma FeeAfter(ts: seq<Trade>, i: nat)
    requires i < |ts| && OnePrice(ts)
    ensures Fee(InPlaceAt(ts, i)) >= Fee(ts[i])
    ensures IsFirst(ts, i) && ts[i].feePct.Some? && (exists j :: i < j < |ts| && ts[j].orderId == ts[i].orderId) ==>
      Fee(InPlaceAt(ts, i)) > Fee(ts[i])
  {
    if IsFirst(ts, i) && ts[i].feePct.Some? {
      MergedAtOnePrice(ts, i);
      GroupHolds(ts, i, i);
      var a, b := ts[i].amount, GroupAmount(ts, ts[i].orderId);
      if j :| i < j < |ts| && ts[j].orderId == ts[i].orderId {
        GroupHolds(ts, i, j);
      }
      FeeMono(ts[i].price, a, b, ts[i].feePct.value);
    }
  }

  lemma {:induction false} SumDominates(a: seq<real>, b: seq<real>)
    requires |a| == |b| && forall i :: 0 <= i < |a| ==> a[i] <= b[i]
    ensures Sum(a) <= Sum(b)
    ensures (exists i :: 0 <= i < |a| && a[i] < b[i]) ==> Sum(a) < Sum(b)
  {
    if a != [] {
      SumDominates(Front(a), Front(b));
      if i :| 0 <= i < |a| && a[i] < b[i] {
        if i < |a| - 1 { assert Front(a)[i] < Front(b)[i]; }
      }
    }
  }

  /** In particular, when every order fills at one price, the total never falls, and it is right exactly
      when no order with a percentage fee has a second fill. */
  lemma OnePriceFeesIff(ts: seq<Trade>)
    requires OnePrice(ts)
    ensures Sum(Fees(ts)) <= Sum(Fees(InPlace(ts)))
    ensures Sum(Fees(InPlace(ts))) == Sum(Fees(ts)) <==> ChargedOnce(ts)
  {
    var before, after := Fees(ts), Fees(InPlace(ts));
    forall i | 0 <= i < |ts| ensures before[i] <= after[i] {
      FeeAfter(ts, i);
    }
    SumDominates(before, after);
    if ChargedOnce(ts) {
      forall i | 0 <= i < |ts| ensures after[i] == before[i] {
        ChargedOnceAt(ts, i);
      }
      assert before == after;
    } else {
      var i, j :| 0 <= i < j < |ts| && ts[i].orderId == ts[j].orderId && IsFirst(ts, i) && ts[i].feePct.Some?;
      FeeAfter(ts, i);
      assert before[i] < after[i];
    }
  }

  lemma ChargedOnceAt(ts: seq<Trade>, i: nat)
    requires ChargedOnce(ts) && i < |ts|
    ensures Fee(InPlaceAt(ts, i)) == Fee(ts[i])
  {
    if IsFirst(ts, i) && ts[i].feePct.Some? {
      GroupAlone(ts, i);
      MergedAlone(ts[i]);
    }
  }

  // ---------------------------------------------------------------- fees that come out wrong

  /** Two buys of order `id`, one percent each. */
  function TwoFills(id: string, p: real, a: real, q: real, b: real): seq<Trade> {
    [Trade(id, Buy, Open, p, a, Some(0.01), false), Trade(id, Buy, Open, q, b, Some(0.01), false)]
  }

  lemma TwoFillsError(id: string, p: real, a: real, q: real, b: real)
    ensures FeeError(TwoFills(id, p, a, q, b)) == 0.01 * ((p + q) / 2.0 * (a + b) - p * a)
  {
    var ts := TwoFills(id, p, a, q, b);
    assert Front(ts) == [ts[0]] && Front([ts[0]]) == [];
    assert Last([ts[0]]) == ts[0] && Members([ts[0]], id) == [ts[0]];
    assert Last(ts) == ts[1] && Members(ts, id) == [ts[0]] + [ts[1]] == ts;
    assert Prices(ts) == [p, q] && Amounts(ts) == [a, b];
    SumTwo(p, q);
    SumTwo(a, b);
    assert FeeErrors(ts) == [FeeErrorAt(ts, 0), 0.0];
    SumTwo(FeeErrorAt(ts, 0), 0.0);
  }

  lemma SumTwo(x: real, y: real)
    ensures Sum([x, y]) == x + y
  {
    assert Front([x, y]) == [x];
    SumOne(x);
  }

  /** How much aggregation adds to the fee total. */
  function FeeChange(ts: seq<Trade>): real { Sum(Fees(InPlace(ts))) - Sum(Fees(ts)) }

  /** By how much aggregation changes the fee total of the two fills. */
  lemma TwoFillsChange(id: string, p: real, a: real, q: real, b: real)
    ensures FeeChange(TwoFills(id, p, a, q, b)) == 0.01 * ((p + q) / 2.0 * (a + b) - p * a)
  {
    TwoFillsError(id, p, a, q, b);
    FeesAfterAggregation(TwoFills(id, p, a, q, b));
  }

  /** The total can be too high, too low, or right although an order has two fills: it depends on how
      the plain mean of the prices compares with the fills. */
  lemma FeesGoWrong(id: string)
    ensures FeeChange(TwoFills(id, 1.0, 1.0, 1.0, 1.0)) == 0.01
    ensures FeeChange(TwoFills(id, 100.0, 100.0, 1.0, 0.01)) == -49.49495
    ensures FeeChange(TwoFills(id, 3.0, 1.0, 1.0, 0.5)) == 0.0
  {
    TwoFillsChange(id, 1.0, 1.0, 1.0, 1.0);
    TwoFillsChange(id, 100.0, 100.0, 1.0, 0.01);
    TwoFillsChange(id, 3.0, 1.0, 1.0, 0.5);
  }

  // ---------------------------------------------------------------- by side

  function TradesOf(ts: seq<Trade>, side: Side): seq<Trade> {
    if ts == [] then []
    else TradesOf(Front(ts), side) + (if Last(ts).side == side then [Last(ts)] else [])
  }

  /** Trades of one side count as derivatives when there are some and each has a position action. */
  predicate AreDerivatives(ts: seq<Trade>) {
    ts != [] && forall i :: 0 <= i < |ts| ==> ts[i].position != Nil
  }

  predicate Derivative(ts: seq<Trade>) {
    AreDerivatives(TradesOf(ts, Buy)) || AreDerivatives(TradesOf(ts, Sell))
  }

  predicate AggregatedBySide(ts: seq<Trade>, after: seq<Trade>) {
    && TradesOf(after, Buy) == InPlace(TradesOf(ts, Buy)) && TradesOf(after, Sell) == InPlace(TradesOf(ts, Sell))
    && TradesOf(after, OtherSide) == TradesOf(ts, OtherSide)
  }

  /** What computing the profit leaves of the trades: spot trades are as they were, derivative
      trades have been aggregated in place, side by side. */
  predicate AfterPnl(ts: seq<Trade>, after: seq<Trade>) {
    if Derivative(ts) then AggregatedBySide(ts, after) else after == ts
  }

  lemma FeesPush(ts: seq<Trade>, t: Trade)
    ensures Sum(Fees(ts + [t])) == Sum(Fees(ts)) + Fee(t)
  {
    assert Front(Fees(ts + [t])) == Fees(ts);
  }

  function SideFees(ts: seq<Trade>, side: Side): real { Sum(Fees(TradesOf(ts, side))) }

  lemma SideFeesPush(ts: seq<Trade>, t: Trade, side: Side)
    ensures SideFees(ts + [t], side) == SideFees(ts, side) + (if t.side == side then Fee(t) else 0.0)
  {
    assert Front(ts + [t]) == ts;
    if t.side == side {
      FeesPush(TradesOf(ts, side), t);
    } else {
      assert TradesOf(ts + [t], side) == TradesOf(ts, side);
    }
  }

  lemma {:induction false} FeesBySide(ts: seq<Trade>)
    ensures Sum(Fees(ts)) == SideFees(ts, Buy) + SideFees(ts, Sell) + SideFees(ts, OtherSide)
  {
    if ts != [] {
      var front, t := Front(ts), Last(ts);
      FeesBySide(front);
      assert ts == front + [t];
      FeesPush(front, t);
      SideFeesPush(front, t, Buy);
      SideFeesPush(front, t, Sell);
      SideFeesPush(front, t, OtherSide);
    }
  }

  lemma {:induction false} TradesOfIn(ts: seq<Trade>, side: Side)
    ensures forall i :: 0 <= i < |TradesOf(ts, side)| ==> TradesOf(ts, side)[i] in ts
  {
    if ts != [] {
      TradesOfIn(Front(ts), side);
      assert ts == Front(ts) + [Last(ts)];
    }
  }

  lemma OnePriceBySide(ts: seq<Trade>, side: Side)
    requires OnePrice(ts)
    ensures OnePrice(TradesOf(ts, side))
  {
    TradesOfIn(ts, side);
  }

  /** The fee error of the metrics: none for spot trades, else that of each side. */
  function ReportedError(ts: seq<Trade>): real {
    if Derivative(ts) then FeeError(TradesOf(ts, Buy)) + FeeError(TradesOf(ts, Sell)) else 0.0
  }

  /** For any trades: the fee total that the metrics report is that of the trades as they came in plus
      the error; so it is right if and only if the error is zero. */
  lemma ReportedFees(ts: seq<Trade>, after: seq<Trade>)
    requires AfterPnl(ts, after)
    ensures Sum(Fees(after)) == Sum(Fees(ts)) + ReportedError(ts)
    ensures Sum(Fees(after)) == Sum(Fees(ts)) <==> ReportedError(ts) == 0.0
  {
    FeesBySide(ts);
    FeesBySide(after);
    FeesAfterAggregation(TradesOf(ts, Buy));
    FeesAfterAggregation(TradesOf(ts, Sell));
  }

  /** It is right, in particular, whenever no order has two fills on a side. */
  lemma ReportedFeesOfDistinct(ts: seq<Trade>, after: seq<Trade>)
    requires AfterPnl(ts, after) && DistinctOrders(TradesOf(ts, Buy)) && DistinctOrders(TradesOf(ts, Sell))
    ensures Sum(Fees(after)) == Sum(Fees(ts))
  {
    DistinctUnchanged(TradesOf(ts, Buy));
    DistinctUnchanged(TradesOf(ts, Sell));
    FeesBySide(ts);
    FeesBySide(after);
  }

  /** When every order fills at one price, the reported total is never too low, and it is right exactly
      when the trades are spot or no order with a percentage fee has a second fill on its side. */
  lemma OnePriceReportedFeesIff(ts: seq<Trade>, after: seq<Trade>)
    requires OnePrice(ts) && AfterPnl(ts, after)
    ensures Sum(Fees(ts)) <= Sum(Fees(after))
    ensures Sum(Fees(after)) == Sum(Fees(ts)) <==>
      (Derivative(ts) ==> ChargedOnce(TradesOf(ts, Buy)) && ChargedOnce(TradesOf(ts, Sell)))
  {
    FeesBySide(ts);
    FeesBySide(after);
    OnePriceBySide(ts, Buy);
    OnePriceBySide(ts, Sell);
    OnePriceFeesIff(TradesOf(ts, Buy));
    OnePriceFeesIff(TradesOf(ts, Sell));
  }
}
