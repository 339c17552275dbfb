/** Token composition of the simulated LP position as a function of price, and what it is worth. */
module Position {
  import opened Prelude
  import Bands

  datatype Holdings = Holdings(base: real, quote: real)

  function ValueAt(h: Holdings, p: real): real {
    h.quote + h.base * p
  }

  /** The part of the band above the price, between 0 (price at or over the top) and 1. */
  function FracBelow(lower: real, upper: real, p: real): (f: real)
    requires lower < upper
    ensures 0.0 <= f <= 1.0
    ensures p <= lower ==> f == 1.0
    ensures p >= upper ==> f == 0.0
    ensures lower <= p <= upper ==> f * (upper - lower) == upper - p
  {
    var x := (upper - p) / (upper - lower);
    assert x * (upper - lower) == upper - p;
    FracBounds(x, upper - lower, upper - p);
    MinR(MaxR(x, 0.0), 1.0)
  }

  lemma FracBounds(x: real, d: real, n: real)
    requires 0.0 < d && x * d == n
    ensures n <= 0.0 ==> x <= 0.0
    ensures n >= d ==> x >= 1.0
    ensures 0.0 <= n <= d ==> 0.0 <= x <= 1.0
  {
    assert (1.0 - x) * d == d - n && (x - 1.0) * d == n - d && -x * d == -n;
    if x > 0.0 { MulPos(x, d); }
    if x < 0.0 { MulPos(-x, d); }
    if x < 1.0 { MulPos(1.0 - x, d); }
    if x > 1.0 { MulPos(x - 1.0, d); }
  }

  /** A bid band: quote is converted to base as the price falls through the band. */
  function BidHoldings(lower: real, upper: real, deposit: real, p: real): (h: Holdings)
    requires lower < upper && 0.0 < upper && 0.0 < p
  {
    var converted := deposit * FracBelow(lower, upper, p);
    var avgPx := (upper + MaxR(p, lower)) / 2.0;
    Holdings(converted / avgPx, deposit - converted)
  }

  /** An ask band: base is sold for quote as the price rises through the band. */
  function AskHoldings(lower: real, upper: real, initBase: real, p: real): (h: Holdings)
    requires lower < upper
  {
    var sold := initBase * (1.0 - FracBelow(lower, upper, p));
    var avgPx := (lower + MinR(p, upper)) / 2.0;
    Holdings(initBase - sold, sold * avgPx)
  }

  lemma Share(x: real, f: real)
    requires 0.0 <= x && 0.0 <= f <= 1.0
    ensures 0.0 <= x * f <= x
  {
    MulNonNeg(x, f);
    MulNonNeg(x, 1.0 - f);
    assert x * (1.0 - f) == x - x * f;
  }

  lemma BidHoldingsNonNegative(lower: real, upper: real, deposit: real, p: real)
    requires lower < upper && 0.0 < upper && 0.0 <= deposit && 0.0 < p
    ensures var h := BidHoldings(lower, upper, deposit, p); 0.0 <= h.base && 0.0 <= h.quote <= deposit
  {
    var f := FracBelow(lower, upper, p);
    Share(deposit, f);
    DivNonNeg(deposit * f, (upper + MaxR(p, lower)) / 2.0);
  }

  lemma AskHoldingsNonNegative(lower: real, upper: real, initBase: real, p: real)
    requires 0.0 < lower < upper && 0.0 <= initBase && 0.0 < p
    ensures var h := AskHoldings(lower, upper, initBase, p); 0.0 <= h.base <= initBase && 0.0 <= h.quote
  {
    var f := FracBelow(lower, upper, p);
    Share(initBase, 1.0 - f);
    MulNonNeg(initBase * (1.0 - f), (lower + MinR(p, upper)) / 2.0);
  }

  /** How far the average conversion price lies above `p`, relative to itself. */
  function Slip(lower: real, upper: real, p: real): real
    requires lower < upper && 0.0 < upper && 0.0 < p
  {
    var c := upper + MaxR(p, lower);
    (c - 2.0 * p) / c
  }

  function BidValue(lower: real, upper: real, deposit: real, p: real): real
    requires lower < upper && 0.0 < upper && 0.0 < p
  {
    ValueAt(BidHoldings(lower, upper, deposit, p), p)
  }

  function AskValue(lower: real, upper: real, initBase: real, p: real): real
    requires lower < upper
  {
    ValueAt(AskHoldings(lower, upper, initBase, p), p)
  }

  function Loss(k: real, f: real, s: real): real { k * f * s }

  /** A bid loses its converted fraction times the slip. */
  lemma BidLoss(lower: real, upper: real, deposit: real, p: real)
    requires lower < upper && 0.0 < upper && 0.0 < p
    ensures BidValue(lower, upper, deposit, p)
         == deposit - Loss(deposit, FracBelow(lower, upper, p), Slip(lower, upper, p))
  {
    var k, c := deposit * FracBelow(lower, upper, p), upper + MaxR(p, lower);
    var b := k / (c / 2.0);
    assert b * c == 2.0 * k;
    var s := Slip(lower, upper, p);
    assert s * c == c - 2.0 * p;
    // multiply the claim b*p == k - k*s by c
    assert (b * p) * c == (b * c) * p == 2.0 * k * p;
    assert (k * s) * c == k * (s * c) == k * c - 2.0 * k * p;
    CancelFactor(b * p, k - k * s, c);
  }

  lemma CancelFactor(a: real, b: real, c: real)
    requires 0.0 < c && a * c == b * c
    ensures a == b
  {
    assert (a - b) * c == 0.0;
    if a < b { MulPos(b - a, c); } else if b < a { MulPos(a - b, c); }
  }

  lemma DivMono(a: real, b: real, c: real, d: real)
    requires 0.0 < b && 0.0 < d && a * d <= c * b
    ensures a / b <= c / d
  {
    var x, y := a / b, c / d;
    assert x * b == a && y * d == c;
    assert (x - y) * (b * d) == (x * b) * d - (y * d) * b;
    MulPos(b, d);
    if y < x { MulPos(x - y, b * d); }
  }

  lemma FracAntitone(lower: real, upper: real, p: real, q: real)
    requires lower < upper && p <= q
    ensures FracBelow(lower, upper, q) <= FracBelow(lower, upper, p)
  {
    MulMono(upper - q, upper - p, upper - lower);
    DivMono(upper - q, upper - lower, upper - p, upper - lower);
  }

  lemma SlipAntitone(lower: real, upper: real, p: real, q: real)
    requires lower < upper && 0.0 < upper && 0.0 < p <= q <= upper
    ensures 0.0 <= Slip(lower, upper, q) <= Slip(lower, upper, p)
  {
    var m, n := MaxR(p, lower), MaxR(q, lower);
    Cross(upper, lower, p, q);
    SlipOrder(p, q, upper + m, upper + n);
  }

  lemma Cross(upper: real, lower: real, p: real, q: real)
    requires 0.0 < upper && 0.0 < p <= q
    ensures p * (upper + MaxR(q, lower)) <= q * (upper + MaxR(p, lower))
  {
    if q <= lower { CrossBelow(p, q, upper + lower); } else { CrossInBand(upper, p, q, MaxR(p, lower)); }
  }

  lemma CrossBelow(p: real, q: real, c: real)
    requires p <= q && 0.0 < c
    ensures p * c <= q * c
  {
    MulMono(p, q, c);
  }

  lemma CrossInBand(upper: real, p: real, q: real, m: real)
    requires p <= q && p <= m && 0.0 < q && 0.0 < upper
    ensures p * (upper + q) <= q * (upper + m)
  {
    MulMono(p, q, upper);
    MulMono(p, m, q);
    assert p * (upper + q) == p * upper + p * q;
    assert q * (upper + m) == q * upper + m * q;
  }

  lemma SlipOrder(p: real, q: real, c: real, d: real)
    requires 0.0 < c && 0.0 < d && 2.0 * q <= d && p * d <= q * c
    ensures 0.0 <= (d - 2.0 * q) / d <= (c - 2.0 * p) / c
  {
    assert (d - 2.0 * q) * c == d * c - 2.0 * (q * c);
    assert (c - 2.0 * p) * d == c * d - 2.0 * (p * d);
    DivNonNeg(d - 2.0 * q, d);
    DivMono(d - 2.0 * q, d, c - 2.0 * p, c);
  }

  lemma LossMono(k: real, f: real, g: real, s: real, t: real)
    requires 0.0 <= k && 0.0 <= f <= g && 0.0 <= s <= t
    ensures 0.0 <= Loss(k, f, s) <= Loss(k, g, t)
  {
    MulMono(f, g, k);
    MulNonNeg(k, f);
    MulNonNeg(k * f, s);
    MulMono(k * f, k * g, s);
    MulMono(s, t, k * g);
  }

  /** The worth of a bid position never falls when the price rises. */
  lemma BidValueMonotone(lower: real, upper: real, deposit: real, p: real, q: real)
    requires lower < upper && 0.0 < upper && 0.0 <= deposit && 0.0 < p <= q
    ensures BidValue(lower, upper, deposit, p) <= BidValue(lower, upper, deposit, q)
  {
    BidLoss(lower, upper, deposit, p);
    BidLoss(lower, upper, deposit, q);
    if q <= upper {
      FracAntitone(lower, upper, p, q);
      SlipAntitone(lower, upper, p, q);
      LossMono(deposit, FracBelow(lower, upper, q), FracBelow(lower, upper, p),
               Slip(lower, upper, q), Slip(lower, upper, p));
    } else {
      NoLossAbove(lower, upper, deposit, q);
      LossIsLoss(lower, upper, deposit, p);
    }
  }

  lemma NoLossAbove(lower: real, upper: real, deposit: real, p: real)
    requires lower < upper <= p && 0.0 < upper
    ensures Loss(deposit, FracBelow(lower, upper, p), Slip(lower, upper, p)) == 0.0
  {
  }

  lemma LossIsLoss(lower: real, upper: real, deposit: real, p: real)
    requires lower < upper && 0.0 < upper && 0.0 <= deposit && 0.0 < p
    ensures 0.0 <= Loss(deposit, FracBelow(lower, upper, p), Slip(lower, upper, p))
  {
    if p <= upper {
      SlipAntitone(lower, upper, p, p);
      LossMono(deposit, FracBelow(lower, upper, p), FracBelow(lower, upper, p), Slip(lower, upper, p), Slip(lower, upper, p));
    } else {
      NoLossAbove(lower, upper, deposit, p);
    }
  }

  /** At every price the bid is worth at most the quote it started with, and exactly that
      at or above the top of the band. */
  lemma BidValueAtMostDeposit(lower: real, upper: real, deposit: real, p: real)
    requires lower < upper && 0.0 < upper && 0.0 <= deposit && 0.0 < p
    ensures BidValue(lower, upper, deposit, p) <= deposit
    ensures upper <= p ==> BidValue(lower, upper, deposit, p) == deposit
  {
    BidLoss(lower, upper, deposit, p);
    if upper <= p { NoLossAbove(lower, upper, deposit, p); } else { LossIsLoss(lower, upper, deposit, p); }
  }

  /** A bid of width w with protective zone z keeps at least 2(1-w)(1-z)/(2-w) of its deposit
      while the price is at or above the lower limit; at the limit itself it keeps exactly that. */
  lemma BidFloor(lower: real, upper: real, limit: real, w: real, z: real, deposit: real, p: real)
    requires 0.0 < upper && 0.0 < w < 1.0 && 0.0 < z < 1.0 && 0.0 <= deposit
    requires lower == Bands.Down(upper, w) && limit == Bands.Down(lower, z) && limit <= p
    ensures 0.0 < limit < lower < upper
    ensures BidValue(lower, upper, deposit, p) >= deposit * (2.0 * (1.0 - w) * (1.0 - z) / (2.0 - w))
    ensures BidValue(lower, upper, deposit, limit) == deposit * (2.0 * (1.0 - w) * (1.0 - z) / (2.0 - w))
  {
    Bands.DownLaw(upper, w);
    Bands.DownLaw(lower, z);
    BidLoss(lower, upper, deposit, limit);
    KeptAtLimit(lower, upper, limit, w, z);
    var kept := 2.0 * (1.0 - w) * (1.0 - z) / (2.0 - w);
    LossComplement(deposit, Slip(lower, upper, limit), kept);
    BidValueMonotone(lower, upper, deposit, limit, p);
  }

  /** The bounds of an emitted bid: its band hangs below its top by the width, and the limit below that
      by the protective zone. */
  lemma EmittedBidShape(g: Bands.Geometry, price: real, sigma: real, trend: real, baseValue: real, total: real)
    requires Bands.Sound(g) && 0.0 < price
    ensures var b := Bands.MakeBand(g, Bands.Buy, price, sigma, trend, baseValue, total);
      b.lower < b.upper ==>
        && 0.0 < b.lowerLimit && 0.0 < b.lower && b.lower == Bands.Down(b.upper, Bands.Width(g, sigma))
        && b.lowerLimit == Bands.Down(b.lower, g.protectiveZonePct / 100.0)
  {
  }

  /** Every bid the controller emits keeps that floor down to its own lower limit. */
  lemma EmittedBidFloor(g: Bands.Geometry, price: real, sigma: real, trend: real, baseValue: real, total: real,
                        deposit: real, p: real)
    requires Bands.Sound(g) && 0.0 < price && 0.0 <= deposit
    ensures var b := Bands.MakeBand(g, Bands.Buy, price, sigma, trend, baseValue, total);
      b.lower < b.upper && b.lowerLimit <= p ==>
        0.0 < b.lower && 0.0 < p && KeepsFloor(b.lower, b.upper, Bands.Width(g, sigma), g.protectiveZonePct / 100.0, deposit, p)
  {
    EmittedBidShape(g, price, sigma, trend, baseValue, total);
    var b := Bands.MakeBand(g, Bands.Buy, price, sigma, trend, baseValue, total);
    if b.lower < b.upper && b.lowerLimit <= p {
      FloorKept(b.lower, b.upper, b.lowerLimit, Bands.Width(g, sigma), g.protectiveZonePct / 100.0, deposit, p);
    }
  }

  /** At price `p` the bid is worth at least 2(1-w)(1-z)/(2-w) of its deposit, and at most all of it. */
  predicate KeepsFloor(lower: real, upper: real, w: real, z: real, deposit: real, p: real)
    requires lower < upper && 0.0 < upper && 0.0 < p && w < 2.0
  {
    deposit * (2.0 * (1.0 - w) * (1.0 - z) / (2.0 - w)) <= BidValue(lower, upper, deposit, p) <= deposit
  }

  lemma FloorKept(lower: real, upper: real, limit: real, w: real, z: real, deposit: real, p: real)
    requires 0.0 < lower < upper && 0.0 < w < 1.0 && 0.0 < z < 1.0 && 0.0 <= deposit
    requires lower == Bands.Down(upper, w) && limit == Bands.Down(lower, z) && 0.0 < limit <= p
    ensures KeepsFloor(lower, upper, w, z, deposit, p)
  {
    BidFloor(lower, upper, limit, w, z, deposit, p);
    BidValueAtMostDeposit(lower, upper, deposit, p);
  }

  lemma LossComplement(deposit: real, s: real, kept: real)
    requires s == 1.0 - kept
    ensures deposit - Loss(deposit, 1.0, s) == deposit * kept
  {
  }

  lemma KeptAtLimit(lower: real, upper: real, limit: real, w: real, z: real)
    requires 0.0 < upper && 0.0 < w < 1.0 && 0.0 < limit < lower < upper
    requires lower == Bands.Down(upper, w) && limit == Bands.Down(lower, z)
    ensures Slip(lower, upper, limit) == 1.0 - 2.0 * (1.0 - w) * (1.0 - z) / (2.0 - w)
  {
    var kept := 2.0 * (1.0 - w) * (1.0 - z) / (2.0 - w);
    var c, s := upper + lower, Slip(lower, upper, limit);
    assert s * c == c - 2.0 * limit;
    assert kept * (2.0 - w) == 2.0 * (1.0 - w) * (1.0 - z);
    assert c == (2.0 - w) * upper;
    assert kept * c == (kept * (2.0 - w)) * upper == 2.0 * limit;
    assert (1.0 - kept) * c == c - kept * c;
    CancelFactor(s, 1.0 - kept, c);
  }

  /** The base an ask has sold, times how far below the price it was sold on average. */
  lemma AskGap(lower: real, upper: real, initBase: real, p: real)
    requires lower < upper
    ensures AskValue(lower, upper, initBase, p)
         == initBase * p - initBase * (1.0 - FracBelow(lower, upper, p)) * (p - (lower + MinR(p, upper)) / 2.0)
  {
    var sold, avg := initBase * (1.0 - FracBelow(lower, upper, p)), (lower + MinR(p, upper)) / 2.0;
    assert (initBase - sold) * p == initBase * p - sold * p;
    assert sold * (p - avg) == sold * p - sold * avg;
  }

  /** At every price the ask is worth at most the base it started with, held. */
  lemma AskValueAtMostHolding(lower: real, upper: real, initBase: real, p: real)
    requires 0.0 < lower < upper && 0.0 <= initBase && 0.0 < p
    ensures AskValue(lower, upper, initBase, p) <= initBase * p
  {
    AskGap(lower, upper, initBase, p);
    if lower < p {
      MulNonNeg(initBase, 1.0 - FracBelow(lower, upper, p));
      MulNonNeg(initBase * (1.0 - FracBelow(lower, upper, p)), p - (lower + MinR(p, upper)) / 2.0);
    }
  }

  // ---------------------------------------------------------------- the composition itself

  /** Inside its band a bid holds quote in proportion to how far the price is over the bottom, and has paid
      the mean of the price and the top for its base; below the band it has bought at the mean of the bounds
      with all of its deposit, and above the band with none. */
  lemma BidComposition(lower: real, upper: real, deposit: real, p: real)
    requires lower < upper && 0.0 < upper && 0.0 < p
    ensures var h := BidHoldings(lower, upper, deposit, p);
      && (lower <= p <= upper ==>
            h.quote * (upper - lower) == deposit * (p - lower) && h.base * (upper + p) == 2.0 * (deposit - h.quote))
      && (p <= lower ==> h.quote == 0.0 && h.base * (upper + lower) == 2.0 * deposit)
      && (upper <= p ==> h == Holdings(0.0, deposit))
  {
    var f, m := FracBelow(lower, upper, p), upper + MaxR(p, lower);
    var h := BidHoldings(lower, upper, deposit, p);
    HalfMean(deposit * f, m, h.base);
    if lower <= p <= upper { Remaining(deposit, f, upper - lower, upper - p); }
    if upper <= p { assert deposit * f == 0.0; }
  }

  lemma HalfMean(k: real, m: real, b: real)
    requires 0.0 < m && b == k / (m / 2.0)
    ensures b * m == 2.0 * k
    ensures k == 0.0 ==> b == 0.0
  {
  }

  lemma Remaining(x: real, f: real, d: real, n: real)
    requires f * d == n
    ensures (x - x * f) * d == x * (d - n)
  {
    assert (x * f) * d == x * (f * d);
    assert (x - x * f) * d == x * d - (x * f) * d;
  }

  /** Inside its band an ask holds base in proportion to how far the price is under the top, and has got the
      mean of the bottom and the price for what it sold; below the band it has sold nothing, and above the
      band all of its base at the mean of the bounds. */
  lemma AskComposition(lower: real, upper: real, initBase: real, p: real)
    requires lower < upper
    ensures var h := AskHoldings(lower, upper, initBase, p);
      && (lower <= p <= upper ==>
            h.base * (upper - lower) == initBase * (upper - p) && 2.0 * h.quote == (initBase - h.base) * (lower + p))
      && (p <= lower ==> h == Holdings(initBase, 0.0))
      && (upper <= p ==> h.base == 0.0 && 2.0 * h.quote == initBase * (lower + upper))
  {
    var f := FracBelow(lower, upper, p);
    if lower <= p <= upper { Sold(initBase, f, upper - lower, upper - p); }
    if p <= lower { assert initBase * (1.0 - f) == 0.0; }
    if upper <= p { assert initBase * (1.0 - f) == initBase; }
  }

  lemma Sold(x: real, f: real, d: real, n: real)
    requires f * d == n
    ensures (x - x * (1.0 - f)) * d == x * n
  {
    assert x - x * (1.0 - f) == x * f;
    assert (x * f) * d == x * (f * d);
  }
}
