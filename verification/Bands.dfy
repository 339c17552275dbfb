/** The Avellaneda-Stoikov band geometry of the Phoenix controller. */
module Bands {
  import opened Prelude

  datatype Side = Buy | Sell

  /** `spreadTerm` stands for ln(1 + gamma/kappa)/gamma and `horizonSamples` for the
      horizon divided by the sample interval; both are constants of a configuration. */
  datatype Geometry = Geometry(
    gamma: real, spreadTerm: real, horizonSamples: real,
    minWidthPct: real, maxWidthPct: real, trendLean: real,
    upperRebalancePct: real, protectiveZonePct: real)

  /** The configuration range in which no band has a negative width. */
  predicate Spreads(g: Geometry) { 0.0 <= g.minWidthPct }

  /** The configuration range in which every band is proper: a width strictly between 0 and 1
      and a protective zone that stops short of zero. */
  predicate Sound(g: Geometry) {
    && 0.0 < g.minWidthPct < 100.0
    && g.maxWidthPct < 100.0
    && 0.0 < g.upperRebalancePct
    && 0.0 < g.protectiveZonePct < 100.0
  }

  datatype Band = Band(lower: real, upper: real, lowerLimit: real, upperLimit: real)

  function HalfSpread(g: Geometry, sigma: real): real {
    g.gamma * (sigma * sigma * g.horizonSamples) / 2.0 + g.spreadTerm
  }

  function Width(g: Geometry, sigma: real): (w: real)
    ensures Sound(g) ==> 0.0 < w < 1.0
    ensures Spreads(g) ==> 0.0 <= w
  {
    MaxR(g.minWidthPct / 100.0, MinR(2.0 * HalfSpread(g, sigma), g.maxWidthPct / 100.0))
  }

  /** Inventory skew, clipped to [-1, 1]: -1 is all quote, +1 is all base. */
  function Skew(baseValue: real, total: real): (q: real)
    ensures -1.0 <= q <= 1.0
  {
    if total <= 0.0 then 0.0
    else MaxR(-1.0, MinR(1.0, 2.0 * baseValue / total - 1.0))
  }

  /** The reservation price around which the band is placed; nothing keeps it positive. */
  function Center(g: Geometry, sigma: real, trend: real, price: real, baseValue: real, total: real): real {
    var shift := -Skew(baseValue, total) * g.gamma * (sigma * sigma * g.horizonSamples)
                 + g.trendLean * trend * Width(g, sigma);
    price * (1.0 + shift)
  }

  /** `x` lowered, and raised, by the fraction `f` of itself. */
  function Down(x: real, f: real): real { x * (1.0 - f) }
  function Up(x: real, f: real): real { x * (1.0 + f) }

  /** A bid hangs below min(center, 0.9995 price); an ask stands on max(center, 1.0005 price). */
  function Place(g: Geometry, side: Side, price: real, center: real, width: real): Band {
    var lower := if side == Buy then Down(MinR(center, price * 0.9995), width) else MaxR(center, price * 1.0005);
    var upper := if side == Buy then MinR(center, price * 0.9995) else Up(MaxR(center, price * 1.0005), width);
    Band(lower, upper, Down(lower, g.protectiveZonePct / 100.0), Up(upper, g.upperRebalancePct / 100.0))
  }

  /** What a band must satisfy to be a sensible position around `price`. */
  predicate WellFormed(side: Side, price: real, b: Band) {
    && 0.0 < b.lowerLimit < b.lower < b.upper < b.upperLimit
    && (side == Buy ==> b.upper < price)
    && (side == Sell ==> price < b.lower)
  }

  /** Lowering a positive quantity makes it smaller, and keeps it positive for f below 1 only. */
  lemma DownLaw(x: real, f: real)
    requires 0.0 < x && 0.0 < f
    ensures Down(x, f) < x
    ensures 0.0 < Down(x, f) <==> f < 1.0
  {
    MulPos(x, f);
    assert Down(x, f) == x - x * f;
    if f < 1.0 { MulPos(x, 1.0 - f); } else { MulNonNeg(x, f - 1.0); }
    assert x * (f - 1.0) == -Down(x, f);
  }

  lemma UpLaw(x: real, f: real)
    requires 0.0 < x && 0.0 < f
    ensures x < Up(x, f)
  {
    MulPos(x, f);
    assert Up(x, f) == x + x * f;
  }

  /** The controller emits a band exactly when lower < upper. For a bid that guard is the
      test that the reservation shift has not made the center non-positive. */
  lemma BidEmittedIffCenterPositive(g: Geometry, price: real, center: real, width: real)
    requires 0.0 < price && 0.0 < width
    ensures var b := Place(g, Buy, price, center, width); b.lower < b.upper <==> 0.0 < center
  {
    var upper := MinR(center, price * 0.9995);
    if 0.0 < center {
      DownLaw(upper, width);
    } else {
      MulNonNeg(-upper, width);
      assert Down(upper, width) == upper + -upper * width;
    }
  }

  /** Of the emitted bids, those with a positive lower bound are exactly the ones of width < 1. */
  lemma EmittedBidPositiveIffNarrow(g: Geometry, price: real, center: real, width: real)
    requires 0.0 < price && 0.0 < width
    requires var b := Place(g, Buy, price, center, width); b.lower < b.upper
    ensures 0.0 < Place(g, Buy, price, center, width).lower <==> width < 1.0
  {
    BidEmittedIffCenterPositive(g, price, center, width);
    DownLaw(MinR(center, price * 0.9995), width);
  }

  lemma DownIff(x: real, f: real)
    requires 0.0 < x
    ensures Down(x, f) < x <==> 0.0 < f
    ensures 0.0 < Down(x, f) <==> f < 1.0
  {
    if 0.0 < f {
      DownLaw(x, f);
    } else {
      MulNonNeg(x, -f);
      assert Down(x, f) == x + x * -f;
    }
  }

  lemma UpIff(x: real, f: real)
    requires 0.0 < x
    ensures x < Up(x, f) <==> 0.0 < f
  {
    if 0.0 < f {
      UpLaw(x, f);
    } else {
      MulNonNeg(x, -f);
      assert Up(x, f) == x - x * -f;
    }
  }

  /** Of the bands with positive bounds in the right order, those whose limits are proper too are
      exactly the ones with a protective zone in (0, 100) and a positive rebalance percentage. */
  lemma LimitsProperIff(g: Geometry, side: Side, price: real, center: real, width: real)
    requires 0.0 < price
    requires var b := Place(g, side, price, center, width); 0.0 < b.lower < b.upper
    ensures var b := Place(g, side, price, center, width);
      && (0.0 < b.lowerLimit < b.lower <==> 0.0 < g.protectiveZonePct < 100.0)
      && (b.upper < b.upperLimit <==> 0.0 < g.upperRebalancePct)
      && (WellFormed(side, price, b) <==> 0.0 < g.protectiveZonePct < 100.0 && 0.0 < g.upperRebalancePct)
  {
    var b := Place(g, side, price, center, width);
    DownIff(b.lower, g.protectiveZonePct / 100.0);
    UpIff(b.upper, g.upperRebalancePct / 100.0);
  }

  /** A band that is emitted has a positive top, and an ask a positive bottom too, exactly when its width
      is positive; a negative width can only put the whole of a bid below zero. */
  lemma EmittedTopPositiveIff(g: Geometry, side: Side, price: real, center: real, width: real)
    requires 0.0 < price
    requires var b := Place(g, side, price, center, width); b.lower < b.upper
    ensures var b := Place(g, side, price, center, width);
      && (0.0 < b.upper <==> 0.0 < width)
      && (side == Sell ==> 0.0 < b.lower)
  {
    var b := Place(g, side, price, center, width);
    if side == Buy {
      assert b.lower == b.upper - b.upper * width;
      if 0.0 < width {
        if b.upper <= 0.0 { MulNonNeg(-b.upper, width); }
      } else {
        if 0.0 < b.upper { MulNonNeg(b.upper, -width); }
      }
    } else {
      UpIff(b.lower, width);
    }
  }

  lemma NoBand(g: Geometry, side: Side, price: real, center: real)
    ensures var b := Place(g, side, price, center, 0.0); b.lower == b.upper
  {
  }

  lemma EmittedTop(g: Geometry, side: Side, price: real, center: real, width: real)
    requires 0.0 < price && 0.0 <= width
    requires var b := Place(g, side, price, center, width); b.lower < b.upper
    ensures var b := Place(g, side, price, center, width); 0.0 < b.upper && (side == Sell ==> 0.0 < b.lower)
  {
    EmittedTopPositiveIff(g, side, price, center, width);
    if width == 0.0 { NoBand(g, side, price, center); }
  }

  lemma PlacedBandWellFormed(g: Geometry, side: Side, price: real, center: real, width: real)
    requires Sound(g) && 0.0 < price && 0.0 < width < 1.0
    requires side == Buy ==> 0.0 < center
    ensures WellFormed(side, price, Place(g, side, price, center, width))
  {
    var b := Place(g, side, price, center, width);
    if side == Buy { DownLaw(b.upper, width); } else { UpLaw(b.lower, width); }
    DownLaw(b.lower, g.protectiveZonePct / 100.0);
    UpLaw(b.upper, g.upperRebalancePct / 100.0);
  }

  /** Every band with lower < upper, which is what the controller requires before emitting it, is
      well formed, whatever inventory, trend and volatility; and an ask is never refused, since
      its center is clamped above the price. Where widths are not negative it has a positive top
      at least, and an ask a positive bottom. */
  function MakeBand(g: Geometry, side: Side, price: real, sigma: real, trend: real,
                    baseValue: real, total: real): (b: Band)
    ensures Sound(g) && 0.0 < price && (side == Sell || b.lower < b.upper) ==> WellFormed(side, price, b)
    ensures Spreads(g) && 0.0 < price && b.lower < b.upper ==> 0.0 < b.upper && (side == Sell ==> 0.0 < b.lower)
  {
    var center, width := Center(g, sigma, trend, price, baseValue, total), Width(g, sigma);
    var b := Place(g, side, price, center, width);
    assert Sound(g) && 0.0 < price && (side == Sell || b.lower < b.upper) ==> WellFormed(side, price, b) by {
      if Sound(g) && 0.0 < price && (side == Sell || b.lower < b.upper) {
        if side == Buy { BidEmittedIffCenterPositive(g, price, center, width); }
        PlacedBandWellFormed(g, side, price, center, width);
      }
    }
    assert Spreads(g) && 0.0 < price && b.lower < b.upper ==> 0.0 < b.upper && (side == Sell ==> 0.0 < b.lower) by {
      if Spreads(g) && 0.0 < price && b.lower < b.upper { EmittedTop(g, side, price, center, width); }
    }
    b
  }

  // ---------------------------------------------------------------- how the band leans

  /** The configured risk aversion, horizon and lean have the signs the configuration gives them. */
  predicate Averse(g: Geometry) { 0.0 <= g.gamma && 0.0 <= g.horizonSamples && 0.0 <= g.trendLean && 0.0 < g.minWidthPct }

  /** The variance over the horizon, times the risk aversion. */
  function Risk(g: Geometry, sigma: real): real { g.gamma * (sigma * sigma * g.horizonSamples) }

  lemma RiskGrows(g: Geometry, sigma: real, sigma': real)
    requires Averse(g) && 0.0 <= sigma <= sigma'
    ensures 0.0 <= Risk(g, sigma) <= Risk(g, sigma')
  {
    MulMono(sigma, sigma', sigma);
    MulMono(sigma, sigma', sigma');
    MulNonNeg(sigma, sigma);
    MulNonNeg(sigma * sigma, g.horizonSamples);
    MulMono(sigma * sigma, sigma' * sigma', g.horizonSamples);
    MulNonNeg(g.gamma, sigma * sigma * g.horizonSamples);
    MulMono(sigma * sigma * g.horizonSamples, sigma' * sigma' * g.horizonSamples, g.gamma);
  }

  /** More volatility never narrows the band. */
  lemma WidthGrowsWithVolatility(g: Geometry, sigma: real, sigma': real)
    requires Averse(g) && 0.0 <= sigma <= sigma'
    ensures Width(g, sigma) <= Width(g, sigma')
  {
    RiskGrows(g, sigma, sigma');
    assert HalfSpread(g, sigma) == Risk(g, sigma) / 2.0 + g.spreadTerm;
    assert HalfSpread(g, sigma') == Risk(g, sigma') / 2.0 + g.spreadTerm;
  }

  lemma ShareGrows(b: real, b': real, q: real)
    requires 0.0 <= b <= b' && 0.0 <= q && 0.0 < b + q
    ensures b / (b + q) <= b' / (b' + q)
  {
    var x, y := b / (b + q), b' / (b' + q);
    assert x * (b + q) == b && y * (b' + q) == b';
    MulMono(b, b', q);
    MulPos(b + q, b' + q);
    assert (x - y) * ((b + q) * (b' + q)) == (x * (b + q)) * (b' + q) - (y * (b' + q)) * (b + q);
    assert b * (b' + q) - b' * (b + q) == b * q - b' * q;
    if y < x { MulPos(x - y, (b + q) * (b' + q)); }
  }

  /** More base in the wallet, next to the same quote, means a larger skew. */
  lemma SkewGrows(b: real, b': real, q: real)
    requires 0.0 <= b <= b' && 0.0 <= q && 0.0 < b + q
    ensures Skew(b, b + q) <= Skew(b', b' + q)
  {
    ShareGrows(b, b', q);
    assert 2.0 * b / (b + q) == 2.0 * (b / (b + q));
    assert 2.0 * b' / (b' + q) == 2.0 * (b' / (b' + q));
  }

  /** The price moved against skew `q` and along the trend. */
  function Leaned(price: real, q: real, risk: real, lean: real, trend: real): real {
    price * (1.0 + (-(q * risk) + lean * trend))
  }

  lemma CenterIs(g: Geometry, sigma: real, trend: real, price: real, base: real, total: real)
    ensures Center(g, sigma, trend, price, base, total)
         == Leaned(price, Skew(base, total), Risk(g, sigma), g.trendLean * Width(g, sigma), trend)
  {
    var q, v := Skew(base, total), sigma * sigma * g.horizonSamples;
    assert -q * g.gamma * v == -(q * (g.gamma * v));
    assert g.trendLean * trend * Width(g, sigma) == g.trendLean * Width(g, sigma) * trend;
  }

  lemma LeanedMono(price: real, q: real, q': real, risk: real, lean: real, trend: real, trend': real)
    requires 0.0 < price && q <= q' && 0.0 <= risk && 0.0 <= lean && trend' <= trend
    ensures Leaned(price, q', risk, lean, trend') <= Leaned(price, q, risk, lean, trend)
  {
    MulMono(q, q', risk);
    MulMono(trend', trend, lean);
    MulMono(1.0 + (-(q' * risk) + lean * trend'), 1.0 + (-(q * risk) + lean * trend), price);
  }

  /** Inventory pushes the reservation price away from risk, and the trend pulls it along: with more
      base it never rises, with a higher trend it never falls. */
  lemma CenterLeans(g: Geometry, sigma: real, trend: real, trend': real, price: real, base: real, base': real, quote: real)
    requires Averse(g) && 0.0 <= sigma && 0.0 < price && 0.0 <= quote
    requires 0.0 <= base <= base' && 0.0 < base + quote && trend' <= trend
    ensures Center(g, sigma, trend', price, base', base' + quote) <= Center(g, sigma, trend, price, base, base + quote)
  {
    CenterIs(g, sigma, trend, price, base, base + quote);
    CenterIs(g, sigma, trend', price, base', base' + quote);
    RiskGrows(g, sigma, sigma);
    SkewGrows(base, base', quote);
    MulNonNeg(g.trendLean, Width(g, sigma));
    LeanedMono(price, Skew(base, base + quote), Skew(base', base' + quote), Risk(g, sigma),
               g.trendLean * Width(g, sigma), trend, trend');
  }

  // ---------------------------------------------------------------- what the figures are

  /** The skew runs linearly from -1, no base, through 0, half base, to 1, all base. */
  lemma SkewIs(base: real, total: real)
    requires 0.0 <= base <= total && 0.0 < total
    ensures (Skew(base, total) + 1.0) * total == 2.0 * base
  {
    var x := 2.0 * base / total;
    assert x * total == 2.0 * base;
    if x < 0.0 { MulPos(-x, total); }
    if 2.0 < x { MulPos(x - 2.0, total); }
  }

  /** A wallet that counts for nothing has no skew, and one in debt on one side is all the other. */
  lemma SkewAtTheEnds(base: real, total: real)
    ensures total <= 0.0 ==> Skew(base, total) == 0.0
    ensures 0.0 < total <= base ==> Skew(base, total) == 1.0
    ensures base <= 0.0 < total ==> Skew(base, total) == -1.0
  {
    if 0.0 < total {
      var x := 2.0 * base / total;
      assert x * total == 2.0 * base;
      if total <= base && x < 2.0 { MulPos(2.0 - x, total); }
      if base <= 0.0 && 0.0 < x { MulPos(x, total); }
    }
  }

  /** The width is what the variance and the spread term ask for, kept between the two configured widths,
      the least of which prevails. */
  lemma WidthIs(g: Geometry, sigma: real, asked: real)
    requires asked == g.gamma * (sigma * sigma * g.horizonSamples) + 2.0 * g.spreadTerm
    ensures g.minWidthPct <= 100.0 * asked <= g.maxWidthPct ==> Width(g, sigma) == asked
    ensures 100.0 * asked <= g.minWidthPct || g.maxWidthPct <= g.minWidthPct ==> 100.0 * Width(g, sigma) == g.minWidthPct
    ensures g.minWidthPct <= g.maxWidthPct <= 100.0 * asked ==> 100.0 * Width(g, sigma) == g.maxWidthPct
  {
    assert 2.0 * HalfSpread(g, sigma) == asked;
  }

  /** The reservation price lies off the price by the risk for every unit of value held in quote over base,
      as a share of the wallet, and by the lean along the trend for every unit of width. */
  lemma CenterShift(g: Geometry, sigma: real, trend: real, price: real, base: real, total: real, risk: real)
    requires 0.0 <= base <= total && 0.0 < total && risk == g.gamma * (sigma * sigma * g.horizonSamples)
    ensures (Center(g, sigma, trend, price, base, total) - price) * total
         == price * ((total - 2.0 * base) * risk + g.trendLean * trend * Width(g, sigma) * total)
  {
    var q, lean := Skew(base, total), g.trendLean * Width(g, sigma);
    SkewIs(base, total);
    CenterIs(g, sigma, trend, price, base, total);
    assert Risk(g, sigma) == risk;
    LeanedShift(price, q, risk, lean, trend, base, total);
    assert lean * trend == g.trendLean * trend * Width(g, sigma);
  }

  lemma LeanedShift(price: real, q: real, risk: real, lean: real, trend: real, base: real, total: real)
    requires (q + 1.0) * total == 2.0 * base
    ensures (Leaned(price, q, risk, lean, trend) - price) * total
         == price * ((total - 2.0 * base) * risk + lean * trend * total)
  {
    var t := -(q * risk) + lean * trend;
    assert q * total == 2.0 * base - total;
    assert Leaned(price, q, risk, lean, trend) - price == price * t;
    assert (q * risk) * total == (q * total) * risk;
    assert t * total == -(q * risk) * total + lean * trend * total;
    assert (price * t) * total == price * (t * total);
  }

  /** A bid reaches up to the lower of the center and 0.9995 of the price, an ask down to the higher of the
      center and 1.0005 of it; each spans the width, relative to that bound, and its limits lie off its two
      bounds by the protective zone and the rebalance percentage. */
  lemma BandIs(g: Geometry, side: Side, price: real, sigma: real, trend: real, base: real, total: real)
    ensures var (b, center) := (MakeBand(g, side, price, sigma, trend, base, total), Center(g, sigma, trend, price, base, total));
      && 100.0 * (b.lower - b.lowerLimit) == b.lower * g.protectiveZonePct
      && 100.0 * (b.upperLimit - b.upper) == b.upper * g.upperRebalancePct
      && (if side == Buy then
            && b.upper <= center && 10000.0 * b.upper <= 9995.0 * price
            && (b.upper == center || 10000.0 * b.upper == 9995.0 * price)
            && b.upper - b.lower == b.upper * Width(g, sigma)
          else
            && b.lower >= center && 10000.0 * b.lower >= 10005.0 * price
            && (b.lower == center || 10000.0 * b.lower == 10005.0 * price)
            && b.upper - b.lower == b.lower * Width(g, sigma))
  {
    PlaceIs(g, side, price, Center(g, sigma, trend, price, base, total), Width(g, sigma));
  }

  lemma PlaceIs(g: Geometry, side: Side, price: real, center: real, width: real)
    ensures var b := Place(g, side, price, center, width);
      && 100.0 * (b.lower - b.lowerLimit) == b.lower * g.protectiveZonePct
      && 100.0 * (b.upperLimit - b.upper) == b.upper * g.upperRebalancePct
      && (if side == Buy then b.upper == MinR(center, 0.9995 * price) && b.upper - b.lower == b.upper * width
          else b.lower == MaxR(center, 1.0005 * price) && b.upper - b.lower == b.lower * width)
  {
    var b := Place(g, side, price, center, width);
    Percent(b.lower, g.protectiveZonePct);
    Percent(b.upper, g.upperRebalancePct);
    Percent(if side == Buy then b.upper else b.lower, 100.0 * width);
  }

  lemma Percent(x: real, pct: real)
    ensures 100.0 * (x - Down(x, pct / 100.0)) == x * pct
    ensures 100.0 * (Up(x, pct / 100.0) - x) == x * pct
  {
    var f := pct / 100.0;
    assert Down(x, f) == x - x * f && Up(x, f) == x + x * f;
    assert 100.0 * (x * f) == x * pct;
  }
}
