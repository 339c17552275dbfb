/** The cascade detector: marked down-move events and the EM fit of a Hawkes branching ratio. The
    exponential enters only through its positivity, so `exp` stands for any positive function. */
module Hawkes {
  import opened Prelude

  ghost predicate Positive(exp: real -> real) {
    forall x :: exp(x) > 0.0
  }

  const LAG: nat := 30
  const ROUNDS: nat := 15
  const MU_FLOOR := 0.000000001
  const N_CAP := 0.98

  // ---------------------------------------------------------------- one EM round

  datatype Kernel = Kernel(mu: real, n: real, beta: real)

  predicate Sensible(k: Kernel) { 0.0 < k.mu && 0.0 <= k.n && 0.0 < k.beta }

  /** Weight of an event that happened `age` seconds before. */
  function Weight(k: Kernel, exp: real -> real, age: real): real {
    k.n * k.beta * exp(Exponent(k.beta, age))
  }

  function Exponent(beta: real, age: real): real { -beta * age }

  lemma WeightSign(k: Kernel, exp: real -> real, age: real)
    requires Sensible(k) && Positive(exp)
    ensures 0.0 <= Weight(k, exp, age) && (0.0 < k.n ==> 0.0 < Weight(k, exp, age))
  {
    var w := exp(Exponent(k.beta, age));
    MulNonNeg(k.n, k.beta);
    MulNonNeg(k.n * k.beta, w);
    if 0.0 < k.n {
      MulPos(k.n, k.beta);
      MulPos(k.n * k.beta, w);
    }
  }

  /** The weight starts at the branching ratio over the decay time and, with an exponential that takes this
      sum to a product, falls off exponentially. */
  lemma WeightDecays(k: Kernel, exp: real -> real, a: real, b: real, x: real, y: real)
    requires x == -k.beta * a && y == -k.beta * b && exp(0.0) == 1.0 && exp(x + y) == exp(x) * exp(y)
    ensures Weight(k, exp, 0.0) == k.n * k.beta
    ensures Weight(k, exp, a + b) == Weight(k, exp, a) * exp(y)
  {
    assert Exponent(k.beta, 0.0) == 0.0 && Exponent(k.beta, a) == x && Exponent(k.beta, b) == y;
    assert Exponent(k.beta, a + b) == x + y;
    Reassociate(k.n * k.beta, exp(x), exp(y));
  }

  lemma Reassociate(a: real, b: real, c: real)
    ensures a * (b * c) == a * b * c
  {
  }

  /** Excitation of event `i` by the earlier events `lo..hi`. */
  function Excite(ts: seq<real>, k: Kernel, exp: real -> real, i: nat, lo: nat, hi: nat): real
    requires lo <= hi <= i < |ts|
    decreases hi
  {
    if lo == hi then 0.0
    else Excite(ts, k, exp, i, lo, hi - 1)
         + if ts[i] > ts[hi - 1] then Weight(k, exp, ts[i] - ts[hi - 1]) else 0.0
  }

  function Excitation(ts: seq<real>, k: Kernel, exp: real -> real, i: nat): real
    requires i < |ts|
  {
    Excite(ts, k, exp, i, MaxI(0, i - LAG), i)
  }

  /** Share of event `i` attributed to the background rate; the rest is self-excitation. */
  function Background(ts: seq<real>, k: Kernel, exp: real -> real, i: nat): real
    requires i < |ts|
  {
    var lam := k.mu + Excitation(ts, k, exp, i);
    if lam > 0.0 then k.mu / lam else 0.0
  }

  function Excited(ts: seq<real>, k: Kernel, exp: real -> real, i: nat): real
    requires i < |ts|
  {
    var e := Excitation(ts, k, exp, i);
    if k.mu + e > 0.0 then e / (k.mu + e) else 0.0
  }

  function Exo(ts: seq<real>, k: Kernel, exp: real -> real, m: nat): real
    requires m <= |ts|
  {
    if m == 0 then 0.0 else Exo(ts, k, exp, m - 1) + Background(ts, k, exp, m - 1)
  }

  function Endo(ts: seq<real>, k: Kernel, exp: real -> real, m: nat): real
    requires m <= |ts|
  {
    if m == 0 then 0.0 else Endo(ts, k, exp, m - 1) + Excited(ts, k, exp, m - 1)
  }

  /** The E-step: split every event between background and excitation. */
  method EStep(ts: seq<real>, k: Kernel, exp: real -> real) returns (exo: real, endo: real)
    ensures exo == Exo(ts, k, exp, |ts|) && endo == Endo(ts, k, exp, |ts|)
  {
    exo, endo := 0.0, 0.0;
    for i := 0 to |ts|
      invariant exo == Exo(ts, k, exp, i) && endo == Endo(ts, k, exp, i)
    {
      var lo := MaxI(0, i - LAG);
      var excitation := 0.0;
      for j := lo to i
        invariant excitation == Excite(ts, k, exp, i, lo, j)
      {
        if ts[i] > ts[j] {
          excitation := excitation + Weight(k, exp, ts[i] - ts[j]);
        }
      }
      var lam := k.mu + excitation;
      if lam > 0.0 {
        exo := exo + k.mu / lam;
        endo := endo + excitation / lam;
      }
    }
  }

  lemma {:induction false} ExciteSign(ts: seq<real>, k: Kernel, exp: real -> real, i: nat, lo: nat, hi: nat)
    requires lo <= hi <= i < |ts| && Sensible(k) && Positive(exp)
    ensures 0.0 <= Excite(ts, k, exp, i, lo, hi)
    ensures 0.0 < k.n && lo < hi && ts[i] > ts[hi - 1] ==> 0.0 < Excite(ts, k, exp, i, lo, hi)
    decreases hi
  {
    if lo < hi {
      ExciteSign(ts, k, exp, i, lo, hi - 1);
      WeightSign(k, exp, ts[i] - ts[hi - 1]);
    }
  }

  /** An event is split into two shares that are never negative and add up to one; the first
      event is all background, and an event with positive excitation is not. */
  lemma Split(ts: seq<real>, k: Kernel, exp: real -> real, i: nat)
    requires i < |ts| && Sensible(k) && Positive(exp)
    ensures Background(ts, k, exp, i) + Excited(ts, k, exp, i) == 1.0
    ensures 0.0 <= Excited(ts, k, exp, i) <= 1.0
    ensures i == 0 ==> Excited(ts, k, exp, i) == 0.0
    ensures 0.0 < Excitation(ts, k, exp, i) ==> 0.0 < Excited(ts, k, exp, i)
  {
    ExciteSign(ts, k, exp, i, MaxI(0, i - LAG), i);
    var e := Excitation(ts, k, exp, i);
    var b, x := Background(ts, k, exp, i), Excited(ts, k, exp, i);
    SharesSum(k.mu, e, b, x);
  }

  lemma SharesSum(mu: real, e: real, b: real, x: real)
    requires 0.0 < mu && 0.0 <= e && b == mu / (mu + e) && x == e / (mu + e)
    ensures b + x == 1.0 && 0.0 <= x <= 1.0 && 0.0 <= b
    ensures e == 0.0 ==> x == 0.0
    ensures 0.0 < e ==> 0.0 < x
  {
    assert (b + x) * (mu + e) == mu + e;
    DivNonNeg(mu, mu + e);
    DivNonNeg(e, mu + e);
    assert x * (mu + e) == e;
  }

  /** Excitation looks back at thirty events: each of these that is earlier counts with its weight, and no
      event before them counts at all. */
  lemma LooksBackThirty(ts: seq<real>, us: seq<real>, k: Kernel, exp: real -> real, i: nat, j: nat)
    requires i < |ts| && i < |us| && Sensible(k) && Positive(exp)
    requires forall m :: 0 <= m <= i && i - 30 <= m ==> ts[m] == us[m]
    requires i - 30 <= j < i
    ensures Excitation(ts, k, exp, i) == Excitation(us, k, exp, i)
    ensures ts[j] < ts[i] ==> Weight(k, exp, ts[i] - ts[j]) <= Excitation(ts, k, exp, i)
  {
    ExciteSame(ts, us, k, exp, i, MaxI(0, i - LAG), i);
    if ts[j] < ts[i] { ExciteHas(ts, k, exp, i, MaxI(0, i - LAG), i, j); }
  }

  lemma {:induction false} ExciteSame(ts: seq<real>, us: seq<real>, k: Kernel, exp: real -> real, i: nat, lo: nat, hi: nat)
    requires lo <= hi <= i < |ts| && i < |us| && ts[i] == us[i] && forall m :: lo <= m < hi ==> ts[m] == us[m]
    ensures Excite(ts, k, exp, i, lo, hi) == Excite(us, k, exp, i, lo, hi)
    decreases hi
  {
    if lo < hi { ExciteSame(ts, us, k, exp, i, lo, hi - 1); }
  }

  lemma {:induction false} ExciteHas(ts: seq<real>, k: Kernel, exp: real -> real, i: nat, lo: nat, hi: nat, j: nat)
    requires lo <= j < hi <= i < |ts| && ts[j] < ts[i] && Sensible(k) && Positive(exp)
    ensures Weight(k, exp, ts[i] - ts[j]) <= Excite(ts, k, exp, i, lo, hi)
    decreases hi
  {
    if j == hi - 1 {
      ExciteSign(ts, k, exp, i, lo, hi - 1);
    } else {
      ExciteHas(ts, k, exp, i, lo, hi - 1, j);
      if ts[i] > ts[hi - 1] { WeightSign(k, exp, ts[i] - ts[hi - 1]); }
    }
  }

  /** The mass of an E-step is exactly the number of events, at least one of them background. */
  lemma {:induction false} MassConserved(ts: seq<real>, k: Kernel, exp: real -> real, m: nat)
    requires m <= |ts| && Sensible(k) && Positive(exp)
    ensures Exo(ts, k, exp, m) + Endo(ts, k, exp, m) == m as real
    ensures 0.0 <= Endo(ts, k, exp, m) && (0 < m ==> Endo(ts, k, exp, m) <= (m - 1) as real)
  {
    if m > 0 {
      MassConserved(ts, k, exp, m - 1);
      Split(ts, k, exp, m - 1);
    }
  }

  // ---------------------------------------------------------------- the EM iteration

  /** The M-step, with its two clamps. */
  function MStep(k: Kernel, exo: real, endo: real, window: real, count: nat): Kernel
    requires 0.0 < window && 0 < count
  {
    k.(mu := MaxR(exo / window, MU_FLOOR), n := MinR(endo / count as real, N_CAP))
  }

  function Start(ts: seq<real>, window: real, decay: real): Kernel
    requires 0.0 < window && 0.0 < decay
  {
    Kernel(|ts| as real / window * 0.5, 0.5, 1.0 / decay)
  }

  function Window(ts: seq<real>, now: real): real
    requires ts != []
  {
    MaxR(now - ts[0], 1.0)
  }

  /** The kernel after `rounds` EM rounds. */
  function Em(ts: seq<real>, now: real, decay: real, exp: real -> real, rounds: nat): Kernel
    requires ts != [] && 0.0 < decay
  {
    if rounds == 0 then Start(ts, Window(ts, now), decay)
    else
      var k := Em(ts, now, decay, exp, rounds - 1);
      MStep(k, Exo(ts, k, exp, |ts|), Endo(ts, k, exp, |ts|), Window(ts, now), |ts|)
  }

  function Ratio(ts: seq<real>, now: real, decay: real, minEvents: nat, exp: real -> real, rounds: nat): real
    requires 0.0 < decay && 0 < minEvents
  {
    if |ts| < minEvents then 0.0 else Em(ts, now, decay, exp, rounds).n
  }

  method BranchingRatio(ts: seq<real>, now: real, decay: real, minEvents: nat, exp: real -> real, rounds: nat)
    returns (n: real)
    requires 0.0 < decay && 0 < minEvents
    ensures n == Ratio(ts, now, decay, minEvents, exp, rounds)
  {
    if |ts| < minEvents { return 0.0; }
    var beta := 1.0 / decay;
    var window := MaxR(now - ts[0], 1.0);
    var mu := |ts| as real / window * 0.5;
    n := 0.5;
    for round := 0 to rounds
      invariant Kernel(mu, n, beta) == Em(ts, now, decay, exp, round)
    {
      var exo, endo := EStep(ts, Kernel(mu, n, beta), exp);
      mu := MaxR(exo / window, MU_FLOOR);
      n := MinR(endo / |ts| as real, N_CAP);
    }
  }

  const LONGEST_WINDOW := 1000000000.0

  /** What a fitted kernel satisfies: positive rate, ratio in [0, 0.98] and at most (N-1)/N, and a
      mass mu*window + n*N that never exceeds N. The mass is exactly N unless the ratio was capped,
      which takes more than 50 events, or the rate is at its floor. (The floor on mu can only show in
      windows over 10^9 s.) */
  predicate Fitted(k: Kernel, window: real, count: nat) {
    && Sensible(k) && k.n <= N_CAP && k.n * count as real <= (count - 1) as real
    && (MU_FLOOR < k.mu && k.n < N_CAP ==> k.mu * window + k.n * count as real == count as real)
    && (window <= LONGEST_WINDOW ==>
          && 1.0 <= k.mu * window
          && k.mu * window + k.n * count as real <= count as real
          && (k.n < N_CAP || count <= 50 ==> k.mu * window + k.n * count as real == count as real))
  }

  lemma MuLaw(exo: real, window: real)
    requires 0.0 < window && 1.0 <= exo
    ensures 0.0 < MaxR(exo / window, MU_FLOOR)
    ensures window <= LONGEST_WINDOW || MU_FLOOR < MaxR(exo / window, MU_FLOOR) ==> MaxR(exo / window, MU_FLOOR) * window == exo
  {
    var m := exo / window;
    assert m * window == exo;
    if m < MU_FLOOR { MulPos(MU_FLOOR - m, window); }
  }

  lemma NLaw(endo: real, count: nat)
    requires 0 < count && 0.0 <= endo <= (count - 1) as real
    ensures var n := MinR(endo / count as real, N_CAP);
      && 0.0 <= n <= N_CAP && n * count as real <= endo
      && (n < N_CAP || count <= 50 ==> n * count as real == endo)
      && (0.0 < endo ==> 0.0 < n)
  {
    var c := count as real;
    var e := endo / c;
    assert e * c == endo;
    DivNonNeg(endo, c);
    if 0.0 < endo { DivPos(endo, c); }
    CapLaw(e, c, endo);
  }

  /** Capping a quotient at 0.98 lowers the product by nothing as long as the divisor is at most 50. */
  lemma CapLaw(e: real, c: real, endo: real)
    requires 0.0 < c && e * c == endo && endo <= c - 1.0
    ensures MinR(e, N_CAP) * c <= endo && (e <= N_CAP || c <= 50.0 ==> MinR(e, N_CAP) * c == endo)
  {
    if N_CAP < e {
      MulPos(e - N_CAP, c);
      assert (e - N_CAP) * c == e * c - N_CAP * c;
    }
  }

  lemma MStepLaw(k: Kernel, exo: real, endo: real, window: real, count: nat)
    requires Sensible(k) && 0.0 < window && 0 < count
    requires exo + endo == count as real && 0.0 <= endo <= (count - 1) as real
    ensures Fitted(MStep(k, exo, endo, window, count), window, count)
    ensures 0.0 < endo ==> 0.0 < MStep(k, exo, endo, window, count).n
  {
    MuLaw(exo, window);
    NLaw(endo, count);
  }

  lemma StartSensible(ts: seq<real>, window: real, decay: real)
    requires ts != [] && 0.0 < window && 0.0 < decay
    ensures Sensible(Start(ts, window, decay))
  {
    DivPos(|ts| as real, window);
    DivPos(1.0, decay);
  }

  lemma DivPos(a: real, b: real)
    requires 0.0 < a && 0.0 < b
    ensures 0.0 < a / b
  {
  }

  /** Every EM round, on any events, leaves a fitted kernel. */
  lemma {:induction false} EmFitted(ts: seq<real>, now: real, decay: real, exp: real -> real, rounds: nat)
    requires ts != [] && 0.0 < decay && Positive(exp)
    ensures Sensible(Em(ts, now, decay, exp, rounds))
    ensures 0 < rounds ==> Fitted(Em(ts, now, decay, exp, rounds), Window(ts, now), |ts|)
  {
    if rounds == 0 {
      StartSensible(ts, Window(ts, now), decay);
    } else {
      EmFitted(ts, now, decay, exp, rounds - 1);
      var k := Em(ts, now, decay, exp, rounds - 1);
      MassConserved(ts, k, exp, |ts|);
      MStepLaw(k, Exo(ts, k, exp, |ts|), Endo(ts, k, exp, |ts|), Window(ts, now), |ts|);
    }
  }

  /** The branching ratio is always in [0, 0.98], and below (N-1)/N. */
  lemma RatioBounds(ts: seq<real>, now: real, decay: real, minEvents: nat, exp: real -> real, rounds: nat)
    requires 0.0 < decay && 0 < minEvents && Positive(exp) && 0 < rounds
    ensures var n := Ratio(ts, now, decay, minEvents, exp, rounds);
      0.0 <= n <= N_CAP && (ts != [] ==> n * |ts| as real <= (|ts| - 1) as real)
  {
    if |ts| >= minEvents { EmFitted(ts, now, decay, exp, rounds); }
  }

  /** One round on two events, in closed form: half of them are taken for background at first, spread over
      the time since the first event or one second; the second event is split by its excitation. */
  lemma TwoEvents(a: real, b: real, now: real, decay: real, exp: real -> real,
                  w: real, rate: real, beta: real, x: real, e: real)
    requires a < b && 0.0 < decay && Positive(exp)
    requires w == MaxR(now - a, 1.0) && rate == 1.0 / w && beta == 1.0 / decay && x == -beta * (b - a) && e == 0.5 * beta * exp(x)
    ensures Em([a, b], now, decay, exp, 1) ==
              Kernel(MaxR((1.0 + rate / (rate + e)) / w, 0.000000001), MinR(e / (rate + e) / 2.0, 0.98), beta)
  {
    var ts := [a, b];
    var k := Start(ts, Window(ts, now), decay);
    assert Em(ts, now, decay, exp, 0) == k;
    HalfOfTwo(w, rate);
    assert k == Kernel(rate, 0.5, beta);
    DivPos(1.0, w);
    DivPos(1.0, decay);
    assert Sensible(k);
    assert Exponent(beta, b - a) == x;
    SplitOfTwo(a, b, k, exp, e);
  }

  lemma HalfOfTwo(w: real, rate: real)
    requires 0.0 < w && rate == 1.0 / w
    ensures 2.0 / w * 0.5 == rate
  {
  }

  lemma SplitOfTwo(a: real, b: real, k: Kernel, exp: real -> real, e: real)
    requires a < b && Sensible(k) && Positive(exp) && e == Weight(k, exp, b - a)
    ensures Exo([a, b], k, exp, 2) == 1.0 + k.mu / (k.mu + e) && Endo([a, b], k, exp, 2) == e / (k.mu + e)
  {
    var ts := [a, b];
    assert Excite(ts, k, exp, 1, 0, 1) == Excite(ts, k, exp, 1, 0, 0) + e;
    assert Excitation(ts, k, exp, 0) == 0.0 && Excitation(ts, k, exp, 1) == e;
    WeightSign(k, exp, b - a);
    Split(ts, k, exp, 0);
    var one := Exo(ts, k, exp, 1);
    assert one == Exo(ts, k, exp, 0) + Background(ts, k, exp, 0);
    var two := Endo(ts, k, exp, 1);
    assert two == Endo(ts, k, exp, 0) + Excited(ts, k, exp, 0);
  }

  // ---------------------------------------------------------------- what the ratio reacts to

  predicate Sorted(ts: seq<real>) { forall i, j :: 0 <= i < j < |ts| ==> ts[i] <= ts[j] }

  lemma {:induction false} NoExcitation(ts: seq<real>, k: Kernel, exp: real -> real, i: nat, lo: nat, hi: nat)
    requires lo <= hi <= i < |ts| && forall j :: 0 <= j < |ts| ==> ts[j] == ts[0]
    ensures Excite(ts, k, exp, i, lo, hi) == 0.0
    decreases hi
  {
    if lo < hi {
      assert ts[i] == ts[0] && ts[hi - 1] == ts[0];
      NoExcitation(ts, k, exp, i, lo, hi - 1);
    }
  }

  lemma {:induction false} EndoZero(ts: seq<real>, k: Kernel, exp: real -> real, m: nat)
    requires m <= |ts| && forall j :: 0 <= j < |ts| ==> ts[j] == ts[0]
    ensures Endo(ts, k, exp, m) == 0.0
  {
    if m > 0 {
      EndoZero(ts, k, exp, m - 1);
      NoExcitation(ts, k, exp, m - 1, MaxI(0, m - 1 - LAG), m - 1);
    }
  }

  lemma {:induction false} EndoPositive(ts: seq<real>, k: Kernel, exp: real -> real, i: nat, m: nat)
    requires 0 < i < m <= |ts| && ts[i - 1] < ts[i] && Sensible(k) && 0.0 < k.n && Positive(exp)
    ensures 0.0 < Endo(ts, k, exp, m)
  {
    MassConserved(ts, k, exp, m - 1);
    Split(ts, k, exp, m - 1);
    if i == m - 1 {
      ExciteSign(ts, k, exp, i, MaxI(0, i - LAG), i);
    } else {
      EndoPositive(ts, k, exp, i, m - 1);
    }
  }

  /** On sorted events, the fitted ratio is positive if and only if they are not all simultaneous:
      a burst in one instant is read as background, anything spread out as self-excitation. */
  lemma {:induction false} RatioPositiveIffSpread(ts: seq<real>, now: real, decay: real, exp: real -> real, rounds: nat)
    requires ts != [] && Sorted(ts) && 0.0 < decay && Positive(exp)
    requires 0 < rounds
    ensures 0.0 < Em(ts, now, decay, exp, rounds).n <==> ts[0] < ts[|ts| - 1]
  {
    var k := Em(ts, now, decay, exp, rounds - 1);
    EmFitted(ts, now, decay, exp, rounds - 1);
    if ts[0] < ts[|ts| - 1] {
      if rounds > 1 { RatioPositiveIffSpread(ts, now, decay, exp, rounds - 1); }
      var i := FirstRise(ts);
      EndoPositive(ts, k, exp, i, |ts|);
      MassConserved(ts, k, exp, |ts|);
      MStepLaw(k, Exo(ts, k, exp, |ts|), Endo(ts, k, exp, |ts|), Window(ts, now), |ts|);
    } else {
      EndoZero(ts, k, exp, |ts|);
    }
  }

  lemma FirstRise(ts: seq<real>) returns (i: nat)
    requires ts != [] && ts[0] < ts[|ts| - 1]
    ensures 0 < i < |ts| && ts[i - 1] < ts[i]
  {
    i := 1;
    while ts[i - 1] >= ts[i]
      invariant 0 < i < |ts| && ts[i - 1] <= ts[0]
      decreases |ts| - i
    {
      i := i + 1;
    }
  }

  // ---------------------------------------------------------------- the detector

  datatype Settings = Settings(sampleInterval: real, volWindow: nat, eventPct: real, window: real,
                               decay: real, minEvents: nat, rounds: nat)

  const MAX_EVENTS: nat := 500
  const MAX_MARKS: nat := 10
  const MARK_GAP := 0.05
  const LONGEST_BURST := 0.45
  const INTENSITY_CAP := 0.95

  /** The settings under which nothing divides by zero; the number of EM rounds is fixed. */
  predicate SettingsOk(s: Settings) {
    s.rounds == ROUNDS && 0.0 < s.eventPct && 0.0 <= s.window && 0.0 < s.decay && 0 < s.minEvents
  }

  /** A sample never comes before the marks of the one before it. */
  predicate Spaced(s: Settings) { LONGEST_BURST <= s.sampleInterval }

  /** A fall of k thresholds counts as k events, at most ten, a twentieth of a second apart. */
  function Marks(fall: real, threshold: real): nat
    requires 0.0 < threshold <= fall
  {
    DivNonNeg(fall, threshold);
    var k := (fall / threshold).Floor;
    if k < MAX_MARKS then k else MAX_MARKS
  }

  /** `marks` is the number of events a fall from `last` to `price` counts as, at threshold `t`: as many as
      the thresholds that it spans, at most ten. */
  predicate FallCounts(last: real, price: real, t: real, marks: nat) {
    marks <= 10 && forall k :: 1 <= k <= 10 ==> (marks >= k <==> price <= Fallen(last, k, t))
  }

  /** `last` less `k` thresholds of itself. */
  function Fallen(last: real, k: int, t: real): real { last * (1.0 - k as real * t) }

  /** The events that a move from `last` to `price` emits. */
  function MarksOf(last: real, price: real, t: real): nat
    requires 0.0 < last && 0.0 < t
  {
    var move := price / last - 1.0;
    if move <= -t then Marks(-move, t) else 0
  }

  lemma Compare(a: real, b: real, c: real)
    requires 0.0 < c
    ensures a <= b <==> a * c <= b * c
  {
    assert (b - a) * c == b * c - a * c;
    if a <= b { MulNonNeg(b - a, c); } else { MulPos(a - b, c); }
  }

  /** A quotient reaches a number exactly when the dividend reaches the product. */
  lemma QuotientReaches(a: real, b: real, c: real)
    requires 0.0 < b
    ensures a / b >= c <==> a >= c * b
  {
    Compare(c, a / b, b);
    assert a / b * b == a;
  }

  /** A floor reaches an integer exactly when the number does. */
  lemma FloorReaches(q: real, k: int)
    ensures q.Floor >= k <==> q >= k as real
  {
  }

  lemma FallReaches(last: real, price: real, t: real, k: int)
    requires 0.0 < last && 0.0 < t && 1 <= k
    ensures 1.0 - price / last >= k as real * t <==> price <= Fallen(last, k, t)
    ensures 1.0 - price / last >= k as real * t ==> 1.0 - price / last >= t
  {
    MulMono(1.0, k as real, t);
    FallIs(last, price, k as real * t);
  }

  lemma FallIs(last: real, price: real, drop: real)
    requires 0.0 < last
    ensures 1.0 - price / last >= drop <==> price <= last * (1.0 - drop)
  {
    QuotientAtMost(price, last, 1.0 - drop);
  }

  lemma QuotientAtMost(a: real, b: real, c: real)
    requires 0.0 < b
    ensures a / b <= c <==> a <= b * c
  {
    Compare(a / b, c, b);
    assert a / b * b == a;
  }

  lemma MarksAre(last: real, price: real, t: real)
    requires 0.0 < last && 0.0 < t
    ensures FallCounts(last, price, t, MarksOf(last, price, t))
  {
    var marks, fall := MarksOf(last, price, t), 1.0 - price / last;
    forall k | 1 <= k <= 10 ensures marks >= k <==> price <= Fallen(last, k, t) {
      FallReaches(last, price, t, k);
      if fall >= t {
        FloorReaches(fall / t, k);
        QuotientReaches(fall, t, k as real);
      }
    }
  }

  function Burst(now: real, k: nat): (b: seq<real>)
    ensures |b| == k && (k > 0 ==> b[0] == now) && forall i :: 0 <= i < k ==> b[i] == now + 0.05 * i as real
    ensures forall i :: 0 <= i < k ==> now <= b[i] && (k <= MAX_MARKS ==> b[i] <= now + LONGEST_BURST)
    ensures forall i, j :: 0 <= i < j < k ==> b[i] < b[j]
  {
    seq(k, i => now + MARK_GAP * i as real)
  }

  /** Drop events from the front while they are older than the cutoff. */
  function Prune(ts: seq<real>, cutoff: real): seq<real> {
    if ts != [] && ts[0] < cutoff then Prune(ts[1..], cutoff) else ts
  }

  function CountSince(ts: seq<real>, since: real): nat {
    if ts == [] then 0 else CountSince(Front(ts), since) + (if Last(ts) > since then 1 else 0)
  }

  /** Recent events as a share of twice the minimum, capped. */
  function Intensity(s: Settings, recent: nat): real
    requires SettingsOk(s)
  {
    MinR(recent as real / (2.0 * s.minEvents as real), INTENSITY_CAP)
  }

  /** The composite cascade score: the fitted ratio, or the share of recent events if higher. */
  function Score(s: Settings, ts: seq<real>, now: real, exp: real -> real): real
    requires SettingsOk(s)
  {
    MaxR(Ratio(ts, now, s.decay, s.minEvents, exp, s.rounds),
         Intensity(s, CountSince(ts, now - 2.0 * s.decay)))
  }

  lemma IntensityMono(s: Settings, a: nat, b: nat)
    requires SettingsOk(s) && a <= b
    ensures 0.0 <= Intensity(s, a) <= Intensity(s, b) <= INTENSITY_CAP
  {
    var c := 2.0 * s.minEvents as real;
    DivNonNeg(a as real, c);
    QuotientMono(a as real, b as real, c);
  }

  lemma QuotientMono(a: real, b: real, c: real)
    requires a <= b && 0.0 < c
    ensures a / c <= b / c
  {
    DivNonNeg(b - a, c);
    assert (b - a) / c == b / c - a / c;
  }

  lemma ScoreBounds(s: Settings, ts: seq<real>, now: real, exp: real -> real)
    requires SettingsOk(s) && Positive(exp)
    ensures 0.0 <= Score(s, ts, now, exp) <= N_CAP
  {
    RatioBounds(ts, now, s.decay, s.minEvents, exp, s.rounds);
    IntensityMono(s, CountSince(ts, now - 2.0 * s.decay), CountSince(ts, now - 2.0 * s.decay));
  }

  /** The positions of the events after `since`. */
  function After(ts: seq<real>, since: real): set<nat> { set i: nat | i < |ts| && ts[i] > since }

  lemma {:induction false} CountSinceIs(ts: seq<real>, since: real)
    ensures CountSince(ts, since) == |After(ts, since)|
  {
    if ts != [] {
      CountSinceIs(Front(ts), since);
      assert forall i: nat :: i < |Front(ts)| ==> Front(ts)[i] == ts[i];
      assert After(ts, since) == After(Front(ts), since) + (if Last(ts) > since then {|ts| - 1} else {});
    }
  }

  /** The score reaches a level exactly when the fitted ratio does, which takes the minimum number of
      events, or when the level is at most 0.95 and the events of the last two decay times are that share
      of twice the minimum. */
  lemma ScoreIff(s: Settings, ts: seq<real>, now: real, exp: real -> real, level: real)
    requires SettingsOk(s) && 0.0 < level
    ensures var recent := |After(ts, now - 2.0 * s.decay)|;
      Score(s, ts, now, exp) >= level <==>
        || (|ts| >= s.minEvents && Em(ts, now, s.decay, exp, 15).n >= level)
        || (level <= 0.95 && recent as real >= level * (2.0 * s.minEvents as real))
  {
    var since := now - 2.0 * s.decay;
    CountSinceIs(ts, since);
    OneSamplePanicsIff(s, CountSince(ts, since), level);
  }

  /** A fall that counts as twice the minimum number of events or more reaches any level up to 0.95 at
      once. */
  lemma FallReachesLevel(s: Settings, ts: seq<real>, last: real, price: real, t: real, marks: nat, now: real,
                         exp: real -> real, level: real)
    requires SettingsOk(s) && Positive(exp) && |ts| <= MAX_EVENTS && FallCounts(last, price, t, marks)
    requires 2 * s.minEvents <= 10 && price <= Fallen(last, 2 * s.minEvents, t) && level <= 0.95
    ensures Score(s, Kept(ts, Burst(now, marks), now, s.window), now, exp) >= level
  {
    assert marks >= 2 * s.minEvents;
    SampleLaw(s, ts, marks, now, exp);
    EnoughMarks(s, marks, level);
  }

  lemma EnoughMarks(s: Settings, marks: nat, level: real)
    requires SettingsOk(s) && marks >= 2 * s.minEvents && level <= 0.95
    ensures Intensity(s, marks) >= level
  {
    QuotientReaches(marks as real, 2.0 * s.minEvents as real, 1.0);
  }

  lemma {:induction false} CountSinceAppend(a: seq<real>, b: seq<real>, since: real)
    requires forall i :: 0 <= i < |b| ==> b[i] > since
    ensures CountSince(a + b, since) == CountSince(a, since) + |b|
  {
    if b == [] {
      assert a + b == a;
    } else {
      assert Front(a + b) == a + Front(b) && Last(a + b) == Last(b);
      CountSinceAppend(a, Front(b), since);
    }
  }

  /** Pruning sorted events removes exactly those before the cutoff. */
  lemma {:induction false} PruneSorted(ts: seq<real>, cutoff: real) returns (d: nat)
    requires Sorted(ts)
    ensures d <= |ts| && Prune(ts, cutoff) == ts[d..]
    ensures forall i :: 0 <= i < |ts| ==> (i < d <==> ts[i] < cutoff)
  {
    if ts != [] && ts[0] < cutoff {
      var e := PruneSorted(ts[1..], cutoff);
      d := e + 1;
      assert ts[1..][e..] == ts[d..];
      forall i | 0 <= i < |ts| ensures i < d <==> ts[i] < cutoff {
        if i > 0 { assert ts[1..][i - 1] == ts[i]; }
      }
    } else {
      d := 0;
    }
  }

  /** Pruning drops a prefix, and stops at the first event that is not before the cutoff. */
  lemma {:induction false} PruneDropsPrefix(ts: seq<real>, cutoff: real) returns (d: nat)
    ensures d <= |ts| && Prune(ts, cutoff) == ts[d..]
    ensures forall i :: 0 <= i < d ==> ts[i] < cutoff
    ensures d < |ts| ==> cutoff <= ts[d]
  {
    if ts != [] && ts[0] < cutoff {
      var e := PruneDropsPrefix(ts[1..], cutoff);
      d := e + 1;
      assert ts[1..][e..] == ts[d..];
      forall i | 0 <= i < d ensures ts[i] < cutoff {
        if i > 0 { assert ts[1..][i - 1] == ts[i]; }
      }
    } else {
      d := 0;
    }
  }

  /** Events are sorted, at most 500, none newer than the burst of the sample at `last` and none
      older than the window. */
  predicate EventsOk(ts: seq<real>, last: real, window: real) {
    && |ts| <= MAX_EVENTS && Sorted(ts)
    && forall i :: 0 <= i < |ts| ==> last - window <= ts[i] <= last + LONGEST_BURST
  }

  /** The events kept after a sample that adds `added`. */
  function Kept(ts: seq<real>, added: seq<real>, now: real, window: real): seq<real> {
    Prune(Newest(ts + added, MAX_EVENTS), now - window)
  }

  lemma NewestShape(ts: seq<real>, marks: nat, now: real) returns (c: nat)
    requires |ts| <= MAX_EVENTS && marks <= MAX_MARKS
    ensures c <= |ts| && Newest(ts + Burst(now, marks), MAX_EVENTS) == ts[c..] + Burst(now, marks)
  {
    var all := ts + Burst(now, marks);
    c := if |all| <= MAX_EVENTS then 0 else |all| - MAX_EVENTS;
    assert all[c..] == ts[c..] + Burst(now, marks);
  }

  /** Old events up to `now` followed by the burst of `now`. */
  lemma BurstInOrder(ts: seq<real>, marks: nat, now: real)
    requires Sorted(ts) && marks <= MAX_MARKS && forall i :: 0 <= i < |ts| ==> ts[i] <= now
    ensures var s := ts + Burst(now, marks);
      Sorted(s) && forall i :: 0 <= i < |s| ==> s[i] <= now + LONGEST_BURST
  {
  }

  /** A burst keeps the events in order exactly when it does not start before the newest of them. */
  lemma BurstInOrderIff(ts: seq<real>, marks: nat, now: real)
    requires Sorted(ts) && 0 < marks <= MAX_MARKS
    ensures Sorted(ts + Burst(now, marks)) <==> ts == [] || Last(ts) <= now
  {
    var s := ts + Burst(now, marks);
    assert s[|ts|] == now;
    if ts != [] {
      assert s[|ts| - 1] == Last(ts);
      if Last(ts) <= now { BurstInOrder(ts, marks, now); }
    }
  }

  /** Whatever the order of the events, a sample drops some from the front only and never loses what
      it adds. */
  lemma KeptShape(ts: seq<real>, marks: nat, now: real, window: real) returns (d: nat)
    requires |ts| <= MAX_EVENTS && 0.0 <= window && marks <= MAX_MARKS
    ensures d <= |ts| && Kept(ts, Burst(now, marks), now, window) == ts[d..] + Burst(now, marks)
    ensures |Kept(ts, Burst(now, marks), now, window)| <= MAX_EVENTS
  {
    var c := NewestShape(ts, marks, now);
    var past := ts[c..];
    var all := past + Burst(now, marks);
    var e := PruneDropsPrefix(all, now - window);
    if marks > 0 { assert all[|past|] == now; }
    assert e <= |past|;
    d := c + e;
    assert all[e..] == past[e..] + Burst(now, marks) && past[e..] == ts[d..];
  }

  /** While there is room for five hundred events, none that is young enough is dropped; beyond that the
      oldest make way, as many as the sample adds. */
  lemma KeepsTheYoung(ts: seq<real>, marks: nat, now: real, window: real)
    requires |ts| <= 500 && marks <= 10 && (ts != [] ==> now - window <= ts[0]) && 0.0 <= window
    ensures |ts| + marks <= 500 ==> Kept(ts, Burst(now, marks), now, window) == ts + Burst(now, marks)
    ensures Sorted(ts) && |ts| + marks > 500 ==> Kept(ts, Burst(now, marks), now, window) == ts[|ts| + marks - 500..] + Burst(now, marks)
  {
    var all := ts + Burst(now, marks);
    if |all| > 500 { assert all[|all| - 500..] == ts[|ts| + marks - 500..] + Burst(now, marks); }
  }

  /** When samples are far enough apart, the events kept are in order and inside the window. */
  lemma KeptOk(ts: seq<real>, marks: nat, last: real, now: real, window: real)
    requires EventsOk(ts, last, window) && last + LONGEST_BURST <= now && 0.0 <= window && marks <= MAX_MARKS
    ensures EventsOk(Kept(ts, Burst(now, marks), now, window), now, window)
  {
    var c := NewestShape(ts, marks, now);
    var all := ts[c..] + Burst(now, marks);
    BurstInOrder(ts[c..], marks, now);
    var d := PruneSorted(all, now - window);
    var kept := Kept(ts, Burst(now, marks), now, window);
    assert kept == all[d..];
    forall i | 0 <= i < |kept| ensures now - window <= kept[i] <= now + LONGEST_BURST {
      assert kept[i] == all[d + i];
    }
  }

  /** A single fall of enough thresholds lifts the score at once. */
  lemma BurstLiftsScore(s: Settings, ts: seq<real>, marks: nat, now: real, exp: real -> real)
    requires SettingsOk(s)
    ensures Score(s, ts + Burst(now, marks), now, exp) >= Intensity(s, marks)
  {
    var since := now - 2.0 * s.decay;
    CountSinceAppend(ts, Burst(now, marks), since);
    IntensityMono(s, marks, CountSince(ts + Burst(now, marks), since));
  }

  /** When one sample panics by itself: exactly when the panic level is at most the cap and the fall
      is worth at least that share of twice the minimum event count. */
  lemma OneSamplePanicsIff(s: Settings, marks: nat, panic: real)
    requires SettingsOk(s)
    ensures Intensity(s, marks) >= panic
      <==> panic <= INTENSITY_CAP && marks as real >= panic * (2.0 * s.minEvents as real)
  {
    var c := 2.0 * s.minEvents as real;
    var q := marks as real / c;
    assert q * c == marks as real;
    if q < panic { MulPos(panic - q, c); } else { MulMono(panic, q, c); }
    assert (panic - q) * c == panic * c - q * c;
  }

  /** What a sample does to the score, whatever the events before it. */
  lemma SampleLaw(s: Settings, ts: seq<real>, marks: nat, now: real, exp: real -> real)
    requires SettingsOk(s) && Positive(exp) && |ts| <= MAX_EVENTS && marks <= MAX_MARKS
    ensures var kept := Kept(ts, Burst(now, marks), now, s.window);
      |kept| <= MAX_EVENTS && Intensity(s, marks) <= Score(s, kept, now, exp) <= N_CAP && 0.0 <= Score(s, kept, now, exp)
  {
    var d := KeptShape(ts, marks, now, s.window);
    BurstLiftsScore(s, ts[d..], marks, now, exp);
    ScoreBounds(s, Kept(ts, Burst(now, marks), now, s.window), now, exp);
  }

  lemma NothingKept(now: real, window: real)
    ensures Kept([], Burst(now, 0), now, window) == [] && EventsOk([], now, window)
  {
    assert [] + Burst(now, 0) == [];
  }

  class Detector {
    const settings: Settings
    var samples: seq<(real, real)>
    var events: seq<real>
    var branchingRatio: real

    ghost predicate Valid()
      reads this
    {
      && SettingsOk(settings)
      && (forall i :: 0 <= i < |samples| ==> 0.0 < samples[i].1)
      && |samples| <= settings.volWindow && |events| <= MAX_EVENTS && (samples == [] ==> events == [])
      && (Spaced(settings) && samples != [] ==> EventsOk(events, Last(samples).0, settings.window))
      && 0.0 <= branchingRatio <= N_CAP
    }

    constructor (settings: Settings)
      requires SettingsOk(settings)
      ensures Valid() && samples == [] && events == [] && this.settings == settings
    {
      this.settings := settings;
      samples, events, branchingRatio := [], [], 0.0;
    }

    /** The fall that counts as one event. */
    function Threshold(sigmaRobust: real): real { MaxR(settings.eventPct / 100.0, 3.0 * sigmaRobust) }

    method AppendEvents(now: real, marks: nat)
      requires |events| <= MAX_EVENTS
      modifies this`events
      ensures events == Newest(old(events) + Burst(now, marks), MAX_EVENTS)
    {
      ghost var before := events;
      assert before + Burst(now, 0) == before;
      for k := 0 to marks
        invariant events == Newest(before + Burst(now, k), MAX_EVENTS)
      {
        ghost var all := before + Burst(now, k);
        assert before + Burst(now, k + 1) == all + [now + MARK_GAP * k as real];
        events := Newest(events + [now + MARK_GAP * k as real], MAX_EVENTS);
        assert events == Newest(all + [now + MARK_GAP * k as real], MAX_EVENTS);
      }
    }

    method ForgetOldEvents(cutoff: real)
      modifies this`events
      ensures events == Prune(old(events), cutoff)
    {
      while events != [] && events[0] < cutoff
        invariant Prune(events, cutoff) == Prune(old(events), cutoff)
        decreases |events|
      {
        events := events[1..];
      }
    }

    /** Take a price sample if one is due: record it, emit marked events for a large fall, forget
        events outside the window and recompute the score. `sigmaRobust` is the robust sigma of the
        samples so far, and `marks` the number of events emitted. With samples spaced widely enough the
        events stay in order. */
    method Sample(now: real, price: real, sigmaRobust: real, exp: real -> real) returns (ghost marks: nat)
      requires Valid() && 0.0 < price && 0.0 <= sigmaRobust && Positive(exp)
      modifies this
      ensures Valid()
      ensures if old(samples == [] || now - Last(samples).0 >= settings.sampleInterval) then
          && samples == Newest(old(samples) + [(now, price)], settings.volWindow)
          && branchingRatio == Score(settings, events, now, exp) && branchingRatio >= Intensity(settings, marks)
          && events == Kept(old(events), Burst(now, marks), now, settings.window)
          && (if old(samples) == [] then marks == 0
              else FallCounts(old(Last(samples).1), price, MaxR(settings.eventPct / 100.0, 3.0 * sigmaRobust), marks))
        else samples == old(samples) && events == old(events) && branchingRatio == old(branchingRatio)
      ensures Spaced(settings) && samples != [] ==> EventsOk(events, Last(samples).0, settings.window)
    {
      marks := 0;
      if samples == [] || now - Last(samples).0 >= settings.sampleInterval {
        var added := 0;
        if samples != [] {
          MarksAre(Last(samples).1, price, Threshold(sigmaRobust));
          added := MarksOf(Last(samples).1, price, Threshold(sigmaRobust));
        }
        marks := added;
        Record(now, price, added, exp);
      }
    }

    /** Take a sample that adds `marks` events. */
    method Record(now: real, price: real, marks: nat, exp: real -> real)
      requires Valid() && (samples == [] || now - Last(samples).0 >= settings.sampleInterval) && 0.0 < price && Positive(exp) && marks <= MAX_MARKS && (samples == [] ==> marks == 0)
      modifies this
      ensures Valid()
      ensures samples == Newest(old(samples) + [(now, price)], settings.volWindow)
      ensures events == Kept(old(events), Burst(now, marks), now, settings.window)
      ensures branchingRatio == Score(settings, events, now, exp) && branchingRatio >= Intensity(settings, marks)
    {
      if Spaced(settings) && samples != [] { KeptOk(events, marks, Last(samples).0, now, settings.window); }
      if samples == [] { NothingKept(now, settings.window); }
      samples := Newest(samples + [(now, price)], settings.volWindow);
      Mark(now, marks, exp);
    }

    /** Append the marks of the sample just taken, forget old events, rescore. */
    method Mark(now: real, marks: nat, exp: real -> real)
      requires SettingsOk(settings) && Positive(exp) && |events| <= MAX_EVENTS && marks <= MAX_MARKS
      modifies this`events, this`branchingRatio
      ensures events == Kept(old(events), Burst(now, marks), now, settings.window) && |events| <= MAX_EVENTS
      ensures branchingRatio == Score(settings, events, now, exp)
      ensures Intensity(settings, marks) <= branchingRatio && 0.0 <= branchingRatio <= N_CAP
    {
      SampleLaw(settings, events, marks, now, exp);
      AppendEvents(now, marks);
      ForgetOldEvents(now - settings.window);
      Rescore(now, exp);
    }

    method Rescore(now: real, exp: real -> real)
      requires SettingsOk(settings)
      modifies this`branchingRatio
      ensures branchingRatio == Score(settings, events, now, exp)
    {
      var n := BranchingRatio(events, now, settings.decay, settings.minEvents, exp, settings.rounds);
      var recent := CountSince(events, now - 2.0 * settings.decay);
      branchingRatio := MaxR(n, Intensity(settings, recent));
    }
  }
}
