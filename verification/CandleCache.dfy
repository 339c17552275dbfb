/** The historical candle cache: range planning, merging, truncation, and what a request gets back. */
module CandleCache {
  import opened Prelude

  /** A row holds the candle of one timestamp. */
  datatype Row = Row(ts: int, values: seq<real>)

  /** The exchange: a candle for every multiple of the interval, which never changes. Of these it
      has the ones with index at least `first` and, at the time of a request, below some bound. */
  datatype Source = Source(interval: int, candle: int -> seq<real>, first: int)

  predicate SourceOk(src: Source) { src.interval > 0 }

  // ---------------------------------------------------------------- grid arithmetic

  /** First grid index at or after time `t`. */
  function From(t: int, interval: int): int
    requires interval > 0
  {
    (t + interval - 1) / interval
  }

  /** First grid index after time `t`. */
  function Past(t: int, interval: int): int
    requires interval > 0
  {
    t / interval + 1
  }

  lemma DivBelow(t: int, interval: int, k: int)
    requires interval > 0
    ensures t / interval < k <==> t < k * interval
  {
    var q, r := t / interval, t % interval;
    assert t == q * interval + r && 0 <= r < interval;
    if q < k { assert (q + 1) * interval <= k * interval by { IntMono(q + 1, k, interval); } }
    else { IntMono(k, q, interval); }
  }

  lemma IntMono(a: int, b: int, c: int)
    requires a <= b && 0 <= c
    ensures a * c <= b * c
  {
    assert (b - a) * c >= 0;
    assert (b - a) * c == b * c - a * c;
  }

  lemma FromSpec(t: int, interval: int, k: int)
    requires interval > 0
    ensures From(t, interval) <= k <==> t <= k * interval
  {
    DivBelow(t + interval - 1, interval, k + 1);
    assert (k + 1) * interval == k * interval + interval;
  }

  lemma PastSpec(t: int, interval: int, k: int)
    requires interval > 0
    ensures k < Past(t, interval) <==> k * interval <= t
  {
    DivBelow(t, interval, k);
  }

  // ---------------------------------------------------------------- windows of the source

  function RowAt(src: Source, k: int): Row { Row(k * src.interval, src.candle(k * src.interval)) }

  /** The candles with index in [i, j), oldest first. */
  function Rows(src: Source, i: int, j: int): (rows: seq<Row>)
    ensures |rows| == (if i < j then j - i else 0)
    ensures forall k :: 0 <= k < |rows| ==> rows[k] == RowAt(src, i + k)
  {
    if i < j then seq(j - i, k requires 0 <= k < j - i => RowAt(src, i + k)) else []
  }

  /** What the exchange returns for the closed time range [lo, hi] when it has candles below `avail`. */
  function Fetch(src: Source, lo: int, hi: int, avail: int): seq<Row>
    requires SourceOk(src)
  {
    Rows(src, MaxI(From(lo, src.interval), src.first), MinI(Past(hi, src.interval), avail))
  }

  function Select(rows: seq<Row>, lo: int, hi: int): seq<Row> {
    if rows == [] then []
    else Select(Front(rows), lo, hi) + (if lo <= Last(rows).ts <= hi then [Last(rows)] else [])
  }

  lemma {:induction false} SelectWindow(src: Source, i: int, j: int, lo: int, hi: int)
    requires SourceOk(src)
    ensures Select(Rows(src, i, j), lo, hi)
         == Rows(src, MaxI(i, From(lo, src.interval)), MinI(j, Past(hi, src.interval)))
    decreases j - i
  {
    if i < j {
      assert Front(Rows(src, i, j)) == Rows(src, i, j - 1);
      SelectWindow(src, i, j - 1, lo, hi);
      FromSpec(lo, src.interval, j - 1);
      PastSpec(hi, src.interval, j - 1);
      RowsPush(src, i, j, From(lo, src.interval), Past(hi, src.interval));
    }
  }

  /** A window cut to [f, p), with one more row. */
  lemma RowsPush(src: Source, i: int, j: int, f: int, p: int)
    requires i < j
    ensures Rows(src, MaxI(i, f), MinI(j - 1, p)) + (if f <= j - 1 < p then [RowAt(src, j - 1)] else [])
         == Rows(src, MaxI(i, f), MinI(j, p))
  {
  }

  // ---------------------------------------------------------------- merging

  predicate HasTime(rows: seq<Row>, t: int) { exists k :: 0 <= k < |rows| && rows[k].ts == t }

  /** Keep the first row of each timestamp. */
  function DropDuplicates(rows: seq<Row>): seq<Row> {
    if rows == [] then []
    else
      var kept := DropDuplicates(Front(rows));
      if HasTime(kept, Last(rows).ts) then kept else kept + [Last(rows)]
  }

  function Insert(r: Row, rows: seq<Row>): seq<Row> {
    if rows == [] || Last(rows).ts <= r.ts then rows + [r] else Insert(r, Front(rows)) + [Last(rows)]
  }

  function SortByTime(rows: seq<Row>): seq<Row> {
    if rows == [] then [] else Insert(Last(rows), SortByTime(Front(rows)))
  }

  function Merge(cached: seq<Row>, fetched: seq<Row>): seq<Row> {
    SortByTime(DropDuplicates(cached + fetched))
  }

  predicate Increasing(rows: seq<Row>) { forall i, j :: 0 <= i < j < |rows| ==> rows[i].ts < rows[j].ts }

  predicate Distinct(rows: seq<Row>) { forall i, j :: 0 <= i < j < |rows| ==> rows[i].ts != rows[j].ts }

  lemma {:induction false} DedupLaw(rows: seq<Row>)
    ensures Distinct(DropDuplicates(rows))
    ensures forall r :: r in DropDuplicates(rows) ==> r in rows
    ensures forall r :: r in rows ==> HasTime(DropDuplicates(rows), r.ts)
  {
    if rows != [] {
      DedupLaw(Front(rows));
      var kept, d := DropDuplicates(Front(rows)), DropDuplicates(rows);
      assert rows == Front(rows) + [Last(rows)];
      if d != kept { assert d[|kept|] == Last(rows); }
      forall r | r in rows ensures HasTime(d, r.ts) {
        if r in Front(rows) {
          var k :| 0 <= k < |kept| && kept[k].ts == r.ts;
          assert d[k] == kept[k];
        }
      }
    }
  }

  lemma {:induction false} InsertLaw(r: Row, rows: seq<Row>)
    requires Increasing(rows) && forall k :: 0 <= k < |rows| ==> rows[k].ts != r.ts
    ensures Increasing(Insert(r, rows)) && forall x :: x in Insert(r, rows) <==> x == r || x in rows
  {
    if rows != [] && Last(rows).ts > r.ts {
      InsertLaw(r, Front(rows));
      var s := Insert(r, Front(rows));
      forall k | 0 <= k < |s| ensures s[k].ts < Last(rows).ts {
        assert s[k] in s;
      }
      assert rows == Front(rows) + [Last(rows)];
    }
  }

  lemma {:induction false} SortLaw(rows: seq<Row>)
    requires Distinct(rows)
    ensures Increasing(SortByTime(rows)) && forall x :: x in SortByTime(rows) <==> x in rows
  {
    if rows != [] {
      SortLaw(Front(rows));
      forall k | 0 <= k < |SortByTime(Front(rows))| ensures SortByTime(Front(rows))[k].ts != Last(rows).ts {
        assert SortByTime(Front(rows))[k] in Front(rows);
      }
      InsertLaw(Last(rows), SortByTime(Front(rows)));
      assert rows == Front(rows) + [Last(rows)];
    }
  }

  lemma InFront(a: seq<Row>, r: Row)
    requires Increasing(a) && a != []
    ensures r in Front(a) <==> r in a && r != Last(a)
  {
    assert a == Front(a) + [Last(a)];
    if r in Front(a) {
      var k :| 0 <= k < |a| - 1 && Front(a)[k] == r;
      assert a[k].ts < a[|a| - 1].ts;
    }
  }

  /** Increasing sequences with the same rows are equal. */
  lemma {:induction false} IncreasingUnique(a: seq<Row>, b: seq<Row>)
    requires Increasing(a) && Increasing(b) && forall r :: r in a <==> r in b
    ensures a == b
  {
    assert a != [] ==> a[0] in b;
    assert b != [] ==> b[0] in a;
    if a != [] && b != [] {
      assert Last(a) in b && Last(b) in a;
      assert Last(a) == Last(b);
      forall r ensures r in Front(a) <==> r in Front(b) {
        InFront(a, r);
        InFront(b, r);
      }
      IncreasingUnique(Front(a), Front(b));
      assert a == Front(a) + [Last(a)] && b == Front(b) + [Last(b)];
    }
  }

  /** All rows come from the source. */
  predicate Genuine(src: Source, rows: seq<Row>) {
    forall r :: r in rows ==> r == Row(r.ts, src.candle(r.ts))
  }

  /** Merging genuine rows gives the one increasing sequence of exactly those rows. */
  lemma MergeIs(src: Source, cached: seq<Row>, fetched: seq<Row>, merged: seq<Row>)
    requires Genuine(src, cached + fetched)
    requires Increasing(merged) && forall r :: r in merged <==> r in cached + fetched
    ensures Merge(cached, fetched) == merged
  {
    var all := cached + fetched;
    DedupLaw(all);
    SortLaw(DropDuplicates(all));
    forall r ensures r in Merge(cached, fetched) <==> r in merged {
      if r in merged {
        var d := DropDuplicates(all);
        var k :| 0 <= k < |d| && d[k].ts == r.ts;
        assert d[k] in all;
      }
    }
    IncreasingUnique(Merge(cached, fetched), merged);
  }

  lemma InRows(src: Source, i: int, j: int, r: Row)
    requires SourceOk(src)
    ensures r in Rows(src, i, j)
      <==> r.ts % src.interval == 0 && i <= r.ts / src.interval < j && r == RowAt(src, r.ts / src.interval)
  {
    var rows := Rows(src, i, j);
    if r in rows {
      var k :| 0 <= k < |rows| && rows[k] == r;
      GridIndex(i + k, src.interval);
    }
    var q := r.ts / src.interval;
    if r.ts % src.interval == 0 && i <= q < j && r == RowAt(src, q) {
      assert rows[q - i] == r;
    }
  }

  lemma GridIndex(k: int, interval: int)
    requires interval > 0
    ensures k * interval % interval == 0 && k * interval / interval == k
  {
    DivBelow(k * interval, interval, k);
    DivBelow(k * interval, interval, k + 1);
    assert (k + 1) * interval == k * interval + interval;
    assert k * interval / interval == k;
  }

  lemma RowsIncreasing(src: Source, i: int, j: int)
    requires SourceOk(src)
    ensures Increasing(Rows(src, i, j))
  {
    var rows := Rows(src, i, j);
    forall a, b | 0 <= a < b < |rows| ensures rows[a].ts < rows[b].ts {
      IntMono(i + a + 1, i + b, src.interval);
      assert (i + a + 1) * src.interval == (i + a) * src.interval + src.interval;
    }
  }

  /** Windows that overlap or touch merge into their hull. */
  lemma MergeTouching(src: Source, i: int, j: int, k: int, l: int)
    requires SourceOk(src) && i < j && k < l && k <= j && i <= l
    ensures Merge(Rows(src, i, j), Rows(src, k, l)) == Rows(src, MinI(i, k), MaxI(j, l))
  {
    var hull := Rows(src, MinI(i, k), MaxI(j, l));
    RowsIncreasing(src, MinI(i, k), MaxI(j, l));
    forall r ensures r in hull <==> r in Rows(src, i, j) + Rows(src, k, l) {
      InRows(src, i, j, r);
      InRows(src, k, l, r);
      InRows(src, MinI(i, k), MaxI(j, l), r);
    }
    MergeIs(src, Rows(src, i, j), Rows(src, k, l), hull);
  }

  /** A later window that does not touch is simply appended: the merge has a hole. */
  lemma MergeApart(src: Source, i: int, j: int, k: int, l: int)
    requires SourceOk(src) && i < j <= k < l
    ensures Merge(Rows(src, i, j), Rows(src, k, l)) == Rows(src, i, j) + Rows(src, k, l)
  {
    var both := Rows(src, i, j) + Rows(src, k, l);
    RowsIncreasing(src, i, j);
    RowsIncreasing(src, k, l);
    forall a, b | 0 <= a < b < |both| ensures both[a].ts < both[b].ts {
      if a < j - i <= b {
        var p, q := i + a, k + (b - (j - i));
        IntMono(p + 1, q, src.interval);
        assert (p + 1) * src.interval == p * src.interval + src.interval;
        assert both[a] == RowAt(src, p) && both[b] == RowAt(src, q);
      } else if b < j - i {
        assert both[a] == Rows(src, i, j)[a] && both[b] == Rows(src, i, j)[b];
      } else {
        assert both[a] == Rows(src, k, l)[a - (j - i)] && both[b] == Rows(src, k, l)[b - (j - i)];
      }
    }
    MergeIs(src, Rows(src, i, j), Rows(src, k, l), both);
  }

  // ---------------------------------------------------------------- requests

  /** Slicing by iloc[-n:], where n = 0 keeps everything. */
  function LastRows(rows: seq<Row>, n: nat): seq<Row> {
    if n == 0 then rows else Newest(rows, n)
  }

  datatype Feed = Feed(candles: seq<Row>, maxRecords: nat)

  /** `avail` bounds the candles the exchange has at the time; none when the fetch raises. */
  datatype Request = Request(start: Option<int>, end: Option<int>, maxRecords: Option<nat>, maxCache: nat,
                             now: int, avail: Option<int>)

  /** Reuse a feed that is large enough, otherwise start an empty one. */
  function GetFeed(f: Option<Feed>, n: nat): Feed {
    if f.Some? && f.value.maxRecords >= n then f.value else Feed([], n)
  }

  function CachedStart(rows: seq<Row>): int
    requires rows != []
  {
    rows[0].ts
  }

  function CachedEnd(rows: seq<Row>): int
    requires rows != []
  {
    Last(rows).ts
  }

  predicate Hit(rows: seq<Row>, s: int, e: int) {
    rows != [] && s >= CachedStart(rows) && e <= CachedEnd(rows)
  }

  /** The range to fetch: the hull of cache and request, limited to the cache size; with an empty
      cache the request plus a buffer before it. */
  function Plan(src: Source, rows: seq<Row>, s: int, e: int, n: nat): (int, int) {
    if rows == [] then (s - MinI(n / 4, 1000) * src.interval, e)
    else
      var fs, fe, range := MinI(s, CachedStart(rows)), MaxI(e, CachedEnd(rows)), n * src.interval;
      if fe - fs > range then
        if s < CachedStart(rows) then (MaxI(s, fe - range), fe) else (fs, MinI(e, fs + range))
      else (fs, fe)
  }

  /** Keep the most recent records when there are more than the limit. */
  function Trim(all: seq<Row>, n: nat): seq<Row> { if |all| > n then LastRows(all, n) else all }

  /** The cache after a successful, non-empty fetch. */
  function Refill(feed: Feed, fetched: seq<Row>, n: nat): Feed {
    if feed.candles == [] then feed.(candles := Newest(LastRows(fetched, n), feed.maxRecords))
    else
      var all := Merge(feed.candles, fetched);
      feed.(candles := Newest(Trim(all, n), feed.maxRecords))
  }

  function Answer(feed: Feed, s: int, e: int, maxRecords: Option<nat>): seq<Row> {
    var rows := Select(feed.candles, s, e);
    if maxRecords.Some? then LastRows(rows, maxRecords.value) else rows
  }

  /** The fallback path: the newest candles of a feed of the default size. */
  function Fallback(f: Option<Feed>, maxRecords: Option<nat>): (Feed, seq<Row>) {
    var n := if maxRecords.Some? && maxRecords.value != 0 then maxRecords.value else 500;
    var feed := GetFeed(f, n);
    (feed, LastRows(feed.candles, n))
  }

  /** Serve the range [s, e]. */
  function Serve(src: Source, f: Option<Feed>, s: int, e: int, req: Request): (Feed, seq<Row>)
    requires SourceOk(src)
  {
    var feed := GetFeed(f, req.maxCache);
    if Hit(feed.candles, s, e) then (feed, Answer(feed, s, e, req.maxRecords))
    else
      var (lo, hi) := Plan(src, feed.candles, s, e, req.maxCache);
      if req.avail.None? || Fetch(src, lo, hi, req.avail.value) == [] then Fallback(Some(feed), req.maxRecords)
      else
        var feed' := Refill(feed, Fetch(src, lo, hi, req.avail.value), req.maxCache);
        (feed', Answer(feed', s, e, req.maxRecords))
  }

  /** One call of get_historical_candles_df. */
  function Query(src: Source, f: Option<Feed>, req: Request): (Feed, seq<Row>)
    requires SourceOk(src)
  {
    var e := if req.end.Some? then req.end.value else req.now;
    if req.start.Some? then Serve(src, f, req.start.value, e, req)
    else if req.maxRecords.Some? then
      var n := req.maxRecords.value;
      var probed := GetFeed(f, MinI(100, n));
      Serve(src, Some(probed), e - n * src.interval, e, req)
    else Fallback(f, None)
  }

  // ---------------------------------------------------------------- coherence

  /** Grid index of the oldest row. */
  function Start(src: Source, rows: seq<Row>): int
    requires SourceOk(src) && rows != []
  {
    rows[0].ts / src.interval
  }

  /** The rows are a gap-free window of the source. */
  predicate Coherent(src: Source, rows: seq<Row>)
    requires SourceOk(src)
  {
    rows == [] || rows == Rows(src, Start(src, rows), Start(src, rows) + |rows|)
  }

  /** A coherent feed within its size, holding only candles the exchange had. */
  predicate FeedOk(src: Source, feed: Feed, avail: int)
    requires SourceOk(src)
  {
    && Coherent(src, feed.candles) && |feed.candles| <= feed.maxRecords
    && (feed.candles != [] ==>
          src.first <= Start(src, feed.candles) && Start(src, feed.candles) + |feed.candles| <= avail)
  }

  lemma WindowCoherent(src: Source, i: int, j: int)
    requires SourceOk(src)
    ensures Coherent(src, Rows(src, i, j))
    ensures i < j ==> Start(src, Rows(src, i, j)) == i && |Rows(src, i, j)| == j - i
    ensures i < j ==> CachedStart(Rows(src, i, j)) == i * src.interval
    ensures i < j ==> CachedEnd(Rows(src, i, j)) == (j - 1) * src.interval
  {
    GridIndex(i, src.interval);
  }

  lemma NewestWindow(src: Source, i: int, j: int, n: nat)
    ensures Newest(Rows(src, i, j), n) == if j - i <= n then Rows(src, i, j) else Rows(src, j - n, j)
  {
  }

  /** The window left by a touching merge: the newest n candles of the hull. */
  lemma RefillTouching(src: Source, feed: Feed, i: int, j: int, k: int, l: int, n: nat)
    requires SourceOk(src) && 0 < n <= feed.maxRecords && k < l
    requires if feed.candles == [] then i == k && j == l else i < j && feed.candles == Rows(src, i, j) && k <= j && i <= l
    ensures var b := MaxI(j, l);
      Refill(feed, Rows(src, k, l), n) == feed.(candles := Rows(src, MaxI(MinI(i, k), b - n), b))
  {
    NewestWindow(src, k, l, n);
    NewestWindow(src, MinI(i, k), MaxI(j, l), n);
    if feed.candles != [] { MergeTouching(src, i, j, k, l); }
  }

  lemma FromShift(t: int, interval: int, n: nat)
    requires interval > 0
    ensures From(t - n * interval, interval) == From(t, interval) - n
    ensures From(t, interval) <= Past(t, interval) <= From(t, interval) + 1
  {
    var f, p := From(t, interval), Past(t, interval);
    FromSpec(t, interval, f);
    FromSpec(t, interval, f - 1);
    FromSpec(t - n * interval, interval, f - n);
    FromSpec(t - n * interval, interval, f - n - 1);
    assert (f - n) * interval == f * interval - n * interval;
    assert (f - n - 1) * interval == (f - 1) * interval - n * interval;
    PastSpec(t, interval, f - 1);
    PastSpec(t, interval, f);
    PastSpec(t, interval, f + 1);
    assert (f - 1) * interval == f * interval - interval && (f + 1) * interval == f * interval + interval;
  }

  /** The fetch window [k, l) planned for a miss on the cached window [i, j). */
  function FetchWindow(src: Source, rows: seq<Row>, s: int, e: int, n: nat, avail: int): (int, int)
    requires SourceOk(src)
  {
    var (lo, hi) := Plan(src, rows, s, e, n);
    (MaxI(From(lo, src.interval), src.first), MinI(Past(hi, src.interval), avail))
  }

  /** The one way to leave a hole: the request starts before the cache, ends after it and spans more
      than the cache can hold, so that only its newest n candles are fetched; these begin beyond the
      cache; and the exchange has some of them but not n, because the request ends in the future. */
  predicate LeavesHole(src: Source, rows: seq<Row>, s: int, e: int, n: nat, avail: int)
    requires SourceOk(src)
  {
    && rows != [] && s < CachedStart(rows) && e > CachedEnd(rows) && e - s > n * src.interval
    && var k := From(e, src.interval) - n;
       k > Start(src, rows) + |rows| && 0 < avail - k < n
  }

  /** Where the planned fetch lies relative to the cached window. */
  lemma FetchTouches(src: Source, i: int, j: int, s: int, e: int, n: nat, avail: int)
    requires SourceOk(src) && i < j <= avail && src.first <= i && 0 < n
    requires !Hit(Rows(src, i, j), s, e)
    ensures var rows := Rows(src, i, j);
      var (k, l) := FetchWindow(src, rows, s, e, n, avail);
      && i <= l
      && (k > j ==> s < CachedStart(rows) && e > CachedEnd(rows) && e - s > n * src.interval
                    && k == From(e, src.interval) - n && l == MinI(Past(e, src.interval), avail))
      && (s < CachedStart(rows) && e > CachedEnd(rows) && e - s > n * src.interval ==>
            k == MaxI(From(e, src.interval) - n, src.first))
  {
    var rows := Rows(src, i, j);
    WindowCoherent(src, i, j);
    var (lo, hi) := Plan(src, rows, s, e, n);
    var cs, ce := CachedStart(rows), CachedEnd(rows);
    IntMono(i, j - 1, src.interval);
    IntMono(0, n, src.interval);
    FromSpec(lo, src.interval, i);
    FromSpec(lo, src.interval, j - 1);
    PastSpec(hi, src.interval, i);
    FromShift(e, src.interval, n);
  }

  /** Neighbouring rows that are not neighbours on the grid break coherence. */
  lemma GapShows(src: Source, rows: seq<Row>, p: nat, x: int, y: int)
    requires SourceOk(src) && p + 1 < |rows| && x + 1 < y
    requires rows[p] == RowAt(src, x) && rows[p + 1] == RowAt(src, y)
    ensures !Coherent(src, rows)
  {
    GridIndex(x, src.interval);
    GridIndex(y, src.interval);
    if Coherent(src, rows) {
      var a := Start(src, rows);
      assert rows[p] == RowAt(src, a + p) && rows[p + 1] == RowAt(src, a + p + 1);
      GridIndex(a + p, src.interval);
      GridIndex(a + p + 1, src.interval);
    }
  }

  lemma TrimHole(src: Source, i: int, j: int, k: int, l: int, n: nat)
    requires SourceOk(src) && i < j < k < l && l - k < n
    ensures !Coherent(src, Trim(Rows(src, i, j) + Rows(src, k, l), n))
  {
    var all := Rows(src, i, j) + Rows(src, k, l);
    var kept := Trim(all, n);
    var d, p := |all| - |kept|, |kept| - (l - k) - 1;
    assert kept == all[d..];
    assert kept[p] == all[d + p] && kept[p + 1] == all[d + p + 1];
    GapShows(src, kept, p, j - 1, k);
  }

  lemma TrimToFetch(src: Source, i: int, j: int, k: int, l: int, n: nat)
    requires i < j < k < l && 0 < n <= l - k
    ensures Trim(Rows(src, i, j) + Rows(src, k, l), n) == Rows(src, l - n, l)
  {
  }

  /** The refill when the fetched window does not touch the cached one. */
  lemma RefillApart(src: Source, feed: Feed, i: int, j: int, k: int, l: int, n: nat)
    requires SourceOk(src) && i < j < k < l && feed.candles == Rows(src, i, j) && 0 < n <= feed.maxRecords
    ensures var feed' := Refill(feed, Rows(src, k, l), n);
      if l - k < n then !Coherent(src, feed'.candles) else feed'.candles == Rows(src, l - n, l)
  {
    MergeApart(src, i, j, k, l);
    if l - k < n { TrimHole(src, i, j, k, l, n); } else { TrimToFetch(src, i, j, k, l, n); }
  }

  function NewestOfHull(src: Source, i: int, j: int, k: int, l: int, n: nat): seq<Row> {
    var b := MaxI(j, l);
    Rows(src, MaxI(MinI(i, k), b - n), b)
  }

  /** What a request misses on: the cached window [i, j) or nothing, and the fetched [k, l). */
  predicate Missed(src: Source, rows: seq<Row>, i: int, j: int, k: int, l: int) {
    k < l && (if rows == [] then i == k && j == l else i < j && rows == Rows(src, i, j))
  }

  lemma RefillIff(src: Source, feed: Feed, i: int, j: int, k: int, l: int, n: nat)
    requires SourceOk(src) && Missed(src, feed.candles, i, j, k, l) && i <= l && 0 < n <= feed.maxRecords
    ensures var feed' := Refill(feed, Rows(src, k, l), n);
      && (Coherent(src, feed'.candles) <==> k <= j || l - k >= n)
      && (k <= j || l - k >= n ==> feed'.candles == NewestOfHull(src, i, j, k, l, n))
  {
    if k <= j {
      RefillTouching(src, feed, i, j, k, l, n);
      WindowCoherent(src, MaxI(MinI(i, k), MaxI(j, l) - n), MaxI(j, l));
    } else {
      RefillApart(src, feed, i, j, k, l, n);
      WindowCoherent(src, l - n, l);
    }
  }

  lemma HoleIff(src: Source, i: int, j: int, s: int, e: int, n: nat, avail: int)
    requires SourceOk(src) && i < j <= avail && src.first <= i && 0 < n && !Hit(Rows(src, i, j), s, e)
    requires var (k, l) := FetchWindow(src, Rows(src, i, j), s, e, n, avail); k < l
    ensures var (k, l) := FetchWindow(src, Rows(src, i, j), s, e, n, avail);
      k <= j || l - k >= n <==> !LeavesHole(src, Rows(src, i, j), s, e, n, avail)
  {
    FetchTouches(src, i, j, s, e, n, avail);
    FromShift(e, src.interval, n);
    WindowCoherent(src, i, j);
  }

  /** What a miss does to a coherent cache: it stays coherent exactly when the request does not
      leave a hole, and then it is the newest n candles of the hull of cache and fetch. */
  lemma MissKeepsCoherentIff(src: Source, feed: Feed, s: int, e: int, n: nat, avail: int, i: int, j: int)
    requires SourceOk(src) && 0 < n <= feed.maxRecords && !Hit(feed.candles, s, e)
    requires var (k, l) := FetchWindow(src, feed.candles, s, e, n, avail); Missed(src, feed.candles, i, j, k, l)
    requires feed.candles != [] ==> src.first <= i && j <= avail
    ensures var (k, l) := FetchWindow(src, feed.candles, s, e, n, avail);
      var feed' := Refill(feed, Rows(src, k, l), n);
      && (Coherent(src, feed'.candles) <==> !LeavesHole(src, feed.candles, s, e, n, avail))
      && (Coherent(src, feed'.candles) ==> feed'.candles == NewestOfHull(src, i, j, k, l, n))
  {
    var (k, l) := FetchWindow(src, feed.candles, s, e, n, avail);
    if feed.candles != [] {
      FetchTouches(src, i, j, s, e, n, avail);
      HoleIff(src, i, j, s, e, n, avail);
    }
    RefillIff(src, feed, i, j, k, l, n);
  }

  // ---------------------------------------------------------------- what a request gets back

  /** The true answer: the requested candles the exchange has. */
  function Truth(src: Source, s: int, e: int, avail: int): seq<Row>
    requires SourceOk(src)
  {
    Fetch(src, s, e, avail)
  }

  lemma PrevIndex(k: int, interval: int)
    ensures (k - 1) * interval == k * interval - interval
  {
  }

  lemma FromAtLeast(t: int, interval: int, k: int)
    requires interval > 0 && k * interval <= t
    ensures k <= From(t, interval)
  {
    FromSpec(t, interval, k - 1);
    PrevIndex(k, interval);
  }

  lemma PastAtMost(t: int, interval: int, k: int)
    requires interval > 0 && t <= (k - 1) * interval
    ensures Past(t, interval) <= k
  {
    PastSpec(t, interval, k);
    PrevIndex(k, interval);
  }

  lemma HitWindow(src: Source, i: int, j: int, s: int, e: int, avail: int)
    requires SourceOk(src) && src.first <= i < j <= avail
    requires i * src.interval <= s && e <= (j - 1) * src.interval
    ensures Select(Rows(src, i, j), s, e) == Truth(src, s, e, avail)
  {
    FromAtLeast(s, src.interval, i);
    PastAtMost(e, src.interval, j);
    AnswerExactIff(src, i, j, s, e, avail);
  }

  /** A full cache hit returns exactly what the exchange would, newest `maxRecords` of it. */
  lemma HitIsExact(src: Source, f: Option<Feed>, s: int, e: int, req: Request, avail: int)
    requires SourceOk(src) && FeedOk(src, GetFeed(f, req.maxCache), avail)
    requires Hit(GetFeed(f, req.maxCache).candles, s, e)
    ensures var truth := Truth(src, s, e, avail);
      Serve(src, f, s, e, req)
        == (GetFeed(f, req.maxCache), if req.maxRecords.Some? then LastRows(truth, req.maxRecords.value) else truth)
  {
    var rows := GetFeed(f, req.maxCache).candles;
    var i := Start(src, rows);
    WindowCoherent(src, i, i + |rows|);
    HitWindow(src, i, i + |rows|, s, e, avail);
  }

  /** Two windows hold the same rows exactly when both are empty or their bounds agree. */
  lemma SameWindow(src: Source, a: int, b: int, c: int, d: int)
    requires SourceOk(src)
    ensures Rows(src, a, b) == Rows(src, c, d) <==> (a >= b && c >= d) || (a == c && b == d)
  {
    if a < b && c < d {
      GridIndex(a, src.interval);
      GridIndex(c, src.interval);
      assert Rows(src, a, b)[0] == RowAt(src, a) && Rows(src, c, d)[0] == RowAt(src, c);
    }
  }

  /** There is nothing to return for [s, e], or the window [a, b) reaches both ends of what there is. */
  predicate Covers(src: Source, a: int, b: int, s: int, e: int, avail: int)
    requires SourceOk(src)
  {
    var (p, q) := (MaxI(From(s, src.interval), src.first), MinI(Past(e, src.interval), avail));
    p >= q || (a <= p && q <= b)
  }

  /** Reading [s, e] from a cached window [a, b) gives the truth if and only if there is nothing to
      return or the window reaches both ends of the requested candles. */
  lemma AnswerExactIff(src: Source, a: int, b: int, s: int, e: int, avail: int)
    requires SourceOk(src) && src.first <= a && b <= avail
    ensures Select(Rows(src, a, b), s, e) == Truth(src, s, e, avail) <==> Covers(src, a, b, s, e, avail)
  {
    SelectWindow(src, a, b, s, e);
    SameWindow(src, MaxI(a, From(s, src.interval)), MinI(b, Past(e, src.interval)),
               MaxI(From(s, src.interval), src.first), MinI(Past(e, src.interval), avail));
  }

  /** A miss answers exactly if and only if it leaves no hole and the requested candles the exchange
      has are none, or lie inside the newest n candles of the hull of cache and fetch. */
  lemma MissIsExactIff(src: Source, feed: Feed, s: int, e: int, n: nat, avail: int, i: int, j: int)
    requires SourceOk(src) && 0 < n <= feed.maxRecords && !Hit(feed.candles, s, e)
    requires var (k, l) := FetchWindow(src, feed.candles, s, e, n, avail); Missed(src, feed.candles, i, j, k, l)
    requires feed.candles != [] ==> src.first <= i && j <= avail
    ensures var (k, l) := FetchWindow(src, feed.candles, s, e, n, avail);
      var (a, b) := (MaxI(MinI(i, k), MaxI(j, l) - n), MaxI(j, l));
      Answer(Refill(feed, Rows(src, k, l), n), s, e, None) == Truth(src, s, e, avail) <==>
        !LeavesHole(src, feed.candles, s, e, n, avail) && Covers(src, a, b, s, e, avail)
  {
    var (k, l) := FetchWindow(src, feed.candles, s, e, n, avail);
    if LeavesHole(src, feed.candles, s, e, n, avail) {
      HoleMisses(src, feed, s, e, n, avail, i, j);
    } else {
      MissKeepsCoherentIff(src, feed, s, e, n, avail, i, j);
      HullAnswer(src, Refill(feed, Rows(src, k, l), n), i, j, k, l, s, e, n, avail);
    }
  }

  lemma {:induction false} SelectIn(rows: seq<Row>, lo: int, hi: int)
    ensures forall r :: r in Select(rows, lo, hi) ==> r in rows
  {
    if rows != [] {
      SelectIn(Front(rows), lo, hi);
      assert rows == Front(rows) + [Last(rows)];
    }
  }

  /** After a miss that leaves a hole the candle right after the old cache is asked for, exists, and is
      not in the answer. */
  lemma HoleMisses(src: Source, feed: Feed, s: int, e: int, n: nat, avail: int, i: int, j: int)
    requires SourceOk(src) && 0 < n <= feed.maxRecords
    requires i < j <= avail && src.first <= i && feed.candles == Rows(src, i, j)
    ensures var (k, l) := FetchWindow(src, feed.candles, s, e, n, avail);
      !Hit(feed.candles, s, e) && LeavesHole(src, feed.candles, s, e, n, avail) ==>
        Answer(Refill(feed, Rows(src, k, l), n), s, e, None) != Truth(src, s, e, avail)
  {
    if !Hit(feed.candles, s, e) && LeavesHole(src, feed.candles, s, e, n, avail) {
      var (k, l) := FetchWindow(src, feed.candles, s, e, n, avail);
      HoleFetches(src, i, j, s, e, n, avail);
      FetchTouches(src, i, j, s, e, n, avail);
      WindowCoherent(src, i, j);
      MergeApart(src, i, j, k, l);
      var feed' := Refill(feed, Rows(src, k, l), n);
      var row := RowAt(src, j);
      SelectIn(feed'.candles, s, e);
      InRows(src, i, j, row);
      InRows(src, k, l, row);
      GridIndex(j, src.interval);
      FromSpec(s, src.interval, i);
      assert row !in feed'.candles;
      InRows(src, MaxI(From(s, src.interval), src.first), MinI(Past(e, src.interval), avail), row);
      assert row in Truth(src, s, e, avail);
    }
  }

  lemma HullAnswer(src: Source, feed: Feed, i: int, j: int, k: int, l: int, s: int, e: int, n: nat, avail: int)
    requires SourceOk(src) && feed.candles == NewestOfHull(src, i, j, k, l, n)
    requires src.first <= i && src.first <= k && j <= avail && l <= avail
    ensures var (a, b) := (MaxI(MinI(i, k), MaxI(j, l) - n), MaxI(j, l));
      Answer(feed, s, e, None) == Truth(src, s, e, avail) <==> Covers(src, a, b, s, e, avail)
  {
    AnswerExactIff(src, MaxI(MinI(i, k), MaxI(j, l) - n), MaxI(j, l), s, e, avail);
  }

  /** The forward range-limited fetch is pinned to the start of the cache. */
  lemma ForwardPlan(src: Source, i: int, j: int, s: int, e: int, n: nat, avail: int)
    requires SourceOk(src) && src.first <= i < j <= i + n && i + n + 1 <= avail
    requires i * src.interval <= s && e - i * src.interval > n * src.interval
    ensures !Hit(Rows(src, i, j), s, e)
    ensures FetchWindow(src, Rows(src, i, j), s, e, n, avail) == (i, i + n + 1)
  {
    WindowCoherent(src, i, j);
    var cs := i * src.interval;
    var top := cs + n * src.interval;
    assert (i + n) * src.interval == top && (i + n - 1) * src.interval == top - src.interval;
    IntMono(j - 1, i + n - 1, src.interval);
    FromSpec(cs, src.interval, i);
    FromSpec(cs, src.interval, i - 1);
    assert (i - 1) * src.interval == cs - src.interval;
    PastSpec(top, src.interval, i + n);
    PastSpec(top, src.interval, i + n + 1);
    assert (i + n + 1) * src.interval == top + src.interval;
    assert Plan(src, Rows(src, i, j), s, e, n) == (cs, top);
  }

  /** The range-limited branch for requests that extend the cache forward serves the cache, not the
      request: the fetch stops n intervals after the start of the cache. The window then moves by at
      most one candle, and the newest requested candle is not in the answer, whenever the exchange
      has a requested candle beyond that point. */
  lemma ForwardMissLags(src: Source, feed: Feed, s: int, e: int, n: nat, avail: int, i: int, j: int)
    requires SourceOk(src) && 0 < n <= feed.maxRecords
    requires i < j <= i + n && feed.candles == Rows(src, i, j) && src.first <= i && j <= avail
    requires i * src.interval <= s && e - i * src.interval > n * src.interval
    requires MinI(Past(e, src.interval), avail) > i + n + 1 && From(s, src.interval) < MinI(Past(e, src.interval), avail)
    ensures !Hit(feed.candles, s, e)
    ensures var (k, l) := FetchWindow(src, feed.candles, s, e, n, avail);
      var feed' := Refill(feed, Rows(src, k, l), n);
      feed'.candles == Rows(src, i + 1, i + n + 1) && Answer(feed', s, e, None) != Truth(src, s, e, avail)
  {
    ForwardPlan(src, i, j, s, e, n, avail);
    ForwardRefill(src, feed, i, j, n);
    WindowMisses(src, i, n, s, e, avail);
  }

  lemma ForwardRefill(src: Source, feed: Feed, i: int, j: int, n: nat)
    requires SourceOk(src) && 0 < n <= feed.maxRecords && i < j <= i + n && feed.candles == Rows(src, i, j)
    ensures Refill(feed, Rows(src, i, i + n + 1), n).candles == Rows(src, i + 1, i + n + 1)
  {
    RefillTouching(src, feed, i, j, i, i + n + 1, n);
  }

  lemma WindowMisses(src: Source, i: int, n: nat, s: int, e: int, avail: int)
    requires SourceOk(src) && src.first <= i && 0 < n && i * src.interval <= s
    requires MinI(Past(e, src.interval), avail) > i + n + 1 && From(s, src.interval) < MinI(Past(e, src.interval), avail)
    ensures Select(Rows(src, i + 1, i + n + 1), s, e) != Truth(src, s, e, avail)
  {
    FromAtLeast(s, src.interval, i);
    AnswerExactIff(src, i + 1, i + n + 1, s, e, avail);
  }

  // ---------------------------------------------------------------- sequences of calls

  /** A non-empty cache size; when the exchange answers, it has at least what it had before. */
  predicate Ordinary(req: Request, avail: int) {
    0 < req.maxCache && (req.avail.Some? ==> avail <= req.avail.value)
  }

  function Known(req: Request, avail: int): int { if req.avail.Some? then req.avail.value else avail }

  /** Serving [s, e] from this feed misses and leaves a hole. */
  predicate ServeLeavesHole(src: Source, f: Option<Feed>, s: int, e: int, req: Request)
    requires SourceOk(src)
  {
    var rows := GetFeed(f, req.maxCache).candles;
    req.avail.Some? && !Hit(rows, s, e) && LeavesHole(src, rows, s, e, req.maxCache, req.avail.value)
  }

  /** The call leaves a hole in this feed. */
  predicate QueryLeavesHole(src: Source, f: Option<Feed>, req: Request)
    requires SourceOk(src)
  {
    var e := if req.end.Some? then req.end.value else req.now;
    if req.start.Some? then ServeLeavesHole(src, f, req.start.value, e, req)
    else if req.maxRecords.Some? then
      var n := req.maxRecords.value;
      ServeLeavesHole(src, Some(GetFeed(f, MinI(100, n))), e - n * src.interval, e, req)
    else false
  }

  lemma HullFeedOk(src: Source, feed: Feed, i: int, j: int, k: int, l: int, n: nat, avail: int)
    requires SourceOk(src) && Missed(src, feed.candles, i, j, k, l) && n <= feed.maxRecords && 0 < n
    requires src.first <= k && l <= avail && (feed.candles != [] ==> src.first <= i && j <= avail)
    ensures FeedOk(src, feed.(candles := NewestOfHull(src, i, j, k, l, n)), avail)
  {
    WindowCoherent(src, MaxI(MinI(i, k), MaxI(j, l) - n), MaxI(j, l));
  }

  /** Where a hole is left, there was something to fetch. */
  lemma HoleFetches(src: Source, i: int, j: int, s: int, e: int, n: nat, avail: int)
    requires SourceOk(src) && i < j <= avail && src.first <= i && 0 < n && !Hit(Rows(src, i, j), s, e)
    requires LeavesHole(src, Rows(src, i, j), s, e, n, avail)
    ensures var (k, l) := FetchWindow(src, Rows(src, i, j), s, e, n, avail); j < k < l
  {
    FetchTouches(src, i, j, s, e, n, avail);
    FromShift(e, src.interval, n);
    WindowCoherent(src, i, j);
  }

  /** Serving a range that misses: the feed stays coherent, in range and within its size, unless a hole
      is left, and then it is not coherent. */
  lemma MissedServe(src: Source, feed: Feed, s: int, e: int, n: nat, avail: int, a: int)
    requires SourceOk(src) && FeedOk(src, feed, avail) && 0 < n <= feed.maxRecords && avail <= a
    requires !Hit(feed.candles, s, e)
    requires var (k, l) := FetchWindow(src, feed.candles, s, e, n, a); k < l
    ensures var (k, l) := FetchWindow(src, feed.candles, s, e, n, a);
      var feed' := Refill(feed, Rows(src, k, l), n);
      if LeavesHole(src, feed.candles, s, e, n, a) then !Coherent(src, feed'.candles) else FeedOk(src, feed', a)
  {
    var (k, l) := FetchWindow(src, feed.candles, s, e, n, a);
    var i := if feed.candles == [] then k else Start(src, feed.candles);
    var j := if feed.candles == [] then l else i + |feed.candles|;
    MissKeepsCoherentIff(src, feed, s, e, n, a, i, j);
    HullFeedOk(src, feed, i, j, k, l, n, a);
  }

  lemma NoFetchNoHole(src: Source, feed: Feed, s: int, e: int, n: nat, avail: int, a: int)
    requires SourceOk(src) && FeedOk(src, feed, avail) && 0 < n && avail <= a && !Hit(feed.candles, s, e)
    requires var (k, l) := FetchWindow(src, feed.candles, s, e, n, a); k >= l
    ensures !LeavesHole(src, feed.candles, s, e, n, a)
  {
    if feed.candles != [] && LeavesHole(src, feed.candles, s, e, n, a) {
      HoleFetches(src, Start(src, feed.candles), Start(src, feed.candles) + |feed.candles|, s, e, n, a);
    }
  }

  lemma FallbackOk(src: Source, feed: Feed, maxRecords: Option<nat>, avail: int)
    requires SourceOk(src) && FeedOk(src, feed, avail)
    ensures FeedOk(src, Fallback(Some(feed), maxRecords).0, avail)
  {
  }

  /** A feed that is in order stays in order with more candles known. */
  lemma FeedOkLater(src: Source, feed: Feed, avail: int, a: int)
    requires SourceOk(src) && FeedOk(src, feed, avail) && avail <= a
    ensures FeedOk(src, feed, a)
  {
  }

  lemma ServeKeepsFeedOkIff(src: Source, f: Option<Feed>, s: int, e: int, req: Request, avail: int)
    requires SourceOk(src) && (f.Some? ==> FeedOk(src, f.value, avail)) && Ordinary(req, avail)
    ensures var feed := Serve(src, f, s, e, req).0;
      if ServeLeavesHole(src, f, s, e, req) then !Coherent(src, feed.candles) else FeedOk(src, feed, Known(req, avail))
  {
    var feed, n, a := GetFeed(f, req.maxCache), req.maxCache, Known(req, avail);
    FeedOkLater(src, feed, avail, a);
    FallbackOk(src, feed, req.maxRecords, a);
    if !Hit(feed.candles, s, e) && req.avail.Some? {
      var (lo, hi) := Plan(src, feed.candles, s, e, n);
      var (k, l) := FetchWindow(src, feed.candles, s, e, n, a);
      assert Fetch(src, lo, hi, a) == Rows(src, k, l);
      if k < l { MissedServe(src, feed, s, e, n, avail, a); } else { NoFetchNoHole(src, feed, s, e, n, avail, a); }
    }
  }

  /** Serving [s, e] from feed `f` is what the call does. */
  predicate ServesRange(src: Source, f: Option<Feed>, req: Request, g: Option<Feed>, s: int, e: int)
    requires SourceOk(src)
  {
    && Query(src, f, req) == Serve(src, g, s, e, req)
    && (QueryLeavesHole(src, f, req) <==> ServeLeavesHole(src, g, s, e, req))
  }

  lemma StartServes(src: Source, f: Option<Feed>, req: Request)
    requires SourceOk(src) && req.start.Some?
    ensures ServesRange(src, f, req, f, req.start.value, if req.end.Some? then req.end.value else req.now)
  {
  }

  lemma RecentServes(src: Source, f: Option<Feed>, req: Request) returns (s: int, e: int)
    requires SourceOk(src) && req.start.None? && req.maxRecords.Some?
    ensures ServesRange(src, f, req, Some(GetFeed(f, MinI(100, req.maxRecords.value))), s, e)
  {
    e := if req.end.Some? then req.end.value else req.now;
    s := e - req.maxRecords.value * src.interval;
  }

  /** One call keeps the feed coherent, in range and within its size, exactly when it leaves no hole. */
  lemma QueryKeepsFeedOkIff(src: Source, f: Option<Feed>, req: Request, avail: int)
    requires SourceOk(src) && (f.Some? ==> FeedOk(src, f.value, avail)) && Ordinary(req, avail)
    ensures var feed := Query(src, f, req).0;
      && (Coherent(src, feed.candles) <==> !QueryLeavesHole(src, f, req))
      && (Coherent(src, feed.candles) <==> FeedOk(src, feed, Known(req, avail)))
  {
    if req.start.Some? {
      StartServes(src, f, req);
      ServeKeepsFeedOkIff(src, f, req.start.value, if req.end.Some? then req.end.value else req.now, req, avail);
    } else if req.maxRecords.Some? {
      var s, e := RecentServes(src, f, req);
      ServeKeepsFeedOkIff(src, Some(GetFeed(f, MinI(100, req.maxRecords.value))), s, e, req, avail);
    }
  }

  function Calls(src: Source, f: Option<Feed>, reqs: seq<Request>): Option<Feed>
    requires SourceOk(src)
  {
    if reqs == [] then f else Some(Query(src, Calls(src, f, Front(reqs)), Last(reqs)).0)
  }

  function KnownAfter(reqs: seq<Request>, avail: int): int {
    if reqs == [] then avail else Known(Last(reqs), KnownAfter(Front(reqs), avail))
  }

  predicate AllOrdinary(reqs: seq<Request>, avail: int) {
    reqs == [] || (AllOrdinary(Front(reqs), avail) && Ordinary(Last(reqs), KnownAfter(Front(reqs), avail)))
  }

  /** No call leaves a hole in the feed of its moment. */
  predicate NoHoles(src: Source, reqs: seq<Request>)
    requires SourceOk(src)
  {
    reqs == [] || (NoHoles(src, Front(reqs)) && !QueryLeavesHole(src, Calls(src, None, Front(reqs)), Last(reqs)))
  }

  /** The cache is coherent after every call. */
  predicate AlwaysCoherent(src: Source, reqs: seq<Request>)
    requires SourceOk(src)
  {
    reqs == [] || (AlwaysCoherent(src, Front(reqs)) && Coherent(src, Calls(src, None, reqs).value.candles))
  }

  /** After any sequence of calls none of which leaves a hole, hits, misses, failures, replaced feeds and
      requests into the future alike, the cache is an increasing, gap-free window of the exchange's
      candles and within the size of its feed. */
  lemma {:induction false} CallsKeepFeedOk(src: Source, reqs: seq<Request>, avail: int)
    requires SourceOk(src) && AllOrdinary(reqs, avail) && NoHoles(src, reqs)
    ensures var f := Calls(src, None, reqs);
      f.Some? ==> FeedOk(src, f.value, KnownAfter(reqs, avail)) && Increasing(f.value.candles)
  {
    if reqs != [] {
      CallsKeepFeedOk(src, Front(reqs), avail);
      var before, known := Calls(src, None, Front(reqs)), KnownAfter(Front(reqs), avail);
      QueryKeepsFeedOkIff(src, before, Last(reqs), known);
      FeedOkIncreasing(src, Query(src, before, Last(reqs)).0, Known(Last(reqs), known));
    }
  }

  /** The other way round too: the cache is coherent throughout if and only if no call leaves a hole. */
  lemma {:induction false} AlwaysCoherentIff(src: Source, reqs: seq<Request>, avail: int)
    requires SourceOk(src) && AllOrdinary(reqs, avail)
    ensures AlwaysCoherent(src, reqs) <==> NoHoles(src, reqs)
  {
    if reqs != [] {
      AlwaysCoherentIff(src, Front(reqs), avail);
      if NoHoles(src, Front(reqs)) {
        CallsKeepFeedOk(src, Front(reqs), avail);
        QueryKeepsFeedOkIff(src, Calls(src, None, Front(reqs)), Last(reqs), KnownAfter(Front(reqs), avail));
      }
    }
  }

  lemma FeedOkIncreasing(src: Source, feed: Feed, avail: int)
    requires SourceOk(src) && FeedOk(src, feed, avail)
    ensures Increasing(feed.candles)
  {
    if feed.candles != [] { RowsIncreasing(src, Start(src, feed.candles), Start(src, feed.candles) + |feed.candles|); }
  }

  // ---------------------------------------------------------------- a hole

  /** Ask a fresh provider for one minute, room for two; then from a minute before it to ten minutes
      after it, when the exchange has nine. */
  function HoleRequests(): seq<Request> {
    [Request(Some(0), Some(0), None, 2, 0, Some(1)), Request(Some(-60), Some(600), None, 2, 600, Some(9))]
  }

  lemma FirstRequest(src: Source)
    requires src.interval == 60 && src.first <= 0
    ensures Query(src, None, HoleRequests()[0]).0 == Feed(Rows(src, 0, 1), 2)
  {
    var req := HoleRequests()[0];
    assert Plan(src, [], 0, 0, 2) == (0, 0);
    assert Fetch(src, 0, 0, 1) == Rows(src, 0, 1);
    assert Refill(Feed([], 2), Rows(src, 0, 1), 2) == Feed(Rows(src, 0, 1), 2);
  }

  /** After these two calls the cache has a hole. */
  lemma HoleExample(src: Source)
    requires src.interval == 60 && src.first <= 0
    ensures AllOrdinary(HoleRequests(), 0)
    ensures var f := Calls(src, None, HoleRequests()); f.Some? && !Coherent(src, f.value.candles)
  {
    var reqs := HoleRequests();
    var feed := Feed(Rows(src, 0, 1), 2);
    FirstRequest(src);
    assert Front(reqs) == [reqs[0]] && Front([reqs[0]]) == [];
    assert Calls(src, None, [reqs[0]]) == Some(feed);
    WindowCoherent(src, 0, 1);
    assert LeavesHole(src, feed.candles, -60, 600, 2, 9);
    assert QueryLeavesHole(src, Some(feed), reqs[1]);
    QueryKeepsFeedOkIff(src, Some(feed), reqs[1], 1);
  }
}
