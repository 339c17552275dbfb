/** What requests are answered, said without the planning of fetches: first requests, and requests that
    fit into the cache together with what it holds. */
module CandleAnswers {
  import opened Prelude
  import opened CandleCache

  /** The newest `maxRecords` of the rows, when a limit is asked for. */
  function Cut(rows: seq<Row>, maxRecords: Option<nat>): seq<Row> {
    if maxRecords.Some? then LastRows(rows, maxRecords.value) else rows
  }

  // ---------------------------------------------------------------- grid bounds

  lemma FromMono(t: int, u: int, interval: int)
    requires interval > 0 && t <= u
    ensures From(t, interval) <= From(u, interval)
  {
    FromSpec(u, interval, From(u, interval));
    FromSpec(t, interval, From(u, interval));
  }

  lemma PastMono(t: int, u: int, interval: int)
    requires interval > 0 && t <= u
    ensures Past(t, interval) <= Past(u, interval)
  {
    PastSpec(t, interval, Past(t, interval) - 1);
    PastSpec(u, interval, Past(t, interval) - 1);
  }

  lemma OnGrid(k: int, interval: int)
    requires interval > 0
    ensures From(k * interval, interval) == k && Past(k * interval, interval) == k + 1
  {
    FromSpec(k * interval, interval, k);
    FromAtLeast(k * interval, interval, k);
    PastSpec(k * interval, interval, k);
    PastSpec(k * interval, interval, k + 1);
    PrevIndex(k + 1, interval);
  }

  // ---------------------------------------------------------------- first requests

  /** The window of candles of [s, e] that the exchange has is [p, q). */
  predicate Wanted(src: Source, s: int, e: int, avail: int, p: int, q: int)
    requires SourceOk(src)
  {
    p == MaxI(From(s, src.interval), src.first) && q == MinI(Past(e, src.interval), avail)
  }

  lemma NewestOfWindow(src: Source, a: int, p: int, q: int, n: nat)
    requires SourceOk(src) && a <= p
    ensures Rows(src, MaxI(MaxI(a, q - n), p), q) == Newest(Rows(src, p, q), n)
  {
  }

  /** Reading [s, e] from the newest n candles of a window that ends with the wanted ones and starts no
      later gives the newest n of the wanted ones. */
  lemma ReadNewest(src: Source, k: int, s: int, e: int, avail: int, n: nat, p: int, q: int)
    requires SourceOk(src) && Wanted(src, s, e, avail, p, q) && src.first <= k <= p
    ensures Select(Rows(src, MaxI(k, q - n), q), s, e) == Newest(Truth(src, s, e, avail), n)
  {
    SelectWindow(src, MaxI(k, q - n), q, s, e);
    NewestOfWindow(src, k, p, q, n);
    SameWindow(src, MaxI(MaxI(k, q - n), From(s, src.interval)), MinI(q, Past(e, src.interval)),
               MaxI(MaxI(k, q - n), p), q);
  }

  lemma NoneWanted(src: Source, k: int, s: int, e: int, avail: int, p: int, q: int)
    requires SourceOk(src) && Wanted(src, s, e, avail, p, q) && k <= p && k >= q
    ensures Truth(src, s, e, avail) == []
  {
  }

  /** Where the fetch for an empty cache starts: at or before the request. */
  lemma FirstWindow(src: Source, s: int, e: int, n: nat, avail: int, p: int, q: int)
    requires SourceOk(src) && Wanted(src, s, e, avail, p, q)
    ensures var (k, l) := FetchWindow(src, [], s, e, n, avail); src.first <= k <= p && l == q
  {
    var b := MinI(n / 4, 1000);
    IntMono(0, b, src.interval);
    FromMono(s - b * src.interval, s, src.interval);
  }

  lemma FirstFilled(src: Source, feed: Feed, s: int, e: int, avail: int, n: nat, k: int, p: int, q: int,
                    maxRecords: Option<nat>)
    requires SourceOk(src) && feed.candles == [] && 0 < n <= feed.maxRecords
    requires Wanted(src, s, e, avail, p, q) && src.first <= k <= p && k < q
    ensures Answer(Refill(feed, Rows(src, k, q), n), s, e, maxRecords) == Cut(Newest(Truth(src, s, e, avail), n), maxRecords)
  {
    FirstRefill(src, feed, k, q, n);
    ReadNewest(src, k, s, e, avail, n, p, q);
  }

  lemma FirstRefill(src: Source, feed: Feed, k: int, q: int, n: nat)
    requires SourceOk(src) && feed.candles == [] && 0 < n <= feed.maxRecords && k < q
    ensures Refill(feed, Rows(src, k, q), n) == feed.(candles := Rows(src, MaxI(k, q - n), q))
  {
    RefillTouching(src, feed, k, q, k, q, n);
  }

  /** What serving does on a miss when the exchange answers. */
  lemma ServeMiss(src: Source, f: Option<Feed>, s: int, e: int, req: Request, k: int, l: int)
    requires SourceOk(src) && req.avail.Some? && !Hit(GetFeed(f, req.maxCache).candles, s, e)
    requires (k, l) == FetchWindow(src, GetFeed(f, req.maxCache).candles, s, e, req.maxCache, req.avail.value)
    ensures var feed := GetFeed(f, req.maxCache);
      Serve(src, f, s, e, req) ==
        if k < l then (Refill(feed, Rows(src, k, l), req.maxCache),
                       Answer(Refill(feed, Rows(src, k, l), req.maxCache), s, e, req.maxRecords))
        else Fallback(Some(feed), req.maxRecords)
  {
    var rows := GetFeed(f, req.maxCache).candles;
    var (lo, hi) := Plan(src, rows, s, e, req.maxCache);
    assert Fetch(src, lo, hi, req.avail.value) == Rows(src, k, l);
  }

  lemma EmptyFallback(feed: Feed, maxRecords: Option<nat>)
    requires feed.candles == []
    ensures Fallback(Some(feed), maxRecords).1 == []
  {
  }

  /** A request to an empty feed is answered with exactly the candles of the range that the exchange has,
      the newest ones if they are more than the cache or the request has room for. */
  lemma FirstAnswer(src: Source, f: Option<Feed>, s: int, e: int, req: Request)
    requires SourceOk(src) && 0 < req.maxCache && req.avail.Some? && GetFeed(f, req.maxCache).candles == []
    ensures Serve(src, f, s, e, req).1 == Cut(Newest(Truth(src, s, e, req.avail.value), req.maxCache), req.maxRecords)
  {
    var feed, n, avail := GetFeed(f, req.maxCache), req.maxCache, req.avail.value;
    var p, q := MaxI(From(s, src.interval), src.first), MinI(Past(e, src.interval), avail);
    FirstWindow(src, s, e, n, avail, p, q);
    var (k, l) := FetchWindow(src, [], s, e, n, avail);
    ServeMiss(src, f, s, e, req, k, l);
    if k < l {
      FirstFilled(src, feed, s, e, avail, n, k, p, q, req.maxRecords);
    } else {
      NoneWanted(src, k, s, e, avail, p, q);
      EmptyFallback(feed, req.maxRecords);
    }
  }

  /** So a first request for no more candles than the cache has room for is answered in full. */
  lemma FirstAnswerIsExact(src: Source, f: Option<Feed>, s: int, e: int, req: Request)
    requires SourceOk(src) && 0 < req.maxCache && req.avail.Some? && GetFeed(f, req.maxCache).candles == []
    requires |Truth(src, s, e, req.avail.value)| <= req.maxCache
    ensures Serve(src, f, s, e, req).1 == Cut(Truth(src, s, e, req.avail.value), req.maxRecords)
  {
    FirstAnswer(src, f, s, e, req);
  }

  /** And what the feed then holds reaches further back: by a quarter of the cache, or a thousand candles if
      that is less. */
  lemma FirstFill(src: Source, f: Option<Feed>, s: int, e: int, req: Request)
    requires SourceOk(src) && 0 < req.maxCache && req.avail.Some? && GetFeed(f, req.maxCache).candles == []
    ensures var early := s - (if req.maxCache / 4 < 1000 then req.maxCache / 4 else 1000) * src.interval;
      Serve(src, f, s, e, req).0.candles == Newest(Truth(src, early, e, req.avail.value), req.maxCache)
  {
    var feed, n, avail := GetFeed(f, req.maxCache), req.maxCache, req.avail.value;
    var (k, l) := FetchWindow(src, [], s, e, n, avail);
    ServeMiss(src, f, s, e, req, k, l);
    if k < l { FirstRefill(src, feed, k, l, n); }
  }

  /** With neither a start nor a number of records, the answer is the newest 500 candles of a feed that has
      room for as many, whatever the range. */
  lemma WithoutRange(src: Source, feed: Feed, req: Request)
    requires SourceOk(src) && req.start == None && req.maxRecords == None
    ensures Query(src, Some(feed), req)
         == if feed.maxRecords < 500 then (Feed([], 500), []) else (feed, feed.candles[MaxI(0, |feed.candles| - 500)..])
  {
  }

  lemma FallbackIs(feed: Feed, maxRecords: Option<nat>, n: nat)
    requires n == if maxRecords == None || maxRecords == Some(0) then 500 else maxRecords.value
    ensures Fallback(Some(feed), maxRecords)
         == if feed.maxRecords < n then (Feed([], n), []) else (feed, feed.candles[MaxI(0, |feed.candles| - n)..])
  {
    assert feed.candles[0..] == feed.candles;
  }

  /** When the exchange cannot be reached, a miss is answered with the newest candles that the feed has, of
      whatever time: as many as asked for, or 500. A feed with less room is given up for an empty one. */
  lemma WithoutExchange(src: Source, f: Option<Feed>, s: int, e: int, req: Request, n: nat)
    requires SourceOk(src) && req.avail == None && !Hit(GetFeed(f, req.maxCache).candles, s, e)
    requires n == if req.maxRecords == None || req.maxRecords == Some(0) then 500 else req.maxRecords.value
    ensures var feed := GetFeed(f, req.maxCache);
      Serve(src, f, s, e, req)
      == if feed.maxRecords < n then (Feed([], n), []) else (feed, feed.candles[MaxI(0, |feed.candles| - n)..])
  {
    assert Serve(src, f, s, e, req) == Fallback(Some(GetFeed(f, req.maxCache)), req.maxRecords);
    FallbackIs(GetFeed(f, req.maxCache), req.maxRecords, n);
  }

  /** The first call on a fresh provider: the range is the one asked for, or reaches back from its end by
      as many intervals as records are asked for; the end is now unless given. */
  lemma FirstQueryIsExact(src: Source, req: Request, s: int, e: int)
    requires SourceOk(src) && 0 < req.maxCache && req.avail.Some?
    requires e == if req.end.Some? then req.end.value else req.now
    requires if req.start.Some? then s == req.start.value
      else req.maxRecords.Some? && s == e - req.maxRecords.value * src.interval
    ensures Query(src, None, req).1 == Cut(Newest(Truth(src, s, e, req.avail.value), req.maxCache), req.maxRecords)
    ensures |Truth(src, s, e, req.avail.value)| <= req.maxCache ==>
      Query(src, None, req).1 == Cut(Truth(src, s, e, req.avail.value), req.maxRecords)
  {
    if req.start.Some? {
      FirstAnswer(src, None, s, e, req);
    } else {
      FirstAnswer(src, Some(GetFeed(None, MinI(100, req.maxRecords.value))), s, e, req);
    }
  }

  // ---------------------------------------------------------------- requests that fit

  /** The planned times, for a cache from `a` to `b`. */
  lemma PlanIs(src: Source, rows: seq<Row>, s: int, e: int, n: nat, a: int, b: int)
    requires SourceOk(src) && rows != [] && a == CachedStart(rows) && b == CachedEnd(rows)
    ensures var span := n * src.interval;
      Plan(src, rows, s, e, n) ==
        if MaxI(e, b) - MinI(s, a) <= span then (MinI(s, a), MaxI(e, b))
        else if s < a then (MaxI(s, MaxI(e, b) - span), MaxI(e, b))
        else (a, MinI(e, a + span))
  {
  }

  lemma FromMin(t: int, u: int, interval: int)
    requires interval > 0
    ensures From(MinI(t, u), interval) == MinI(From(t, interval), From(u, interval))
    ensures From(MaxI(t, u), interval) == MaxI(From(t, interval), From(u, interval))
  {
    FromMono(MinI(t, u), MaxI(t, u), interval);
  }

  lemma PastMin(t: int, u: int, interval: int)
    requires interval > 0
    ensures Past(MinI(t, u), interval) == MinI(Past(t, interval), Past(u, interval))
    ensures Past(MaxI(t, u), interval) == MaxI(Past(t, interval), Past(u, interval))
  {
    PastMono(MinI(t, u), MaxI(t, u), interval);
  }

  /** What is fetched when the cache holds the window [i, j): the hull of it and the request, as long as
      that is no longer than the cache; else the newest part, when the request starts before the cache, or
      the part from the start of the cache on. */
  lemma FetchIs(src: Source, i: int, j: int, s: int, e: int, n: nat, avail: int)
    requires SourceOk(src) && i < j
    ensures var (a, b) := (i * src.interval, (j - 1) * src.interval);
      FetchWindow(src, Rows(src, i, j), s, e, n, avail) ==
        if MaxI(e, b) - MinI(s, a) <= n * src.interval
        then (MaxI(MinI(From(s, src.interval), i), src.first), MinI(MaxI(Past(e, src.interval), j), avail))
        else if s < a
        then (MaxI(MaxI(From(s, src.interval), From(MaxI(e, b), src.interval) - n), src.first),
              MinI(MaxI(Past(e, src.interval), j), avail))
        else (MaxI(i, src.first), MinI(MinI(Past(e, src.interval), i + n + 1), avail))
  {
    var a, b := i * src.interval, (j - 1) * src.interval;
    WindowCoherent(src, i, j);
    PlanIs(src, Rows(src, i, j), s, e, n, a, b);
    OnGrid(i, src.interval);
    OnGrid(j - 1, src.interval);
    OnGrid(i + n, src.interval);
    ShiftIndex(i, n, src.interval);
    FromMin(s, a, src.interval);
    PastMin(e, b, src.interval);
    FromMin(s, MaxI(e, b) - n * src.interval, src.interval);
    FromShift(MaxI(e, b), src.interval, n);
    PastMin(e, a + n * src.interval, src.interval);
  }

  /** A miss whose hull with the cache fits into it, in time and in number, leaves the hull in the cache
      and is answered in full. */
  lemma MissThatFits(src: Source, f: Option<Feed>, s: int, e: int, req: Request, i: int, j: int, k: int, l: int)
    requires SourceOk(src) && 0 < req.maxCache && req.avail.Some? && GetFeed(f, req.maxCache).candles == Rows(src, i, j)
    requires src.first <= i < j <= req.avail.value && !Hit(Rows(src, i, j), s, e)
    requires MaxI(e, (j - 1) * src.interval) - MinI(s, i * src.interval) <= req.maxCache * src.interval
    requires k == MaxI(MinI(From(s, src.interval), i), src.first)
    requires l == MinI(MaxI(Past(e, src.interval), j), req.avail.value) && l - k <= req.maxCache
    ensures Serve(src, f, s, e, req)
         == (GetFeed(f, req.maxCache).(candles := Rows(src, k, l)), Cut(Truth(src, s, e, req.avail.value), req.maxRecords))
  {
    var feed, n := GetFeed(f, req.maxCache), req.maxCache;
    FetchIs(src, i, j, s, e, n, req.avail.value);
    ServeMiss(src, f, s, e, req, k, l);
    HullRefill(src, feed, i, j, k, l, n);
    HullCovers(src, i, j, k, l, s, e, req.avail.value);
  }

  lemma HullRefill(src: Source, feed: Feed, i: int, j: int, k: int, l: int, n: nat)
    requires SourceOk(src) && 0 < n <= feed.maxRecords && feed.candles == Rows(src, i, j)
    requires k <= i < j <= l && l - k <= n
    ensures Refill(feed, Rows(src, k, l), n) == feed.(candles := Rows(src, k, l))
  {
    assert MinI(i, k) == k && MaxI(j, l) == l && MaxI(k, l - n) == k;
    RefillTouching(src, feed, i, j, k, l, n);
  }

  lemma HullCovers(src: Source, i: int, j: int, k: int, l: int, s: int, e: int, avail: int)
    requires SourceOk(src) && src.first <= k && l <= avail
    requires k == MaxI(MinI(From(s, src.interval), i), src.first) && l == MinI(MaxI(Past(e, src.interval), j), avail)
    ensures Select(Rows(src, k, l), s, e) == Truth(src, s, e, avail)
  {
    AnswerExactIff(src, k, l, s, e, avail);
  }

  lemma ShiftIndex(i: int, n: int, interval: int)
    ensures (i + n) * interval == i * interval + n * interval
  {
  }
}
