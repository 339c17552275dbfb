/** The provider object that owns the candle feeds: one mutable feed per key, refilled in place. */
module MarketData {
  import opened Prelude
  import opened CandleCache

  class CandlesFeed {
    const maxRecords: nat
    var candles: seq<Row>

    function View(): Feed
      reads this
    {
      Feed(candles, maxRecords)
    }

    constructor (maxRecords: nat)
      ensures View() == Feed([], maxRecords)
    {
      this.maxRecords, candles := maxRecords, [];
    }

    /** Replace the contents row by row; the deque drops its oldest rows when it is full. */
    method Refill(rows: seq<Row>)
      modifies this
      ensures candles == Newest(rows, maxRecords)
    {
      candles := [];
      for i := 0 to |rows|
        invariant candles == Newest(rows[..i], maxRecords)
      {
        assert rows[..i + 1] == rows[..i] + [rows[i]];
        candles := Newest(candles + [rows[i]], maxRecords);
      }
      assert rows[..|rows|] == rows;
    }
  }

  class MarketDataProvider {
    var feeds: map<string, CandlesFeed>

    /** No two keys share a feed. */
    ghost predicate Valid()
      reads this
    {
      forall k, l :: k in feeds && l in feeds && k != l ==> feeds[k] != feeds[l]
    }

    ghost function FeedOf(key: string): Option<Feed>
      reads this, if key in feeds then {feeds[key]} else {}
    {
      if key in feeds then Some(feeds[key].View()) else None
    }

    ghost function FeedSet(key: string): set<object>
      reads this
    {
      if key in feeds then {feeds[key]} else {}
    }

    constructor ()
      ensures Valid() && feeds == map[]
    {
      feeds := map[];
    }

    /** Reuse the feed of this key when it is large enough, otherwise replace it by an empty one. */
    method GetCandlesFeed(key: string, maxRecords: nat) returns (feed: CandlesFeed)
      requires Valid()
      modifies this`feeds
      ensures Valid() && key in feeds && feeds[key] == feed && feeds == old(feeds)[key := feed]
      ensures feed.View() == GetFeed(old(FeedOf(key)), maxRecords)
      ensures fresh(feed) || (key in old(feeds) && feed == old(feeds)[key])
    {
      if key in feeds && feeds[key].maxRecords >= maxRecords {
        feed := feeds[key];
      } else {
        feed := new CandlesFeed(maxRecords);
        feeds := feeds[key := feed];
      }
    }

    method GetCandles(key: string, maxRecords: Option<nat>) returns (rows: seq<Row>)
      requires Valid()
      modifies this`feeds
      ensures Valid() && key in feeds && feeds == old(feeds)[key := feeds[key]]
      ensures (feeds[key].View(), rows) == Fallback(old(FeedOf(key)), maxRecords)
      ensures fresh(feeds[key]) || (key in old(feeds) && feeds[key] == old(feeds)[key])
    {
      var n := if maxRecords.Some? && maxRecords.value != 0 then maxRecords.value else 500;
      var feed := GetCandlesFeed(key, n);
      rows := LastRows(feed.candles, n);
    }

    /** The range to fetch on a miss, adjusted one variable at a time. */
    method PlanFetch(src: Source, rows: seq<Row>, s: int, e: int, n: nat) returns (fetchStart: int, fetchEnd: int)
      ensures (fetchStart, fetchEnd) == Plan(src, rows, s, e, n)
    {
      if rows != [] {
        var cachedStart, cachedEnd := rows[0].ts, Last(rows).ts;
        fetchStart, fetchEnd := MinI(s, cachedStart), MaxI(e, cachedEnd);
        var maxFetchRange := n * src.interval;
        if fetchEnd - fetchStart > maxFetchRange {
          if s < cachedStart {
            fetchStart := MaxI(s, fetchEnd - maxFetchRange);
          } else {
            fetchEnd := MinI(e, fetchStart + maxFetchRange);
          }
        }
      } else {
        var bufferRecords := MinI(n / 4, 1000);
        fetchStart, fetchEnd := s - bufferRecords * src.interval, e;
      }
    }

    /** Merge fetched rows into the feed of this key, keeping the newest `n`. */
    method Store(feed: CandlesFeed, fetched: seq<Row>, n: nat)
      modifies feed
      ensures feed.View() == CandleCache.Refill(old(feed.View()), fetched, n)
    {
      if feed.candles != [] {
        feed.Refill(Trim(Merge(feed.candles, fetched), n));
      } else {
        feed.Refill(LastRows(fetched, n));
      }
    }

    method ServeRange(key: string, src: Source, s: int, e: int, req: Request) returns (rows: seq<Row>)
      requires Valid() && SourceOk(src)
      modifies this`feeds, FeedSet(key)
      ensures Valid() && key in feeds && feeds == old(feeds)[key := feeds[key]]
      ensures (feeds[key].View(), rows) == Serve(src, old(FeedOf(key)), s, e, req)
      ensures fresh(feeds[key]) || (key in old(feeds) && feeds[key] == old(feeds)[key])
    {
      var feed := GetCandlesFeed(key, req.maxCache);
      if Hit(feed.candles, s, e) {
        return Answer(feed.View(), s, e, req.maxRecords);
      }
      var fetchStart, fetchEnd := PlanFetch(src, feed.candles, s, e, req.maxCache);
      if req.avail.Some? {
        var fetched := Fetch(src, fetchStart, fetchEnd, req.avail.value);
        if fetched != [] {
          Store(feed, fetched, req.maxCache);
          return Answer(feed.View(), s, e, req.maxRecords);
        }
      }
      rows := GetCandles(key, req.maxRecords);
    }

    /** The newest `n` candles up to `e`: probe the feed for its interval, then serve the range. */
    method ServeRecent(key: string, src: Source, n: nat, e: int, req: Request) returns (rows: seq<Row>)
      requires Valid() && SourceOk(src)
      modifies this`feeds, FeedSet(key)
      ensures Valid() && key in feeds && feeds == old(feeds)[key := feeds[key]]
      ensures (feeds[key].View(), rows)
           == Serve(src, Some(GetFeed(old(FeedOf(key)), MinI(100, n))), e - n * src.interval, e, req)
    {
      var probe := GetCandlesFeed(key, MinI(100, n));
      rows := ServeRange(key, src, e - n * src.interval, e, req);
    }

    /** One request. Feeds of other keys are not touched. */
    method GetHistoricalCandles(key: string, src: Source, req: Request) returns (rows: seq<Row>)
      requires Valid() && SourceOk(src)
      modifies this`feeds, FeedSet(key)
      ensures Valid() && key in feeds && feeds == old(feeds)[key := feeds[key]]
      ensures (feeds[key].View(), rows) == Query(src, old(FeedOf(key)), req)
    {
      var end := if req.end.Some? then req.end.value else req.now;
      if req.start.Some? {
        rows := ServeRange(key, src, req.start.value, end, req);
      } else if req.maxRecords.Some? {
        rows := ServeRecent(key, src, req.maxRecords.value, end, req);
      } else {
        rows := GetCandles(key, req.maxRecords);
      }
    }
  }
}
