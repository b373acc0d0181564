// The enhanced sports data service: a millisecond-ttl cache in front of the
// live-match and market endpoints, mock data when they fail, and per-event
// subscriber lists.

module EnhancedSportsDataService {
  import opened Wrappers

  const LiveMatchesKey := "live_matches"
  const MarketDataKey := "market_data"
  const LiveMatchesTtl := 30000
  const MarketDataTtl := 60000

  datatype CacheEntry<D> = CacheEntry(data: D, expiry: int)

  /** `getFromCache` on a cache value: the data while `expiry > now`; otherwise
      a miss, and the key is dropped. */
  function Lookup<D>(cache: map<string, CacheEntry<D>>, key: string, now: int): (r: (Option<D>, map<string, CacheEntry<D>>))
    ensures r.0.Some? <==> key in cache && cache[key].expiry > now
    ensures r.0.Some? ==> r.0.value == cache[key].data && r.1 == cache
    ensures r.0.None? ==> r.1.Keys == cache.Keys - {key} && forall k :: k in r.1 ==> r.1[k] == cache[k]
  {
    if key in cache && cache[key].expiry > now then (Some(cache[key].data), cache)
    else (None, cache - {key})
  }

  /** `setCache`: the ttl is in milliseconds, like the clock. */
  function Stored<D>(cache: map<string, CacheEntry<D>>, key: string, data: D, ttl: int, now: int): (r: map<string, CacheEntry<D>>)
    ensures r.Keys == cache.Keys + {key}
    ensures r[key] == CacheEntry(data, now + ttl)
    ensures forall k :: k in cache && k != key ==> r[k] == cache[k]
  {
    cache[key := CacheEntry(data, now + ttl)]
  }

  /** A stored entry is served for exactly `ttl` milliseconds. */
  lemma StoredServedForTtl<D>(cache: map<string, CacheEntry<D>>, key: string, data: D, ttl: int, now: int, later: int)
    ensures Lookup(Stored(cache, key, data, ttl, now), key, later).0 == (if later < now + ttl then Some(data) else None)
  {
  }

  /** The callbacks registered for an event, in registration order. */
  function Listeners<C>(subscribers: map<string, seq<C>>, event: string): seq<C> {
    if event in subscribers then subscribers[event] else []
  }

  /** `callbacks.indexOf(callback)`: the first position, or -1. */
  function IndexOf<C(==)>(s: seq<C>, x: C): (i: int)
    ensures -1 <= i < |s|
    ensures i == -1 <==> x !in s
    ensures i >= 0 ==> s[i] == x && x !in s[..i]
  {
    if s == [] then -1
    else if s[0] == x then 0
    else
      var j := IndexOf(s[1..], x);
      assert s[1..][..(if j >= 0 then j else 0)] == s[1..(if j >= 0 then j + 1 else 1)];
      if j == -1 then -1 else j + 1
  }

  /** `subscribe` on a subscriber map: the callback goes to the end of its
      event's list, even when it is already there. */
  function Subscribed<C>(subscribers: map<string, seq<C>>, event: string, callback: C): (r: map<string, seq<C>>)
    ensures r.Keys == subscribers.Keys + {event}
    ensures r[event] == Listeners(subscribers, event) + [callback]
    ensures forall e :: e in subscribers && e != event ==> r[e] == subscribers[e]
  {
    subscribers[event := Listeners(subscribers, event) + [callback]]
  }

  /** `unsubscribe` on a subscriber map: only the first occurrence goes, and
      an unknown event or callback changes nothing. */
  function Unsubscribed<C(==)>(subscribers: map<string, seq<C>>, event: string, callback: C): (r: map<string, seq<C>>)
    ensures r.Keys == subscribers.Keys
    ensures event !in subscribers || callback !in subscribers[event] ==> r == subscribers
    ensures event in subscribers && callback in subscribers[event] ==>
      var s := subscribers[event];
      var i := IndexOf(s, callback);
      r == subscribers[event := s[..i] + s[i + 1..]]
  {
    if event in subscribers && IndexOf(subscribers[event], callback) >= 0 then
      var s := subscribers[event];
      var i := IndexOf(s, callback);
      subscribers[event := s[..i] + s[i + 1..]]
    else subscribers
  }

  /** Unsubscribing takes away exactly one copy of the callback and keeps the
      order of the others. */
  lemma UnsubscribeDropsOneCopy<C>(subscribers: map<string, seq<C>>, event: string, callback: C)
    requires event in subscribers && callback in subscribers[event]
    ensures multiset(Unsubscribed(subscribers, event, callback)[event]) == multiset(subscribers[event]) - multiset{callback}
    ensures |Unsubscribed(subscribers, event, callback)[event]| == |subscribers[event]| - 1
  {
    var s := subscribers[event];
    var i := IndexOf(s, callback);
    assert s == s[..i] + [s[i]] + s[i + 1..];
    assert multiset(s) == multiset(s[..i]) + multiset{callback} + multiset(s[i + 1..]);
  }

  /** A subscribe undone by an unsubscribe restores the list when the callback
      was new; when it was already there, the earlier copy goes and the new
      one stays at the end. */
  lemma SubscribeThenUnsubscribe<C>(subscribers: map<string, seq<C>>, event: string, callback: C)
    ensures var s := Listeners(subscribers, event);
      var after := Unsubscribed(Subscribed(subscribers, event, callback), event, callback)[event];
      (callback !in s ==> after == s)
      && (callback in s ==> after == s[..IndexOf(s, callback)] + s[IndexOf(s, callback) + 1..] + [callback])
  {
    var s := Listeners(subscribers, event);
    var t := s + [callback];
    if callback !in s {
      assert IndexOf(t, callback) == |s| by {
        assert t[|s|] == callback && t[..|s|] == s;
        IndexOfIsFirst(t, callback, |s|);
      }
      assert t[..|s|] == s;
    } else {
      var i := IndexOf(s, callback);
      assert IndexOf(t, callback) == i by {
        assert t[..i] == s[..i];
        IndexOfIsFirst(t, callback, i);
      }
      assert t[i + 1..] == s[i + 1..] + [callback];
    }
  }

  /** A position holding `x` with no `x` before it is `indexOf`'s answer. */
  lemma {:induction false} IndexOfIsFirst<C>(s: seq<C>, x: C, i: nat)
    requires i < |s| && s[i] == x && x !in s[..i]
    ensures IndexOf(s, x) == i
  {
    if i > 0 {
      assert s[0] in s[..i];
      assert s[1..][..i - 1] == s[1..i];
      assert s[1..i] == s[..i][1..];
      IndexOfIsFirst(s[1..], x, i - 1);
    }
  }

  class Service<D, C(==)> {
    var cache: map<string, CacheEntry<D>>
    var subscribers: map<string, seq<C>>

    constructor()
      ensures cache == map[] && subscribers == map[]
    {
      cache, subscribers := map[], map[];
    }

    method GetFromCache(key: string, now: int) returns (r: Option<D>)
      modifies this
      ensures (r, cache) == Lookup(old(cache), key, now)
      ensures subscribers == old(subscribers)
    {
      if key in cache && cache[key].expiry > now {
        return Some(cache[key].data);
      }
      cache := cache - {key};
      r := None;
    }

    method SetCache(key: string, data: D, ttl: int, now: int)
      modifies this
      ensures cache == Stored(old(cache), key, data, ttl, now)
      ensures subscribers == old(subscribers)
    {
      cache := cache[key := CacheEntry(data, now + ttl)];
    }

    /** The flow of `getLiveMatches` and `getMarketData`: a cache hit is
        served; otherwise `fetched` (the part of an ok response that is kept,
        `None` when the response was not ok or the fetch threw) is cached and
        served; without it the mock is served and nothing is cached. */
    method CachedFetch(key: string, ttl: int, now: int, fetched: Option<D>, mock: D) returns (r: D)
      modifies this
      ensures subscribers == old(subscribers)
      ensures var (hit, rest) := Lookup(old(cache), key, now);
        (hit.Some? ==> r == hit.value && cache == old(cache))
        && (hit.None? && fetched.Some? ==> r == fetched.value && cache == Stored(rest, key, fetched.value, ttl, now))
        && (hit.None? && fetched.None? ==> r == mock && cache == rest && key !in cache)
    {
      var cached := GetFromCache(key, now);
      if cached.Some? {
        return cached.value;
      }
      if fetched.Some? {
        SetCache(key, fetched.value, ttl, now);
        return fetched.value;
      }
      r := mock;
    }

    /** `getLiveMatches`: `data.matches` is cached for 30 seconds. */
    method GetLiveMatches(now: int, fetched: Option<D>, mock: D) returns (r: D)
      modifies this
      ensures subscribers == old(subscribers)
      ensures var (hit, rest) := Lookup(old(cache), LiveMatchesKey, now);
        (hit.Some? ==> r == hit.value && cache == old(cache))
        && (hit.None? && fetched.Some? ==> r == fetched.value && cache == Stored(rest, LiveMatchesKey, fetched.value, LiveMatchesTtl, now))
        && (hit.None? && fetched.None? ==> r == mock && LiveMatchesKey !in cache)
    {
      r := CachedFetch(LiveMatchesKey, LiveMatchesTtl, now, fetched, mock);
    }

    /** `getMarketData`: the whole body is cached for a minute. */
    method GetMarketData(now: int, fetched: Option<D>, mock: D) returns (r: D)
      modifies this
      ensures subscribers == old(subscribers)
      ensures var (hit, rest) := Lookup(old(cache), MarketDataKey, now);
        (hit.Some? ==> r == hit.value && cache == old(cache))
        && (hit.None? && fetched.Some? ==> r == fetched.value && cache == Stored(rest, MarketDataKey, fetched.value, MarketDataTtl, now))
        && (hit.None? && fetched.None? ==> r == mock && MarketDataKey !in cache)
    {
      r := CachedFetch(MarketDataKey, MarketDataTtl, now, fetched, mock);
    }

    method Subscribe(event: string, callback: C)
      modifies this
      ensures subscribers == Subscribed(old(subscribers), event, callback)
      ensures cache == old(cache)
    {
      if event !in subscribers {
        subscribers := subscribers[event := []];
      }
      subscribers := subscribers[event := subscribers[event] + [callback]];
    }

    method Unsubscribe(event: string, callback: C)
      modifies this
      ensures subscribers == Unsubscribed(old(subscribers), event, callback)
      ensures cache == old(cache)
    {
      if event in subscribers {
        var callbacks := subscribers[event];
        var index := IndexOf(callbacks, callback);
        if index > -1 {
          subscribers := subscribers[event := callbacks[..index] + callbacks[index + 1..]];
        }
      }
    }

    /** `notifySubscribers`: the callbacks called, in the order they were
        called; an event nobody subscribed to calls none. */
    method NotifySubscribers(event: string) returns (called: seq<C>)
      ensures called == Listeners(subscribers, event)
      ensures event !in subscribers ==> called == []
    {
      called := [];
      if event in subscribers {
        var callbacks := subscribers[event];
        var i := 0;
        while i < |callbacks|
          invariant 0 <= i <= |callbacks|
          invariant called == callbacks[..i]
        {
          called := called + [callbacks[i]];
          i := i + 1;
        }
        assert callbacks[..|callbacks|] == callbacks;
      }
    }

    method Destroy()
      modifies this
      ensures cache == map[] && subscribers == map[]
    {
      cache := map[];
      subscribers := map[];
    }
  }

  /** `getCEOAnalytics` is never cached: an ok body, or the mock. */
  function CeoAnalytics<D>(fetched: Option<D>, mock: D): (r: D)
    ensures fetched.Some? ==> r == fetched.value
    ensures fetched.None? ==> r == mock
  {
    if fetched.Some? then fetched.value else mock
  }
}
