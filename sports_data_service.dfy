// The front-end sports data service: a key/expiry cache in front of three
// endpoints, falling back to mock data that is never cached, and the
// strength-based mock prediction.

module SportsDataService {
  import opened Wrappers
  import opened Numbers

  datatype CacheEntry<D> = CacheEntry(data: D, expiry: int)

  const LiveMatchesTtl := 30
  const PredictionTtl := 600
  const AnalyticsTtl := 300

  /** `setCache`: the ttl is in seconds, the clock in milliseconds. */
  function Expiry(now: int, ttlSeconds: int): (e: int)
    ensures e == now + ttlSeconds * 1000
    ensures ttlSeconds > 0 ==> e > now
  {
    now + ttlSeconds * 1000
  }

  /** `getCached`'s test: a hit is strictly before the expiry. */
  predicate Live<D>(e: CacheEntry<D>, now: int) {
    now < e.expiry
  }

  /** An entry set with a positive ttl is live until `ttl` seconds have passed. */
  lemma LiveForTtl<D>(data: D, set_: int, ttlSeconds: int, now: int)
    requires ttlSeconds > 0 && set_ <= now
    ensures Live(CacheEntry(data, Expiry(set_, ttlSeconds)), now) <==> now - set_ < ttlSeconds * 1000
  {
  }

  class Service<D> {
    var cache: map<string, CacheEntry<D>>

    constructor()
      ensures cache == map[]
    {
      cache := map[];
    }

    /** `getCached`: the data while the entry is live; otherwise the key is
        dropped. */
    method GetCached(key: string, now: int) returns (r: Option<D>)
      modifies this
      ensures key in old(cache) && Live(old(cache)[key], now) ==> r == Some(old(cache)[key].data) && cache == old(cache)
      ensures !(key in old(cache) && Live(old(cache)[key], now)) ==> r.None? && cache == old(cache) - {key}
    {
      if key in cache && now < cache[key].expiry {
        return Some(cache[key].data);
      }
      cache := cache - {key};
      r := None;
    }

    method SetCache(key: string, data: D, ttlSeconds: int, now: int)
      modifies this
      ensures cache == old(cache)[key := CacheEntry(data, Expiry(now, ttlSeconds))]
    {
      cache := cache[key := CacheEntry(data, now + ttlSeconds * 1000)];
    }

    /** The flow shared by the three getters: a live cache entry is served;
        otherwise `fetched` (the parsed body of an ok response, `None` when
        the response was not ok or the call threw) is cached and served, and
        without it the mock is served and nothing is cached. */
    method CachedFetch(key: string, ttlSeconds: int, now: int, fetched: Option<D>, mock: D) returns (r: D)
      modifies this
      ensures key in old(cache) && Live(old(cache)[key], now) ==> r == old(cache)[key].data && cache == old(cache)
      ensures !(key in old(cache) && Live(old(cache)[key], now)) && fetched.Some? ==>
        r == fetched.value && cache == old(cache)[key := CacheEntry(fetched.value, Expiry(now, ttlSeconds))]
      ensures !(key in old(cache) && Live(old(cache)[key], now)) && fetched.None? ==>
        r == mock && cache == old(cache) - {key}
    {
      var cached := GetCached(key, now);
      if cached.Some? {
        return cached.value;
      }
      if fetched.None? {
        return mock;
      }
      SetCache(key, fetched.value, ttlSeconds, now);
      r := fetched.value;
    }

    /** `getLiveMatches`: cached for 30 seconds under `live-matches`. */
    method GetLiveMatches(now: int, fetched: Option<D>, mock: D) returns (r: D)
      modifies this
      ensures var key := "live-matches";
        key in old(cache) && Live(old(cache)[key], now) ==> r == old(cache)[key].data && cache == old(cache)
      ensures var key := "live-matches";
        !(key in old(cache) && Live(old(cache)[key], now)) && fetched.Some? ==>
          r == fetched.value && cache == old(cache)[key := CacheEntry(fetched.value, Expiry(now, LiveMatchesTtl))]
      ensures var key := "live-matches";
        !(key in old(cache) && Live(old(cache)[key], now)) && fetched.None? ==> r == mock && cache == old(cache) - {key}
    {
      r := CachedFetch("live-matches", LiveMatchesTtl, now, fetched, mock);
    }

    /** `getPrediction`: cached for ten minutes per match. */
    method GetPrediction(matchId: string, now: int, fetched: Option<D>, mock: D) returns (r: D)
      modifies this
      ensures var key := "prediction-" + matchId;
        key in old(cache) && Live(old(cache)[key], now) ==> r == old(cache)[key].data && cache == old(cache)
      ensures var key := "prediction-" + matchId;
        !(key in old(cache) && Live(old(cache)[key], now)) && fetched.Some? ==>
          r == fetched.value && cache == old(cache)[key := CacheEntry(fetched.value, Expiry(now, PredictionTtl))]
      ensures var key := "prediction-" + matchId;
        !(key in old(cache) && Live(old(cache)[key], now)) && fetched.None? ==> r == mock && cache == old(cache) - {key}
    {
      r := CachedFetch("prediction-" + matchId, PredictionTtl, now, fetched, mock);
    }

    /** `getAnalytics`: cached for five minutes per timeframe. */
    method GetAnalytics(timeframe: string, now: int, fetched: Option<D>, mock: D) returns (r: D)
      modifies this
      ensures var key := "analytics-" + timeframe;
        key in old(cache) && Live(old(cache)[key], now) ==> r == old(cache)[key].data && cache == old(cache)
      ensures var key := "analytics-" + timeframe;
        !(key in old(cache) && Live(old(cache)[key], now)) && fetched.Some? ==>
          r == fetched.value && cache == old(cache)[key := CacheEntry(fetched.value, Expiry(now, AnalyticsTtl))]
      ensures var key := "analytics-" + timeframe;
        !(key in old(cache) && Live(old(cache)[key], now)) && fetched.None? ==> r == mock && cache == old(cache) - {key}
    {
      r := CachedFetch("analytics-" + timeframe, AnalyticsTtl, now, fetched, mock);
    }
  }

  // ---------------------------------------------------------------------
  // The mock prediction

  datatype Features = Features(
    homeFormScore: real,
    awayFormScore: real,
    headToHeadScore: real,
    homeGoalsFor: real,
    homeGoalsAgainst: real,
    awayGoalsFor: real,
    awayGoalsAgainst: real)

  datatype Outcome = Home | Draw | Away

  datatype MockPrediction = MockPrediction(
    prediction: Outcome,
    confidence: real,
    home: real,
    draw: real,
    away: real,
    modelVersion: string)

  function Max(a: real, b: real): real {
    if a >= b then a else b
  }

  function Min(a: real, b: real): real {
    if a <= b then a else b
  }

  function MaxInt(a: int, b: int): int {
    if a >= b then a else b
  }

  function HomeStrength(f: Features): real {
    f.homeFormScore + f.homeGoalsFor / 10.0
  }

  function AwayStrength(f: Features): real {
    f.awayFormScore + f.awayGoalsFor / 10.0
  }

  /** The `+ 1` leaves room for a draw. */
  function TotalStrength(f: Features): real {
    HomeStrength(f) + AwayStrength(f) + 1.0
  }

  function Share(strength: real, total: real): real
    requires total != 0.0
  {
    strength / total
  }

  /** The raw probabilities: home and away clamped to [0.2, 0.7], the draw
      the rest but at least 0.1. */
  function Raw(f: Features): (p: (real, real, real))
    requires TotalStrength(f) != 0.0
    ensures 0.2 <= p.0 <= 0.7 && 0.2 <= p.2 <= 0.7 && p.1 >= 0.1
    ensures p.1 == Max(0.1, 1.0 - p.0 - p.2)
    ensures p.0 == Max(0.2, Min(0.7, Share(HomeStrength(f), TotalStrength(f))))
    ensures p.2 == Max(0.2, Min(0.7, Share(AwayStrength(f), TotalStrength(f))))
  {
    var home := Max(0.2, Min(0.7, Share(HomeStrength(f), TotalStrength(f))));
    var away := Max(0.2, Min(0.7, Share(AwayStrength(f), TotalStrength(f))));
    (home, Max(0.1, 1.0 - home - away), away)
  }

  /** `Math.round(x / sum * 100)`. */
  function Percent(x: real, sum: real): (n: int)
    requires 0.0 <= x <= sum && sum > 0.0
    ensures 0 <= n <= 100
  {
    var q := x / sum;
    assert 0.0 <= q <= 1.0 by {
      DivBounds(x, sum);
    }
    JsRound(q * 100.0)
  }

  lemma DivBounds(x: real, sum: real)
    requires 0.0 <= x <= sum && sum > 0.0
    ensures 0.0 <= x / sum <= 1.0
  {
  }

  /** `home > away ? (home > draw ? home : draw) : (away > draw ? away : draw)`. */
  function Label(home: int, draw: int, away: int): (o: Outcome)
    ensures o == Home ==> home > away && home > draw
    ensures o == Away ==> home <= away && away > draw
    ensures o == Draw ==> (home > away && home <= draw) || (home <= away && away <= draw)
  {
    if home > away then (if home > draw then Home else Draw)
    else (if away > draw then Away else Draw)
  }

  function PercentOf(o: Outcome, home: int, draw: int, away: int): int {
    match o
    case Home => home
    case Draw => draw
    case Away => away
  }

  /** The label always names a largest percentage. */
  lemma LabelIsLargest(home: int, draw: int, away: int)
    ensures PercentOf(Label(home, draw, away), home, draw, away) == MaxInt(MaxInt(home, draw), away)
  {
  }

  /** The probability the mock gives the outcome `o`. */
  function ProbabilityOf(o: Outcome, m: MockPrediction): real {
    match o
    case Home => m.home
    case Draw => m.draw
    case Away => m.away
  }

  /** `getMockPrediction`: three probabilities in [0, 1], the label naming a
      largest one (a tie between home and away goes to away, a tie with the
      draw to the draw), and the confidence that label's probability. */
  function MockPredictionOf(f: Features): (m: MockPrediction)
    requires TotalStrength(f) != 0.0
    ensures 0.0 <= m.home <= 1.0 && 0.0 <= m.draw <= 1.0 && 0.0 <= m.away <= 1.0
    ensures m.confidence == ProbabilityOf(m.prediction, m)
    ensures m.confidence >= m.home && m.confidence >= m.draw && m.confidence >= m.away
    ensures m.prediction == Home ==> m.home > m.away && m.home > m.draw
    ensures m.prediction == Away ==> m.home <= m.away && m.away > m.draw
    ensures m.prediction == Draw ==> m.draw >= m.home || m.draw >= m.away
    ensures m.modelVersion == "MagajiCo-ML-v2.1.3"
  {
    var p := Raw(f);
    var sum := p.0 + p.1 + p.2;
    var h := Percent(p.0, sum);
    var d := Percent(p.1, sum);
    var a := Percent(p.2, sum);
    LabelIsLargest(h, d, a);
    MockPrediction(Label(h, d, a), MaxInt(MaxInt(h, d), a) as real / 100.0,
                   h as real / 100.0, d as real / 100.0, a as real / 100.0, "MagajiCo-ML-v2.1.3")
  }
}
