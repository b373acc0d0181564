// The Python ML service's request path: a fixed-window rate limiter per
// client, a five-minute prediction cache keyed by the feature vector, the
// single and batch prediction endpoints and their percentage scaling.

module MlApi {
  import opened Wrappers

  const WindowSeconds := 60.0
  const MaxRequestsPerWindow := 100
  const CacheSeconds := 300.0
  const FeatureCount := 7

  /** A client's rate-limit entry: requests counted and when the window began. */
  datatype Window = Window(count: nat, start: real)

  /** The limiter's decision for one request: whether it passes, and the
      entry left behind. */
  datatype Admission = Admission(accepted: bool, next: Window)

  /** `rate_limit_middleware` on one client's entry. */
  function Admit(e: Option<Window>, now: real): (a: Admission)
    ensures e.None? || now - e.value.start >= WindowSeconds ==> a == Admission(true, Window(1, now))
    ensures e.Some? && now - e.value.start < WindowSeconds ==>
      (a.accepted <==> e.value.count < MaxRequestsPerWindow)
      && a.next == (if a.accepted then Window(e.value.count + 1, e.value.start) else e.value)
  {
    if e.Some? && now - e.value.start < WindowSeconds then
      if e.value.count >= MaxRequestsPerWindow then Admission(false, e.value)
      else Admission(true, Window(e.value.count + 1, e.value.start))
    else Admission(true, Window(1, now))
  }

  /** A run of requests from one client, oldest first. */
  function Run(e: Window, times: seq<real>): (r: Window)
    decreases |times|
  {
    if times == [] then e else Run(Admit(Some(e), times[0]).next, times[1..])
  }

  function AcceptedIn(e: Window, times: seq<real>): nat
    decreases |times|
  {
    if times == [] then 0
    else (if Admit(Some(e), times[0]).accepted then 1 else 0) + AcceptedIn(Admit(Some(e), times[0]).next, times[1..])
  }

  function Min(a: int, b: int): int {
    if a < b then a else b
  }

  /** Inside one window the limiter lets exactly `min(|times|, 100 - count)`
      further requests through, and the count never passes 100. */
  lemma {:induction false} WindowCap(e: Window, times: seq<real>)
    requires e.count <= MaxRequestsPerWindow
    requires forall i :: 0 <= i < |times| ==> times[i] - e.start < WindowSeconds
    ensures AcceptedIn(e, times) == Min(|times|, MaxRequestsPerWindow - e.count)
    ensures Run(e, times) == Window(e.count + AcceptedIn(e, times), e.start)
    decreases |times|
  {
    if times != [] {
      WindowCap(Admit(Some(e), times[0]).next, times[1..]);
    }
  }

  /** From a fresh window, at most 100 requests pass before it ends. */
  lemma FreshWindowCap(now: real, times: seq<real>)
    requires forall i :: 0 <= i < |times| ==> times[i] - now < WindowSeconds
    ensures 1 + AcceptedIn(Window(1, now), times) <= MaxRequestsPerWindow
  {
    WindowCap(Window(1, now), times);
  }

  /** What the predictor returns: a label, a confidence and per-outcome
      probabilities, all in [0, 1] in the predictor's terms. */
  datatype ModelResult = ModelResult(prediction: string, confidence: real, probabilities: map<string, real>, modelVersion: string)

  datatype PredictionResponse = PredictionResponse(
    prediction: string,
    confidence: real,
    probabilities: map<string, real>,
    modelVersion: string,
    featuresUsed: seq<real>,
    matchContext: Option<map<string, string>>)

  /** A cache entry's dictionary: the response's fields and the `cached`
      key the endpoint sets on a hit. */
  datatype StoredResponse = StoredResponse(response: PredictionResponse, cached: bool)

  datatype PredictionRequest = PredictionRequest(features: seq<real>, matchContext: Option<map<string, string>>)

  /** The field validation: exactly seven features. */
  predicate ValidRequest(r: PredictionRequest) {
    |r.features| == FeatureCount
  }

  /** `{k: v * 100 for k, v in probabilities.items()}`. */
  function Percentages(p: map<string, real>): (q: map<string, real>)
    ensures q.Keys == p.Keys
    ensures forall k :: k in p ==> q[k] == p[k] * 100.0
  {
    map k | k in p :: p[k] * 100.0
  }

  function Respond(req: PredictionRequest, m: ModelResult): (r: PredictionResponse)
    ensures r.confidence == m.confidence * 100.0 && r.probabilities == Percentages(m.probabilities)
    ensures r.prediction == m.prediction && r.modelVersion == m.modelVersion
    ensures r.featuresUsed == req.features && r.matchContext == req.matchContext
  {
    PredictionResponse(m.prediction, m.confidence * 100.0, Percentages(m.probabilities), m.modelVersion,
                       req.features, req.matchContext)
  }

  /** A model confidence in [0, 1] comes out in [0, 100]. */
  lemma ScaledIntoPercent(req: PredictionRequest, m: ModelResult)
    requires 0.0 <= m.confidence <= 1.0
    requires forall k :: k in m.probabilities ==> 0.0 <= m.probabilities[k] <= 1.0
    ensures 0.0 <= Respond(req, m).confidence <= 100.0
    ensures forall k :: k in Respond(req, m).probabilities ==> 0.0 <= Respond(req, m).probabilities[k] <= 100.0
  {
  }

  datatype Reply = Served(response: PredictionResponse) | Refused(status: int, detail: string)

  /** A cached entry is served while it is younger than five minutes. */
  predicate Fresh(entry: (StoredResponse, real), now: real) {
    now - entry.1 < CacheSeconds
  }

  datatype BatchItem = BatchItem(
    prediction: string,
    confidence: real,
    probabilities: map<string, real>,
    features: seq<real>,
    matchContext: Option<map<string, string>>)

  function ItemOf(req: PredictionRequest, m: ModelResult): BatchItem {
    BatchItem(m.prediction, m.confidence * 100.0, Percentages(m.probabilities), req.features, req.matchContext)
  }

  /** The first request of a batch the predictor fails on. */
  function FirstFailure(reqs: seq<PredictionRequest>, predictor: seq<real> -> Result<ModelResult, string>): (r: Option<nat>)
    ensures r.Some? ==>
      r.value < |reqs| && predictor(reqs[r.value].features).Err?
      && forall k :: 0 <= k < r.value ==> predictor(reqs[k].features).Ok?
    ensures r.None? <==> forall k :: 0 <= k < |reqs| ==> predictor(reqs[k].features).Ok?
  {
    if reqs == [] then None
    else if predictor(reqs[0].features).Err? then Some(0)
    else
      var r := FirstFailure(reqs[1..], predictor);
      if r.Some? then Some(r.value + 1) else None
  }

  class Service {
    var rateLimits: map<string, Window>
    /** `prediction_cache`, keyed by the feature vector the MD5 key is taken of. */
    var cache: map<seq<real>, (StoredResponse, real)>

    constructor()
      ensures rateLimits == map[] && cache == map[]
    {
      rateLimits, cache := map[], map[];
    }

    /** `rate_limit_middleware`; a refused request never reaches the endpoint. */
    method RateLimit(client: string, now: real) returns (accepted: bool)
      modifies this
      ensures var a := Admit(if client in old(rateLimits) then Some(old(rateLimits)[client]) else None, now);
        accepted == a.accepted && rateLimits == old(rateLimits)[client := a.next]
      ensures cache == old(cache)
    {
      var entry := if client in rateLimits then Some(rateLimits[client]) else None;
      if entry.Some? && now - entry.value.start < WindowSeconds {
        if entry.value.count >= MaxRequestsPerWindow {
          return false;
        }
        rateLimits := rateLimits[client := Window(entry.value.count + 1, entry.value.start)];
      } else {
        rateLimits := rateLimits[client := Window(1, now)];
      }
      accepted := true;
    }

    /** POST /predict. A fresh cache hit is marked cached in the stored
        entry and its response returned; the response model keeps only the
        response's fields, so the mark never reaches the client. Otherwise
        the predictor's answer is scaled, cached unmarked with the time and
        returned. */
    method Predict(req: PredictionRequest, predictor: seq<real> -> Result<ModelResult, string>, now: real)
      returns (r: Reply)
      modifies this
      ensures rateLimits == old(rateLimits)
      ensures !ValidRequest(req) ==> r.Refused? && r.status == 422 && cache == old(cache)
      ensures ValidRequest(req) && req.features in old(cache) && Fresh(old(cache)[req.features], now) ==>
        var hit := old(cache)[req.features];
        r == Served(hit.0.response) && cache == old(cache)[req.features := (hit.0.(cached := true), hit.1)]
      ensures (ValidRequest(req) && !(req.features in old(cache) && Fresh(old(cache)[req.features], now))) ==>
        match predictor(req.features)
        case Err(e) => r == Refused(400, e) && cache == old(cache)
        case Ok(m) =>
          r == Served(Respond(req, m)) && cache == old(cache)[req.features := (StoredResponse(Respond(req, m), false), now)]
    {
      if |req.features| != FeatureCount {
        return Refused(422, "features must hold exactly 7 values");
      }
      if req.features in cache && now - cache[req.features].1 < CacheSeconds {
        var hit := cache[req.features];
        var marked := hit.0.(cached := true);
        cache := cache[req.features := (marked, hit.1)];
        return Served(marked.response);
      }
      var result := predictor(req.features);
      if result.Err? {
        return Refused(400, result.error);
      }
      var response := Respond(req, result.value);
      cache := cache[req.features := (StoredResponse(response, false), now)];
      r := Served(response);
    }
  }

  /** POST /predict/batch: one item per request, in order, or 400 with the
      first failure's message. Every request must hold seven features. */
  method BatchPredict(reqs: seq<PredictionRequest>, predictor: seq<real> -> Result<ModelResult, string>)
    returns (r: Result<seq<BatchItem>, (int, string)>)
    ensures (exists k :: 0 <= k < |reqs| && !ValidRequest(reqs[k])) ==> r.Err? && r.error.0 == 422
    ensures (forall k :: 0 <= k < |reqs| ==> ValidRequest(reqs[k])) ==>
      match FirstFailure(reqs, predictor)
      case Some(i) => r == Err((400, predictor(reqs[i].features).error))
      case None => (r.Ok? && |r.value| == |reqs|
        && forall k :: 0 <= k < |reqs| ==> r.value[k] == ItemOf(reqs[k], predictor(reqs[k].features).value))
  {
    if exists k :: 0 <= k < |reqs| && !ValidRequest(reqs[k]) {
      return Err((422, "features must hold exactly 7 values"));
    }
    var items: seq<BatchItem> := [];
    var i := 0;
    while i < |reqs|
      invariant 0 <= i <= |reqs|
      invariant forall k :: 0 <= k < i ==> predictor(reqs[k].features).Ok?
      invariant |items| == i
      invariant forall k :: 0 <= k < i ==> items[k] == ItemOf(reqs[k], predictor(reqs[k].features).value)
    {
      var result := predictor(reqs[i].features);
      if result.Err? {
        assert FirstFailure(reqs, predictor) == Some(i) by {
          FirstFailureAt(reqs, predictor, i);
        }
        return Err((400, result.error));
      }
      items := items + [ItemOf(reqs[i], result.value)];
      i := i + 1;
    }
    r := Ok(items);
  }

  /** The first failure is the failing request with every earlier one passing. */
  lemma {:induction false} FirstFailureAt(reqs: seq<PredictionRequest>, predictor: seq<real> -> Result<ModelResult, string>, i: nat)
    requires i < |reqs| && predictor(reqs[i].features).Err?
    requires forall k :: 0 <= k < i ==> predictor(reqs[k].features).Ok?
    ensures FirstFailure(reqs, predictor) == Some(i)
  {
    if i > 0 {
      FirstFailureAt(reqs[1..], predictor, i - 1);
    }
  }

  /** The cache is keyed by features alone: a second request with the same
      features within five minutes receives the first request's match context. */
  lemma CacheIgnoresContext(first: PredictionRequest, second: PredictionRequest, m: ModelResult, t: real, now: real)
    requires second.features == first.features && second.matchContext != first.matchContext
    requires now - t < CacheSeconds
    ensures var stored := (StoredResponse(Respond(first, m), false), t);
      Fresh(stored, now) && stored.0.(cached := true).response.matchContext != second.matchContext
  {
  }
}
