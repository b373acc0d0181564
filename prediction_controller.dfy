// The API's prediction controller: the ML prediction route with its input
// check and rule-based fallback, and the batch route.

module PredictionController {
  import opened Wrappers
  import MlApi
  import MlPredictionService

  const MinFeatures := 7

  /** The fields of the ML service's JSON answer the route passes on. */
  datatype MlData = MlData(prediction: string, confidence: real, probabilities: map<string, real>, modelVersion: string)

  datatype Source = Ml | Fallback

  datatype PredictionData = PredictionData(
    prediction: string,
    confidence: real,
    probabilities: map<string, real>,
    modelVersion: string,
    source: Source)

  datatype Reply = Sent(data: PredictionData) | Refused(status: int, error: string)

  /** The rule-based answer: the side with the larger first feature, at 60%,
      with 55/20/25 in its favour. */
  function FallbackData(features: seq<real>): (d: PredictionData)
    ensures d.prediction == (if MlPredictionService.HomeAhead(features) then "home" else "away")
    ensures d.confidence == 60.0 && d.modelVersion == "rule-based-v1" && d.source == Fallback
    ensures d.probabilities.Keys == {"home", "draw", "away"}
    ensures d.probabilities["home"] + d.probabilities["draw"] + d.probabilities["away"] == 100.0
    ensures d.probabilities["draw"] == 20.0
    ensures d.probabilities[d.prediction] == 55.0
  {
    var ahead := MlPredictionService.HomeAhead(features);
    PredictionData(if ahead then "home" else "away", 60.0,
                   map["home" := (if ahead then 55.0 else 25.0), "draw" := 20.0, "away" := (if ahead then 25.0 else 55.0)],
                   "rule-based-v1", Fallback)
  }

  /** `mlPredict`: `ml` is the service's answer, `None` when it was not ok or
      the call threw. Fewer than seven features is a 400 before any call. */
  function MlPredict(features: Option<seq<real>>, ml: Option<MlData>): (r: Reply)
    ensures features.None? || |features.value| < MinFeatures ==> r == Refused(400, "At least 7 features required")
    ensures features.Some? && |features.value| >= MinFeatures && ml.Some? ==>
      r == Sent(PredictionData(ml.value.prediction, ml.value.confidence, ml.value.probabilities, ml.value.modelVersion, Ml))
    ensures features.Some? && |features.value| >= MinFeatures && ml.None? ==> r == Sent(FallbackData(features.value))
  {
    if features.None? || |features.value| < MinFeatures then Refused(400, "At least 7 features required")
    else if ml.Some? then
      Sent(PredictionData(ml.value.prediction, ml.value.confidence, ml.value.probabilities, ml.value.modelVersion, Ml))
    else Sent(FallbackData(features.value))
  }

  /** `batchPredict`: the service's answer as it is, or a 500. */
  function BatchPredict<T>(ml: Option<T>): (r: Result<T, (int, string)>)
    ensures ml.Some? ==> r == Ok(ml.value)
    ensures ml.None? ==> r == Err((500, "Batch prediction failed"))
  {
    if ml.Some? then Ok(ml.value) else Err((500, "Batch prediction failed"))
  }

  /** What the Python service's /predict answers to this route's request,
      leaving the cache aside: it refuses anything but seven features. */
  function ServiceAnswer(features: seq<real>, context: map<string, string>,
                         predictor: seq<real> -> Result<MlApi.ModelResult, string>): Option<MlData>
  {
    var req := MlApi.PredictionRequest(features, Some(context));
    if !MlApi.ValidRequest(req) then None
    else match predictor(features)
      case Err(_) => None
      case Ok(m) =>
        var resp := MlApi.Respond(req, m);
        Some(MlData(resp.prediction, resp.confidence, resp.probabilities, resp.modelVersion))
  }

  /** The route admits more than seven features but the service refuses
      them, so such a request is always answered by the fallback. */
  lemma ExtraFeaturesFallBack(features: seq<real>, context: map<string, string>,
                              predictor: seq<real> -> Result<MlApi.ModelResult, string>)
    requires |features| > MinFeatures
    ensures MlPredict(Some(features), ServiceAnswer(features, context, predictor)) == Sent(FallbackData(features))
  {
  }

  /** With exactly seven features and a working predictor, the route passes
      the service's percentages on. */
  lemma SevenFeaturesUseModel(features: seq<real>, context: map<string, string>,
                              predictor: seq<real> -> Result<MlApi.ModelResult, string>)
    requires |features| == MinFeatures && predictor(features).Ok?
    ensures var r := MlPredict(Some(features), ServiceAnswer(features, context, predictor));
      r.Sent? && r.data.source == Ml && r.data.confidence == predictor(features).value.confidence * 100.0
  {
  }

  /** The answer of the ML status route. */
  datatype StatusReply = StatusReply(code: int, status: string, mlService: string)

  /** `mlStatus`: `health` is whether the service's health route answered
      ok, `None` when the call threw or passed its three-second timeout. */
  function MlStatus(health: Option<bool>): (r: StatusReply)
    ensures r.mlService == "online" <==> health == Some(true)
    ensures r.code == 503 <==> health.None?
    ensures health.None? ==> r.status == "error"
    ensures health.Some? ==> r.code == 200 && (r.status == "operational" <==> health.value)
  {
    match health
    case None => StatusReply(503, "error", "offline")
    case Some(ok) => StatusReply(200, if ok then "operational" else "degraded", if ok then "online" else "offline")
  }
}
