// The API's client for the ML service: a retrying fetch with a growing
// pause between attempts, and rule-based answers when every attempt fails.

module MlPredictionService {
  import opened Wrappers
  import opened Strings

  const DefaultRetries := 2
  const FallbackConfidence := 0.6
  const FallbackVersion := "rule-based-v1"

  /** What the service answered with: the JSON body is passed on as it is. */
  datatype PredictionResponse = PredictionResponse(
    prediction: string,
    confidence: real,
    probabilities: Option<(real, real, real)>,
    modelVersion: Option<string>)

  /** One attempt of the fetch: a parsed ok answer, a non-ok status, or a
      thrown error (network failure, abort, unparsable body) with its message. */
  datatype Attempt = Answered(data: PredictionResponse) | BadStatus(status: int) | Threw(message: string)

  function ErrorOf(a: Attempt): string {
    match a
    case Answered(_) => ""
    case BadStatus(s) => "ML service returned " + IntToString(s)
    case Threw(m) => m
  }

  /** The message thrown once the attempts run out; `lastError?.message`
      reads `undefined` when no attempt was made. */
  function Exhausted(retries: int, last: Option<string>): string {
    "ML service unavailable after " + IntToString(retries) + " retries: " + (if last.Some? then last.value else "undefined")
  }

  /** `safeFetch` from attempt `i` on, with the error of the latest failed attempt. */
  function Fetch(attempt: nat -> Attempt, i: nat, retries: int, last: Option<string>): Result<PredictionResponse, string>
    decreases retries - i
  {
    if i >= retries then Err(Exhausted(retries, last))
    else if attempt(i).Answered? then Ok(attempt(i).data)
    else Fetch(attempt, i + 1, retries, Some(ErrorOf(attempt(i))))
  }

  function AttemptsMade(attempt: nat -> Attempt, i: nat, retries: int): nat
    decreases retries - i
  {
    if i >= retries then i
    else if attempt(i).Answered? then i + 1
    else AttemptsMade(attempt, i + 1, retries)
  }

  /** `safeFetch`: also returns the attempts made and the total pause,
      `3000 * (i + 1)` after each failed attempt `i` but the last allowed one. */
  method SafeFetch(attempt: nat -> Attempt, retries: int)
    returns (r: Result<PredictionResponse, string>, attempts: nat, waited: nat)
    ensures r == Fetch(attempt, 0, retries, None)
    ensures attempts == AttemptsMade(attempt, 0, retries)
    ensures r.Ok? ==> waited == 1500 * (attempts - 1) * attempts
    ensures r.Err? && retries > 0 ==> waited == 1500 * (retries - 1) * retries
  {
    var i: nat := 0;
    var last: Option<string> := None;
    waited := 0;
    while i < retries
      invariant retries > 0 ==> i <= retries
      invariant retries <= 0 ==> i == 0
      invariant Fetch(attempt, 0, retries, None) == Fetch(attempt, i, retries, last)
      invariant AttemptsMade(attempt, 0, retries) == AttemptsMade(attempt, i, retries)
      invariant waited == (if i < retries then TotalPause(i + 1) else TotalPause(i))
      decreases retries - i
    {
      var a := attempt(i);
      if a.Answered? {
        return Ok(a.data), i + 1, waited;
      }
      last := Some(ErrorOf(a));
      if i < retries - 1 {
        PauseStep(i + 1);
        waited := waited + 3000 * (i + 1);
      }
      i := i + 1;
    }
    r := Err(Exhausted(retries, last));
    attempts := i;
  }

  /** The pauses after `n` attempts, each but the last followed by one. */
  function TotalPause(n: int): int {
    1500 * (n - 1) * n
  }

  lemma PauseStep(n: int)
    ensures TotalPause(n + 1) == TotalPause(n) + 3000 * n
  {
    assert (n + 1) * n - (n - 1) * n == 2 * n;
  }

  /** The fetch succeeds iff one of the allowed attempts is answered. */
  lemma {:induction false} FetchSucceedsIff(attempt: nat -> Attempt, i: nat, retries: int, last: Option<string>)
    ensures Fetch(attempt, i, retries, last).Ok? <==> exists k: nat :: i <= k < retries && attempt(k).Answered?
    decreases retries - i
  {
    if i < retries && !attempt(i).Answered? {
      FetchSucceedsIff(attempt, i + 1, retries, Some(ErrorOf(attempt(i))));
      assert forall k: nat :: i <= k < retries && attempt(k).Answered? ==> i + 1 <= k;
    }
  }

  /** A successful fetch returns the first answer, after failures only. */
  lemma {:induction false} FetchFirstAnswer(attempt: nat -> Attempt, i: nat, retries: int, last: Option<string>)
    requires Fetch(attempt, i, retries, last).Ok?
    ensures i < AttemptsMade(attempt, i, retries) <= retries
    ensures attempt(AttemptsMade(attempt, i, retries) - 1).Answered?
    ensures Fetch(attempt, i, retries, last) == Ok(attempt(AttemptsMade(attempt, i, retries) - 1).data)
    ensures forall k: nat :: i <= k < AttemptsMade(attempt, i, retries) - 1 ==> !attempt(k).Answered?
    decreases retries - i
  {
    if !attempt(i).Answered? {
      FetchFirstAnswer(attempt, i + 1, retries, Some(ErrorOf(attempt(i))));
    }
  }

  /** When every allowed attempt fails, the error names the last failure
      and all attempts were made. */
  lemma {:induction false} FetchExhausted(attempt: nat -> Attempt, i: nat, retries: int, last: Option<string>)
    requires i < retries && forall k: nat :: i <= k < retries ==> !attempt(k).Answered?
    ensures Fetch(attempt, i, retries, last) == Err(Exhausted(retries, Some(ErrorOf(attempt(retries - 1)))))
    ensures AttemptsMade(attempt, i, retries) == retries
    decreases retries - i
  {
    if i < retries - 1 {
      FetchExhausted(attempt, i + 1, retries, Some(ErrorOf(attempt(i))));
    }
  }

  /** A non-ok status is a failed attempt like a thrown error. */
  lemma BadStatusIsFailure(attempt: nat -> Attempt, i: nat, retries: int, last: Option<string>)
    requires i < retries && attempt(i).BadStatus?
    ensures Fetch(attempt, i, retries, last) == Fetch(attempt, i + 1, retries, Some("ML service returned " + IntToString(attempt(i).status)))
  {
  }

  /** `features[0] > features[1]`; a missing entry compares as false. */
  predicate HomeAhead(features: seq<real>) {
    |features| >= 2 && features[0] > features[1]
  }

  function Fallback(features: seq<real>): (r: PredictionResponse)
    ensures r.prediction == (if HomeAhead(features) then "home" else "away")
    ensures r.confidence == FallbackConfidence && r.modelVersion == Some(FallbackVersion) && r.probabilities.None?
  {
    PredictionResponse(if HomeAhead(features) then "home" else "away", FallbackConfidence, None, Some(FallbackVersion))
  }

  /** `predictMatch`, given what `safeFetch` settled to: it never fails. */
  function PredictMatch(features: seq<real>, fetched: Result<PredictionResponse, string>): (r: PredictionResponse)
    ensures fetched.Ok? ==> r == fetched.value
    ensures fetched.Err? ==> r == Fallback(features)
  {
    if fetched.Ok? then fetched.value else Fallback(features)
  }

  /** `batchPredict`: on failure, one rule-based answer per request, in order. */
  function BatchPredict(requests: seq<seq<real>>, fetched: Result<seq<PredictionResponse>, string>): (r: seq<PredictionResponse>)
    ensures fetched.Ok? ==> r == fetched.value
    ensures fetched.Err? ==> |r| == |requests| && forall i :: 0 <= i < |requests| ==> r[i] == Fallback(requests[i])
  {
    if fetched.Ok? then fetched.value else FallbackAll(requests)
  }

  function FallbackAll(requests: seq<seq<real>>): (r: seq<PredictionResponse>)
    ensures |r| == |requests| && forall i :: 0 <= i < |requests| ==> r[i] == Fallback(requests[i])
  {
    if requests == [] then [] else [Fallback(requests[0])] + FallbackAll(requests[1..])
  }

  /** A tie, or a home value below the away value, predicts away. */
  lemma TieGoesAway(features: seq<real>)
    requires |features| >= 2 && features[0] <= features[1]
    ensures Fallback(features).prediction == "away"
  {
  }
}
