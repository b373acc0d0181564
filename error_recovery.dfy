// The automatic error-recovery service: five recovery strategies picked by
// pattern, and a retry ledger per error key that stops a key after three
// failed recoveries.

module ErrorRecovery {
  import opened Wrappers
  import opened Strings

  const MaxRetries := 3
  const KeyLength := 50

  datatype Priority = Low | Medium | High | Critical

  /** A pattern of the form `/a.*b|c.*d/i`: a list of alternatives, each a
      list of lower-case words that must appear in that order, with no line
      break between two of them (`.` does not match one). */
  datatype Strategy = Strategy(pattern: seq<seq<string>>, priority: Priority, description: string)

  /** What running a strategy's recovery did. */
  datatype RecoveryOutcome = Recovered | NotRecovered | Threw

  const Strategies: seq<Strategy> := [
    Strategy([["fetch", "failed"], ["network", "error"]], High, "Network reconnection"),
    Strategy([["mongodb", "connection"], ["database", "error"]], Critical, "Database reconnection"),
    Strategy([["quota", "exceeded"], ["storage", "full"]], Medium, "Cache cleanup"),
    Strategy([["ml", "service", "unavailable"], ["prediction", "failed"]], Medium, "ML service fallback"),
    Strategy([["chunk", "failed"], ["dynamic", "import", "error"]], High, "Code chunk recovery")]

  predicate IsLineTerminator(c: char) {
    c == '\n' || c == '\r' || c == '\U{2028}' || c == '\U{2029}'
  }

  predicate NoLineBreak(s: string) {
    forall i :: 0 <= i < |s| ==> !IsLineTerminator(s[i])
  }

  /** The remaining words follow in order, each after a gap without a line break. */
  predicate Follows(s: string, words: seq<string>)
    decreases |words|
  {
    words == [] ||
    exists j | 0 <= j <= |s| - |words[0]| ::
      NoLineBreak(s[..j]) && words[0] <= s[j..] && Follows(s[j + |words[0]|..], words[1..])
  }

  /** One alternative matches somewhere in the text. */
  predicate MatchesWords(s: string, words: seq<string>) {
    words == [] ||
    exists i | 0 <= i <= |s| - |words[0]| :: words[0] <= s[i..] && Follows(s[i + |words[0]|..], words[1..])
  }

  /** `pattern.test(message)`, case-insensitively. */
  predicate Test(pattern: seq<seq<string>>, message: string) {
    exists a | 0 <= a < |pattern| :: MatchesWords(ToLower(message), pattern[a])
  }

  /** `strategies.find(s => s.errorPattern.test(message))`, as an index. */
  function FindStrategy(strategies: seq<Strategy>, message: string): (r: Option<nat>)
    ensures r.Some? ==>
      r.value < |strategies| && Test(strategies[r.value].pattern, message)
      && forall k :: 0 <= k < r.value ==> !Test(strategies[k].pattern, message)
    ensures r.None? <==> forall k :: 0 <= k < |strategies| ==> !Test(strategies[k].pattern, message)
  {
    if strategies == [] then None
    else if Test(strategies[0].pattern, message) then Some(0)
    else
      var r := FindStrategy(strategies[1..], message);
      if r.Some? then Some(r.value + 1) else None
  }

  /** `error.message || String(error)`. */
  function ErrorText(message: string, asString: string): string {
    if message != "" then message else asString
  }

  /** `errorMessage.slice(0, 50)`. */
  function ErrorKey(text: string): (k: string)
    ensures |k| <= KeyLength && k <= text
    ensures |text| <= KeyLength ==> k == text
  {
    if |text| <= KeyLength then text else text[..KeyLength]
  }

  /** Two messages that share their first 50 characters share a ledger entry. */
  lemma SharedPrefixSharesKey(a: string, b: string)
    requires |a| >= KeyLength && |b| >= KeyLength && a[..KeyLength] == b[..KeyLength]
    ensures ErrorKey(a) == ErrorKey(b)
  {
  }

  /** `Map.set` keeps an existing key's place and appends a new one. */
  function PutKey(order: seq<string>, k: string): (r: seq<string>)
    ensures forall x :: x in r <==> x in order || x == k
  {
    if k in order then order else order + [k]
  }

  /** `Map.delete` on the key list. */
  function RemoveKey(order: seq<string>, k: string): (r: seq<string>)
    ensures forall x :: x in r <==> x in order && x != k
  {
    if order == [] then []
    else (if order[0] == k then [] else [order[0]]) + RemoveKey(order[1..], k)
  }

  datatype Available = Available(description: string, priority: Priority)

  datatype RecoveryStatus = RecoveryStatus(
    activeStrategies: nat,
    recentRecoveries: seq<(string, nat)>,
    availableRecoveries: seq<Available>)

  function AvailableOf(strategies: seq<Strategy>): (r: seq<Available>)
    ensures |r| == |strategies|
    ensures forall i :: 0 <= i < |r| ==>
      r[i] == Available(strategies[i].description, strategies[i].priority)
  {
    if strategies == [] then []
    else [Available(strategies[0].description, strategies[0].priority)] + AvailableOf(strategies[1..])
  }

  function Entries(order: seq<string>, history: map<string, nat>): (r: seq<(string, nat)>)
    ensures (forall k :: k in order ==> k in history) ==>
      |r| == |order| && forall i :: 0 <= i < |r| ==> r[i] == (order[i], history[order[i]])
  {
    if order == [] then []
    else (if order[0] in history then [(order[0], history[order[0]])] else []) + Entries(order[1..], history)
  }

  class Service {
    const strategies: seq<Strategy>
    var history: map<string, nat>
    var order: seq<string>

    /** The ledger lists each key once and never records more than three retries. */
    ghost predicate Valid()
      reads this
    {
      (forall k :: k in history <==> k in order)
      && (forall k :: k in history ==> history[k] <= MaxRetries)
    }

    constructor()
      ensures Valid() && strategies == Strategies && history == map[] && order == []
    {
      strategies := Strategies;
      history, order := map[], [];
    }

    /** `recoveryHistory.get(key) || 0`. */
    function Retries(key: string): nat
      reads this
    {
      if key in history then history[key] else 0
    }

    /** `attemptRecovery`: `run(i)` is what the `i`-th strategy's recovery
        does when it is run. */
    method AttemptRecovery(message: string, asString: string, run: nat -> RecoveryOutcome) returns (ok: bool)
      requires Valid()
      modifies this
      ensures Valid()
      ensures var text := ErrorText(message, asString);
        var key := ErrorKey(text);
        var found := FindStrategy(strategies, text);
        (old(Retries(key)) >= MaxRetries || found.None? ==>
          !ok && history == old(history) && order == old(order))
        && (old(Retries(key)) < MaxRetries && found.Some? && run(found.value) == Recovered ==>
          ok && history == old(history) - {key} && order == RemoveKey(old(order), key))
        && (old(Retries(key)) < MaxRetries && found.Some? && run(found.value) != Recovered ==>
          !ok && history == old(history)[key := old(Retries(key)) + 1] && order == PutKey(old(order), key))
    {
      var text := ErrorText(message, asString);
      var key := ErrorKey(text);
      var retries := Retries(key);
      if retries >= MaxRetries {
        return false;
      }
      var found := FindStrategy(strategies, text);
      if found.None? {
        return false;
      }
      var outcome := run(found.value);
      if outcome == Recovered {
        history := history - {key};
        order := RemoveKey(order, key);
        ok := true;
      } else {
        history := history[key := retries + 1];
        order := PutKey(order, key);
        ok := false;
      }
    }

    /** `getRecoveryStatus`. */
    function GetRecoveryStatus(): (r: RecoveryStatus)
      requires Valid()
      reads this
      ensures r.activeStrategies == |strategies|
      ensures |r.recentRecoveries| == |order|
      ensures forall i :: 0 <= i < |order| ==> r.recentRecoveries[i] == (order[i], history[order[i]])
      ensures |r.availableRecoveries| == |strategies|
      ensures forall i :: 0 <= i < |strategies| ==>
        r.availableRecoveries[i] == Available(strategies[i].description, strategies[i].priority)
    {
      RecoveryStatus(|strategies|, Entries(order, history), AvailableOf(strategies))
    }
  }

  lemma LowerNetworkError(message: string)
    requires message == "Network error"
    ensures ToLower(message) == "network error"
  {
    var s := ToLower(message);
    forall i | 0 <= i < |s| ensures s[i] == "network error"[i] {
    }
  }

  lemma NetworkErrorMatches(s: string)
    requires s == "network error"
    ensures MatchesWords(s, ["network", "error"])
  {
    var rest := s[7..];
    assert "network" <= s[0..];
    assert rest[..1] == " " && NoLineBreak(rest[..1]);
    assert rest[1..] == "error" && "error" <= rest[1..];
    assert Follows(rest[1 + 5..], []);
    assert Follows(rest, ["error"]);
  }

  /** A network error message is claimed by the first strategy. */
  lemma NetworkErrorPicksFirst(message: string)
    requires message == "Network error"
    ensures FindStrategy(Strategies, message) == Some(0)
  {
    LowerNetworkError(message);
    NetworkErrorMatches(ToLower(message));
    var pattern := Strategies[0].pattern;
    assert pattern[1] == ["network", "error"];
    assert MatchesWords(ToLower(message), pattern[1]);
  }
}
