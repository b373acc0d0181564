// The browser-side health monitor: one record per watched service, an
// exponential backoff that doubles on every failure and resets on success,
// and an "unhealthy" event raised when a failure streak reaches five.

module HealthMonitor {
  import opened Wrappers

  const MaxFailures := 5
  const BaseBackoff := 5000
  const MaxBackoff := 60000

  datatype ServiceHealth = ServiceHealth(
    name: string,
    url: string,
    healthy: bool,
    lastCheck: int,
    failureCount: nat,
    backoffDelay: int,
    lastSuccessfulCheck: Option<int>)

  /** What the fetch did: answered with `response.ok`, or threw (a network
      error or the 8-second abort). */
  datatype Probe = Responded(ok: bool) | Threw

  predicate Succeeded(p: Probe) {
    p.Responded? && p.ok
  }

  predicate BackoffInRange(b: int) {
    BaseBackoff <= b <= MaxBackoff
  }

  function Min(a: int, b: int): int {
    if a < b then a else b
  }

  /** `Math.min(maxBackoffDelay, backoffDelay * 2)`. */
  function Doubled(b: int): (d: int)
    ensures BackoffInRange(b) ==> BackoffInRange(d)
    ensures d <= MaxBackoff && (2 * b <= MaxBackoff ==> d == 2 * b)
  {
    Min(MaxBackoff, b * 2)
  }

  /** A check inside the backoff window after a failure answers from the
      record. */
  predicate InBackoff(s: ServiceHealth, now: int) {
    now - s.lastCheck < s.backoffDelay && s.failureCount > 0
  }

  /** The record after a check that reached the network, stamped at `now`,
      the clock read after the fetch. */
  function Checked(s: ServiceHealth, p: Probe, now: int): (t: ServiceHealth)
    ensures t.healthy <==> Succeeded(p)
    ensures t.lastCheck == now
    ensures Succeeded(p) ==> t.failureCount == 0 && t.backoffDelay == BaseBackoff && t.lastSuccessfulCheck == Some(now)
    ensures !Succeeded(p) ==>
      t.failureCount == s.failureCount + 1 && t.backoffDelay == Doubled(s.backoffDelay)
      && t.lastSuccessfulCheck == s.lastSuccessfulCheck
    ensures BackoffInRange(s.backoffDelay) ==> BackoffInRange(t.backoffDelay)
    ensures t.name == s.name && t.url == s.url
  {
    if Succeeded(p) then
      s.(healthy := true, lastCheck := now, failureCount := 0, backoffDelay := BaseBackoff, lastSuccessfulCheck := Some(now))
    else
      s.(healthy := false, lastCheck := now, failureCount := s.failureCount + 1, backoffDelay := Doubled(s.backoffDelay))
  }

  /** `failureCount >= maxFailures && failureCount === maxFailures`. */
  predicate Fires(t: ServiceHealth) {
    t.failureCount >= MaxFailures && t.failureCount == MaxFailures
  }

  /** `k` failed checks in a row. */
  function Failures(s: ServiceHealth, k: nat, now: int): (t: ServiceHealth)
    ensures t.failureCount == s.failureCount + k
  {
    if k == 0 then s else Checked(Failures(s, k - 1, now), Threw, now)
  }

  /** How many of those checks raise the event. */
  function EventsIn(s: ServiceHealth, k: nat, now: int): nat {
    if k == 0 then 0 else EventsIn(s, k - 1, now) + (if Fires(Failures(s, k, now)) then 1 else 0)
  }

  /** A failure streak starting from a healthy record raises the event
      exactly once when it is at least five long, and never otherwise. */
  lemma {:induction false} OneEventPerStreak(s: ServiceHealth, k: nat, now: int)
    requires s.failureCount == 0
    ensures EventsIn(s, k, now) == (if k >= MaxFailures then 1 else 0)
  {
    if k > 0 {
      OneEventPerStreak(s, k - 1, now);
    }
  }

  /** Doubling from the base reaches the cap after four failures and stays there. */
  lemma {:induction false} BackoffAfterFailures(s: ServiceHealth, k: nat, now: int)
    requires s.backoffDelay == BaseBackoff
    ensures Failures(s, k, now).backoffDelay == (if k >= 4 then MaxBackoff else BaseBackoff * Pow2(k))
  {
    if k > 0 {
      BackoffAfterFailures(s, k - 1, now);
    }
  }

  function Pow2(k: nat): nat {
    if k == 0 then 1 else 2 * Pow2(k - 1)
  }

  function Fresh(name: string, url: string, now: int): ServiceHealth {
    ServiceHealth(name, url, true, now, 0, BaseBackoff, Some(now))
  }

  function AllOk(order: seq<string>, services: map<string, ServiceHealth>): bool
  {
    forall i :: 0 <= i < |order| && order[i] in services ==>
      services[order[i]].healthy || services[order[i]].failureCount < MaxFailures
  }

  class Monitor {
    var services: map<string, ServiceHealth>
    var order: seq<string>
    var isMonitoring: bool
    const hasWindow: bool
    /** The `service-unhealthy` events dispatched, by service name. */
    var events: seq<string>

    ghost predicate Valid()
      reads this
    {
      (forall k :: k in services <==> k in order)
      && (forall k :: k in services ==> BackoffInRange(services[k].backoffDelay))
    }

    /** Outside a browser no service is registered. */
    constructor(hasWindow: bool, origin: string, now: int)
      ensures Valid() && this.hasWindow == hasWindow && !isMonitoring && events == []
      ensures hasWindow ==>
        order == ["api", "predictions"]
        && services == map["api" := Fresh("Backend API", origin + "/api/health/keys", now),
                           "predictions" := Fresh("Predictions Service", origin + "/api/predictions", now)]
      ensures !hasWindow ==> order == [] && services == map[]
    {
      this.hasWindow := hasWindow;
      isMonitoring := false;
      events := [];
      if hasWindow {
        services := map["api" := Fresh("Backend API", origin + "/api/health/keys", now),
                        "predictions" := Fresh("Predictions Service", origin + "/api/predictions", now)];
        order := ["api", "predictions"];
      } else {
        services, order := map[], [];
      }
    }

    /** `checkHealth`; `probe` is what the fetch would do if made. */
    /** `now` is the reading the backoff test uses, before the fetch;
        `checkedAt` is the later `new Date()` the record is stamped with. */
    method CheckHealth(name: string, now: int, checkedAt: int, probe: Probe) returns (healthy: bool)
      requires Valid()
      modifies this
      ensures Valid()
      ensures order == old(order) && isMonitoring == old(isMonitoring)
      ensures name !in old(services) ==> !healthy && services == old(services) && events == old(events)
      ensures name in old(services) && InBackoff(old(services)[name], now) ==>
        healthy == old(services)[name].healthy && services == old(services) && events == old(events)
      ensures name in old(services) && !InBackoff(old(services)[name], now) ==>
        var t := Checked(old(services)[name], probe, checkedAt);
        healthy == Succeeded(probe) && services == old(services)[name := t]
        && events == old(events) + (if Fires(t) && hasWindow then [name] else [])
    {
      if name !in services {
        return false;
      }
      var s := services[name];
      if now - s.lastCheck < s.backoffDelay && s.failureCount > 0 {
        return s.healthy;
      }
      var t := Checked(s, probe, checkedAt);
      services := services[name := t];
      if t.failureCount >= MaxFailures && t.failureCount == MaxFailures && hasWindow {
        events := events + [name];
      }
      healthy := Succeeded(probe);
    }

    /** `startMonitoring`: only the flag is modelled; the timers it starts
        are not. */
    method StartMonitoring()
      modifies this
      ensures services == old(services) && order == old(order) && events == old(events)
      ensures old(isMonitoring) || !hasWindow ==> isMonitoring == old(isMonitoring)
      ensures !old(isMonitoring) && hasWindow ==> isMonitoring
    {
      if isMonitoring || !hasWindow {
        return;
      }
      isMonitoring := true;
    }

    method StopMonitoring()
      modifies this
      ensures !isMonitoring
      ensures services == old(services) && order == old(order) && events == old(events)
    {
      isMonitoring := false;
    }

    /** `isHealthy`: no service is both down and past five failures. */
    function IsHealthy(): (ok: bool)
      requires Valid()
      reads this
      ensures ok <==> forall k :: k in services ==> services[k].healthy || services[k].failureCount < MaxFailures
    {
      assert forall k :: k in services ==> exists i :: 0 <= i < |order| && order[i] == k;
      AllOk(order, services)
    }

    /** `getServiceStatus`. */
    function GetServiceStatus(name: string): (r: Option<ServiceHealth>)
      reads this
      ensures r.Some? <==> name in services
      ensures r.Some? ==> r.value == services[name]
    {
      if name in services then Some(services[name]) else None
    }

    /** `getAllStatuses`: the records in registration order. */
    function GetAllStatuses(): (r: seq<ServiceHealth>)
      requires Valid()
      reads this
      ensures |r| == |order|
      ensures forall i :: 0 <= i < |order| ==> r[i] == services[order[i]]
      ensures forall k :: k in services ==> services[k] in r
    {
      var r := seq(|order|, i requires 0 <= i < |order| && Valid() reads this => services[order[i]]);
      assert forall k :: k in services ==> exists i :: 0 <= i < |order| && order[i] == k;
      r
    }
  }

  /** One success clears a failure streak, so the monitor reads healthy again. */
  lemma SuccessRestores(s: ServiceHealth, k: nat, now: int, later: int)
    ensures var t := Checked(Failures(s, k, now), Responded(true), later);
      t.healthy && t.failureCount == 0 && t.backoffDelay == BaseBackoff && !InBackoff(t, later)
  {
  }
}
