// The mobile detector: one classification of the device as mobile, tablet
// or desktop from the window width and the user agent, cached until
// a resize or orientation change recomputes it and tells every listener.

module MobileDetection {
  import opened Wrappers
  import opened Strings

  const MobileBelow := 768
  const TabletBelow := 1024
  const ServerWidth := 1920

  /** The words of `/Android|webOS|iPhone|iPod|BlackBerry|IEMobile|Opera Mini/i`, lower-cased. */
  const MobileWords: seq<string> := ["android", "webos", "iphone", "ipod", "blackberry", "iemobile", "opera mini"]

  /** The mobile user-agent test: one of the words occurs, ignoring case. */
  predicate MobileAgent(userAgent: string) {
    exists k :: 0 <= k < |MobileWords| && Contains(ToLower(userAgent), MobileWords[k])
  }

  /** `/iPad|Android(?!.*Mobile)/i`: "ipad" occurs, or an "android" with no
      "mobile" anywhere after it. */
  predicate TabletAgent(userAgent: string) {
    var l := ToLower(userAgent);
    Contains(l, "ipad") || exists i | 0 <= i <= |l| - 7 :: "android" <= l[i..] && !Contains(l[i + 7..], "mobile")
  }

  datatype DeviceType = Mobile | Tablet | Desktop

  datatype Detection = Detection(
    isMobile: bool, isTablet: bool, isDesktop: bool, isMobileWidth: bool, isMobileDevice: bool,
    isPWA: bool, deviceType: DeviceType, screenWidth: int, userAgent: string)

  /** What the detector can observe: nothing on the server, or the window's
      width, the user agent and the three standalone-app signals. */
  datatype Environment =
    | NoWindow
    | Window(width: int, userAgent: string, standaloneDisplay: bool, navigatorStandalone: bool, referrer: string)

  /** The server-side answer. */
  const ServerDetection := Detection(false, false, true, false, false, false, Desktop, ServerWidth, "")

  /** `detect()`. */
  function Detect(env: Environment): (r: Detection)
    ensures env.NoWindow? ==> r.isDesktop && r.deviceType == Desktop && r.screenWidth == ServerWidth && !r.isPWA
    ensures r.isDesktop <==> !r.isMobile && !r.isTablet
    ensures r.deviceType == Mobile <==> r.isMobile
    ensures r.deviceType == Tablet <==> r.isTablet && !r.isMobile
    ensures r.deviceType == Desktop <==> r.isDesktop
    ensures env.Window? ==> r.screenWidth == env.width && r.userAgent == env.userAgent
    ensures env.Window? ==> (r.isMobileWidth <==> env.width < MobileBelow)
    ensures env.Window? && env.width < MobileBelow ==> r.isMobile
    ensures r.isMobileDevice ==> env.Window? && MobileAgent(env.userAgent) && !TabletAgent(env.userAgent)
    ensures env.Window? ==>
      (r.isPWA <==> env.standaloneDisplay || env.navigatorStandalone || Contains(env.referrer, "android-app://"))
  {
    match env
    case NoWindow => ServerDetection
    case Window(width, userAgent, standaloneDisplay, navigatorStandalone, referrer) =>
      var mobileAgent := MobileAgent(userAgent);
      var tabletAgent := TabletAgent(userAgent);
      var mobileWidth := width < MobileBelow;
      var tabletWidth := MobileBelow <= width < TabletBelow;
      var mobileDevice := mobileAgent && !tabletAgent;
      var isTablet := tabletAgent || (tabletWidth && !mobileAgent);
      var isMobile := mobileWidth || mobileDevice;
      var isDesktop := !isMobile && !isTablet;
      var isPWA := standaloneDisplay || navigatorStandalone || Contains(referrer, "android-app://");
      var deviceType := if isMobile then Mobile else if isTablet then Tablet else Desktop;
      Detection(isMobile, isTablet, isDesktop, mobileWidth, mobileDevice, isPWA, deviceType, width, userAgent)
  }

  /** A tablet's user agent on a screen of tablet width or more is a tablet. */
  lemma TabletAgentIsTablet(env: Environment)
    requires env.Window? && TabletAgent(env.userAgent) && env.width >= MobileBelow
    ensures Detect(env).deviceType == Tablet
  {
  }

  /** For a user agent that names no device, the width alone decides. */
  lemma WidthDecidesPlainAgents(env: Environment)
    requires env.Window? && !MobileAgent(env.userAgent) && !TabletAgent(env.userAgent)
    ensures Detect(env).deviceType == Mobile <==> env.width < MobileBelow
    ensures Detect(env).deviceType == Tablet <==> MobileBelow <= env.width < TabletBelow
    ensures Detect(env).deviceType == Desktop <==> env.width >= TabletBelow
  {
  }

  /** A phone's user agent makes a mobile at any width. */
  lemma PhoneAgentIsMobile(env: Environment)
    requires env.Window? && MobileAgent(env.userAgent) && !TabletAgent(env.userAgent)
    ensures Detect(env).deviceType == Mobile
  {
  }

  /** The detector; `C` identifies a listener callback. */
  class Detector<C(==)> {
    /** The listener set, in insertion order. */
    var listeners: seq<C>
    var lastResult: Option<Detection>

    predicate Valid()
      reads this
    {
      forall i, j :: 0 <= i < j < |listeners| ==> listeners[i] != listeners[j]
    }

    constructor()
      ensures listeners == [] && lastResult.None? && Valid()
    {
      listeners, lastResult := [], None;
    }

    /** The `current` getter: the cached answer, detected on first use. */
    method Current(env: Environment) returns (r: Detection)
      modifies this
      ensures old(lastResult).Some? ==> r == old(lastResult).value
      ensures old(lastResult).None? ==> r == Detect(env)
      ensures lastResult == Some(r) && listeners == old(listeners)
    {
      if lastResult.None? {
        lastResult := Some(Detect(env));
      }
      r := lastResult.value;
    }

    /** `subscribe`: the callback joins the set and is called at once with
        the current answer, which is returned here. */
    method Subscribe(callback: C, env: Environment) returns (r: Detection)
      requires Valid()
      modifies this
      ensures Valid() && callback in listeners
      ensures listeners == if callback in old(listeners) then old(listeners) else old(listeners) + [callback]
      ensures old(lastResult).Some? ==> r == old(lastResult).value
      ensures old(lastResult).None? ==> r == Detect(env)
      ensures lastResult == Some(r)
    {
      if callback !in listeners {
        listeners := listeners + [callback];
      }
      r := Current(env);
    }

    /** The function `subscribe` returns: the callback leaves the set. */
    method Unsubscribe(callback: C)
      requires Valid()
      modifies this
      ensures Valid() && callback !in listeners
      ensures forall c :: c in listeners <==> c in old(listeners) && c != callback
      ensures lastResult == old(lastResult)
    {
      var kept: seq<C> := [];
      var i := 0;
      while i < |listeners|
        invariant 0 <= i <= |listeners|
        invariant forall c :: c in kept <==> c in listeners[..i] && c != callback
        invariant forall a, b :: 0 <= a < b < |kept| ==> kept[a] != kept[b]
      {
        if listeners[i] != callback {
          assert listeners[i] !in kept by {
            assert forall k :: 0 <= k < i ==> listeners[k] != listeners[i];
          }
          kept := kept + [listeners[i]];
        }
        assert listeners[..i + 1] == listeners[..i] + [listeners[i]];
        i := i + 1;
      }
      assert listeners[..i] == listeners;
      listeners := kept;
    }

    /** `notify` (and `refresh`): detect again and call every listener, in
        order, with the new answer; the calls made are returned. */
    method Notify(env: Environment) returns (calls: seq<(C, Detection)>)
      modifies this
      ensures lastResult == Some(Detect(env)) && listeners == old(listeners)
      ensures |calls| == |listeners|
      ensures forall i :: 0 <= i < |calls| ==> calls[i] == (listeners[i], Detect(env))
    {
      var r := Detect(env);
      lastResult := Some(r);
      calls := [];
      var i := 0;
      while i < |listeners|
        invariant 0 <= i <= |listeners|
        invariant |calls| == i
        invariant forall k :: 0 <= k < i ==> calls[k] == (listeners[k], r)
      {
        calls := calls + [(listeners[i], r)];
        i := i + 1;
      }
    }
  }
}
