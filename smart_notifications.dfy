// The smart notifications panel: a newest-first list of at most 50
// notifications, the read/delete operations on it, and the rule deciding
// whether a notification is pushed to the browser (push switch, quiet hours
// compared as "HH:MM" strings, per-type switches).

module SmartNotifications {
  import opened Strings
  import Seqs

  const MaxKept := 50

  datatype Kind = Match | Achievement | Social | Prediction | Reminder
  datatype Priority = Low | Medium | High

  datatype Notification = Notification(
    id: string,
    kind: Kind,
    title: string,
    message: string,
    timestamp: int,
    read: bool,
    priority: Priority,
    actionUrl: string,
    icon: string)

  /** A notification as `addNotification` receives it: everything but the
      id, the time and the read flag. */
  datatype Draft = Draft(kind: Kind, title: string, message: string, priority: Priority, actionUrl: string, icon: string)

  datatype QuietHours = QuietHours(enabled: bool, start: string, end: string)

  datatype Settings = Settings(
    matchUpdates: bool,
    achievements: bool,
    socialActivity: bool,
    predictionReminders: bool,
    dailyDigest: bool,
    pushEnabled: bool,
    quietHours: QuietHours)

  /** The initial settings: everything off, quiet hours 22:00 to 08:00 but disabled. */
  const Defaults := Settings(false, false, false, false, false, false, QuietHours(false, "22:00", "08:00"))

  /** Granting the browser's permission turns push and all five kinds on. */
  function Granted(s: Settings): (r: Settings)
    ensures r.pushEnabled && r.matchUpdates && r.achievements && r.socialActivity
    ensures r.predictionReminders && r.dailyDigest
    ensures r.quietHours == s.quietHours
  {
    s.(pushEnabled := true, matchUpdates := true, achievements := true, socialActivity := true,
       predictionReminders := true, dailyDigest := true)
  }

  // ---------------------------------------------------------------------
  // The list operations

  /** `[newNotification, ...notifications.slice(0, 49)]`. */
  function Added(list: seq<Notification>, d: Draft, id: string, now: int): (r: seq<Notification>)
    ensures 1 <= |r| <= MaxKept
    ensures r[0] == Notification(id, d.kind, d.title, d.message, now, false, d.priority, d.actionUrl, d.icon)
    ensures r[1..] == list[..if |list| < MaxKept - 1 then |list| else MaxKept - 1]
  {
    [Notification(id, d.kind, d.title, d.message, now, false, d.priority, d.actionUrl, d.icon)]
      + list[..if |list| < MaxKept - 1 then |list| else MaxKept - 1]
  }

  /** `markAsRead`: every notification with that id is read, nothing else moves. */
  function MarkedAsRead(list: seq<Notification>, id: string): (r: seq<Notification>)
    ensures |r| == |list|
    ensures forall i :: 0 <= i < |list| ==> r[i] == (if list[i].id == id then list[i].(read := true) else list[i])
  {
    if list == [] then []
    else [if list[0].id == id then list[0].(read := true) else list[0]] + MarkedAsRead(list[1..], id)
  }

  /** `markAllAsRead`. */
  function MarkedAllAsRead(list: seq<Notification>): (r: seq<Notification>)
    ensures |r| == |list|
    ensures forall i :: 0 <= i < |list| ==> r[i] == list[i].(read := true)
  {
    if list == [] then [] else [list[0].(read := true)] + MarkedAllAsRead(list[1..])
  }

  predicate Unread(n: Notification) {
    !n.read
  }

  function UnreadCount(list: seq<Notification>): nat {
    Seqs.Count(list, Unread)
  }

  predicate HasId(n: Notification, id: string) {
    n.id == id
  }

  /** `deleteNotification`: `filter(n => n.id !== id)`. */
  function Deleted(list: seq<Notification>, id: string): (r: seq<Notification>)
    ensures forall n :: n in r <==> n in list && n.id != id
    ensures Seqs.IsSubsequence(r, list)
    ensures |r| == |list| - Seqs.Count(list, (n: Notification) => HasId(n, id))
  {
    var keep := (n: Notification) => n.id != id;
    var r := Seqs.Filter(list, keep);
    forall n ensures n in r <==> n in list && n.id != id {
      Seqs.FilterMembers(list, keep, n);
    }
    Seqs.FilterSubsequence(list, keep);
    Seqs.CountIsFilterLength(list, keep);
    CountComplement(list, keep, (n: Notification) => HasId(n, id));
    r
  }

  /** Elements either satisfy `p` or its negation `q`. */
  lemma {:induction false} CountComplement<T>(s: seq<T>, p: T -> bool, q: T -> bool)
    requires forall x :: p(x) <==> !q(x)
    ensures Seqs.Count(s, p) + Seqs.Count(s, q) == |s|
  {
    if s != [] {
      CountComplement(s[1..], p, q);
    }
  }

  /** After `markAllAsRead` nothing is unread. */
  lemma {:induction false} MarkAllClearsUnread(list: seq<Notification>)
    ensures UnreadCount(MarkedAllAsRead(list)) == 0
  {
    if list != [] {
      MarkAllClearsUnread(list[1..]);
      assert MarkedAllAsRead(list)[1..] == MarkedAllAsRead(list[1..]);
    }
  }

  /** `markAsRead` lowers the unread count by the unread notifications with
      that id and by nothing else. */
  lemma {:induction false} MarkAsReadCount(list: seq<Notification>, id: string)
    ensures UnreadCount(MarkedAsRead(list, id)) + Seqs.Count(list, (n: Notification) => !n.read && n.id == id) == UnreadCount(list)
  {
    if list != [] {
      MarkAsReadCount(list[1..], id);
      assert MarkedAsRead(list, id)[1..] == MarkedAsRead(list[1..], id);
    }
  }

  /** Adding a notification counts one more unread, unless the list was full
      and an unread one fell off the end. */
  lemma AddedUnread(list: seq<Notification>, d: Draft, id: string, now: int)
    requires |list| < MaxKept
    ensures UnreadCount(Added(list, d, id, now)) == UnreadCount(list) + 1
  {
    var r := Added(list, d, id, now);
    assert r[1..] == list;
    assert r == [r[0]] + list;
  }

  // ---------------------------------------------------------------------
  // Delivery

  /** JavaScript's `<` on strings: code unit by code unit, a proper prefix first. */
  predicate Less(a: string, b: string) {
    if b == [] then false
    else if a == [] then true
    else if a[0] != b[0] then a[0] < b[0]
    else Less(a[1..], b[1..])
  }

  /** `getHours().toString().padStart(2, '0')`. */
  function TwoDigits(n: nat): string {
    PadStart(NatToString(n), 2, '0')
  }

  /** The current time the way the panel writes it, `"HH:MM"`. */
  function ClockString(hour: nat, minute: nat): string {
    TwoDigits(hour) + (":" + TwoDigits(minute))
  }

  /** Within quiet hours, bounds included; a start after the end spans midnight. */
  predicate InQuietHours(current: string, start: string, end: string) {
    if Less(end, start) then !Less(current, start) || !Less(end, current)
    else !Less(current, start) && !Less(end, current)
  }

  /** `shouldShowNotification` at the given local time. */
  predicate ShouldShow(s: Settings, n: Notification, hour: nat, minute: nat) {
    s.pushEnabled
    && !(s.quietHours.enabled && InQuietHours(ClockString(hour, minute), s.quietHours.start, s.quietHours.end))
    && match n.kind
       case Match => s.matchUpdates
       case Achievement => s.achievements
       case Social => s.socialActivity
       case Prediction => s.predictionReminders
       case Reminder => true
  }

  /** With push off nothing is shown, whatever the rest says. */
  lemma PushOffShowsNothing(s: Settings, n: Notification, hour: nat, minute: nat)
    requires !s.pushEnabled
    ensures !ShouldShow(s, n, hour, minute)
  {
  }

  /** Outside quiet hours, with push on, a kind is shown iff its switch is
      on, and reminders always are. */
  lemma KindGate(s: Settings, n: Notification, hour: nat, minute: nat)
    requires s.pushEnabled && !s.quietHours.enabled
    ensures ShouldShow(s, n, hour, minute) <==>
      (n.kind == Match ==> s.matchUpdates) && (n.kind == Achievement ==> s.achievements)
      && (n.kind == Social ==> s.socialActivity) && (n.kind == Prediction ==> s.predictionReminders)
  {
  }

  /** The decimal digit `d`. */
  function Digit(d: nat): (c: char)
    requires d < 10
    ensures c as int == '0' as int + d
  {
    ('0' as int + d) as char
  }

  lemma DigitCharIsDigit(d: nat)
    requires d < 10
    ensures DigitChar(d) == Digit(d)
  {
  }

  /** A number below 100 is written as its two decimal digits. */
  lemma TwoDigitsOf(n: nat)
    requires n < 100
    ensures TwoDigits(n) == [Digit(n / 10), Digit(n % 10)]
  {
    if n >= 10 {
      var q, r := n / 10, n % 10;
      assert q < 10 && r < 10;
      OneDigitSpelling(q);
      assert NatToString(n) == NatToBase(q, 10) + [DigitChar(r)];
      assert NatToString(n) == [DigitChar(q), DigitChar(r)];
      DigitCharIsDigit(r);
      DigitCharIsDigit(q);
      PadLongEnough(NatToString(n));
    } else {
      var c := DigitChar(n);
      OneDigitSpelling(n);
      DigitCharIsDigit(n);
      PadOneDigit(c);
      assert TwoDigits(n) == ['0', c];
      assert n / 10 == 0 && n % 10 == n;
      assert Digit(0) == '0';
    }
  }

  lemma OneDigitSpelling(d: nat)
    requires d < 10
    ensures NatToString(d) == [DigitChar(d)]
  {
  }

  lemma PadLongEnough(s: string)
    requires |s| >= 2
    ensures PadStart(s, 2, '0') == s
  {
  }

  lemma PadOneDigit(c: char)
    ensures PadStart([c], 2, '0') == ['0', c]
  {
    assert PadStart(['0', c], 2, '0') == ['0', c];
  }

  lemma DivOrder(a: nat, b: nat)
    requires a < 100 && b < 100
    ensures a < b <==> a / 10 < b / 10 || (a / 10 == b / 10 && a % 10 < b % 10)
    ensures a == b <==> a / 10 == b / 10 && a % 10 == b % 10
  {
    assert a == 10 * (a / 10) + a % 10;
    assert b == 10 * (b / 10) + b % 10;
  }

  lemma PairOrder(p: nat, q: nat, u: nat, v: nat, ra: string, rb: string)
    requires p < 10 && q < 10 && u < 10 && v < 10
    ensures Less([Digit(p), Digit(q)] + ra, [Digit(u), Digit(v)] + rb) <==>
      p < u || (p == u && (q < v || (q == v && Less(ra, rb))))
  {
    var x := [Digit(p), Digit(q)] + ra;
    var y := [Digit(u), Digit(v)] + rb;
    assert x[1..][1..] == ra && y[1..][1..] == rb;
  }

  lemma TwoDigitsPrefix(a: nat, ra: string)
    requires a < 100
    ensures TwoDigits(a) + ra == [Digit(a / 10), Digit(a % 10)] + ra
  {
    TwoDigitsOf(a);
  }

  lemma DigitsOrder(a: nat, b: nat, ra: string, rb: string)
    requires a < 100 && b < 100
    ensures Less([Digit(a / 10), Digit(a % 10)] + ra, [Digit(b / 10), Digit(b % 10)] + rb) <==>
      a < b || (a == b && Less(ra, rb))
  {
    PairOrder(a / 10, a % 10, b / 10, b % 10, ra, rb);
    DivOrder(a, b);
  }

  /** A two-digit prefix decides the order unless it is the same. */
  lemma TwoDigitOrder(a: nat, b: nat, ra: string, rb: string)
    requires a < 100 && b < 100
    ensures Less(TwoDigits(a) + ra, TwoDigits(b) + rb) <==> a < b || (a == b && Less(ra, rb))
  {
    TwoDigitsPrefix(a, ra);
    TwoDigitsPrefix(b, rb);
    DigitsOrder(a, b, ra, rb);
  }

  lemma ColonStep(x: string, y: string)
    ensures Less(":" + x, ":" + y) == Less(x, y)
  {
    assert (":" + x)[1..] == x && (":" + y)[1..] == y;
  }

  lemma MinutesOrder(h1: nat, m1: nat, h2: nat, m2: nat)
    requires m1 < 60 && m2 < 60
    ensures h1 * 60 + m1 < h2 * 60 + m2 <==> h1 < h2 || (h1 == h2 && m1 < m2)
  {
    if h1 < h2 {
      assert h1 * 60 + 60 <= h2 * 60;
    } else if h1 > h2 {
      assert h2 * 60 + 60 <= h1 * 60;
    }
  }

  lemma AppendNothing(s: string)
    ensures s + [] == s
  {
  }

  /** For well-formed times, the string order is the order of the clock. */
  lemma ClockOrder(h1: nat, m1: nat, h2: nat, m2: nat)
    requires h1 < 24 && m1 < 60 && h2 < 24 && m2 < 60
    ensures Less(ClockString(h1, m1), ClockString(h2, m2)) <==> h1 * 60 + m1 < h2 * 60 + m2
  {
    var b1, b2 := TwoDigits(m1), TwoDigits(m2);
    assert Less(ClockString(h1, m1), ClockString(h2, m2)) <==> h1 < h2 || (h1 == h2 && Less(":" + b1, ":" + b2)) by {
      TwoDigitOrder(h1, h2, ":" + b1, ":" + b2);
    }
    assert Less(":" + b1, ":" + b2) <==> Less(b1, b2) by {
      ColonStep(b1, b2);
    }
    assert Less(b1, b2) <==> m1 < m2 by {
      TwoDigitOrder(m1, m2, [], []);
      AppendNothing(b1);
      AppendNothing(b2);
    }
    MinutesOrder(h1, m1, h2, m2);
  }

  /** Quiet hours written as well-formed times block exactly the minutes of
      the day from start to end, across midnight when start is later. */
  lemma QuietHoursByMinutes(hour: nat, minute: nat, sh: nat, sm: nat, eh: nat, em: nat)
    requires hour < 24 && minute < 60 && sh < 24 && sm < 60 && eh < 24 && em < 60
    ensures var now, start, end := hour * 60 + minute, sh * 60 + sm, eh * 60 + em;
      InQuietHours(ClockString(hour, minute), ClockString(sh, sm), ClockString(eh, em)) <==>
        (if end < start then now >= start || now <= end else start <= now <= end)
  {
    ClockOrder(eh, em, sh, sm);
    ClockOrder(hour, minute, sh, sm);
    ClockOrder(eh, em, hour, minute);
  }

  // ---------------------------------------------------------------------
  // The panel's state

  class Panel {
    var notifications: seq<Notification>
    var settings: Settings
    /** What `ClientStorage` holds under `smart_notifications` and
        `notification_settings`. Nothing saved yet is the empty list and the
        default settings, which loading then leaves as they start. */
    var storedNotifications: seq<Notification>
    var storedSettings: Settings
    /** The notifications shown in the browser, oldest first. */
    var shown: seq<Notification>

    constructor(savedNotifications: seq<Notification>, savedSettings: Settings)
      ensures notifications == [] && settings == Defaults && shown == []
      ensures storedNotifications == savedNotifications && storedSettings == savedSettings
    {
      notifications, settings, shown := [], Defaults, [];
      storedNotifications, storedSettings := savedNotifications, savedSettings;
    }

    /** The list and the settings as they were saved. */
    predicate Saved()
      reads this
    {
      storedNotifications == notifications && storedSettings == settings
    }

    /** `loadNotifications` and `loadSettings`. */
    method Load()
      modifies this
      ensures notifications == old(storedNotifications) && settings == old(storedSettings)
      ensures storedNotifications == old(storedNotifications) && storedSettings == old(storedSettings)
      ensures shown == old(shown) && Saved()
    {
      notifications := storedNotifications;
      settings := storedSettings;
    }

    /** `requestNotificationPermission`: `asked` is whether the browser
        supports notifications and has not decided yet; `granted` its answer. */
    method RequestPermission(asked: bool, granted: bool)
      modifies this
      ensures asked && granted ==> settings == Granted(old(settings)) && storedSettings == settings
      ensures !(asked && granted) ==> settings == old(settings) && storedSettings == old(storedSettings)
      ensures notifications == old(notifications) && storedNotifications == old(storedNotifications)
      ensures shown == old(shown)
    {
      if asked && granted {
        settings := Granted(settings);
        storedSettings := settings;
      }
    }

    /** `addNotification` at local time `hour:minute`; `permitted` is whether
        the browser granted its permission, without which nothing is shown. */
    method AddNotification(d: Draft, id: string, now: int, hour: nat, minute: nat, permitted: bool)
      modifies this
      ensures notifications == Added(old(notifications), d, id, now) && storedNotifications == notifications
      ensures settings == old(settings) && storedSettings == old(storedSettings)
      ensures shown == old(shown) + (if permitted && ShouldShow(settings, notifications[0], hour, minute) then [notifications[0]] else [])
    {
      notifications := Added(notifications, d, id, now);
      storedNotifications := notifications;
      if settings.pushEnabled && ShouldShow(settings, notifications[0], hour, minute) && permitted {
        shown := shown + [notifications[0]];
      }
    }

    /** `checkForNewNotifications`: a digest reminder at 9 and at 18 o'clock
        when the daily digest is on. */
    method CheckForNewNotifications(id: string, now: int, hour: nat, minute: nat, permitted: bool)
      modifies this
      ensures !(settings.dailyDigest && (hour == 9 || hour == 18)) ==>
        notifications == old(notifications) && storedNotifications == old(storedNotifications) && shown == old(shown)
      ensures settings.dailyDigest && (hour == 9 || hour == 18) ==>
        |notifications| >= 1 && notifications[0].kind == Reminder && notifications[0].priority == Medium
        && notifications[1..] == old(notifications)[..if |old(notifications)| < MaxKept - 1 then |old(notifications)| else MaxKept - 1]
      ensures settings == old(settings) && storedSettings == old(storedSettings)
    {
      if hour == 9 && settings.dailyDigest {
        AddNotification(Draft(Reminder, "\U{1F305} Good Morning!", "Check out today's top predictions and upcoming matches", Medium, "", "\U{1F305}"),
                        id, now, hour, minute, permitted);
      }
      if hour == 18 && settings.dailyDigest {
        AddNotification(Draft(Reminder, "\U{1F306} Evening Update", "Review your prediction results and tomorrow's opportunities", Medium, "", "\U{1F306}"),
                        id, now, hour, minute, permitted);
      }
    }

    method MarkAsRead(id: string)
      modifies this
      ensures notifications == MarkedAsRead(old(notifications), id) && storedNotifications == notifications
      ensures settings == old(settings) && storedSettings == old(storedSettings) && shown == old(shown)
    {
      notifications := MarkedAsRead(notifications, id);
      storedNotifications := notifications;
    }

    method MarkAllAsRead()
      modifies this
      ensures notifications == MarkedAllAsRead(old(notifications)) && storedNotifications == notifications
      ensures UnreadCount(notifications) == 0
      ensures settings == old(settings) && storedSettings == old(storedSettings) && shown == old(shown)
    {
      notifications := MarkedAllAsRead(notifications);
      storedNotifications := notifications;
      MarkAllClearsUnread(old(notifications));
    }

    method DeleteNotification(id: string)
      modifies this
      ensures notifications == Deleted(old(notifications), id) && storedNotifications == notifications
      ensures settings == old(settings) && storedSettings == old(storedSettings) && shown == old(shown)
    {
      notifications := Deleted(notifications, id);
      storedNotifications := notifications;
    }

    method ClearAllNotifications()
      modifies this
      ensures notifications == [] && storedNotifications == []
      ensures settings == old(settings) && storedSettings == old(storedSettings) && shown == old(shown)
    {
      notifications := [];
      storedNotifications := [];
    }
  }
}
