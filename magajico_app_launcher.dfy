// The MagajiCo app launcher: a floating menu of micro apps, searchable by
// name or description and filtered by category, with the primary
// navigation apps in a section of their own.

module MagajiCoAppLauncher {
  import opened Strings
  import Seqs

  const AllCategories := "all"
  const Navigation := "navigation"

  /** A micro app; colours and links to pages are kept only as text. */
  datatype App = App(id: string, name: string, href: string, category: string, description: string, isPrimary: bool)

  const Apps: seq<App> := [
    App("home", "Home", "/en", "navigation", "Your sports hub dashboard", true),
    App("predictions", "Predictions", "/en/predictions", "navigation", "87% accurate ML predictions", true),
    App("live", "Live Matches", "/en/matches", "navigation", "Real-time match tracking", true),
    App("social", "Social Hub", "/en/social/feed", "navigation", "Connect with fans worldwide", true),
    App("rewards", "Rewards", "/en/achievements", "navigation", "Earn Pi Coins & badges", true),
    App("news", "Sports News", "/en/news", "sports", "Breaking news worldwide", false),
    App("analytics", "Analytics", "/en/analytics", "tools", "Deep performance insights", false),
    App("kids", "Kids Mode", "/en/kids", "kids", "Safe learning environment", false),
    App("chat", "AI Chat", "/en/chat", "tools", "Chat with AI assistant", false),
    App("challenges", "Challenges", "/en/challenges", "rewards", "Complete daily challenges", false)]

  /** The launcher's state; the key listener exists only once mounted. */
  datatype Launcher = Launcher(mounted: bool, isOpen: bool, query: string, category: string)

  /** The name or the description contains the query, ignoring case. */
  predicate MatchesSearch(a: App, query: string) {
    ContainsCI(a.name, query) || ContainsCI(a.description, query)
  }

  predicate MatchesCategory(a: App, category: string) {
    category == AllCategories || a.category == category
  }

  /** `filteredApps`. */
  function Filtered(apps: seq<App>, query: string, category: string): (r: seq<App>)
    ensures Seqs.IsSubsequence(r, apps) && |r| <= |apps|
    ensures forall a :: a in r <==> a in apps && MatchesSearch(a, query) && MatchesCategory(a, category)
  {
    var p := (a: App) => MatchesSearch(a, query) && MatchesCategory(a, category);
    forall a ensures a in Seqs.Filter(apps, p) <==> a in apps && p(a) {
      Seqs.FilterMembers(apps, p, a);
    }
    Seqs.FilterSubsequence(apps, p);
    Seqs.Filter(apps, p)
  }

  /** An empty query under "all" shows every app. */
  lemma EmptyQueryShowsAll(apps: seq<App>)
    ensures Filtered(apps, "", AllCategories) == apps
  {
    forall i | 0 <= i < |apps| ensures MatchesSearch(apps[i], "") {
      ContainsEmpty(ToLower(apps[i].name));
    }
    Seqs.FilterAll(apps, (a: App) => MatchesSearch(a, "") && MatchesCategory(a, AllCategories));
  }

  /** `primaryApps`. */
  function PrimaryApps(apps: seq<App>): (r: seq<App>)
    ensures Seqs.IsSubsequence(r, apps)
    ensures forall a :: a in r <==> a in apps && a.isPrimary
  {
    var p := (a: App) => a.isPrimary;
    forall a ensures a in Seqs.Filter(apps, p) <==> a in apps && a.isPrimary {
      Seqs.FilterMembers(apps, p, a);
    }
    Seqs.FilterSubsequence(apps, p);
    Seqs.Filter(apps, p)
  }

  /** The primary section: shown under "all" and "navigation", holding the
      primary apps that match the query (whatever the category). */
  function PrimarySection(apps: seq<App>, query: string, category: string): (r: seq<App>)
    ensures category != AllCategories && category != Navigation ==> r == []
    ensures category == AllCategories || category == Navigation ==>
      forall a :: a in r <==> a in apps && a.isPrimary && MatchesSearch(a, query)
  {
    if category == AllCategories || category == Navigation then
      var p := (a: App) => MatchesSearch(a, query);
      var primary := PrimaryApps(apps);
      forall a ensures a in Seqs.Filter(primary, p) <==> a in primary && p(a) {
        Seqs.FilterMembers(primary, p, a);
      }
      Seqs.Filter(primary, p)
    else []
  }

  /** The primary section as the grid shows it: the grid holds its sections
      only while some app passes the search and the category, and otherwise
      "No apps found". */
  function ShownPrimarySection(apps: seq<App>, query: string, category: string): (r: seq<App>)
    ensures Filtered(apps, query, category) == [] ==> r == []
    ensures Filtered(apps, query, category) != [] ==> r == PrimarySection(apps, query, category)
  {
    if |Filtered(apps, query, category)| > 0 then PrimarySection(apps, query, category) else []
  }

  /** When every primary app is a navigation app, the grid's guard hides no
      primary app: a listed primary app passes the search and the category
      itself, so the grid is not empty. */
  lemma PrimaryGuardIsUnobservable(apps: seq<App>, query: string, category: string)
    requires forall i :: 0 <= i < |apps| && apps[i].isPrimary ==> apps[i].category == Navigation
    ensures ShownPrimarySection(apps, query, category) == PrimarySection(apps, query, category)
  {
    var r := PrimarySection(apps, query, category);
    if r != [] {
      assert r[0] in r;
      var i :| 0 <= i < |apps| && apps[i] == r[0];
      assert apps[i] in Filtered(apps, query, category);
    }
  }

  /** The launcher's own list has only navigation apps among its primary
      apps, so its grid never hides the primary section. */
  lemma ListPrimaryGuardIsUnobservable(query: string, category: string)
    ensures ShownPrimarySection(Apps, query, category) == PrimarySection(Apps, query, category)
  {
    forall i | 0 <= i < |Apps| && Apps[i].isPrimary
      ensures Apps[i].category == Navigation
    {
      assert i < 5 by {
        assert !Apps[5].isPrimary && !Apps[6].isPrimary && !Apps[7].isPrimary;
        assert !Apps[8].isPrimary && !Apps[9].isPrimary;
      }
    }
    PrimaryGuardIsUnobservable(Apps, query, category);
  }

  /** The "More Apps" (under "all") or "Apps" list. */
  function MoreApps(apps: seq<App>, query: string, category: string): (r: seq<App>)
    ensures category != AllCategories ==> r == Filtered(apps, query, category)
    ensures category == AllCategories ==> forall a :: a in r <==> a in Filtered(apps, query, category) && !a.isPrimary
  {
    var filtered := Filtered(apps, query, category);
    var p := (a: App) => !a.isPrimary || category != AllCategories;
    forall a ensures a in Seqs.Filter(filtered, p) <==> a in filtered && p(a) {
      Seqs.FilterMembers(filtered, p, a);
    }
    if category != AllCategories then
      Seqs.FilterAll(filtered, p);
      Seqs.Filter(filtered, p)
    else Seqs.Filter(filtered, p)
  }

  /** Under "all" the two sections split the matching apps: each shows up
      in exactly one of them. */
  lemma SectionsSplitUnderAll(apps: seq<App>, query: string, a: App)
    ensures a in Filtered(apps, query, AllCategories) <==>
      a in PrimarySection(apps, query, AllCategories) || a in MoreApps(apps, query, AllCategories)
    ensures !(a in PrimarySection(apps, query, AllCategories) && a in MoreApps(apps, query, AllCategories))
  {
  }

  /** Under "navigation" a matching primary navigation app is listed twice:
      once in the primary section and once under "Apps". */
  lemma NavigationListsPrimaryTwice(apps: seq<App>, query: string, a: App)
    requires a in apps && a.isPrimary && a.category == Navigation && MatchesSearch(a, query)
    ensures a in PrimarySection(apps, query, Navigation) && a in MoreApps(apps, query, Navigation)
  {
  }

  /** The list has five primary apps out of ten, and they come first. */
  lemma PrimaryAppsOfTheList()
    ensures |Apps| == 10
    ensures PrimaryApps(Apps) == Apps[..5]
  {
    PrimaryFirst(Apps, 5);
  }

  /** When exactly the first `k` apps are primary, they are the primary apps. */
  lemma PrimaryFirst(apps: seq<App>, k: nat)
    requires k <= |apps|
    requires forall i :: 0 <= i < |apps| ==> (apps[i].isPrimary <==> i < k)
    ensures PrimaryApps(apps) == apps[..k]
  {
    var p := (a: App) => a.isPrimary;
    var head, tail := apps[..k], apps[k..];
    assert apps == head + tail;
    Seqs.FilterConcat(head, tail, p);
    assert forall i :: 0 <= i < |head| ==> head[i] == apps[i];
    assert forall i :: 0 <= i < |tail| ==> tail[i] == apps[k + i];
    Seqs.FilterAll(head, p);
    Seqs.FilterNone(tail, p);
  }

  /** The key listener, once mounted: Escape closes and Ctrl+K or Cmd+K opens. */
  function OnKey(l: Launcher, key: string, metaKey: bool, ctrlKey: bool): (r: Launcher)
    ensures !l.mounted ==> r == l
    ensures l.mounted && key == "Escape" ==> r == l.(isOpen := false)
    ensures l.mounted && key == "k" && (metaKey || ctrlKey) ==> r == l.(isOpen := true)
    ensures !(key == "Escape") && !(key == "k" && (metaKey || ctrlKey)) ==> r == l
  {
    if !l.mounted then l
    else
      var closed := if key == "Escape" then l.(isOpen := false) else l;
      if key == "k" && (metaKey || ctrlKey) then closed.(isOpen := true) else closed
  }

  /** The floating button toggles the launcher. */
  function Toggle(l: Launcher): (r: Launcher)
    ensures r.isOpen == !l.isOpen && r.query == l.query && r.category == l.category
  {
    l.(isOpen := !l.isOpen)
  }

  /** The footer: "<filtered> of <total> apps". */
  function Footer(apps: seq<App>, query: string, category: string): (r: (nat, nat))
    ensures r.0 <= r.1 && r.1 == |apps|
    ensures r.0 == |Filtered(apps, query, category)|
  {
    (|Filtered(apps, query, category)|, |apps|)
  }
}
