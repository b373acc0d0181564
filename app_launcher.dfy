// The web app's micro-app launcher: nine apps, searchable by name or
// description and filtered by category. Its filter is the same expression
// as the MagajiCo launcher's, so the apps and the filter are shared; its
// apps have no primary section.

module AppLauncher {
  import M = MagajiCoAppLauncher

  const MicroApps: seq<M.App> := [
    M.App("predictions", "AI Predictions", "/en/ai-predictions", "sports", "87% accurate ML predictions", false),
    M.App("live", "Live Matches", "/en/matches", "sports", "Real-time match tracking", false),
    M.App("news", "Sports News", "/en/news", "sports", "Breaking news worldwide", false),
    M.App("analytics", "Analytics", "/en/analytics", "tools", "Deep performance insights", false),
    M.App("social", "Social Hub", "/en/feed", "social", "Connect with fans", false),
    M.App("kids", "Kids Mode", "/en/kids", "kids", "Safe learning environment", false),
    M.App("rewards", "Rewards", "/en/achievements", "rewards", "Earn Pi Coins & badges", false),
    M.App("empire", "Empire", "/en", "tools", "Build your sports empire", false),
    M.App("portal", "Portal", "/en", "tools", "Quick access hub", false)]

  /** `filteredApps` at the launcher's query and category. */
  function Shown(query: string, category: string): (r: seq<M.App>)
    ensures M.Seqs.IsSubsequence(r, MicroApps)
    ensures forall a :: a in r <==> a in MicroApps && M.MatchesSearch(a, query) && M.MatchesCategory(a, category)
  {
    M.Filtered(MicroApps, query, category)
  }

  /** An empty query under "all" shows all nine apps. */
  lemma DefaultShowsNine()
    ensures |MicroApps| == 9
    ensures Shown("", M.AllCategories) == MicroApps
  {
    M.EmptyQueryShowsAll(MicroApps);
  }

  /** The footer: "<filtered> of 9 apps". */
  lemma FooterCount(query: string, category: string)
    ensures M.Footer(MicroApps, query, category) == (|Shown(query, category)|, 9)
    ensures |Shown(query, category)| <= 9
  {
  }

  /** Ctrl+K or Cmd+K opens; Escape closes, and is only acted on when open. */
  function OnKey(l: M.Launcher, key: string, metaKey: bool, ctrlKey: bool): (r: M.Launcher)
    ensures !l.mounted ==> r == l
    ensures l.mounted && (metaKey || ctrlKey) && key == "k" ==> r == l.(isOpen := true)
    ensures l.mounted && key == "Escape" ==> !r.isOpen && r.query == l.query && r.category == l.category
  {
    if !l.mounted then l
    else
      var shown := if (metaKey || ctrlKey) && key == "k" then l.(isOpen := true) else l;
      if key == "Escape" && shown.isOpen then shown.(isOpen := false) else shown
  }

  /** The check that the launcher is open before Escape closes it changes
      nothing: both launchers answer every key alike. */
  lemma EscapeGuardIsUnobservable(l: M.Launcher, key: string, metaKey: bool, ctrlKey: bool)
    ensures OnKey(l, key, metaKey, ctrlKey) == M.OnKey(l, key, metaKey, ctrlKey)
  {
  }
}
