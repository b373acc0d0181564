// The portal's command palette: a searchable list of commands grouped by
// category, a list of the five most recent commands, and the keyboard
// shortcuts that open and close it.

module PortalCommandCenter {
  import opened Wrappers
  import opened Strings
  import Seqs

  const RecentKept := 5

  /** A command; its icon and action are not modelled. */
  datatype Command = Command(id: string, name: string, category: string, shortcut: Option<string>)

  const Commands: seq<Command> := [
    Command("new-prediction", "Make a New Prediction", "Actions", Some("Ctrl+P")),
    Command("view-live", "View Live Matches", "Navigation", Some("Ctrl+L")),
    Command("read-news", "Latest News", "Navigation", None),
    Command("achievements", "View Achievements", "Profile", None),
    Command("social-feed", "Social Feed", "Navigation", None),
    Command("settings", "Settings", "System", None)]

  /** The palette's state. */
  datatype Palette = Palette(isOpen: bool, search: string, recent: seq<string>)

  const Closed := Palette(false, "", [])

  /** The label or the category contains the search text, ignoring case. */
  predicate Shows(search: string, c: Command) {
    ContainsCI(c.name, search) || ContainsCI(c.category, search)
  }

  /** `filteredCommands`. */
  function Filtered(cmds: seq<Command>, search: string): (r: seq<Command>)
    ensures Seqs.IsSubsequence(r, cmds)
    ensures forall c :: c in r <==> c in cmds && Shows(search, c)
  {
    var p := (c: Command) => Shows(search, c);
    forall c ensures c in Seqs.Filter(cmds, p) <==> c in cmds && Shows(search, c) {
      Seqs.FilterMembers(cmds, p, c);
    }
    Seqs.FilterSubsequence(cmds, p);
    Seqs.Filter(cmds, p)
  }

  /** An empty search shows every command, in order. */
  lemma EmptySearchShowsAll(cmds: seq<Command>)
    ensures Filtered(cmds, "") == cmds
  {
    forall i | 0 <= i < |cmds| ensures Shows("", cmds[i]) {
      ContainsEmpty(ToLower(cmds[i].name));
    }
    Seqs.FilterAll(cmds, (c: Command) => Shows("", c));
  }

  /** Searching for a category's name shows every command of that category. */
  lemma CategorySearchShowsCategory(cmds: seq<Command>, c: Command, k: Command)
    requires c in cmds && k in cmds && k.category == c.category
    ensures k in Filtered(cmds, c.category)
  {
    ContainsSelf(ToLower(c.category));
  }

  /** The palette opens on Ctrl+K or Cmd+K and closes on Escape; other keys
      change nothing. */
  function OnKey(p: Palette, key: string, metaKey: bool, ctrlKey: bool): (r: Palette)
    ensures (metaKey || ctrlKey) && key == "k" ==> r == p.(isOpen := true)
    ensures key == "Escape" ==> r == p.(isOpen := false)
    ensures !((metaKey || ctrlKey) && key == "k") && key != "Escape" ==> r == p
  {
    var shown := if (metaKey || ctrlKey) && key == "k" then p.(isOpen := true) else p;
    if key == "Escape" then shown.(isOpen := false) else shown
  }

  // ---------------------------------------------------------------------
  // Recent commands

  /** `[id, ...prev.slice(0, 4)]`. */
  function Pushed(recent: seq<string>, id: string): (r: seq<string>)
    ensures |r| >= 1 && r[0] == id && r[1..] <= recent
    ensures |r| == if |recent| < RecentKept then |recent| + 1 else RecentKept
  {
    [id] + (if |recent| <= RecentKept - 1 then recent else recent[..RecentKept - 1])
  }

  /** `executeCommand`: the command's id heads the recent list, the palette
      closes and the search is cleared. */
  function Execute(p: Palette, c: Command): (r: Palette)
    ensures !r.isOpen && r.search == "" && r.recent == Pushed(p.recent, c.id)
  {
    Palette(false, "", Pushed(p.recent, c.id))
  }

  function Take(s: seq<string>, n: nat): (r: seq<string>)
    ensures |r| <= n && r <= s && (|s| >= n ==> |r| == n) && (|s| < n ==> r == s)
  {
    if |s| <= n then s else s[..n]
  }

  function Reversed(s: seq<string>): (r: seq<string>)
    ensures |r| == |s|
    ensures forall i :: 0 <= i < |s| ==> r[i] == s[|s| - 1 - i]
  {
    if s == [] then [] else Reversed(s[1..]) + [s[0]]
  }

  /** The recent list after running the commands `ids` in turn. */
  function RunAll(recent: seq<string>, ids: seq<string>): seq<string>
    decreases |ids|
  {
    if ids == [] then recent else RunAll(Pushed(recent, ids[0]), ids[1..])
  }

  lemma TakeTake(a: seq<string>, b: seq<string>, n: nat)
    ensures Take(a + Take(b, n), n) == Take(a + b, n)
  {
    if |b| > n {
      if |a| >= n {
        assert (a + Take(b, n))[..n] == a[..n] == (a + b)[..n];
      } else {
        assert (a + Take(b, n))[..n] == (a + b)[..n];
      }
    }
  }

  /** The recent list holds the last five commands run, newest first (repeats
      included). */
  lemma {:induction false} RecentIsNewestFive(recent: seq<string>, ids: seq<string>)
    requires |recent| <= RecentKept
    ensures RunAll(recent, ids) == Take(Reversed(ids) + recent, RecentKept)
    decreases |ids|
  {
    if ids != [] {
      var x := ids[0];
      RecentIsNewestFive(Pushed(recent, x), ids[1..]);
      PushedIsTake(recent, x);
      TakeTake(Reversed(ids[1..]), [x] + recent, RecentKept);
      ReversedFirst(ids);
      assert Reversed(ids[1..]) + ([x] + recent) == Reversed(ids[1..]) + [x] + recent;
    }
  }

  lemma PushedIsTake(recent: seq<string>, x: string)
    requires |recent| <= RecentKept
    ensures Pushed(recent, x) == Take([x] + recent, RecentKept)
  {
  }

  lemma ReversedFirst(s: seq<string>)
    requires s != []
    ensures Reversed(s) == Reversed(s[1..]) + [s[0]]
  {
  }

  // ---------------------------------------------------------------------
  // Grouping

  /** The categories in order of first appearance. */
  function CategoriesOf(cmds: seq<Command>): (r: seq<string>)
    ensures Seqs.NoDuplicates(r)
    ensures forall k :: k in r <==> exists i :: 0 <= i < |cmds| && cmds[i].category == k
  {
    if cmds == [] then []
    else
      var init := cmds[..|cmds| - 1];
      var rest := CategoriesOf(init);
      assert forall i :: 0 <= i < |init| ==> init[i] == cmds[i];
      if cmds[|cmds| - 1].category in rest then rest else rest + [cmds[|cmds| - 1].category]
  }

  /** The commands of a category, in order. */
  function OfCategory(cmds: seq<Command>, k: string): (r: seq<Command>)
    ensures forall c :: c in r <==> c in cmds && c.category == k
    ensures Seqs.IsSubsequence(r, cmds)
  {
    var p := (c: Command) => c.category == k;
    forall c ensures c in Seqs.Filter(cmds, p) <==> c in cmds && c.category == k {
      Seqs.FilterMembers(cmds, p, c);
    }
    Seqs.FilterSubsequence(cmds, p);
    Seqs.Filter(cmds, p)
  }

  /** One step of the `reduce`: the keys in insertion order and the object. */
  function GroupStep(acc: (seq<string>, map<string, seq<Command>>), c: Command): (seq<string>, map<string, seq<Command>>)
  {
    if c.category !in acc.1 then (acc.0 + [c.category], acc.1[c.category := [c]])
    else (acc.0, acc.1[c.category := acc.1[c.category] + [c]])
  }

  function Reduce(cmds: seq<Command>): (seq<string>, map<string, seq<Command>>)
  {
    if cmds == [] then ([], map[]) else GroupStep(Reduce(cmds[..|cmds| - 1]), cmds[|cmds| - 1])
  }

  /** `Object.entries` of the grouped commands. */
  function Groups(cmds: seq<Command>): seq<(string, seq<Command>)>
  {
    var acc := Reduce(cmds);
    seq(|acc.0|, i requires 0 <= i < |acc.0| => (acc.0[i], if acc.0[i] in acc.1 then acc.1[acc.0[i]] else []))
  }

  lemma FilterLast(cmds: seq<Command>, k: string)
    requires cmds != []
    ensures OfCategory(cmds, k) ==
      OfCategory(cmds[..|cmds| - 1], k) + (if cmds[|cmds| - 1].category == k then [cmds[|cmds| - 1]] else [])
  {
    var p := (c: Command) => c.category == k;
    Seqs.FilterConcat(cmds[..|cmds| - 1], [cmds[|cmds| - 1]], p);
    assert cmds[..|cmds| - 1] + [cmds[|cmds| - 1]] == cmds;
    assert Seqs.Filter([cmds[|cmds| - 1]], p) == if p(cmds[|cmds| - 1]) then [cmds[|cmds| - 1]] else [];
  }

  /** The `reduce` builds, in first-appearance order of the categories, each
      category's commands in their order. */
  lemma {:induction false} ReduceGroups(cmds: seq<Command>)
    ensures Reduce(cmds).0 == CategoriesOf(cmds)
    ensures forall k :: k in Reduce(cmds).1 <==> k in Reduce(cmds).0
    ensures forall k :: k in Reduce(cmds).1 ==> Reduce(cmds).1[k] == OfCategory(cmds, k)
  {
    if cmds != [] {
      var init := cmds[..|cmds| - 1];
      var c := cmds[|cmds| - 1];
      ReduceGroups(init);
      var acc := Reduce(init);
      assert Reduce(cmds) == GroupStep(acc, c);
      forall k | k in Reduce(cmds).1
        ensures Reduce(cmds).1[k] == OfCategory(cmds, k)
      {
        FilterLast(cmds, k);
        if k != c.category {
          assert Reduce(cmds).1[k] == acc.1[k];
        } else if c.category in acc.1 {
          assert Reduce(cmds).1[k] == acc.1[k] + [c];
        } else {
          NoneOfCategory(init, k);
        }
      }
    }
  }

  lemma NoneOfCategory(cmds: seq<Command>, k: string)
    requires k !in CategoriesOf(cmds)
    ensures OfCategory(cmds, k) == []
  {
  }

  /** Each group is a category with its commands in order, the categories in
      order of first appearance, and every command is in its own category's
      group. */
  lemma GroupsByCategory(cmds: seq<Command>)
    ensures |Groups(cmds)| == |CategoriesOf(cmds)|
    ensures forall i :: 0 <= i < |Groups(cmds)| ==>
      Groups(cmds)[i] == (CategoriesOf(cmds)[i], OfCategory(cmds, CategoriesOf(cmds)[i]))
    ensures forall c :: c in cmds ==> exists i :: 0 <= i < |Groups(cmds)| && Groups(cmds)[i].0 == c.category && c in Groups(cmds)[i].1
  {
    ReduceGroups(cmds);
    var keys := CategoriesOf(cmds);
    forall c | c in cmds
      ensures exists i :: 0 <= i < |Groups(cmds)| && Groups(cmds)[i].0 == c.category && c in Groups(cmds)[i].1
    {
      var j :| 0 <= j < |cmds| && cmds[j] == c;
      assert c.category in keys;
      var i :| 0 <= i < |keys| && keys[i] == c.category;
      assert Groups(cmds)[i].0 == c.category;
    }
  }
}
