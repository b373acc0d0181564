// The favourite teams widget of the web app: a list of team names kept in
// local storage under the user's key, and the live matches of those teams.

module TeamFavorites {
  import opened Wrappers
  import opened Strings
  import Seqs

  const MatchesShown := 3

  /** A live match; a team name is `None` when the backend leaves it out. */
  datatype Match = Match(homeTeam: Option<string>, awayTeam: Option<string>, date: string, competition: string)

  /** The component state; `stored` is the parsed value of `favorites_<userId>`
      in local storage, `None` when there is none. */
  datatype State = State(favorites: seq<string>, newTeam: string, stored: Option<seq<string>>, matches: seq<Match>)

  /** The list as `addFavorite` builds it: distinct, trimmed, non-empty names. */
  predicate WellFormed(favorites: seq<string>) {
    Seqs.NoDuplicates(favorites) && forall i :: 0 <= i < |favorites| ==> favorites[i] != "" && Trim(favorites[i]) == favorites[i]
  }

  /** The state after mounting: the stored list, if any. */
  function Load(stored: Option<seq<string>>): (s: State)
    ensures s.favorites == stored.GetOr([]) && s.newTeam == "" && s.matches == []
  {
    State(stored.GetOr([]), "", stored, [])
  }

  /** Trimming twice is trimming once. */
  lemma TrimIdempotent(s: string)
    ensures Trim(Trim(s)) == Trim(s)
  {
    if Trim(s) != [] {
      TrimUnchanged(Trim(s));
    }
  }

  /** `addFavorite`. */
  function Add(s: State): (r: State)
    ensures var t := Trim(s.newTeam);
      if t != "" && t !in s.favorites
      then r == s.(favorites := s.favorites + [t], stored := Some(s.favorites + [t]), newTeam := "")
      else r == s
  {
    var t := Trim(s.newTeam);
    if t != "" && t !in s.favorites then
      var updated := s.favorites + [t];
      s.(favorites := updated, stored := Some(updated), newTeam := "")
    else s
  }

  /** Adding keeps the list well formed, and adds at most one name: the
      trimmed input, at the end. */
  lemma AddKeepsWellFormed(s: State)
    requires WellFormed(s.favorites)
    ensures WellFormed(Add(s).favorites)
    ensures Add(s).favorites == s.favorites || Add(s).favorites == s.favorites + [Trim(s.newTeam)]
  {
    TrimIdempotent(s.newTeam);
  }

  /** Pressing Add twice adds once: the input is cleared after a success. */
  lemma AddTwiceIsAddOnce(s: State)
    ensures Add(Add(s)) == Add(s)
  {
    var t := Trim(s.newTeam);
    if t != "" && t !in s.favorites {
      assert Add(s).newTeam == "";
      assert Trim("") == "";
    }
  }

  /** The list without `team`. */
  function Without(favorites: seq<string>, team: string): (r: seq<string>)
    ensures forall x :: x in r <==> x in favorites && x != team
    ensures Seqs.IsSubsequence(r, favorites)
  {
    var r := Seqs.Filter(favorites, f => f != team);
    forall x ensures x in r <==> x in favorites && x != team {
      Seqs.FilterMembers(favorites, f => f != team, x);
    }
    Seqs.FilterSubsequence(favorites, f => f != team);
    r
  }

  /** `removeFavorite`. */
  function Remove(s: State, team: string): (r: State)
    ensures r.favorites == Without(s.favorites, team) && r.stored == Some(r.favorites)
    ensures r.newTeam == s.newTeam && r.matches == s.matches
  {
    var updated := Without(s.favorites, team);
    s.(favorites := updated, stored := Some(updated))
  }

  /** Removing a name that is not listed changes nothing, and removing a
      name from the end of the list leaves the rest. */
  lemma {:induction false} WithoutAbsent(favorites: seq<string>, team: string)
    requires team !in favorites
    ensures Without(favorites, team) == favorites
    ensures Without(favorites + [team], team) == favorites
  {
    if favorites != [] {
      WithoutAbsent(favorites[1..], team);
      assert (favorites + [team])[1..] == favorites[1..] + [team];
    } else {
      assert Without([team], team) == Seqs.Filter([team][1..], f => f != team);
    }
  }

  /** A subsequence of a list without repeats has none. */
  lemma {:induction false} SubsequenceNoDuplicates(r: seq<string>, s: seq<string>)
    requires Seqs.IsSubsequence(r, s) && Seqs.NoDuplicates(s)
    ensures Seqs.NoDuplicates(r)
    ensures forall x :: x in r ==> x in s
    decreases |s|
  {
    if r != [] {
      assert s != [];
      if r[0] == s[0] && Seqs.IsSubsequence(r[1..], s[1..]) {
        SubsequenceNoDuplicates(r[1..], s[1..]);
        assert s[0] !in s[1..];
        assert forall i :: 0 < i < |r| ==> r[i] == r[1..][i - 1];
        assert r == [r[0]] + r[1..];
        assert forall x :: x in s[1..] ==> x in s;
      } else {
        SubsequenceNoDuplicates(r, s[1..]);
      }
    }
  }

  /** Removing keeps the list well formed, and drops every copy of the name. */
  lemma RemoveKeepsWellFormed(s: State, team: string)
    requires WellFormed(s.favorites)
    ensures WellFormed(Remove(s, team).favorites)
    ensures team !in Remove(s, team).favorites
  {
    var r := Remove(s, team).favorites;
    SubsequenceNoDuplicates(r, s.favorites);
    forall i | 0 <= i < |r| ensures r[i] != "" && Trim(r[i]) == r[i] {
      assert r[i] in s.favorites;
    }
  }

  /** A name just added is gone again after removing it: the list is as before. */
  lemma AddThenRemove(s: State)
    requires Trim(s.newTeam) != "" && Trim(s.newTeam) !in s.favorites
    ensures Remove(Add(s), Trim(s.newTeam)).favorites == s.favorites
  {
    WithoutAbsent(s.favorites, Trim(s.newTeam));
  }

  // ---------------------------------------------------------------------
  // Relevant matches

  /** Some favourite occurs, ignoring case, in the home or the away name. */
  predicate Relevant(m: Match, favorites: seq<string>) {
    exists i | 0 <= i < |favorites| ::
      (m.homeTeam.Some? && ContainsCI(m.homeTeam.value, favorites[i]))
      || (m.awayTeam.Some? && ContainsCI(m.awayTeam.value, favorites[i]))
  }

  /** A match of a favourite team, written exactly so, is relevant. */
  lemma FavouriteTeamIsRelevant(m: Match, favorites: seq<string>, i: nat)
    requires i < |favorites| && (m.homeTeam == Some(favorites[i]) || m.awayTeam == Some(favorites[i]))
    ensures Relevant(m, favorites)
  {
    ContainsSelf(ToLower(favorites[i]));
  }

  /** A match without team names is never relevant. */
  lemma NamelessMatchIsIrrelevant(m: Match, favorites: seq<string>)
    requires m.homeTeam.None? && m.awayTeam.None?
    ensures !Relevant(m, favorites)
  {
  }

  /** The matches after a refresh: nothing is fetched without favourites, and
      a failed or unsuccessful answer (`None`) keeps the current matches. */
  function Refresh(favorites: seq<string>, current: seq<Match>, answer: Option<seq<Match>>): (r: seq<Match>)
    ensures favorites == [] || answer.None? ==> r == current
    ensures favorites != [] && answer.Some? ==>
      Seqs.IsSubsequence(r, answer.value) && forall m :: m in r <==> m in answer.value && Relevant(m, favorites)
  {
    if favorites == [] || answer.None? then current
    else
      var p := (m: Match) => Relevant(m, favorites);
      forall m ensures m in Seqs.Filter(answer.value, p) <==> m in answer.value && Relevant(m, favorites) {
        Seqs.FilterMembers(answer.value, p, m);
      }
      Seqs.FilterSubsequence(answer.value, p);
      Seqs.Filter(answer.value, p)
  }

  /** Removing the last favourite leaves the old matches on screen, since no
      refresh is made without favourites. */
  lemma StaleMatchesAfterLastRemoval(s: State, team: string, answer: Option<seq<Match>>)
    requires s.favorites == [team]
    ensures Remove(s, team).favorites == []
    ensures Refresh(Remove(s, team).favorites, s.matches, answer) == s.matches
  {
    assert team !in Remove(s, team).favorites;
  }

  /** The matches shown: the first three. */
  function Shown(matches: seq<Match>): (r: seq<Match>)
    ensures |r| <= MatchesShown && r <= matches
    ensures |matches| >= MatchesShown ==> |r| == MatchesShown
    ensures |matches| < MatchesShown ==> r == matches
  {
    if |matches| <= MatchesShown then matches else matches[..MatchesShown]
  }
}
