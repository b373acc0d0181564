// The favourites panel of the frontend: a list of saved teams, leagues,
// matches, predictions and authors, newest first, kept in client storage,
// and shown whole or by kind.

module UserFavorites {
  import opened Wrappers
  import Seqs

  datatype Kind = Team | League | Match | Prediction | Author

  /** A saved item; `addedAt` is the instant it was added. */
  datatype Item = Item(id: string, kind: Kind, name: string, icon: string, addedAt: int)

  /** The filter buttons: everything, or one kind. */
  datatype Filter = All | Only(kind: Kind)

  /** The list, and what client storage holds under `user_favorites`. */
  datatype State = State(favorites: seq<Item>, stored: seq<Item>)

  /** `loadFavorites`: the saved list, or `[]` when nothing is saved. */
  function Load(saved: Option<seq<Item>>): (s: State)
    ensures s.favorites == saved.GetOr([]) && s.stored == saved.GetOr([])
  {
    State(saved.GetOr([]), saved.GetOr([]))
  }

  /** `addFavorite` at time `now`. */
  function Add(s: State, item: Item, now: int): (r: State)
    ensures r.favorites == [item.(addedAt := now)] + s.favorites && r.stored == r.favorites
  {
    var updated := [item.(addedAt := now)] + s.favorites;
    State(updated, updated)
  }

  /** The entries with an id. */
  function WithId(favorites: seq<Item>, id: string): (n: nat)
    ensures n <= |favorites|
  {
    Seqs.Count(favorites, (f: Item) => f.id == id)
  }

  /** Adding never merges: an item that is already saved is saved twice. */
  lemma AddDoesNotDeduplicate(s: State, item: Item, now: int)
    ensures |Add(s, item, now).favorites| == |s.favorites| + 1
    ensures WithId(Add(s, item, now).favorites, item.id) == WithId(s.favorites, item.id) + 1
  {
    var r := Add(s, item, now).favorites;
    assert r[1..] == s.favorites;
  }

  /** The list without the items of an id. */
  function WithoutId(favorites: seq<Item>, id: string): (r: seq<Item>)
    ensures forall x :: x in r <==> x in favorites && x.id != id
    ensures Seqs.IsSubsequence(r, favorites)
  {
    var p := (f: Item) => f.id != id;
    forall x ensures x in Seqs.Filter(favorites, p) <==> x in favorites && x.id != id {
      Seqs.FilterMembers(favorites, p, x);
    }
    Seqs.FilterSubsequence(favorites, p);
    Seqs.Filter(favorites, p)
  }

  /** `removeFavorite`. */
  function Remove(s: State, id: string): (r: State)
    ensures r.favorites == WithoutId(s.favorites, id) && r.stored == r.favorites
    ensures WithId(r.favorites, id) == 0
  {
    var updated := WithoutId(s.favorites, id);
    NoneWithId(updated, id);
    State(updated, updated)
  }

  lemma {:induction false} NoneWithId(favorites: seq<Item>, id: string)
    requires forall x :: x in favorites ==> x.id != id
    ensures WithId(favorites, id) == 0
  {
    if favorites != [] {
      assert favorites[0] in favorites;
      assert forall x :: x in favorites[1..] ==> x in favorites;
      NoneWithId(favorites[1..], id);
    }
  }

  /** Removing an id right after adding it undoes the addition, and every
      earlier copy goes too. */
  lemma AddThenRemove(s: State, item: Item, now: int)
    ensures Remove(Add(s, item, now), item.id) == Remove(s, item.id)
  {
    var a := Add(s, item, now).favorites;
    assert a[1..] == s.favorites;
  }

  /** `filteredFavorites`. */
  function Filtered(favorites: seq<Item>, filter: Filter): (r: seq<Item>)
    ensures filter == All ==> r == favorites
    ensures Seqs.IsSubsequence(r, favorites)
    ensures filter.Only? ==> forall x :: x in r <==> x in favorites && x.kind == filter.kind
  {
    match filter
    case All =>
      SubsequenceOfItself(favorites);
      favorites
    case Only(k) =>
      var p := (f: Item) => f.kind == k;
      forall x ensures x in Seqs.Filter(favorites, p) <==> x in favorites && x.kind == k {
        Seqs.FilterMembers(favorites, p, x);
      }
      Seqs.FilterSubsequence(favorites, p);
      Seqs.Filter(favorites, p)
  }

  lemma {:induction false} SubsequenceOfItself(s: seq<Item>)
    ensures Seqs.IsSubsequence(s, s)
  {
    if s != [] {
      SubsequenceOfItself(s[1..]);
    }
  }

  /** A new item shows first under every filter that admits it, and leaves the
      others' view unchanged. */
  lemma AddedItemShowsFirst(s: State, item: Item, now: int, filter: Filter)
    ensures filter == All || filter == Only(item.kind) ==>
      Filtered(Add(s, item, now).favorites, filter) == [item.(addedAt := now)] + Filtered(s.favorites, filter)
    ensures filter.Only? && filter.kind != item.kind ==>
      Filtered(Add(s, item, now).favorites, filter) == Filtered(s.favorites, filter)
  {
    var a := Add(s, item, now).favorites;
    assert a[1..] == s.favorites;
  }

  /** `getTypeColor`. */
  function TypeColor(k: Kind): (c: string)
    ensures c != "#6b7280"
  {
    match k
    case Team => "#3b82f6"
    case League => "#22c55e"
    case Match => "#f59e0b"
    case Prediction => "#8b5cf6"
    case Author => "#ec4899"
  }

  /** Each kind has its own colour. */
  lemma ColoursTellKindsApart(a: Kind, b: Kind)
    requires a != b
    ensures TypeColor(a) != TypeColor(b)
  {
  }
}
