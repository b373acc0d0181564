// The backend news controller: members read whole articles, guests a
// preview; articles are created with the next free id, updated in place, and
// deleted softly by clearing their active flag. The news collection is a
// list of documents in storage order.

module NewsController {
  import opened Wrappers
  import opened Strings
  import Seqs

  const ListLimit := 20
  const ListSuffix := "... [Member access required]"
  const ItemSuffix := "... [Member access required for full content]"
  const DefaultAuthor := "Admin"

  datatype Article = Article(
    id: int, title: string, preview: string, fullContent: string, author: string,
    tags: seq<string>, imageUrl: Option<string>, isActive: bool, createdAt: int, viewCount: nat)

  /** An article as sent: guests get `isPreview` and the preview in place of
      the content. */
  datatype View = View(article: Article, isPreview: bool)

  datatype Access = Member | Guest

  /** `authHeader?.includes('Bearer member') || authQuery === 'member'`. */
  function AccessOf(authHeader: Option<string>, authQuery: Option<string>): (a: Access)
    ensures a == Member <==>
      (authHeader.Some? && Contains(authHeader.value, "Bearer member")) || authQuery == Some("member")
  {
    if (authHeader.Some? && Contains(authHeader.value, "Bearer member")) || authQuery == Some("member")
    then Member else Guest
  }

  /** What a reader of the given access sees of an article. */
  function ViewFor(a: Article, access: Access, suffix: string): (v: View)
    ensures access == Member ==> v == View(a, false)
    ensures access == Guest ==> v.isPreview && v.article == a.(fullContent := a.preview + suffix)
  {
    if access == Member then View(a, false) else View(a.(fullContent := a.preview + suffix), true)
  }

  /** Guests never see the full content, only the preview and the notice. */
  lemma GuestSeesOnlyPreview(a: Article, suffix: string)
    ensures ViewFor(a, Guest, suffix).article.fullContent[..|a.preview|] == a.preview
    ensures ViewFor(a, Guest, suffix).article.fullContent[|a.preview|..] == suffix
    ensures ViewFor(a, Guest, suffix).article.(fullContent := a.fullContent) == a
  {
  }

  predicate Active(a: Article) {
    a.isActive
  }

  function CreatedAt(a: Article): real {
    a.createdAt as real
  }

  /** The answer of `getAllNews`. */
  datatype Listing = Listing(data: seq<View>, count: nat, access: Access, showsBenefits: bool)

  /**
   * The sort and the limit of `getAllNews`: the newest active articles of the
   * store, at most 20, none repeated more often than stored and none left out
   * newer than one kept.
   */
  function NewestActive(db: seq<Article>): (r: seq<Article>)
    ensures |r| == if Seqs.Count(db, Active) < ListLimit then Seqs.Count(db, Active) else ListLimit
    ensures forall i :: 0 <= i < |r| ==> r[i].isActive
    ensures Seqs.SortedDesc(r, CreatedAt)
    ensures multiset(r) <= multiset(Seqs.Filter(db, Active))
    ensures forall x, y ::
      (x in Seqs.Filter(db, Active) && y in r && multiset(r)[x] < multiset(Seqs.Filter(db, Active))[x])
      ==> CreatedAt(x) <= CreatedAt(y)
  {
    var newest := Seqs.SortDesc(Seqs.Filter(db, Active), CreatedAt);
    var n := if |newest| < ListLimit then |newest| else ListLimit;
    SortedActive(db);
    NewestFirst(db, n);
    newest[..n]
  }

  /** The first n of the active articles sorted newest first. */
  lemma NewestFirst(db: seq<Article>, n: nat)
    requires n <= |Seqs.Filter(db, Active)|
    ensures var r := Seqs.SortDesc(Seqs.Filter(db, Active), CreatedAt)[..n];
      |r| == n
      && (forall i :: 0 <= i < |r| ==> r[i].isActive)
      && Seqs.SortedDesc(r, CreatedAt)
      && multiset(r) <= multiset(Seqs.Filter(db, Active))
      && forall x, y ::
        (x in Seqs.Filter(db, Active) && y in r && multiset(r)[x] < multiset(Seqs.Filter(db, Active))[x])
        ==> CreatedAt(x) <= CreatedAt(y)
  {
    Seqs.TopOfFiltered(db, Active, CreatedAt, n);
  }

  lemma SortedActive(db: seq<Article>)
    ensures var newest := Seqs.SortDesc(Seqs.Filter(db, Active), CreatedAt);
      |newest| == Seqs.Count(db, Active) && forall i :: 0 <= i < |newest| ==> newest[i].isActive
  {
    var active := Seqs.Filter(db, Active);
    var newest := Seqs.SortDesc(active, CreatedAt);
    Seqs.CountIsFilterLength(db, Active);
    assert |newest| == |active| by {
      assert multiset(newest) == multiset(active);
      assert |multiset(newest)| == |newest|;
    }
    forall i | 0 <= i < |newest| ensures newest[i].isActive {
      assert newest[i] in multiset(active);
      Seqs.FilterMembers(db, Active, newest[i]);
    }
  }

  /** `getAllNews`: the 20 newest active articles. */
  function AllNews(db: seq<Article>, access: Access): (r: Listing)
    ensures r.count == |r.data| <= ListLimit
    ensures forall i :: 0 <= i < |r.data| ==> r.data[i].article.isActive
    ensures forall i, j :: 0 <= i < j < |r.data| ==> r.data[i].article.createdAt >= r.data[j].article.createdAt
    ensures forall i :: 0 <= i < |r.data| ==> (r.data[i].isPreview <==> access == Guest)
    ensures r.access == access && (r.showsBenefits <==> access == Guest)
    ensures |r.data| == if Seqs.Count(db, Active) < ListLimit then Seqs.Count(db, Active) else ListLimit
    ensures |r.data| == |NewestActive(db)|
      && forall i :: 0 <= i < |r.data| ==> r.data[i] == ViewFor(NewestActive(db)[i], access, ListSuffix)
  {
    var shown := NewestActive(db);
    var data := Views(shown, access);
    Listing(data, |data|, access, access == Guest)
  }

  /** Each article in the order given, as the access level shows it. */
  function Views(shown: seq<Article>, access: Access): (r: seq<View>)
    requires (forall i :: 0 <= i < |shown| ==> shown[i].isActive) && Seqs.SortedDesc(shown, CreatedAt)
    ensures |r| == |shown| && forall i :: 0 <= i < |r| ==> r[i] == ViewFor(shown[i], access, ListSuffix)
    ensures forall i :: 0 <= i < |r| ==> r[i].article.isActive && (r[i].isPreview <==> access == Guest)
    ensures forall i, j :: 0 <= i < j < |r| ==> r[i].article.createdAt >= r[j].article.createdAt
  {
    var data := seq(|shown|, i requires 0 <= i < |shown| => ViewFor(shown[i], access, ListSuffix));
    assert forall i :: 0 <= i < |data| ==> data[i].article.createdAt == shown[i].createdAt;
    data
  }

  /** The first document with the id, active or not, if `onlyActive` is false. */
  function FindById(db: seq<Article>, id: int, onlyActive: bool): (r: Option<nat>)
    ensures r.Some? ==> r.value < |db| && db[r.value].id == id && (onlyActive ==> db[r.value].isActive)
    ensures r.Some? ==> forall k :: 0 <= k < r.value ==> !(db[k].id == id && (onlyActive ==> db[k].isActive))
    ensures r.None? ==> forall k :: 0 <= k < |db| ==> !(db[k].id == id && (onlyActive ==> db[k].isActive))
  {
    if db == [] then None
    else if db[0].id == id && (onlyActive ==> db[0].isActive) then Some(0)
    else
      match FindById(db[1..], id, onlyActive)
      case None => None
      case Some(k) => Some(k + 1)
  }

  datatype Answer<T> = NotFound | Found(value: T)

  /** `getNewsById`; `id` is `parseInt` of the path, `None` for NaN. The
      view is read before a member's view count goes up in storage. */
  function NewsById(db: seq<Article>, id: Option<int>, access: Access): (r: (Answer<View>, seq<Article>))
    ensures id.None? ==> r == (NotFound, db)
    ensures id.Some? && FindById(db, id.value, true).None? ==> r == (NotFound, db)
    ensures id.Some? && FindById(db, id.value, true).Some? ==>
      var k := FindById(db, id.value, true).value;
      r.0 == Found(ViewFor(db[k], access, ItemSuffix))
      && (access == Guest ==> r.1 == db)
      && (access == Member ==> r.1 == db[k := db[k].(viewCount := db[k].viewCount + 1)])
  {
    if id.None? then (NotFound, db)
    else
      match FindById(db, id.value, true)
      case None => (NotFound, db)
      case Some(k) =>
        var stored := if access == Member then db[k := db[k].(viewCount := db[k].viewCount + 1)] else db;
        (Found(ViewFor(db[k], access, ItemSuffix)), stored)
  }

  /** A member's read counts once; a guest's does not count. */
  lemma ReadsCountOnlyForMembers(db: seq<Article>, id: int)
    requires FindById(db, id, true).Some?
    ensures var k := FindById(db, id, true).value;
      NewsById(db, Some(id), Member).1[k].viewCount == db[k].viewCount + 1
      && NewsById(db, Some(id), Guest).1 == db
  {
  }

  /** The highest id in storage. */
  function MaxId(db: seq<Article>): (m: Option<int>)
    ensures m.None? <==> db == []
    ensures m.Some? ==> (exists k :: 0 <= k < |db| && db[k].id == m.value) && forall k :: 0 <= k < |db| ==> db[k].id <= m.value
  {
    if db == [] then None
    else
      match MaxId(db[1..])
      case None => Some(db[0].id)
      case Some(m) =>
        assert forall k :: 1 <= k < |db| ==> db[k] == db[1..][k - 1];
        if db[0].id >= m then Some(db[0].id) else Some(m)
  }

  /** `lastNews ? lastNews.id + 1 : 1`. */
  function NextId(db: seq<Article>): (n: int)
    ensures forall k :: 0 <= k < |db| ==> db[k].id < n
    ensures db != [] ==> exists k :: 0 <= k < |db| && db[k].id == n - 1
    ensures db == [] ==> n == 1
  {
    match MaxId(db)
    case None => 1
    case Some(m) => m + 1
  }

  datatype CreateBody = CreateBody(
    title: string, preview: string, fullContent: string, author: Option<string>,
    tags: Option<seq<string>>, imageUrl: Option<string>)

  /** `createNews` at time `now`: the new document is appended. */
  function CreateNews(db: seq<Article>, body: CreateBody, now: int): (r: seq<Article>)
    ensures |r| == |db| + 1 && r[..|db|] == db
    ensures r[|db|].id == NextId(db) && r[|db|].isActive && r[|db|].viewCount == 0
    ensures r[|db|].author == (if body.author.Some? && body.author.value != "" then body.author.value else DefaultAuthor)
    ensures r[|db|].tags == (if body.tags.Some? then body.tags.value else [])
    ensures r[|db|].title == body.title && r[|db|].preview == body.preview && r[|db|].fullContent == body.fullContent
  {
    var author := if body.author.Some? && body.author.value != "" then body.author.value else DefaultAuthor;
    var tags := if body.tags.Some? then body.tags.value else [];
    db + [Article(NextId(db), body.title, body.preview, body.fullContent, author, tags, body.imageUrl, true, now, 0)]
  }

  predicate UniqueIds(db: seq<Article>) {
    forall i, j :: 0 <= i < j < |db| ==> db[i].id != db[j].id
  }

  /** Creating keeps the ids distinct. */
  lemma CreateKeepsIdsUnique(db: seq<Article>, body: CreateBody, now: int)
    requires UniqueIds(db)
    ensures UniqueIds(CreateNews(db, body, now))
  {
    var r := CreateNews(db, body, now);
    forall i, j | 0 <= i < j < |r| ensures r[i].id != r[j].id {
      if j == |db| {
        assert r[i] == db[i];
      } else {
        assert r[i] == db[i] && r[j] == db[j];
      }
    }
  }

  /** The fields an update may carry. */
  datatype UpdateBody = UpdateBody(
    title: Option<string>, preview: Option<string>, fullContent: Option<string>, author: Option<string>,
    tags: Option<seq<string>>, imageUrl: Option<string>, isActive: Option<bool>)

  function Applied(a: Article, u: UpdateBody): (r: Article)
    ensures r.id == a.id && r.createdAt == a.createdAt && r.viewCount == a.viewCount
    ensures r.title == u.title.GetOr(a.title) && r.preview == u.preview.GetOr(a.preview)
    ensures r.fullContent == u.fullContent.GetOr(a.fullContent) && r.author == u.author.GetOr(a.author)
    ensures r.tags == u.tags.GetOr(a.tags) && r.isActive == u.isActive.GetOr(a.isActive)
    ensures r.imageUrl == (if u.imageUrl.Some? then u.imageUrl else a.imageUrl)
  {
    a.(title := u.title.GetOr(a.title), preview := u.preview.GetOr(a.preview),
       fullContent := u.fullContent.GetOr(a.fullContent), author := u.author.GetOr(a.author),
       tags := u.tags.GetOr(a.tags), imageUrl := if u.imageUrl.Some? then u.imageUrl else a.imageUrl,
       isActive := u.isActive.GetOr(a.isActive))
  }

  /** `updateNews`: the first document with the id, active or not. */
  function UpdateNews(db: seq<Article>, id: Option<int>, u: UpdateBody): (r: (Answer<Article>, seq<Article>))
    ensures r.0.NotFound? ==> r.1 == db
    ensures r.0.NotFound? <==> id.None? || FindById(db, id.value, false).None?
    ensures r.0.Found? ==>
      var k := FindById(db, id.value, false).value;
      r.0.value == Applied(db[k], u) && r.1 == db[k := r.0.value]
  {
    if id.None? then (NotFound, db)
    else
      match FindById(db, id.value, false)
      case None => (NotFound, db)
      case Some(k) => (Found(Applied(db[k], u)), db[k := Applied(db[k], u)])
  }

  /** `deleteNews`: the document stays, inactive. */
  function DeleteNews(db: seq<Article>, id: Option<int>): (r: (Answer<Article>, seq<Article>))
    ensures |r.1| == |db|
    ensures r.0.NotFound? <==> id.None? || FindById(db, id.value, false).None?
    ensures r.0.NotFound? ==> r.1 == db
    ensures r.0.Found? ==>
      var k := FindById(db, id.value, false).value;
      r.1 == db[k := db[k].(isActive := false)] && r.0.value == r.1[k]
  {
    if id.None? then (NotFound, db)
    else
      match FindById(db, id.value, false)
      case None => (NotFound, db)
      case Some(k) => (Found(db[k].(isActive := false)), db[k := db[k].(isActive := false)])
  }

  /** Once deleted, an article is no longer found by id, and no longer listed. */
  lemma DeletedIsHidden(db: seq<Article>, id: int, access: Access)
    requires UniqueIds(db) && DeleteNews(db, Some(id)).0.Found?
    ensures NewsById(DeleteNews(db, Some(id)).1, Some(id), access).0 == NotFound
    ensures Seqs.Count(DeleteNews(db, Some(id)).1, Active) <= Seqs.Count(db, Active)
  {
    var k := FindById(db, id, false).value;
    var after := DeleteNews(db, Some(id)).1;
    assert UniqueIds(after) by {
      forall i, j | 0 <= i < j < |after| ensures after[i].id != after[j].id {
        assert after[i].id == db[i].id && after[j].id == db[j].id;
      }
    }
    assert FindById(after, id, true).None? by {
      forall j | 0 <= j < |after| ensures !(after[j].id == id && after[j].isActive) {
        if j != k {
          assert after[j] == db[j];
        }
      }
    }
    CountDeactivated(db, k);
  }

  lemma {:induction false} CountDeactivated(db: seq<Article>, k: nat)
    requires k < |db|
    ensures Seqs.Count(db[k := db[k].(isActive := false)], Active) <= Seqs.Count(db, Active)
  {
    var after := db[k := db[k].(isActive := false)];
    if k > 0 {
      assert after[1..] == db[1..][k - 1 := db[k].(isActive := false)];
      CountDeactivated(db[1..], k - 1);
    } else {
      assert after[1..] == db[1..];
    }
  }
}
