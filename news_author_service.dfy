// The news author service: authors are upserted by id, and an article
// written with an author takes the next free article id and raises the
// author's collaboration count; event templates turn events into articles.

module NewsAuthorService {
  import opened Wrappers
  import opened Strings
  import Seqs

  datatype Author = Author(
    id: string, name: string, icon: string, bio: string, expertise: seq<string>,
    isActive: bool, collaborationCount: nat, lastCollaboration: Option<int>)

  /** The properties a caller passes to `createOrUpdateAuthor`. */
  datatype AuthorData = AuthorData(
    id: string, name: Option<string>, icon: Option<string>, bio: Option<string>, expertise: Option<seq<string>>)

  /** An author without properties yet. */
  function Blank(id: string): Author {
    Author(id, "", "", "", [], true, 0, None)
  }

  /** `{ ...data, isActive: true }` written over a stored author. */
  function Merged(a: Author, d: AuthorData): (r: Author)
    ensures r.id == d.id && r.isActive
    ensures r.name == d.name.GetOr(a.name) && r.icon == d.icon.GetOr(a.icon)
    ensures r.bio == d.bio.GetOr(a.bio) && r.expertise == d.expertise.GetOr(a.expertise)
    ensures r.collaborationCount == a.collaborationCount && r.lastCollaboration == a.lastCollaboration
  {
    a.(id := d.id, name := d.name.GetOr(a.name), icon := d.icon.GetOr(a.icon), bio := d.bio.GetOr(a.bio),
       expertise := d.expertise.GetOr(a.expertise), isActive := true)
  }

  /** The properties of an article passed to `createCollaborationNews`;
      absent ones are `None`. */
  datatype ArticleData = ArticleData(
    title: Option<string>, preview: Option<string>, fullContent: Option<string>,
    collaborationType: Option<string>, tags: Option<seq<string>>)

  datatype Article = Article(
    id: int, title: Option<string>, preview: Option<string>, fullContent: Option<string>,
    author: Author, collaborationType: Option<string>, tags: seq<string>, isActive: bool)

  /** The first author with the id (and active, if asked). */
  function FindAuthor(authors: seq<Author>, id: string, onlyActive: bool): (r: Option<nat>)
    ensures r.Some? ==> r.value < |authors| && authors[r.value].id == id && (onlyActive ==> authors[r.value].isActive)
    ensures r.Some? ==> forall k :: 0 <= k < r.value ==> !(authors[k].id == id && (onlyActive ==> authors[k].isActive))
    ensures r.None? ==> forall k :: 0 <= k < |authors| ==> !(authors[k].id == id && (onlyActive ==> authors[k].isActive))
  {
    if authors == [] then None
    else if authors[0].id == id && (onlyActive ==> authors[0].isActive) then Some(0)
    else
      match FindAuthor(authors[1..], id, onlyActive)
      case None => None
      case Some(k) => Some(k + 1)
  }

  /** `lastNews ? lastNews.id + 1 : 1`. */
  function NextArticleId(news: seq<Article>): (n: int)
    ensures forall k :: 0 <= k < |news| ==> news[k].id < n
    ensures news != [] ==> exists k :: 0 <= k < |news| && news[k].id == n - 1
    ensures news == [] ==> n == 1
  {
    if news == [] then 1
    else
      var rest := NextArticleId(news[1..]);
      assert forall k :: 1 <= k < |news| ==> news[k] == news[1..][k - 1];
      if news[1..] == [] || news[0].id + 1 >= rest then news[0].id + 1 else rest
  }

  function Count(a: Author): real {
    a.collaborationCount as real
  }

  predicate IsActive(a: Author) {
    a.isActive
  }

  // ---------------------------------------------------------------------
  // Event templates

  /** The texts an event contributes, as JavaScript interpolates them. */
  datatype EventData = EventData(matchName: string, confidence: string, milestone: string, topic: string)

  /** The event types the templates object has an entry for. */
  predicate IsEventType(t: string) {
    t == "prediction_success" || t == "community_milestone" || t == "analysis_update"
  }

  /** A template sets the title, the collaboration type and the tags. */
  predicate HasTemplateFields(a: ArticleData) {
    a.title.Some? && a.collaborationType.Some? && a.tags.Some?
  }

  datatype EventKind = PredictionSuccess | CommunityMilestone | AnalysisUpdate

  /** The templates object's key lookup. */
  function KindOf(eventType: string): (k: Option<EventKind>)
    ensures k.Some? <==> IsEventType(eventType)
  {
    if eventType == "prediction_success" then Some(PredictionSuccess)
    else if eventType == "community_milestone" then Some(CommunityMilestone)
    else if eventType == "analysis_update" then Some(AnalysisUpdate)
    else None
  }

  /** The template of a known event type. */
  function OwnTemplate(eventType: string, e: EventData): (r: Option<ArticleData>)
    ensures r.Some? <==> KindOf(eventType).Some?
    ensures r.Some? ==> HasTemplateFields(r.value)
  {
    match KindOf(eventType)
    case None => None
    case Some(k) => Some(TemplateOf(k, e))
  }

  function TemplateOf(k: EventKind, e: EventData): (a: ArticleData)
    ensures HasTemplateFields(a)
  {
    match k
    case PredictionSuccess => PredictionSuccessTemplate(e)
    case CommunityMilestone => MilestoneTemplate(e)
    case AnalysisUpdate => AnalysisTemplate(e)
  }

  function PredictionSuccessTemplate(e: EventData): (a: ArticleData)
    ensures HasTemplateFields(a)
  {
    ArticleData(
      Some("\U{1F3AF} " + e.matchName + " - Prediction Success!"),
      Some("Accurate prediction for " + e.matchName + " with " + e.confidence + "% confidence"),
      Some("Our AI successfully predicted the outcome of " + e.matchName + ". The model showed " + e.confidence
        + "% confidence in this prediction, demonstrating the power of data-driven sports analysis."),
      Some("prediction"), Some(["prediction", "success", "ai"]))
  }

  function MilestoneTemplate(e: EventData): (a: ArticleData)
    ensures HasTemplateFields(a)
  {
    ArticleData(
      Some("\U{1F389} " + e.milestone + " Predictions Milestone!"),
      Some("Celebrating " + e.milestone + " successful predictions"),
      Some("We've reached an incredible milestone of " + e.milestone
        + " predictions! Thank you to our amazing community for your continued support and engagement."),
      Some("community"), Some(["milestone", "community"]))
  }

  function AnalysisTemplate(e: EventData): (a: ArticleData)
    ensures HasTemplateFields(a)
  {
    ArticleData(
      Some("\U{1F4CA} New Analysis: " + e.topic),
      Some("Expert analysis on " + e.topic),
      Some("In-depth analysis of " + e.topic + ", providing insights and data-driven takeaways for the community."),
      Some("analysis"), Some(["analysis", "update"]))
  }

  /** `templates[eventType]` as written: the templates are a plain object, so
      a name it inherits (`toString`, `constructor`, ...) finds a function,
      which is truthy and is then read as article data without properties. */
  function TemplateAsWritten(eventType: string, e: EventData): (r: Option<ArticleData>)
    ensures eventType !in ObjectPrototypeNames ==> r == OwnTemplate(eventType, e)
    ensures eventType in ObjectPrototypeNames ==> r == Some(ArticleData(None, None, None, None, None))
  {
    if eventType in ObjectPrototypeNames then Some(ArticleData(None, None, None, None, None))
    else OwnTemplate(eventType, e)
  }

  /** So `generateAutoNews(id, 'toString', ...)` is not refused as an
      unknown event type: it goes on to write an article without a title. */
  lemma InheritedNameIsNotUnknown(eventType: string, e: EventData)
    requires eventType == "toString"
    ensures !IsEventType(eventType)
    ensures TemplateAsWritten(eventType, e).Some? && TemplateAsWritten(eventType, e).value.title.None?
  {
  }

  /** The default authors of `initializeDefaultAuthors`. */
  const Defaults: seq<AuthorData> := [
    AuthorData("mara", Some("Mara AI"), Some("\U{1F916}"), Some("AI-powered prediction specialist"),
      Some(["predictions", "machine-learning", "analytics"])),
    AuthorData("alex_sports", Some("Alex Sports"), Some("⚽"), Some("Sports analyst and commentator"),
      Some(["football", "analysis", "live-commentary"])),
    AuthorData("sarah_stats", Some("Sarah Stats"), Some("\U{1F4CA}"), Some("Statistical analysis expert"),
      Some(["statistics", "data-science", "trends"]))]

  lemma DefaultIdsDistinct()
    ensures forall i, j :: 0 <= i < j < |Defaults| ==> Defaults[i].id != Defaults[j].id
  {
  }

  /** Some author of `authors` is active and carries the properties of `d`. */
  predicate InstalledIn(authors: seq<Author>, d: AuthorData) {
    exists a :: a in authors && a.id == d.id && a.isActive && Some(a.name) == d.name && Some(a.icon) == d.icon
      && Some(a.bio) == d.bio && Some(a.expertise) == d.expertise
  }

  /** The data sets every property. */
  predicate Complete(d: AuthorData) {
    d.name.Some? && d.icon.Some? && d.bio.Some? && d.expertise.Some?
  }

  lemma DefaultComplete(i: nat)
    requires i < |Defaults|
    ensures Complete(Defaults[i])
  {
  }

  /** An installed author stays installed while the other authors are kept. */
  lemma InstalledKept(before: seq<Author>, after: seq<Author>, d: AuthorData, id: string)
    requires InstalledIn(before, d) && d.id != id
    requires forall b :: b in before && b.id != id ==> b in after
    ensures InstalledIn(after, d)
  {
    var w :| w in before && w.id == d.id && w.isActive && Some(w.name) == d.name && Some(w.icon) == d.icon
      && Some(w.bio) == d.bio && Some(w.expertise) == d.expertise;
    assert w in after;
  }

  /** Upserting complete data installs it. */
  lemma MergedInstalls(authors: seq<Author>, a: Author, x: Author, d: AuthorData)
    requires Complete(d) && a == Merged(x, d) && a in authors
    ensures InstalledIn(authors, d)
  {
  }

  /** The author and news collections. */
  class Service {
    var authors: seq<Author>
    var news: seq<Article>

    /** At most one author per id, as upserts by id keep it. */
    predicate Valid()
      reads this
    {
      forall i, j :: 0 <= i < j < |authors| ==> authors[i].id != authors[j].id
    }

    constructor(authors: seq<Author>, news: seq<Article>)
      requires forall i, j :: 0 <= i < j < |authors| ==> authors[i].id != authors[j].id
      ensures this.authors == authors && this.news == news && Valid()
    {
      this.authors, this.news := authors, news;
    }

    /** `getActiveAuthors`: the active authors, most collaborations first. */
    function ActiveAuthors(): (r: seq<Author>)
      reads this
      ensures multiset(r) == multiset(Seqs.Filter(authors, IsActive))
      ensures Seqs.SortedDesc(r, Count)
      ensures forall a :: a in r <==> a in authors && a.isActive
    {
      var active := Seqs.Filter(authors, IsActive);
      forall a ensures a in active <==> a in authors && a.isActive {
        Seqs.FilterMembers(authors, IsActive, a);
      }
      var r := Seqs.SortDesc(active, Count);
      assert forall a :: a in r <==> a in multiset(active);
      r
    }

    /** `getAuthorById`. */
    function AuthorById(id: string): (r: Option<Author>)
      reads this
      ensures r.Some? ==> r.value in authors && r.value.id == id && r.value.isActive
      ensures r.None? ==> forall a :: a in authors ==> !(a.id == id && a.isActive)
    {
      match FindAuthor(authors, id, true)
      case None => None
      case Some(k) => Some(authors[k])
    }

    /** `createOrUpdateAuthor`: an upsert by id that keeps the author active. */
    method CreateOrUpdateAuthor(d: AuthorData) returns (a: Author)
      requires Valid()
      modifies this
      ensures Valid() && news == old(news)
      ensures a in authors && a.id == d.id && a.isActive
      ensures FindAuthor(old(authors), d.id, false).Some? ==>
        var k := FindAuthor(old(authors), d.id, false).value;
        a == Merged(old(authors)[k], d) && authors == old(authors)[k := a]
      ensures FindAuthor(old(authors), d.id, false).None? ==>
        a == Merged(Blank(d.id), d) && authors == old(authors) + [a]
      ensures forall b :: b in old(authors) && b.id != d.id ==> b in authors
    {
      match FindAuthor(authors, d.id, false)
      case Some(k) =>
        a := Merged(authors[k], d);
        ghost var before := authors;
        authors := authors[k := a];
        assert authors[k] == a;
        forall b | b in before && b.id != d.id ensures b in authors {
          var j :| 0 <= j < |before| && before[j] == b;
          assert authors[j] == b;
        }
      case None =>
        a := Merged(Blank(d.id), d);
        authors := authors + [a];
    }

    /** `createCollaborationNews` at time `now`. The article carries the
        author as they were, before the count goes up. */
    method CreateCollaborationNews(authorId: string, data: ArticleData, now: int) returns (r: Result<Article, string>)
      requires Valid()
      modifies this
      ensures Valid()
      ensures old(AuthorById(authorId)).None? ==>
        r == Err("Author not found") && authors == old(authors) && news == old(news)
      ensures old(AuthorById(authorId)).Some? ==>
        var k := FindAuthor(old(authors), authorId, true).value;
        var before := old(authors)[k];
        r.Ok? && r.value.id == NextArticleId(old(news)) && r.value.author == before
        && r.value.title == data.title && r.value.preview == data.preview && r.value.fullContent == data.fullContent
        && r.value.collaborationType == data.collaborationType
        && r.value.tags == data.tags.GetOr([]) && r.value.isActive
        && news == old(news) + [r.value]
        && authors == old(authors)[k := before.(collaborationCount := before.collaborationCount + 1,
                                                lastCollaboration := Some(now))]
    {
      var found := FindAuthor(authors, authorId, true);
      if found.None? {
        return Err("Author not found");
      }
      var k := found.value;
      var author := authors[k];
      var article := Article(NextArticleId(news), data.title, data.preview, data.fullContent, author,
        data.collaborationType, data.tags.GetOr([]), true);
      news := news + [article];
      authors := authors[k := author.(collaborationCount := author.collaborationCount + 1, lastCollaboration := Some(now))];
      r := Ok(article);
    }

    /** `generateAutoNews` with its template lookup corrected to the three
        listed event types: any other type writes nothing and answers
        `Ok(None)`, the `null` of the source. */
    method GenerateAutoNews(authorId: string, eventType: string, e: EventData, now: int)
      returns (r: Result<Option<Article>, string>)
      requires Valid()
      modifies this
      ensures Valid()
      ensures !IsEventType(eventType) ==> r == Ok(None) && authors == old(authors) && news == old(news)
      ensures IsEventType(eventType) && old(AuthorById(authorId)).None? ==>
        r == Err("Author not found") && authors == old(authors) && news == old(news)
      ensures IsEventType(eventType) && old(AuthorById(authorId)).Some? ==>
        var d := OwnTemplate(eventType, e).value;
        var k := FindAuthor(old(authors), authorId, true).value;
        var before := old(authors)[k];
        r == Ok(Some(Article(NextArticleId(old(news)), d.title, d.preview, d.fullContent, before,
                             d.collaborationType, d.tags.GetOr([]), true)))
        && news == old(news) + [r.value.value]
        && authors == old(authors)[k := before.(collaborationCount := before.collaborationCount + 1,
                                                lastCollaboration := Some(now))]
    {
      var template := OwnTemplate(eventType, e);
      if template.None? {
        return Ok(None);
      }
      var created := CreateCollaborationNews(authorId, template.value, now);
      match created
      case Err(message) => r := Err(message);
      case Ok(article) => r := Ok(Some(article));
    }

    /** The author is present, active and carries the default's properties. */
    predicate Installed(d: AuthorData)
      reads this
    {
      InstalledIn(authors, d)
    }

    /** `initializeDefaultAuthors`: the three defaults are upserted in turn. */
    method InitializeDefaultAuthors()
      requires Valid()
      modifies this
      ensures Valid() && news == old(news)
      ensures forall i :: 0 <= i < |Defaults| ==> Installed(Defaults[i])
      ensures forall b :: b in old(authors) && (forall i :: 0 <= i < |Defaults| ==> b.id != Defaults[i].id) ==> b in authors
    {
      DefaultIdsDistinct();
      var i := 0;
      while i < |Defaults|
        invariant 0 <= i <= |Defaults|
        invariant Valid() && news == old(news)
        invariant forall j :: 0 <= j < i ==> Installed(Defaults[j])
        invariant forall b :: b in old(authors) && (forall j :: 0 <= j < i ==> b.id != Defaults[j].id) ==> b in authors
      {
        ghost var before := authors;
        var d := Defaults[i];
        var a := CreateOrUpdateAuthor(d);
        forall j | 0 <= j < i ensures Installed(Defaults[j]) {
          InstalledKept(before, authors, Defaults[j], d.id);
        }
        DefaultComplete(i);
        ghost var x := if FindAuthor(before, d.id, false).Some? then before[FindAuthor(before, d.id, false).value]
                       else Blank(d.id);
        MergedInstalls(authors, a, x, d);
        i := i + 1;
      }
    }
  }
}
