// The web client's live-data API: backend matches and news turned into the
// cards the home page shows, with "time ago" texts; any failed request
// gives an empty list.

module LiveData {
  import opened Wrappers
  import opened Strings

  const Football := "⚽"
  const Basketball := "\U{1F3C0}"
  const Tennis := "\U{1F3BE}"
  const Newspaper := "\U{1F4F0}"
  const NewsShown := 5
  const BreakingCount := 2
  const PreviewLength := 100

  /** A team as the backend may send it: an object with an optional name and
      score, a bare name, or nothing. */
  datatype Team = TeamObject(name: Option<string>, score: Option<int>) | TeamName(text: string) | NoTeam

  /** A backend match, with absent properties as `None`. */
  datatype RawMatch = RawMatch(
    id: Option<string>, mongoId: Option<string>, sport: Option<string>, homeTeam: Team, awayTeam: Team,
    competition: Option<string>, league: Option<string>, minute: Option<int>, status: Option<string>)

  datatype LiveMatch = LiveMatch(
    id: Option<string>, icon: string, title: string, description: string, time: Option<string>,
    score: string, watching: string, homeTeam: string, awayTeam: string, status: string, league: Option<string>)

  /** The body of a successful answer: an object with the list under its
      key, a bare list, or anything else (on which `.map` throws). */
  datatype Body<T> = Keyed(items: seq<T>) | Bare(items: seq<T>) | Unusable

  /** `a || b` on optional text: a non-empty `a`, else `b`. */
  function Or(a: Option<string>, b: Option<string>): (r: Option<string>)
    ensures a.Some? && a.value != "" ==> r == a
    ensures !(a.Some? && a.value != "") ==> r == b
  {
    if a.Some? && a.value != "" then a else b
  }

  /** How a team is written in text: `homeTeam?.name || homeTeam`. */
  function TeamText(t: Team): string {
    match t
    case TeamObject(name, _) => if name.Some? && name.value != "" then name.value else "[object Object]"
    case TeamName(text) => text
    case NoTeam => "undefined"
  }

  /** `homeTeam?.score || 0`. */
  function TeamScore(t: Team): (n: int)
    ensures t.TeamObject? && t.score.Some? ==> n == t.score.value
    ensures !(t.TeamObject? && t.score.Some?) ==> n == 0
  {
    if t.TeamObject? && t.score.Some? then t.score.value else 0
  }

  function SportIcon(sport: Option<string>): (r: string)
    ensures sport == Some("basketball") ==> r == Basketball
    ensures sport == Some("tennis") ==> r == Tennis
    ensures sport != Some("basketball") && sport != Some("tennis") ==> r == Football
  {
    if sport == Some("football") then Football
    else if sport == Some("basketball") then Basketball
    else if sport == Some("tennis") then Tennis
    else Football
  }

  /** One match card; `watchers` is `Math.floor(Math.random() * 200)`. */
  function ToLiveMatch(m: RawMatch, watchers: nat): (r: LiveMatch)
    ensures r.score == IntToString(TeamScore(m.homeTeam)) + "-" + IntToString(TeamScore(m.awayTeam))
    ensures r.title == TeamText(m.homeTeam) + " vs " + TeamText(m.awayTeam)
    ensures m.minute.Some? && m.minute.value != 0 ==> r.time == Some(IntToString(m.minute.value) + "'")
    ensures !(m.minute.Some? && m.minute.value != 0) ==> r.time == m.status
    ensures r.status != "" && (m.status.Some? && m.status.value != "" ==> r.status == m.status.value)
    ensures r.description == Or(Or(m.competition, m.league), Some("Live Match")).value
  {
    LiveMatch(
      Or(m.id, m.mongoId),
      SportIcon(m.sport),
      TeamText(m.homeTeam) + " vs " + TeamText(m.awayTeam),
      Or(Or(m.competition, m.league), Some("Live Match")).value,
      if m.minute.Some? && m.minute.value != 0 then Some(IntToString(m.minute.value) + "'") else m.status,
      IntToString(TeamScore(m.homeTeam)) + "-" + IntToString(TeamScore(m.awayTeam)),
      NatToString(watchers) + "K",
      TeamText(m.homeTeam),
      TeamText(m.awayTeam),
      Or(m.status, Some("live")).value,
      Or(m.competition, m.league))
  }

  /** A match without scores shows 0-0. */
  lemma MissingScoreIsNil(m: RawMatch, watchers: nat)
    requires !m.homeTeam.TeamObject? && !m.awayTeam.TeamObject?
    ensures ToLiveMatch(m, watchers).score == "0-0"
  {
    assert NatToString(0) == "0" by {
      assert DigitChar(0) == '0';
    }
  }

  /** The items of an answer; `None` is a failed request or a body that is not JSON. */
  function ItemsOf<T>(answer: Option<Body<T>>): seq<T> {
    match answer
    case None => []
    case Some(Keyed(items)) => items
    case Some(Bare(items)) => items
    case Some(Unusable) => []
  }

  /** `fetchLiveMatches`; `watchers(i)` is the random audience of the i-th card. */
  function FetchLiveMatches(answer: Option<Body<RawMatch>>, watchers: nat -> nat): (r: seq<LiveMatch>)
    ensures |r| == |ItemsOf(answer)|
    ensures forall i :: 0 <= i < |r| ==> r[i] == ToLiveMatch(ItemsOf(answer)[i], watchers(i))
    ensures answer.None? || answer == Some(Unusable) ==> r == []
  {
    var items := ItemsOf(answer);
    seq(|items|, i requires 0 <= i < |items| => ToLiveMatch(items[i], watchers(i)))
  }

  // ---------------------------------------------------------------------
  // News

  /** A backend article; `createdAt` is `None` when it is not a date. */
  datatype RawNews = RawNews(
    id: Option<string>, mongoId: Option<string>, tags: seq<string>, title: string, preview: Option<string>,
    fullContent: Option<string>, createdAt: Option<int>, viewCount: Option<int>, authorName: Option<string>)

  datatype NewsItem = NewsItem(
    id: Option<string>, icon: string, badge: string, title: string, description: string, time: string,
    comments: string, author: Option<string>, viewCount: Option<int>)

  function TagIcon(tags: seq<string>): (r: string)
    ensures tags == [] ==> r == Newspaper
  {
    if tags != [] && tags[0] == "football" then Football
    else if tags != [] && tags[0] == "basketball" then Basketball
    else if tags != [] && tags[0] == "tennis" then Tennis
    else Newspaper
  }

  /** `item.preview || item.fullContent?.substring(0, 100) + '...'`. */
  function Description(preview: Option<string>, fullContent: Option<string>): (r: string)
    ensures preview.Some? && preview.value != "" ==> r == preview.value
    ensures !(preview.Some? && preview.value != "") && fullContent.Some? ==>
      3 <= |r| <= PreviewLength + 3 && r[|r| - 3..] == "..." && r[..|r| - 3] <= fullContent.value
      && (|fullContent.value| >= PreviewLength ==> |r| == PreviewLength + 3)
  {
    if preview.Some? && preview.value != "" then preview.value
    else match fullContent
      case None => "undefined..."
      case Some(c) => (if |c| <= PreviewLength then c else c[..PreviewLength]) + "..."
  }

  /** `formatTimeAgo`: the seconds since `past`, rounded down, in the largest
      unit that keeps the count below the next; `None` is an invalid date. */
  function TimeAgo(nowMs: int, past: Option<int>): (r: string)
  {
    match past
    case None => "NaN days ago"
    case Some(pastMs) =>
      var diff := (nowMs - pastMs) / 1000;
      if diff < 3600 then IntToString(diff / 60) + " minutes ago"
      else if diff < 86400 then IntToString(diff / 3600) + " hours ago"
      else IntToString(diff / 86400) + " days ago"
  }

  /** The count shown is the whole seconds elapsed, rounded down, in minutes
      under an hour, in hours under a day, else in days. */
  lemma TimeAgoUnits(nowMs: int, pastMs: int, d: int)
    requires d == (nowMs - pastMs) / 1000
    ensures d * 1000 <= nowMs - pastMs < d * 1000 + 1000
    ensures 0 <= d < 3600 ==> TimeAgo(nowMs, Some(pastMs)) == NatToString(d / 60) + " minutes ago" && d / 60 < 60
    ensures 3600 <= d < 86400 ==>
      TimeAgo(nowMs, Some(pastMs)) == NatToString(d / 3600) + " hours ago" && 1 <= d / 3600 < 24
    ensures d >= 86400 ==> TimeAgo(nowMs, Some(pastMs)) == NatToString(d / 86400) + " days ago" && d / 86400 >= 1
  {
    WholeSeconds(nowMs - pastMs, d);
    if 0 <= d < 3600 {
      DivBelow(d, 60, 60);
    } else if 3600 <= d < 86400 {
      DivBelow(d, 3600, 24);
      QuotientAtLeastOne(d, 3600);
    } else if d >= 86400 {
      QuotientAtLeastOne(d, 86400);
    }
  }

  lemma WholeSeconds(ms: int, d: int)
    requires d == ms / 1000
    ensures d * 1000 <= ms < d * 1000 + 1000
  {
  }

  lemma QuotientAtLeastOne(d: nat, unit: nat)
    requires unit > 0 && d >= unit
    ensures d / unit >= 1
  {
  }

  /** An article dated a minute or more in the future shows a negative count. */
  lemma FutureDateShowsNegativeMinutes(nowMs: int, pastMs: int)
    requires pastMs - nowMs >= 60000
    ensures TimeAgo(nowMs, Some(pastMs))[0] == '-'
  {
    var diff := (nowMs - pastMs) / 1000;
    assert diff <= -60;
    assert diff / 60 < 0;
  }

  /** One news card at position `index`; `randomComments` stands for
      `Math.floor(Math.random() * 3000)`. */
  function ToNewsItem(item: RawNews, index: nat, nowMs: int, randomComments: nat): (r: NewsItem)
    ensures r.badge == (if index < BreakingCount then "BREAKING" else "NEWS")
    ensures r.time == TimeAgo(nowMs, item.createdAt)
    ensures item.viewCount.Some? && item.viewCount.value != 0 ==> r.comments == IntToString(item.viewCount.value)
    ensures r.title == item.title && r.viewCount == item.viewCount && r.author == item.authorName
  {
    NewsItem(
      Or(item.id, item.mongoId),
      TagIcon(item.tags),
      if index < BreakingCount then "BREAKING" else "NEWS",
      item.title,
      Description(item.preview, item.fullContent),
      TimeAgo(nowMs, item.createdAt),
      if item.viewCount.Some? && item.viewCount.value != 0 then IntToString(item.viewCount.value)
      else NatToString(randomComments),
      item.authorName,
      item.viewCount)
  }

  /** `fetchLatestNews`. */
  function FetchLatestNews(answer: Option<Body<RawNews>>, nowMs: int, randomComments: nat -> nat): (r: seq<NewsItem>)
    ensures |r| == if |ItemsOf(answer)| < NewsShown then |ItemsOf(answer)| else NewsShown
    ensures forall i :: 0 <= i < |r| ==> r[i] == ToNewsItem(ItemsOf(answer)[i], i, nowMs, randomComments(i))
    ensures answer.None? || answer == Some(Unusable) ==> r == []
  {
    var items := ItemsOf(answer);
    var first := if |items| < NewsShown then items else items[..NewsShown];
    seq(|first|, i requires 0 <= i < |first| => ToNewsItem(first[i], i, nowMs, randomComments(i)))
  }

  /** At most five cards, and exactly the first two are breaking news. */
  lemma NewsBadges(answer: Option<Body<RawNews>>, nowMs: int, randomComments: nat -> nat)
    ensures |FetchLatestNews(answer, nowMs, randomComments)| <= NewsShown
    ensures forall i :: 0 <= i < |FetchLatestNews(answer, nowMs, randomComments)| ==>
      (FetchLatestNews(answer, nowMs, randomComments)[i].badge == "BREAKING" <==> i < BreakingCount)
  {
  }
}
