// The backend scraper: Statarea tip rows parsed into predictions, the fixed
// Stake demo odds, the rule-based fallback prediction, the combining step
// of the save routine with its find-or-create loop over stored matches, the
// request rate limiter and the retry loop around each fetch.

module ScraperService {
  import opened Wrappers
  import opened Strings

  const HourMs := 3600000
  const DayMs := 86400000
  /** The least gap between two requests, in milliseconds. */
  const MinInterval := 2000

  datatype Outcome = Home | Draw | Away

  datatype Probs = Probs(home: real, draw: real, away: real)

  /** One table row as the page delivers it; `parsedOdds` is `parseFloat` of
      the odds cell, `None` standing for NaN. */
  datatype RawRow = RawRow(
    header: bool,
    leagueCell: string,
    matchCell: string,
    tipCell: string,
    parsedOdds: Option<real>)

  datatype ScrapedPrediction = ScrapedPrediction(
    homeTeam: string,
    awayTeam: string,
    prediction: Outcome,
    confidence: int,
    date: int,
    competition: string,
    tip: string,
    odds: real,
    probabilities: Probs,
    source: string)

  datatype OddsSnap = OddsSnap(home: real, draw: real, away: real, source: string)

  datatype OddsEntry = OddsEntry(
    homeTeam: string,
    awayTeam: string,
    date: int,
    competition: string,
    odds: OddsSnap,
    source: string)

  // ---------------------------------------------------------------------
  // Splitting "Team A - Team B" with the pattern /\s*-\s*|\s*vs\s*/i

  /** The end of the white-space run starting at `i`. */
  function SpaceEnd(s: string, i: nat): (j: nat)
    requires i <= |s|
    ensures i <= j <= |s|
    ensures j == |s| || !IsJsSpace(s[j])
    ensures forall k :: i <= k < j ==> IsJsSpace(s[k])
    decreases |s| - i
  {
    if i < |s| && IsJsSpace(s[i]) then SpaceEnd(s, i + 1) else i
  }

  predicate IsV(c: char) {
    c == 'v' || c == 'V'
  }

  predicate IsS(c: char) {
    c == 's' || c == 'S'
  }

  /** Where a separator match starting exactly at `q` ends, if one does:
      the first alternative `\s*-\s*` is tried before `\s*vs\s*`. */
  function SeparatorAt(s: string, q: nat): (e: Option<nat>)
    requires q < |s|
    ensures e.Some? ==> q < e.value <= |s|
  {
    var j := SpaceEnd(s, q);
    if j < |s| && s[j] == '-' then Some(SpaceEnd(s, j + 1))
    else if j + 1 < |s| && IsV(s[j]) && IsS(s[j + 1]) then Some(SpaceEnd(s, j + 2))
    else None
  }

  /** The split loop of `String.prototype.split` with a pattern that never
      matches the empty string: `p` starts the current piece, `q` is the
      position being tried. */
  function SplitFrom(s: string, p: nat, q: nat): (r: seq<string>)
    requires p <= q <= |s|
    ensures |r| >= 1
    decreases |s| - q
  {
    if q == |s| then [s[p..]]
    else match SeparatorAt(s, q)
      case None => SplitFrom(s, p, q + 1)
      case Some(e) => [s[p..q]] + SplitFrom(s, e, e)
  }

  function SplitMatch(s: string): (r: seq<string>)
    ensures |r| >= 1
  {
    SplitFrom(s, 0, 0)
  }

  ghost predicate NoSeparatorFrom(s: string, q: nat) {
    forall k :: q <= k < |s| ==> SeparatorAt(s, k).None?
  }

  /** Text with no separator anywhere is one piece, unchanged. */
  lemma {:induction false} SplitFromNoSeparator(s: string, p: nat, q: nat)
    requires p <= q <= |s|
    requires NoSeparatorFrom(s, q)
    ensures SplitFrom(s, p, q) == [s[p..]]
    decreases |s| - q
  {
    if q < |s| {
      assert SeparatorAt(s, q).None?;
      SplitStep(s, p, q);
      SplitFromNoSeparator(s, p, q + 1);
    }
  }

  lemma SplitNoSeparator(s: string)
    requires NoSeparatorFrom(s, 0)
    ensures SplitMatch(s) == [s]
  {
    SplitFromNoSeparator(s, 0, 0);
  }

  /** A separator at the first place one matches cuts the text there. */
  lemma {:induction false} SplitFirstSeparator(s: string, q: nat)
    requires q < |s| && SeparatorAt(s, q).Some?
    requires forall k :: 0 <= k < q ==> SeparatorAt(s, k).None?
    ensures SplitMatch(s) == [s[..q]] + SplitFrom(s, SeparatorAt(s, q).value, SeparatorAt(s, q).value)
  {
    SkipToSeparator(s, 0, q);
  }

  lemma SkipToSeparator(s: string, p: nat, q: nat)
    requires p <= q < |s| && SeparatorAt(s, q).Some?
    requires forall k :: p <= k < q ==> SeparatorAt(s, k).None?
    ensures SplitFrom(s, p, p) == [s[p..q]] + SplitFrom(s, SeparatorAt(s, q).value, SeparatorAt(s, q).value)
  {
    SkipFrom(s, p, p, q);
    SplitStep(s, p, q);
  }

  /** Positions without a separator leave the current piece running. */
  lemma {:induction false} SkipFrom(s: string, p: nat, i: nat, q: nat)
    requires p <= i <= q <= |s|
    requires forall k :: i <= k < q ==> SeparatorAt(s, k).None?
    ensures SplitFrom(s, p, i) == SplitFrom(s, p, q)
    decreases q - i
  {
    if i < q {
      SplitStep(s, p, i);
      SkipFrom(s, p, i + 1, q);
    }
  }

  /** One step of the split loop. */
  lemma SplitStep(s: string, p: nat, q: nat)
    requires p <= q < |s|
    ensures SeparatorAt(s, q).None? ==> SplitFrom(s, p, q) == SplitFrom(s, p, q + 1)
    ensures SeparatorAt(s, q).Some? ==>
      SplitFrom(s, p, q) == [s[p..q]] + SplitFrom(s, SeparatorAt(s, q).value, SeparatorAt(s, q).value)
  {
  }

  // ---------------------------------------------------------------------
  // Tip rows

  /** The tip's reading, tested in order: home, away, draw, else the default. */
  function ClassifyTip(tip: string): (r: (Outcome, int))
    ensures r.0 == Home <==> Contains(tip, "1") || ContainsCI(tip, "home")
    ensures r.0 == Away <==> (!(Contains(tip, "1") || ContainsCI(tip, "home"))
      && (Contains(tip, "2") || ContainsCI(tip, "away")))
    ensures r.1 == (if r.0 == Draw then (if ContainsCI(tip, "x") || ContainsCI(tip, "draw") then 60 else 65) else 70)
  {
    if Contains(tip, "1") || ContainsCI(tip, "home") then (Home, 70)
    else if Contains(tip, "2") || ContainsCI(tip, "away") then (Away, 70)
    else if ContainsCI(tip, "x") || ContainsCI(tip, "draw") then (Draw, 60)
    else (Draw, 65)
  }

  /** The fixed probabilities attached to a tip. */
  function TipProbabilities(o: Outcome): (p: Probs)
    ensures o == Home ==> p.home > p.draw && p.home > p.away
    ensures o == Away ==> p.away > p.home && p.away > p.draw
    ensures o == Draw ==> p.draw > p.home && p.draw > p.away
  {
    Probs(if o == Home then 0.70 else 0.15,
          if o == Draw then 0.60 else 0.15,
          if o == Away then 0.70 else 0.15)
  }

  /** The three attached probabilities add up to 1 for a home or away tip and
      to only 0.9 for a draw tip. */
  lemma TipProbabilitiesTotal(o: Outcome)
    ensures var p := TipProbabilities(o);
      p.home + p.draw + p.away == (if o == Draw then 0.9 else 1.0)
  {
  }

  /** `parseFloat(text) || 2.0`: NaN and zero fall back to 2.0. */
  function OddsOrDefault(parsed: Option<real>): (r: real)
    ensures r != 0.0
    ensures parsed.Some? && parsed.value != 0.0 ==> r == parsed.value
  {
    if parsed.Some? && parsed.value != 0.0 then parsed.value else 2.0
  }

  /** One row of the tips table, read as a prediction for the next day. */
  function ParseRow(row: RawRow, now: int): (r: Option<ScrapedPrediction>)
    ensures r.Some? <==> !row.header && |SplitMatch(Trim(row.matchCell))| == 2 && Trim(row.tipCell) != []
    ensures r.Some? ==> r.value.odds != 0.0 && r.value.source == "statarea"
  {
    var matchText := Trim(row.matchCell);
    var tip := Trim(row.tipCell);
    var parts := SplitMatch(matchText);
    if row.header || |parts| != 2 || tip == [] then None
    else
      var league := Trim(row.leagueCell);
      var c := ClassifyTip(tip);
      Some(ScrapedPrediction(
        Trim(parts[0]), Trim(parts[1]), c.0, c.1, now + DayMs,
        if league == [] then "Unknown League" else league,
        tip, OddsOrDefault(row.parsedOdds), TipProbabilities(c.0), "statarea"))
  }

  /** A parsed row carries the two trimmed team names around the separator,
      the tip's reading and its probabilities, and tomorrow's date. */
  lemma ParseRowFields(row: RawRow, now: int)
    requires ParseRow(row, now).Some?
    ensures var p := ParseRow(row, now).value;
      var parts := SplitMatch(Trim(row.matchCell));
      |parts| == 2 && p.homeTeam == Trim(parts[0]) && p.awayTeam == Trim(parts[1])
      && p.tip == Trim(row.tipCell) && (p.prediction, p.confidence) == ClassifyTip(p.tip)
      && p.probabilities == TipProbabilities(p.prediction)
      && p.odds == OddsOrDefault(row.parsedOdds) && p.date == now + DayMs
  {
  }

  /** A letter other than v starts no separator. */
  lemma LetterStartsNoSeparator(s: string, q: nat)
    requires q < |s| && ('a' <= s[q] <= 'z' || 'A' <= s[q] <= 'Z') && !IsV(s[q])
    ensures SeparatorAt(s, q).None?
  {
    assert SpaceEnd(s, q) == q;
  }

  predicate IsLetterNotV(c: char) {
    ('a' <= c <= 'z' || 'A' <= c <= 'Z') && !IsV(c)
  }

  /** The characters from `i` to `j` are letters other than v. */
  predicate LettersBetween(s: string, i: nat, j: nat)
    requires i <= j <= |s|
    decreases j - i
  {
    i == j || (IsLetterNotV(s[i]) && LettersBetween(s, i + 1, j))
  }

  /** Such a run of letters starts no separator anywhere. */
  lemma {:induction false} LettersNoSeparator(s: string, i: nat, j: nat)
    requires i <= j <= |s| && LettersBetween(s, i, j)
    ensures forall k :: i <= k < j ==> SeparatorAt(s, k).None?
    decreases j - i
  {
    if i < j {
      LetterStartsNoSeparator(s, i);
      LettersNoSeparator(s, i + 1, j);
    }
  }

  /** A run of letters up to a separator is the next piece. */
  lemma LettersThenSeparator(s: string, p: nat, n: nat)
    requires p <= n < |s| && LettersBetween(s, p, n) && SeparatorAt(s, n).Some?
    ensures SplitFrom(s, p, p) == [s[p..n]] + SplitFrom(s, SeparatorAt(s, n).value, SeparatorAt(s, n).value)
  {
    LettersNoSeparator(s, p, n);
    SkipToSeparator(s, p, n);
  }

  /** A run of letters to the end is the last piece. */
  lemma LettersToEnd(s: string, p: nat)
    requires p <= |s| && LettersBetween(s, p, |s|)
    ensures SplitFrom(s, p, p) == [s[p..]]
  {
    LettersNoSeparator(s, p, |s|);
    SplitFromNoSeparator(s, p, p);
  }

  /** Letters, a separator, letters: two pieces. */
  lemma SplitTwoRuns(s: string, n: nat, e: nat)
    requires n < |s| && LettersBetween(s, 0, n) && SeparatorAt(s, n) == Some(e)
    requires LettersBetween(s, e, |s|)
    ensures SplitMatch(s) == [s[..n], s[e..]]
  {
    LettersThenSeparator(s, 0, n);
    LettersToEnd(s, e);
  }

  /** Letters, a separator, letters, a separator, letters: three pieces. */
  lemma SplitThreeRuns(s: string, n1: nat, e1: nat, n2: nat, e2: nat)
    requires n1 < |s| && LettersBetween(s, 0, n1) && SeparatorAt(s, n1) == Some(e1)
    requires e1 <= n2 < |s| && LettersBetween(s, e1, n2) && SeparatorAt(s, n2) == Some(e2)
    requires LettersBetween(s, e2, |s|)
    ensures SplitMatch(s) == [s[..n1], s[e1..n2], s[e2..]]
  {
    LettersThenSeparator(s, 0, n1);
    LettersThenSeparator(s, e1, n2);
    LettersToEnd(s, e2);
  }

  /** "Arsenal - Chelsea" reads as the two teams around the separator. */
  lemma SplitTwoTeams(s: string)
    requires s == "Arsenal - Chelsea"
    ensures SplitMatch(s) == ["Arsenal", "Chelsea"]
  {
    ArsenalRuns(s);
    ArsenalSeparator(s);
    SplitTwoRuns(s, 7, 10);
    ArsenalPieces(s);
  }

  lemma ArsenalRuns(s: string)
    requires s == "Arsenal - Chelsea"
    ensures LettersBetween(s, 0, 7) && LettersBetween(s, 10, 17)
  {
  }

  lemma ArsenalSeparator(s: string)
    requires s == "Arsenal - Chelsea"
    ensures SeparatorAt(s, 7) == Some(10)
  {
    assert SpaceEnd(s, 8) == 8;
    assert SpaceEnd(s, 7) == 8;
    assert SpaceEnd(s, 10) == 10;
    assert SpaceEnd(s, 9) == 10;
  }

  lemma ArsenalPieces(s: string)
    requires s == "Arsenal - Chelsea"
    ensures s[..7] == "Arsenal" && s[10..] == "Chelsea"
  {
  }

  /** A hyphen inside a team name is a separator too: three pieces. */
  lemma HyphenSplitsThree(s: string)
    requires s == "Saint-Etienne - Lyon"
    ensures SplitMatch(s) == ["Saint", "Etienne", "Lyon"]
  {
    SaintRuns(s);
    SaintSeparators(s);
    SplitThreeRuns(s, 5, 6, 13, 16);
    SaintPieces(s);
  }

  lemma SaintRuns(s: string)
    requires s == "Saint-Etienne - Lyon"
    ensures LettersBetween(s, 0, 5) && LettersBetween(s, 6, 13) && LettersBetween(s, 16, 20)
  {
  }

  lemma SaintSeparators(s: string)
    requires s == "Saint-Etienne - Lyon"
    ensures SeparatorAt(s, 5) == Some(6) && SeparatorAt(s, 13) == Some(16)
  {
    assert SpaceEnd(s, 5) == 5;
    assert SpaceEnd(s, 6) == 6;
    assert SpaceEnd(s, 14) == 14;
    assert SpaceEnd(s, 13) == 14;
    assert SpaceEnd(s, 16) == 16;
    assert SpaceEnd(s, 15) == 16;
  }

  lemma SaintPieces(s: string)
    requires s == "Saint-Etienne - Lyon"
    ensures s[..5] == "Saint" && s[6..13] == "Etienne" && s[16..] == "Lyon"
  {
  }

  /** So a row naming "Saint-Etienne" is dropped. */
  lemma HyphenatedTeamDropped(row: RawRow, now: int)
    requires row.matchCell == "Saint-Etienne - Lyon"
    ensures ParseRow(row, now).None?
  {
    var s := row.matchCell;
    assert TrimStart(s) == s;
    assert TrimEnd(s) == s;
    HyphenSplitsThree(s);
  }

  /** The predictions the row loop pushes, in row order. */
  function ParsedRows(rows: seq<RawRow>, now: int): (r: seq<ScrapedPrediction>)
    ensures |r| <= |rows|
    ensures forall k :: 0 <= k < |r| ==> r[k].odds != 0.0 && r[k].source == "statarea"
  {
    if rows == [] then [] else ParsedRows(rows[..|rows| - 1], now) + RowPrediction(rows[|rows| - 1], now)
  }

  function RowPrediction(row: RawRow, now: int): (r: seq<ScrapedPrediction>)
    ensures |r| <= 1
    ensures r == [] <==> ParseRow(row, now).None?
    ensures forall k :: 0 <= k < |r| ==> r[k].odds != 0.0 && r[k].source == "statarea"
  {
    match ParseRow(row, now) case None => [] case Some(p) => [p]
  }

  method ParseRows(rows: seq<RawRow>, now: int) returns (predictions: seq<ScrapedPrediction>)
    ensures predictions == ParsedRows(rows, now)
  {
    predictions := [];
    for i := 0 to |rows|
      invariant predictions == ParsedRows(rows[..i], now)
    {
      assert rows[..i + 1][..i] == rows[..i] && rows[..i + 1][i] == rows[i];
      assert ParsedRows(rows[..i + 1], now) == ParsedRows(rows[..i], now) + RowPrediction(rows[i], now);
      var p := ParseRow(rows[i], now);
      if p.Some? {
        predictions := predictions + [p.value];
      }
    }
    assert rows[..|rows|] == rows;
  }

  function FallbackPredictions(now: int): seq<ScrapedPrediction> {
    [ScrapedPrediction("Manchester City", "Liverpool", Home, 72, now + DayMs, "Premier League",
                       "1", 1.85, Probs(0.72, 0.15, 0.13), "statarea-fallback"),
     ScrapedPrediction("Real Madrid", "Atletico Madrid", Home, 68, now + 36 * HourMs, "La Liga",
                       "1", 2.10, Probs(0.68, 0.18, 0.14), "statarea-fallback")]
  }

  function ErrorFallbackPredictions(now: int): seq<ScrapedPrediction> {
    [ScrapedPrediction("Bayern Munich", "Borussia Dortmund", Home, 75, now + DayMs, "Bundesliga",
                       "1", 1.90, Probs(0.75, 0.15, 0.10), "statarea-error-fallback")]
  }

  /** `scrapeStatareaPredictions`: `page` is the fetched table, `None` when the
      fetch failed. */
  function StatareaPredictions(page: Option<seq<RawRow>>, now: int): (r: seq<ScrapedPrediction>)
    ensures r != []
    ensures forall k :: 0 <= k < |r| ==> r[k].odds != 0.0
  {
    match page
    case None => ErrorFallbackPredictions(now)
    case Some(rows) =>
      var parsed := ParsedRows(rows, now);
      if parsed == [] then FallbackPredictions(now) else parsed
  }

  method ScrapeStatareaPredictions(page: Option<seq<RawRow>>, now: int) returns (r: seq<ScrapedPrediction>)
    ensures r == StatareaPredictions(page, now)
  {
    if page.None? {
      return ErrorFallbackPredictions(now);
    }
    r := ParseRows(page.value, now);
    if r == [] {
      r := FallbackPredictions(now);
    }
  }

  /** A loaded page with at least one parseable row yields exactly its rows'
      predictions; the fixed fallbacks appear only otherwise. */
  lemma {:induction false} StatareaUsesParsedRows(rows: seq<RawRow>, now: int, k: nat)
    requires k < |rows| && ParseRow(rows[k], now).Some?
    ensures StatareaPredictions(Some(rows), now) == ParsedRows(rows, now)
    ensures forall i :: 0 <= i < |StatareaPredictions(Some(rows), now)| ==>
      StatareaPredictions(Some(rows), now)[i].source == "statarea"
  {
    ParsedRowsNonEmpty(rows, now, k);
  }

  lemma {:induction false} ParsedRowsNonEmpty(rows: seq<RawRow>, now: int, k: nat)
    requires k < |rows| && ParseRow(rows[k], now).Some?
    ensures ParsedRows(rows, now) != []
  {
    var init := rows[..|rows| - 1];
    assert ParsedRows(rows, now) == ParsedRows(init, now) + RowPrediction(rows[|rows| - 1], now);
    if k < |rows| - 1 {
      assert init[k] == rows[k];
      ParsedRowsNonEmpty(init, now, k);
    }
  }

  /** `scrapeStakeOdds`: fixed demo odds for three matches. */
  function StakeOdds(now: int): seq<OddsEntry> {
    [OddsEntry("Arsenal", "Chelsea", now + DayMs, "Premier League",
               OddsSnap(2.15, 3.35, 3.40, "stake-demo-data"), "stake-demo"),
     OddsEntry("Barcelona", "Real Madrid", now + 2 * DayMs, "La Liga",
               OddsSnap(2.25, 3.20, 3.10, "stake-demo-data"), "stake-demo"),
     OddsEntry("Inter Milan", "AC Milan", now + 3 * DayMs, "Serie A",
               OddsSnap(1.95, 3.45, 4.00, "stake-demo-data"), "stake-demo")]
  }

  // ---------------------------------------------------------------------
  // The fallback prediction for one fixture

  datatype FallbackPrediction = FallbackPrediction(
    prediction: Outcome,
    confidence: real,
    probabilities: Probs,
    modelVersion: string,
    source: string,
    odds: Option<OddsSnap>)

  /** The first prediction for the fixture, if any. */
  function FindPrediction(ps: seq<ScrapedPrediction>, home: string, away: string): (r: Option<ScrapedPrediction>)
    ensures r.Some? <==> exists k :: 0 <= k < |ps| && ps[k].homeTeam == home && ps[k].awayTeam == away
    ensures r.Some? ==> r.value == ps[FirstPredictionIndex(ps, home, away)]
  {
    if ps == [] then None
    else if ps[0].homeTeam == home && ps[0].awayTeam == away then Some(ps[0])
    else
      var r := FindPrediction(ps[1..], home, away);
      assert r.Some? ==> ps[1..][FirstPredictionIndex(ps[1..], home, away)] == ps[FirstPredictionIndex(ps, home, away)];
      assert forall k :: 1 <= k < |ps| ==> ps[k] == ps[1..][k - 1];
      r
  }

  function FirstPredictionIndex(ps: seq<ScrapedPrediction>, home: string, away: string): (k: nat)
    ensures k <= |ps|
    ensures k < |ps| ==> ps[k].homeTeam == home && ps[k].awayTeam == away
    ensures forall j :: 0 <= j < k ==> !(ps[j].homeTeam == home && ps[j].awayTeam == away)
  {
    if ps == [] then 0
    else if ps[0].homeTeam == home && ps[0].awayTeam == away then 0
    else FirstPredictionIndex(ps[1..], home, away) + 1
  }

  /** The first odds entry for the fixture, if any. */
  function FindOdds(os: seq<OddsEntry>, home: string, away: string): (r: Option<OddsEntry>)
    ensures r.Some? <==> exists k :: 0 <= k < |os| && os[k].homeTeam == home && os[k].awayTeam == away
    ensures r.Some? ==> r.value in os && r.value.homeTeam == home && r.value.awayTeam == away
    ensures r.Some? ==> r.value == os[FirstOddsIndex(os, home, away)]
  {
    if os == [] then None
    else if os[0].homeTeam == home && os[0].awayTeam == away then Some(os[0])
    else
      var r := FindOdds(os[1..], home, away);
      assert r.Some? ==> os[1..][FirstOddsIndex(os[1..], home, away)] == os[FirstOddsIndex(os, home, away)];
      assert forall k :: 1 <= k < |os| ==> os[k] == os[1..][k - 1];
      r
  }

  function FirstOddsIndex(os: seq<OddsEntry>, home: string, away: string): (k: nat)
    ensures k <= |os|
    ensures k < |os| ==> os[k].homeTeam == home && os[k].awayTeam == away
    ensures forall j :: 0 <= j < k ==> !(os[j].homeTeam == home && os[j].awayTeam == away)
  {
    if os == [] then 0
    else if os[0].homeTeam == home && os[0].awayTeam == away then 0
    else FirstOddsIndex(os[1..], home, away) + 1
  }

  /** `matchOdds?.odds?.home || 2.0` for a non-zero stored price. */
  function PriceOr(o: Option<OddsEntry>, price: OddsEntry -> real): (r: real)
    ensures o.None? ==> r == 2.0
  {
    if o.Some? && price(o.value) != 0.0 then price(o.value) else 2.0
  }

  function HomePrice(o: OddsEntry): real {
    o.odds.home
  }

  function AwayPrice(o: OddsEntry): real {
    o.odds.away
  }

  /** `getPredictionFallback` given what the two scrapes returned. */
  function PredictionFallback(ps: seq<ScrapedPrediction>, os: seq<OddsEntry>, home: string, away: string): (r: FallbackPrediction)
    ensures FindPrediction(ps, home, away).Some? ==>
      var p := FindPrediction(ps, home, away).value;
      r.prediction == p.prediction && r.confidence == p.confidence as real / 100.0
      && r.probabilities == p.probabilities && r.source == "statarea"
    ensures FindPrediction(ps, home, away).None? ==>
      r.source == "rule-based" && r.confidence == 0.5
      && (r.prediction == Home <==> PriceOr(FindOdds(os, home, away), HomePrice) < PriceOr(FindOdds(os, home, away), AwayPrice))
      && r.probabilities.home + r.probabilities.draw + r.probabilities.away == 1.0
    ensures r.odds == (match FindOdds(os, home, away) case None => None case Some(o) => Some(o.odds))
  {
    var matchOdds := FindOdds(os, home, away);
    var snap := match matchOdds case None => None case Some(o) => Some(o.odds);
    match FindPrediction(ps, home, away)
    case Some(p) =>
      FallbackPrediction(p.prediction, p.confidence as real / 100.0, p.probabilities,
                         "scraper-statarea-v1", "statarea", snap)
    case None =>
      var homeOdds := PriceOr(matchOdds, HomePrice);
      var awayOdds := PriceOr(matchOdds, AwayPrice);
      var favourite := homeOdds < awayOdds;
      FallbackPrediction(if favourite then Home else Away, 0.5,
                         Probs(if favourite then 0.55 else 0.45, 0.25, if favourite then 0.20 else 0.30),
                         "rule-based-fallback-v1", "rule-based", snap)
  }

  /** The rule-based answer never calls a draw, and with no odds for the
      fixture (both prices defaulting to 2.0) it picks the away side. */
  lemma RuleBasedWithoutOdds(ps: seq<ScrapedPrediction>, os: seq<OddsEntry>, home: string, away: string)
    requires FindPrediction(ps, home, away).None?
    requires forall k :: 0 <= k < |os| ==> !(os[k].homeTeam == home && os[k].awayTeam == away)
    ensures PredictionFallback(ps, os, home, away).prediction == Away
    ensures PredictionFallback(ps, os, home, away).odds.None?
  {
  }

  // ---------------------------------------------------------------------
  // Combining odds with predictions before saving

  predicate SameFixture(o: OddsEntry, p: ScrapedPrediction) {
    o.homeTeam == p.homeTeam && o.awayTeam == p.awayTeam
  }

  /** `odds.some(o => same fixture)`. */
  predicate HasOdds(os: seq<OddsEntry>, p: ScrapedPrediction) {
    |os| > 0 && (HasOdds(os[..|os| - 1], p) || SameFixture(os[|os| - 1], p))
  }

  lemma {:induction false} HasOddsIff(os: seq<OddsEntry>, p: ScrapedPrediction)
    ensures HasOdds(os, p) <==> exists k :: 0 <= k < |os| && SameFixture(os[k], p)
  {
    if |os| > 0 {
      var init := os[..|os| - 1];
      HasOddsIff(init, p);
      assert forall k :: 0 <= k < |init| ==> init[k] == os[k];
    }
  }

  /** The odds derived for a prediction that has none of its own. */
  function DerivedEntry(p: ScrapedPrediction): (e: OddsEntry)
    ensures e.homeTeam == p.homeTeam && e.awayTeam == p.awayTeam && e.date == p.date
    ensures p.odds != 0.0 ==> e.odds.home == p.odds && e.odds.away == p.odds + 0.5
    ensures p.odds == 0.0 ==> e.odds.home == 2.0 && e.odds.away == 2.5
    ensures e.odds.draw == 3.0
  {
    OddsEntry(p.homeTeam, p.awayTeam, p.date, p.competition,
              OddsSnap(if p.odds != 0.0 then p.odds else 2.0, 3.0,
                       if p.odds != 0.0 then p.odds + 0.5 else 2.5, p.source),
              p.source)
  }

  /** All odds entries, then one derived entry per prediction without odds. */
  function Combined(os: seq<OddsEntry>, ps: seq<ScrapedPrediction>): (r: seq<OddsEntry>)
    ensures |os| <= |r| <= |os| + |ps|
    ensures r[..|os|] == os
  {
    if ps == [] then os
    else
      var last := ps[|ps| - 1];
      var init := Combined(os, ps[..|ps| - 1]);
      assert (init + [DerivedEntry(last)])[..|os|] == init[..|os|];
      if HasOdds(os, last) then init else init + [DerivedEntry(last)]
  }

  method CombineScraped(os: seq<OddsEntry>, ps: seq<ScrapedPrediction>) returns (combined: seq<OddsEntry>)
    ensures combined == Combined(os, ps)
  {
    combined := os;
    for i := 0 to |ps|
      invariant combined == Combined(os, ps[..i])
    {
      assert ps[..i + 1][..i] == ps[..i];
      var hasOdds := false;
      for j := 0 to |os|
        invariant hasOdds == HasOdds(os[..j], ps[i])
      {
        assert os[..j + 1][..j] == os[..j];
        if SameFixture(os[j], ps[i]) {
          hasOdds := true;
        }
      }
      assert os[..|os|] == os;
      if !hasOdds {
        combined := combined + [DerivedEntry(ps[i])];
      }
    }
    assert ps[..|ps|] == ps;
  }

  /** Every prediction's fixture is in the combined list. */
  lemma {:induction false} CombinedCovers(os: seq<OddsEntry>, ps: seq<ScrapedPrediction>)
    ensures forall k :: 0 <= k < |ps| ==>
      exists i :: 0 <= i < |Combined(os, ps)| && SameFixture(Combined(os, ps)[i], ps[k])
  {
    if ps != [] {
      var init := ps[..|ps| - 1];
      var last := ps[|ps| - 1];
      CombinedCovers(os, init);
      var c0 := Combined(os, init);
      var c := Combined(os, ps);
      assert c[..|c0|] == c0;
      forall k | 0 <= k < |ps|
        ensures exists i :: 0 <= i < |c| && SameFixture(c[i], ps[k])
      {
        if k < |init| {
          assert ps[k] == init[k];
          var i :| 0 <= i < |c0| && SameFixture(c0[i], init[k]);
          assert c[i] == c0[i];
        } else if HasOdds(os, last) {
          HasOddsIff(os, last);
          var j :| 0 <= j < |os| && SameFixture(os[j], last);
          assert c[j] == os[j];
        } else {
          assert SameFixture(c[|c| - 1], last);
        }
      }
      assert c == Combined(os, ps);
    }
  }

  /** Every entry past the odds is derived from a prediction whose fixture
      has no odds. */
  lemma {:induction false} CombinedDerived(os: seq<OddsEntry>, ps: seq<ScrapedPrediction>)
    ensures forall i :: |os| <= i < |Combined(os, ps)| ==>
      exists k :: 0 <= k < |ps| && !HasOdds(os, ps[k]) && Combined(os, ps)[i] == DerivedEntry(ps[k])
  {
    if ps != [] {
      var init := ps[..|ps| - 1];
      var last := ps[|ps| - 1];
      CombinedDerived(os, init);
      var c0 := Combined(os, init);
      var c := Combined(os, ps);
      assert c[..|c0|] == c0;
      forall i | |os| <= i < |c|
        ensures exists k :: 0 <= k < |ps| && !HasOdds(os, ps[k]) && c[i] == DerivedEntry(ps[k])
      {
        if i < |c0| {
          var k :| 0 <= k < |init| && !HasOdds(os, init[k]) && c0[i] == DerivedEntry(init[k]);
          assert ps[k] == init[k];
          assert c[i] == c0[i];
        } else {
          assert !HasOdds(os, last) && c == c0 + [DerivedEntry(last)];
          var k := |ps| - 1;
          assert 0 <= k < |ps| && !HasOdds(os, ps[k]) && c[i] == DerivedEntry(ps[k]);
        }
      }
    } else {
      assert |Combined(os, ps)| == |os|;
    }
  }

  // ---------------------------------------------------------------------
  // The find-or-create loop over stored matches

  datatype StoredMatch = StoredMatch(
    homeTeam: string,
    awayTeam: string,
    date: int,
    competition: string,
    source: string,
    status: string,
    scrapedAt: int,
    odds: seq<OddsSnap>)

  /** The lookup filter: same fixture, kick-off within an hour either side. */
  predicate Near(m: StoredMatch, e: OddsEntry) {
    m.homeTeam == e.homeTeam && m.awayTeam == e.awayTeam
    && e.date - HourMs <= m.date <= e.date + HourMs
  }

  /** `Match.findOne`: the earliest stored match that passes the filter. */
  function FindNear(ms: seq<StoredMatch>, e: OddsEntry): (r: Option<nat>)
    ensures r.Some? ==> (r.value < |ms| && Near(ms[r.value], e)
      && forall j :: 0 <= j < r.value ==> !Near(ms[j], e))
    ensures r.None? ==> forall j :: 0 <= j < |ms| ==> !Near(ms[j], e)
  {
    if ms == [] then None
    else if Near(ms[0], e) then Some(0)
    else
      match FindNear(ms[1..], e)
      case None => None
      case Some(i) => Some(i + 1)
  }

  datatype SaveState = SaveState(matches: seq<StoredMatch>, saved: nat, updated: nat)

  /** One entry: append its odds to the match found, or create the match. */
  function SaveOne(st: SaveState, e: OddsEntry, now: int): SaveState {
    match FindNear(st.matches, e)
    case Some(i) =>
      var m := st.matches[i];
      SaveState(st.matches[i := m.(odds := m.odds + [e.odds], scrapedAt := now)], st.saved, st.updated + 1)
    case None =>
      SaveState(st.matches + [StoredMatch(e.homeTeam, e.awayTeam, e.date, e.competition, e.source,
                                          "scheduled", now, [e.odds])],
                st.saved + 1, st.updated)
  }

  function SaveAllOf(st: SaveState, es: seq<OddsEntry>, now: int): SaveState {
    if es == [] then st else SaveOne(SaveAllOf(st, es[..|es| - 1], now), es[|es| - 1], now)
  }

  /** The stored fixture of a match never changes once it is stored. */
  ghost predicate KeepsFixtures(before: seq<StoredMatch>, after: seq<StoredMatch>) {
    |before| <= |after|
    && forall i :: 0 <= i < |before| ==>
      after[i].homeTeam == before[i].homeTeam && after[i].awayTeam == before[i].awayTeam
      && after[i].date == before[i].date && |after[i].odds| >= |before[i].odds|
  }

  /** Every entry is either saved or updated, and each saved one adds a match. */
  lemma {:induction false} SaveCounts(st: SaveState, es: seq<OddsEntry>, now: int)
    ensures var r := SaveAllOf(st, es, now);
      r.saved + r.updated == st.saved + st.updated + |es|
      && |r.matches| == |st.matches| + (r.saved - st.saved)
      && r.saved >= st.saved && r.updated >= st.updated
      && KeepsFixtures(st.matches, r.matches)
  {
    if es != [] {
      SaveCounts(st, es[..|es| - 1], now);
    }
  }

  /** After the loop every entry finds a stored match for its fixture. */
  lemma {:induction false} SaveCovers(st: SaveState, es: seq<OddsEntry>, now: int)
    ensures forall k :: 0 <= k < |es| ==> FindNear(SaveAllOf(st, es, now).matches, es[k]).Some?
  {
    if es != [] {
      var init := es[..|es| - 1];
      var e := es[|es| - 1];
      var mid := SaveAllOf(st, init, now);
      var r := SaveOne(mid, e, now);
      SaveCovers(st, init, now);
      SaveCounts(mid, [e], now);
      assert SaveAllOf(mid, [e], now) == r by {
        assert [e][..0] == [];
      }
      forall k | 0 <= k < |es|
        ensures FindNear(r.matches, es[k]).Some?
      {
        if k < |init| {
          assert es[k] == init[k];
          var i := FindNear(mid.matches, es[k]).value;
          assert Near(r.matches[i], es[k]);
        } else {
          match FindNear(mid.matches, e)
          case Some(i) =>
            assert Near(r.matches[i], e);
          case None =>
            assert Near(r.matches[|r.matches| - 1], e);
        }
      }
    }
  }

  class MatchStore {
    var matches: seq<StoredMatch>

    constructor(initial: seq<StoredMatch>)
      ensures matches == initial
    {
      matches := initial;
    }

    /** The loop over the combined list, bumping the two counters. */
    method SaveAll(es: seq<OddsEntry>, now: int) returns (saved: nat, updated: nat)
      modifies this
      ensures SaveAllOf(SaveState(old(matches), 0, 0), es, now) == SaveState(matches, saved, updated)
    {
      saved, updated := 0, 0;
      for i := 0 to |es|
        invariant SaveAllOf(SaveState(old(matches), 0, 0), es[..i], now) == SaveState(matches, saved, updated)
      {
        assert es[..i + 1][..i] == es[..i];
        var found := FindNear(matches, es[i]);
        if found.Some? {
          var m := matches[found.value];
          matches := matches[found.value := m.(odds := m.odds + [es[i].odds], scrapedAt := now)];
          updated := updated + 1;
        } else {
          matches := matches + [StoredMatch(es[i].homeTeam, es[i].awayTeam, es[i].date, es[i].competition,
                                            es[i].source, "scheduled", now, [es[i].odds])];
          saved := saved + 1;
        }
      }
      assert es[..|es|] == es;
    }
  }

  datatype SaveSummary = SaveSummary(
    success: bool,
    savedCount: nat,
    updatedCount: nat,
    totalProcessed: nat,
    statarea: nat,
    stake: nat)

  /** `saveScrapedMatches`: both scrapes, the combining step, then the loop. */
  method SaveScrapedMatches(store: MatchStore, page: Option<seq<RawRow>>, now: int) returns (s: SaveSummary)
    modifies store
    ensures var os := StakeOdds(now);
      var ps := StatareaPredictions(page, now);
      var combined := Combined(os, ps);
      SaveAllOf(SaveState(old(store.matches), 0, 0), combined, now)
        == SaveState(store.matches, s.savedCount, s.updatedCount)
      && s == SaveSummary(true, s.savedCount, s.updatedCount, |combined|, |ps|, |os|)
  {
    var os := StakeOdds(now);
    var ps := ScrapeStatareaPredictions(page, now);
    var combined := CombineScraped(os, ps);
    var saved, updated := store.SaveAll(combined, now);
    s := SaveSummary(true, saved, updated, |combined|, |ps|, |os|);
  }

  // ---------------------------------------------------------------------
  // Rate limiter and retries

  /** How long `wait` sleeps so that `MinInterval` has passed since `last`. */
  function WaitTime(last: int, now: int): (w: int)
    ensures w >= 0 && now + w >= last + MinInterval
  {
    if now - last < MinInterval then MinInterval - (now - last) else 0
  }

  /** No shorter sleep would restore the gap. */
  lemma WaitTimeLeast(last: int, now: int, d: int)
    requires d >= 0 && now + d >= last + MinInterval
    ensures WaitTime(last, now) <= d
  {
  }

  class RateLimiter {
    var lastRequestTime: int

    constructor()
      ensures lastRequestTime == 0
    {
      lastRequestTime := 0;
    }

    /** `wait` at clock reading `now`; `later` is the clock read after the
        sleep, which lasts at least the requested time. */
    method Wait(now: int, later: int) returns (waited: int)
      requires later >= now + WaitTime(lastRequestTime, now)
      modifies this
      ensures waited == WaitTime(old(lastRequestTime), now)
      ensures lastRequestTime == later
      ensures lastRequestTime >= old(lastRequestTime) + MinInterval
    {
      waited := 0;
      var since := now - lastRequestTime;
      if since < MinInterval {
        waited := MinInterval - since;
      }
      lastRequestTime := later;
    }
  }

  /** The outcome of the retry loop from attempt `i`; `outcome(k)` is what
      attempt `k` returns. */
  function Retry(outcome: nat -> Result<string, string>, i: nat, retries: int): Result<string, string>
    decreases retries - i
  {
    if i >= retries then Err("Max retries exceeded")
    else if outcome(i).Ok? || i == retries - 1 then outcome(i)
    else Retry(outcome, i + 1, retries)
  }

  function Attempts(outcome: nat -> Result<string, string>, i: nat, retries: int): nat
    decreases retries - i
  {
    if i >= retries then i
    else if outcome(i).Ok? || i == retries - 1 then i + 1
    else Attempts(outcome, i + 1, retries)
  }

  /** `scrapeWithRetry`: also returns the attempts made and the total time
      slept between them (`1000 * (i + 1)` after the failed attempt `i`). */
  method ScrapeWithRetry(outcome: nat -> Result<string, string>, retries: int)
    returns (r: Result<string, string>, attempts: nat, backoff: nat)
    ensures r == Retry(outcome, 0, retries)
    ensures attempts == Attempts(outcome, 0, retries)
    ensures backoff == 500 * attempts * (attempts - 1)
  {
    var i: nat := 0;
    backoff := 0;
    while i < retries
      invariant retries > 0 ==> i < retries
      invariant retries <= 0 ==> i == 0
      invariant Retry(outcome, 0, retries) == Retry(outcome, i, retries)
      invariant Attempts(outcome, 0, retries) == Attempts(outcome, i, retries)
      invariant backoff == 500 * i * (i + 1)
      decreases retries - i
    {
      var result := outcome(i);
      if result.Ok? || i == retries - 1 {
        return result, i + 1, backoff;
      }
      backoff := backoff + 1000 * (i + 1);
      i := i + 1;
    }
    return Err("Max retries exceeded"), 0, 0;
  }

  /** The loop succeeds iff one of the first `retries` attempts does, and then
      returns the first success; after `n` failures it rethrows the last. */
  lemma {:induction false} RetryOutcome(outcome: nat -> Result<string, string>, i: nat, retries: int)
    requires i <= retries || retries <= 0
    ensures Retry(outcome, i, retries).Ok? <==> exists k: nat :: i <= k < retries && outcome(k).Ok?
    ensures Retry(outcome, i, retries).Ok? ==>
      Attempts(outcome, i, retries) > i
      && Retry(outcome, i, retries) == outcome(Attempts(outcome, i, retries) - 1)
      && forall k: nat :: i <= k < Attempts(outcome, i, retries) - 1 ==> outcome(k).Err?
    ensures i < retries && (forall k: nat :: i <= k < retries ==> outcome(k).Err?) ==>
      Retry(outcome, i, retries) == outcome(retries - 1) && Attempts(outcome, i, retries) == retries
    ensures retries <= i ==> Retry(outcome, i, retries) == Err("Max retries exceeded")
    decreases retries - i
  {
    if i < retries && !(outcome(i).Ok? || i == retries - 1) {
      RetryOutcome(outcome, i + 1, retries);
    }
  }

  /** Never more than `retries` attempts. */
  lemma {:induction false} AttemptsBound(outcome: nat -> Result<string, string>, i: nat, retries: int)
    requires i < retries
    ensures i < Attempts(outcome, i, retries) <= retries
    decreases retries - i
  {
    if !(outcome(i).Ok? || i == retries - 1) {
      AttemptsBound(outcome, i + 1, retries);
    }
  }
}
