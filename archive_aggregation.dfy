// The archived multi-source aggregation: database predictions and scraped
// matches are merged into one record per "home-away" key, each record is
// enhanced with the ML prediction when that succeeds, and consensus is then
// computed for every record. The map preserves first-insertion order, as a
// JavaScript Map does; the ML service is a parameter whose None is a throw.

module ArchiveAggregation {
  import opened Wrappers
  import opened Seqs
  import opened Strings
  import opened Consensus

  datatype DbPrediction = DbPrediction(matchId: string, objectId: string, homeTeam: string, awayTeam: string,
                                       predictedWinner: string, confidence: real)

  /** A scraped match; an empty prediction or a zero confidence is a missing one. */
  datatype ScrapedMatch = ScrapedMatch(id: string, homeTeam: string, awayTeam: string,
                                       prediction: string, confidence: real, odds: Option<real>)

  datatype MlResult = MlResult(prediction: string, confidence: real)

  datatype Entry = Entry(matchId: string, homeTeam: string, awayTeam: string, sources: Sources,
                         scraperOdds: Option<real>, consensus: Option<Agreement>)

  /** The match map: keys in insertion order and the records under them. */
  datatype Table = Table(keys: seq<string>, entries: map<string, Entry>)

  function MatchKey(homeTeam: string, awayTeam: string): string {
    homeTeam + "-" + awayTeam
  }

  function EntryKey(e: Entry): string {
    MatchKey(e.homeTeam, e.awayTeam)
  }

  /** Keys are formed by plain concatenation, so different pairs of names can share one record. */
  lemma KeysCanCollide()
    ensures ("A-B", "C") != ("A", "B-C") && MatchKey("A-B", "C") == MatchKey("A", "B-C")
  {
    assert MatchKey("A-B", "C") == "A-B-C";
    assert MatchKey("A", "B-C") == "A-B-C";
  }

  function DbEntry(p: DbPrediction): (e: Entry)
    ensures EntryKey(e) == MatchKey(p.homeTeam, p.awayTeam)
    ensures e.sources == Sources(None, None, Some(Vote(p.predictedWinner, p.confidence)))
    ensures e.matchId == if p.matchId != "" then p.matchId else p.objectId
  {
    Entry(if p.matchId != "" then p.matchId else p.objectId, p.homeTeam, p.awayTeam,
          Sources(None, None, Some(Vote(p.predictedWinner, p.confidence))), None, None)
  }

  /** The scraper source: the home team and 65 stand in for a missing prediction and confidence. */
  function ScraperVote(m: ScrapedMatch): (v: Vote)
    ensures v.prediction == (if m.prediction == "" then m.homeTeam else m.prediction)
    ensures v.confidence == (if m.confidence == 0.0 then 65.0 else m.confidence)
  {
    Vote(if m.prediction != "" then m.prediction else m.homeTeam, if m.confidence != 0.0 then m.confidence else 65.0)
  }

  function ScraperEntry(m: ScrapedMatch, now: int): (e: Entry)
    ensures EntryKey(e) == MatchKey(m.homeTeam, m.awayTeam)
    ensures e.sources == Sources(None, Some(ScraperVote(m)), None)
  {
    Entry(if m.id != "" then m.id else "scraper-" + IntToString(now), m.homeTeam, m.awayTeam,
          Sources(None, Some(ScraperVote(m)), None), m.odds, None)
  }

  /** `matchMap.set(key, value)`: a new key goes last, an existing key keeps its place. */
  function Put(t: Table, k: string, e: Entry): Table {
    Table(if k in t.entries then t.keys else t.keys + [k], t.entries[k := e])
  }

  /** A database prediction replaces any record under its key. */
  function PutDb(t: Table, p: DbPrediction): Table {
    Put(t, MatchKey(p.homeTeam, p.awayTeam), DbEntry(p))
  }

  /** A scraped match sets the scraper source of an existing record, or adds a record of its own. */
  function PutScraper(t: Table, m: ScrapedMatch, now: int): Table {
    var k := MatchKey(m.homeTeam, m.awayTeam);
    if k in t.entries then
      var e := t.entries[k];
      Put(t, k, e.(sources := e.sources.(scraper := Some(ScraperVote(m))), scraperOdds := m.odds))
    else Put(t, k, ScraperEntry(m, now))
  }

  function FoldDb(t: Table, ps: seq<DbPrediction>): Table {
    if ps == [] then t else PutDb(FoldDb(t, ps[..|ps| - 1]), ps[|ps| - 1])
  }

  function FoldScraper(t: Table, ms: seq<ScrapedMatch>, now: int): Table {
    if ms == [] then t else PutScraper(FoldScraper(t, ms[..|ms| - 1], now), ms[|ms| - 1], now)
  }

  /** A later database prediction with the same key overwrites an earlier
      one: the record under a key is that of the last prediction with it. */
  lemma {:induction false} LaterDbOverwrites(t: Table, ps: seq<DbPrediction>, i: nat)
    requires i < |ps|
    requires forall j :: i < j < |ps| ==> MatchKey(ps[j].homeTeam, ps[j].awayTeam) != MatchKey(ps[i].homeTeam, ps[i].awayTeam)
    ensures MatchKey(ps[i].homeTeam, ps[i].awayTeam) in FoldDb(t, ps).entries
    ensures FoldDb(t, ps).entries[MatchKey(ps[i].homeTeam, ps[i].awayTeam)] == DbEntry(ps[i])
  {
    if i < |ps| - 1 {
      var init := ps[..|ps| - 1];
      assert init[i] == ps[i];
      assert forall j :: i < j < |init| ==> init[j] == ps[j];
      LaterDbOverwrites(t, init, i);
    }
  }

  /** `Array.from(matchMap.values())`. */
  function Values(t: Table): seq<Entry> {
    ValuesOf(t.keys, t.entries)
  }

  /** Adds the ML source when the service answers, then computes consensus over the sources. */
  function Enhance(e: Entry, ml: Option<MlResult>): (r: Entry)
    ensures r.sources.database == e.sources.database && r.sources.scraper == e.sources.scraper
    ensures r.sources.ml == if ml.Some? then Some(Vote(ml.value.prediction, ml.value.confidence)) else e.sources.ml
    ensures r.consensus == ConsensusOf(Votes(r.sources))
    ensures r.(sources := e.sources, consensus := e.consensus) == e
  {
    var s := if ml.Some? then e.sources.(ml := Some(Vote(ml.value.prediction, ml.value.confidence))) else e.sources;
    e.(sources := s, consensus := ConsensusOf(Votes(s)))
  }

  function EnhanceAll(es: seq<Entry>, mlFor: (string, string) -> Option<MlResult>): (r: seq<Entry>)
    ensures |r| == |es|
    ensures forall i :: 0 <= i < |es| ==> r[i] == Enhance(es[i], mlFor(es[i].homeTeam, es[i].awayTeam))
  {
    Seqs.Map(es, (e: Entry) => Enhance(e, mlFor(e.homeTeam, e.awayTeam)))
  }

  function Selected<T>(s: Option<seq<T>>, limit: int): seq<T> {
    if s.Some? then Slice(s.value, 0, limit) else []
  }

  /**
   * The aggregation: the first `limit` database predictions (None when that
   * query was rejected), then the first `limit` scraped matches (None when
   * the scraper gave no list).
   */
  function Aggregate(db: Option<seq<DbPrediction>>, scraped: Option<seq<ScrapedMatch>>, limit: int, now: int,
                     mlFor: (string, string) -> Option<MlResult>): seq<Entry>
  {
    var afterDb := FoldDb(Table([], map[]), Selected(db, limit));
    EnhanceAll(Values(FoldScraper(afterDb, Selected(scraped, limit), now)), mlFor)
  }

  /** `aggregatePredictions`: the two filling loops over the map, then one ML call per record. */
  method AggregatePredictions(db: Option<seq<DbPrediction>>, scraped: Option<seq<ScrapedMatch>>, limit: int,
                              now: int, mlFor: (string, string) -> Option<MlResult>) returns (r: seq<Entry>)
    ensures r == Aggregate(db, scraped, limit, now, mlFor)
  {
    var afterDb := AddDbPredictions(Table([], map[]), Selected(db, limit));
    var merged := AddScrapedMatches(afterDb, Selected(scraped, limit), now);
    r := EnhanceEach(Values(merged), mlFor);
  }

  method AddDbPredictions(t0: Table, ps: seq<DbPrediction>) returns (t: Table)
    ensures t == FoldDb(t0, ps)
  {
    t := t0;
    for i := 0 to |ps|
      invariant t == FoldDb(t0, ps[..i])
    {
      assert ps[..i + 1][..i] == ps[..i];
      t := PutDb(t, ps[i]);
    }
    assert ps[..|ps|] == ps;
  }

  method AddScrapedMatches(t0: Table, ms: seq<ScrapedMatch>, now: int) returns (t: Table)
    ensures t == FoldScraper(t0, ms, now)
  {
    t := t0;
    for i := 0 to |ms|
      invariant t == FoldScraper(t0, ms[..i], now)
    {
      assert ms[..i + 1][..i] == ms[..i];
      t := PutScraper(t, ms[i], now);
    }
    assert ms[..|ms|] == ms;
  }

  /** The `Promise.all` over the records, which keeps their order. */
  method EnhanceEach(aggregated: seq<Entry>, mlFor: (string, string) -> Option<MlResult>) returns (r: seq<Entry>)
    ensures r == EnhanceAll(aggregated, mlFor)
  {
    var enhance := (e: Entry) => Enhance(e, mlFor(e.homeTeam, e.awayTeam));
    r := [];
    for i := 0 to |aggregated|
      invariant |r| == i
      invariant forall k :: 0 <= k < i ==> r[k] == enhance(aggregated[k])
    {
      r := r + [enhance(aggregated[i])];
    }
    assert r == Seqs.Map(aggregated, enhance);
  }

  /** The map keeps each key once, lists exactly its keys, and files every record under its own key. */
  ghost predicate WellFormed(t: Table) {
    NoDuplicates(t.keys)
    && (forall k :: k in t.keys <==> k in t.entries)
    && (forall k :: k in t.entries ==> EntryKey(t.entries[k]) == k)
  }

  lemma PutWellFormed(t: Table, k: string, e: Entry)
    requires WellFormed(t) && EntryKey(e) == k
    ensures WellFormed(Put(t, k, e))
  {
  }

  lemma {:induction false} FoldDbWellFormed(t: Table, ps: seq<DbPrediction>)
    requires WellFormed(t)
    ensures WellFormed(FoldDb(t, ps))
  {
    if ps != [] {
      var p := ps[|ps| - 1];
      FoldDbWellFormed(t, ps[..|ps| - 1]);
      PutWellFormed(FoldDb(t, ps[..|ps| - 1]), MatchKey(p.homeTeam, p.awayTeam), DbEntry(p));
    }
  }

  lemma {:induction false} FoldScraperWellFormed(t: Table, ms: seq<ScrapedMatch>, now: int)
    requires WellFormed(t)
    ensures WellFormed(FoldScraper(t, ms, now))
  {
    if ms != [] {
      var m := ms[|ms| - 1];
      var t0 := FoldScraper(t, ms[..|ms| - 1], now);
      FoldScraperWellFormed(t, ms[..|ms| - 1], now);
      var k := MatchKey(m.homeTeam, m.awayTeam);
      if k in t0.entries {
        var e := t0.entries[k];
        PutWellFormed(t0, k, e.(sources := e.sources.(scraper := Some(ScraperVote(m))), scraperOdds := m.odds));
      } else {
        PutWellFormed(t0, k, ScraperEntry(m, now));
      }
    }
  }

  /** Later updates keep a key and its database source; the scraper pass never touches that source. */
  lemma {:induction false} FoldScraperKeeps(t: Table, ms: seq<ScrapedMatch>, now: int, k: string)
    requires k in t.entries
    ensures k in FoldScraper(t, ms, now).entries
    ensures FoldScraper(t, ms, now).entries[k].sources.database == t.entries[k].sources.database
  {
    if ms != [] {
      FoldScraperKeeps(t, ms[..|ms| - 1], now, k);
    }
  }

  /** Every selected database prediction has a record with a database source under its key. */
  lemma {:induction false} FoldDbCovers(t: Table, ps: seq<DbPrediction>, p: DbPrediction)
    requires p in ps
    ensures MatchKey(p.homeTeam, p.awayTeam) in FoldDb(t, ps).entries
    ensures FoldDb(t, ps).entries[MatchKey(p.homeTeam, p.awayTeam)].sources.database.Some?
  {
    var init := ps[..|ps| - 1];
    if p != ps[|ps| - 1] {
      assert p in init by {
        var i :| 0 <= i < |ps| && ps[i] == p;
        assert init[i] == p;
      }
      FoldDbCovers(t, init, p);
    }
  }

  /** Every selected scraped match has a record with a scraper source under its key. */
  lemma {:induction false} FoldScraperCovers(t: Table, ms: seq<ScrapedMatch>, now: int, m: ScrapedMatch)
    requires m in ms
    ensures MatchKey(m.homeTeam, m.awayTeam) in FoldScraper(t, ms, now).entries
    ensures FoldScraper(t, ms, now).entries[MatchKey(m.homeTeam, m.awayTeam)].sources.scraper.Some?
  {
    var init := ms[..|ms| - 1];
    if m != ms[|ms| - 1] {
      assert m in init by {
        var i :| 0 <= i < |ms| && ms[i] == m;
        assert init[i] == m;
      }
      FoldScraperCovers(t, init, now, m);
    }
  }

  /** Scraped matches only ever set the scraper source, so any record that had one still has it. */
  lemma {:induction false} FoldScraperKeepsScraper(t: Table, ms: seq<ScrapedMatch>, now: int, k: string)
    requires k in t.entries && t.entries[k].sources.scraper.Some?
    ensures k in FoldScraper(t, ms, now).entries && FoldScraper(t, ms, now).entries[k].sources.scraper.Some?
  {
    if ms != [] {
      FoldScraperKeepsScraper(t, ms[..|ms| - 1], now, k);
    }
  }

  /** Every record of the map holds at least one source. */
  ghost predicate Sourced(t: Table) {
    forall k :: k in t.entries ==> t.entries[k].sources.scraper.Some? || t.entries[k].sources.database.Some?
  }

  lemma {:induction false} FoldDbSourced(t: Table, ps: seq<DbPrediction>)
    requires Sourced(t)
    ensures Sourced(FoldDb(t, ps))
  {
    if ps != [] {
      FoldDbSourced(t, ps[..|ps| - 1]);
    }
  }

  lemma {:induction false} FoldScraperSourced(t: Table, ms: seq<ScrapedMatch>, now: int)
    requires Sourced(t)
    ensures Sourced(FoldScraper(t, ms, now))
  {
    if ms != [] {
      FoldScraperSourced(t, ms[..|ms| - 1], now);
    }
  }

  /** The table the aggregation builds before the ML pass. */
  function Merged(db: Option<seq<DbPrediction>>, scraped: Option<seq<ScrapedMatch>>, limit: int, now: int): Table {
    FoldScraper(FoldDb(Table([], map[]), Selected(db, limit)), Selected(scraped, limit), now)
  }

  lemma MergedFacts(db: Option<seq<DbPrediction>>, scraped: Option<seq<ScrapedMatch>>, limit: int, now: int)
    ensures WellFormed(Merged(db, scraped, limit, now)) && Sourced(Merged(db, scraped, limit, now))
  {
    var empty := Table([], map[]);
    FoldDbWellFormed(empty, Selected(db, limit));
    FoldScraperWellFormed(FoldDb(empty, Selected(db, limit)), Selected(scraped, limit), now);
    FoldDbSourced(empty, Selected(db, limit));
    FoldScraperSourced(FoldDb(empty, Selected(db, limit)), Selected(scraped, limit), now);
  }

  /** One record per key: no two records of the result share a "home-away" key. */
  lemma KeysDistinct(db: Option<seq<DbPrediction>>, scraped: Option<seq<ScrapedMatch>>, limit: int, now: int,
                     mlFor: (string, string) -> Option<MlResult>)
    ensures var r := Aggregate(db, scraped, limit, now, mlFor);
      forall i, j :: 0 <= i < j < |r| ==> EntryKey(r[i]) != EntryKey(r[j])
  {
    var t := Merged(db, scraped, limit, now);
    MergedFacts(db, scraped, limit, now);
    var vs := Values(t);
    var r := Aggregate(db, scraped, limit, now, mlFor);
    forall i, j | 0 <= i < j < |r| ensures EntryKey(r[i]) != EntryKey(r[j]) {
      assert EntryKey(r[i]) == EntryKey(vs[i]) == t.keys[i];
      assert EntryKey(r[j]) == EntryKey(vs[j]) == t.keys[j];
    }
  }

  /**
   * Consensus is computed for every record, from its own sources, and is
   * never undefined: every record holds a database or scraper source.
   */
  lemma EveryRecordHasConsensus(db: Option<seq<DbPrediction>>, scraped: Option<seq<ScrapedMatch>>, limit: int, now: int,
                                mlFor: (string, string) -> Option<MlResult>)
    ensures forall e :: e in Aggregate(db, scraped, limit, now, mlFor) ==>
      e.consensus == ConsensusOf(Votes(e.sources)) && e.consensus.Some?
  {
    var t := Merged(db, scraped, limit, now);
    MergedFacts(db, scraped, limit, now);
    var vs := Values(t);
    var r := Aggregate(db, scraped, limit, now, mlFor);
    forall e | e in r ensures e.consensus == ConsensusOf(Votes(e.sources)) && e.consensus.Some? {
      var i :| 0 <= i < |r| && r[i] == e;
      assert e == Enhance(vs[i], mlFor(vs[i].homeTeam, vs[i].awayTeam));
      ConsensusFacts(Votes(e.sources));
    }
  }

  /** The ML source is present exactly when the service answered for that record's teams. */
  lemma MlSourceIffAnswered(db: Option<seq<DbPrediction>>, scraped: Option<seq<ScrapedMatch>>, limit: int, now: int,
                            mlFor: (string, string) -> Option<MlResult>)
    ensures forall e :: e in Aggregate(db, scraped, limit, now, mlFor) ==>
      (e.sources.ml.Some? <==> mlFor(e.homeTeam, e.awayTeam).Some?)
  {
    var t := Merged(db, scraped, limit, now);
    var vs := Values(t);
    MergedFacts(db, scraped, limit, now);
    var r := Aggregate(db, scraped, limit, now, mlFor);
    forall e | e in r ensures e.sources.ml.Some? <==> mlFor(e.homeTeam, e.awayTeam).Some? {
      var i :| 0 <= i < |r| && r[i] == e;
      assert e == Enhance(vs[i], mlFor(vs[i].homeTeam, vs[i].awayTeam));
      assert vs[i] == t.entries[t.keys[i]];
      MergedHasNoMl(db, scraped, limit, now, t.keys[i]);
    }
  }

  lemma MergedHasNoMl(db: Option<seq<DbPrediction>>, scraped: Option<seq<ScrapedMatch>>, limit: int, now: int, k: string)
    requires k in Merged(db, scraped, limit, now).entries
    ensures Merged(db, scraped, limit, now).entries[k].sources.ml.None?
  {
    NoMlDb(Table([], map[]), Selected(db, limit));
    NoMlScraper(FoldDb(Table([], map[]), Selected(db, limit)), Selected(scraped, limit), now);
  }

  ghost predicate NoMl(t: Table) {
    forall k :: k in t.entries ==> t.entries[k].sources.ml.None?
  }

  lemma {:induction false} NoMlDb(t: Table, ps: seq<DbPrediction>)
    requires NoMl(t)
    ensures NoMl(FoldDb(t, ps))
  {
    if ps != [] {
      NoMlDb(t, ps[..|ps| - 1]);
    }
  }

  lemma {:induction false} NoMlScraper(t: Table, ms: seq<ScrapedMatch>, now: int)
    requires NoMl(t)
    ensures NoMl(FoldScraper(t, ms, now))
  {
    if ms != [] {
      NoMlScraper(t, ms[..|ms| - 1], now);
    }
  }

  /**
   * A database prediction and a scraped match with the same key end in one
   * record holding both sources.
   */
  lemma SameKeyMerges(db: seq<DbPrediction>, scraped: seq<ScrapedMatch>, limit: int, now: int,
                      mlFor: (string, string) -> Option<MlResult>, p: DbPrediction, m: ScrapedMatch)
    requires p in Slice(db, 0, limit) && m in Slice(scraped, 0, limit)
    requires MatchKey(p.homeTeam, p.awayTeam) == MatchKey(m.homeTeam, m.awayTeam)
    ensures exists e :: (e in Aggregate(Some(db), Some(scraped), limit, now, mlFor)
                         && EntryKey(e) == MatchKey(p.homeTeam, p.awayTeam)
                         && e.sources.database.Some? && e.sources.scraper.Some?)
  {
    var k := MatchKey(p.homeTeam, p.awayTeam);
    var empty := Table([], map[]);
    var afterDb := FoldDb(empty, Slice(db, 0, limit));
    FoldDbCovers(empty, Slice(db, 0, limit), p);
    FoldScraperKeeps(afterDb, Slice(scraped, 0, limit), now, k);
    FoldScraperCovers(afterDb, Slice(scraped, 0, limit), now, m);
    var t := Merged(Some(db), Some(scraped), limit, now);
    MergedFacts(Some(db), Some(scraped), limit, now);
    var vs := Values(t);
    var i :| 0 <= i < |t.keys| && t.keys[i] == k;
    var r := Aggregate(Some(db), Some(scraped), limit, now, mlFor);
    assert vs[i] == t.entries[k];
    assert r[i] in r;
  }

  /** At most `limit` records come from each source, so at most 2·limit in all. */
  lemma {:induction false} FoldDbSize(t: Table, ps: seq<DbPrediction>)
    ensures |FoldDb(t, ps).keys| <= |t.keys| + |ps|
  {
    if ps != [] {
      FoldDbSize(t, ps[..|ps| - 1]);
    }
  }

  lemma {:induction false} FoldScraperSize(t: Table, ms: seq<ScrapedMatch>, now: int)
    ensures |FoldScraper(t, ms, now).keys| <= |t.keys| + |ms|
  {
    if ms != [] {
      FoldScraperSize(t, ms[..|ms| - 1], now);
    }
  }

  lemma AggregateSize(db: Option<seq<DbPrediction>>, scraped: Option<seq<ScrapedMatch>>, limit: int, now: int,
                      mlFor: (string, string) -> Option<MlResult>)
    requires limit >= 0
    ensures |Aggregate(db, scraped, limit, now, mlFor)| <= 2 * limit
  {
    var empty := Table([], map[]);
    var fromDb, fromScraper := Selected(db, limit), Selected(scraped, limit);
    SelectedSize(db, limit);
    SelectedSize(scraped, limit);
    FoldDbSize(empty, fromDb);
    var t := FoldScraper(FoldDb(empty, fromDb), fromScraper, now);
    FoldScraperSize(FoldDb(empty, fromDb), fromScraper, now);
    MergedFacts(db, scraped, limit, now);
    assert t == Merged(db, scraped, limit, now);
    assert |Values(t)| == |t.keys|;
  }

  lemma SelectedSize<T>(s: Option<seq<T>>, limit: int)
    requires limit >= 0
    ensures |Selected(s, limit)| <= limit
  {
    if s.Some? {
      SliceTake(s.value, limit);
    }
  }
}
