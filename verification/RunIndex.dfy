/**
 The per-run index behind finding ingest: loaded once for a batch, written through as rows are
 inserted, and asked in place of the database.
 */
module RunIndex {
  import opened Options
  import FindingModel

  type Detector = FindingModel.Detector
  type Evidence = FindingModel.Evidence
  type Cve = FindingModel.Cve
  type FindingId = FindingModel.FindingId
  type AssetId = FindingModel.AssetId
  type JobId = FindingModel.JobId

  // An evidence row with the two columns it is ordered by.
  datatype Row = Row(id: nat, evidence: Evidence, foundAt: Option<int>)

  datatype Coverage = Coverage(kind: nat, hostLevel: bool, host: string)

  datatype Observation = Observation(asset: AssetId, tokens: set<string>)

  // The tables a batch reads: all evidence, and this run's coverage and observations.
  datatype Db = Db(evidence: seq<Row>, coverage: seq<Coverage>, observations: seq<Observation>, canonical: map<AssetId, AssetId>)

  // ---------------------------------------------------------------- the direct queries

  function CvesIn(rows: seq<Row>, d: Detector): set<Cve> {
    if rows == [] then {}
    else
      var last := rows[|rows| - 1].evidence;
      CvesIn(rows[..|rows| - 1], d) + (if last.detector == Some(d) then last.cves else {})
  }

  function OfRun(rows: seq<Row>, job: JobId): seq<Row> {
    if rows == [] then []
    else OfRun(rows[..|rows| - 1], job) + (if rows[|rows| - 1].evidence.job == job then [rows[|rows| - 1]] else [])
  }

  /** _known_cves_for_detector without an index */
  function KnownCves(db: Db, d: Detector, own: set<Cve>): set<Cve> {
    own + CvesIn(db.evidence, d)
  }

  function AttachedTo(rows: seq<Row>, f: FindingId): seq<Row> {
    if rows == [] then []
    else AttachedTo(rows[..|rows| - 1], f) + (if rows[|rows| - 1].evidence.finding == Some(f) then [rows[|rows| - 1]] else [])
  }

  function From(rows: seq<Row>, d: Detector): seq<Row> {
    if rows == [] then []
    else From(rows[..|rows| - 1], d) + (if rows[|rows| - 1].evidence.detector == Some(d) then [rows[|rows| - 1]] else [])
  }

  /** Descending order of (found_at, id); a missing time comes first. */
  predicate Newer(a: Row, b: Row) {
    if a.foundAt == b.foundAt then a.id > b.id
    else a.foundAt.None? || (b.foundAt.Some? && a.foundAt.value > b.foundAt.value)
  }

  function Newest(rows: seq<Row>): Option<Row> {
    if rows == [] then None
    else
      var n, last := Newest(rows[..|rows| - 1]), rows[|rows| - 1];
      if n.None? || Newer(last, n.value) then Some(last) else n
  }

  /** latest_supporting_evidence without an index */
  function LatestSupporting(db: Db, f: FindingId, d: Detector): Option<Row> {
    Newest(From(AttachedTo(db.evidence, f), d))
  }

  function CoveredBy(rows: seq<Coverage>, kind: nat): seq<Coverage> {
    if rows == [] then []
    else CoveredBy(rows[..|rows| - 1], kind) + (if rows[|rows| - 1].kind == kind then [rows[|rows| - 1]] else [])
  }

  function TokensOf(rows: seq<Observation>, asset: AssetId): set<string> {
    if rows == [] then {}
    else TokensOf(rows[..|rows| - 1], asset) + (if rows[|rows| - 1].asset == asset then rows[|rows| - 1].tokens else {})
  }

  /** asset_covered_by_detector without an index */
  predicate AssetCovered(db: Db, asset: AssetId, kind: nat) {
    exists c :: c in db.coverage && c.kind == kind && c.hostLevel && c.host != "" && c.host in TokensOf(db.observations, asset)
  }

  function AssetsWith(rows: seq<Observation>, tokens: set<string>): set<AssetId> {
    set o | o in rows && tokens * o.tokens != {} :: o.asset
  }

  /** resolve_current_run_asset without an index: the one observed asset that shares a token, made canonical. */
  ghost predicate Resolves(db: Db, tokens: set<string>, r: Option<AssetId>) {
    match r
    case Some(c) => exists a :: AssetsWith(db.observations, tokens) == {a} && a in db.canonical && db.canonical[a] == c
    case None => forall a :: a in db.canonical ==> AssetsWith(db.observations, tokens) != {a}
  }

  // ---------------------------------------------------------------- what the queries mean

  lemma {:induction false} CvesInIff(rows: seq<Row>, d: Detector, c: Cve)
    ensures c in CvesIn(rows, d) <==> exists e :: e in rows && e.evidence.detector == Some(d) && c in e.evidence.cves
  {
    if rows != [] {
      CvesInIff(rows[..|rows| - 1], d, c);
      assert rows == rows[..|rows| - 1] + [rows[|rows| - 1]];
    }
  }

  /** The known CVEs of a detector are the report's own and those that some row of that detector names. */
  lemma KnownIff(db: Db, d: Detector, own: set<Cve>, c: Cve)
    ensures c in KnownCves(db, d, own) <==>
      c in own || exists e :: e in db.evidence && e.evidence.detector == Some(d) && c in e.evidence.cves
  {
    CvesInIff(db.evidence, d, c);
  }

  lemma {:induction false} TokensIff(rows: seq<Observation>, asset: AssetId, t: string)
    ensures t in TokensOf(rows, asset) <==> exists o :: o in rows && o.asset == asset && t in o.tokens
  {
    if rows != [] {
      TokensIff(rows[..|rows| - 1], asset, t);
      assert rows == rows[..|rows| - 1] + [rows[|rows| - 1]];
    }
  }

  /** An asset is covered if some host-level coverage of the kind names a host that an observation of the asset in this run goes by. */
  lemma CoveredIff(db: Db, asset: AssetId, kind: nat)
    ensures AssetCovered(db, asset, kind) <==>
      exists c, o :: c in db.coverage && o in db.observations
        && c.kind == kind && c.hostLevel && c.host != "" && o.asset == asset && c.host in o.tokens
  {
    forall t ensures t in TokensOf(db.observations, asset) <==> exists o :: o in db.observations && o.asset == asset && t in o.tokens {
      TokensIff(db.observations, asset, t);
    }
  }

  /** A report resolves to the asset if it shares a token with observations of that asset and of no other. */
  lemma ResolvesIff(db: Db, tokens: set<string>, c: AssetId)
    ensures Resolves(db, tokens, Some(c)) <==>
      exists a :: a in db.canonical && db.canonical[a] == c
        && (exists o :: o in db.observations && o.asset == a && Shares(o, tokens))
        && (forall o :: o in db.observations && Shares(o, tokens) ==> o.asset == a)
  {
    forall a: AssetId ensures AssetsWith(db.observations, tokens) == {a} <==>
      (exists o :: o in db.observations && o.asset == a && Shares(o, tokens)) && (forall o :: o in db.observations && Shares(o, tokens) ==> o.asset == a)
    {
      SoleAsset(db.observations, tokens, a);
    }
  }

  predicate Shares(o: Observation, tokens: set<string>) {
    exists t :: t in tokens && t in o.tokens
  }

  lemma SoleAsset(rows: seq<Observation>, tokens: set<string>, a: AssetId)
    ensures AssetsWith(rows, tokens) == {a} <==>
      (exists o :: o in rows && o.asset == a && Shares(o, tokens)) && (forall o :: o in rows && Shares(o, tokens) ==> o.asset == a)
  {
    forall o ensures Shares(o, tokens) <==> tokens * o.tokens != {} {
      if Shares(o, tokens) {
        var t :| t in tokens && t in o.tokens;
        assert t in tokens * o.tokens;
      }
      if tokens * o.tokens != {} {
        var t :| t in tokens * o.tokens;
        assert t in tokens && t in o.tokens;
      }
    }
    forall o | o in rows && Shares(o, tokens) ensures o.asset in AssetsWith(rows, tokens) {
    }
    if AssetsWith(rows, tokens) == {a} {
      assert a in AssetsWith(rows, tokens);
    }
  }

  // ---------------------------------------------------------------- what the index must agree on

  function Held(m: map<Detector, set<Cve>>, d: Detector): set<Cve> {
    if d in m then m[d] else {}
  }

  /** Cached supporting rows give the same rows for every detector as the table does. */
  ghost predicate SameSupport(cached: seq<Row>, rows: seq<Row>, f: FindingId) {
    forall d :: From(cached, d) == From(AttachedTo(rows, f), d)
  }

  function CvesFrom(e: Row, d: Detector): set<Cve> {
    if e.evidence.detector == Some(d) then e.evidence.cves else {}
  }

  lemma CvesSnoc(rows: seq<Row>, e: Row, d: Detector)
    ensures CvesIn(rows + [e], d) == CvesIn(rows, d) + CvesFrom(e, d)
  {
    assert (rows + [e])[..|rows|] == rows;
  }

  lemma OfRunSnoc(rows: seq<Row>, e: Row, job: JobId)
    ensures OfRun(rows + [e], job) == OfRun(rows, job) + (if e.evidence.job == job then [e] else [])
  {
    assert (rows + [e])[..|rows|] == rows;
  }

  lemma {:induction false} OfRunCves(rows: seq<Row>, job: JobId, d: Detector)
    ensures CvesIn(OfRun(rows, job), d) <= CvesIn(rows, d)
  {
    if rows != [] {
      var front, e := rows[..|rows| - 1], rows[|rows| - 1];
      OfRunCves(front, job, d);
      CvesSnoc(OfRun(front, job), e, d);
      assert OfRun(front, job) + [] == OfRun(front, job);
    }
  }

  lemma AttachedSnoc(rows: seq<Row>, e: Row, f: FindingId)
    ensures AttachedTo(rows + [e], f) == AttachedTo(rows, f) + (if e.evidence.finding == Some(f) then [e] else [])
  {
    assert (rows + [e])[..|rows|] == rows;
  }

  lemma FromSnoc(rows: seq<Row>, e: Row, d: Detector)
    ensures From(rows + [e], d) == From(rows, d) + (if e.evidence.detector == Some(d) then [e] else [])
  {
    assert (rows + [e])[..|rows|] == rows;
  }

  lemma SupportRow(cached: seq<Row>, rows: seq<Row>, e: Row, f: FindingId, d: Detector)
    requires From(cached, d) == From(AttachedTo(rows, f), d)
    ensures From(AttachedTo(rows + [e], f), d) == From(if e.evidence.finding == Some(f) then cached + [e] else cached, d)
    ensures e.evidence.detector != Some(d) ==> From(AttachedTo(rows + [e], f), d) == From(cached, d)
  {
    AttachedSnoc(rows, e, f);
    if e.evidence.finding == Some(f) {
      FromSnoc(cached, e, d);
      FromSnoc(AttachedTo(rows, f), e, d);
      assert From(cached, d) + [] == From(cached, d);
    } else {
      assert AttachedTo(rows, f) + [] == AttachedTo(rows, f);
    }
  }

  lemma SupportSnoc(cached: seq<Row>, rows: seq<Row>, e: Row, f: FindingId)
    requires SameSupport(cached, rows, f)
    ensures SameSupport(if e.evidence.finding == Some(f) then cached + [e] else cached, rows + [e], f)
  {
    var cached' := if e.evidence.finding == Some(f) then cached + [e] else cached;
    forall d ensures From(cached', d) == From(AttachedTo(rows + [e], f), d) {
      SupportRow(cached, rows, e, f, d);
    }
  }

  function Reports(m: map<nat, seq<Coverage>>, kind: nat): seq<Coverage> {
    if kind in m then m[kind] else []
  }

  lemma CoverageSnoc(rows: seq<Coverage>, c: Coverage)
    ensures forall k :: CoveredBy(rows + [c], k) == if c.kind == k then CoveredBy(rows, k) + [c] else CoveredBy(rows, k)
  {
    assert (rows + [c])[..|rows|] == rows;
    forall k ensures CoveredBy(rows, k) + [] == CoveredBy(rows, k) {
    }
  }

  lemma {:induction false} CoverageMember(rows: seq<Coverage>, kind: nat, c: Coverage)
    ensures c in CoveredBy(rows, kind) <==> c in rows && c.kind == kind
  {
    if rows != [] {
      CoverageMember(rows[..|rows| - 1], kind, c);
      assert rows == rows[..|rows| - 1] + [rows[|rows| - 1]];
    }
  }

  function NamedAttached(rows: seq<Row>, f: FindingId): seq<Row> {
    if rows == [] then []
    else
      var e := rows[|rows| - 1];
      NamedAttached(rows[..|rows| - 1], f) + (if e.evidence.finding == Some(f) && e.evidence.detector.Some? then [e] else [])
  }

  /** The query's filter on rows that name a detector loses nothing that is looked for under one. */
  lemma {:induction false} NamedRows(rows: seq<Row>, f: FindingId)
    ensures SameSupport(NamedAttached(rows, f), rows, f)
  {
    if rows != [] {
      var front, e := rows[..|rows| - 1], rows[|rows| - 1];
      NamedRows(front, f);
      assert rows == front + [e];
      var named := NamedAttached(front, f);
      SupportSnoc(named, front, e, f);
      forall d | e.evidence.finding == Some(f) && e.evidence.detector.None? ensures From(named, d) == From(AttachedTo(rows, f), d) {
        SupportRow(named, front, e, f, d);
      }
      assert named + [] == named;
    }
  }

  method NewestFrom(rows: seq<Row>, d: Detector) returns (r: Option<Row>)
    ensures r == Newest(From(rows, d))
  {
    r := None;
    assert rows[..0] == [];
    for i := 0 to |rows|
      invariant r == Newest(From(rows[..i], d))
    {
      ghost var before := From(rows[..i], d);
      assert rows[..i + 1] == rows[..i] + [rows[i]];
      FromSnoc(rows[..i], rows[i], d);
      if rows[i].evidence.detector == Some(d) {
        assert (before + [rows[i]])[..|before|] == before;
        if r.None? || Newer(rows[i], r.value) {
          r := Some(rows[i]);
        }
      } else {
        assert before + [] == before;
      }
    }
    assert rows[..|rows|] == rows;
  }

  /** What a batch's index knows of a detector: all its evidence if it was loaded, this run's otherwise. */
  ghost function Visible(db: Db, job: JobId, loaded: set<Detector>, d: Detector): set<Cve> {
    if d in loaded then CvesIn(db.evidence, d) else CvesIn(OfRun(db.evidence, job), d)
  }

  lemma VisibleSnoc(db: Db, e: Row, job: JobId, loaded: set<Detector>)
    requires e.evidence.job == job
    ensures var db' := db.(evidence := db.evidence + [e]);
      && (forall d :: Visible(db', job, loaded, d) == Visible(db, job, loaded, d) + CvesFrom(e, d))
      && (forall d :: CvesIn(OfRun(db'.evidence, job), d) == CvesIn(OfRun(db.evidence, job), d) + CvesFrom(e, d))
  {
    OfRunSnoc(db.evidence, e, job);
    forall d
      ensures CvesIn(OfRun(db.evidence, job) + [e], d) == CvesIn(OfRun(db.evidence, job), d) + CvesFrom(e, d)
      ensures CvesIn(db.evidence + [e], d) == CvesIn(db.evidence, d) + CvesFrom(e, d)
    {
      CvesSnoc(OfRun(db.evidence, job), e, d);
      CvesSnoc(db.evidence, e, d);
    }
  }

  class FindingRunIndex {
    var cves: map<Detector, set<Cve>>
    var coverage: map<nat, seq<Coverage>>
    var supporting: map<FindingId, seq<Row>>
    var canonical: map<AssetId, AssetId>
    const observations: seq<Observation>
    const job: JobId

    // The tables as they stand, the detectors loaded, and CVEs noted for evidence still to be inserted.
    ghost var db: Db
    ghost const loaded: set<Detector>
    ghost var noted: map<Detector, set<Cve>>

    ghost predicate Valid()
      reads this
    {
      && observations == db.observations
      && (forall d :: Held(cves, d) == Visible(db, job, loaded, d) + Held(noted, d))
      && (forall k :: Reports(coverage, k) == CoveredBy(db.coverage, k))
      && (forall f :: f in supporting ==> SameSupport(supporting[f], db.evidence, f))
      && (forall a :: a in canonical ==> a in db.canonical && canonical[a] == db.canonical[a])
    }

    /** Nothing is noted that has not been inserted. */
    ghost predicate Settled()
      reads this
    {
      forall d :: Held(noted, d) <= CvesIn(OfRun(db.evidence, job), d)
    }

    /** _prefetch */
    constructor (tables: Db, job: JobId, detectors: set<Detector>)
      ensures Valid() && Settled() && db == tables && this.job == job && loaded == detectors
    {
      var remembered := CvesOfRun(tables.evidence, job);
      var byKind := CoverageByKind(tables.coverage);
      cves := remembered + map d | d in detectors :: CvesIn(tables.evidence, d);
      coverage := byKind;
      supporting, canonical := map[], map[];
      observations := tables.observations;
      this.job := job;
      db, loaded, noted := tables, detectors, map[];
    }

    /**
     add_identity_cves, then known_cves.  Once everything noted before has been inserted, the answer is
     the query's exactly if the detector was loaded or this run and the report name all its CVEs.
     */
    method AskCves(d: Detector, own: set<Cve>) returns (r: set<Cve>)
      requires Valid()
      modifies this`cves, this`noted
      ensures Valid() && noted == old(noted)[d := Held(old(noted), d) + own]
      ensures old(Settled()) ==> r == own + Visible(db, job, loaded, d)
      ensures old(Settled()) ==>
        (r == KnownCves(db, d, own) <==> d in loaded || CvesIn(db.evidence, d) <= own + CvesIn(OfRun(db.evidence, job), d))
    {
      OfRunCves(db.evidence, job, d);
      cves := cves[d := Held(cves, d) + own];
      noted := noted[d := Held(noted, d) + own];
      return cves[d];
    }

    /** remember_coverage, after the row was inserted */
    method RememberCoverage(c: Coverage)
      requires Valid()
      modifies this`coverage, this`db
      ensures Valid() && db == old(db).(coverage := old(db).coverage + [c])
      ensures old(Settled()) ==> Settled()
    {
      coverage := coverage[c.kind := Reports(coverage, c.kind) + [c]];
      CoverageSnoc(db.coverage, c);
      db := db.(coverage := db.coverage + [c]);
    }

    /** remember_finding, after a row of this run was inserted */
    method RememberFinding(e: Row)
      requires Valid() && e.evidence.job == job
      modifies this`cves, this`supporting, this`db
      ensures Valid() && db == old(db).(evidence := old(db).evidence + [e])
      ensures forall d :: CvesIn(OfRun(db.evidence, job), d) == CvesIn(OfRun(old(db).evidence, job), d) + CvesFrom(e, d)
    {
      RememberSupport(e);
      RememberCves(e);
      VisibleSnoc(db, e, job, loaded);
      db := db.(evidence := db.evidence + [e]);
    }

    method RememberCves(e: Row)
      modifies this`cves
      ensures forall d :: Held(cves, d) == Held(old(cves), d) + CvesFrom(e, d)
    {
      if e.evidence.detector.Some? {
        cves := cves[e.evidence.detector.value := Held(cves, e.evidence.detector.value) + e.evidence.cves];
      }
    }

    method RememberSupport(e: Row)
      requires forall f :: f in supporting ==> SameSupport(supporting[f], db.evidence, f)
      modifies this`supporting
      ensures forall f :: f in supporting ==> SameSupport(supporting[f], db.evidence + [e], f)
    {
      var f := e.evidence.finding;
      if f.Some? && f.value in supporting {
        supporting := supporting[f.value := supporting[f.value] + [e]];
      }
      forall g | g in supporting ensures SameSupport(supporting[g], db.evidence + [e], g) {
        SupportSnoc(old(supporting)[g], db.evidence, e, g);
      }
    }

    /**
     One report of ingest_findings: if it names a detector its known CVEs are asked for, and then the
     evidence that carries its own is inserted.
     */
    method IngestOne(e: Row) returns (known: set<Cve>)
      requires Valid() && Settled() && e.evidence.job == job
      modifies this
      ensures Valid() && Settled()
      ensures e.evidence.detector.Some? ==> known == e.evidence.cves + Visible(old(db), job, loaded, e.evidence.detector.value)
      ensures e.evidence.detector.Some? && e.evidence.detector.value in loaded ==>
        known == KnownCves(old(db), e.evidence.detector.value, e.evidence.cves)
      ensures db == old(db).(evidence := old(db).evidence + [e])
    {
      known := {};
      if e.evidence.detector.Some? {
        known := AskCves(e.evidence.detector.value, e.evidence.cves);
      }
      RememberFinding(e);
    }

    /** supporting_findings */
    method SupportingFindings(f: FindingId, table: seq<Row>) returns (rows: seq<Row>)
      requires Valid() && table == db.evidence
      modifies this`supporting
      ensures Valid() && SameSupport(rows, db.evidence, f)
    {
      if f in supporting {
        return supporting[f];
      }
      NamedRows(table, f);
      rows := NamedAttached(table, f);
      supporting := supporting[f := rows];
    }

    /** latest_supporting answers as the query does. */
    method AskLatestSupporting(f: FindingId, d: Detector, table: seq<Row>) returns (r: Option<Row>)
      requires Valid() && table == db.evidence
      modifies this`supporting
      ensures Valid() && r == LatestSupporting(db, f, d)
    {
      var rows := SupportingFindings(f, table);
      r := NewestFrom(rows, d);
    }

    /** asset_covered answers as the query does. */
    method AskAssetCovered(asset: AssetId, kind: nat) returns (r: bool)
      requires Valid()
      ensures r == AssetCovered(db, asset, kind)
    {
      var rows := Reports(coverage, kind);
      forall c ensures c in rows <==> c in db.coverage && c.kind == kind {
        CoverageMember(db.coverage, kind, c);
      }
      var tokens := TokensOf(observations, asset);
      r := exists c :: c in rows && c.hostLevel && c.host != "" && c.host in tokens;
    }

    /** resolve_asset answers as the query does, whether or not the canonical id is cached. */
    method AskAsset(tokens: set<string>, pointers: map<AssetId, AssetId>) returns (r: Option<AssetId>)
      requires Valid() && pointers == db.canonical
      modifies this`canonical
      ensures Valid() && Resolves(db, tokens, r)
    {
      var assets := AssetsWith(observations, tokens);
      if |assets| != 1 {
        return None;
      }
      var asset :| asset in assets;
      SingleOnly(assets, asset);
      if asset in canonical {
        return Some(canonical[asset]);
      }
      if asset !in pointers {
        return None;
      }
      canonical := canonical[asset := pointers[asset]];
      return Some(pointers[asset]);
    }
  }

  /** The CVEs that this run's rows name, detector by detector. */
  method CvesOfRun(rows: seq<Row>, job: JobId) returns (m: map<Detector, set<Cve>>)
    ensures forall d :: Held(m, d) == CvesIn(OfRun(rows, job), d)
  {
    m := map[];
    assert rows[..0] == [];
    for i := 0 to |rows|
      invariant forall d :: Held(m, d) == CvesIn(OfRun(rows[..i], job), d)
    {
      var e := rows[i];
      assert rows[..i + 1] == rows[..i] + [e];
      OfRunSnoc(rows[..i], e, job);
      forall d ensures CvesIn(OfRun(rows[..i], job) + [e], d) == CvesIn(OfRun(rows[..i], job), d) + CvesFrom(e, d) {
        CvesSnoc(OfRun(rows[..i], job), e, d);
      }
      if e.evidence.job == job && e.evidence.detector.Some? {
        m := m[e.evidence.detector.value := Held(m, e.evidence.detector.value) + e.evidence.cves];
      }
      assert OfRun(rows[..i], job) + [] == OfRun(rows[..i], job);
    }
    assert rows[..|rows|] == rows;
  }

  method CoverageByKind(rows: seq<Coverage>) returns (m: map<nat, seq<Coverage>>)
    ensures forall k :: Reports(m, k) == CoveredBy(rows, k)
  {
    m := map[];
    assert rows[..0] == [];
    for i := 0 to |rows|
      invariant forall k :: Reports(m, k) == CoveredBy(rows[..i], k)
    {
      var c := rows[i];
      assert rows[..i + 1] == rows[..i] + [c];
      CoverageSnoc(rows[..i], c);
      m := m[c.kind := Reports(m, c.kind) + [c]];
    }
    assert rows[..|rows|] == rows;
  }

  lemma SingleOnly(s: set<AssetId>, a: AssetId)
    requires a in s && |s| == 1
    ensures s == {a}
  {
    assert |s - {a}| == 0;
  }

  /** The newest row is one of them, and none is newer. */
  /** The newest row: a row without a time comes before all with one, later times before earlier, and of equals the one inserted last. */
  lemma {:induction false} NewestIs(rows: seq<Row>)
    ensures Newest(rows).None? <==> rows == []
    ensures Newest(rows).Some? ==>
      var e := Newest(rows).value;
      && e in rows
      && forall o :: o in rows ==>
           && (o.foundAt.None? ==> e.foundAt.None?)
           && (e.foundAt.Some? && o.foundAt.Some? ==> o.foundAt.value <= e.foundAt.value)
           && (o.foundAt == e.foundAt ==> o.id <= e.id)
  {
    if rows != [] {
      NewestIs(rows[..|rows| - 1]);
      assert rows == rows[..|rows| - 1] + [rows[|rows| - 1]];
    }
  }
}
