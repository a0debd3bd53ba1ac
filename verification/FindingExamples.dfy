/** Histories, from the empty store, that show what the findings database can come to. */
module FindingExamples {
  import opened Options
  import opened FindingModel
  import opened FindingInvariant
  import opened FindingBatches
  import opened FindingRuns
  import opened FindingEvidence

  function Sole(row: AssetFinding, evals: Evaluations): Store {
    var d := Detector(0, 1);
    Store(map[d := ByDetector(d)], map[0 := row], map[5 := Evidence(1, Some(d), {}, Some(7), Some(0))], evals, 1)
  }

  lemma SoleVerdict(row: AssetFinding, evals: Evaluations, job: JobId, at: int)
    requires row.asset == 7
    ensures Verdict(Sole(row, evals), 0, Run(job, {7}, map[0 := 2], at)) == Some(if job == 1 then Detected else Clean)
  {
    assert Attached(Sole(row, evals), 5, 0);
  }

  lemma SoleNewEvals(row: AssetFinding, evals: Evaluations, job: JobId, at: int)
    requires row.asset == 7 && (0, job) !in evals
    ensures NewEvals(Sole(row, evals), Run(job, {7}, map[0 := 2], at)) == map[(0, job) := if job == 1 then Detected else Clean]
  {
    SoleVerdict(row, evals, job, at);
    forall p: (FindingId, JobId) ensures p in NewEvals(Sole(row, evals), Run(job, {7}, map[0 := 2], at)) <==> p == (0, job) {
      NewEvalsAt(Sole(row, evals), Run(job, {7}, map[0 := 2], at), p.0, p.1);
    }
    NewEvalsAt(Sole(row, evals), Run(job, {7}, map[0 := 2], at), 0, job);
  }

  lemma SoleFinalize(row: AssetFinding, evals: Evaluations, job: JobId, at: int)
    requires row.asset == 7 && (0, job) !in evals
    ensures Finalize(Sole(row, evals), Run(job, {7}, map[0 := 2], at)) ==
      if job == 1 then Sole(row.(clean := 0), evals[(0, 1) := Detected])
      else Sole(Resolve(row.(clean := row.clean + 1), 2, at), evals[(0, job) := Clean])
  {
    SoleVerdict(row, evals, job, at);
    SoleNewEvals(row, evals, job, at);
    SoleRowAfter(row, evals, job, at);
    assert evals + map[(0, job) := if job == 1 then Detected else Clean] == evals[(0, job) := if job == 1 then Detected else Clean];
  }

  lemma SoleRowAfter(row: AssetFinding, evals: Evaluations, job: JobId, at: int)
    requires row.asset == 7 && (0, job) !in evals
    ensures Finalize(Sole(row, evals), Run(job, {7}, map[0 := 2], at)).findings ==
      map[0 := if job == 1 then row.(clean := 0) else Resolve(row.(clean := row.clean + 1), 2, at)]
  {
    SoleVerdict(row, evals, job, at);
  }

  function SoleReport(): Report {
    Report(5, 1, Some(Detector(0, 1)), {}, Some(7))
  }

  function SoleRow(clean: nat): AssetFinding {
    AssetFinding(7, ByDetector(Detector(0, 1)), true, None, clean)
  }

  /** One report into the empty store makes the one open finding. */
  lemma SoleIngest()
    ensures Step(Empty, Ingested([SoleReport()], [[]]), Sole(SoleRow(0), map[]), 2)
  {
    var d := Detector(0, 1);
    Cves(d);
    assert CvesOf(Empty, d) + {} == {};
    var s1 := UpsertCatalog(Empty, d, {}, []);
    assert s1 == Empty.(mapping := map[d := ByDetector(d)]);
    assert Lookup(s1.findings, 7, ByDetector(d)).None?;
    OneReport(Begin(Empty), SoleReport(), []);
  }

  lemma OneReport(b: Batch, r: Report, order: seq<FindingId>)
    ensures IngestAll(b, [r], [order]) == Ingest(b, r, order)
    ensures BatchOrders(b, [r], [order]) <==> IngestOrder(b.store, r, order)
    ensures AllFresh(b, [r], [order]) <==> IngestsFresh(b, r, order)
  {
    assert [r][..0] == [] && [order][..0] == [];
    assert IngestAll(b, [], []) == Some(b) && BatchOrders(b, [], []) && AllFresh(b, [], []);
  }

  /** What one, two or no known CVEs make of a detector. */
  lemma Cves(d: Detector)
    ensures Desired({}, d) == ByDetector(d) && Desired({10}, d) == ByCve(10) && Desired({10, 20}, d) == ByDetector(d)
  {
    DesiredIs({}, d);
    DesiredIs({10}, d);
    DesiredIs({10, 20}, d);
    forall c: Cve ensures {10, 20} != {c} {
      assert 10 in {10, 20} && 20 in {10, 20};
    }
  }

  function SecondResetEvents(): seq<Event> {
    [Ingested([SoleReport()], [[]]), Finished(Run(2, {7}, map[0 := 2], 20)), Finished(Run(1, {7}, map[0 := 2], 30)),
     Finished(Run(3, {7}, map[0 := 2], 40))]
  }

  function SecondResetStates(): seq<Store> {
    [Empty, Sole(SoleRow(0), map[]), Sole(SoleRow(1), map[(0, 2) := Clean]),
     Sole(SoleRow(0), map[(0, 2) := Clean, (0, 1) := Detected]),
     Sole(SoleRow(1), map[(0, 2) := Clean, (0, 1) := Detected, (0, 3) := Clean])]
  }

  /**
   Counting from the detection alone would be wrong.  Two clean scans are needed: run 1 detects, run 2 is
   clean, run 1 is finalized (and resets the counter again), run 3 is clean.  Two distinct clean
   runs lie after the only detection, yet the finding is still open.
   */
  lemma SecondResetExample()
    ensures History(SecondResetStates(), SecondResetEvents(), 2)
    ensures var s := Last(SecondResetStates());
      && s.evals == map[(0, 2) := Clean, (0, 1) := Detected, (0, 3) := Clean]
      && 0 in s.findings && s.findings[0].isOpen && s.findings[0].clean == 1
  {
    SoleIngest();
    SecondStep();
    ThirdStep();
    FourthStep();
  }

  lemma SecondStep()
    ensures Step(SecondResetStates()[1], SecondResetEvents()[1], SecondResetStates()[2], 2)
  {
    SoleFinalize(SoleRow(0), map[], 2, 20);
  }

  lemma ThirdStep()
    ensures Step(SecondResetStates()[2], SecondResetEvents()[2], SecondResetStates()[3], 2)
  {
    SoleFinalize(SoleRow(1), map[(0, 2) := Clean], 1, 30);
  }

  lemma FourthStep()
    ensures Step(SecondResetStates()[3], SecondResetEvents()[3], SecondResetStates()[4], 2)
  {
    SoleFinalize(SoleRow(0), map[(0, 2) := Clean, (0, 1) := Detected], 3, 40);
  }

  // ---------------------------------------------------------------- batches whose index goes stale

  const X := Detector(0, 1)
  const Y := Detector(0, 2)

  function RowOf(v: VulnKey): AssetFinding { AssetFinding(7, v, true, None, 0) }

  function RowBy(d: Detector, cves: set<Cve>, f: FindingId): Evidence { Evidence(1, Some(d), cves, Some(7), Some(f)) }

  function ReportBy(key: EvidenceKey, d: Detector, cves: set<Cve>): Report { Report(key, 1, Some(d), cves, Some(7)) }

  /** A finding that the batch has detected is retitled by its second report, and its third goes by the old title. */
  function StaleReports(): seq<Report> { [ReportBy(1, X, {10}), ReportBy(2, X, {20}), ReportBy(3, Y, {10})] }

  function StaleOrders(): seq<seq<FindingId>> { [[], [0], []] }

  function Stale1(): Batch {
    Batch(Store(map[X := ByCve(10)], map[0 := RowOf(ByCve(10))], map[1 := RowBy(X, {10}, 0)], map[], 1), map[(7, ByCve(10)) := 0])
  }

  function Stale2(): Batch {
    Batch(Store(map[X := ByDetector(X)], map[0 := RowOf(ByDetector(X))], map[1 := RowBy(X, {10}, 0), 2 := RowBy(X, {20}, 0)], map[], 1),
          map[(7, ByCve(10)) := 0, (7, ByDetector(X)) := 0])
  }

  function Stale3(): Batch {
    Batch(Store(map[X := ByDetector(X), Y := ByCve(10)], map[0 := RowOf(ByDetector(X))],
                map[1 := RowBy(X, {10}, 0), 2 := RowBy(X, {20}, 0), 3 := RowBy(Y, {10}, 0)], map[], 1),
          map[(7, ByCve(10)) := 0, (7, ByDetector(X)) := 0])
  }

  /** A first detection of a slot. */
  lemma DetectsNew(b: Batch, r: Report)
    requires r.detector.Some? && r.asset == Some(7) && r.detector.value in b.store.mapping
    requires var slot := (7, b.store.mapping[r.detector.value]); slot !in b.cache && Lookup(b.store.findings, slot.0, slot.1).None?
    ensures var s, v := b.store, b.store.mapping[r.detector.value];
      RecordIn(b, r) == Some(Batch(
        s.(findings := s.findings[s.nextId := RowOf(v)], nextId := s.nextId + 1,
           evidence := s.evidence[r.key := Evidence(r.job, r.detector, r.cves, r.asset, Some(s.nextId))]),
        b.cache[(7, v) := s.nextId]))
  {
    var v := b.store.mapping[r.detector.value];
    assert b.cache[(7, v) := b.store.nextId][(7, v) := b.store.nextId] == b.cache[(7, v) := b.store.nextId];
  }

  /** A detection through the row `f`, which is open with a count of zero. */
  lemma DetectsAgain(b: Batch, r: Report, f: FindingId, w: VulnKey)
    requires r.detector.Some? && r.asset == Some(7) && r.detector.value in b.store.mapping
    requires CachedLookup(b, (7, b.store.mapping[r.detector.value])) == Some(f) && f in b.store.findings && b.store.findings[f] == RowOf(w)
    ensures RecordIn(b, r) == Some(Batch(
      b.store.(evidence := b.store.evidence[r.key := Evidence(r.job, r.detector, r.cves, r.asset, Some(f))]),
      b.cache[(7, b.store.mapping[r.detector.value]) := f][(7, w) := f]))
  {
    assert b.store.findings[f := RowOf(w)] == b.store.findings;
  }

  lemma StaleFirst()
    ensures var b := Begin(Empty); IngestOrder(b.store, StaleReports()[0], []) && Ingest(b, StaleReports()[0], []) == Some(Stale1())
  {
    Cves(X);
    assert CvesOf(Empty, X) + {10} == {10};
    var b1 := Batch(Empty.(mapping := map[X := ByCve(10)]), map[]);
    assert Prepared(Empty, StaleReports()[0], []) == b1.store;
    DetectsNew(b1, StaleReports()[0]);
  }

  lemma StaleRetitles()
    ensures IngestOrder(Stale1().store, StaleReports()[1], [0])
    ensures Prepared(Stale1().store, StaleReports()[1], [0]) ==
      Stale1().store.(mapping := map[X := ByDetector(X)], findings := map[0 := RowOf(ByDetector(X))])
  {
    var s := Stale1().store;
    Cves(X);
    assert CvesOf(s, X) + {20} == {10, 20} by {
      assert 1 in s.evidence && 10 in s.evidence[1].cves;
    }
    assert Supporting(s, 1, 0, X);
    assert Donors(s, X, ByCve(10)) == {0};
    var s0 := s.(mapping := map[X := ByDetector(X)]);
    assert s.mapping[X := ByDetector(X)] == s0.mapping;
    assert Supporting(s0, 1, 0, X);
    assert Partition(s0, 0, X, ByDetector(X)).findings == map[0 := RowOf(ByDetector(X))];
    OnePartition(s0, 0, X, ByDetector(X));
  }

  lemma StaleSecond()
    ensures IngestOrder(Stale1().store, StaleReports()[1], [0]) && Ingest(Stale1(), StaleReports()[1], [0]) == Some(Stale2())
  {
    StaleRetitles();
    var b1 := Batch(Prepared(Stale1().store, StaleReports()[1], [0]), Stale1().cache);
    assert At(b1.store.findings, 0, 7, ByDetector(X));
    DetectsAgain(b1, StaleReports()[1], 0, ByDetector(X));
    assert b1.cache[(7, ByDetector(X)) := 0][(7, ByDetector(X)) := 0] == Stale2().cache;
    assert b1.store.evidence[2 := RowBy(X, {20}, 0)] == Stale2().store.evidence;
  }

  lemma OnePartition(s: Store, donor: FindingId, d: Detector, v: VulnKey)
    requires donor in s.findings
    ensures PartitionAll(s, [donor], d, v) == Partition(s, donor, d, v)
  {
    assert [donor][..0] == [];
    assert PartitionAll(s, [], d, v) == s;
  }

  lemma StaleThird()
    ensures IngestOrder(Stale2().store, StaleReports()[2], []) && Ingest(Stale2(), StaleReports()[2], []) == Some(Stale3())
    ensures !IngestsFresh(Stale2(), StaleReports()[2], [])
  {
    var s := Stale2().store;
    Cves(Y);
    assert CvesOf(s, Y) + {10} == {10};
    var b1 := Batch(s.(mapping := s.mapping[Y := ByCve(10)]), Stale2().cache);
    assert Prepared(s, StaleReports()[2], []) == b1.store;
    DetectsAgain(b1, StaleReports()[2], 0, ByDetector(X));
    assert b1.cache[(7, ByCve(10)) := 0][(7, ByDetector(X)) := 0] == Stale3().cache;
    assert b1.store.mapping == Stale3().store.mapping;
    assert b1.store.evidence[3 := RowBy(Y, {10}, 0)] == Stale3().store.evidence;
  }

  lemma ThreeReports(b: Batch, reports: seq<Report>, orders: seq<seq<FindingId>>, b1: Batch, b2: Batch)
    requires |reports| == |orders| == 3
    requires IngestOrder(b.store, reports[0], orders[0]) && Ingest(b, reports[0], orders[0]) == Some(b1)
    requires IngestOrder(b1.store, reports[1], orders[1]) && Ingest(b1, reports[1], orders[1]) == Some(b2)
    requires IngestOrder(b2.store, reports[2], orders[2])
    ensures BatchOrders(b, reports, orders) && IngestAll(b, reports, orders) == Ingest(b2, reports[2], orders[2])
    ensures AllFresh(b, reports, orders) ==> IngestsFresh(b2, reports[2], orders[2])
  {
    assert reports[..1] == [reports[0]] && orders[..1] == [orders[0]];
    OneReport(b, reports[0], orders[0]);
    assert reports[..2][..1] == reports[..1] && orders[..2][..1] == orders[..1];
    assert IngestAll(b, reports[..2], orders[..2]) == Some(b2) && BatchOrders(b, reports[..2], orders[..2]);
  }

  lemma StaleBatch()
    ensures Step(Empty, Ingested(StaleReports(), StaleOrders()), Stale3().store, 2)
    ensures !AllFresh(Begin(Empty), StaleReports(), StaleOrders())
  {
    StaleFirst();
    StaleSecond();
    StaleThird();
    ThreeReports(Begin(Empty), StaleReports(), StaleOrders(), Stale1(), Stale2());
  }

  /**
   A batch from the empty store that goes another way than queries would: its third report asks for
   cve:10, which the index remembers as finding 0, although finding 0 has become the detector's own.
   The evidence hangs on a finding that its detector does not map to, and none has the vulnerability
   it maps to.
   */
  lemma StaleBatchExample()
    ensures History([Empty, Stale3().store], [Ingested(StaleReports(), StaleOrders())], 2)
    ensures !AllFresh(Begin(Empty), StaleReports(), StaleOrders()) && !Linked(Stale3().store)
    ensures Stale3().store.mapping[Y] == ByCve(10) && Lookup(Stale3().store.findings, 7, ByCve(10)).None?
  {
    StaleBatch();
    assert 3 in Stale3().store.evidence && Anchored(Stale3().store, 3) && !OnMapping(Stale3().store, 3);
  }

  // A finding that the batch has detected is merged away, and its fourth report goes by the old title.

  function GoneReports(): seq<Report> { [ReportBy(1, X, {}), ReportBy(2, Y, {10}), ReportBy(3, X, {10}), ReportBy(4, X, {20})] }

  function GoneOrders(): seq<seq<FindingId>> { [[], [], [0], [1]] }

  function Gone1(): Batch {
    Batch(Store(map[X := ByDetector(X)], map[0 := RowOf(ByDetector(X))], map[1 := RowBy(X, {}, 0)], map[], 1),
          map[(7, ByDetector(X)) := 0])
  }

  function Gone2(): Batch {
    Batch(Store(map[X := ByDetector(X), Y := ByCve(10)], map[0 := RowOf(ByDetector(X)), 1 := RowOf(ByCve(10))],
                map[1 := RowBy(X, {}, 0), 2 := RowBy(Y, {10}, 1)], map[], 2),
          map[(7, ByDetector(X)) := 0, (7, ByCve(10)) := 1])
  }

  function Gone3(): Batch {
    Batch(Store(map[X := ByCve(10), Y := ByCve(10)], map[1 := RowOf(ByCve(10))],
                map[1 := RowBy(X, {}, 1), 2 := RowBy(Y, {10}, 1), 3 := RowBy(X, {10}, 1)], map[], 2),
          map[(7, ByDetector(X)) := 0, (7, ByCve(10)) := 1])
  }

  lemma GoneFirst()
    ensures var b := Begin(Empty); IngestOrder(b.store, GoneReports()[0], []) && Ingest(b, GoneReports()[0], []) == Some(Gone1())
  {
    Cves(X);
    assert CvesOf(Empty, X) + {} == {};
    var b1 := Batch(Empty.(mapping := map[X := ByDetector(X)]), map[]);
    assert Prepared(Empty, GoneReports()[0], []) == b1.store;
    DetectsNew(b1, GoneReports()[0]);
  }

  lemma GoneSecond()
    ensures IngestOrder(Gone1().store, GoneReports()[1], []) && Ingest(Gone1(), GoneReports()[1], []) == Some(Gone2())
  {
    var s := Gone1().store;
    Cves(Y);
    assert CvesOf(s, Y) + {10} == {10};
    var b1 := Batch(s.(mapping := s.mapping[Y := ByCve(10)]), Gone1().cache);
    assert Prepared(s, GoneReports()[1], []) == b1.store;
    DetectsNew(b1, GoneReports()[1]);
    assert b1.store.findings[1 := RowOf(ByCve(10))] == Gone2().store.findings;
    assert b1.store.evidence[2 := RowBy(Y, {10}, 1)] == Gone2().store.evidence;
  }

  lemma GoneMerges()
    ensures IngestOrder(Gone2().store, GoneReports()[2], [0])
    ensures Prepared(Gone2().store, GoneReports()[2], [0]) == Store(
      map[X := ByCve(10), Y := ByCve(10)], map[1 := RowOf(ByCve(10))], map[1 := RowBy(X, {}, 1), 2 := RowBy(Y, {10}, 1)], map[], 2)
  {
    var s := Gone2().store;
    Cves(X);
    assert CvesOf(s, X) + {10} == {10};
    assert Supporting(s, 1, 0, X);
    assert Donors(s, X, ByDetector(X)) == {0};
    var s0 := s.(mapping := s.mapping[X := ByCve(10)]);
    OnePartition(s0, 0, X, ByCve(10));
    GoneMerge(s0);
  }

  lemma GoneMerge(s0: Store)
    requires s0 == Gone2().store.(mapping := s0.mapping)
    ensures Partition(s0, 0, X, ByCve(10)) == s0.(
      findings := map[1 := RowOf(ByCve(10))], evidence := map[1 := RowBy(X, {}, 1), 2 := RowBy(Y, {10}, 1)])
  {
    assert Supporting(s0, 1, 0, X) && At(s0.findings, 1, 7, ByCve(10));
    assert Partition(s0, 0, X, ByCve(10)) == MergeDuplicate(s0, 1, 0);
    GoneMerged(s0);
  }

  lemma GoneMerged(s0: Store)
    requires s0 == Gone2().store.(mapping := s0.mapping)
    ensures MergeDuplicate(s0, 1, 0) == s0.(
      findings := map[1 := RowOf(ByCve(10))], evidence := map[1 := RowBy(X, {}, 1), 2 := RowBy(Y, {10}, 1)])
  {
    var rows := s0.findings;
    assert rows[1 := MergedFinding(rows[1], rows[0])] - {0} == map[1 := RowOf(ByCve(10))];
    assert MoveAll(s0.evidence, 0, 1, 7) == map[1 := RowBy(X, {}, 1), 2 := RowBy(Y, {10}, 1)];
    assert MergedKeys(s0.evals, 1, 0) == {};
    assert MergedEvals(s0.evals, 1, 0) == map[];
  }

  lemma GoneThird()
    ensures IngestOrder(Gone2().store, GoneReports()[2], [0]) && Ingest(Gone2(), GoneReports()[2], [0]) == Some(Gone3())
  {
    GoneMerges();
    var b1 := Batch(Prepared(Gone2().store, GoneReports()[2], [0]), Gone2().cache);
    DetectsAgain(b1, GoneReports()[2], 1, ByCve(10));
    assert b1.cache[(7, ByCve(10)) := 1][(7, ByCve(10)) := 1] == Gone3().cache;
  }

  lemma GoneSplits()
    ensures IngestOrder(Gone3().store, GoneReports()[3], [1])
    ensures 0 !in Prepared(Gone3().store, GoneReports()[3], [1]).findings
    ensures Prepared(Gone3().store, GoneReports()[3], [1]).mapping == map[X := ByDetector(X), Y := ByCve(10)]
  {
    var s := Gone3().store;
    Cves(X);
    assert CvesOf(s, X) + {20} == {10, 20} by {
      assert 3 in s.evidence && 10 in s.evidence[3].cves;
    }
    assert Supporting(s, 3, 1, X);
    assert Donors(s, X, ByCve(10)) == {1};
    OnePartition(s.(mapping := s.mapping[X := ByDetector(X)]), 1, X, ByDetector(X));
  }

  lemma GoneFourth()
    ensures IngestOrder(Gone3().store, GoneReports()[3], [1]) && Ingest(Gone3(), GoneReports()[3], [1]).None?
  {
    GoneSplits();
  }

  lemma LastRefused(b: Batch, reports: seq<Report>, orders: seq<seq<FindingId>>, before: Batch)
    requires |reports| == |orders| == 4 && BatchOrders(b, reports[..3], orders[..3])
    requires IngestAll(b, reports[..3], orders[..3]) == Some(before)
    requires IngestOrder(before.store, reports[3], orders[3]) && Ingest(before, reports[3], orders[3]).None?
    ensures BatchOrders(b, reports, orders) && IngestAll(b, reports, orders).None?
  {
  }

  lemma GoneSoFar(reports: seq<Report>, orders: seq<seq<FindingId>>)
    requires reports == GoneReports()[..3] && orders == GoneOrders()[..3]
    ensures BatchOrders(Begin(Empty), reports, orders) && IngestAll(Begin(Empty), reports, orders) == Some(Gone3())
  {
    GoneFirst();
    GoneSecond();
    GoneThird();
    ThreeReports(Begin(Empty), reports, orders, Gone1(), Gone2());
  }

  /** A batch from the empty store that is refused as a whole, where queries would take it in. */
  lemma RefusedBatchExample()
    ensures Step(Empty, Refused(GoneReports(), GoneOrders()), Empty, 2)
    ensures forall r :: r in GoneReports() ==> r.key in QueryAll(Empty, GoneReports(), GoneOrders()).evidence
  {
    GoneSoFar(GoneReports()[..3], GoneOrders()[..3]);
    GoneFourth();
    LastRefused(Begin(Empty), GoneReports(), GoneOrders(), Gone3());
    QueriedKeys(Empty, GoneReports(), GoneOrders());
  }

  lemma {:induction false} QueriedKeys(s: Store, reports: seq<Report>, orders: seq<seq<FindingId>>)
    requires |orders| == |reports|
    ensures forall r :: r in reports ==> r.key in QueryAll(s, reports, orders).evidence
  {
    if reports != [] {
      var n := |reports| - 1;
      QueriedKeys(s, reports[..n], orders[..n]);
      var before := QueryAll(s, reports[..n], orders[..n]);
      if reports[n].detector.Some? {
        CatalogKeys(before, reports[n].detector.value, reports[n].cves, orders[n]);
      }
      assert reports == reports[..n] + [reports[n]];
    }
  }
}
