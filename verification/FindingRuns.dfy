/**
 Whole histories of the findings database: any interleaving of ingested batches, finished runs and
 asset merges, each with its rows visited in any order.
 */
module FindingRuns {
  import opened Options
  import opened FindingModel
  import opened FindingInvariant
  import opened FindingBatches

  // An event carries the order in which the database returned the rows its operation visits.
  datatype Event =
    | Ingested(reports: seq<Report>, orders: seq<seq<FindingId>>)
    | Refused(reports: seq<Report>, orders: seq<seq<FindingId>>)
    | Finished(run: Run)
    | AssetsMerged(source: AssetId, target: AssetId, order: seq<FindingId>)

  /** A batch goes through as a whole or is rolled back as a whole; no run needs more than `most` clean scans of a finding. */
  ghost predicate Step(s: Store, e: Event, s': Store, most: nat) {
    match e
    case Ingested(reports, orders) =>
      && BatchOrders(Begin(s), reports, orders)
      && IngestAll(Begin(s), reports, orders).Some? && s' == IngestAll(Begin(s), reports, orders).value.store
    case Refused(reports, orders) =>
      BatchOrders(Begin(s), reports, orders) && IngestAll(Begin(s), reports, orders).None? && s' == s
    case Finished(run) => Within(run, most) && s' == Finalize(s, run)
    case AssetsMerged(source, target, order) =>
      source != target && Enumerates(order, FindingsOf(s, source)) && s' == RehomeAll(s, order, target)
  }

  ghost predicate History(states: seq<Store>, events: seq<Event>, most: nat) {
    && |states| == |events| + 1
    && states[0] == Empty
    && forall i :: 0 <= i < |events| ==> Step(states[i], events[i], states[i + 1], most)
  }

  ghost function Last(states: seq<Store>): Store
    requires states != []
  {
    states[|states| - 1]
  }

  /** Every batch that goes through asks for fresh slots only, and so does what queries would do. */
  ghost predicate FreshThroughout(states: seq<Store>, events: seq<Event>, most: nat)
    requires History(states, events, most)
  {
    forall i :: 0 <= i < |events| && events[i].Ingested? ==> StepFresh(states[i], events[i])
  }

  ghost predicate StepFresh(s: Store, e: Event) {
    e.Ingested? && |e.orders| == |e.reports| ==> AllFresh(Begin(s), e.reports, e.orders)
  }

  function KeepReport(kept: map<EvidenceKey, Report>, r: Report): map<EvidenceKey, Report> {
    if r.key in kept then kept else kept[r.key := r]
  }

  function KeepAll(kept: map<EvidenceKey, Report>, reports: seq<Report>): map<EvidenceKey, Report> {
    if reports == [] then kept else KeepReport(KeepAll(kept, reports[..|reports| - 1]), reports[|reports| - 1])
  }

  /** The reports of a history's batches that went through, in order of arrival. */
  function Reports(events: seq<Event>): seq<Report> {
    if events == [] then []
    else Reports(events[..|events| - 1]) + (if events[|events| - 1].Ingested? then events[|events| - 1].reports else [])
  }

  /** The reports that became evidence: the first to arrive under each evidence key. */
  function Kept(events: seq<Event>): map<EvidenceKey, Report> {
    KeepAll(map[], Reports(events))
  }

  lemma {:induction false} KeepAppend(kept: map<EvidenceKey, Report>, a: seq<Report>, b: seq<Report>)
    ensures KeepAll(kept, a + b) == KeepAll(KeepAll(kept, a), b)
  {
    if b == [] {
      assert a + b == a;
    } else {
      assert (a + b)[..|a + b| - 1] == a + b[..|b| - 1];
      KeepAppend(kept, a, b[..|b| - 1]);
    }
  }

  ghost predicate RecordsKept(s: Store, kept: map<EvidenceKey, Report>) {
    && s.evidence.Keys == kept.Keys
    && forall k :: k in kept ==>
        && s.evidence[k].job == kept[k].job && s.evidence[k].detector == kept[k].detector && s.evidence[k].cves == kept[k].cves
        && (s.evidence[k].finding.Some? <==> kept[k].detector.Some? && kept[k].asset.Some?)
  }

  lemma StepInv(s: Store, e: Event, s': Store, most: nat)
    requires most >= 1 && Inv(s, most) && Step(s, e, s', most)
    ensures Inv(s', most)
    ensures Linked(s) && StepFresh(s, e) ==> Linked(s')
  {
    match e
    case Ingested(reports, orders) => IngestAllInv(Begin(s), reports, orders, most);
    case Refused(_, _) =>
    case Finished(run) => FinalizeInv(s, run, most);
    case AssetsMerged(source, target, order) => RehomeAllInv(s, order, target, most);
  }

  lemma ConservedRecords(s: Store, s': Store, kept: map<EvidenceKey, Report>)
    requires Conserved(s, s') && RecordsKept(s, kept)
    ensures RecordsKept(s', kept)
  {
    forall k | k in s.evidence ensures SameRow(s.evidence[k], s'.evidence[k]) {}
  }

  lemma InsertRecords(s: Store, s': Store, r: Report, kept: map<EvidenceKey, Report>)
    requires RecordsKept(s, kept) && r.key !in s.evidence && r.key in s'.evidence
    requires s'.evidence == s.evidence[r.key := s'.evidence[r.key]]
    requires var row := s'.evidence[r.key];
      && row.job == r.job && row.detector == r.detector && row.cves == r.cves
      && (row.finding.Some? <==> r.detector.Some? && r.asset.Some?)
    ensures RecordsKept(s', kept[r.key := r])
  {
  }

  lemma RecordShape(b: Batch, r: Report)
    requires RecordIn(b, r).Some? && (r.detector.Some? ==> r.detector.value in b.store.mapping)
    ensures var s' := RecordIn(b, r).value.store;
      && r.key in s'.evidence && s'.evidence == b.store.evidence[r.key := s'.evidence[r.key]]
      && s'.evidence[r.key] == Evidence(r.job, r.detector, r.cves, r.asset, s'.evidence[r.key].finding)
      && (s'.evidence[r.key].finding.Some? <==> r.detector.Some? && r.asset.Some?)
  {
  }

  lemma IngestRecords(b: Batch, r: Report, order: seq<FindingId>, kept: map<EvidenceKey, Report>, most: nat)
    requires most >= 1 && BatchOk(b, most) && IngestOrder(b.store, r, order) && RecordsKept(b.store, kept)
    requires Ingest(b, r, order).Some?
    ensures RecordsKept(Ingest(b, r, order).value.store, KeepReport(kept, r))
  {
    if r.key !in b.store.evidence {
      PreparedSound(b.store, r, order, most);
      var s1 := Prepared(b.store, r, order);
      ConservedRecords(b.store, s1, kept);
      RecordShape(b.(store := s1), r);
      InsertRecords(s1, Ingest(b, r, order).value.store, r, kept);
    }
  }

  lemma {:induction false} IngestAllRecords(
    b: Batch, reports: seq<Report>, orders: seq<seq<FindingId>>, kept: map<EvidenceKey, Report>, most: nat)
    requires most >= 1 && BatchOk(b, most) && BatchOrders(b, reports, orders) && RecordsKept(b.store, kept)
    requires IngestAll(b, reports, orders).Some?
    ensures RecordsKept(IngestAll(b, reports, orders).value.store, KeepAll(kept, reports))
  {
    if reports != [] {
      var n := |reports| - 1;
      IngestAllRecords(b, reports[..n], orders[..n], kept, most);
      IngestAllInv(b, reports[..n], orders[..n], most);
      IngestRecords(IngestAll(b, reports[..n], orders[..n]).value, reports[n], orders[n], KeepAll(kept, reports[..n]), most);
    }
  }

  lemma StepRecords(s: Store, e: Event, s': Store, kept: map<EvidenceKey, Report>, most: nat)
    requires most >= 1 && Inv(s, most) && Step(s, e, s', most) && RecordsKept(s, kept)
    ensures RecordsKept(s', if e.Ingested? then KeepAll(kept, e.reports) else kept)
  {
    match e
    case Ingested(reports, orders) => IngestAllRecords(Begin(s), reports, orders, kept, most);
    case Refused(_, _) =>
    case Finished(run) =>
    case AssetsMerged(source, target, order) => RehomeAllInv(s, order, target, most);
  }

  lemma StepKeeps(s: Store, e: Event, s': Store, kept: map<EvidenceKey, Report>, most: nat)
    requires most >= 1 && Inv(s, most) && Step(s, e, s', most) && RecordsKept(s, kept)
    ensures Inv(s', most) && RecordsKept(s', if e.Ingested? then KeepAll(kept, e.reports) else kept)
  {
    StepInv(s, e, s', most);
    StepRecords(s, e, s', kept, most);
  }

  lemma KeptAfter(events: seq<Event>)
    requires events != []
    ensures var kept, e := Kept(events[..|events| - 1]), events[|events| - 1];
      Kept(events) == if e.Ingested? then KeepAll(kept, e.reports) else kept
  {
    var e := events[|events| - 1];
    KeepAppend(map[], Reports(events[..|events| - 1]), if e.Ingested? then e.reports else []);
  }

  lemma HistoryBefore(states: seq<Store>, events: seq<Event>, most: nat)
    requires History(states, events, most) && events != []
    ensures var n := |events| - 1;
      && History(states[..n + 1], events[..n], most) && Last(states[..n + 1]) == states[n]
      && Step(states[n], events[n], Last(states), most)
  {
  }

  /**
   Over every history the invariant holds in the last state, and its evidence is exactly the first
   report under each key, attached to a finding exactly if the report has a detector and an asset:
   nothing is lost, invented, edited or detached by retargets, splits and merges.
   */
  lemma {:induction false} HistoryInv(states: seq<Store>, events: seq<Event>, most: nat)
    requires most >= 1 && History(states, events, most)
    ensures Inv(Last(states), most) && RecordsKept(Last(states), Kept(events))
  {
    if events == [] {
      EmptyInv(most);
    } else {
      var n := |events| - 1;
      HistoryBefore(states, events, most);
      HistoryInv(states[..n + 1], events[..n], most);
      StepKeeps(states[n], events[n], states[n + 1], Kept(events[..n]), most);
      KeptAfter(events);
    }
  }

  /** If the batches asked for fresh slots, every row is on the finding its detector maps to. */
  lemma {:induction false} HistoryLinked(states: seq<Store>, events: seq<Event>, most: nat)
    requires most >= 1 && History(states, events, most) && FreshThroughout(states, events, most)
    ensures Linked(Last(states))
  {
    if events == [] {
      EmptyInv(most);
    } else {
      var n := |events| - 1;
      HistoryBefore(states, events, most);
      FreshBefore(states, events, most);
      HistoryLinked(states[..n + 1], events[..n], most);
      HistoryInv(states[..n + 1], events[..n], most);
      StepInv(states[n], events[n], states[n + 1], most);
    }
  }

  lemma EmptyInv(most: nat)
    ensures Inv(Empty, most) && Linked(Empty) && RecordsKept(Empty, map[])
  {
  }

  lemma LastStep(states: seq<Store>, events: seq<Event>, most: nat)
    requires most >= 1 && History(states, events, most) && events != []
    ensures var n := |events| - 1; Inv(states[n], most) && Step(states[n], events[n], states[n + 1], most)
  {
    HistoryBefore(states, events, most);
    HistoryInv(states[..|events|], events[..|events| - 1], most);
  }

  lemma FreshBefore(states: seq<Store>, events: seq<Event>, most: nat)
    requires History(states, events, most) && events != [] && FreshThroughout(states, events, most)
    ensures var n := |events| - 1;
      History(states[..n + 1], events[..n], most) && FreshThroughout(states[..n + 1], events[..n], most) && StepFresh(states[n], events[n])
  {
    var n := |events| - 1;
    HistoryBefore(states, events, most);
    forall i | 0 <= i < n && events[..n][i].Ingested? ensures StepFresh(states[..n + 1][i], events[..n][i]) {
      assert StepFresh(states[i], events[i]);
    }
  }

  ghost predicate BatchesLinked(states: seq<Store>, events: seq<Event>, most: nat)
    requires History(states, events, most)
  {
    forall i :: 0 <= i < |events| && events[i].Ingested? ==> StepLinked(states[i], events[i])
  }

  ghost predicate StepLinked(s: Store, e: Event) {
    e.Ingested? && |e.orders| == |e.reports| ==> LinkedThroughout(Begin(s), e.reports, e.orders)
  }

  lemma {:induction false} FreshSoFar(states: seq<Store>, events: seq<Event>, n: nat, most: nat)
    requires most >= 1 && History(states, events, most) && n <= |events| && FreshThroughout(states, events, most)
    ensures Linked(states[n])
    decreases |events|
  {
    if n == |events| {
      HistoryLinked(states, events, most);
    } else {
      FreshBefore(states, events, most);
      FreshSoFar(states[..|events|], events[..|events| - 1], n, most);
    }
  }

  /** Over every history: rows stay on their detectors' mappings all through every batch exactly if batches ask for fresh slots only. */
  lemma HistoryLinkedIff(states: seq<Store>, events: seq<Event>, most: nat)
    requires most >= 1 && History(states, events, most)
    ensures BatchesLinked(states, events, most) <==> FreshThroughout(states, events, most)
  {
    forall i | 0 <= i < |events| && events[i].Ingested?
      ensures StepLinked(states[i], events[i]) <==> Linked(states[i]) && StepFresh(states[i], events[i])
    {
      assert Step(states[i], events[i], states[i + 1], most);
      HistoryInv(states[..i + 1], events[..i], most);
      LinkedThroughoutIff(Begin(states[i]), events[i].reports, events[i].orders, most);
    }
    if FreshThroughout(states, events, most) {
      forall i | 0 <= i < |events| && events[i].Ingested? ensures StepLinked(states[i], events[i]) {
        FreshSoFar(states, events, i, most);
        assert StepFresh(states[i], events[i]);
      }
    }
  }

  function CvesKept(kept: map<EvidenceKey, Report>, d: Detector): set<Cve> {
    set k, c | k in kept && kept[k].detector == Some(d) && c in kept[k].cves :: c
  }

  ghost predicate Names(kept: map<EvidenceKey, Report>, d: Detector) {
    exists k :: k in kept && kept[k].detector == Some(d)
  }

  /**
   After any history a detector is mapped exactly if some kept report names it, and it is mapped to
   cve:X exactly when X is the one CVE its kept reports have named.
   */
  lemma MappingIsHistory(states: seq<Store>, events: seq<Event>, most: nat, d: Detector)
    requires most >= 1 && History(states, events, most)
    ensures var s, kept := Last(states), Kept(events);
      && (d in s.mapping <==> Names(kept, d))
      && (d in s.mapping ==> forall c: Cve :: s.mapping[d] == ByCve(c) <==> CvesKept(kept, d) == {c})
      && (d in s.mapping && (forall c: Cve :: CvesKept(kept, d) != {c}) ==> s.mapping[d] == ByDetector(d))
  {
    HistoryInv(states, events, most);
    var s, kept := Last(states), Kept(events);
    assert CvesOf(s, d) == CvesKept(kept, d);
    if Names(kept, d) {
      var k :| k in kept && kept[k].detector == Some(d);
      assert s.evidence[k].detector == Some(d);
    }
    if d in s.mapping {
      var k :| k in s.evidence && s.evidence[k].detector == Some(d);
      assert k in kept && kept[k].detector == Some(d);
      forall c: Cve ensures s.mapping[d] == ByCve(c) <==> CvesKept(kept, d) == {c} {
        DesiredIs(CvesOf(s, d), d);
        assert CvesOf(s, d) == {c} ==> c in CvesOf(s, d);
      }
    }
  }

  predicate Placed(s: Store, k: EvidenceKey, v: VulnKey) {
    k in s.evidence && s.evidence[k].finding.Some? && s.evidence[k].finding.value in s.findings
    && s.findings[s.evidence[k].finding.value].vuln == v
  }

  /**
   Histories that kept the same reports agree on every detector's mapping, whatever the order of
   arrival; and if their batches asked for fresh slots, on each row's vulnerability, whatever asset
   the row is on.
   */
  lemma MappingIgnoresOrder(
    states: seq<Store>, events: seq<Event>, states': seq<Store>, events': seq<Event>, most: nat, most': nat)
    requires most >= 1 && History(states, events, most)
    requires most' >= 1 && History(states', events', most')
    requires Kept(events) == Kept(events')
    ensures Last(states).mapping == Last(states').mapping
    ensures FreshThroughout(states, events, most) && FreshThroughout(states', events', most') ==>
      forall k, v, v' :: Placed(Last(states), k, v) && Placed(Last(states'), k, v') ==> v == v'
  {
    HistoryInv(states, events, most);
    HistoryInv(states', events', most');
    var s, s' := Last(states), Last(states');
    forall d
      ensures d in s.mapping <==> d in s'.mapping
      ensures d in s.mapping ==> s.mapping[d] == s'.mapping[d]
    {
      MappingIsHistory(states, events, most, d);
      MappingIsHistory(states', events', most', d);
      assert CvesOf(s, d) == CvesKept(Kept(events), d) == CvesOf(s', d);
    }
    if FreshThroughout(states, events, most) && FreshThroughout(states', events', most') {
      HistoryLinked(states, events, most);
      HistoryLinked(states', events', most');
      forall k, v, v' | Placed(s, k, v) && Placed(s', k, v') ensures v == v' {
        assert OnMapping(s, k) && OnMapping(s', k);
      }
    }
  }

  /** A key stands for one report, which may arrive more than once. */
  ghost predicate KeysTell(reports: seq<Report>) {
    forall r, q :: r in reports && q in reports && r.key == q.key ==> r == q
  }

  /** Then the kept reports are exactly the reports. */
  lemma {:induction false} KeptAreReports(reports: seq<Report>, r: Report)
    requires KeysTell(reports)
    ensures var kept := KeepAll(map[], reports);
      && ((r.key in kept && kept[r.key] == r) <==> r in reports)
      && forall k :: k in kept ==> kept[k].key == k
  {
    if reports != [] {
      var front, last := reports[..|reports| - 1], reports[|reports| - 1];
      assert reports == front + [last];
      KeptAreReports(front, r);
      if last.key in KeepAll(map[], front) {
        KeptAreReports(front, KeepAll(map[], front)[last.key]);
      }
    }
  }

  /** Histories that took in the same reports, in any order and any number of times, keep the same ones. */
  lemma KeptIsOrderFree(events: seq<Event>, events': seq<Event>)
    requires KeysTell(Reports(events)) && forall r :: r in Reports(events) <==> r in Reports(events')
    ensures Kept(events) == Kept(events')
  {
    forall k | k in Kept(events) ensures k in Kept(events') && Kept(events')[k] == Kept(events)[k] {
      KeptCarries(Reports(events), Reports(events'), k);
    }
    forall k | k in Kept(events') ensures k in Kept(events) {
      KeptCarries(Reports(events'), Reports(events), k);
    }
  }

  lemma KeptCarries(reports: seq<Report>, reports': seq<Report>, k: EvidenceKey)
    requires KeysTell(reports) && (forall r :: r in reports <==> r in reports') && k in KeepAll(map[], reports)
    ensures k in KeepAll(map[], reports') && KeepAll(map[], reports')[k] == KeepAll(map[], reports)[k]
  {
    var r := KeepAll(map[], reports)[k];
    KeptAreReports(reports, r);
    KeptAreReports(reports', r);
  }

  // ---------------------------------------------------------------- finalizing again

  lemma VerdictSame(s: Store, s1: Store, f: FindingId, run: Run, again: Run)
    requires s1.evidence == s.evidence && f in s.findings && f in s1.findings && s1.findings[f].asset == s.findings[f].asset
    requires again.job == run.job && again.observed == run.observed && again.needed.Keys == run.needed.Keys
    ensures Verdict(s1, f, again) == Verdict(s, f, run)
  {
    assert forall k :: Attached(s1, k, f) <==> Attached(s, k, f);
  }

  lemma FinalizedRow(s: Store, run: Run, again: Run, f: FindingId)
    requires f in s.findings
    requires again.job == run.job && again.observed == run.observed && again.needed.Keys == run.needed.Keys
    ensures var s1 := Finalize(s, run);
      && FinalFinding(s1, f, again) == s1.findings[f]
      && ((f, run.job) !in s1.evals ==> Verdict(s1, f, again).None?)
  {
    VerdictSame(s, Finalize(s, run), f, run, again);
    NewEvalsAt(s, run, f, run.job);
  }

  lemma NothingNew(s: Store, run: Run)
    requires forall f :: f in s.findings ==> FinalFinding(s, f, run) == s.findings[f]
    requires forall f :: f in s.findings ==> (f, run.job) in s.evals || Verdict(s, f, run).None?
    ensures Finalize(s, run) == s
  {
    forall p: (FindingId, JobId) ensures p !in NewEvals(s, run) {
      NewEvalsAt(s, run, p.0, p.1);
      assert p == (p.0, p.1);
    }
    assert NewEvals(s, run) == map[];
    assert Finalize(s, run).findings == s.findings;
  }

  /** Finalizing a run again changes nothing, even at another time or with other numbers of clean scans needed. */
  lemma FinalizeTwice(s: Store, run: Run, again: Run)
    requires again.job == run.job && again.observed == run.observed && again.needed.Keys == run.needed.Keys
    ensures Finalize(Finalize(s, run), again) == Finalize(s, run)
  {
    var s1 := Finalize(s, run);
    forall f | f in s1.findings
      ensures FinalFinding(s1, f, again) == s1.findings[f]
      ensures (f, again.job) in s1.evals || Verdict(s1, f, again).None?
    {
      FinalizedRow(s, run, again, f);
    }
    NothingNew(s1, again);
  }
}
