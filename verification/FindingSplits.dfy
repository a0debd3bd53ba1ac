/**
 What a retarget's splits find.  A donor that keeps other evidence finds its place free, so a split
 makes a new, open finding, and evidence leaves the open findings only when a run resolves them.
 */
module FindingSplits {
  import opened Options
  import opened FindingModel
  import opened FindingInvariant
  import opened FindingBatches
  import opened FindingRuns
  import opened FindingEvidence

  /** Of the findings still to visit, one that has to be split finds no finding of the new vulnerability. */
  ghost predicate Tidy(s: Store, d: Detector, v: VulnKey, todo: set<FindingId>) {
    forall f :: f in todo && f in s.findings && OtherSupport(s, f, d) ==> Lookup(s.findings, s.findings[f].asset, v).None?
  }

  lemma TidyAtStart(s: Store, d: Detector, cves: set<Cve>, most: nat)
    requires Inv(s, most) && OwnTitles(s) && d in s.mapping
    requires s.mapping[d] != Desired(CvesOf(s, d) + cves, d)
    ensures var v := Desired(CvesOf(s, d) + cves, d); Tidy(s.(mapping := s.mapping[d := v]), d, v, Donors(s, d, s.mapping[d]))
  {
    var v := Desired(CvesOf(s, d) + cves, d);
    RetargetShape(s, d, cves);
    var s0 := s.(mapping := s.mapping[d := v]);
    forall f | f in Donors(s, d, s.mapping[d]) && OtherSupport(s0, f, d)
      ensures Lookup(s.findings, s.findings[f].asset, v).None?
    {
      var k :| Attached(s0, k, f) && s0.evidence[k].detector != Some(d);
      assert Attached(s, k, f);
      assert AfterDetector(s, f, d) <==> s.mapping[d] == ByDetector(d);
      if s.mapping[d] == ByDetector(d) {
        assert false;
      } else {
        var found := Lookup(s.findings, s.findings[f].asset, v);
        assert found.Some? ==> AfterDetector(s, found.value, d);
      }
    }
  }

  lemma PartitionKeepsOthers(s: Store, donor: FindingId, d: Detector, previous: VulnKey, v: VulnKey, todo: set<FindingId>, most: nat, f: FindingId)
    requires Moving(s, d, previous, v, todo, most) && donor in todo && f in todo && f != donor
    ensures var s' := Partition(s, donor, d, v);
      && f in s'.findings && s'.findings[f] == s.findings[f]
      && (OtherSupport(s', f, d) ==> OtherSupport(s, f, d))
      && (Lookup(s.findings, s.findings[f].asset, v).None? ==> Lookup(s'.findings, s.findings[f].asset, v).None?)
  {
    var s' := Partition(s, donor, d, v);
    assert s.findings[f].asset != s.findings[donor].asset by {
      assert s.findings[f].asset == s.findings[donor].asset ==> SameSlot(s.findings, f, donor);
    }
    if OtherSupport(s', f, d) {
      var k :| Attached(s', k, f) && s'.evidence[k].detector != Some(d);
      assert Attached(s, k, f);
    }
    assert forall g :: At(s'.findings, g, s.findings[f].asset, v) ==> At(s.findings, g, s.findings[f].asset, v);
  }

  lemma TidyNext(s: Store, donor: FindingId, d: Detector, previous: VulnKey, v: VulnKey, todo: set<FindingId>, most: nat)
    requires Moving(s, d, previous, v, todo, most) && donor in todo && Tidy(s, d, v, todo)
    ensures Tidy(Partition(s, donor, d, v), d, v, todo - {donor})
  {
    forall f | f in todo - {donor} && OtherSupport(Partition(s, donor, d, v), f, d)
      ensures f in s.findings && Lookup(Partition(s, donor, d, v).findings, s.findings[f].asset, v).None?
      ensures Partition(s, donor, d, v).findings[f] == s.findings[f]
    {
      PartitionKeepsOthers(s, donor, d, previous, v, todo, most, f);
    }
    forall f | f in todo - {donor} ensures f in Partition(s, donor, d, v).findings {
      PartitionKeepsOthers(s, donor, d, previous, v, todo, most, f);
    }
  }

  // ---------------------------------------------------------------- evidence on open findings

  predicate OnOpen(s: Store, k: EvidenceKey) {
    && k in s.evidence && s.evidence[k].finding.Some? && s.evidence[k].finding.value in s.findings
    && s.findings[s.evidence[k].finding.value].isOpen
  }

  ghost predicate StaysOpen(s: Store, s': Store) {
    forall k :: OnOpen(s, k) ==> OnOpen(s', k)
  }

  lemma PartitionStaysOpen(s: Store, donor: FindingId, d: Detector, v: VulnKey)
    requires donor in s.findings && s.findings[donor].vuln != v && Numbered(s)
    requires OtherSupport(s, donor, d) ==> Lookup(s.findings, s.findings[donor].asset, v).None?
    ensures StaysOpen(s, Partition(s, donor, d, v))
  {
  }

  lemma {:induction false} PartitionAllStaysOpen(
    s: Store, order: seq<FindingId>, d: Detector, previous: VulnKey, v: VulnKey, todo: set<FindingId>, most: nat)
    requires most >= 1 && Moving(s, d, previous, v, todo, most) && Tidy(s, d, v, todo)
    requires forall i :: 0 <= i < |order| ==> order[i] in todo
    requires forall i, j :: 0 <= i < j < |order| ==> order[i] != order[j]
    ensures StaysOpen(s, PartitionAll(s, order, d, v))
    ensures Tidy(PartitionAll(s, order, d, v), d, v, todo - Elements(order))
  {
    if order == [] {
      assert todo - Elements(order) == todo;
    } else {
      var front, donor := order[..|order| - 1], order[|order| - 1];
      PartitionAllStaysOpen(s, front, d, previous, v, todo, most);
      PartitionAllSound(s, front, d, previous, v, todo, most);
      FrontElements(order, todo);
      var rest := PartitionAll(s, front, d, v);
      PartitionStaysOpen(rest, donor, d, v);
      TidyNext(rest, donor, d, previous, v, todo - Elements(front), most);
    }
  }

  lemma CatalogStaysOpen(s: Store, d: Detector, cves: set<Cve>, order: seq<FindingId>, most: nat)
    requires most >= 1 && Inv(s, most) && OwnTitles(s) && Enumerates(order, CatalogDonors(s, d, cves))
    ensures StaysOpen(s, UpsertCatalog(s, d, cves, order))
  {
    var v := Desired(CvesOf(s, d) + cves, d);
    if d in s.mapping && s.mapping[d] != v {
      var s0, todo := s.(mapping := s.mapping[d := v]), Donors(s, d, s.mapping[d]);
      RetargetStart(s, d, v, most);
      TidyAtStart(s, d, cves, most);
      assert StaysOpen(s, s0);
      PartitionAllStaysOpen(s0, order, d, s.mapping[d], v, todo, most);
    }
  }

  lemma RecordStaysOpen(b: Batch, r: Report)
    requires r.key !in b.store.evidence && RecordIn(b, r).Some?
    ensures StaysOpen(b.store, RecordIn(b, r).value.store)
  {
  }

  lemma IngestStaysOpen(b: Batch, r: Report, order: seq<FindingId>, most: nat)
    requires most >= 1 && BatchOk(b, most) && OwnTitles(b.store) && IngestOrder(b.store, r, order)
    requires Ingest(b, r, order).Some?
    ensures StaysOpen(b.store, Ingest(b, r, order).value.store)
  {
    if r.key !in b.store.evidence {
      if r.detector.Some? {
        CatalogStaysOpen(b.store, r.detector.value, r.cves, order, most);
        CatalogKeys(b.store, r.detector.value, r.cves, order);
      }
      RecordStaysOpen(b.(store := Prepared(b.store, r, order)), r);
    }
  }

  lemma {:induction false} IngestAllStaysOpen(b: Batch, reports: seq<Report>, orders: seq<seq<FindingId>>, most: nat)
    requires most >= 1 && BatchOk(b, most) && BatchRooted(b) && BatchOrders(b, reports, orders)
    requires IngestAll(b, reports, orders).Some?
    ensures StaysOpen(b.store, IngestAll(b, reports, orders).value.store)
  {
    if reports != [] {
      var n := |reports| - 1;
      IngestAllStaysOpen(b, reports[..n], orders[..n], most);
      IngestAllInv(b, reports[..n], orders[..n], most);
      IngestAllRooted(b, reports[..n], orders[..n], most);
      IngestStaysOpen(IngestAll(b, reports[..n], orders[..n]).value, reports[n], orders[n], most);
    }
  }

  lemma {:induction false} RehomeAllStaysOpen(s: Store, order: seq<FindingId>, target: AssetId)
    ensures StaysOpen(s, RehomeAll(s, order, target))
  {
    if order != [] {
      RehomeAllStaysOpen(s, order[..|order| - 1], target);
    }
  }

  /**
   Over every history, stale batches included: evidence on an open finding is still on an open finding
   after any step, through retargets, splits and merges, except that finishing a run may resolve the
   finding it is on.
   */
  lemma OnlyRunsResolve(states: seq<Store>, events: seq<Event>, most: nat, k: EvidenceKey)
    requires most >= 1 && History(states, events, most) && events != []
    requires OnOpen(states[|events| - 1], k) && !OnOpen(Last(states), k)
    ensures events[|events| - 1].Finished?
    ensures Last(states).evidence[k] == states[|events| - 1].evidence[k]
  {
    var n := |events| - 1;
    LastStep(states, events, most);
    HistoryEvidenced(states[..n + 1], events[..n], most);
    match events[n]
    case Ingested(reports, orders) => IngestAllStaysOpen(Begin(states[n]), reports, orders, most);
    case Refused(_, _) =>
    case Finished(run) =>
    case AssetsMerged(_, target, order) => RehomeAllStaysOpen(states[n], order, target);
  }

  /** What the n-th donor of a retarget finds when its turn comes. */
  ghost predicate FindsPlaceFree(s: Store, d: Detector, v: VulnKey, donor: FindingId) {
    donor in s.findings && OtherSupport(s, donor, d) ==> Lookup(s.findings, s.findings[donor].asset, v).None?
  }

  lemma PlaceFree(
    s: Store, order: seq<FindingId>, n: nat, d: Detector, previous: VulnKey, v: VulnKey, todo: set<FindingId>, most: nat)
    requires most >= 1 && Moving(s, d, previous, v, todo, most) && Tidy(s, d, v, todo)
    requires Enumerates(order, todo) && n < |order|
    ensures FindsPlaceFree(PartitionAll(s, order[..n], d, v), d, v, order[n])
  {
    PartitionAllStaysOpen(s, order[..n], d, previous, v, todo, most);
    assert order[n] in todo - Elements(order[..n]);
  }

  /**
   The branch of a split that joins an existing finding, which would leave a resolved one resolved, is
   never taken: at any point of any batch after any history, a donor of a retarget that keeps other
   evidence finds its place free.
   */
  lemma SplitsMakeNewFindings(
    states: seq<Store>, events: seq<Event>, reports: seq<Report>, orders: seq<seq<FindingId>>, most: nat,
    d: Detector, cves: set<Cve>, order: seq<FindingId>, n: nat)
    requires most >= 1 && History(states, events, most)
    requires BatchOrders(Begin(Last(states)), reports, orders) && IngestAll(Begin(Last(states)), reports, orders).Some?
    requires var s := IngestAll(Begin(Last(states)), reports, orders).value.store;
      && d in s.mapping && s.mapping[d] != Desired(CvesOf(s, d) + cves, d)
      && Enumerates(order, Donors(s, d, s.mapping[d])) && n < |order|
    ensures var s := IngestAll(Begin(Last(states)), reports, orders).value.store;
      var v := Desired(CvesOf(s, d) + cves, d);
      FindsPlaceFree(PartitionAll(s.(mapping := s.mapping[d := v]), order[..n], d, v), d, v, order[n])
  {
    MidBatch(states, events, reports, orders, most);
    var s := IngestAll(Begin(Last(states)), reports, orders).value.store;
    var v := Desired(CvesOf(s, d) + cves, d);
    RetargetStart(s, d, v, most);
    TidyAtStart(s, d, cves, most);
    PlaceFree(s.(mapping := s.mapping[d := v]), order, n, d, s.mapping[d], v, Donors(s, d, s.mapping[d]), most);
  }
}
