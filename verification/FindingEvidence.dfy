/**
 Where evidence hangs.  Every finding keeps evidence, and one titled after a detector is where that
 detector is mapped now, so none is left over from an earlier mapping.  None of this depends on
 whether batches ask for fresh slots.
 */
module FindingEvidence {
  import opened Options
  import opened FindingModel
  import opened FindingInvariant
  import opened FindingBatches
  import opened FindingRuns

  ghost predicate HasRow(s: Store, f: FindingId) {
    exists k :: Attached(s, k, f)
  }

  ghost predicate Evidenced(s: Store) {
    forall f :: f in s.findings ==> HasRow(s, f)
  }

  lemma MergeEvidenced(s: Store, keeper: FindingId, donor: FindingId)
    requires Evidenced(s) && keeper in s.findings && donor in s.findings && keeper != donor
    ensures Evidenced(MergeDuplicate(s, keeper, donor))
  {
    var s' := MergeDuplicate(s, keeper, donor);
    forall f | f in s'.findings ensures HasRow(s', f) {
      var k :| Attached(s, k, f);
      assert Attached(s', k, f);
    }
  }

  lemma PartitionEvidenced(s: Store, donor: FindingId, d: Detector, v: VulnKey)
    requires Evidenced(s) && donor in s.findings
    ensures Evidenced(Partition(s, donor, d, v))
  {
    var s' := Partition(s, donor, d, v);
    var keeper := Lookup(s.findings, s.findings[donor].asset, v);
    if Supports(s, donor, d) {
      if OtherSupport(s, donor, d) {
        SplitEvidenced(s, donor, d, v, keeper);
      } else if keeper.Some? && keeper.value != donor {
        MergeEvidenced(s, keeper.value, donor);
      } else {
        forall f | f in s'.findings ensures HasRow(s', f) {
          var k :| Attached(s, k, f);
          assert Attached(s', k, f);
        }
      }
    }
  }

  lemma SplitEvidenced(s: Store, donor: FindingId, d: Detector, v: VulnKey, keeper: Option<FindingId>)
    requires Evidenced(s) && donor in s.findings && (keeper.Some? ==> keeper.value in s.findings)
    requires Supports(s, donor, d) && OtherSupport(s, donor, d)
    ensures Evidenced(SplitTo(s, donor, d, v, keeper))
  {
    var s' := SplitTo(s, donor, d, v, keeper);
    forall f | f in s'.findings ensures HasRow(s', f) {
      if f == donor {
        var k :| Attached(s, k, donor) && s.evidence[k].detector != Some(d);
        assert Attached(s', k, donor);
      } else if keeper.None? && f == s.nextId {
        var k :| Supporting(s, k, donor, d);
        assert Attached(s', k, f);
      } else {
        var k :| Attached(s, k, f);
        assert Attached(s', k, f);
      }
    }
  }

  lemma {:induction false} PartitionAllEvidenced(s: Store, order: seq<FindingId>, d: Detector, v: VulnKey)
    requires Evidenced(s)
    ensures Evidenced(PartitionAll(s, order, d, v))
  {
    if order != [] {
      var rest, donor := PartitionAll(s, order[..|order| - 1], d, v), order[|order| - 1];
      PartitionAllEvidenced(s, order[..|order| - 1], d, v);
      if donor in rest.findings {
        PartitionEvidenced(rest, donor, d, v);
      }
    }
  }

  lemma SameRowsEvidenced(s: Store, s': Store)
    requires Evidenced(s) && s'.evidence == s.evidence && s'.findings.Keys == s.findings.Keys
    ensures Evidenced(s')
  {
    forall f | f in s'.findings ensures HasRow(s', f) {
      var k :| Attached(s, k, f);
      assert Attached(s', k, f);
    }
  }

  lemma RecordEvidenced(s: Store, r: Report, found: Option<FindingId>)
    requires Evidenced(s) && r.key !in s.evidence && (found.Some? ==> found.value in s.findings)
    ensures Evidenced(Record(s, r, found))
  {
    var s' := Record(s, r, found);
    forall f | f in s'.findings ensures HasRow(s', f) {
      if s'.evidence[r.key].finding == Some(f) {
        assert Attached(s', r.key, f);
      } else {
        var k :| Attached(s, k, f);
        assert Attached(s', k, f);
      }
    }
  }

  lemma RecordInEvidenced(b: Batch, r: Report)
    requires Evidenced(b.store) && r.key !in b.store.evidence && RecordIn(b, r).Some?
    ensures Evidenced(RecordIn(b, r).value.store)
  {
    var asked := Asked(b.store, r);
    RecordEvidenced(b.store, r, if asked.None? then None else CachedLookup(b, asked.value));
  }

  lemma CatalogEvidenced(s: Store, d: Detector, cves: set<Cve>, order: seq<FindingId>)
    requires Evidenced(s)
    ensures Evidenced(UpsertCatalog(s, d, cves, order))
  {
    var v := Desired(CvesOf(s, d) + cves, d);
    SameRowsEvidenced(s, s.(mapping := s.mapping[d := v]));
    PartitionAllEvidenced(s.(mapping := s.mapping[d := v]), order, d, v);
  }

  lemma PartitionKeys(s: Store, donor: FindingId, d: Detector, v: VulnKey)
    requires donor in s.findings
    ensures Partition(s, donor, d, v).evidence.Keys == s.evidence.Keys
  {
  }

  lemma {:induction false} PartitionAllKeys(s: Store, order: seq<FindingId>, d: Detector, v: VulnKey)
    ensures PartitionAll(s, order, d, v).evidence.Keys == s.evidence.Keys
  {
    if order != [] {
      var rest, donor := PartitionAll(s, order[..|order| - 1], d, v), order[|order| - 1];
      PartitionAllKeys(s, order[..|order| - 1], d, v);
      if donor in rest.findings {
        PartitionKeys(rest, donor, d, v);
      }
    }
  }

  lemma CatalogKeys(s: Store, d: Detector, cves: set<Cve>, order: seq<FindingId>)
    ensures UpsertCatalog(s, d, cves, order).evidence.Keys == s.evidence.Keys
  {
    var v := Desired(CvesOf(s, d) + cves, d);
    PartitionAllKeys(s.(mapping := s.mapping[d := v]), order, d, v);
  }

  lemma RehomeEvidenced(s: Store, donor: FindingId, target: AssetId)
    requires Evidenced(s) && donor in s.findings && s.findings[donor].asset != target
    ensures Evidenced(Rehome(s, donor, target))
  {
    var keeper := Lookup(s.findings, target, s.findings[donor].vuln);
    if keeper.Some? {
      MergeEvidenced(s, keeper.value, donor);
    } else {
      var s' := Rehome(s, donor, target);
      forall f | f in s'.findings ensures HasRow(s', f) {
        var k :| Attached(s, k, f);
        assert Attached(s', k, f);
      }
    }
  }

  lemma {:induction false} RehomeAllEvidenced(s: Store, order: seq<FindingId>, target: AssetId)
    requires Evidenced(s)
    ensures Evidenced(RehomeAll(s, order, target))
  {
    if order != [] {
      var rest, donor := RehomeAll(s, order[..|order| - 1], target), order[|order| - 1];
      RehomeAllEvidenced(s, order[..|order| - 1], target);
      if donor in rest.findings && rest.findings[donor].asset != target {
        RehomeEvidenced(rest, donor, target);
      }
    }
  }

  // ---------------------------------------------------------------- findings titled after detectors

  predicate AfterDetector(s: Store, f: FindingId, d: Detector) {
    f in s.findings && s.findings[f].vuln == ByDetector(d)
  }

  /** Only the detector itself supports the finding. */
  ghost predicate OnlyBy(s: Store, f: FindingId, d: Detector) {
    forall k :: Attached(s, k, f) ==> s.evidence[k].detector == Some(d)
  }

  /** A finding titled after a detector is where the detector is mapped, and until it names a CVE nobody else is there. */
  ghost predicate OwnTitles(s: Store) {
    forall f, d :: AfterDetector(s, f, d) ==>
      d in s.mapping && s.mapping[d] == ByDetector(d) && (CvesOf(s, d) == {} ==> OnlyBy(s, f, d))
  }

  /** A batch remembers such a finding under that title only. */
  ghost predicate CacheTitled(b: Batch) {
    forall slot, d :: slot in b.cache && AfterDetector(b.store, b.cache[slot], d) && CvesOf(b.store, d) == {} ==> slot.1 == ByDetector(d)
  }

  ghost predicate BatchRooted(b: Batch) {
    Evidenced(b.store) && OwnTitles(b.store) && CacheTitled(b)
  }

  lemma ProperPartOfOne(cves: set<Cve>, e: Cve)
    requires cves <= {e} && cves != {e}
    ensures cves == {}
  {
    assert e in cves ==> cves == {e};
  }

  /** A retarget to a CVE starts from the detector's own title before it named any, and one to the title from a single CVE. */
  lemma RetargetShape(s: Store, d: Detector, cves: set<Cve>)
    requires d in s.mapping && s.mapping[d] == Desired(CvesOf(s, d), d)
    ensures var v := Desired(CvesOf(s, d) + cves, d);
      v != s.mapping[d] ==>
        (v == ByDetector(d) && CvesOf(s, d) != {}) || (s.mapping[d] == ByDetector(d) && v.ByCve? && CvesOf(s, d) == {})
  {
    var all := CvesOf(s, d) + cves;
    if s.mapping[d] != ByDetector(d) {
      var c :| c in CvesOf(s, d) && CvesOf(s, d) == {c};
      if exists e :: e in all && all == {e} {
        var e :| e in all && all == {e};
        assert c in all;
        assert all == {c} == CvesOf(s, d);
      }
    } else if exists e :: e in all && all == {e} {
      var e :| e in all && all == {e};
      DesiredIs(CvesOf(s, d), d);
      ProperPartOfOne(CvesOf(s, d), e);
    }
  }

  /** Titles only change to `v`, and rows only move to findings titled `v`. */
  ghost predicate MovesTo(s: Store, s': Store, v: VulnKey) {
    && (forall f, d :: AfterDetector(s', f, d) && v != ByDetector(d) ==> AfterDetector(s, f, d))
    && (forall f, d, k :: AfterDetector(s', f, d) && v != ByDetector(d) && Attached(s', k, f) ==> Attached(s, k, f))
  }

  lemma PartitionMovesTo(s: Store, donor: FindingId, d: Detector, v: VulnKey)
    requires donor in s.findings
    ensures MovesTo(s, Partition(s, donor, d, v), v)
  {
  }

  lemma {:induction false} PartitionAllMovesTo(s: Store, order: seq<FindingId>, d: Detector, v: VulnKey)
    ensures MovesTo(s, PartitionAll(s, order, d, v), v)
  {
    if order != [] {
      var rest, donor := PartitionAll(s, order[..|order| - 1], d, v), order[|order| - 1];
      PartitionAllMovesTo(s, order[..|order| - 1], d, v);
      if donor in rest.findings {
        PartitionMovesTo(rest, donor, d, v);
      }
    }
  }

  // ---------------------------------------------------------------- a detector leaves its own title

  /** Every finding titled after `d` is still to visit, and has rows of `d` only. */
  ghost predicate Leaving(s: Store, d: Detector, todo: set<FindingId>) {
    forall f :: AfterDetector(s, f, d) ==> f in todo && OnlyBy(s, f, d) && HasRow(s, f)
  }

  lemma PartitionLeaves(s: Store, donor: FindingId, d: Detector, v: VulnKey, todo: set<FindingId>)
    requires Leaving(s, d, todo) && v != ByDetector(d) && donor in s.findings && Numbered(s)
    ensures Leaving(Partition(s, donor, d, v), d, todo - {donor})
  {
    var s' := Partition(s, donor, d, v);
    PartitionMovesTo(s, donor, d, v);
    if AfterDetector(s, donor, d) {
      var k :| Attached(s, k, donor);
      assert Supporting(s, k, donor, d);
    }
    forall f | AfterDetector(s', f, d) ensures f in todo - {donor} && OnlyBy(s', f, d) && HasRow(s', f) {
      assert AfterDetector(s, f, d);
      var k :| Attached(s, k, f);
      assert f != donor ==> Attached(s', k, f);
      forall k | Attached(s', k, f) ensures s'.evidence[k].detector == Some(d) {
        assert Attached(s, k, f);
      }
    }
  }

  lemma {:induction false} PartitionAllLeaves(
    s: Store, order: seq<FindingId>, d: Detector, previous: VulnKey, v: VulnKey, todo: set<FindingId>, most: nat)
    requires most >= 1 && Moving(s, d, previous, v, todo, most)
    requires forall i :: 0 <= i < |order| ==> order[i] in todo
    requires forall i, j :: 0 <= i < j < |order| ==> order[i] != order[j]
    requires Leaving(s, d, todo) && v != ByDetector(d)
    ensures Leaving(PartitionAll(s, order, d, v), d, todo - Elements(order))
  {
    if order == [] {
      assert todo - Elements(order) == todo;
    } else {
      var front, donor := order[..|order| - 1], order[|order| - 1];
      PartitionAllLeaves(s, front, d, previous, v, todo, most);
      PartitionAllSound(s, front, d, previous, v, todo, most);
      FrontElements(order, todo);
      PartitionLeaves(PartitionAll(s, front, d, v), donor, d, v, todo - Elements(front));
    }
  }

  /** A detector that is retargeted away from its own title leaves no finding behind under it. */
  lemma RetargetLeaves(s: Store, d: Detector, v: VulnKey, order: seq<FindingId>, most: nat)
    requires most >= 1 && Sound(s, most) && Evidenced(s) && OwnTitles(s)
    requires d in s.mapping && s.mapping[d] == ByDetector(d) && CvesOf(s, d) == {} && v != ByDetector(d)
    requires Enumerates(order, Donors(s, d, s.mapping[d]))
    ensures forall f :: !AfterDetector(Retarget(s, d, v, order), f, d)
  {
    var s0, todo := s.(mapping := s.mapping[d := v]), Donors(s, d, s.mapping[d]);
    RetargetStart(s, d, v, most);
    forall f | AfterDetector(s0, f, d) ensures f in todo && OnlyBy(s0, f, d) && HasRow(s0, f) {
      assert AfterDetector(s, f, d) && OnlyBy(s, f, d);
      var k :| Attached(s, k, f);
      assert Supporting(s, k, f, d) && Attached(s0, k, f);
      assert forall k :: Attached(s0, k, f) <==> Attached(s, k, f);
    }
    PartitionAllLeaves(s0, order, d, s.mapping[d], v, todo, most);
    assert todo - Elements(order) == {};
  }

  // ---------------------------------------------------------------- what batches keep

  lemma RetargetMoves(s: Store, d: Detector, v: VulnKey, order: seq<FindingId>, most: nat, f: FindingId, e: Detector)
    requires most >= 1 && Sound(s, most) && d in s.mapping && s.mapping[d] != v && v != ByDetector(e)
    requires Enumerates(order, Donors(s, d, s.mapping[d])) && AfterDetector(Retarget(s, d, v, order), f, e)
    ensures AfterDetector(s, f, e) && (OnlyBy(s, f, e) ==> OnlyBy(Retarget(s, d, v, order), f, e))
  {
    RetargetSound(s, d, v, order, most);
    PartitionAllMovesTo(s.(mapping := s.mapping[d := v]), order, d, v);
    OnlyByMoved(s, Retarget(s, d, v, order), v, f, e);
  }

  lemma RetargetTitled(s: Store, d: Detector, cves: set<Cve>, order: seq<FindingId>, most: nat, f: FindingId, e: Detector)
    requires most >= 1 && Inv(s, most) && Evidenced(s) && OwnTitles(s) && d in s.mapping
    requires s.mapping[d] != Desired(CvesOf(s, d) + cves, d)
    requires Enumerates(order, Donors(s, d, s.mapping[d]))
    requires AfterDetector(Retarget(s, d, Desired(CvesOf(s, d) + cves, d), order), f, e)
    ensures var s' := Retarget(s, d, Desired(CvesOf(s, d) + cves, d), order);
      && e in s'.mapping && s'.mapping[e] == ByDetector(e)
      && (CvesOf(s', e) == {} ==> AfterDetector(s, f, e) && CvesOf(s, e) == {} && OnlyBy(s', f, e))
  {
    var v := Desired(CvesOf(s, d) + cves, d);
    var s' := Retarget(s, d, v, order);
    RetargetShape(s, d, cves);
    RetargetSound(s, d, v, order, most);
    ConservedCves(s, s', e);
    if v != ByDetector(e) {
      RetargetMoves(s, d, v, order, most, f, e);
      if s.mapping[d] == ByDetector(d) {
        RetargetLeaves(s, d, v, order, most);
      }
    }
  }

  lemma RetargetTitles(b: Batch, d: Detector, cves: set<Cve>, order: seq<FindingId>, most: nat)
    requires most >= 1 && BatchOk(b, most) && BatchRooted(b) && d in b.store.mapping
    requires b.store.mapping[d] != Desired(CvesOf(b.store, d) + cves, d)
    requires Enumerates(order, Donors(b.store, d, b.store.mapping[d]))
    ensures var s' := Retarget(b.store, d, Desired(CvesOf(b.store, d) + cves, d), order); OwnTitles(s') && CacheTitled(b.(store := s'))
  {
    forall f, e | AfterDetector(Retarget(b.store, d, Desired(CvesOf(b.store, d) + cves, d), order), f, e)
      ensures var s' := Retarget(b.store, d, Desired(CvesOf(b.store, d) + cves, d), order);
        && e in s'.mapping && s'.mapping[e] == ByDetector(e)
        && (CvesOf(s', e) == {} ==> AfterDetector(b.store, f, e) && CvesOf(b.store, e) == {} && OnlyBy(s', f, e))
    {
      RetargetTitled(b.store, d, cves, order, most, f, e);
    }
  }

  lemma CataloguedTitles(b: Batch, d: Detector, cves: set<Cve>, order: seq<FindingId>)
    requires BatchRooted(b) && (d in b.store.mapping ==> b.store.mapping[d] == Desired(CvesOf(b.store, d) + cves, d))
    ensures var s' := UpsertCatalog(b.store, d, cves, order); OwnTitles(s') && CacheTitled(b.(store := s'))
  {
    var s, s' := b.store, UpsertCatalog(b.store, d, cves, order);
    SameEvidence(s, s');
    assert forall f, e :: AfterDetector(s', f, e) ==> AfterDetector(s, f, e);
    forall f, e | AfterDetector(s, f, e) && OnlyBy(s, f, e) ensures OnlyBy(s', f, e) {
      assert forall k :: Attached(s', k, f) ==> Attached(s, k, f);
    }
  }

  lemma OnlyByMoved(s: Store, s': Store, v: VulnKey, f: FindingId, e: Detector)
    requires MovesTo(s.(mapping := s'.mapping), s', v) && Conserved(s, s') && AfterDetector(s', f, e) && v != ByDetector(e)
    ensures AfterDetector(s, f, e) && (OnlyBy(s, f, e) ==> OnlyBy(s', f, e))
  {
    assert AfterDetector(s.(mapping := s'.mapping), f, e);
    forall k | Attached(s', k, f) ensures Attached(s, k, f) && SameRow(s.evidence[k], s'.evidence[k]) {
      assert Attached(s.(mapping := s'.mapping), k, f);
    }
  }

  lemma PreparedTitles(b: Batch, r: Report, order: seq<FindingId>, most: nat)
    requires most >= 1 && BatchOk(b, most) && BatchRooted(b) && IngestOrder(b.store, r, order) && r.key !in b.store.evidence
    ensures BatchRooted(b.(store := Prepared(b.store, r, order)))
  {
    if r.detector.Some? {
      var s, d := b.store, r.detector.value;
      CatalogEvidenced(s, d, r.cves, order);
      if d in s.mapping && s.mapping[d] != Desired(CvesOf(s, d) + r.cves, d) {
        RetargetTitles(b, d, r.cves, order, most);
      } else {
        CataloguedTitles(b, d, r.cves, order);
      }
    }
  }

  /** The finding a record goes to is not one where another detector, without CVEs, is alone. */
  lemma RecordGoesHome(b: Batch, r: Report, e: Detector)
    requires CacheTitled(b) && CataloguedFor(b.store, r.detector, r.cves) && RecordIn(b, r).Some? && Asked(b.store, r).Some?
    requires CvesOf(b.store, e) == {}
    ensures var found := CachedLookup(b, Asked(b.store, r).value);
      found.Some? && AfterDetector(b.store, found.value, e) ==>
        Asked(b.store, r).value.1 == ByDetector(e) && r.detector == Some(e)
  {
  }

  /** A record retitles nothing, and only its own row is new. */
  lemma RecordAt(b: Batch, r: Report, f: FindingId, e: Detector)
    requires Numbered(b.store) && RecordIn(b, r).Some? && AfterDetector(RecordIn(b, r).value.store, f, e)
    ensures f in b.store.findings ==> AfterDetector(b.store, f, e)
    ensures f !in b.store.findings ==> f == b.store.nextId && Asked(b.store, r).Some? && Asked(b.store, r).value.1 == ByDetector(e)
    ensures forall k :: k != r.key && Attached(RecordIn(b, r).value.store, k, f) ==> Attached(b.store, k, f)
    ensures Attached(RecordIn(b, r).value.store, r.key, f) ==> Asked(b.store, r).Some?
    ensures Attached(RecordIn(b, r).value.store, r.key, f) && f in b.store.findings ==> CachedLookup(b, Asked(b.store, r).value) == Some(f)
  {
  }

  lemma RecordCves(b: Batch, r: Report, e: Detector)
    requires r.key !in b.store.evidence && RecordIn(b, r).Some?
    ensures RecordIn(b, r).value.store.mapping == b.store.mapping
    ensures CvesOf(RecordIn(b, r).value.store, e) == {} ==> CvesOf(b.store, e) == {}
  {
    CvesInserted(b.store, RecordIn(b, r).value.store, r.key, e);
  }

  lemma RecordOnlyBy(b: Batch, r: Report, f: FindingId, e: Detector)
    requires Numbered(b.store) && AllAnchored(b.store) && OwnTitles(b.store) && CacheTitled(b)
    requires CataloguedFor(b.store, r.detector, r.cves) && r.key !in b.store.evidence && RecordIn(b, r).Some?
    requires AfterDetector(RecordIn(b, r).value.store, f, e) && CvesOf(b.store, e) == {}
    ensures OnlyBy(RecordIn(b, r).value.store, f, e)
  {
    var s' := RecordIn(b, r).value.store;
    RecordAt(b, r, f, e);
    if Asked(b.store, r).Some? {
      RecordGoesHome(b, r, e);
    }
    forall k | Attached(s', k, f) ensures s'.evidence[k].detector == Some(e) {
      if k != r.key {
        assert Attached(b.store, k, f) && Anchored(b.store, k);
        assert AfterDetector(b.store, f, e);
      }
    }
  }

  lemma RecordTitled(b: Batch, r: Report, f: FindingId, e: Detector)
    requires Numbered(b.store) && OwnTitles(b.store) && CataloguedFor(b.store, r.detector, r.cves) && RecordIn(b, r).Some?
    requires AfterDetector(RecordIn(b, r).value.store, f, e)
    ensures e in b.store.mapping && b.store.mapping[e] == ByDetector(e)
  {
    RecordAt(b, r, f, e);
  }

  lemma RecordTitles(b: Batch, r: Report)
    requires Numbered(b.store) && AllAnchored(b.store) && OwnTitles(b.store) && CacheTitled(b)
    requires CataloguedFor(b.store, r.detector, r.cves) && r.key !in b.store.evidence && RecordIn(b, r).Some?
    ensures OwnTitles(RecordIn(b, r).value.store)
  {
    var s' := RecordIn(b, r).value.store;
    forall f, e | AfterDetector(s', f, e)
      ensures e in s'.mapping && s'.mapping[e] == ByDetector(e) && (CvesOf(s', e) == {} ==> OnlyBy(s', f, e))
    {
      RecordTitled(b, r, f, e);
      RecordCves(b, r, e);
      if CvesOf(s', e) == {} {
        RecordOnlyBy(b, r, f, e);
      }
    }
  }

  lemma RecordRemembers(b: Batch, r: Report, slot: Slot, e: Detector)
    requires Numbered(b.store) && CacheOk(b) && CacheTitled(b) && CataloguedFor(b.store, r.detector, r.cves)
    requires RecordIn(b, r).Some? && slot in RecordIn(b, r).value.cache
    requires AfterDetector(RecordIn(b, r).value.store, RecordIn(b, r).value.cache[slot], e) && CvesOf(b.store, e) == {}
    ensures slot.1 == ByDetector(e)
  {
    RecordAt(b, r, RecordIn(b, r).value.cache[slot], e);
    if Asked(b.store, r).Some? {
      RecordGoesHome(b, r, e);
    }
  }

  lemma RecordCacheTitles(b: Batch, r: Report)
    requires Numbered(b.store) && CacheOk(b) && CacheTitled(b)
    requires CataloguedFor(b.store, r.detector, r.cves) && r.key !in b.store.evidence && RecordIn(b, r).Some?
    ensures CacheTitled(RecordIn(b, r).value)
  {
    var b' := RecordIn(b, r).value;
    forall slot, e | slot in b'.cache && AfterDetector(b'.store, b'.cache[slot], e) && CvesOf(b'.store, e) == {}
      ensures slot.1 == ByDetector(e)
    {
      RecordCves(b, r, e);
      RecordRemembers(b, r, slot, e);
    }
  }

  lemma IngestRooted(b: Batch, r: Report, order: seq<FindingId>, most: nat)
    requires most >= 1 && BatchOk(b, most) && BatchRooted(b) && IngestOrder(b.store, r, order) && Ingest(b, r, order).Some?
    ensures BatchRooted(Ingest(b, r, order).value)
  {
    if r.key !in b.store.evidence {
      var b1 := b.(store := Prepared(b.store, r, order));
      PreparedSound(b.store, r, order, most);
      CacheMoves(b, b1.store);
      PreparedTitles(b, r, order, most);
      RecordInEvidenced(b1, r);
      RecordTitles(b1, r);
      RecordCacheTitles(b1, r);
    }
  }

  lemma {:induction false} IngestAllRooted(b: Batch, reports: seq<Report>, orders: seq<seq<FindingId>>, most: nat)
    requires most >= 1 && BatchOk(b, most) && BatchRooted(b) && BatchOrders(b, reports, orders)
    requires IngestAll(b, reports, orders).Some?
    ensures BatchRooted(IngestAll(b, reports, orders).value)
  {
    if reports != [] {
      var n := |reports| - 1;
      IngestAllRooted(b, reports[..n], orders[..n], most);
      IngestAllInv(b, reports[..n], orders[..n], most);
      IngestRooted(IngestAll(b, reports[..n], orders[..n]).value, reports[n], orders[n], most);
    }
  }

  // ---------------------------------------------------------------- over histories

  lemma SameTitles(s: Store, s': Store)
    requires OwnTitles(s) && s'.mapping == s.mapping && s'.evidence == s.evidence
    requires forall f :: f in s'.findings ==> f in s.findings && s'.findings[f].vuln == s.findings[f].vuln
    ensures OwnTitles(s')
  {
    SameEvidence(s, s');
    forall f, d | AfterDetector(s', f, d) ensures AfterDetector(s, f, d) && (OnlyBy(s, f, d) ==> OnlyBy(s', f, d)) {
      assert forall k :: Attached(s', k, f) ==> Attached(s, k, f);
    }
  }

  lemma RehomeTitles(s: Store, donor: FindingId, target: AssetId)
    requires OwnTitles(s) && donor in s.findings && s.findings[donor].asset != target
    ensures OwnTitles(Rehome(s, donor, target))
  {
    var s' := Rehome(s, donor, target);
    forall f, d | AfterDetector(s', f, d)
      ensures d in s'.mapping && s'.mapping[d] == ByDetector(d) && (CvesOf(s', d) == {} ==> OnlyBy(s', f, d))
    {
      CvesAlike(s, s', d);
      assert AfterDetector(s, f, d);
      if CvesOf(s, d) == {} {
        forall k | Attached(s', k, f) ensures s'.evidence[k].detector == Some(d) {
          assert Attached(s, k, f) || (Attached(s, k, donor) && AfterDetector(s, donor, d));
        }
      }
    }
  }

  lemma {:induction false} RehomeAllTitles(s: Store, order: seq<FindingId>, target: AssetId)
    requires OwnTitles(s)
    ensures OwnTitles(RehomeAll(s, order, target))
  {
    if order != [] {
      var rest, donor := RehomeAll(s, order[..|order| - 1], target), order[|order| - 1];
      RehomeAllTitles(s, order[..|order| - 1], target);
      if donor in rest.findings && rest.findings[donor].asset != target {
        RehomeTitles(rest, donor, target);
      }
    }
  }

  lemma BatchStepRooted(s: Store, reports: seq<Report>, orders: seq<seq<FindingId>>, most: nat)
    requires most >= 1 && Inv(s, most) && Evidenced(s) && OwnTitles(s)
    requires BatchOrders(Begin(s), reports, orders) && IngestAll(Begin(s), reports, orders).Some?
    ensures BatchOk(IngestAll(Begin(s), reports, orders).value, most)
    ensures BatchRooted(IngestAll(Begin(s), reports, orders).value)
  {
    IngestAllInv(Begin(s), reports, orders, most);
    IngestAllRooted(Begin(s), reports, orders, most);
  }

  lemma FinalizeTitles(s: Store, run: Run)
    requires Evidenced(s) && OwnTitles(s)
    ensures Evidenced(Finalize(s, run)) && OwnTitles(Finalize(s, run))
  {
    SameRowsEvidenced(s, Finalize(s, run));
    SameTitles(s, Finalize(s, run));
  }

  lemma StepRooted(s: Store, e: Event, s': Store, most: nat)
    requires most >= 1 && Inv(s, most) && Step(s, e, s', most) && Evidenced(s) && OwnTitles(s)
    ensures Evidenced(s') && OwnTitles(s')
  {
    match e
    case Ingested(reports, orders) => BatchStepRooted(s, reports, orders, most);
    case Refused(_, _) =>
    case Finished(run) => FinalizeTitles(s, run);
    case AssetsMerged(_, target, order) =>
      RehomeAllEvidenced(s, order, target);
      RehomeAllTitles(s, order, target);
  }

  /** After any history every finding has evidence, and one titled after a detector is where that detector is mapped. */
  lemma {:induction false} HistoryEvidenced(states: seq<Store>, events: seq<Event>, most: nat)
    requires most >= 1 && History(states, events, most)
    ensures Evidenced(Last(states)) && OwnTitles(Last(states))
  {
    if events != [] {
      var n := |events| - 1;
      HistoryEvidenced(states[..n + 1], events[..n], most);
      LastStep(states, events, most);
      StepRooted(states[n], events[n], states[n + 1], most);
    }
  }

  /** And so it is at every point of a batch that is under way. */
  lemma MidBatch(states: seq<Store>, events: seq<Event>, reports: seq<Report>, orders: seq<seq<FindingId>>, most: nat)
    requires most >= 1 && History(states, events, most)
    requires BatchOrders(Begin(Last(states)), reports, orders) && IngestAll(Begin(Last(states)), reports, orders).Some?
    ensures var b := IngestAll(Begin(Last(states)), reports, orders).value; BatchOk(b, most) && BatchRooted(b)
  {
    HistoryInv(states, events, most);
    HistoryEvidenced(states, events, most);
    BatchStepRooted(Last(states), reports, orders, most);
  }
}
