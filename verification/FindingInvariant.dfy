/**
 What every operation on findings keeps: one finding per asset and vulnerability, every attached
 evidence row on a finding of its asset, the catalogue equal to what the evidence says, and a
 resolution stamp exactly on resolved findings.  That an attached row is on the finding its detector
 maps to is kept by everything but a detection through a remembered row that has been retitled.
 */
module FindingInvariant {
  import opened Options
  import opened FindingModel

  predicate SameSlot(rows: Findings, f: FindingId, g: FindingId) {
    f in rows && At(rows, g, rows[f].asset, rows[f].vuln)
  }

  /** One finding per asset and vulnerability. */
  ghost predicate UniqueRows(rows: Findings) {
    forall f, g :: SameSlot(rows, f, g) ==> f == g
  }

  ghost predicate Unique(s: Store) {
    UniqueRows(s.findings)
  }

  ghost predicate Numbered(s: Store) {
    && (forall f :: f in s.findings ==> f < s.nextId)
    && (forall p :: p in s.evals ==> p.0 in s.findings)
  }

  /** resolved_at is set exactly on resolved rows, and an open row has fewer clean scans than the most any run needs. */
  predicate RowOk(row: AssetFinding, most: nat) {
    && (row.isOpen <==> row.resolvedAt.None?)
    && (row.isOpen ==> row.clean < most)
  }

  ghost predicate RowsOk(s: Store, most: nat) {
    forall f :: f in s.findings ==> RowOk(s.findings[f], most)
  }

  /** The row names a stored finding of its own asset. */
  ghost predicate Anchored(s: Store, k: EvidenceKey)
    requires k in s.evidence
  {
    s.evidence[k].finding.Some? ==>
      && s.evidence[k].finding.value in s.findings
      && s.evidence[k].asset == Some(s.findings[s.evidence[k].finding.value].asset)
      && s.evidence[k].detector.Some?
      && s.evidence[k].detector.value in s.mapping
  }

  ghost predicate AllAnchored(s: Store) {
    forall k :: k in s.evidence ==> Anchored(s, k)
  }

  ghost predicate OnMapping(s: Store, k: EvidenceKey)
    requires k in s.evidence && Anchored(s, k)
  {
    s.evidence[k].finding.Some? ==> s.findings[s.evidence[k].finding.value].vuln == s.mapping[s.evidence[k].detector.value]
  }

  /** Every evidence row attached to a finding has that finding's vulnerability equal to its detector's mapping. */
  ghost predicate Linked(s: Store) {
    AllAnchored(s) && forall k :: k in s.evidence ==> OnMapping(s, k)
  }

  /** A detector is mapped once it is reported, to what its evidence so far asks for. */
  ghost predicate Catalogued(s: Store) {
    && (forall k :: k in s.evidence && s.evidence[k].detector.Some? ==> s.evidence[k].detector.value in s.mapping)
    && (forall d :: d in s.mapping ==> Reported(s, d) && s.mapping[d] == Desired(CvesOf(s, d), d))
  }

  ghost predicate Sound(s: Store, most: nat) {
    Unique(s) && Numbered(s) && RowsOk(s, most) && AllAnchored(s)
  }

  ghost predicate Inv(s: Store, most: nat) {
    Sound(s, most) && Catalogued(s)
  }

  /** Rows are neither lost nor invented nor edited: only the finding they hang on may have changed. */
  ghost predicate SameRow(e: Evidence, e': Evidence) {
    e' == e.(finding := e'.finding) && (e'.finding.Some? <==> e.finding.Some?)
  }

  ghost predicate Conserved(s: Store, s': Store) {
    && s'.evidence.Keys == s.evidence.Keys
    && forall k :: k in s.evidence ==> SameRow(s.evidence[k], s'.evidence[k])
  }

  lemma LookupUnique(s: Store, f: FindingId)
    requires Unique(s) && f in s.findings
    ensures Lookup(s.findings, s.findings[f].asset, s.findings[f].vuln) == Some(f)
  {
    assert At(s.findings, f, s.findings[f].asset, s.findings[f].vuln);
    var r := Lookup(s.findings, s.findings[f].asset, s.findings[f].vuln);
    assert r.Some? && SameSlot(s.findings, f, r.value);
  }

  /** A detector is catalogued under a CVE exactly when that is its one CVE, and under itself otherwise. */
  lemma DesiredIs(cves: set<Cve>, d: Detector)
    ensures forall c: Cve :: Desired(cves, d) == ByCve(c) <==> cves == {c}
    ensures Desired(cves, d) == ByDetector(d) <==> forall c: Cve :: cves != {c}
  {
    forall c | cves == {c} ensures Desired(cves, d) == ByCve(c) {
      assert c in cves;
    }
  }

  lemma UniqueInsert(rows: Findings, id: FindingId, row: AssetFinding)
    requires UniqueRows(rows) && id !in rows && Lookup(rows, row.asset, row.vuln).None?
    ensures UniqueRows(rows[id := row])
  {
    var rows' := rows[id := row];
    forall f, g | SameSlot(rows', f, g) ensures f == g {
      assert !At(rows, f, row.asset, row.vuln) && !At(rows, g, row.asset, row.vuln);
      assert f != id && g != id ==> SameSlot(rows, f, g);
    }
  }

  lemma UniqueMove(rows: Findings, id: FindingId, row: AssetFinding)
    requires UniqueRows(rows) && id in rows
    requires Lookup(rows, row.asset, row.vuln).None? || Lookup(rows, row.asset, row.vuln) == Some(id)
    ensures UniqueRows(rows[id := row])
  {
    var rows' := rows[id := row];
    forall f, g | SameSlot(rows', f, g) ensures f == g {
      assert f != id && g != id ==> SameSlot(rows, f, g);
      assert At(rows, f, row.asset, row.vuln) ==> SameSlot(rows, f, id) && At(rows, id, row.asset, row.vuln);
      assert At(rows, g, row.asset, row.vuln) ==> SameSlot(rows, g, id) && At(rows, id, row.asset, row.vuln);
    }
  }

  lemma UniqueAlike(rows: Findings, rows': Findings)
    requires UniqueRows(rows) && rows'.Keys <= rows.Keys
    requires forall f :: f in rows' ==> rows'[f].asset == rows[f].asset && rows'[f].vuln == rows[f].vuln
    ensures UniqueRows(rows')
  {
    forall f, g | SameSlot(rows', f, g) ensures f == g {
      assert SameSlot(rows, f, g);
    }
  }

  /** Rows stay where they are while evidence and mapping stay and no finding changes its asset or vulnerability. */
  lemma LinkedAlike(s: Store, s': Store)
    requires AllAnchored(s) && s'.evidence == s.evidence && s'.mapping == s.mapping
    requires forall f :: f in s.findings ==>
      f in s'.findings && s'.findings[f].asset == s.findings[f].asset && s'.findings[f].vuln == s.findings[f].vuln
    ensures AllAnchored(s') && (Linked(s) <==> Linked(s'))
  {
    forall k | k in s'.evidence ensures Anchored(s', k) && (OnMapping(s', k) <==> OnMapping(s, k)) {
      assert Anchored(s, k);
    }
  }

  // ---------------------------------------------------------------- merging two findings

  lemma MergedEvalsAt(evals: Evaluations, keeper: FindingId, donor: FindingId, f: FindingId, job: JobId)
    requires keeper != donor
    ensures f == donor ==> (f, job) !in MergedEvals(evals, keeper, donor)
    ensures f == keeper ==>
      (MergedOutcome(evals, keeper, donor, job).Some? <==> (f, job) in MergedEvals(evals, keeper, donor))
    ensures f == keeper && (f, job) in MergedEvals(evals, keeper, donor) ==>
      MergedEvals(evals, keeper, donor)[(f, job)] == MergedOutcome(evals, keeper, donor, job).value
    ensures f != keeper && f != donor ==>
      ((f, job) in MergedEvals(evals, keeper, donor) <==> (f, job) in evals)
    ensures f != keeper && f != donor && (f, job) in evals ==> MergedEvals(evals, keeper, donor)[(f, job)] == evals[(f, job)]
  {
    assert (f, job) in MergedKeys(evals, keeper, donor) <==>
      ((f, job) in evals && f != donor) || (f == keeper && (donor, job) in evals) by {
      if (donor, job) in evals {
        assert (keeper, (donor, job).1) in MergedKeys(evals, keeper, donor);
      }
    }
  }

  predicate Has(evals: Evaluations, f: FindingId, job: JobId, outcome: Outcome) {
    (f, job) in evals && evals[(f, job)] == outcome
  }

  /** The merged evaluation of a run is the join of the two, with detected over clean, and the donor keeps none. */
  lemma MergeJoinsEvaluations(s: Store, keeper: FindingId, donor: FindingId, job: JobId)
    requires keeper in s.findings && donor in s.findings && keeper != donor
    ensures var merged := MergeDuplicate(s, keeper, donor).evals;
      && (Has(merged, keeper, job, Detected) <==> Has(s.evals, keeper, job, Detected) || Has(s.evals, donor, job, Detected))
      && (Has(merged, keeper, job, Clean) <==>
          !Has(merged, keeper, job, Detected) && (Has(s.evals, keeper, job, Clean) || Has(s.evals, donor, job, Clean)))
      && (donor, job) !in merged
      && forall f, o :: f != keeper && f != donor ==> (Has(merged, f, job, o) <==> Has(s.evals, f, job, o))
  {
    MergedEvalsAt(s.evals, keeper, donor, keeper, job);
    MergedEvalsAt(s.evals, keeper, donor, donor, job);
    forall f, o | f != keeper && f != donor
      ensures Has(MergeDuplicate(s, keeper, donor).evals, f, job, o) <==> Has(s.evals, f, job, o)
    {
      MergedEvalsAt(s.evals, keeper, donor, f, job);
    }
  }

  /**
   A merged finding is open exactly if either was, with the smaller count; if both were resolved it
   carries the later stamp and the larger count.  The two roles are interchangeable.
   */
  lemma MergeVerdict(keeper: AssetFinding, donor: AssetFinding, most: nat)
    requires RowOk(keeper, most) && RowOk(donor, most)
    requires keeper.asset == donor.asset && keeper.vuln == donor.vuln
    ensures var m := MergedFinding(keeper, donor);
      && m == MergedFinding(donor, keeper)
      && m.asset == keeper.asset && m.vuln == keeper.vuln
      && (m.isOpen <==> keeper.isOpen || donor.isOpen)
      && (m.isOpen ==> m.clean <= keeper.clean && m.clean <= donor.clean)
      && (m.clean == keeper.clean || m.clean == donor.clean)
      && (!m.isOpen ==> m.clean >= keeper.clean && m.clean >= donor.clean)
      && (!m.isOpen ==> m.resolvedAt.value >= keeper.resolvedAt.value && m.resolvedAt.value >= donor.resolvedAt.value)
      && (!m.isOpen ==> m.resolvedAt == keeper.resolvedAt || m.resolvedAt == donor.resolvedAt)
  {
  }

  /** The evidence of both findings ends up on the keeper, and no other row moves. */
  lemma MergeMovesEvidence(s: Store, keeper: FindingId, donor: FindingId, k: EvidenceKey, f: FindingId)
    requires keeper in s.findings && donor in s.findings && keeper != donor
    ensures Attached(MergeDuplicate(s, keeper, donor), k, f) <==>
      f != donor && (Attached(s, k, f) || (f == keeper && Attached(s, k, donor)))
  {
  }

  /** Merging keeps every row, keeps both findings' evidence on one finding, and keeps rows well formed. */
  lemma MergeSound(s: Store, keeper: FindingId, donor: FindingId, most: nat)
    requires keeper in s.findings && donor in s.findings && keeper != donor
    requires Unique(s) && Numbered(s) && RowsOk(s, most)
    ensures var s' := MergeDuplicate(s, keeper, donor);
      && Unique(s') && Numbered(s') && RowsOk(s', most)
      && s'.evidence.Keys == s.evidence.Keys
      && s'.findings.Keys == s.findings.Keys - {donor}
      && (forall f :: f in s'.findings ==> s'.findings[f].asset == s.findings[f].asset && s'.findings[f].vuln == s.findings[f].vuln)
      && (forall f :: f in s'.findings && f != keeper ==> s'.findings[f] == s.findings[f])
  {
    var s' := MergeDuplicate(s, keeper, donor);
    UniqueAlike(s.findings, s'.findings);
    forall p | p in s'.evals
      ensures p.0 in s'.findings
    {
      MergedEvalsAt(s.evals, keeper, donor, p.0, p.1);
      assert p == (p.0, p.1);
    }
  }

  // ---------------------------------------------------------------- retargeting a detector

  /** Halfway through a retarget of `d`, with the donors in `todo` still to visit. */
  ghost predicate Moving(s: Store, d: Detector, previous: VulnKey, v: VulnKey, todo: set<FindingId>, most: nat) {
    && previous != v && Sound(s, most)
    && d in s.mapping && s.mapping[d] == v
    && (forall f :: f in todo ==> f in s.findings && s.findings[f].vuln == previous)
  }

  /** Every attached row is on its detector's mapping, but for rows of `d` on a donor still to visit. */
  ghost predicate Settling(s: Store, d: Detector, todo: set<FindingId>)
    requires AllAnchored(s)
  {
    forall k :: k in s.evidence && s.evidence[k].finding.Some? ==>
      OnMapping(s, k) || (s.evidence[k].detector == Some(d) && s.evidence[k].finding.value in todo)
  }

  /** Surviving findings keep their asset, and new ones get new numbers. */
  ghost predicate SameAssets(s: Store, s': Store) {
    && s.nextId <= s'.nextId
    && forall f :: f in s'.findings ==> (f in s.findings && s'.findings[f].asset == s.findings[f].asset) || s.nextId <= f
  }

  ghost predicate MovedOn(
    s: Store, s': Store, d: Detector, previous: VulnKey, v: VulnKey, todo: set<FindingId>, todo': set<FindingId>, most: nat)
  {
    && AllAnchored(s) && Moving(s', d, previous, v, todo', most)
    && Conserved(s, s') && s'.mapping == s.mapping && SameAssets(s, s')
    && (Settling(s, d, todo) ==> Settling(s', d, todo'))
  }

  lemma RetitleSound(s: Store, donor: FindingId, d: Detector, previous: VulnKey, v: VulnKey, todo: set<FindingId>, most: nat)
    requires Moving(s, d, previous, v, todo, most) && donor in todo
    requires !OtherSupport(s, donor, d) && Lookup(s.findings, s.findings[donor].asset, v).None?
    ensures MovedOn(s, s.(findings := s.findings[donor := s.findings[donor].(vuln := v)]), d, previous, v, todo, todo - {donor}, most)
  {
    UniqueMove(s.findings, donor, s.findings[donor].(vuln := v));
    forall k | k in s.evidence && s.evidence[k].finding == Some(donor)
      ensures s.evidence[k].detector == Some(d)
    {
      assert Attached(s, k, donor);
    }
    forall k | k in s.evidence ensures Anchored(s, k) {}
  }

  lemma JoinSound(s: Store, donor: FindingId, keeper: FindingId, d: Detector, previous: VulnKey, v: VulnKey, todo: set<FindingId>, most: nat)
    requires Moving(s, d, previous, v, todo, most) && donor in todo
    requires !OtherSupport(s, donor, d) && At(s.findings, keeper, s.findings[donor].asset, v)
    ensures MovedOn(s, MergeDuplicate(s, keeper, donor), d, previous, v, todo, todo - {donor}, most)
  {
    MergeSound(s, keeper, donor, most);
    forall k | k in s.evidence && s.evidence[k].finding == Some(donor)
      ensures s.evidence[k].detector == Some(d)
    {
      assert Attached(s, k, donor);
    }
    forall k | k in s.evidence ensures Anchored(s, k) {}
  }

  lemma SplitSound(s: Store, s': Store, donor: FindingId, to: FindingId, d: Detector, previous: VulnKey, v: VulnKey, todo: set<FindingId>, most: nat)
    requires Moving(s, d, previous, v, todo, most) && donor in todo
    requires s' == s.(findings := s'.findings, nextId := s'.nextId, evidence := MoveDetector(s.evidence, donor, d, to, s.findings[donor].asset))
    requires At(s'.findings, to, s.findings[donor].asset, v) && Unique(s') && Numbered(s') && RowsOk(s', most) && SameAssets(s, s')
    requires forall f :: f in s.findings ==> f in s'.findings && s'.findings[f] == s.findings[f]
    ensures MovedOn(s, s', d, previous, v, todo, todo - {donor}, most)
  {
    forall k | k in s.evidence ensures Anchored(s, k) {}
  }

  lemma PartitionSound(s: Store, donor: FindingId, d: Detector, previous: VulnKey, v: VulnKey, todo: set<FindingId>, most: nat)
    requires most >= 1
    requires Moving(s, d, previous, v, todo, most) && donor in todo
    ensures MovedOn(s, Partition(s, donor, d, v), d, previous, v, todo, todo - {donor}, most)
  {
    var asset := s.findings[donor].asset;
    var keeper := Lookup(s.findings, asset, v);
    if !Supports(s, donor, d) {
      forall k | k in s.evidence && s.evidence[k].finding.Some? && s.evidence[k].detector == Some(d)
        ensures s.evidence[k].finding.value != donor
      {
        assert Supporting(s, k, s.evidence[k].finding.value, d);
      }
    } else if !OtherSupport(s, donor, d) {
      if keeper.None? {
        RetitleSound(s, donor, d, previous, v, todo, most);
      } else {
        JoinSound(s, donor, keeper.value, d, previous, v, todo, most);
      }
    } else if keeper.None? {
      UniqueInsert(s.findings, s.nextId, FreshFinding(asset, v));
      SplitSound(s, Partition(s, donor, d, v), donor, s.nextId, d, previous, v, todo, most);
    } else {
      SplitSound(s, Partition(s, donor, d, v), donor, keeper.value, d, previous, v, todo, most);
    }
  }

  lemma ConservedTrans(a: Store, b: Store, c: Store)
    requires Conserved(a, b) && Conserved(b, c)
    ensures Conserved(a, c)
  {
    forall k | k in a.evidence ensures SameRow(a.evidence[k], c.evidence[k]) {
      assert k in b.evidence;
    }
  }

  ghost function Elements(order: seq<FindingId>): set<FindingId> {
    set f | f in order
  }

  lemma FrontElements(order: seq<FindingId>, todo: set<FindingId>)
    requires order != [] && forall i, j :: 0 <= i < j < |order| ==> order[i] != order[j]
    requires forall i :: 0 <= i < |order| ==> order[i] in todo
    ensures var front, donor := order[..|order| - 1], order[|order| - 1];
      donor in todo - Elements(front) && todo - Elements(order) == todo - Elements(front) - {donor}
  {
    var front, donor := order[..|order| - 1], order[|order| - 1];
    assert order == front + [donor];
    assert forall f :: f in order <==> f in front || f == donor;
  }

  lemma MovedOnTrans(
    s: Store, t: Store, u: Store, d: Detector, previous: VulnKey, v: VulnKey,
    todo: set<FindingId>, todo': set<FindingId>, todo'': set<FindingId>, most: nat)
    requires MovedOn(s, t, d, previous, v, todo, todo', most) && MovedOn(t, u, d, previous, v, todo', todo'', most)
    ensures MovedOn(s, u, d, previous, v, todo, todo'', most)
  {
    ConservedTrans(s, t, u);
  }

  lemma {:induction false} PartitionAllSound(
    s: Store, order: seq<FindingId>, d: Detector, previous: VulnKey, v: VulnKey, todo: set<FindingId>, most: nat)
    requires most >= 1
    requires Moving(s, d, previous, v, todo, most)
    requires forall i :: 0 <= i < |order| ==> order[i] in todo
    requires forall i, j :: 0 <= i < j < |order| ==> order[i] != order[j]
    ensures MovedOn(s, PartitionAll(s, order, d, v), d, previous, v, todo, todo - Elements(order), most)
  {
    if order == [] {
      assert todo - Elements(order) == todo;
    } else {
      var front, donor := order[..|order| - 1], order[|order| - 1];
      PartitionAllSound(s, front, d, previous, v, todo, most);
      FrontElements(order, todo);
      var rest := PartitionAll(s, front, d, v);
      PartitionSound(rest, donor, d, previous, v, todo - Elements(front), most);
      MovedOnTrans(s, rest, Partition(rest, donor, d, v), d, previous, v, todo, todo - Elements(front), todo - Elements(order), most);
    }
  }

  lemma RetargetStart(s: Store, d: Detector, v: VulnKey, most: nat)
    requires Sound(s, most) && d in s.mapping && s.mapping[d] != v
    ensures var s0, todo := s.(mapping := s.mapping[d := v]), Donors(s, d, s.mapping[d]);
      Moving(s0, d, s.mapping[d], v, todo, most) && (Linked(s) ==> Settling(s0, d, todo))
  {
    var todo := Donors(s, d, s.mapping[d]);
    var s0 := s.(mapping := s.mapping[d := v]);
    forall k | k in s0.evidence ensures Anchored(s0, k) {
      assert Anchored(s, k);
    }
    if Linked(s) {
      forall k | k in s0.evidence && s0.evidence[k].finding.Some?
        ensures OnMapping(s0, k) || (s0.evidence[k].detector == Some(d) && s0.evidence[k].finding.value in todo)
      {
        assert OnMapping(s, k);
        assert s0.evidence[k].detector == Some(d) ==> Supporting(s, k, s0.evidence[k].finding.value, d);
      }
    }
  }

  /** Whatever order the donor rows come back in, a retarget of a linked store leaves every row on its detector's new mapping. */
  lemma RetargetSound(s: Store, d: Detector, v: VulnKey, order: seq<FindingId>, most: nat)
    requires most >= 1 && Sound(s, most)
    requires d in s.mapping && s.mapping[d] != v
    requires Enumerates(order, Donors(s, d, s.mapping[d]))
    ensures var s' := Retarget(s, d, v, order);
      && Sound(s', most) && Conserved(s, s') && s'.mapping == s.mapping[d := v] && SameAssets(s, s')
      && (Linked(s) ==> Linked(s'))
  {
    var todo := Donors(s, d, s.mapping[d]);
    var s0, s' := s.(mapping := s.mapping[d := v]), Retarget(s, d, v, order);
    RetargetStart(s, d, v, most);
    PartitionAllSound(s0, order, d, s.mapping[d], v, todo, most);
    assert todo - Elements(order) == {};
    if Linked(s) {
      forall k | k in s'.evidence ensures OnMapping(s', k) {
        assert Anchored(s', k);
      }
    }
  }

  // ---------------------------------------------------------------- ingest

  lemma ConservedCves(s: Store, s': Store, d: Detector)
    requires Conserved(s, s')
    ensures CvesOf(s', d) == CvesOf(s, d)
    ensures Reported(s', d) <==> Reported(s, d)
  {
    forall k | k in s.evidence ensures SameRow(s.evidence[k], s'.evidence[k]) {}
    CvesAlike(s, s', d);
  }

  lemma UpsertSound(s: Store, d: Detector, cves: set<Cve>, order: seq<FindingId>, most: nat)
    requires most >= 1 && Inv(s, most)
    requires Enumerates(order, CatalogDonors(s, d, cves))
    ensures var s' := UpsertCatalog(s, d, cves, order);
      && Sound(s', most) && Conserved(s, s') && SameAssets(s, s')
      && s'.mapping == s.mapping[d := Desired(CvesOf(s, d) + cves, d)]
      && (Linked(s) ==> Linked(s'))
  {
    var v := Desired(CvesOf(s, d) + cves, d);
    if d !in s.mapping {
      var s' := UpsertCatalog(s, d, cves, order);
      forall k | k in s'.evidence
        ensures Anchored(s', k) && (OnMapping(s, k) ==> OnMapping(s', k))
      {
        assert Anchored(s, k);
      }
    } else if s.mapping[d] != v {
      RetargetSound(s, d, v, order, most);
    }
  }

  /** A row that a detection may go through: one of the asset's, or none if the slot is free. */
  ghost predicate Usable(s: Store, found: Option<FindingId>, a: AssetId, v: VulnKey) {
    match found
    case Some(f) => f in s.findings && s.findings[f].asset == a
    case None => Lookup(s.findings, a, v).None?
  }

  /** A detection opens and resets exactly one row, which is at its slot unless the row found was titled otherwise. */
  lemma DetectionSound(s: Store, found: Option<FindingId>, a: AssetId, v: VulnKey, most: nat)
    requires most >= 1 && Sound(s, most) && Usable(s, found, a, v)
    ensures var (s', f) := DetectThrough(s, found, a, v);
      && Sound(s', most) && s'.evidence == s.evidence && s'.mapping == s.mapping && SameAssets(s, s')
      && f in s'.findings && s'.findings[f].asset == a && s'.findings[f].isOpen && s'.findings[f].clean == 0
      && s'.findings[f].vuln == (if found.Some? then s.findings[f].vuln else v)
      && (forall g :: g in s.findings && g != f ==> g in s'.findings && s'.findings[g] == s.findings[g])
      && (forall g :: g in s'.findings && g != f ==> g in s.findings)
      && (Linked(s) <==> Linked(s'))
  {
    var (s', f) := DetectThrough(s, found, a, v);
    if found.None? {
      UniqueInsert(s.findings, s.nextId, FreshFinding(a, v));
    } else {
      UniqueAlike(s.findings, s'.findings);
    }
    LinkedAlike(s, s');
  }

  /** Adding the row of a report whose detector is already catalogued with its CVEs. */
  lemma InsertInv(s: Store, s': Store, r: Report, row: Evidence, most: nat)
    requires r.key !in s.evidence && s' == s.(evidence := s.evidence[r.key := row])
    requires row == Evidence(r.job, r.detector, r.cves, r.asset, row.finding)
    requires Sound(s, most)
    requires CataloguedFor(s, r.detector, r.cves)
    requires row.finding.Some? ==>
      r.detector.Some? && r.asset.Some? && row.finding.value in s.findings && s.findings[row.finding.value].asset == r.asset.value
    ensures Inv(s', most)
    ensures Linked(s') <==>
      Linked(s) && (row.finding.Some? ==> s.findings[row.finding.value].vuln == s.mapping[r.detector.value])
  {
    forall k | k in s'.evidence
      ensures Anchored(s', k) && (k != r.key ==> (OnMapping(s', k) <==> OnMapping(s, k)))
    {
      if k != r.key {
        assert Anchored(s, k);
      }
    }
    forall d | d in s'.mapping
      ensures Reported(s', d) && s'.mapping[d] == Desired(CvesOf(s', d), d)
    {
      if r.detector == Some(d) {
        assert r.key in s'.evidence && s'.evidence[r.key].detector == Some(d);
        CvesInserted(s, s', r.key, d);
      } else {
        var k :| k in s.evidence && s.evidence[k].detector == Some(d);
        assert k in s'.evidence && s'.evidence[k].detector == Some(d);
        CvesInserted(s, s', r.key, d);
      }
    }
    if Linked(s') {
      assert OnMapping(s', r.key);
      forall k | k in s.evidence ensures OnMapping(s, k) {
        assert OnMapping(s', k);
      }
    }
  }

  lemma CvesInserted(s: Store, s': Store, key: EvidenceKey, d: Detector)
    requires key !in s.evidence && key in s'.evidence && s'.evidence == s.evidence[key := s'.evidence[key]]
    ensures CvesOf(s', d) == if s'.evidence[key].detector == Some(d) then CvesOf(s, d) + s'.evidence[key].cves else CvesOf(s, d)
  {
    forall c ensures c in CvesOf(s', d) <==> c in CvesOf(s, d) || (s'.evidence[key].detector == Some(d) && c in s'.evidence[key].cves) {
      if c in CvesOf(s, d) {
        var k :| k in s.evidence && s.evidence[k].detector == Some(d) && c in s.evidence[k].cves;
        assert k in s'.evidence && s'.evidence[k].detector == Some(d) && c in s'.evidence[k].cves;
      }
    }
  }

  /** The rows Ingest's retarget visits. */
  ghost predicate IngestOrder(s: Store, r: Report, order: seq<FindingId>) {
    r.key !in s.evidence && r.detector.Some? ==> Enumerates(order, CatalogDonors(s, r.detector.value, r.cves))
  }

  /** Every detector but `d` is catalogued, and `d` is catalogued for its evidence and `cves` together. */
  ghost predicate CataloguedFor(s: Store, d: Option<Detector>, cves: set<Cve>) {
    && (forall k :: k in s.evidence && s.evidence[k].detector.Some? ==> s.evidence[k].detector.value in s.mapping)
    && (d.Some? ==> d.value in s.mapping && s.mapping[d.value] == Desired(CvesOf(s, d.value) + cves, d.value))
    && (forall e :: e in s.mapping && d != Some(e) ==> Reported(s, e) && s.mapping[e] == Desired(CvesOf(s, e), e))
  }

  /** A report asks for nothing, or through a row it may use. */
  ghost predicate Finds(s: Store, r: Report, found: Option<FindingId>) {
    Asked(s, r).Some? ==> Usable(s, found, Asked(s, r).value.0, Asked(s, r).value.1)
  }

  /** The row that a detection goes through carries the vulnerability that is detected. */
  predicate TitledAsAsked(s: Store, r: Report, found: Option<FindingId>) {
    Asked(s, r).Some? && found.Some? && found.value in s.findings ==> s.findings[found.value].vuln == Asked(s, r).value.1
  }

  /** Recording a report keeps the invariant, and the links exactly if it goes through a row titled as asked. */
  lemma RecordInv(s: Store, r: Report, found: Option<FindingId>, most: nat)
    requires most >= 1 && Sound(s, most) && CataloguedFor(s, r.detector, r.cves) && r.key !in s.evidence
    requires Finds(s, r, found) && (found.Some? ==> found.value in s.findings)
    ensures Inv(Record(s, r, found), most)
    ensures Linked(Record(s, r, found)) <==> Linked(s) && TitledAsAsked(s, r, found)
  {
    var s' := Record(s, r, found);
    var asked := Asked(s, r);
    if asked.None? {
      InsertInv(s, s', r, s'.evidence[r.key], most);
    } else {
      DetectionSound(s, found, asked.value.0, asked.value.1, most);
      var (s2, f) := DetectThrough(s, found, asked.value.0, asked.value.1);
      SameEvidence(s, s2);
      InsertInv(s2, s', r, s'.evidence[r.key], most);
    }
  }

  lemma CvesAlike(s: Store, s': Store, d: Detector)
    requires s'.evidence.Keys == s.evidence.Keys
    requires forall k :: k in s.evidence ==> s'.evidence[k].detector == s.evidence[k].detector && s'.evidence[k].cves == s.evidence[k].cves
    ensures (Reported(s', d) <==> Reported(s, d)) && CvesOf(s', d) == CvesOf(s, d)
  {
    if Reported(s, d) {
      var k :| k in s.evidence && s.evidence[k].detector == Some(d);
      assert k in s'.evidence && s'.evidence[k].detector == Some(d);
    }
    if Reported(s', d) {
      var k :| k in s'.evidence && s'.evidence[k].detector == Some(d);
      assert k in s.evidence && s.evidence[k].detector == Some(d);
    }
  }

  lemma CataloguedAlike(s: Store, s': Store)
    requires Catalogued(s) && s'.mapping == s.mapping && s'.evidence.Keys == s.evidence.Keys
    requires forall k :: k in s.evidence ==> s'.evidence[k].detector == s.evidence[k].detector && s'.evidence[k].cves == s.evidence[k].cves
    ensures Catalogued(s')
  {
    forall d | d in s'.mapping
      ensures Reported(s', d) && CvesOf(s', d) == CvesOf(s, d)
    {
      CvesAlike(s, s', d);
    }
  }

  lemma SameEvidence(s: Store, s': Store)
    requires s'.evidence == s.evidence
    ensures forall d :: Reported(s', d) <==> Reported(s, d)
    ensures forall d :: CvesOf(s', d) == CvesOf(s, d)
  {
    forall d ensures (Reported(s', d) <==> Reported(s, d)) && CvesOf(s', d) == CvesOf(s, d) {
      ConservedCves(s, s', d);
    }
  }

  lemma CataloguedElsewhere(s: Store, s': Store, d: Detector)
    requires Catalogued(s) && Conserved(s, s')
    requires s'.mapping.Keys == s.mapping.Keys + {d} && forall e :: e in s.mapping && e != d ==> s'.mapping[e] == s.mapping[e]
    ensures forall e :: e in s'.mapping && e != d ==> Reported(s', e) && s'.mapping[e] == Desired(CvesOf(s', e), e)
    ensures forall k :: k in s'.evidence && s'.evidence[k].detector.Some? ==> s'.evidence[k].detector.value in s'.mapping
  {
    forall e | e in s'.mapping && e != d
      ensures Reported(s', e) && s'.mapping[e] == Desired(CvesOf(s', e), e)
    {
      ConservedCves(s, s', e);
    }
    forall k | k in s'.evidence && s'.evidence[k].detector.Some?
      ensures s'.evidence[k].detector.value in s'.mapping
    {
      assert SameRow(s.evidence[k], s'.evidence[k]);
    }
  }

  // ---------------------------------------------------------------- finalization and asset merges

  lemma NewEvalsAt(s: Store, run: Run, f: FindingId, job: JobId)
    ensures (f, job) in NewEvals(s, run) <==>
      job == run.job && f in s.findings && (f, job) !in s.evals && Verdict(s, f, run).Some?
    ensures (f, job) in NewEvals(s, run) ==> NewEvals(s, run)[(f, job)] == Verdict(s, f, run).value
  {
    assert f in NewlyEvaluated(s, run) ==> (f, run.job) in NewEvals(s, run);
  }

  /** No finding needs more than `most` clean scans of a run. */
  ghost predicate Within(run: Run, most: nat) {
    forall f :: f in run.needed ==> run.needed[f] <= most
  }

  lemma FinalizeRows(s: Store, run: Run, most: nat)
    requires RowsOk(s, most) && Numbered(s) && Within(run, most)
    ensures var s' := Finalize(s, run); RowsOk(s', most) && Numbered(s')
    ensures forall f :: f in s.findings ==>
      var row := FinalFinding(s, f, run); row.asset == s.findings[f].asset && row.vuln == s.findings[f].vuln
  {
    forall p: (FindingId, JobId) | p in NewEvals(s, run) ensures p.0 in s.findings {
      NewEvalsAt(s, run, p.0, p.1);
    }
    forall f | f in s.findings
      ensures RowOk(FinalFinding(s, f, run), most)
    {
      assert RowOk(s.findings[f], most);
    }
  }

  lemma FinalizeInv(s: Store, run: Run, most: nat)
    requires Inv(s, most) && Within(run, most)
    ensures Inv(Finalize(s, run), most) && (Linked(s) ==> Linked(Finalize(s, run)))
  {
    var s' := Finalize(s, run);
    FinalizeRows(s, run, most);
    UniqueAlike(s.findings, s'.findings);
    LinkedAlike(s, s');
    CataloguedAlike(s, s');
  }

  /** An asset merge may change a row's asset and finding, but never detaches or attaches it. */
  ghost predicate OnlyRehomed(e: Evidence, e': Evidence) {
    e' == e.(asset := e'.asset, finding := e'.finding) && (e'.finding.Some? <==> e.finding.Some?)
  }

  lemma RehomeRows(s: Store, donor: FindingId, target: AssetId, most: nat)
    requires Sound(s, most) && donor in s.findings && s.findings[donor].asset != target
    ensures var s' := Rehome(s, donor, target);
      Unique(s') && Numbered(s') && RowsOk(s', most) && Rehomed(s, s', [donor], target) && s'.findings.Keys <= s.findings.Keys
  {
    var keeper := Lookup(s.findings, target, s.findings[donor].vuln);
    if keeper.None? {
      UniqueMove(s.findings, donor, s.findings[donor].(asset := target));
    } else {
      MergeSound(s, keeper.value, donor, most);
    }
  }

  lemma RehomeInv(s: Store, donor: FindingId, target: AssetId, most: nat)
    requires Inv(s, most) && donor in s.findings && s.findings[donor].asset != target
    ensures var s' := Rehome(s, donor, target);
      && Inv(s', most) && Rehomed(s, s', [donor], target) && s'.findings.Keys <= s.findings.Keys
      && (Linked(s) ==> Linked(s'))
  {
    var s' := Rehome(s, donor, target);
    RehomeRows(s, donor, target, most);
    forall k | k in s'.evidence
      ensures Anchored(s', k) && (OnMapping(s, k) ==> OnMapping(s', k))
    {
      assert Anchored(s, k);
    }
    forall k | k in s.evidence ensures OnlyRehomed(s.evidence[k], s'.evidence[k]) {}
    CataloguedAlike(s, s');
  }

  ghost predicate Rehomed(s: Store, s': Store, order: seq<FindingId>, target: AssetId) {
    && s'.evidence.Keys == s.evidence.Keys && s'.mapping == s.mapping
    && (forall k :: k in s.evidence ==> OnlyRehomed(s.evidence[k], s'.evidence[k]))
    && (forall f :: f in s.findings && f !in order ==> f in s'.findings && s'.findings[f].asset == s.findings[f].asset)
    && (forall f :: f in order && f in s'.findings ==> s'.findings[f].asset == target)
  }

  lemma RehomedTrans(s: Store, rest: Store, s': Store, front: seq<FindingId>, donor: FindingId, target: AssetId)
    requires Rehomed(s, rest, front, target) && Rehomed(rest, s', [donor], target) && s'.findings.Keys <= rest.findings.Keys
    ensures Rehomed(s, s', front + [donor], target)
  {
    forall k | k in s.evidence ensures OnlyRehomed(s.evidence[k], s'.evidence[k]) {
      assert OnlyRehomed(s.evidence[k], rest.evidence[k]) && OnlyRehomed(rest.evidence[k], s'.evidence[k]);
    }
  }

  lemma {:induction false} RehomeAllInv(s: Store, order: seq<FindingId>, target: AssetId, most: nat)
    requires Inv(s, most)
    ensures var s' := RehomeAll(s, order, target);
      Inv(s', most) && Rehomed(s, s', order, target) && (Linked(s) ==> Linked(s'))
  {
    if order == [] {
      assert forall k :: k in s.evidence ==> OnlyRehomed(s.evidence[k], s.evidence[k]);
    } else {
      var front, donor := order[..|order| - 1], order[|order| - 1];
      RehomeAllInv(s, front, target, most);
      var rest := RehomeAll(s, front, target);
      assert order == front + [donor];
      if donor in rest.findings && rest.findings[donor].asset != target {
        RehomeInv(rest, donor, target, most);
        RehomedTrans(s, rest, RehomeAll(s, order, target), front, donor, target);
      }
    }
  }

  /** Once all findings of an asset have been moved, none is left there, and the other assets' findings are still theirs. */
  lemma RehomedAway(s: Store, source: AssetId, target: AssetId, order: seq<FindingId>, most: nat)
    requires Inv(s, most) && source != target && Enumerates(order, FindingsOf(s, source))
    ensures forall f :: f in RehomeAll(s, order, target).findings ==> RehomeAll(s, order, target).findings[f].asset != source
    ensures forall f :: f in s.findings && s.findings[f].asset != source ==>
      f in RehomeAll(s, order, target).findings && RehomeAll(s, order, target).findings[f].asset == s.findings[f].asset
  {
    RehomeAllInv(s, order, target, most);
    RehomeAllKeys(s, order, target);
  }

  lemma {:induction false} RehomeAllKeys(s: Store, order: seq<FindingId>, target: AssetId)
    ensures RehomeAll(s, order, target).findings.Keys <= s.findings.Keys
  {
    if order != [] {
      RehomeAllKeys(s, order[..|order| - 1], target);
    }
  }

  // ---------------------------------------------------------------- what a split or merge does to openness

  /**
   Evidence that a retarget moves off an open finding stays on an open finding, except when the
   donor keeps evidence of another detector and the asset already has a resolved finding for the
   new vulnerability: that finding is joined without being reopened.
   */
  lemma PartitionOpenness(s: Store, donor: FindingId, d: Detector, v: VulnKey, k: EvidenceKey)
    requires Unique(s) && Numbered(s) && AllAnchored(s) && donor in s.findings && s.findings[donor].vuln != v
    requires Supporting(s, k, donor, d) && s.findings[donor].isOpen
    ensures var s' := Partition(s, donor, d, v);
      && s'.evidence[k].finding.Some? && At(s'.findings, s'.evidence[k].finding.value, s.findings[donor].asset, v)
      && (s'.findings[s'.evidence[k].finding.value].isOpen <==>
          !(OtherSupport(s, donor, d) && exists f :: At(s.findings, f, s.findings[donor].asset, v) && !s.findings[f].isOpen))
  {
    assert Supports(s, donor, d);
    var keeper := Lookup(s.findings, s.findings[donor].asset, v);
    if keeper.Some? {
      forall f | At(s.findings, f, s.findings[donor].asset, v) ensures f == keeper.value {
        assert SameSlot(s.findings, keeper.value, f);
      }
    }
  }
}
