/** The findings tables and the transactions that change them in place. */
module FindingDb {
  import opened Options
  import opened FindingModel
  import opened FindingInvariant
  import opened FindingBatches
  import opened FindingRuns

  lemma DonorsIgnoreMapping(s: Store, s': Store, d: Detector, v: VulnKey)
    requires s' == s.(mapping := s'.mapping)
    ensures Donors(s', d, v) == Donors(s, d, v)
  {
    assert forall f, k :: Supporting(s', k, f, d) <==> Supporting(s, k, f, d);
  }

  lemma SupportingRows(s: Store, f: FindingId, d: Detector, rows: set<EvidenceKey>)
    requires forall k :: k in rows <==> Supporting(s, k, f, d)
    ensures Supports(s, f, d) <==> rows != {}
  {
    if rows != {} {
      var k :| k in rows;
    }
  }

  lemma OtherRows(s: Store, f: FindingId, d: Detector, rows: set<EvidenceKey>)
    requires forall k :: k in rows <==> Attached(s, k, f) && s.evidence[k].detector != Some(d)
    ensures OtherSupport(s, f, d) <==> rows != {}
  {
    if rows != {} {
      var k :| k in rows;
    }
  }

  /** Bookkeeping of a loop that visits `rows` in some order: `order` so far, `todo` still to come. */
  ghost predicate Visiting(order: seq<FindingId>, todo: set<FindingId>, rows: set<FindingId>) {
    && todo <= rows && |order| + |todo| == |rows|
    && (forall x :: x in rows <==> x in todo || x in order)
    && (forall x :: x in order ==> x !in todo)
    && (forall i, j :: 0 <= i < j < |order| ==> order[i] != order[j])
  }

  lemma Visit(order: seq<FindingId>, todo: set<FindingId>, rows: set<FindingId>, x: FindingId)
    requires Visiting(order, todo, rows) && x in todo
    ensures Visiting(order + [x], todo - {x}, rows)
    ensures (order + [x])[..|order + [x]| - 1] == order
  {
    assert x !in order;
    assert forall i :: 0 <= i < |order| ==> order[i] in order;
  }

  // ---------------------------------------------------------------- one report after another

  lemma IngestedNext(b: Batch, reports: seq<Report>, orders: seq<seq<FindingId>>, r: Report, order: seq<FindingId>)
    requires BatchOrders(b, reports, orders) && IngestAll(b, reports, orders).Some?
    requires IngestOrder(IngestAll(b, reports, orders).value.store, r, order)
    ensures BatchOrders(b, reports + [r], orders + [order])
    ensures IngestAll(b, reports + [r], orders + [order]) == Ingest(IngestAll(b, reports, orders).value, r, order)
  {
    assert (reports + [r])[..|reports|] == reports && (orders + [order])[..|reports|] == orders;
  }

  /** Once a report is refused the rest of the batch makes no difference. */
  lemma {:induction false} RefusedAlready(b: Batch, reports: seq<Report>, orders: seq<seq<FindingId>>, rest: seq<Report>)
    requires BatchOrders(b, reports, orders) && IngestAll(b, reports, orders).None?
    ensures var all := orders + seq(|rest|, _ => []);
      BatchOrders(b, reports + rest, all) && IngestAll(b, reports + rest, all).None?
  {
    var all := orders + seq(|rest|, _ => []);
    if rest == [] {
      assert reports + rest == reports && all == orders;
    } else {
      var front := rest[..|rest| - 1];
      RefusedAlready(b, reports, orders, front);
      assert (reports + rest)[..|reports + rest| - 1] == reports + front;
      assert all[..|reports + rest| - 1] == orders + seq(|front|, _ => []);
    }
  }

  lemma RefusedBatch(b: Batch, reports: seq<Report>, n: nat, orders: seq<seq<FindingId>>)
    requires n <= |reports| && BatchOrders(b, reports[..n], orders) && IngestAll(b, reports[..n], orders).None?
    ensures var all := orders + seq(|reports| - n, _ => []); BatchOrders(b, reports, all) && IngestAll(b, reports, all).None?
  {
    RefusedAlready(b, reports[..n], orders, reports[n..]);
    assert reports[..n] + reports[n..] == reports;
  }

  // ---------------------------------------------------------------- one turn of each loop

  /** The evaluations while the donor's `pending` ones are still to be handed over. */
  ghost predicate HandingOver(was: Evaluations, now: Evaluations, pending: set<(FindingId, JobId)>, keeper: FindingId, donor: FindingId) {
    && (forall p :: p in pending <==> p in now && p.0 == donor)
    && (forall p: (FindingId, JobId) :: p.0 != keeper && (p.0 != donor || p in pending) ==> SameAt(was, now, p))
    && (forall j: JobId :: (donor, j) in pending ==> SameAt(was, now, (keeper, j)))
    && (forall j: JobId :: (donor, j) !in pending ==> MergedAt(was, now, keeper, donor, j))
  }

  predicate SameAt(was: Evaluations, now: Evaluations, p: (FindingId, JobId)) {
    (p in now <==> p in was) && (p in now ==> now[p] == was[p])
  }

  predicate MergedAt(was: Evaluations, now: Evaluations, keeper: FindingId, donor: FindingId, j: JobId) {
    && ((keeper, j) in now <==> MergedOutcome(was, keeper, donor, j).Some?)
    && ((keeper, j) in now ==> now[(keeper, j)] == MergedOutcome(was, keeper, donor, j).value)
  }

  lemma HandOver(was: Evaluations, now: Evaluations, pending: set<(FindingId, JobId)>, keeper: FindingId, donor: FindingId, job: JobId)
    requires keeper != donor && HandingOver(was, now, pending, keeper, donor) && (donor, job) in pending
    ensures HandingOver(was, AdoptEval(now, keeper, donor, job), pending - {(donor, job)}, keeper, donor)
  {
    assert SameAt(was, now, (donor, job)) && SameAt(was, now, (keeper, job));
    var now' := AdoptEval(now, keeper, donor, job);
    forall j: JobId
      ensures (donor, j) in pending - {(donor, job)} ==> SameAt(was, now', (keeper, j))
      ensures (donor, j) !in pending - {(donor, job)} ==> MergedAt(was, now', keeper, donor, j)
    {
      assert j != job ==> SameAt(now, now', (keeper, j));
    }
    forall p: (FindingId, JobId) | p.0 != keeper && (p.0 != donor || p in pending - {(donor, job)})
      ensures SameAt(was, now', p)
    {
      assert SameAt(was, now, p) && SameAt(now, now', p);
    }
  }

  lemma HandedOver(was: Evaluations, now: Evaluations, keeper: FindingId, donor: FindingId)
    requires keeper != donor && HandingOver(was, now, {}, keeper, donor)
    ensures now == MergedEvals(was, keeper, donor)
  {
    forall p: (FindingId, JobId)
      ensures SameAt(MergedEvals(was, keeper, donor), now, p)
    {
      MergedEvalsAt(was, keeper, donor, p.0, p.1);
      assert p == (p.0, p.1);
      if p.0 == keeper {
        assert MergedAt(was, now, keeper, donor, p.1);
      } else if p.0 != donor {
        assert SameAt(was, now, p);
      }
    }
    forall p: (FindingId, JobId) | p in now ensures p in MergedEvals(was, keeper, donor) {
      assert SameAt(MergedEvals(was, keeper, donor), now, p);
    }
    forall p: (FindingId, JobId) | p in MergedEvals(was, keeper, donor)
      ensures p in now && now[p] == MergedEvals(was, keeper, donor)[p]
    {
      assert SameAt(MergedEvals(was, keeper, donor), now, p);
    }
  }

  lemma PartitionTurn(
    s0: Store, s: Store, order: seq<FindingId>, donor: FindingId, d: Detector, previous: VulnKey, v: VulnKey, todo: set<FindingId>, most: nat)
    requires most >= 1 && s == PartitionAll(s0, order, d, v)
    requires Moving(s, d, previous, v, todo, most) && donor in todo
    ensures var s' := Partition(s, donor, d, v);
      s' == PartitionAll(s0, order + [donor], d, v) && Moving(s', d, previous, v, todo - {donor}, most)
  {
    assert (order + [donor])[..|order + [donor]| - 1] == order;
    PartitionSound(s, donor, d, previous, v, todo, most);
  }

  lemma RehomeTurn(s0: Store, s: Store, order: seq<FindingId>, donor: FindingId, target: AssetId, most: nat)
    requires s == RehomeAll(s0, order, target) && Inv(s, most) && Rehomed(s0, s, order, target)
    requires donor in s.findings && s.findings[donor].asset != target
    ensures var s' := Rehome(s, donor, target);
      && s' == RehomeAll(s0, order + [donor], target) && Inv(s', most) && Rehomed(s0, s', order + [donor], target)
      && s'.findings.Keys <= s.findings.Keys
      && (forall f :: f in s.findings && f != donor ==> f in s'.findings && s'.findings[f].asset == s.findings[f].asset)
  {
    assert (order + [donor])[..|order + [donor]| - 1] == order;
    RehomeInv(s, donor, target, most);
    RehomedTrans(s0, s, Rehome(s, donor, target), order, donor, target);
  }

  /** Finalization once the candidates outside `todo` have been evaluated. */
  ghost predicate Evaluating(s: Store, rows: Findings, evals: Evaluations, run: Run, todo: set<FindingId>) {
    && rows.Keys == s.findings.Keys
    && (forall f :: f in s.findings ==> rows[f] == if f in todo then s.findings[f] else FinalFinding(s, f, run))
    && (forall p :: p in s.evals ==> p in evals && evals[p] == s.evals[p])
    && (forall p :: p in evals && p !in s.evals ==>
        p.1 == run.job && p.0 in s.findings && p.0 !in todo && Verdict(s, p.0, run) == Some(evals[p]))
    && (forall f :: f in s.findings && f !in todo && Verdict(s, f, run).Some? ==> (f, run.job) in evals)
  }

  /** The rows finalization selects are the only ones with a verdict, and their verdict follows the two id sets. */
  lemma CandidatesOnly(s: Store, run: Run, detected: set<FindingId>, candidates: set<FindingId>)
    requires forall f :: f in detected <==>
      exists k :: k in s.evidence && s.evidence[k].job == run.job && s.evidence[k].finding.Some? && s.evidence[k].finding.value == f
    requires forall f :: f in candidates <==> f in s.findings && (f in detected || s.findings[f].asset in run.observed)
    ensures forall f :: f in candidates ==>
      Verdict(s, f, run) == if f in detected then Some(Detected) else if f in run.needed then Some(Clean) else None
    ensures Evaluating(s, s.findings, s.evals, run, candidates)
  {
    forall f | f in s.findings
      ensures f in detected <==> DetectedBy(s, f, run.job)
    {
      if DetectedBy(s, f, run.job) {
        var k :| Attached(s, k, f) && s.evidence[k].job == run.job;
        assert s.evidence[k].finding.value == f;
      }
      if f in detected {
        var k :| k in s.evidence && s.evidence[k].job == run.job && s.evidence[k].finding.Some? && s.evidence[k].finding.value == f;
        assert Attached(s, k, f);
      }
    }
  }

  lemma EvaluateTurn(s: Store, rows: Findings, evals: Evaluations, run: Run, todo: set<FindingId>, f: FindingId)
    requires Evaluating(s, rows, evals, run, todo) && f in todo && f in s.findings
    ensures var verdict := Verdict(s, f, run);
      var rows' := if (f, run.job) in evals || verdict.None? then rows
                   else if verdict == Some(Detected) then rows[f := rows[f].(clean := 0)]
                   else rows[f := Resolve(rows[f].(clean := rows[f].clean + 1), run.needed[f], run.finishedAt)];
      var evals' := if (f, run.job) in evals || verdict.None? then evals else evals[(f, run.job) := verdict.value];
      Evaluating(s, rows', evals', run, todo - {f})
  {
  }

  lemma Evaluated(s: Store, rows: Findings, evals: Evaluations, run: Run)
    requires Evaluating(s, rows, evals, run, {})
    ensures rows == Finalize(s, run).findings
    ensures evals == Finalize(s, run).evals
  {
    var final := s.evals + NewEvals(s, run);
    forall p: (FindingId, JobId)
      ensures p in evals <==> p in final
      ensures p in evals ==> evals[p] == final[p]
    {
      NewEvalsAt(s, run, p.0, p.1);
      assert p == (p.0, p.1);
    }
  }

  /** The asset findings of a batch's index: written through by its own detections, not by retargets. */
  class FindingIndex {
    const db: FindingDb
    var rows: Cache

    constructor (db: FindingDb)
      ensures this.db == db && rows == map[]
    {
      this.db := db;
      rows := map[];
    }

    method AssetFindingFor(a: AssetId, v: VulnKey) returns (r: Option<FindingId>)
      requires Unique(db.State())
      modifies this`rows
      ensures r == CachedLookup(Batch(db.State(), old(rows)), (a, v))
      ensures rows == if r.Some? then old(rows)[(a, v) := r.value] else old(rows)
    {
      if (a, v) in rows {
        r := Some(rows[(a, v)]);
      } else {
        r := db.FindRow(a, v);
        if r.Some? {
          rows := rows[(a, v) := r.value];
        }
      }
    }

    /** Remembers a row under its own asset and vulnerability. */
    method RememberAssetFinding(f: FindingId)
      modifies this`rows
      ensures rows == if f in db.findings then old(rows)[(db.findings[f].asset, db.findings[f].vuln) := f] else old(rows)
    {
      if f in db.findings {
        rows := rows[(db.findings[f].asset, db.findings[f].vuln) := f];
      }
    }
  }

  class FindingDb {
    var mapping: map<Detector, VulnKey>
    var findings: Findings
    var evidence: map<EvidenceKey, Evidence>
    var evals: Evaluations
    var nextId: FindingId

    ghost function State(): Store
      reads this
    {
      Store(mapping, findings, evidence, evals, nextId)
    }

    constructor ()
      ensures State() == Empty
    {
      mapping, findings, evidence, evals, nextId := map[], map[], map[], map[], 0;
    }

    method FindRow(a: AssetId, v: VulnKey) returns (r: Option<FindingId>)
      requires Unique(State())
      ensures r == Lookup(findings, a, v)
    {
      if f :| f in findings && At(findings, f, a, v) {
        LookupUnique(State(), f);
        r := Some(f);
      } else {
        r := None;
      }
    }

    /** The row a detection finds: through the index if there is one, else by query. */
    ghost function Found(index: FindingIndex?, a: AssetId, v: VulnKey): Option<FindingId>
      reads this, index
    {
      if index == null then Lookup(findings, a, v) else CachedLookup(Batch(State(), index.rows), (a, v))
    }

    method DetectAgain(f: FindingId) returns (reopened: bool)
      requires f in findings
      modifies this`findings
      ensures findings == old(findings)[f := Redetected(old(findings)[f])] && reopened == !old(findings)[f].isOpen
    {
      reopened := !findings[f].isOpen;
      findings := findings[f := findings[f].(clean := 0)];
      if reopened {
        findings := findings[f := findings[f].(isOpen := true, resolvedAt := None)];
      }
    }

    /** apply_detection; a remembered row that is not stored any more is returned as it is. */
    method ApplyDetection(a: AssetId, v: VulnKey, index: FindingIndex?) returns (f: FindingId, createdOrReopened: bool)
      requires Unique(State()) && Numbered(State()) && (index != null ==> index.db == this)
      modifies this, index
      ensures var found := old(Found(index, a, v));
        if found.Some? && found.value !in old(findings) then f == found.value && State() == old(State())
        else (State(), f) == DetectThrough(old(State()), found, a, v)
      ensures f in findings ==> (createdOrReopened <==> f !in old(findings) || !old(findings)[f].isOpen)
      ensures index != null ==> index.rows == Remembered(old(index.rows), State(), (a, v), f)
    {
      var existing;
      if index != null {
        existing := index.AssetFindingFor(a, v);
      } else {
        existing := FindRow(a, v);
      }
      if existing.None? {
        f := nextId;
        findings := findings[f := FreshFinding(a, v)];
        nextId := nextId + 1;
        createdOrReopened := true;
      } else {
        f, createdOrReopened := existing.value, false;
        if f in findings {
          createdOrReopened := DetectAgain(f);
        }
      }
      if index != null {
        index.RememberAssetFinding(f);
      }
    }

    method MergeDuplicate(keeper: FindingId, donor: FindingId)
      requires keeper in findings && donor in findings && keeper != donor
      modifies this
      ensures State() == FindingModel.MergeDuplicate(old(State()), keeper, donor)
    {
      findings := findings[keeper := MergedFinding(findings[keeper], findings[donor])];
      evidence := MoveAll(evidence, donor, keeper, findings[keeper].asset);
      HandOverEvaluations(keeper, donor);
      findings := findings - {donor};
    }

    method HandOverEvaluations(keeper: FindingId, donor: FindingId)
      requires keeper != donor
      modifies this`evals
      ensures evals == MergedEvals(old(evals), keeper, donor)
    {
      var pending := set p | p in evals && p.0 == donor;
      while pending != {}
        invariant HandingOver(old(evals), evals, pending, keeper, donor)
      {
        var p :| p in pending;
        assert p == (donor, p.1);
        HandOver(old(evals), evals, pending, keeper, donor, p.1);
        evals := AdoptEval(evals, keeper, donor, p.1);
        pending := pending - {p};
      }
      HandedOver(old(evals), evals, keeper, donor);
    }

    method PartitionForMapping(donor: FindingId, d: Detector, v: VulnKey)
      requires Unique(State()) && donor in findings
      modifies this
      ensures State() == Partition(old(State()), donor, d, v)
    {
      var supporting := set k | k in evidence && evidence[k].finding == Some(donor) && evidence[k].detector == Some(d);
      SupportingRows(State(), donor, d, supporting);
      if supporting == {} {
        return;
      }
      var keeper := FindRow(findings[donor].asset, v);
      var others := set k | k in evidence && evidence[k].finding == Some(donor) && evidence[k].detector != Some(d);
      OtherRows(State(), donor, d, others);
      if others != {} {
        SplitOff(donor, d, v, supporting, keeper);
      } else if keeper.None? || keeper.value == donor {
        findings := findings[donor := findings[donor].(vuln := v)];
      } else {
        MergeDuplicate(keeper.value, donor);
      }
    }

    method SplitOff(donor: FindingId, d: Detector, v: VulnKey, supporting: set<EvidenceKey>, keeper: Option<FindingId>)
      requires donor in findings && forall k :: k in supporting <==> Supporting(State(), k, donor, d)
      requires keeper.Some? ==> At(findings, keeper.value, findings[donor].asset, v)
      modifies this
      ensures State() == SplitTo(old(State()), donor, d, v, keeper)
    {
      var asset := findings[donor].asset;
      var to := if keeper.None? then nextId else keeper.value;
      if keeper.None? {
        findings := findings[to := FreshFinding(asset, v)];
        nextId := nextId + 1;
      }
      MoveRows(supporting, to, asset);
      assert evidence == MoveDetector(old(evidence), donor, d, to, asset);
    }

    method MoveRows(supporting: set<EvidenceKey>, to: FindingId, asset: AssetId)
      requires supporting <= evidence.Keys && to in findings && findings[to].asset == asset
      modifies this`evidence
      ensures evidence.Keys == old(evidence).Keys
      ensures forall k :: k in evidence ==>
        evidence[k] == if k in supporting then old(evidence)[k].(finding := Some(to), asset := Some(asset)) else old(evidence)[k]
    {
      var rows := supporting;
      while rows != {}
        invariant rows <= supporting && evidence.Keys == old(evidence).Keys
        invariant forall k :: k in evidence ==>
          evidence[k] == if k in supporting && k !in rows then old(evidence)[k].(finding := Some(to), asset := Some(asset)) else old(evidence)[k]
      {
        var k :| k in rows;
        evidence := evidence[k := evidence[k].(finding := Some(to), asset := Some(findings[to].asset))];
        rows := rows - {k};
      }
    }

    method DonorRows(d: Detector, previous: VulnKey) returns (donors: set<FindingId>)
      ensures donors == Donors(State(), d, previous)
    {
      donors := set f | f in findings && findings[f].vuln == previous
        && exists k :: k in evidence && evidence[k].finding == Some(f) && evidence[k].detector == Some(d);
      forall f | f in findings
        ensures (exists k :: k in evidence && evidence[k].finding == Some(f) && evidence[k].detector == Some(d)) <==> Supports(State(), f, d)
      {
        if Supports(State(), f, d) {
          var k :| Supporting(State(), k, f, d);
          assert evidence[k].finding == Some(f);
        }
        if k :| k in evidence && evidence[k].finding == Some(f) && evidence[k].detector == Some(d) {
          assert Supporting(State(), k, f, d);
        }
      }
    }

    method RetargetMapping(d: Detector, v: VulnKey, ghost most: nat) returns (ghost order: seq<FindingId>)
      requires most >= 1 && Sound(State(), most)
      requires d in mapping && mapping[d] != v
      modifies this
      ensures Enumerates(order, Donors(old(State()), d, old(mapping)[d]))
      ensures State() == Retarget(old(State()), d, v, order)
    {
      var previous := mapping[d];
      mapping := mapping[d := v];
      ghost var s0 := State();
      RetargetStart(old(State()), d, v, most);
      var donors := DonorRows(d, previous);
      DonorsIgnoreMapping(old(State()), s0, d, previous);
      order := [];
      var todo := donors;
      while todo != {}
        invariant Visiting(order, todo, donors)
        invariant State() == PartitionAll(s0, order, d, v)
        invariant Moving(State(), d, previous, v, todo, most)
      {
        var donor :| donor in todo;
        PartitionTurn(s0, State(), order, donor, d, previous, v, todo, most);
        Visit(order, todo, donors, donor);
        PartitionForMapping(donor, d, v);
        order := order + [donor];
        todo := todo - {donor};
      }
    }

    method UpsertDetectorCatalog(d: Detector, cves: set<Cve>, ghost most: nat) returns (v: VulnKey, ghost order: seq<FindingId>)
      requires most >= 1 && Inv(State(), most)
      modifies this
      ensures Enumerates(order, CatalogDonors(old(State()), d, cves))
      ensures State() == UpsertCatalog(old(State()), d, cves, order)
      ensures d in mapping && v == mapping[d]
    {
      var known := cves + set k, c | k in evidence && evidence[k].detector == Some(d) && c in evidence[k].cves :: c;
      assert known == CvesOf(State(), d) + cves;
      v := Desired(known, d);
      order := [];
      if d !in mapping {
        mapping := mapping[d := v];
      } else if mapping[d] != v {
        order := RetargetMapping(d, v, most);
        RetargetSound(old(State()), d, v, order, most);
      }
    }

    /** One report of a batch; not ok where its evidence would name a finding that is gone. */
    method IngestFinding(r: Report, index: FindingIndex, ghost most: nat) returns (ok: bool, created: bool, ghost order: seq<FindingId>)
      requires most >= 1 && index.db == this && BatchOk(Batch(State(), index.rows), most)
      modifies this, index
      ensures IngestOrder(old(State()), r, order)
      ensures Ingest(old(Batch(State(), index.rows)), r, order) == if ok then Some(Batch(State(), index.rows)) else None
      ensures ok ==> BatchOk(Batch(State(), index.rows), most) && evidence.Keys == old(evidence).Keys + {r.key}
      ensures created <==> r.key !in old(evidence)
    {
      order := [];
      created := r.key !in evidence;
      ok := true;
      if created {
        order := Catalog(r, most);
        ghost var s1 := State();
        ok := RecordReport(r, index);
        if ok {
          RecordShape(Batch(s1, old(index.rows)), r);
        }
      }
      if ok {
        IngestInv(old(Batch(State(), index.rows)), r, order, most);
      }
    }

    method Catalog(r: Report, ghost most: nat) returns (ghost order: seq<FindingId>)
      requires most >= 1 && Inv(State(), most) && r.key !in evidence
      modifies this
      ensures IngestOrder(old(State()), r, order) && State() == Prepared(old(State()), r, order)
      ensures Unique(State()) && Numbered(State()) && evidence.Keys == old(evidence).Keys
      ensures r.detector.Some? ==> r.detector.value in mapping
    {
      order := [];
      if r.detector.Some? {
        var v;
        v, order := UpsertDetectorCatalog(r.detector.value, r.cves, most);
      }
      PreparedSound(old(State()), r, order, most);
    }

    method RecordReport(r: Report, index: FindingIndex) returns (ok: bool)
      requires Unique(State()) && Numbered(State()) && index.db == this
      modifies this, index
      ensures RecordIn(old(Batch(State(), index.rows)), r) == if ok then Some(Batch(State(), index.rows)) else None
    {
      var finding: Option<FindingId> := None;
      if r.asset.Some? && r.detector.Some? && r.detector.value in mapping {
        var f, _ := ApplyDetection(r.asset.value, mapping[r.detector.value], index);
        finding := Some(f);
      }
      ok := finding.Some? ==> finding.value in findings;
      if ok {
        evidence := evidence[r.key := Evidence(r.job, r.detector, r.cves, r.asset, finding)];
      }
    }

    /** The next report of a batch, as one more step of its specification. */
    method IngestNext(r: Report, index: FindingIndex, ghost b: Batch, ghost reports: seq<Report>, ghost orders: seq<seq<FindingId>>, ghost most: nat)
      returns (ok: bool, created: bool, ghost orders': seq<seq<FindingId>>)
      requires most >= 1 && index.db == this && BatchOk(b, most)
      requires BatchOrders(b, reports, orders) && IngestAll(b, reports, orders) == Some(Batch(State(), index.rows))
      modifies this, index
      ensures BatchOrders(b, reports + [r], orders')
      ensures IngestAll(b, reports + [r], orders') == if ok then Some(Batch(State(), index.rows)) else None
      ensures ok ==> |evidence| == |old(evidence)| + if created then 1 else 0
    {
      ghost var order;
      IngestAllInv(b, reports, orders, most);
      ok, created, order := IngestFinding(r, index, most);
      IngestedNext(b, reports, orders, r, order);
      orders' := orders + [order];
      if ok {
        assert |evidence.Keys| == |old(evidence).Keys| + if created then 1 else 0;
      }
    }

    method IngestReports(reports: seq<Report>, index: FindingIndex, ghost most: nat)
      returns (ok: bool, added: nat, ghost orders: seq<seq<FindingId>>)
      requires most >= 1 && index.db == this && BatchOk(Batch(State(), index.rows), most)
      modifies this, index
      ensures var b := old(Batch(State(), index.rows));
        BatchOrders(b, reports, orders) && IngestAll(b, reports, orders) == if ok then Some(Batch(State(), index.rows)) else None
      ensures ok ==> added == |evidence| - |old(evidence)|
    {
      ghost var b := Batch(State(), index.rows);
      ok, added, orders := true, 0, [];
      var n := 0;
      while n < |reports| && ok
        invariant n <= |reports| && BatchOrders(b, reports[..n], orders)
        invariant IngestAll(b, reports[..n], orders) == if ok then Some(Batch(State(), index.rows)) else None
        invariant ok ==> added == |evidence| - |old(evidence)|
      {
        var created;
        ok, created, orders := IngestNext(reports[n], index, b, reports[..n], orders, most);
        assert reports[..n + 1] == reports[..n] + [reports[n]];
        added := added + if created then 1 else 0;
        n := n + 1;
      }
      if !ok {
        RefusedBatch(b, reports, n, orders);
        orders := orders + seq(|reports| - n, _ => []);
      } else {
        assert reports[..n] == reports;
      }
    }

    /** ingest_findings: the reports of one batch, in order, with one index; rolled back as a whole if one is refused. */
    method IngestFindings(reports: seq<Report>, ghost most: nat) returns (ok: bool, added: nat, ghost orders: seq<seq<FindingId>>)
      requires most >= 1 && Inv(State(), most)
      modifies this
      ensures Step(old(State()), if ok then Ingested(reports, orders) else Refused(reports, orders), State(), most)
      ensures Inv(State(), most)
      ensures added == |evidence| - |old(evidence)|
    {
      var mapping0, findings0, evidence0, evals0, nextId0 := mapping, findings, evidence, evals, nextId;
      BeginOk(State(), most);
      var index := new FindingIndex(this);
      ok, added, orders := IngestReports(reports, index, most);
      if ok {
        IngestAllInv(Begin(old(State())), reports, orders, most);
      }
      if !ok {
        mapping, findings, evidence, evals, nextId := mapping0, findings0, evidence0, evals0, nextId0;
        added := 0;
      }
    }

    /** One finding's turn: evaluated unless it does not apply, or was evaluated for this run before. */
    method EvaluateFinding(f: FindingId, run: Run, detected: bool, ghost s: Store, ghost todo: set<FindingId>)
      requires Evaluating(s, findings, evals, run, todo) && f in todo && f in s.findings
      requires Verdict(s, f, run) == if detected then Some(Detected) else if f in run.needed then Some(Clean) else None
      modifies this`findings, this`evals
      ensures Evaluating(s, findings, evals, run, todo - {f})
    {
      EvaluateTurn(s, findings, evals, run, todo, f);
      if (f, run.job) !in evals {
        if detected {
          evals := evals[(f, run.job) := Detected];
          findings := findings[f := findings[f].(clean := 0)];
        } else if f in run.needed {
          evals := evals[(f, run.job) := Clean];
          findings := findings[f := Resolve(findings[f].(clean := findings[f].clean + 1), run.needed[f], run.finishedAt)];
        }
      }
    }

    /** finalize_run_lifecycle */
    method Finalize(run: Run)
      requires Numbered(State())
      modifies this
      ensures State() == FindingModel.Finalize(old(State()), run)
    {
      var detected := set k | k in evidence && evidence[k].job == run.job && evidence[k].finding.Some? :: evidence[k].finding.value;
      var candidates := set f | f in findings && (f in detected || findings[f].asset in run.observed);
      ghost var s := State();
      CandidatesOnly(s, run, detected, candidates);
      var todo := candidates;
      while todo != {}
        invariant todo <= candidates
        invariant unchanged(`mapping) && unchanged(`evidence) && unchanged(`nextId)
        invariant Evaluating(s, findings, evals, run, todo)
      {
        var f :| f in todo;
        EvaluateFinding(f, run, f in detected, s, todo);
        todo := todo - {f};
      }
      Evaluated(s, findings, evals, run);
    }

    /** merge_asset_findings for one source asset */
    method MergeAssetFindings(target: AssetId, source: AssetId, ghost most: nat) returns (ghost order: seq<FindingId>)
      requires target != source && Inv(State(), most)
      modifies this
      ensures Enumerates(order, FindingsOf(old(State()), source))
      ensures State() == RehomeAll(old(State()), order, target)
      ensures Inv(State(), most) && forall f :: f in findings ==> findings[f].asset != source
    {
      var donors := set f | f in findings && findings[f].asset == source;
      order := [];
      var todo := donors;
      while todo != {}
        invariant Visiting(order, todo, donors)
        invariant State() == RehomeAll(old(State()), order, target)
        invariant Inv(State(), most) && Rehomed(old(State()), State(), order, target)
        invariant findings.Keys <= old(findings).Keys
        invariant forall f :: f in todo ==> f in findings && findings[f].asset == source
      {
        var donor :| donor in todo;
        RehomeTurn(old(State()), State(), order, donor, target, most);
        Visit(order, todo, donors, donor);
        RehomeOne(donor, target);
        order := order + [donor];
        todo := todo - {donor};
      }
    }

    method RehomeOne(donor: FindingId, target: AssetId)
      requires Unique(State()) && donor in findings && findings[donor].asset != target
      modifies this
      ensures State() == Rehome(old(State()), donor, target)
    {
      var keeper := FindRow(target, findings[donor].vuln);
      if keeper.None? {
        findings := findings[donor := findings[donor].(asset := target)];
        evidence := MoveAll(evidence, donor, donor, target);
      } else {
        MergeDuplicate(keeper.value, donor);
      }
    }
  }
}
