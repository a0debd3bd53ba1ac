/**
 Findings as values: the detector catalogue, the evidence rows, the asset findings and their
 per-run evaluations, and the operations of backend/app/finding_lifecycle.py on them.

 A vulnerability row is identified by its canonical key, which is unique in the database.  Tables
 are maps from primary key to row, so a query without an order may return its rows in any order;
 operations that loop over such a result take that order as an argument.
 */
module FindingModel {
  import opened Options
  import opened Extremes

  type FindingId = nat
  type AssetId = nat
  type JobId = nat
  type EvidenceKey = nat
  type Cve = nat

  datatype Detector = Detector(kind: nat, key: nat)

  // canonical_key: "cve:<id>" or "<detector type>:<detector key>"
  datatype VulnKey = ByCve(cve: Cve) | ByDetector(detector: Detector)

  // detector is None when the report carries no detector key
  datatype Evidence = Evidence(
    job: JobId, detector: Option<Detector>, cves: set<Cve>, asset: Option<AssetId>, finding: Option<FindingId>)

  datatype AssetFinding = AssetFinding(asset: AssetId, vuln: VulnKey, isOpen: bool, resolvedAt: Option<int>, clean: nat)

  datatype Outcome = Detected | Clean

  type Findings = map<FindingId, AssetFinding>

  type Evaluations = map<(FindingId, JobId), Outcome>

  datatype Store = Store(
    mapping: map<Detector, VulnKey>,
    findings: Findings,
    evidence: map<EvidenceKey, Evidence>,
    evals: Evaluations,
    nextId: FindingId)

  const Empty: Store := Store(map[], map[], map[], map[], 0)

  // ---------------------------------------------------------------- queries

  ghost predicate Reported(s: Store, d: Detector) {
    exists k :: k in s.evidence && s.evidence[k].detector == Some(d)
  }

  /** Every CVE the stored evidence of a detector has named. */
  function CvesOf(s: Store, d: Detector): set<Cve> {
    set k, c | k in s.evidence && s.evidence[k].detector == Some(d) && c in s.evidence[k].cves :: c
  }

  /** The canonical key a detector should map to: its only known CVE, or itself. */
  function Desired(cves: set<Cve>, d: Detector): VulnKey {
    if exists c :: c in cves && cves == {c} then
      var c :| c in cves && cves == {c};
      ByCve(c)
    else
      ByDetector(d)
  }

  predicate At(rows: Findings, f: FindingId, a: AssetId, v: VulnKey) {
    f in rows && rows[f].asset == a && rows[f].vuln == v
  }

  /** The finding of an asset and a vulnerability; unique where Unique holds. */
  ghost function Lookup(rows: Findings, a: AssetId, v: VulnKey): (r: Option<FindingId>)
    ensures r.Some? ==> At(rows, r.value, a, v)
    ensures r.None? ==> forall f :: !At(rows, f, a, v)
  {
    if exists f :: At(rows, f, a, v) then
      var f :| At(rows, f, a, v);
      Some(f)
    else
      None
  }

  predicate Attached(s: Store, k: EvidenceKey, f: FindingId) {
    k in s.evidence && s.evidence[k].finding == Some(f)
  }

  predicate Supporting(s: Store, k: EvidenceKey, f: FindingId, d: Detector) {
    Attached(s, k, f) && s.evidence[k].detector == Some(d)
  }

  ghost predicate Supports(s: Store, f: FindingId, d: Detector) {
    exists k :: Supporting(s, k, f, d)
  }

  ghost predicate OtherSupport(s: Store, f: FindingId, d: Detector) {
    exists k :: Attached(s, k, f) && s.evidence[k].detector != Some(d)
  }

  /** The findings a retarget of `d` away from `previous` has to move. */
  ghost function Donors(s: Store, d: Detector, previous: VulnKey): set<FindingId> {
    set f | f in s.findings && s.findings[f].vuln == previous && Supports(s, f, d)
  }

  // ---------------------------------------------------------------- merging and splitting

  function MoveAll(evidence: map<EvidenceKey, Evidence>, donor: FindingId, keeper: FindingId, asset: AssetId)
    : map<EvidenceKey, Evidence>
  {
    map k | k in evidence ::
      if evidence[k].finding == Some(donor) then evidence[k].(finding := Some(keeper), asset := Some(asset)) else evidence[k]
  }

  function MoveDetector(evidence: map<EvidenceKey, Evidence>, donor: FindingId, d: Detector, keeper: FindingId, asset: AssetId)
    : map<EvidenceKey, Evidence>
  {
    map k | k in evidence ::
      if evidence[k].finding == Some(donor) && evidence[k].detector == Some(d)
      then evidence[k].(finding := Some(keeper), asset := Some(asset)) else evidence[k]
  }

  function Later(a: Option<int>, b: Option<int>): Option<int> {
    if a.None? then b else if b.None? then a else Some(Max(a.value, b.value))
  }

  function MergedFinding(keeper: AssetFinding, donor: AssetFinding): AssetFinding {
    if keeper.isOpen || donor.isOpen then
      keeper.(isOpen := true, resolvedAt := None, clean := Min(keeper.clean, donor.clean))
    else
      keeper.(resolvedAt := Later(keeper.resolvedAt, donor.resolvedAt), clean := Max(keeper.clean, donor.clean))
  }

  /** What one donor evaluation does to the keeper's: adopted, adopted over a clean one, or dropped. */
  function AdoptEval(evals: Evaluations, keeper: FindingId, donor: FindingId, job: JobId): Evaluations
    requires (donor, job) in evals
  {
    var rest := evals - {(donor, job)};
    if (keeper, job) !in evals then rest[(keeper, job) := evals[(donor, job)]]
    else if evals[(keeper, job)] != Detected && evals[(donor, job)] == Detected then rest[(keeper, job) := Detected]
    else rest
  }

  function MergedOutcome(evals: Evaluations, keeper: FindingId, donor: FindingId, job: JobId): Option<Outcome> {
    var mine := if (keeper, job) in evals then Some(evals[(keeper, job)]) else None;
    var theirs := if (donor, job) in evals then Some(evals[(donor, job)]) else None;
    if mine.None? || theirs == Some(Detected) then theirs else mine
  }

  function MergedKeys(evals: Evaluations, keeper: FindingId, donor: FindingId): set<(FindingId, JobId)> {
    (set p | p in evals && p.0 != donor) + (set p | p in evals && p.0 == donor :: (keeper, p.1))
  }

  function MergedEvals(evals: Evaluations, keeper: FindingId, donor: FindingId): Evaluations {
    map p | p in MergedKeys(evals, keeper, donor) ::
      if p.0 == keeper && MergedOutcome(evals, keeper, donor, p.1).Some?
      then MergedOutcome(evals, keeper, donor, p.1).value
      else if p in evals then evals[p] else Clean
  }

  /** _merge_duplicate_asset_findings */
  function MergeDuplicate(s: Store, keeper: FindingId, donor: FindingId): Store
    requires keeper in s.findings && donor in s.findings
  {
    s.(findings := s.findings[keeper := MergedFinding(s.findings[keeper], s.findings[donor])] - {donor},
       evidence := MoveAll(s.evidence, donor, keeper, s.findings[keeper].asset),
       evals := MergedEvals(s.evals, keeper, donor))
  }

  function FreshFinding(a: AssetId, v: VulnKey): AssetFinding {
    AssetFinding(a, v, true, None, 0)
  }

  /** The detector's rows leave a donor that keeps other evidence, for `keeper` or for a new finding. */
  function SplitTo(s: Store, donor: FindingId, d: Detector, v: VulnKey, keeper: Option<FindingId>): Store
    requires donor in s.findings && (keeper.Some? ==> keeper.value in s.findings)
  {
    if keeper.None? then
      s.(findings := s.findings[s.nextId := FreshFinding(s.findings[donor].asset, v)],
         evidence := MoveDetector(s.evidence, donor, d, s.nextId, s.findings[donor].asset),
         nextId := s.nextId + 1)
    else
      s.(evidence := MoveDetector(s.evidence, donor, d, keeper.value, s.findings[keeper.value].asset))
  }

  /** partition_asset_finding_for_mapping */
  ghost function Partition(s: Store, donor: FindingId, d: Detector, v: VulnKey): Store
    requires donor in s.findings
  {
    var keeper := Lookup(s.findings, s.findings[donor].asset, v);
    if !Supports(s, donor, d) then
      s
    else if !OtherSupport(s, donor, d) then
      if keeper.None? || keeper.value == donor then s.(findings := s.findings[donor := s.findings[donor].(vuln := v)])
      else MergeDuplicate(s, keeper.value, donor)
    else
      SplitTo(s, donor, d, v, keeper)
  }

  ghost function PartitionAll(s: Store, order: seq<FindingId>, d: Detector, v: VulnKey): Store {
    if order == [] then s
    else
      var rest := PartitionAll(s, order[..|order| - 1], d, v);
      var donor := order[|order| - 1];
      if donor in rest.findings then Partition(rest, donor, d, v) else rest
  }

  ghost predicate Enumerates<T(!new)>(order: seq<T>, rows: set<T>) {
    && |order| == |rows|
    && (forall x :: x in order <==> x in rows)
    && (forall i, j :: 0 <= i < j < |order| ==> order[i] != order[j])
  }

  /** retarget_mapping, visiting the donor rows in `order` */
  ghost function Retarget(s: Store, d: Detector, v: VulnKey, order: seq<FindingId>): Store {
    PartitionAll(s.(mapping := s.mapping[d := v]), order, d, v)
  }

  // ---------------------------------------------------------------- ingest

  datatype Report = Report(key: EvidenceKey, job: JobId, detector: Option<Detector>, cves: set<Cve>, asset: Option<AssetId>)

  /** The rows upsert_detector_catalog's retarget visits for a report, if it retargets at all. */
  ghost function CatalogDonors(s: Store, d: Detector, cves: set<Cve>): set<FindingId> {
    if d in s.mapping && s.mapping[d] != Desired(CvesOf(s, d) + cves, d) then Donors(s, d, s.mapping[d]) else {}
  }

  /** upsert_detector_catalog */
  ghost function UpsertCatalog(s: Store, d: Detector, cves: set<Cve>, order: seq<FindingId>): Store {
    var v := Desired(CvesOf(s, d) + cves, d);
    if d !in s.mapping then s.(mapping := s.mapping[d := v])
    else if s.mapping[d] == v then s
    else Retarget(s, d, v, order)
  }

  function Redetected(row: AssetFinding): AssetFinding {
    if row.isOpen then row.(clean := 0) else row.(isOpen := true, resolvedAt := None, clean := 0)
  }

  /** apply_detection once the existing row, if any, has been found */
  function DetectThrough(s: Store, found: Option<FindingId>, a: AssetId, v: VulnKey): (Store, FindingId)
    requires found.Some? ==> found.value in s.findings
  {
    if found.None? then
      (s.(findings := s.findings[s.nextId := FreshFinding(a, v)], nextId := s.nextId + 1), s.nextId)
    else
      (s.(findings := s.findings[found.value := Redetected(s.findings[found.value])]),
       found.value)
  }

  type Slot = (AssetId, VulnKey)

  /** The asset and vulnerability a report detects once its detector is catalogued, if it detects anything. */
  function Asked(s: Store, r: Report): Option<Slot> {
    if r.detector.None? || r.asset.None? || r.detector.value !in s.mapping then None
    else Some((r.asset.value, s.mapping[r.detector.value]))
  }

  /** The evidence row of a report, with the detection it makes through `found`. */
  function Record(s: Store, r: Report, found: Option<FindingId>): Store
    requires found.Some? ==> found.value in s.findings
  {
    var asked := Asked(s, r);
    if asked.None? then
      s.(evidence := s.evidence[r.key := Evidence(r.job, r.detector, r.cves, r.asset, None)])
    else
      var (s', f) := DetectThrough(s, found, asked.value.0, asked.value.1);
      s'.(evidence := s'.evidence[r.key := Evidence(r.job, r.detector, r.cves, r.asset, Some(f))])
  }

  // ---------------------------------------------------------------- a batch with its index

  /** The findings a batch's index remembers by asset and vulnerability; a retarget does not touch it. */
  type Cache = map<Slot, FindingId>

  datatype Batch = Batch(store: Store, cache: Cache)

  /** asset_finding_for: the remembered row, whatever it is titled by now, else the queried one. */
  ghost function CachedLookup(b: Batch, slot: Slot): Option<FindingId> {
    if slot in b.cache then Some(b.cache[slot]) else Lookup(b.store.findings, slot.0, slot.1)
  }

  /** The row that recorded `key` is remembered under the slot asked for and under its own. */
  function Remembered(cache: Cache, s: Store, asked: Slot, f: FindingId): Cache {
    if f in s.findings then cache[asked := f][(s.findings[f].asset, s.findings[f].vuln) := f] else cache
  }

  /** A report's record in a batch; None where the remembered row is gone and the foreign key refuses its evidence. */
  ghost function RecordIn(b: Batch, r: Report): Option<Batch> {
    var asked := Asked(b.store, r);
    if asked.None? then Some(Batch(Record(b.store, r, None), b.cache))
    else
      var found := CachedLookup(b, asked.value);
      if found.Some? && found.value !in b.store.findings then None
      else
        var s' := Record(b.store, r, found);
        Some(Batch(s', Remembered(b.cache, s', asked.value, if found.Some? then found.value else b.store.nextId)))
  }

  /** The store a report is recorded in, with its detector catalogued. */
  ghost function Prepared(s: Store, r: Report, order: seq<FindingId>): Store {
    if r.detector.None? then s else UpsertCatalog(s, r.detector.value, r.cves, order)
  }

  /** One report of ingest_findings */
  ghost function Ingest(b: Batch, r: Report, order: seq<FindingId>): Option<Batch> {
    if r.key in b.store.evidence then Some(b)
    else RecordIn(b.(store := Prepared(b.store, r, order)), r)
  }

  /** ingest_findings; None where a report is refused, and with it the transaction. */
  ghost function IngestAll(b: Batch, reports: seq<Report>, orders: seq<seq<FindingId>>): Option<Batch>
    requires |orders| == |reports|
  {
    if reports == [] then Some(b)
    else
      var n := |reports| - 1;
      var before := IngestAll(b, reports[..n], orders[..n]);
      if before.None? then None else Ingest(before.value, reports[n], orders[n])
  }

  function Begin(s: Store): Batch { Batch(s, map[]) }

  // ---------------------------------------------------------------- finalization

  /** A finished run: what it observed, the findings it was able to re-check with the clean scans each needs, and when it finished. */
  datatype Run = Run(job: JobId, observed: set<AssetId>, needed: map<FindingId, nat>, finishedAt: int)

  ghost predicate DetectedBy(s: Store, f: FindingId, job: JobId) {
    exists k :: Attached(s, k, f) && s.evidence[k].job == job
  }

  /** The outcome finalize_run_lifecycle records for a finding, if any. */
  ghost function Verdict(s: Store, f: FindingId, run: Run): Option<Outcome>
    requires f in s.findings
  {
    if DetectedBy(s, f, run.job) then Some(Detected)
    else if s.findings[f].asset in run.observed && f in run.needed then Some(Clean)
    else None
  }

  function Resolve(row: AssetFinding, needed: nat, at: int): AssetFinding {
    if row.isOpen && row.clean >= needed then row.(isOpen := false, resolvedAt := Some(at)) else row
  }

  ghost function FinalFinding(s: Store, f: FindingId, run: Run): AssetFinding
    requires f in s.findings
  {
    var row := s.findings[f];
    if (f, run.job) in s.evals then row
    else match Verdict(s, f, run)
      case None => row
      case Some(Detected) => row.(clean := 0)
      case Some(Clean) => Resolve(row.(clean := row.clean + 1), run.needed[f], run.finishedAt)
  }

  ghost function NewlyEvaluated(s: Store, run: Run): set<FindingId> {
    set f | f in s.findings && (f, run.job) !in s.evals && Verdict(s, f, run).Some?
  }

  ghost function NewEvals(s: Store, run: Run): Evaluations {
    var newly := NewlyEvaluated(s, run);
    map p | p in (set f | f in newly :: (f, run.job)) :: Verdict(s, p.0, run).value
  }

  /** finalize_run_lifecycle */
  ghost function Finalize(s: Store, run: Run): Store {
    s.(findings := map f | f in s.findings :: FinalFinding(s, f, run),
       evals := s.evals + NewEvals(s, run))
  }

  // ---------------------------------------------------------------- asset merges

  /** One donor of merge_asset_findings */
  ghost function Rehome(s: Store, donor: FindingId, target: AssetId): Store
    requires donor in s.findings && s.findings[donor].asset != target
  {
    var keeper := Lookup(s.findings, target, s.findings[donor].vuln);
    if keeper.None? then
      s.(findings := s.findings[donor := s.findings[donor].(asset := target)],
         evidence := MoveAll(s.evidence, donor, donor, target))
    else
      MergeDuplicate(s, keeper.value, donor)
  }

  /** merge_asset_findings for one source asset, visiting its findings in `order` */
  ghost function RehomeAll(s: Store, order: seq<FindingId>, target: AssetId): Store {
    if order == [] then s
    else
      var rest := RehomeAll(s, order[..|order| - 1], target);
      var donor := order[|order| - 1];
      if donor in rest.findings && rest.findings[donor].asset != target then Rehome(rest, donor, target) else rest
  }

  ghost function FindingsOf(s: Store, a: AssetId): set<FindingId> {
    set f | f in s.findings && s.findings[f].asset == a
  }
}
