/**
 When findings resolve.  Beside every history runs a ledger of the runs each finding's clean-scan
 counter stands for, carried through detections, finalizations, retargets, splits and merges.
 */
module FindingCounts {
  import opened Options
  import opened FindingModel
  import opened FindingInvariant
  import opened FindingBatches
  import opened FindingRuns

  /**
   The runs that evaluated a finding clean since it was last reset, and whether a merge has joined
   its evaluations with another finding's since.
   */
  datatype Tally = Tally(runs: set<JobId>, joined: bool)

  type Ledger = map<FindingId, Tally>

  const NoRuns: Tally := Tally({}, false)

  function TallyOf(l: Ledger, f: FindingId): Tally {
    if f in l then l[f] else NoRuns
  }

  // ---------------------------------------------------------------- what each operation does to the ledger

  /** The merged finding takes over the runs of the side whose count is kept. */
  function MergeLedger(s: Store, l: Ledger, keeper: FindingId, donor: FindingId): Ledger
    requires keeper in s.findings && donor in s.findings
  {
    var merged := MergedFinding(s.findings[keeper], s.findings[donor]);
    var side := if merged.clean == s.findings[keeper].clean then keeper else donor;
    l[keeper := Tally(TallyOf(l, side).runs, true)]
  }

  /** A retitled finding and both sides of a split keep their runs; a finding made by a split starts with none. */
  ghost function PartitionLedger(s: Store, l: Ledger, donor: FindingId, d: Detector, v: VulnKey): Ledger
    requires donor in s.findings
  {
    var keeper := Lookup(s.findings, s.findings[donor].asset, v);
    if !Supports(s, donor, d) then l
    else if !OtherSupport(s, donor, d) then
      if keeper.None? || keeper.value == donor then l else MergeLedger(s, l, keeper.value, donor)
    else if keeper.None? then l[s.nextId := NoRuns]
    else l
  }

  ghost function PartitionAllLedger(s: Store, l: Ledger, order: seq<FindingId>, d: Detector, v: VulnKey): Ledger {
    if order == [] then l
    else
      var rest, donor := PartitionAll(s, order[..|order| - 1], d, v), order[|order| - 1];
      var before := PartitionAllLedger(s, l, order[..|order| - 1], d, v);
      if donor in rest.findings then PartitionLedger(rest, before, donor, d, v) else before
  }

  ghost function CatalogLedger(s: Store, l: Ledger, d: Detector, cves: set<Cve>, order: seq<FindingId>): Ledger {
    var v := Desired(CvesOf(s, d) + cves, d);
    if d !in s.mapping || s.mapping[d] == v then l
    else PartitionAllLedger(s.(mapping := s.mapping[d := v]), l, order, d, v)
  }

  ghost function PreparedLedger(s: Store, l: Ledger, r: Report, order: seq<FindingId>): Ledger {
    if r.detector.None? then l else CatalogLedger(s, l, r.detector.value, r.cves, order)
  }

  /** The finding a new report detects is reset. */
  ghost function IngestLedger(b: Batch, l: Ledger, r: Report, order: seq<FindingId>): Ledger {
    if r.key in b.store.evidence || Ingest(b, r, order).None? then l
    else ResetFor(PreparedLedger(b.store, l, r, order), Ingest(b, r, order).value.store, r.key)
  }

  ghost function ResetFor(l: Ledger, s: Store, key: EvidenceKey): Ledger {
    if key in s.evidence && s.evidence[key].finding.Some? then l[s.evidence[key].finding.value := NoRuns] else l
  }

  ghost function IngestAllLedger(b: Batch, l: Ledger, reports: seq<Report>, orders: seq<seq<FindingId>>): Ledger
    requires |orders| == |reports|
  {
    if reports == [] then l
    else
      var n := |reports| - 1;
      var before := IngestAll(b, reports[..n], orders[..n]);
      var ledger := IngestAllLedger(b, l, reports[..n], orders[..n]);
      if before.None? then ledger else IngestLedger(before.value, ledger, reports[n], orders[n])
  }

  /** A clean verdict adds the run, a detected one resets, and a run that does not apply does neither. */
  ghost function RunTally(s: Store, t: Tally, f: FindingId, run: Run): Tally
    requires f in s.findings
  {
    if (f, run.job) in s.evals then t
    else match Verdict(s, f, run)
      case None => t
      case Some(Detected) => NoRuns
      case Some(Clean) => t.(runs := t.runs + {run.job})
  }

  ghost function FinishLedger(s: Store, l: Ledger, run: Run): Ledger {
    map f | f in s.findings :: RunTally(s, TallyOf(l, f), f, run)
  }

  ghost function RehomeAllLedger(s: Store, l: Ledger, order: seq<FindingId>, target: AssetId): Ledger {
    if order == [] then l
    else
      var rest, donor := RehomeAll(s, order[..|order| - 1], target), order[|order| - 1];
      var before := RehomeAllLedger(s, l, order[..|order| - 1], target);
      if donor in rest.findings && rest.findings[donor].asset != target then
        var keeper := Lookup(rest.findings, target, rest.findings[donor].vuln);
        if keeper.None? then before else MergeLedger(rest, before, keeper.value, donor)
      else before
  }

  ghost function StepLedger(s: Store, l: Ledger, e: Event): Ledger {
    match e
    case Ingested(reports, orders) => if |orders| == |reports| then IngestAllLedger(Begin(s), l, reports, orders) else l
    case Refused(_, _) => l
    case Finished(run) => FinishLedger(s, l, run)
    case AssetsMerged(_, target, order) => RehomeAllLedger(s, l, order, target)
  }

  ghost function LedgerOf(states: seq<Store>, events: seq<Event>): Ledger
    requires |states| == |events| + 1
    decreases |events|
  {
    if events == [] then map[]
    else StepLedger(states[|events| - 1], LedgerOf(states[..|events|], events[..|events| - 1]), events[|events| - 1])
  }

  // ---------------------------------------------------------------- the counter counts the ledger

  /** The counter is the number of runs; each was evaluated, and clean unless a merge joined it with a detection. */
  ghost predicate CountedAt(s: Store, f: FindingId, t: Tally)
    requires f in s.findings
  {
    && s.findings[f].clean == |t.runs|
    && forall j :: j in t.runs ==> (f, j) in s.evals && (t.joined || s.evals[(f, j)] == Clean)
  }

  ghost predicate Counted(s: Store, l: Ledger) {
    forall f :: f in s.findings ==> CountedAt(s, f, TallyOf(l, f))
  }

  lemma MergeCounted(s: Store, l: Ledger, keeper: FindingId, donor: FindingId)
    requires Counted(s, l) && keeper in s.findings && donor in s.findings && keeper != donor
    ensures Counted(MergeDuplicate(s, keeper, donor), MergeLedger(s, l, keeper, donor))
  {
    var s', l' := MergeDuplicate(s, keeper, donor), MergeLedger(s, l, keeper, donor);
    forall f | f in s'.findings ensures CountedAt(s', f, TallyOf(l', f)) {
      assert CountedAt(s, f, TallyOf(l, f)) && CountedAt(s, donor, TallyOf(l, donor));
      forall j | j in TallyOf(l', f).runs
        ensures (f, j) in s'.evals && (f != keeper ==> (f, j) in s.evals && s'.evals[(f, j)] == s.evals[(f, j)])
      {
        MergedEvalsAt(s.evals, keeper, donor, f, j);
      }
    }
  }

  lemma PartitionCounted(s: Store, l: Ledger, donor: FindingId, d: Detector, v: VulnKey)
    requires Counted(s, l) && donor in s.findings && Numbered(s)
    ensures Counted(Partition(s, donor, d, v), PartitionLedger(s, l, donor, d, v))
  {
    var keeper := Lookup(s.findings, s.findings[donor].asset, v);
    if Supports(s, donor, d) && !OtherSupport(s, donor, d) && keeper.Some? && keeper.value != donor {
      MergeCounted(s, l, keeper.value, donor);
    } else {
      var s', l' := Partition(s, donor, d, v), PartitionLedger(s, l, donor, d, v);
      forall f | f in s'.findings ensures CountedAt(s', f, TallyOf(l', f)) {
        assert f in s.findings ==> CountedAt(s, f, TallyOf(l, f));
      }
    }
  }

  lemma {:induction false} PartitionAllCounted(
    s: Store, l: Ledger, order: seq<FindingId>, d: Detector, previous: VulnKey, v: VulnKey, todo: set<FindingId>, most: nat)
    requires most >= 1 && Counted(s, l) && Moving(s, d, previous, v, todo, most)
    requires forall i :: 0 <= i < |order| ==> order[i] in todo
    requires forall i, j :: 0 <= i < j < |order| ==> order[i] != order[j]
    ensures Counted(PartitionAll(s, order, d, v), PartitionAllLedger(s, l, order, d, v))
  {
    if order != [] {
      var front, donor := order[..|order| - 1], order[|order| - 1];
      PartitionAllCounted(s, l, front, d, previous, v, todo, most);
      PartitionAllSound(s, front, d, previous, v, todo, most);
      var rest := PartitionAll(s, front, d, v);
      if donor in rest.findings {
        PartitionCounted(rest, PartitionAllLedger(s, l, front, d, v), donor, d, v);
      }
    }
  }

  lemma CatalogCounted(s: Store, l: Ledger, d: Detector, cves: set<Cve>, order: seq<FindingId>, most: nat)
    requires most >= 1 && Inv(s, most) && Counted(s, l) && Enumerates(order, CatalogDonors(s, d, cves))
    ensures Counted(UpsertCatalog(s, d, cves, order), CatalogLedger(s, l, d, cves, order))
  {
    var v := Desired(CvesOf(s, d) + cves, d);
    if d in s.mapping && s.mapping[d] != v {
      RetargetStart(s, d, v, most);
      var s0 := s.(mapping := s.mapping[d := v]);
      assert Counted(s0, l) by {
        forall f | f in s0.findings ensures CountedAt(s0, f, TallyOf(l, f)) {
          assert CountedAt(s, f, TallyOf(l, f));
        }
      }
      PartitionAllCounted(s0, l, order, d, s.mapping[d], v, Donors(s, d, s.mapping[d]), most);
    } else {
      var s' := UpsertCatalog(s, d, cves, order);
      forall f | f in s'.findings ensures CountedAt(s', f, TallyOf(l, f)) {
        assert CountedAt(s, f, TallyOf(l, f));
      }
    }
  }

  /** A record opens and resets the finding its evidence goes to, and touches no other. */
  lemma RecordedRows(b: Batch, r: Report, most: nat)
    requires most >= 1 && Sound(b.store, most) && CacheOk(b) && r.key !in b.store.evidence && RecordIn(b, r).Some?
    ensures var s, s' := b.store, RecordIn(b, r).value.store;
      && s'.evals == s.evals && r.key in s'.evidence
      && (forall f :: f in s.findings ==> f in s'.findings)
      && (forall f :: f in s'.findings && s'.evidence[r.key].finding == Some(f) ==> s'.findings[f].isOpen && s'.findings[f].clean == 0)
      && (forall f :: f in s'.findings && s'.evidence[r.key].finding != Some(f) ==> f in s.findings && s'.findings[f] == s.findings[f])
  {
    var asked := Asked(b.store, r);
    if asked.Some? {
      CachedUsable(b, r);
      DetectionSound(b.store, CachedLookup(b, asked.value), asked.value.0, asked.value.1, most);
    }
  }

  lemma RecordCounted(b: Batch, l: Ledger, r: Report, most: nat)
    requires most >= 1 && Sound(b.store, most) && CacheOk(b) && r.key !in b.store.evidence && RecordIn(b, r).Some?
    requires Counted(b.store, l)
    ensures var s' := RecordIn(b, r).value.store; Counted(s', ResetFor(l, s', r.key))
  {
    RecordedRows(b, r, most);
    var s' := RecordIn(b, r).value.store;
    var l' := ResetFor(l, s', r.key);
    forall g | g in s'.findings ensures CountedAt(s', g, TallyOf(l', g)) {
      if s'.evidence[r.key].finding != Some(g) {
        assert CountedAt(b.store, g, TallyOf(l, g));
      }
    }
  }

  lemma PreparedCounted(b: Batch, l: Ledger, r: Report, order: seq<FindingId>, most: nat)
    requires most >= 1 && BatchOk(b, most) && IngestOrder(b.store, r, order) && Counted(b.store, l)
    requires r.key !in b.store.evidence
    ensures Counted(Prepared(b.store, r, order), PreparedLedger(b.store, l, r, order))
  {
    if r.detector.Some? {
      CatalogCounted(b.store, l, r.detector.value, r.cves, order, most);
    }
  }

  lemma IngestCounted(b: Batch, l: Ledger, r: Report, order: seq<FindingId>, most: nat)
    requires most >= 1 && BatchOk(b, most) && IngestOrder(b.store, r, order) && Counted(b.store, l)
    requires Ingest(b, r, order).Some?
    ensures Counted(Ingest(b, r, order).value.store, IngestLedger(b, l, r, order))
  {
    if r.key !in b.store.evidence {
      PreparedSound(b.store, r, order, most);
      CacheMoves(b, Prepared(b.store, r, order));
      PreparedCounted(b, l, r, order, most);
      RecordCounted(b.(store := Prepared(b.store, r, order)), PreparedLedger(b.store, l, r, order), r, most);
    }
  }

  lemma {:induction false} IngestAllCounted(b: Batch, l: Ledger, reports: seq<Report>, orders: seq<seq<FindingId>>, most: nat)
    requires most >= 1 && BatchOk(b, most) && BatchOrders(b, reports, orders) && Counted(b.store, l)
    requires IngestAll(b, reports, orders).Some?
    ensures Counted(IngestAll(b, reports, orders).value.store, IngestAllLedger(b, l, reports, orders))
  {
    if reports != [] {
      var n := |reports| - 1;
      IngestAllCounted(b, l, reports[..n], orders[..n], most);
      IngestAllInv(b, reports[..n], orders[..n], most);
      IngestCounted(
        IngestAll(b, reports[..n], orders[..n]).value, IngestAllLedger(b, l, reports[..n], orders[..n]), reports[n], orders[n], most);
    }
  }

  lemma FinishEvals(s: Store, run: Run, f: FindingId)
    requires f in s.findings
    ensures forall j :: (f, j) in s.evals ==> Has(Finalize(s, run).evals, f, j, s.evals[(f, j)])
    ensures (f, run.job) !in s.evals && Verdict(s, f, run).Some? ==> Has(Finalize(s, run).evals, f, run.job, Verdict(s, f, run).value)
  {
    NewEvalsAt(s, run, f, run.job);
    forall j | (f, j) in s.evals ensures (f, j) !in NewEvals(s, run) {
      NewEvalsAt(s, run, f, j);
    }
  }

  lemma FinishClean(s: Store, t: Tally, f: FindingId, run: Run)
    requires f in s.findings && s.findings[f].clean == |t.runs| && ((f, run.job) !in s.evals ==> run.job !in t.runs)
    ensures FinalFinding(s, f, run).clean == |RunTally(s, t, f, run).runs|
  {
  }

  lemma FinishCountedAt(s: Store, t: Tally, f: FindingId, run: Run)
    requires f in s.findings && CountedAt(s, f, t)
    ensures CountedAt(Finalize(s, run), f, RunTally(s, t, f, run))
  {
    FinishClean(s, t, f, run);
    FinishEvals(s, run, f);
    forall j | j in RunTally(s, t, f, run).runs
      ensures Has(Finalize(s, run).evals, f, j, if j in t.runs then s.evals[(f, j)] else Clean)
    {
    }
  }

  lemma FinishCounted(s: Store, l: Ledger, run: Run)
    requires Counted(s, l)
    ensures Counted(Finalize(s, run), FinishLedger(s, l, run))
  {
    forall f | f in s.findings ensures CountedAt(Finalize(s, run), f, TallyOf(FinishLedger(s, l, run), f)) {
      FinishCountedAt(s, TallyOf(l, f), f, run);
    }
  }

  lemma {:induction false} RehomeAllCounted(s: Store, l: Ledger, order: seq<FindingId>, target: AssetId, most: nat)
    requires Inv(s, most) && Counted(s, l)
    ensures Counted(RehomeAll(s, order, target), RehomeAllLedger(s, l, order, target))
  {
    if order != [] {
      var front, donor := order[..|order| - 1], order[|order| - 1];
      RehomeAllCounted(s, l, front, target, most);
      var rest, before := RehomeAll(s, front, target), RehomeAllLedger(s, l, front, target);
      if donor in rest.findings && rest.findings[donor].asset != target {
        var keeper := Lookup(rest.findings, target, rest.findings[donor].vuln);
        if keeper.Some? {
          MergeCounted(rest, before, keeper.value, donor);
        } else {
          var s' := Rehome(rest, donor, target);
          forall f | f in s'.findings ensures CountedAt(s', f, TallyOf(before, f)) {
            assert CountedAt(rest, f, TallyOf(before, f));
          }
        }
      }
    }
  }

  lemma BatchCounted(s: Store, l: Ledger, reports: seq<Report>, orders: seq<seq<FindingId>>, most: nat)
    requires most >= 1 && Inv(s, most) && Counted(s, l)
    requires BatchOrders(Begin(s), reports, orders) && IngestAll(Begin(s), reports, orders).Some?
    ensures Counted(IngestAll(Begin(s), reports, orders).value.store, IngestAllLedger(Begin(s), l, reports, orders))
  {
    IngestAllCounted(Begin(s), l, reports, orders, most);
  }

  lemma StepCounted(s: Store, l: Ledger, e: Event, s': Store, most: nat)
    requires most >= 1 && Inv(s, most) && Step(s, e, s', most) && Counted(s, l)
    ensures Counted(s', StepLedger(s, l, e))
  {
    match e
    case Ingested(reports, orders) => BatchCounted(s, l, reports, orders, most);
    case Refused(_, _) =>
    case Finished(run) => FinishCounted(s, l, run);
    case AssetsMerged(source, target, order) => RehomeAllCounted(s, l, order, target, most);
  }

  /** Over every history each counter is the number of distinct clean runs since the finding's last reset. */
  lemma {:induction false} CounterIsCleanRuns(states: seq<Store>, events: seq<Event>, most: nat)
    requires most >= 1 && History(states, events, most)
    ensures Counted(Last(states), LedgerOf(states, events))
  {
    if events != [] {
      var n := |events| - 1;
      CounterIsCleanRuns(states[..n + 1], events[..n], most);
      LastStep(states, events, most);
      StepCounted(states[n], LedgerOf(states[..n + 1], events[..n]), events[n], states[n + 1], most);
    }
  }

  // ---------------------------------------------------------------- resolution

  /** Every finding resolved now was resolved before, with the same identity. */
  ghost predicate NothingResolves(s: Store, s': Store) {
    forall f :: f in s'.findings && !s'.findings[f].isOpen ==> f in s.findings && !s.findings[f].isOpen
  }

  lemma PartitionResolvesNothing(s: Store, donor: FindingId, d: Detector, v: VulnKey)
    requires donor in s.findings
    ensures NothingResolves(s, Partition(s, donor, d, v))
  {
  }

  lemma {:induction false} PartitionAllResolvesNothing(s: Store, order: seq<FindingId>, d: Detector, v: VulnKey)
    ensures NothingResolves(s, PartitionAll(s, order, d, v))
  {
    if order != [] {
      var rest, donor := PartitionAll(s, order[..|order| - 1], d, v), order[|order| - 1];
      PartitionAllResolvesNothing(s, order[..|order| - 1], d, v);
      if donor in rest.findings {
        PartitionResolvesNothing(rest, donor, d, v);
      }
    }
  }

  lemma {:induction false} RehomeAllResolvesNothing(s: Store, order: seq<FindingId>, target: AssetId)
    ensures NothingResolves(s, RehomeAll(s, order, target))
  {
    if order != [] {
      RehomeAllResolvesNothing(s, order[..|order| - 1], target);
    }
  }

  lemma CatalogResolvesNothing(s: Store, d: Detector, cves: set<Cve>, order: seq<FindingId>)
    ensures NothingResolves(s, UpsertCatalog(s, d, cves, order))
  {
    var v := Desired(CvesOf(s, d) + cves, d);
    PartitionAllResolvesNothing(s.(mapping := s.mapping[d := v]), order, d, v);
  }

  lemma RecordResolvesNothing(b: Batch, r: Report)
    requires RecordIn(b, r).Some?
    ensures NothingResolves(b.store, RecordIn(b, r).value.store)
  {
  }

  lemma IngestResolvesNothing(b: Batch, r: Report, order: seq<FindingId>)
    requires Ingest(b, r, order).Some?
    ensures NothingResolves(b.store, Ingest(b, r, order).value.store)
  {
    if r.key !in b.store.evidence {
      if r.detector.Some? {
        CatalogResolvesNothing(b.store, r.detector.value, r.cves, order);
      }
      RecordResolvesNothing(b.(store := Prepared(b.store, r, order)), r);
    }
  }

  lemma {:induction false} IngestAllResolvesNothing(b: Batch, reports: seq<Report>, orders: seq<seq<FindingId>>)
    requires |orders| == |reports| && IngestAll(b, reports, orders).Some?
    ensures NothingResolves(b.store, IngestAll(b, reports, orders).value.store)
  {
    if reports != [] {
      var n := |reports| - 1;
      IngestAllResolvesNothing(b, reports[..n], orders[..n]);
      IngestResolvesNothing(IngestAll(b, reports[..n], orders[..n]).value, reports[n], orders[n]);
    }
  }

  /** The step turns `f` resolved: it is resolved after, and was open or did not exist before. */
  ghost predicate TurnsResolved(s: Store, s': Store, f: FindingId) {
    f in s'.findings && !s'.findings[f].isOpen && (f in s.findings ==> s.findings[f].isOpen)
  }

  lemma FinishVerdict(s: Store, run: Run, most: nat, f: FindingId)
    requires f in s.findings && RowOk(s.findings[f], most) && s.findings[f].isOpen
    ensures var row := FinalFinding(s, f, run);
      && (!row.isOpen <==> (f, run.job) !in s.evals && Verdict(s, f, run) == Some(Clean) && row.clean >= run.needed[f])
      && (!row.isOpen ==> row.clean <= most && row.resolvedAt == Some(run.finishedAt))
  {
  }

  lemma FinishTurns(s: Store, run: Run, most: nat, f: FindingId)
    requires f in s.findings && RowOk(s.findings[f], most)
    ensures var s' := Finalize(s, run);
      && (TurnsResolved(s, s', f) <==>
          s.findings[f].isOpen && (f, run.job) !in s.evals && Verdict(s, f, run) == Some(Clean) && s'.findings[f].clean >= run.needed[f])
      && (TurnsResolved(s, s', f) ==> s'.findings[f].clean <= most && s'.findings[f].resolvedAt == Some(run.finishedAt))
  {
    if s.findings[f].isOpen {
      FinishVerdict(s, run, most, f);
    }
  }

  /** No other step resolves anything. */
  lemma OthersTurnNothing(s: Store, e: Event, s': Store, most: nat, f: FindingId)
    requires Step(s, e, s', most) && !e.Finished?
    ensures !TurnsResolved(s, s', f)
  {
    match e
    case Ingested(reports, orders) => IngestAllResolvesNothing(Begin(s), reports, orders);
    case Refused(_, _) =>
    case AssetsMerged(_, target, order) => RehomeAllResolvesNothing(s, order, target);
  }

  lemma CountAndRow(states: seq<Store>, events: seq<Event>, most: nat, f: FindingId)
    requires most >= 1 && History(states, events, most) && f in Last(states).findings
    ensures Last(states).findings[f].clean == |TallyOf(LedgerOf(states, events), f).runs| && RowOk(Last(states).findings[f], most)
    ensures forall j :: j in TallyOf(LedgerOf(states, events), f).runs ==> (f, j) in Last(states).evals
  {
    HistoryInv(states, events, most);
    CounterIsCleanRuns(states, events, most);
    assert CountedAt(Last(states), f, TallyOf(LedgerOf(states, events), f));
  }

  /**
   Over every history: a step turns a finding resolved exactly when it finishes a run that evaluates
   the open finding clean for the first time, and its distinct clean runs since the last reset come to
   at least what the run needs for it.  An open finding has fewer than the most any run needs, so if
   they all need the same number the resolving run is exactly that clean run.
   */
  lemma ResolvesExactlyAtThreshold(states: seq<Store>, events: seq<Event>, most: nat, f: FindingId)
    requires most >= 1 && History(states, events, most) && events != []
    requires f in Last(states).findings
    ensures var s, s', e, runs := states[|events| - 1], Last(states), events[|events| - 1], TallyOf(LedgerOf(states, events), f).runs;
      && (TurnsResolved(s, s', f) <==>
          e.Finished? && f in s.findings && s.findings[f].isOpen
          && (f, e.run.job) !in s.evals && Verdict(s, f, e.run) == Some(Clean) && |runs| >= e.run.needed[f])
      && (s'.findings[f].isOpen ==> |runs| < most)
      && (TurnsResolved(s, s', f) ==> e.run.job in runs && |runs| <= most && s'.findings[f].resolvedAt == Some(e.run.finishedAt))
  {
    var n := |events| - 1;
    var s, s' := states[n], states[n + 1];
    LastStep(states, events, most);
    CountAndRow(states, events, most, f);
    if events[n].Finished? {
      assert RowOk(s.findings[f], most);
      FinishTurns(s, events[n].run, most, f);
    } else {
      OthersTurnNothing(s, events[n], s', most, f);
    }
  }
}
