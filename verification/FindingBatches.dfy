/**
 Batches of reports.  A batch's index remembers which finding is at an asset and vulnerability, and a
 retarget in the same batch does not tell it when a finding is retitled or merged away.  Here is what
 a batch keeps in spite of that, and exactly when it does what asking the database each time would do.
 */
module FindingBatches {
  import opened Options
  import opened FindingModel
  import opened FindingInvariant

  /** What a batch remembers are rows of the right asset, if they still exist, and their numbers are not given out again. */
  ghost predicate CacheOk(b: Batch) {
    forall slot :: slot in b.cache ==>
      b.cache[slot] < b.store.nextId && (b.cache[slot] in b.store.findings ==> b.store.findings[b.cache[slot]].asset == slot.0)
  }

  ghost predicate BatchOk(b: Batch, most: nat) {
    Inv(b.store, most) && CacheOk(b)
  }

  lemma CacheMoves(b: Batch, s': Store)
    requires CacheOk(b) && SameAssets(b.store, s')
    ensures CacheOk(Batch(s', b.cache))
  {
  }

  lemma PreparedSound(s: Store, r: Report, order: seq<FindingId>, most: nat)
    requires most >= 1 && Inv(s, most) && IngestOrder(s, r, order) && r.key !in s.evidence
    ensures var s1 := Prepared(s, r, order);
      && Sound(s1, most) && Conserved(s, s1) && SameAssets(s, s1) && CataloguedFor(s1, r.detector, r.cves)
      && (Linked(s) ==> Linked(s1))
  {
    if r.detector.Some? {
      var d := r.detector.value;
      UpsertSound(s, d, r.cves, order, most);
      var s1 := UpsertCatalog(s, d, r.cves, order);
      CataloguedElsewhere(s, s1, d);
      ConservedCves(s, s1, d);
    } else {
      forall k | k in s.evidence ensures SameRow(s.evidence[k], s.evidence[k]) {
      }
    }
  }

  // ---------------------------------------------------------------- one record

  /** The slot asked for is not remembered, or remembered as the row that is there. */
  ghost predicate AsksFresh(b: Batch, r: Report) {
    var asked := Asked(b.store, r);
    asked.Some? && asked.value in b.cache ==> At(b.store.findings, b.cache[asked.value], asked.value.0, asked.value.1)
  }

  lemma CachedUsable(b: Batch, r: Report)
    requires CacheOk(b) && RecordIn(b, r).Some? && Asked(b.store, r).Some?
    ensures var found := CachedLookup(b, Asked(b.store, r).value);
      && Finds(b.store, r, found) && (found.Some? ==> found.value in b.store.findings)
      && (TitledAsAsked(b.store, r, found) <==> AsksFresh(b, r))
  {
  }

  lemma RecordKeepsCache(b: Batch, r: Report, most: nat)
    requires most >= 1 && Sound(b.store, most) && CacheOk(b) && RecordIn(b, r).Some?
    ensures CacheOk(RecordIn(b, r).value)
  {
    var asked := Asked(b.store, r);
    if asked.Some? {
      var found := CachedLookup(b, asked.value);
      CachedUsable(b, r);
      DetectionSound(b.store, found, asked.value.0, asked.value.1, most);
      CacheMoves(b, Record(b.store, r, found));
    }
  }

  /** One record in a batch keeps the invariant, and the links exactly if the slot it asks for is fresh. */
  lemma RecordInBatch(b: Batch, r: Report, most: nat)
    requires most >= 1 && Sound(b.store, most) && CacheOk(b)
    requires CataloguedFor(b.store, r.detector, r.cves) && r.key !in b.store.evidence && RecordIn(b, r).Some?
    ensures var b' := RecordIn(b, r).value;
      BatchOk(b', most) && (Linked(b'.store) <==> Linked(b.store) && AsksFresh(b, r))
  {
    RecordKeepsCache(b, r, most);
    if Asked(b.store, r).None? {
      RecordInv(b.store, r, None, most);
    } else {
      CachedUsable(b, r);
      RecordInv(b.store, r, CachedLookup(b, Asked(b.store, r).value), most);
    }
  }

  /** A report is known already, or asks for a fresh slot once its detector is catalogued. */
  ghost predicate IngestsFresh(b: Batch, r: Report, order: seq<FindingId>) {
    r.key in b.store.evidence || AsksFresh(b.(store := Prepared(b.store, r, order)), r)
  }

  /** One report of a batch. */
  lemma IngestInv(b: Batch, r: Report, order: seq<FindingId>, most: nat)
    requires most >= 1 && BatchOk(b, most) && IngestOrder(b.store, r, order) && Ingest(b, r, order).Some?
    ensures var b' := Ingest(b, r, order).value;
      && BatchOk(b', most)
      && (Linked(b.store) && IngestsFresh(b, r, order) ==> Linked(b'.store))
      && (Linked(b'.store) ==> IngestsFresh(b, r, order))
  {
    if r.key !in b.store.evidence {
      PreparedSound(b.store, r, order, most);
      CacheMoves(b, Prepared(b.store, r, order));
      RecordInBatch(b.(store := Prepared(b.store, r, order)), r, most);
    }
  }

  // ---------------------------------------------------------------- whole batches

  /** Each report's retarget visits its donors in some order. */
  ghost predicate BatchOrders(b: Batch, reports: seq<Report>, orders: seq<seq<FindingId>>) {
    |orders| == |reports|
    && (reports != [] ==>
          var n := |reports| - 1;
          var before := IngestAll(b, reports[..n], orders[..n]);
          BatchOrders(b, reports[..n], orders[..n]) && (before.Some? ==> IngestOrder(before.value.store, reports[n], orders[n])))
  }

  /** Every report of the batch asks for a fresh slot. */
  ghost predicate AllFresh(b: Batch, reports: seq<Report>, orders: seq<seq<FindingId>>)
    requires |orders| == |reports|
  {
    reports == [] ||
    (var n := |reports| - 1;
     var before := IngestAll(b, reports[..n], orders[..n]);
     AllFresh(b, reports[..n], orders[..n]) && (before.Some? ==> IngestsFresh(before.value, reports[n], orders[n])))
  }

  lemma BeginOk(s: Store, most: nat)
    requires Inv(s, most)
    ensures BatchOk(Begin(s), most)
  {
  }

  /** A batch keeps the invariant, and with fresh slots the links. */
  lemma {:induction false} IngestAllInv(b: Batch, reports: seq<Report>, orders: seq<seq<FindingId>>, most: nat)
    requires most >= 1 && BatchOk(b, most) && BatchOrders(b, reports, orders) && IngestAll(b, reports, orders).Some?
    ensures var b' := IngestAll(b, reports, orders).value;
      BatchOk(b', most) && (Linked(b.store) && AllFresh(b, reports, orders) ==> Linked(b'.store))
  {
    if reports != [] {
      var n := |reports| - 1;
      IngestAllInv(b, reports[..n], orders[..n], most);
      IngestInv(IngestAll(b, reports[..n], orders[..n]).value, reports[n], orders[n], most);
    }
  }

  /** Every row is on its detector's mapping before the batch and after each of its reports. */
  ghost predicate LinkedThroughout(b: Batch, reports: seq<Report>, orders: seq<seq<FindingId>>)
    requires |orders| == |reports|
  {
    && (IngestAll(b, reports, orders).Some? ==> Linked(IngestAll(b, reports, orders).value.store))
    && (reports != [] ==> LinkedThroughout(b, reports[..|reports| - 1], orders[..|reports| - 1]))
  }

  /** A batch that goes through a linked store keeps it linked exactly if every report asks for a fresh slot. */
  lemma {:induction false} LinkedThroughoutIff(b: Batch, reports: seq<Report>, orders: seq<seq<FindingId>>, most: nat)
    requires most >= 1 && BatchOk(b, most) && BatchOrders(b, reports, orders) && IngestAll(b, reports, orders).Some?
    ensures LinkedThroughout(b, reports, orders) <==> Linked(b.store) && AllFresh(b, reports, orders)
  {
    if reports != [] {
      var n := |reports| - 1;
      LinkedThroughoutIff(b, reports[..n], orders[..n], most);
      IngestAllInv(b, reports[..n], orders[..n], most);
      IngestInv(IngestAll(b, reports[..n], orders[..n]).value, reports[n], orders[n], most);
    }
  }

  // ---------------------------------------------------------------- the query path

  /** The row a query for the report's slot finds. */
  ghost function Queried(s: Store, r: Report): Option<FindingId> {
    var asked := Asked(s, r);
    if asked.None? then None else Lookup(s.findings, asked.value.0, asked.value.1)
  }

  /** One report with every lookup a query. */
  ghost function QueryIngest(s: Store, r: Report, order: seq<FindingId>): Store {
    if r.key in s.evidence then s
    else
      var s1 := Prepared(s, r, order);
      Record(s1, r, Queried(s1, r))
  }

  ghost function QueryAll(s: Store, reports: seq<Report>, orders: seq<seq<FindingId>>): Store
    requires |orders| == |reports|
  {
    if reports == [] then s
    else
      var n := |reports| - 1;
      QueryIngest(QueryAll(s, reports[..n], orders[..n]), reports[n], orders[n])
  }

  /** A record in a batch is the record of the query path exactly if the slot it asks for is fresh. */
  lemma RecordsAlikeIff(b: Batch, r: Report, most: nat)
    requires Sound(b.store, most) && CacheOk(b) && r.key !in b.store.evidence
    ensures RecordIn(b, r).Some? && RecordIn(b, r).value.store == Record(b.store, r, Queried(b.store, r)) <==> AsksFresh(b, r)
  {
    var asked := Asked(b.store, r);
    if asked.Some? && asked.value in b.cache {
      var f := b.cache[asked.value];
      if At(b.store.findings, f, asked.value.0, asked.value.1) {
        LookupUnique(b.store, f);
      } else if f in b.store.findings {
        StaleRecord(b, r, most);
      }
    }
  }

  /** Through a row that is titled otherwise the evidence goes to that row, where a query would have gone to another. */
  lemma StaleRecord(b: Batch, r: Report, most: nat)
    requires Sound(b.store, most) && Asked(b.store, r).Some? && Asked(b.store, r).value in b.cache
    requires b.cache[Asked(b.store, r).value] in b.store.findings && !AsksFresh(b, r)
    ensures RecordIn(b, r).Some?
    ensures RecordIn(b, r).value.store.evidence[r.key].finding == Some(b.cache[Asked(b.store, r).value])
    ensures Record(b.store, r, Queried(b.store, r)).evidence[r.key].finding != Some(b.cache[Asked(b.store, r).value])
  {
  }

  lemma IngestsAlikeIff(b: Batch, r: Report, order: seq<FindingId>, most: nat)
    requires most >= 1 && BatchOk(b, most) && IngestOrder(b.store, r, order)
    ensures Ingest(b, r, order).Some? && Ingest(b, r, order).value.store == QueryIngest(b.store, r, order) <==> IngestsFresh(b, r, order)
  {
    if r.key !in b.store.evidence {
      PreparedSound(b.store, r, order, most);
      CacheMoves(b, Prepared(b.store, r, order));
      RecordsAlikeIff(b.(store := Prepared(b.store, r, order)), r, most);
    }
  }

  /** The batch goes through the stores of the query path, report by report. */
  ghost predicate InStep(b: Batch, reports: seq<Report>, orders: seq<seq<FindingId>>)
    requires |orders| == |reports|
  {
    && IngestAll(b, reports, orders).Some? && IngestAll(b, reports, orders).value.store == QueryAll(b.store, reports, orders)
    && (reports != [] ==> InStep(b, reports[..|reports| - 1], orders[..|reports| - 1]))
  }

  /** A batch does what the query path does, at every report, exactly if every report asks for a fresh slot. */
  lemma {:induction false} BatchIsQueriedIff(b: Batch, reports: seq<Report>, orders: seq<seq<FindingId>>, most: nat)
    requires most >= 1 && BatchOk(b, most) && BatchOrders(b, reports, orders)
    ensures InStep(b, reports, orders) <==> AllFresh(b, reports, orders)
  {
    if reports != [] {
      var n := |reports| - 1;
      BatchIsQueriedIff(b, reports[..n], orders[..n], most);
      if InStep(b, reports[..n], orders[..n]) {
        IngestAllInv(b, reports[..n], orders[..n], most);
        IngestsAlikeIff(IngestAll(b, reports[..n], orders[..n]).value, reports[n], orders[n], most);
      }
    }
  }

  // ---------------------------------------------------------------- a condition to look for

  /** Every row the batch remembers is still where it was found. */
  ghost predicate Fresh(b: Batch) {
    forall slot :: slot in b.cache ==> At(b.store.findings, b.cache[slot], slot.0, slot.1)
  }

  /** Cataloguing a report moves no finding out of a slot that the batch remembers. */
  ghost predicate VacatesNone(b: Batch, r: Report, order: seq<FindingId>) {
    r.key in b.store.evidence ||
    forall slot :: slot in b.cache ==> At(Prepared(b.store, r, order).findings, b.cache[slot], slot.0, slot.1)
  }

  /** No report of the batch retargets a finding out of a slot that an earlier one detected. */
  ghost predicate BatchVacatesNone(b: Batch, reports: seq<Report>, orders: seq<seq<FindingId>>)
    requires |orders| == |reports|
  {
    reports == [] ||
    (var n := |reports| - 1;
     var before := IngestAll(b, reports[..n], orders[..n]);
     BatchVacatesNone(b, reports[..n], orders[..n]) && (before.Some? ==> VacatesNone(before.value, reports[n], orders[n])))
  }

  lemma RecordStaysFresh(b: Batch, r: Report)
    requires Fresh(b) && Numbered(b.store)
    ensures AsksFresh(b, r) && RecordIn(b, r).Some? && Fresh(RecordIn(b, r).value)
  {
    var b' := RecordIn(b, r).value;
    forall f, a, v | At(b.store.findings, f, a, v) ensures At(b'.store.findings, f, a, v) {
    }
  }

  /** Then the batch is not refused and asks for fresh slots throughout. */
  lemma {:induction false} VacatingNoneIsFresh(b: Batch, reports: seq<Report>, orders: seq<seq<FindingId>>, most: nat)
    requires most >= 1 && BatchOk(b, most) && BatchOrders(b, reports, orders)
    requires Fresh(b) && BatchVacatesNone(b, reports, orders)
    ensures IngestAll(b, reports, orders).Some? && Fresh(IngestAll(b, reports, orders).value) && AllFresh(b, reports, orders)
  {
    if reports != [] {
      var n := |reports| - 1;
      VacatingNoneIsFresh(b, reports[..n], orders[..n], most);
      var before := IngestAll(b, reports[..n], orders[..n]).value;
      IngestAllInv(b, reports[..n], orders[..n], most);
      if reports[n].key !in before.store.evidence {
        PreparedSound(before.store, reports[n], orders[n], most);
        RecordStaysFresh(before.(store := Prepared(before.store, reports[n], orders[n])), reports[n]);
      }
    }
  }

  /** In particular a report that retargets nothing vacates nothing. */
  lemma NoDonorsVacateNone(b: Batch, r: Report)
    requires Fresh(b) && (r.detector.Some? ==> CatalogDonors(b.store, r.detector.value, r.cves) == {})
    ensures VacatesNone(b, r, [])
  {
  }
}
