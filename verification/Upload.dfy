/**
 Delivering a spool: the server keeps the first row under each key, the worker deletes a chunk once
 it is acknowledged, and the worker may crash between any two steps and resume from its directory.
 */
module Upload {
  import opened Options
  import opened Extremes
  import opened Chunks
  import opened SpoolDir
  import opened Listing
  import opened Spool

  // ---------------------------------------------------------------- the server

  type Table = map<nat, nat>

  function StoreEntries(t: Table, entries: seq<Entry>): Table {
    if entries == [] then t
    else
      var before := StoreEntries(t, entries[..|entries| - 1]);
      var e := entries[|entries| - 1];
      if e.key in before then before else before[e.key := e.body]
  }

  /** Ingest of a batch: rows whose key is already stored are skipped. */
  function StoreRows(t: Table, rows: seq<Record>): Table {
    if rows == [] then t else StoreEntries(StoreRows(t, rows[..|rows| - 1]), rows[|rows| - 1].entries)
  }

  predicate Stored(t: Table, r: Record) {
    forall e :: e in r.entries ==> e.key in t
  }

  predicate Extends(t: Table, t': Table) {
    forall key :: key in t ==> key in t' && t'[key] == t[key]
  }

  lemma {:induction false} StoreEntriesGrows(t: Table, entries: seq<Entry>)
    ensures Extends(t, StoreEntries(t, entries))
    ensures forall e :: e in entries ==> e.key in StoreEntries(t, entries)
  {
    if entries != [] {
      StoreEntriesGrows(t, entries[..|entries| - 1]);
      assert entries == entries[..|entries| - 1] + [entries[|entries| - 1]];
    }
  }

  /** A batch never changes a stored row, and stores every row it carries. */
  lemma {:induction false} StoreRowsGrows(t: Table, rows: seq<Record>)
    ensures Extends(t, StoreRows(t, rows))
    ensures forall r :: r in rows ==> Stored(StoreRows(t, rows), r)
  {
    if rows != [] {
      var front, last := rows[..|rows| - 1], rows[|rows| - 1];
      StoreRowsGrows(t, front);
      StoreEntriesGrows(StoreRows(t, front), last.entries);
      assert rows == front + [last];
      forall r | r in front ensures Stored(StoreRows(t, rows), r) {
        assert Stored(StoreRows(t, front), r);
      }
    }
  }

  // ---------------------------------------------------------------- what a table holds, entry by entry

  /** All entries of a list of records, in order. */
  function Entries(rows: seq<Record>): seq<Entry> {
    if rows == [] then [] else Entries(rows[..|rows| - 1]) + rows[|rows| - 1].entries
  }

  predicate Names(r: Record, key: nat) {
    exists e :: e in r.entries && e.key == key
  }

  predicate NamedBy(entries: seq<Entry>, key: nat) {
    exists e :: e in entries && e.key == key
  }

  /** The i-th entry is the first under its key. */
  predicate FirstUnderKey(entries: seq<Entry>, i: int) {
    0 <= i < |entries| && forall j :: 0 <= j < i ==> entries[j].key != entries[i].key
  }

  /** The old rows, and for every other key the body that came first. */
  ghost predicate FirstWins(t: Table, entries: seq<Entry>, t': Table) {
    && (forall key :: key in t' <==> key in t || NamedBy(entries, key))
    && (forall key :: key in t ==> t'[key] == t[key])
    && (forall i :: FirstUnderKey(entries, i) && entries[i].key !in t ==> t'[entries[i].key] == entries[i].body)
  }

  lemma FirstWinsNext(t: Table, entries: seq<Entry>, t': Table, e: Entry)
    requires FirstWins(t, entries, t')
    ensures FirstWins(t, entries + [e], if e.key in t' then t' else t'[e.key := e.body])
  {
    var all := entries + [e];
    forall key ensures NamedBy(all, key) <==> NamedBy(entries, key) || key == e.key {
      if NamedBy(entries, key) {
        var x :| x in entries && x.key == key;
        assert x in all;
      }
      assert e in all;
    }
    forall i | FirstUnderKey(all, i) && i < |entries| ensures FirstUnderKey(entries, i) && entries[i] in entries {
      forall j | 0 <= j < i ensures entries[j].key != entries[i].key {
        assert all[j].key != all[i].key;
      }
    }
    if FirstUnderKey(all, |entries|) {
      forall x | x in entries ensures x.key != e.key {
        var j :| 0 <= j < |entries| && entries[j] == x;
        assert all[j].key != all[|entries|].key;
      }
    }
  }

  lemma {:induction false} StoredEntries(t: Table, before: seq<Entry>, now: Table, entries: seq<Entry>)
    requires FirstWins(t, before, now)
    ensures FirstWins(t, before + entries, StoreEntries(now, entries))
  {
    if entries == [] {
      assert before + entries == before;
    } else {
      var front, e := entries[..|entries| - 1], entries[|entries| - 1];
      StoredEntries(t, before, now, front);
      FirstWinsNext(t, before + front, StoreEntries(now, front), e);
      assert before + entries == before + front + [e];
    }
  }

  /** After a batch the table holds the old rows as they were, and under every other key named the body named first. */
  lemma {:induction false} FirstRowWins(t: Table, rows: seq<Record>)
    ensures FirstWins(t, Entries(rows), StoreRows(t, rows))
  {
    if rows == [] {
      assert FirstWins(t, [], t);
    } else {
      FirstRowWins(t, rows[..|rows| - 1]);
      StoredEntries(t, Entries(rows[..|rows| - 1]), StoreRows(t, rows[..|rows| - 1]), rows[|rows| - 1].entries);
    }
  }

  /** The entries of a list are those of its records, each record's in its own order after those of the records before. */
  lemma {:induction false} EntriesAre(rows: seq<Record>, i: nat)
    requires i < |rows|
    ensures Entries(rows[..i]) + rows[i].entries <= Entries(rows)
    ensures forall e :: e in Entries(rows) <==> exists r :: r in rows && e in r.entries
  {
    var front, last := rows[..|rows| - 1], rows[|rows| - 1];
    assert rows == front + [last];
    if |front| > 0 {
      EntriesAre(front, if i < |front| then i else 0);
      assert i < |front| ==> front[..i] == rows[..i];
    }
  }

  lemma NamedByRecords(rows: seq<Record>, key: nat)
    ensures NamedBy(Entries(rows), key) <==> exists r :: r in rows && Names(r, key)
  {
    if rows != [] {
      EntriesAre(rows, 0);
    }
    if NamedBy(Entries(rows), key) {
      var e :| e in Entries(rows) && e.key == key;
      var r :| r in rows && e in r.entries;
      assert Names(r, key);
    }
    if r :| r in rows && Names(r, key) {
      var e :| e in r.entries && e.key == key;
      assert e in Entries(rows);
    }
  }

  lemma {:induction false} StoreEntriesAgain(t: Table, entries: seq<Entry>)
    requires forall e :: e in entries ==> e.key in t
    ensures StoreEntries(t, entries) == t
  {
    if entries != [] {
      StoreEntriesAgain(t, entries[..|entries| - 1]);
    }
  }

  /** A batch whose rows are all stored changes nothing. */
  lemma {:induction false} StoreRowsAgain(t: Table, rows: seq<Record>)
    requires forall r :: r in rows ==> Stored(t, r)
    ensures StoreRows(t, rows) == t
  {
    if rows != [] {
      StoreRowsAgain(t, rows[..|rows| - 1]);
      assert rows[|rows| - 1] in rows;
      StoreEntriesAgain(t, rows[|rows| - 1].entries);
    }
  }

  lemma {:induction false} StoreRowsAppend(t: Table, a: seq<Record>, b: seq<Record>)
    ensures StoreRows(t, a + b) == StoreRows(StoreRows(t, a), b)
  {
    if b == [] {
      assert a + b == a;
    } else {
      assert (a + b)[..|a + b| - 1] == a + b[..|b| - 1];
      StoreRowsAppend(t, a, b[..|b| - 1]);
    }
  }

  lemma ResendShorter(t: Table, sent: seq<Record>, again: seq<Record>)
    requires forall r :: r in again ==> r in sent
    ensures StoreRows(StoreRows(t, sent), again) == StoreRows(t, sent)
  {
    StoreRowsGrows(t, sent);
    StoreRowsAgain(StoreRows(t, sent), again);
  }

  /** Sending a longer or shorter part of a chunk again leaves the longest part sent so far. */
  lemma ResendPrefix(base: Table, acked: seq<Record>, rows: seq<Record>, ahead: nat, j: nat)
    requires ahead <= |rows| && j <= |rows|
    ensures StoreRows(StoreRows(base, acked + rows[..ahead]), rows[..j]) ==
      StoreRows(base, acked + rows[..MaxNat(ahead, j)])
  {
    var sent := acked + rows[..ahead];
    if j <= ahead {
      ResendShorter(base, sent, rows[..j]);
    } else {
      var first, more := rows[..ahead], rows[ahead..j];
      assert rows[..j] == first + more;
      StoreRowsAppend(StoreRows(base, sent), first, more);
      ResendShorter(base, sent, first);
      StoreRowsAppend(base, sent, more);
      Assoc(acked, first, more);
    }
  }

  // ---------------------------------------------------------------- one kind of record

  /**
   The spool lane of a kind and the server's table for it, with the history the theorems speak of:
   the records appended and acknowledged since the directory was created, the table at that time, the
   records as they were listed when the first request was sent, how many rows of the first listed
   chunk have reached the server, and the highest file number used.
   */
  datatype Track = Track(
    lane: Lane, table: Table, base: Table, appended: seq<Record>, acked: seq<Record>,
    planned: Option<seq<Record>>, ahead: nat, peak: nat)

  function Listed(l: Lane): seq<Chunk> {
    ReadyChunks(l.files)
  }

  function FirstListed(l: Lane): seq<Record> {
    if Listed(l) == [] then [] else Listed(l)[0].rows
  }

  function Fresh(table: Table): Track {
    Track(Lane([], [], [], 0), table, table, [], [], None, 0, 0)
  }

  function TAppend(t: Track, r: Record): Track {
    t.(lane := OpenedLane(t.lane, r), appended := t.appended + [r])
  }

  function TSeal(t: Track): Track {
    t.(lane := SealedLane(t.lane), peak := MaxNat(t.peak, SealedLane(t.lane).number))
  }

  /** A number is used up although no file appears: the write was refused or cut short. */
  function TSkip(t: Track): Track {
    t.(lane := NextNumber(t.lane), peak := MaxNat(t.peak, t.lane.number + 1))
  }

  function Planned(t: Track): seq<Record> {
    if t.planned.Some? then t.planned.value else Rows(Listed(t.lane))
  }

  /** Part of the first listed chunk reaches the server. */
  function TSend(t: Track, j: nat): Track
    requires j <= |FirstListed(t.lane)|
  {
    t.(table := StoreRows(t.table, FirstListed(t.lane)[..j]), ahead := MaxNat(t.ahead, j), planned := Some(Planned(t)))
  }

  function TAck(t: Track, f: Chunk): Track {
    t.(lane := AckedLane(t.lane, f), acked := t.acked + f.rows, ahead := 0)
  }

  /** A crash loses what is in memory; reopening the directory numbers on from its highest chunk. */
  function TReopen(t: Track): Track {
    t.(lane := Lane(t.lane.files, [], [], Highest(t.lane.files)))
  }

  /** The server has what was acknowledged, in order, plus the part of the first listed chunk already sent. */
  ghost predicate InStep(t: Track) {
    && t.ahead <= |FirstListed(t.lane)|
    && t.table == StoreRows(t.base, t.acked + FirstListed(t.lane)[..t.ahead])
  }

  /** Nothing is sent before everything is sealed, and from then on the listing is what remains of the plan. */
  ghost predicate OnPlan(t: Track) {
    && (t.planned.None? ==> t.acked == [] && t.ahead == 0)
    && (t.planned.Some? ==> t.lane.open == [] && t.planned.value == t.acked + Rows(Listed(t.lane)))
  }

  /** No record is lost or doubled, and up to six-digit numbers none changes place. */
  ghost predicate Conserved(t: Track) {
    && multiset(t.appended) == multiset(t.acked) + multiset(Pending(t.lane))
    && (t.peak <= 999999 ==> t.appended == t.acked + Pending(t.lane))
  }

  ghost predicate TrackOk(t: Track, limits: Limits) {
    LaneOk(t.lane, limits) && t.lane.number <= t.peak && InStep(t) && OnPlan(t) && Conserved(t)
  }

  lemma FreshOk(table: Table, limits: Limits)
    ensures TrackOk(Fresh(table), limits)
  {
  }

  lemma AppendOk(t: Track, r: Record, limits: Limits)
    requires TrackOk(t, limits) && t.planned.None?
    requires limits.maxRows >= 1 && !Oversized(r, limits, Worker) && !MustSeal(t.lane.open, r, limits)
    ensures TrackOk(TAppend(t, r), limits)
  {
    OpenedOk(t.lane, r, limits);
    Assoc(t.acked, Pending(t.lane), [r]);
    Assoc(Rows(t.lane.files), t.lane.open, [r]);
  }

  lemma SealOk(t: Track, limits: Limits)
    requires TrackOk(t, limits)
    ensures TrackOk(TSeal(t), limits)
  {
    SealedMeans(t.lane, limits);
    if t.lane.open != [] {
      assert FirstListed(TSeal(t).lane)[..0] == [] == FirstListed(t.lane)[..0];
    }
  }

  lemma SkipOk(t: Track, limits: Limits)
    requires TrackOk(t, limits)
    ensures TrackOk(TSkip(t), limits)
  {
    AscendingMore(t.lane.files, t.lane.number, t.lane.number + 1);
  }

  lemma SendInStep(t: Track, j: nat)
    requires InStep(t) && j <= |FirstListed(t.lane)|
    ensures InStep(TSend(t, j))
  {
    ResendPrefix(t.base, t.acked, FirstListed(t.lane), t.ahead, j);
  }

  lemma SendOnPlan(t: Track, j: nat)
    requires OnPlan(t) && t.lane.open == [] && j <= |FirstListed(t.lane)|
    ensures OnPlan(TSend(t, j))
  {
    assert [] + Rows(Listed(t.lane)) == Rows(Listed(t.lane));
  }

  lemma SendOk(t: Track, j: nat, limits: Limits)
    requires TrackOk(t, limits) && t.lane.open == [] && j <= |FirstListed(t.lane)|
    ensures TrackOk(TSend(t, j), limits)
  {
    SendInStep(t, j);
    SendOnPlan(t, j);
  }

  lemma AckInStep(t: Track, f: Chunk, limits: Limits)
    requires InStep(t) && LaneOk(t.lane, limits) && Listed(t.lane) != [] && f == Listed(t.lane)[0]
    requires forall r :: r in f.rows ==> Stored(t.table, r)
    ensures InStep(TAck(t, f))
  {
    ResendPrefix(t.base, t.acked, f.rows, t.ahead, |f.rows|);
    assert f.rows[..|f.rows|] == f.rows;
    StoreRowsAgain(t.table, f.rows);
    assert (t.acked + f.rows) + FirstListed(AckedLane(t.lane, f))[..0] == t.acked + f.rows;
  }

  lemma AckOnPlan(t: Track, f: Chunk, limits: Limits)
    requires OnPlan(t) && t.planned.Some? && LaneOk(t.lane, limits) && Listed(t.lane) != [] && f == Listed(t.lane)[0]
    ensures OnPlan(TAck(t, f))
  {
    ListingRest(t.lane.files, t.lane.number);
    RowsFirst(Listed(t.lane));
    Assoc(t.acked, f.rows, Rows(Listed(t.lane)[1..]));
  }

  lemma AckConserved(t: Track, f: Chunk, limits: Limits)
    requires Conserved(t) && LaneOk(t.lane, limits) && t.lane.number <= t.peak && Listed(t.lane) != [] && f == Listed(t.lane)[0]
    ensures Conserved(TAck(t, f))
  {
    var rest := AckedLane(t.lane, f);
    ListingRest(t.lane.files, t.lane.number);
    ListingRows(t.lane.files);
    ListingRows(rest.files);
    RowsFirst(Listed(t.lane));
    if t.peak <= 999999 {
      ListingKeepsOrder(t.lane.files, t.lane.number);
      AckedMeans(t.lane, f, limits);
      Assoc(t.acked, f.rows, Pending(rest));
    }
  }

  lemma AckOk(t: Track, f: Chunk, limits: Limits)
    requires TrackOk(t, limits) && t.planned.Some? && Listed(t.lane) != [] && f == Listed(t.lane)[0]
    requires forall r :: r in f.rows ==> Stored(t.table, r)
    ensures TrackOk(TAck(t, f), limits)
  {
    AckedMeans(t.lane, f, limits);
    AckInStep(t, f, limits);
    AckOnPlan(t, f, limits);
    AckConserved(t, f, limits);
  }

  lemma ReopenOk(t: Track, limits: Limits)
    requires TrackOk(t, limits) && t.lane.open == []
    ensures TrackOk(TReopen(t), limits)
  {
    AscendingHighest(t.lane.files, t.lane.number);
  }

  /** With nothing left, the table is the plan stored once, and the plan is the appended records. */
  lemma FinishedOk(t: Track, limits: Limits)
    requires TrackOk(t, limits) && t.lane.files == [] && t.lane.open == []
    ensures var plan := if t.planned.Some? then t.planned.value else [];
      && t.table == StoreRows(t.base, plan) && multiset(plan) == multiset(t.appended)
      && (t.peak <= 999999 ==> plan == t.appended)
  {
    assert t.acked + [] == t.acked;
    assert Pending(t.lane) == [];
    assert FirstListed(t.lane)[..t.ahead] == [];
  }
}
