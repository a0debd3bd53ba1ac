/**
 Slicing a list of records into batches under a row ceiling and an encoded-byte ceiling, as the
 worker does before sending and the server checks on receipt.
 */
module Chunks {
  import opened Options

  datatype Entry = Entry(key: nat, body: nat)

  /**
   A record is the rows it asks the server to store.  `sent` is its encoded size on the worker;
   `parsed` is the encoded size of what the server has after filling in the model's defaults.
   */
  datatype Record = Record(entries: seq<Entry>, sent: nat, parsed: nat)

  datatype Limits = Limits(maxRows: int, maxBytes: int)

  datatype Side = Worker | Server

  function Size(r: Record, side: Side): nat {
    match side
    case Worker => r.sent
    case Server => r.parsed
  }

  function Total(rows: seq<Record>, side: Side): nat {
    if rows == [] then 0 else Total(rows[..|rows| - 1], side) + Size(rows[|rows| - 1], side)
  }

  /** The compact JSON list: two brackets, the elements, and a comma between neighbours. */
  function ListBytes(rows: seq<Record>, side: Side): nat {
    2 + Total(rows, side) + if rows == [] then 0 else |rows| - 1
  }

  predicate Fits(rows: seq<Record>, lim: Limits, side: Side) {
    |rows| <= lim.maxRows && ListBytes(rows, side) <= lim.maxBytes
  }

  predicate Oversized(r: Record, lim: Limits, side: Side) {
    2 + Size(r, side) > lim.maxBytes
  }

  /** The batches closed so far and the one still open. */
  datatype Feeding = Feeding(sealed: seq<seq<Record>>, open: seq<Record>)

  predicate MustSeal(open: seq<Record>, r: Record, lim: Limits) {
    open != [] && (|open| + 1 > lim.maxRows || 2 + Total(open, Worker) + r.sent + |open| > lim.maxBytes)
  }

  function Feed(st: Feeding, r: Record, lim: Limits): Feeding {
    if MustSeal(st.open, r, lim) then Feeding(st.sealed + [st.open], [r]) else Feeding(st.sealed, st.open + [r])
  }

  function FeedAll(rows: seq<Record>, lim: Limits): Feeding {
    if rows == [] then Feeding([], []) else Feed(FeedAll(rows[..|rows| - 1], lim), rows[|rows| - 1], lim)
  }

  function Flush(st: Feeding): seq<seq<Record>> {
    if st.open == [] then st.sealed else st.sealed + [st.open]
  }

  function Flat(chunks: seq<seq<Record>>): seq<Record> {
    if chunks == [] then [] else Flat(chunks[..|chunks| - 1]) + chunks[|chunks| - 1]
  }

  function Sum(sizes: seq<nat>): nat {
    if sizes == [] then 0 else Sum(sizes[..|sizes| - 1]) + sizes[|sizes| - 1]
  }

  /** The first record too large for any batch, if there is one. */
  predicate FirstOversized(rows: seq<Record>, i: nat, lim: Limits, side: Side) {
    i < |rows| && Oversized(rows[i], lim, side) && forall j :: 0 <= j < i ==> !Oversized(rows[j], lim, side)
  }

  /** iter_ingest_chunks: the batches yielded, and the index of the record that stopped it, if one did. */
  method IterIngestChunks(rows: seq<Record>, lim: Limits) returns (chunks: seq<seq<Record>>, failed: Option<nat>)
    ensures failed.None? ==> chunks == Flush(FeedAll(rows, lim)) && forall r :: r in rows ==> !Oversized(r, lim, Worker)
    ensures failed.Some? ==> FirstOversized(rows, failed.value, lim, Worker) && chunks == FeedAll(rows[..failed.value], lim).sealed
  {
    chunks := [];
    var chunk: seq<Record> := [];
    var itemSizes: seq<nat> := [];
    assert rows[..0] == [];
    for n := 0 to |rows|
      invariant Feeding(chunks, chunk) == FeedAll(rows[..n], lim)
      invariant Sum(itemSizes) == Total(chunk, Worker)
      invariant forall j :: 0 <= j < n ==> !Oversized(rows[j], lim, Worker)
    {
      if 2 + rows[n].sent > lim.maxBytes {
        return chunks, Some(n);
      }
      FeedNext(rows, n, lim);
      var size := rows[n].sent;
      var nextCount := |chunk| + 1;
      var nextBytes := 2 + Sum(itemSizes) + size + |chunk|;
      if chunk != [] && (nextCount > lim.maxRows || nextBytes > lim.maxBytes) {
        chunks, chunk, itemSizes := chunks + [chunk], [], [];
      }
      SizesNext(itemSizes, chunk, rows[n]);
      chunk, itemSizes := chunk + [rows[n]], itemSizes + [size];
    }
    assert rows[..|rows|] == rows;
    if chunk != [] {
      chunks := chunks + [chunk];
    }
    failed := None;
  }

  /** validate_ingest_batch on the server: the request is accepted or refused. */
  method ValidateIngestBatch(rows: seq<Record>, lim: Limits) returns (accepted: bool)
    ensures accepted <==>
      Fits(rows, lim, Server) && forall r :: r in rows ==> !Oversized(r, lim, Server)
  {
    if |rows| > lim.maxRows {
      return false;
    }
    for n := 0 to |rows|
      invariant forall j :: 0 <= j < n ==> !Oversized(rows[j], lim, Server)
    {
      if 2 + rows[n].parsed > lim.maxBytes {
        assert rows[n] in rows;
        return false;
      }
    }
    accepted := ListBytes(rows, Server) <= lim.maxBytes;
  }

  // ---------------------------------------------------------------- lemmas

  lemma FeedNext(rows: seq<Record>, n: nat, lim: Limits)
    requires n < |rows|
    ensures FeedAll(rows[..n + 1], lim) == Feed(FeedAll(rows[..n], lim), rows[n], lim)
  {
    assert rows[..n + 1][..n] == rows[..n];
  }

  lemma SumSnoc(sizes: seq<nat>, x: nat)
    ensures Sum(sizes + [x]) == Sum(sizes) + x
  {
    assert (sizes + [x])[..|sizes|] == sizes;
  }

  /** The running sizes follow the chunk. */
  lemma SizesNext(sizes: seq<nat>, chunk: seq<Record>, r: Record)
    requires Sum(sizes) == Total(chunk, Worker)
    ensures Sum(sizes + [r.sent]) == Total(chunk + [r], Worker)
  {
    SumSnoc(sizes, r.sent);
    TotalSnoc(chunk, r, Worker);
  }

  lemma TotalSnoc(rows: seq<Record>, r: Record, side: Side)
    ensures Total(rows + [r], side) == Total(rows, side) + Size(r, side)
    ensures rows != [] ==> ListBytes(rows + [r], side) == ListBytes(rows, side) + 1 + Size(r, side)
  {
    assert (rows + [r])[..|rows|] == rows;
  }

  lemma {:induction false} TotalAppend(a: seq<Record>, b: seq<Record>, side: Side)
    ensures Total(a + b, side) == Total(a, side) + Total(b, side)
  {
    if b == [] {
      assert a + b == a;
    } else {
      assert (a + b)[..|a + b| - 1] == a + b[..|b| - 1];
      TotalAppend(a, b[..|b| - 1], side);
    }
  }

  lemma FlatSnoc(chunks: seq<seq<Record>>, c: seq<Record>)
    ensures Flat(chunks + [c]) == Flat(chunks) + c
  {
    assert (chunks + [c])[..|chunks|] == chunks;
  }

  /** A batch that fits keeps fitting when its front is dropped. */
  lemma FitsSuffix(a: seq<Record>, b: seq<Record>, lim: Limits, side: Side)
    requires Fits(a + b, lim, side) && b != []
    ensures Fits(b, lim, side)
  {
    TotalAppend(a, b, side);
  }

  lemma {:induction false} RecordInTotal(rows: seq<Record>, i: nat, side: Side)
    requires i < |rows|
    ensures Size(rows[i], side) <= Total(rows, side)
  {
    if i < |rows| - 1 {
      RecordInTotal(rows[..|rows| - 1], i, side);
    }
  }

  ghost predicate GoodBatches(chunks: seq<seq<Record>>, lim: Limits) {
    forall c :: c in chunks ==> c != [] && Fits(c, lim, Worker)
  }

  lemma FeedGood(st: Feeding, r: Record, lim: Limits)
    requires lim.maxRows >= 1 && !Oversized(r, lim, Worker)
    requires GoodBatches(st.sealed, lim) && (st.open != [] ==> Fits(st.open, lim, Worker))
    ensures var st' := Feed(st, r, lim);
      GoodBatches(st'.sealed, lim) && st'.open != [] && Fits(st'.open, lim, Worker)
  {
    TotalSnoc(st.open, r, Worker);
    TotalSnoc([], r, Worker);
    assert [] + [r] == [r];
  }

  lemma {:induction false} FeedAllGood(rows: seq<Record>, lim: Limits)
    requires lim.maxRows >= 1 && forall r :: r in rows ==> !Oversized(r, lim, Worker)
    ensures var st := FeedAll(rows, lim);
      GoodBatches(st.sealed, lim) && (st.open != [] ==> Fits(st.open, lim, Worker))
  {
    if rows != [] {
      var front, r := rows[..|rows| - 1], rows[|rows| - 1];
      assert rows == front + [r];
      assert r in rows;
      FeedAllGood(front, lim);
      FeedGood(FeedAll(front, lim), r, lim);
    }
  }

  /** The batches concatenate to the input, none is empty, and each is within both ceilings. */
  lemma ChunksPartition(rows: seq<Record>, lim: Limits)
    requires lim.maxRows >= 1 && forall r :: r in rows ==> !Oversized(r, lim, Worker)
    ensures Flat(Flush(FeedAll(rows, lim))) == rows
    ensures GoodBatches(Flush(FeedAll(rows, lim)), lim)
  {
    FeedAllGood(rows, lim);
    FeedAllFlat(rows, lim);
    var st := FeedAll(rows, lim);
    FlatSnoc(st.sealed, st.open);
  }

  /** A split of front + [r] with a last batch that is not empty is a split of front, plus r in that batch. */
  lemma DropLast(split: seq<seq<Record>>, front: seq<Record>, r: Record)
    requires split != [] && split[|split| - 1] != [] && Flat(split) == front + [r]
    ensures var n := |split| - 1;
      var last := split[n];
      last == last[..|last| - 1] + [r] && Flat(split[..n] + [last[..|last| - 1]]) == front
  {
    var n := |split| - 1;
    var last := split[n];
    var init := last[..|last| - 1];
    FlatSnoc(split[..n], init);
    assert last == init + [last[|last| - 1]];
    var before := Flat(split[..n]);
    assert Flat(split) == (before + init) + [last[|last| - 1]];
    assert (before + init) + [last[|last| - 1]] == front + [r];
    assert ((before + init) + [last[|last| - 1]])[|front|] == r;
    assert before + init == (front + [r])[..|front|];
  }

  ghost predicate Splits(split: seq<seq<Record>>, rows: seq<Record>, lim: Limits) {
    Flat(split) == rows && forall c :: c in split && c != [] ==> Fits(c, lim, Worker)
  }

  lemma ShorterSplit(split: seq<seq<Record>>, front: seq<Record>, r: Record, lim: Limits) returns (split': seq<seq<Record>>)
    requires split != [] && split[|split| - 1] != [] && Splits(split, front + [r], lim)
    ensures Splits(split', front, lim) && |split'| == |split| && |split'[|split| - 1]| == |split[|split| - 1]| - 1
  {
    var n := |split| - 1;
    var last := split[n];
    var init := last[..|last| - 1];
    DropLast(split, front, r);
    split' := split[..n] + [init];
    forall c | c in split' && c != [] ensures Fits(c, lim, Worker) {
      assert last in split;
      if c == init {
        TotalSnoc(init, r, Worker);
      } else {
        assert c in split;
      }
    }
  }

  /** Against any split of the same rows, the greedy one has used fewer batches, or as many with a shorter open one. */
  lemma {:induction false} GreedyStaysAhead(rows: seq<Record>, lim: Limits, split: seq<seq<Record>>)
    requires lim.maxRows >= 1 && rows != [] && Splits(split, rows, lim)
    ensures var st := FeedAll(rows, lim);
      split != [] && (|split| > |st.sealed| + 1 || (|split| == |st.sealed| + 1 && |split[|split| - 1]| >= |st.open|))
    decreases |rows|, |split|
  {
    var n := |split| - 1;
    var last := split[n];
    if last == [] {
      assert Splits(split[..n], rows, lim);
      GreedyStaysAhead(rows, lim, split[..n]);
    } else {
      var front, r := rows[..|rows| - 1], rows[|rows| - 1];
      assert rows == front + [r];
      if front == [] {
        assert FeedAll(front, lim) == Feeding([], []);
      } else {
        var split' := ShorterSplit(split, front, r, lim);
        GreedyStaysAhead(front, lim, split');
        var st := FeedAll(front, lim);
        if MustSeal(st.open, r, lim) && |split| == |st.sealed| + 1 {
          FeedAllFlat(front, lim);
          LastIsTail(split);
          assert last in split;
          LongerCannotFit(st, rows, last, r, lim);
        }
      }
    }
  }

  lemma LastIsTail(split: seq<seq<Record>>)
    requires split != []
    ensures var last := split[|split| - 1];
      |last| <= |Flat(split)| && last == Flat(split)[|Flat(split)| - |last|..]
  {
  }

  lemma FeedFlat(st: Feeding, r: Record, lim: Limits)
    ensures var st' := Feed(st, r, lim); Flat(st'.sealed) + st'.open == Flat(st.sealed) + st.open + [r]
  {
    FlatSnoc(st.sealed, st.open);
    assert Flat(st.sealed) + (st.open + [r]) == Flat(st.sealed) + st.open + [r];
  }

  lemma {:induction false} FeedAllFlat(rows: seq<Record>, lim: Limits)
    ensures var st := FeedAll(rows, lim); Flat(st.sealed) + st.open == rows
  {
    if rows != [] {
      var front, r := rows[..|rows| - 1], rows[|rows| - 1];
      FeedAllFlat(front, lim);
      FeedFlat(FeedAll(front, lim), r, lim);
      assert rows == front + [r];
    }
  }

  lemma LongerCannotFit(st: Feeding, rows: seq<Record>, last: seq<Record>, r: Record, lim: Limits)
    requires MustSeal(st.open, r, lim) && rows == Flat(st.sealed) + st.open + [r]
    requires last != [] && |last| <= |rows| && last == rows[|rows| - |last|..] && |last| > |st.open|
    ensures !Fits(last, lim, Worker)
  {
    var tail := st.open + [r];
    assert rows[|rows| - |tail|..] == tail;
    assert last == last[..|last| - |tail|] + tail;
    if Fits(last, lim, Worker) {
      FitsSuffix(last[..|last| - |tail|], tail, lim, Worker);
      TotalSnoc(st.open, r, Worker);
    }
  }

  /** No split of the rows into batches within the ceilings has fewer batches. */
  lemma ChunksMinimal(rows: seq<Record>, lim: Limits, split: seq<seq<Record>>)
    requires lim.maxRows >= 1 && Splits(split, rows, lim)
    ensures |Flush(FeedAll(rows, lim))| <= |split|
  {
    if rows != [] {
      GreedyStaysAhead(rows, lim, split);
    }
  }

  /**
   The server accepts a worker's batch exactly when the batch still fits after parsing; in
   particular always when parsing grows no record.
   */
  lemma ServerAcceptsIff(chunk: seq<Record>, lim: Limits)
    requires chunk != [] && Fits(chunk, lim, Worker)
    ensures (Fits(chunk, lim, Server) && forall r :: r in chunk ==> !Oversized(r, lim, Server)) <==>
      ListBytes(chunk, Server) <= lim.maxBytes
    ensures (forall r :: r in chunk ==> r.parsed <= r.sent) ==> ListBytes(chunk, Server) <= lim.maxBytes
  {
    forall r | r in chunk ensures Size(r, Server) <= Total(chunk, Server) {
      var i :| 0 <= i < |chunk| && chunk[i] == r;
      RecordInTotal(chunk, i, Server);
    }
    if forall r :: r in chunk ==> r.parsed <= r.sent {
      ShrinkTotal(chunk);
    }
  }

  lemma {:induction false} ShrinkTotal(rows: seq<Record>)
    requires forall r :: r in rows ==> r.parsed <= r.sent
    ensures Total(rows, Server) <= Total(rows, Worker)
  {
    if rows != [] {
      ShrinkTotal(rows[..|rows| - 1]);
      assert rows[|rows| - 1] in rows;
    }
  }

  /** A batch the worker may send that the server refuses: defaults such as a null timestamp push it over. */
  lemma RefusedBatchExample()
    ensures var r := Record([Entry(1, 1)], 1048574, 1048591);
      var lim := Limits(500, 1048576);
      && !Oversized(r, lim, Worker) && Flush(FeedAll([r], lim)) == [[r]]
      && !Fits([r], lim, Server)
  {
    var r := Record([Entry(1, 1)], 1048574, 1048591);
    assert [r][..0] == [];
    assert [] + [r] == [r];
    TotalSnoc([], r, Server);
    assert FeedAll([], Limits(500, 1048576)) == Feeding([], []);
  }
}
