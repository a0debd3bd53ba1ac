/** The end of a job on the worker: submit the spool and report the outcome. */
module JobFinish {
  import opened Options
  import opened Chunks
  import opened SpoolDir
  import opened Spool
  import opened Upload

  /** How the server meets a request: it stores the rows and replies, refuses, or stores them and the reply is lost. */
  datatype Answer = Accepted | Refused | LostReply

  /** How the request after the first `n` is met; beyond the list it is accepted. */
  function AnswerAt(answers: seq<Answer>, n: nat): Answer {
    if n < |answers| then answers[n] else Accepted
  }

  /** After the first `n` requests the next `count` are accepted. */
  predicate Granted(answers: seq<Answer>, n: nat, count: nat) {
    forall i: nat :: n <= i < n + count ==> AnswerAt(answers, i) == Accepted
  }

  /** A chunk is one request, but the records of a coverage chunk are posted one by one. */
  function Requests(k: Kind, rows: seq<Record>): nat {
    if k == Coverage then |rows| else 1
  }

  function RequestsFor(k: Kind, listing: seq<Chunk>): nat {
    if listing == [] then 0 else RequestsFor(k, listing[..|listing| - 1]) + Requests(k, listing[|listing| - 1].rows)
  }

  /** What it takes to upload the files of a lane. */
  function RequestsOf(k: Kind, l: Lane): nat {
    RequestsFor(k, ReadyChunks(l.files))
  }

  function AllRequests(lanes: PerKind<Lane>): nat {
    RequestsOf(Devices, lanes.devices) + RequestsOf(Findings, lanes.findings) + RequestsOf(Coverage, lanes.coverage)
  }

  lemma GrantedMore(answers: seq<Answer>, n: nat, count: nat, more: nat)
    ensures Granted(answers, n, count + more) <==> Granted(answers, n, count) && Granted(answers, n + count, more)
  {
  }

  class Server {
    var tables: PerKind<Table>
    const answers: seq<Answer>
    // How many requests there have been.
    var requests: nat

    constructor (answers: seq<Answer>)
      ensures tables == PerKind(map[], map[], map[]) && this.answers == answers && requests == 0
    {
      tables := PerKind(map[], map[], map[]);
      this.answers := answers;
      requests := 0;
    }

    /** One request: the rows are stored unless it is refused. */
    method Post(k: Kind, rows: seq<Record>) returns (ok: bool)
      modifies this
      ensures ok <==> AnswerAt(answers, old(requests)) == Accepted
      ensures tables == if AnswerAt(answers, old(requests)) == Refused then old(tables)
                        else old(tables).Set(k, StoreRows(old(tables).Get(k), rows))
      ensures requests == old(requests) + 1
    {
      var a := AnswerAt(answers, requests);
      requests := requests + 1;
      if a != Refused {
        tables := tables.Set(k, StoreRows(tables.Get(k), rows));
      }
      ok := a == Accepted;
    }
  }

  /** Nothing of `was` is lost: it is still in a file, or the server has it. */
  ghost predicate NoneLost(was: seq<Chunk>, files: seq<Chunk>, t: Table) {
    forall f, r :: f in was && r in f.rows ==> f in files || Stored(t, r)
  }

  lemma SentPart(was: seq<Chunk>, files: seq<Chunk>, t: Table, rows: seq<Record>)
    requires NoneLost(was, files, t)
    ensures NoneLost(was, files, StoreRows(t, rows))
  {
    StoreRowsGrows(t, rows);
    forall f, r | f in was && r in f.rows ensures f in files || Stored(StoreRows(t, rows), r) {
      if f !in files {
        assert Stored(t, r);
        forall e | e in r.entries ensures e.key in StoreRows(t, rows) {
          assert e.key in t;
        }
      }
    }
  }

  lemma SentChunk(was: seq<Chunk>, files: seq<Chunk>, t: Table, t': Table, f: Chunk)
    requires NoneLost(was, files, t) && t' == StoreRows(t, f.rows)
    ensures NoneLost(was, files, t') && NoneLost(was, Without(files, f), t')
  {
    SentPart(was, files, t, f.rows);
    StoreRowsGrows(t, f.rows);
    forall g, r | g in was && r in g.rows ensures g in Without(files, f) || Stored(t', r) {
      WithoutMember(files, f, g);
    }
  }

  /** The records of a coverage chunk are posted one by one. */
  method PostEach(server: Server, k: Kind, rows: seq<Record>) returns (ok: bool, ghost reached: nat)
    modifies server
    ensures ok <==> Granted(server.answers, old(server.requests), |rows|)
    ensures ok ==> reached == |rows| && server.requests == old(server.requests) + |rows|
    ensures reached <= |rows| && server.tables == old(server.tables).Set(k, StoreRows(old(server.tables).Get(k), rows[..reached]))
  {
    reached := 0;
    assert rows[..0] == [];
    for n := 0 to |rows|
      invariant reached == n && server.requests == old(server.requests) + n
      invariant Granted(server.answers, old(server.requests), n)
      invariant server.tables == old(server.tables).Set(k, StoreRows(old(server.tables).Get(k), rows[..n]))
    {
      assert rows[..n + 1] == rows[..n] + [rows[n]];
      StoreRowsAppend(old(server.tables).Get(k), rows[..n], [rows[n]]);
      ghost var before := server.tables;
      ok := server.Post(k, [rows[n]]);
      if !ok {
        if server.tables != before {
          reached := n + 1;
        }
        return;
      }
      reached := n + 1;
    }
    assert rows[..|rows|] == rows;
    ok := true;
  }

  method Send(server: Server, k: Kind, rows: seq<Record>) returns (ok: bool, ghost reached: nat)
    modifies server
    ensures ok <==> Granted(server.answers, old(server.requests), Requests(k, rows))
    ensures ok ==> reached == |rows| && server.requests == old(server.requests) + Requests(k, rows)
    ensures reached <= |rows| && server.tables == old(server.tables).Set(k, StoreRows(old(server.tables).Get(k), rows[..reached]))
  {
    assert rows[..|rows|] == rows && rows[..0] == [];
    if k == Coverage {
      ok, reached := PostEach(server, k, rows);
    } else {
      reached := if AnswerAt(server.answers, server.requests) == Refused then 0 else |rows|;
      ok := server.Post(k, rows);
    }
  }

  /** Send one chunk, and delete it once it is acknowledged. */
  method SubmitChunk(spool: JobSpool, server: Server, k: Kind, f: Chunk, ghost was: seq<Chunk>) returns (ok: bool)
    requires spool.Valid() && NoneLost(was, spool.lanes.Get(k).files, server.tables.Get(k))
    modifies spool`lanes, server
    ensures spool.Valid()
    ensures spool.lanes == old(spool.lanes).Set(k, if ok then AckedLane(old(spool.lanes).Get(k), f) else old(spool.lanes).Get(k))
    ensures server.tables == old(server.tables).Set(k, server.tables.Get(k))
    ensures NoneLost(was, spool.lanes.Get(k).files, server.tables.Get(k))
    ensures ok <==> Granted(server.answers, old(server.requests), Requests(k, f.rows))
    ensures ok ==> server.tables.Get(k) == StoreRows(old(server.tables).Get(k), f.rows)
    ensures ok ==> server.requests == old(server.requests) + Requests(k, f.rows)
  {
    ghost var files, t := spool.lanes.Get(k).files, server.tables.Get(k);
    ghost var reached: nat;
    ok, reached := Send(server, k, f.rows);
    SentPart(was, files, t, f.rows[..reached]);
    if ok {
      assert f.rows[..|f.rows|] == f.rows;
      SentChunk(was, files, t, server.tables.Get(k), f);
      spool.AckDelete(k, f);
    }
  }

  lemma RequestsSnoc(k: Kind, listing: seq<Chunk>, f: Chunk)
    ensures RequestsFor(k, listing + [f]) == RequestsFor(k, listing) + Requests(k, f.rows)
  {
    assert (listing + [f])[..|listing|] == listing;
  }

  lemma {:induction false} RequestsPart(k: Kind, listing: seq<Chunk>, n: nat)
    requires n <= |listing|
    ensures RequestsFor(k, listing[..n]) <= RequestsFor(k, listing)
  {
    if n < |listing| {
      RequestsPart(k, listing[..|listing| - 1], n);
      assert listing[..|listing| - 1][..n] == listing[..n];
    } else {
      assert listing[..n] == listing;
    }
  }

  /** Where the n-th chunk is not granted, the whole listing is not. */
  lemma RequestsNext(answers: seq<Answer>, at: nat, k: Kind, listing: seq<Chunk>, n: nat)
    requires n < |listing| && Granted(answers, at, RequestsFor(k, listing[..n]))
    ensures var sent, f := RequestsFor(k, listing[..n]), listing[n];
      && RequestsFor(k, listing[..n + 1]) == sent + Requests(k, f.rows)
      && (Granted(answers, at + sent, Requests(k, f.rows)) <==> Granted(answers, at, RequestsFor(k, listing[..n + 1])))
      && (Granted(answers, at, RequestsFor(k, listing)) ==> Granted(answers, at, RequestsFor(k, listing[..n + 1])))
  {
    assert listing[..n + 1] == listing[..n] + [listing[n]];
    RequestsSnoc(k, listing[..n], listing[n]);
    GrantedMore(answers, at, RequestsFor(k, listing[..n]), Requests(k, listing[n].rows));
    RequestsPart(k, listing, n + 1);
  }

  /** A lane's files are being uploaded: nothing is lost, and nothing else about the lane changes. */
  ghost predicate Uploading(was: Lane, now: Lane, t: Table) {
    now == was.(files := now.files) && NoneLost(was.files, now.files, t)
  }

  /** A lane's files have been uploaded in listing order. */
  ghost predicate Emptied(was: Lane, now: Lane, before: Table, t: Table) {
    now == was.(files := []) && t == StoreRows(before, Rows(ReadyChunks(was.files)))
  }

  /** Upload the listed chunks of one kind in turn. */
  method SubmitKind(spool: JobSpool, server: Server, k: Kind) returns (ok: bool)
    requires spool.Valid()
    modifies spool`lanes, server
    ensures spool.Valid()
    ensures spool.lanes == old(spool.lanes).Set(k, spool.lanes.Get(k)) && server.tables == old(server.tables).Set(k, server.tables.Get(k))
    ensures Uploading(old(spool.lanes).Get(k), spool.lanes.Get(k), server.tables.Get(k))
    ensures ok <==> Granted(server.answers, old(server.requests), RequestsOf(k, old(spool.lanes).Get(k)))
    ensures ok ==> server.requests == old(server.requests) + RequestsOf(k, old(spool.lanes).Get(k))
    ensures ok ==> Emptied(old(spool.lanes).Get(k), spool.lanes.Get(k), old(server.tables).Get(k), server.tables.Get(k))
  {
    ghost var was := spool.lanes.Get(k).files;
    var listing := ReadyChunks(spool.lanes.Get(k).files);
    for n := 0 to |listing|
      invariant spool.Valid()
      invariant spool.lanes == old(spool.lanes).Set(k, old(spool.lanes).Get(k).(files := spool.lanes.Get(k).files))
      invariant server.tables == old(server.tables).Set(k, server.tables.Get(k))
      invariant Remaining(was, listing[..n], spool.lanes.Get(k).files)
      invariant NoneLost(was, spool.lanes.Get(k).files, server.tables.Get(k))
      invariant server.tables.Get(k) == StoreRows(old(server.tables).Get(k), Rows(listing[..n]))
      invariant server.requests == old(server.requests) + RequestsFor(k, listing[..n])
      invariant Granted(server.answers, old(server.requests), RequestsFor(k, listing[..n]))
    {
      RequestsNext(server.answers, old(server.requests), k, listing, n);
      RemainingNext(was, listing[..n], spool.lanes.Get(k).files, listing[n]);
      ok := SubmitChunk(spool, server, k, listing[n], was);
      if !ok {
        return;
      }
      assert listing[..n + 1] == listing[..n] + [listing[n]];
      RowsSnoc(listing[..n], listing[n]);
      StoreRowsAppend(old(server.tables).Get(k), Rows(listing[..n]), listing[n].rows);
    }
    assert listing[..|listing|] == listing;
    ok := true;
    NothingLeft(was, spool.lanes.Get(k).files);
  }

  /** The files left are some of those there were, and none of those already sent. */
  ghost predicate Remaining(was: seq<Chunk>, sent: seq<Chunk>, files: seq<Chunk>) {
    forall f :: f in files ==> f in was && f !in sent
  }

  lemma RemainingNext(was: seq<Chunk>, sent: seq<Chunk>, files: seq<Chunk>, f: Chunk)
    requires Remaining(was, sent, files)
    ensures Remaining(was, sent + [f], Without(files, f))
  {
    forall g | g in Without(files, f) ensures g in files && g != f {
      WithoutMember(files, f, g);
    }
  }

  lemma NothingLeft(was: seq<Chunk>, files: seq<Chunk>)
    requires Remaining(was, ReadyChunks(was), files)
    ensures files == []
  {
    if files != [] {
      ListingMember(was, files[0]);
      assert false;
    }
  }

  lemma NotBegun(l: Lane, t: Table)
    ensures Uploading(l, l, t)
  {
  }

  /** Upload all kinds, one after another. */
  method SubmitKinds(spool: JobSpool, server: Server) returns (ok: bool)
    requires spool.Valid()
    modifies spool`lanes, server
    ensures spool.Valid()
    ensures forall k: Kind :: Uploading(old(spool.lanes).Get(k), spool.lanes.Get(k), server.tables.Get(k))
    ensures ok <==> Granted(server.answers, old(server.requests), AllRequests(old(spool.lanes)))
    ensures ok ==> forall k: Kind ::
      Emptied(old(spool.lanes).Get(k), spool.lanes.Get(k), old(server.tables).Get(k), server.tables.Get(k))
  {
    ghost var was, tables := spool.lanes, server.tables;
    ghost var d, f, c := RequestsOf(Devices, was.devices), RequestsOf(Findings, was.findings), RequestsOf(Coverage, was.coverage);
    GrantedMore(server.answers, server.requests, d + f, c);
    GrantedMore(server.answers, server.requests, d, f);
    NotBegun(was.findings, tables.findings);
    NotBegun(was.coverage, tables.coverage);
    ok := SubmitKind(spool, server, Devices);
    assert spool.lanes.findings == was.findings && spool.lanes.coverage == was.coverage;
    assert server.tables.findings == tables.findings && server.tables.coverage == tables.coverage;
    if !ok {
      return;
    }
    ghost var first, stored := spool.lanes.devices, server.tables.devices;
    ok := SubmitKind(spool, server, Findings);
    assert spool.lanes.devices == first && spool.lanes.coverage == was.coverage;
    assert server.tables.devices == stored && server.tables.coverage == tables.coverage;
    if !ok {
      return;
    }
    ghost var second, stored' := spool.lanes.findings, server.tables.findings;
    ok := SubmitKind(spool, server, Coverage);
    assert spool.lanes.devices == first && spool.lanes.findings == second;
    assert server.tables.devices == stored && server.tables.findings == stored';
  }

  /** The spool can be emptied: there is room to seal what is open, and the server accepts every request. */
  ghost predicate Submits(spool: JobSpool, server: Server)
    reads spool, server
  {
    && Room(spool.Used(), spool.disk, spool.writes, spool.maxBytes, BytesToSeal(spool.lanes), FilesToSeal(spool.lanes))
    && Granted(server.answers, server.requests, AllRequests(SealedLanes(spool.lanes)))
  }

  /** Every pending record is still pending or stored. */
  ghost predicate NothingLost(was: Lane, now: Lane, t: Table) {
    forall r :: r in Pending(was) ==> r in Pending(now) || Stored(t, r)
  }

  lemma UploadingLoses(was: Lane, sealed: Lane, now: Lane, t: Table)
    requires Pending(sealed) == Pending(was) && Uploading(sealed, now, t)
    ensures NothingLost(was, now, t)
  {
    forall r | r in Pending(was) ensures r in Pending(now) || Stored(t, r) {
      if r in Rows(sealed.files) {
        RowsFrom(sealed.files, r);
        var f :| f in sealed.files && r in f.rows;
        if f in now.files {
          RowsHave(now.files, f, r);
        }
      }
    }
  }

  lemma {:induction false} RowsFrom(files: seq<Chunk>, r: Record)
    requires r in Rows(files)
    ensures exists f :: f in files && r in f.rows
  {
    var front, last := files[..|files| - 1], files[|files| - 1];
    assert files == front + [last];
    if r in Rows(front) {
      RowsFrom(front, r);
      var f :| f in front && r in f.rows;
      assert f in files;
    } else {
      assert last in files && r in last.rows;
    }
  }

  lemma {:induction false} RowsHave(files: seq<Chunk>, f: Chunk, r: Record)
    requires f in files && r in f.rows
    ensures r in Rows(files)
  {
    var front, last := files[..|files| - 1], files[|files| - 1];
    assert files == front + [last];
    if f in front {
      RowsHave(front, f, r);
    }
  }

  method SubmitSpool(spool: JobSpool, server: Server) returns (ok: bool)
    requires spool.Valid()
    modifies spool`lanes, spool`tmpBytes, spool`writes, server
    ensures spool.Valid()
    ensures forall k: Kind :: NothingLost(old(spool.lanes).Get(k), spool.lanes.Get(k), server.tables.Get(k))
    ensures ok <==> old(Submits(spool, server))
    ensures ok ==> forall k: Kind ::
      Emptied(SealedLanes(old(spool.lanes)).Get(k), spool.lanes.Get(k), old(server.tables).Get(k), server.tables.Get(k))
  {
    var error := spool.SealAll();
    ghost var sealed := spool.lanes;
    assert AllPending(sealed).Get(Devices) == AllPending(old(spool.lanes)).Get(Devices);
    if error.Some? {
      return false;
    }
    ok := SubmitKinds(spool, server);
    forall k: Kind ensures NothingLost(old(spool.lanes).Get(k), spool.lanes.Get(k), server.tables.Get(k)) {
      UploadingLoses(old(spool.lanes).Get(k), sealed.Get(k), spool.lanes.Get(k), server.tables.Get(k));
    }
  }

  /**
   finish_pipeline_run: success is reported exactly if no stage failed, what is open could be sealed
   and the server accepted every request; whenever the latter two hold the spool is empty and the
   server has stored every pending record, also if a stage failed.  Otherwise nothing is lost.
   */
  method FinishPipelineRun(spool: JobSpool, server: Server, pipelineFailed: bool, provenanceFailed: bool) returns (ok: bool)
    requires spool.Valid()
    modifies spool`lanes, spool`tmpBytes, spool`writes, server
    ensures spool.Valid()
    ensures ok <==> !pipelineFailed && !provenanceFailed && old(Submits(spool, server))
    ensures forall k: Kind :: NothingLost(old(spool.lanes).Get(k), spool.lanes.Get(k), server.tables.Get(k))
    ensures old(Submits(spool, server)) ==> forall k: Kind :: spool.lanes.Get(k).files == [] && spool.lanes.Get(k).open == []
    ensures old(Submits(spool, server)) ==>
      forall k: Kind :: Delivered(old(spool.lanes).Get(k), old(server.tables).Get(k), server.tables.Get(k))
  {
    ghost var was, tables := spool.lanes, server.tables;
    ghost var limits := spool.limits;
    var submitted := SubmitSpool(spool, server);
    if submitted {
      forall k: Kind
        ensures spool.lanes.Get(k).files == [] && spool.lanes.Get(k).open == []
        ensures Delivered(was.Get(k), tables.Get(k), server.tables.Get(k))
      {
        LaneAt(was, limits, k);
        EmptiedDelivers(was.Get(k), spool.lanes.Get(k), tables.Get(k), server.tables.Get(k), limits);
      }
      NothingPending(spool.lanes);
    }
    if pipelineFailed || provenanceFailed || !submitted {
      return false;
    }
    ok := !spool.HasPending();
  }

  /** Up to six-digit numbers the server has the pending records of a kind in append order. */
  ghost predicate Delivered(was: Lane, before: Table, t: Table) {
    SealedLane(was).number <= 999999 ==> t == StoreRows(before, Pending(was))
  }

  lemma EmptiedDelivers(was: Lane, now: Lane, before: Table, t: Table, limits: Limits)
    requires LaneOk(was, limits) && Emptied(SealedLane(was), now, before, t)
    ensures Delivered(was, before, t) && now.files == [] && now.open == []
  {
    if SealedLane(was).number <= 999999 {
      ListedIsPending(was, limits);
    }
  }

  lemma NothingPending(lanes: PerKind<Lane>)
    requires forall k: Kind :: lanes.Get(k).files == [] && lanes.Get(k).open == []
    ensures lanes.devices.files == [] && lanes.findings.files == [] && lanes.coverage.files == [] && NothingOpen(lanes)
  {
    assert lanes.Get(Devices).files == [] && lanes.Get(Findings).files == [] && lanes.Get(Coverage).files == [];
    assert lanes.Get(Devices).open == [] && lanes.Get(Findings).open == [] && lanes.Get(Coverage).open == [];
  }

  lemma ListedIsPending(l: Lane, limits: Limits)
    requires LaneOk(l, limits) && SealedLane(l).number <= 999999
    ensures Rows(ReadyChunks(SealedLane(l).files)) == Pending(l)
  {
    SealedMeans(l, limits);
    ListingKeepsOrder(SealedLane(l).files, SealedLane(l).number);
    assert Rows(SealedLane(l).files) + [] == Rows(SealedLane(l).files);
  }
}
