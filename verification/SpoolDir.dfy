/** The files of one job's spool directory, kind by kind, in the order they were sealed. */
module SpoolDir {
  import opened Options
  import opened Chunks
  import opened SpoolNames

  datatype Kind = Devices | Findings | Coverage

  datatype PerKind<T> = PerKind(devices: T, findings: T, coverage: T) {
    function Get(k: Kind): T {
      match k
      case Devices => devices
      case Findings => findings
      case Coverage => coverage
    }

    ghost predicate Has(x: T) {
      x == devices || x == findings || x == coverage
    }

    function Set(k: Kind, x: T): (r: PerKind<T>)
      ensures r.Get(k) == x && forall j :: j != k ==> r.Get(j) == Get(j)
    {
      match k
      case Devices => PerKind(x, findings, coverage)
      case Findings => PerKind(devices, x, coverage)
      case Coverage => PerKind(devices, findings, x)
    }
  }

  /** A sealed chunk file: its number within its kind, and the list it holds. */
  datatype Chunk = Chunk(number: nat, rows: seq<Record>)

  /** Sealed chunks, the bytes of unfinished temporary files, and the size of pipeline.done if it exists. */
  datatype Dir = Dir(files: PerKind<seq<Chunk>>, tmpBytes: nat, done: Option<nat>)

  function Bytes(files: seq<Chunk>): nat {
    if files == [] then 0 else Bytes(files[..|files| - 1]) + ListBytes(files[|files| - 1].rows, Worker)
  }

  /** disk_bytes */
  function DirBytes(dir: Dir): nat {
    Bytes(dir.files.devices) + Bytes(dir.files.findings) + Bytes(dir.files.coverage)
    + dir.tmpBytes + if dir.done.Some? then dir.done.value else 0
  }

  function Batches(files: seq<Chunk>): seq<seq<Record>> {
    if files == [] then [] else Batches(files[..|files| - 1]) + [files[|files| - 1].rows]
  }

  function Rows(files: seq<Chunk>): seq<Record> {
    if files == [] then [] else Rows(files[..|files| - 1]) + files[|files| - 1].rows
  }

  function Without(files: seq<Chunk>, f: Chunk): seq<Chunk> {
    if files == [] then [] else if files[0] == f then Without(files[1..], f) else [files[0]] + Without(files[1..], f)
  }

  /** The numbers increase in the order of sealing and do not pass `bound`. */
  predicate Ascending(files: seq<Chunk>, bound: int) {
    files == [] || (files[|files| - 1].number <= bound && Ascending(files[..|files| - 1], files[|files| - 1].number - 1))
  }

  function Highest(files: seq<Chunk>): nat {
    if files == [] then 0
    else
      var h := Highest(files[..|files| - 1]);
      if files[|files| - 1].number > h then files[|files| - 1].number else h
  }

  predicate ListedBefore(a: Chunk, b: Chunk) {
    NameLess(Padded(a.number), Padded(b.number))
  }

  function InsertByName(f: Chunk, sorted: seq<Chunk>): seq<Chunk> {
    if sorted == [] || !ListedBefore(sorted[0], f) then [f] + sorted else [sorted[0]] + InsertByName(f, sorted[1..])
  }

  /** ready_chunks: the sealed files of a kind, sorted by file name. */
  function ReadyChunks(files: seq<Chunk>): seq<Chunk> {
    if files == [] then [] else InsertByName(files[|files| - 1], ReadyChunks(files[..|files| - 1]))
  }

  // ---------------------------------------------------------------- lemmas

  lemma RowsSnoc(files: seq<Chunk>, f: Chunk)
    ensures Batches(files + [f]) == Batches(files) + [f.rows]
    ensures Rows(files + [f]) == Rows(files) + f.rows
    ensures Bytes(files + [f]) == Bytes(files) + ListBytes(f.rows, Worker)
  {
    assert (files + [f])[..|files|] == files;
  }

  lemma Assoc<T>(a: seq<T>, b: seq<T>, c: seq<T>)
    ensures (a + b) + c == a + (b + c)
  {
  }

  lemma {:induction false} RowsFirst(files: seq<Chunk>)
    requires files != []
    ensures Rows(files) == files[0].rows + Rows(files[1..])
    ensures Bytes(files) == ListBytes(files[0].rows, Worker) + Bytes(files[1..])
  {
    var n := |files| - 1;
    var front, last := files[..n], files[n];
    assert files == front + [last];
    RowsSnoc(front, last);
    if n == 0 {
      assert front == [];
    } else {
      RowsFirst(front);
      assert files[1..] == front[1..] + [last];
      RowsSnoc(front[1..], last);
      Assoc(front[0].rows, Rows(front[1..]), last.rows);
    }
  }

  lemma {:induction false} AscendingBound(files: seq<Chunk>, bound: int, f: Chunk)
    requires Ascending(files, bound) && f in files
    ensures f.number <= bound
  {
    var front, last := files[..|files| - 1], files[|files| - 1];
    assert files == front + [last];
    if f != last {
      AscendingBound(front, last.number - 1, f);
    }
  }

  lemma AscendingMore(files: seq<Chunk>, bound: int, more: int)
    requires Ascending(files, bound) && bound <= more
    ensures Ascending(files, more)
  {
  }

  lemma AscendingSnoc(files: seq<Chunk>, bound: int, f: Chunk)
    requires Ascending(files, bound) && bound < f.number
    ensures Ascending(files + [f], f.number)
  {
    assert (files + [f])[..|files|] == files;
    AscendingMore(files, bound, f.number - 1);
  }

  lemma {:induction false} AscendingHighest(files: seq<Chunk>, bound: int)
    requires Ascending(files, bound)
    ensures Ascending(files, Highest(files)) && (files != [] ==> Highest(files) <= bound)
  {
    if files != [] {
      AscendingHighest(files[..|files| - 1], files[|files| - 1].number - 1);
    }
  }

  lemma {:induction false} InsertLast(f: Chunk, sorted: seq<Chunk>)
    requires forall x :: x in sorted ==> ListedBefore(x, f)
    ensures InsertByName(f, sorted) == sorted + [f]
  {
    if sorted != [] {
      assert sorted == [sorted[0]] + sorted[1..];
      InsertLast(f, sorted[1..]);
    }
  }

  lemma HighestListedLast(files: seq<Chunk>, last: Chunk)
    requires Ascending(files, last.number - 1) && last.number <= 999999
    ensures InsertByName(last, files) == files + [last]
  {
    forall f | f in files ensures ListedBefore(f, last) {
      AscendingBound(files, last.number - 1, f);
      NameOrderSmall(f.number, last.number);
    }
    InsertLast(last, files);
  }

  lemma ListedSnoc(front: seq<Chunk>, last: Chunk)
    ensures ReadyChunks(front + [last]) == InsertByName(last, ReadyChunks(front))
  {
    assert (front + [last])[..|front|] == front;
  }

  /** While numbers stay within six digits the listing is the order of sealing. */
  lemma {:induction false} ListingKeepsOrder(files: seq<Chunk>, bound: int)
    requires Ascending(files, bound) && bound <= 999999
    ensures ReadyChunks(files) == files
  {
    if files != [] {
      var front, last := files[..|files| - 1], files[|files| - 1];
      assert files == front + [last];
      HighestListedLast(front, last);
      ListingKeepsOrder(front, last.number - 1);
      ListedSnoc(front, last);
    }
  }

  lemma {:induction false} InsertKeeps(f: Chunk, sorted: seq<Chunk>)
    ensures multiset(InsertByName(f, sorted)) == multiset(sorted) + multiset{f}
  {
    if !(sorted == [] || !ListedBefore(sorted[0], f)) {
      InsertKeeps(f, sorted[1..]);
      assert sorted == [sorted[0]] + sorted[1..];
    }
  }

  lemma MultisetSnoc(files: seq<Chunk>)
    requires files != []
    ensures multiset(files) == multiset(files[..|files| - 1]) + multiset{files[|files| - 1]}
  {
    assert files == files[..|files| - 1] + [files[|files| - 1]];
  }

  /** Whatever the numbers, the listing names each file once. */
  lemma {:induction false} ListingKeepsFiles(files: seq<Chunk>)
    ensures multiset(ReadyChunks(files)) == multiset(files)
  {
    if files != [] {
      ListingKeepsFiles(files[..|files| - 1]);
      InsertKeeps(files[|files| - 1], ReadyChunks(files[..|files| - 1]));
      MultisetSnoc(files);
    }
  }

  lemma ListingMember(files: seq<Chunk>, f: Chunk)
    ensures f in ReadyChunks(files) <==> f in files
    ensures |ReadyChunks(files)| == |files|
  {
    ListingKeepsFiles(files);
    assert f in ReadyChunks(files) <==> f in multiset(ReadyChunks(files));
    assert |multiset(ReadyChunks(files))| == |multiset(files)|;
  }

  lemma {:induction false} WithoutMember(files: seq<Chunk>, f: Chunk, g: Chunk)
    ensures g in Without(files, f) <==> g in files && g != f
  {
    if files != [] {
      assert files == [files[0]] + files[1..];
      WithoutMember(files[1..], f, g);
    }
  }

  lemma {:induction false} WithoutBytes(files: seq<Chunk>, f: Chunk)
    ensures Bytes(Without(files, f)) <= Bytes(files)
  {
    if files != [] {
      WithoutBytes(files[1..], f);
      RowsFirst(files);
      if files[0] != f {
        RowsFirst([files[0]] + Without(files[1..], f));
      }
    }
  }

  lemma {:induction false} WithoutSnoc(files: seq<Chunk>, last: Chunk, f: Chunk)
    ensures Without(files + [last], f) == Without(files, f) + if last == f then [] else [last]
  {
    if files == [] {
      assert files + [last] == [last];
    } else {
      assert (files + [last])[1..] == files[1..] + [last];
      WithoutSnoc(files[1..], last, f);
    }
  }

  lemma {:induction false} WithoutAscending(files: seq<Chunk>, f: Chunk, bound: int)
    requires Ascending(files, bound)
    ensures Ascending(Without(files, f), bound)
  {
    if files != [] {
      var front, last := files[..|files| - 1], files[|files| - 1];
      assert files == front + [last];
      WithoutSnoc(front, last, f);
      WithoutAscending(front, f, last.number - 1);
      if last == f {
        assert Without(files, f) == Without(front, f);
        AscendingMore(Without(front, f), last.number - 1, bound);
      } else {
        AscendingSnoc(Without(front, f), last.number - 1, last);
        AscendingMore(Without(files, f), last.number, bound);
      }
    }
  }

  lemma {:induction false} WithoutAbsent(files: seq<Chunk>, f: Chunk)
    requires f !in files
    ensures Without(files, f) == files
  {
    if files != [] {
      assert files == [files[0]] + files[1..];
      WithoutAbsent(files[1..], f);
    }
  }

  lemma {:induction false} AscendingFirst(files: seq<Chunk>, bound: int)
    requires Ascending(files, bound) && files != []
    ensures files[0] !in files[1..] && Ascending(files[1..], bound)
  {
    var n := |files| - 1;
    if n > 0 {
      var front := files[..n];
      AscendingFirst(front, files[n].number - 1);
      AscendingBound(front, files[n].number - 1, files[0]);
      assert files[1..] == front[1..] + [files[n]];
      AscendingSnoc(front[1..], files[n].number - 1, files[n]);
      AscendingMore(files[1..], files[n].number, bound);
    }
  }

  /** Removing the oldest file leaves the others. */
  lemma WithoutFirst(files: seq<Chunk>, bound: int)
    requires files != [] && Ascending(files, bound)
    ensures Without(files, files[0]) == files[1..]
  {
    AscendingFirst(files, bound);
    WithoutAbsent(files[1..], files[0]);
  }
}
