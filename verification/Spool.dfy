/** JobSpool: records collect in memory, are sealed into files, and leave when they are acknowledged. */
module Spool {
  import opened Options
  import opened Extremes
  import opened Chunks
  import opened SpoolDir

  datatype SpoolError = RecordTooLarge | CapExceeded | WriteFailed

  /** One kind of record: its sealed files, its open batch with the encoded sizes, and its last file number. */
  datatype Lane = Lane(files: seq<Chunk>, open: seq<Record>, sizes: seq<nat>, number: nat)

  ghost predicate LaneOk(l: Lane, limits: Limits) {
    && |l.sizes| == |l.open| && Sum(l.sizes) == Total(l.open, Worker)
    && (l.open != [] ==> Fits(l.open, limits, Worker))
    && Ascending(l.files, l.number)
  }

  /** The records neither acknowledged nor lost, in append order. */
  function Pending(l: Lane): seq<Record> {
    Rows(l.files) + l.open
  }

  /** The same lane as the chunker of a plain list sees it. */
  function Fed(l: Lane): Feeding {
    Feeding(Batches(l.files), l.open)
  }

  function SealedLane(l: Lane): Lane {
    if l.open == [] then l else Lane(l.files + [Chunk(l.number + 1, l.open)], [], [], l.number + 1)
  }

  function AppendedLane(l: Lane, r: Record, limits: Limits): Lane {
    var room := if MustSeal(l.open, r, limits) then SealedLane(l) else l;
    OpenedLane(room, r)
  }

  function AckedLane(l: Lane, f: Chunk): Lane {
    l.(files := Without(l.files, f))
  }

  /** Sealing writes exactly the open batch: nothing pending changes. */
  lemma SealedMeans(l: Lane, limits: Limits)
    requires LaneOk(l, limits)
    ensures LaneOk(SealedLane(l), limits) && SealedLane(l).open == []
    ensures Pending(SealedLane(l)) == Pending(l)
    ensures Batches(SealedLane(l).files) == Flush(Fed(l))
    ensures Bytes(SealedLane(l).files) == Bytes(l.files) + if l.open == [] then 0 else ListBytes(l.open, Worker)
    ensures l.open != [] ==> SealedLane(l).number == l.number + 1 && SealedLane(l).files[|l.files|].number == l.number + 1
  {
    if l.open != [] {
      RowsSnoc(l.files, Chunk(l.number + 1, l.open));
      AscendingSnoc(l.files, l.number, Chunk(l.number + 1, l.open));
    }
  }

  lemma OpenedOk(l: Lane, r: Record, limits: Limits)
    requires LaneOk(l, limits) && limits.maxRows >= 1 && !Oversized(r, limits, Worker) && !MustSeal(l.open, r, limits)
    ensures LaneOk(OpenedLane(l, r), limits)
  {
    SumSnoc(l.sizes, r.sent);
    TotalSnoc(l.open, r, Worker);
  }

  /** Appending is the chunker's feed step, and adds the record at the end of what is pending. */
  lemma AppendedMeans(l: Lane, r: Record, limits: Limits)
    requires LaneOk(l, limits) && limits.maxRows >= 1 && !Oversized(r, limits, Worker)
    ensures LaneOk(AppendedLane(l, r, limits), limits)
    ensures Pending(AppendedLane(l, r, limits)) == Pending(l) + [r]
    ensures Fed(AppendedLane(l, r, limits)) == Feed(Fed(l), r, limits)
  {
    SealedMeans(l, limits);
    var room := if MustSeal(l.open, r, limits) then SealedLane(l) else l;
    OpenedOk(room, r, limits);
    Assoc(Rows(room.files), room.open, [r]);
    assert room.open == [] ==> room.open + [r] == [r];
  }

  lemma AckedMeans(l: Lane, f: Chunk, limits: Limits)
    requires LaneOk(l, limits)
    ensures LaneOk(AckedLane(l, f), limits)
    ensures Bytes(AckedLane(l, f).files) <= Bytes(l.files)
    ensures forall g :: g in AckedLane(l, f).files <==> g in l.files && g != f
    ensures l.files != [] && f == l.files[0] ==> AckedLane(l, f).files == l.files[1..] && Pending(l) == f.rows + Pending(AckedLane(l, f))
  {
    WithoutAscending(l.files, f, l.number);
    WithoutBytes(l.files, f);
    forall g ensures g in Without(l.files, f) <==> g in l.files && g != f {
      WithoutMember(l.files, f, g);
    }
    if l.files != [] && f == l.files[0] {
      WithoutFirst(l.files, l.number);
      RowsFirst(l.files);
      Assoc(f.rows, Rows(l.files[1..]), l.open);
    }
  }

  function DirOf(lanes: PerKind<Lane>, tmpBytes: nat, done: Option<nat>): Dir {
    Dir(PerKind(lanes.devices.files, lanes.findings.files, lanes.coverage.files), tmpBytes, done)
  }

  lemma DirBytesSet(lanes: PerKind<Lane>, tmpBytes: nat, done: Option<nat>, k: Kind, l: Lane)
    ensures DirBytes(DirOf(lanes.Set(k, l), tmpBytes, done)) ==
      DirBytes(DirOf(lanes, tmpBytes, done)) - Bytes(lanes.Get(k).files) + Bytes(l.files)
  {
  }

  ghost predicate LanesOk(lanes: PerKind<Lane>, limits: Limits) {
    forall l :: lanes.Has(l) ==> LaneOk(l, limits)
  }

  lemma LaneAt(lanes: PerKind<Lane>, limits: Limits, k: Kind)
    requires LanesOk(lanes, limits)
    ensures LaneOk(lanes.Get(k), limits)
  {
    assert lanes.Has(lanes.Get(k));
  }

  lemma LanesOkSet(lanes: PerKind<Lane>, limits: Limits, k: Kind, l: Lane)
    requires LanesOk(lanes, limits) && LaneOk(l, limits)
    ensures LanesOk(lanes.Set(k, l), limits)
  {
    forall m | lanes.Set(k, l).Has(m) ensures m == l || lanes.Has(m) {
    }
  }

  function OpenedLane(l: Lane, r: Record): Lane {
    l.(open := l.open + [r], sizes := l.sizes + [r.sent])
  }

  /** Bytes that move from a temporary file to a chunk file leave the total as it is. */
  lemma MovedBytes(lanes: PerKind<Lane>, tmpBytes: nat, rest: nat, done: Option<nat>, k: Kind, l: Lane)
    requires Bytes(l.files) + rest == Bytes(lanes.Get(k).files) + tmpBytes
    ensures DirBytes(DirOf(lanes.Set(k, l), rest, done)) == DirBytes(DirOf(lanes, tmpBytes, done))
  {
    DirBytesSet(lanes, rest, done, k, l);
  }

  /** `rows` were appended to a lane since `start`; a lane that was empty is fed as the chunker would be. */
  ghost predicate Spooled(start: Lane, now: Lane, rows: seq<Record>, limits: Limits) {
    && (Fed(start) == Feeding([], []) ==> Fed(now) == FeedAll(rows, limits))
    && Pending(now) == Pending(start) + rows
  }

  lemma SpooledNone(l: Lane, limits: Limits)
    ensures Spooled(l, l, [], limits)
  {
    assert Pending(l) + [] == Pending(l);
  }

  /** A number used up on the way makes no difference to what is spooled. */
  lemma SpooledAnyNumber(start: Lane, now: Lane, rows: seq<Record>, limits: Limits)
    requires Spooled(start, now, rows, limits)
    ensures Spooled(start, NextNumber(now), rows, limits)
  {
  }

  lemma SpooledNext(start: Lane, now: Lane, rows: seq<Record>, r: Record, limits: Limits)
    requires Spooled(start, now, rows, limits) && LaneOk(now, limits) && limits.maxRows >= 1 && !Oversized(r, limits, Worker)
    ensures Spooled(start, AppendedLane(now, r, limits), rows + [r], limits)
  {
    AppendedMeans(now, r, limits);
    assert (rows + [r])[..|rows|] == rows;
    Assoc(Pending(start), rows, [r]);
  }

  predicate Occupies(dir: Dir, bytes: nat) {
    bytes == DirBytes(dir)
  }

  /** However many bytes the directory occupies, the cap allows them. */
  ghost predicate WithinCap(dir: Dir, maxBytes: int) {
    forall bytes: nat :: Occupies(dir, bytes) ==> bytes <= maxBytes
  }

  /** The files never exceed the cap, and each lane is well formed. */
  ghost predicate SpoolOk(lanes: PerKind<Lane>, tmpBytes: nat, done: Option<nat>, maxBytes: int, limits: Limits) {
    limits.maxRows >= 1 && WithinCap(DirOf(lanes, tmpBytes, done), maxBytes) && LanesOk(lanes, limits)
  }

  /** Directories of the same size are within the same caps. */
  lemma SameSize(dir: Dir, dir': Dir, maxBytes: int)
    requires WithinCap(dir, maxBytes) && DirBytes(dir') <= DirBytes(dir)
    ensures WithinCap(dir', maxBytes)
  {
    assert Occupies(dir, DirBytes(dir));
  }

  lemma RenameOk(lanes: PerKind<Lane>, tmpBytes: nat, bytes: nat, done: Option<nat>, maxBytes: int, limits: Limits, k: Kind)
    requires SpoolOk(lanes, tmpBytes + bytes, done, maxBytes, limits)
    requires lanes.Get(k).open != [] && bytes == ListBytes(lanes.Get(k).open, Worker)
    ensures SpoolOk(lanes.Set(k, SealedLane(lanes.Get(k))), tmpBytes, done, maxBytes, limits)
  {
    var lane := lanes.Get(k);
    LaneAt(lanes, limits, k);
    SealedMeans(lane, limits);
    LanesOkSet(lanes, limits, k, SealedLane(lane));
    MovedBytes(lanes, tmpBytes + bytes, tmpBytes, done, k, SealedLane(lane));
    SameSize(DirOf(lanes, tmpBytes + bytes, done), DirOf(lanes.Set(k, SealedLane(lane)), tmpBytes, done), maxBytes);
  }

  lemma UseNumberOk(lanes: PerKind<Lane>, tmpBytes: nat, done: Option<nat>, maxBytes: int, limits: Limits, k: Kind)
    requires SpoolOk(lanes, tmpBytes, done, maxBytes, limits)
    ensures SpoolOk(lanes.Set(k, NextNumber(lanes.Get(k))), tmpBytes, done, maxBytes, limits)
  {
    var lane := lanes.Get(k);
    LaneAt(lanes, limits, k);
    AscendingMore(lane.files, lane.number, lane.number + 1);
    LanesOkSet(lanes, limits, k, NextNumber(lane));
    MovedBytes(lanes, tmpBytes, tmpBytes, done, k, NextNumber(lane));
    SameSize(DirOf(lanes, tmpBytes, done), DirOf(lanes.Set(k, NextNumber(lane)), tmpBytes, done), maxBytes);
  }

  lemma DoneOk(lanes: PerKind<Lane>, tmpBytes: nat, done: Option<nat>, meta: nat, maxBytes: int, limits: Limits)
    requires SpoolOk(lanes, tmpBytes + meta, done, maxBytes, limits)
    ensures SpoolOk(lanes, tmpBytes, Some(meta), maxBytes, limits)
  {
    SameSize(DirOf(lanes, tmpBytes + meta, done), DirOf(lanes, tmpBytes, Some(meta)), maxBytes);
  }

  lemma GrownOk(lanes: PerKind<Lane>, tmpBytes: nat, more: nat, done: Option<nat>, maxBytes: int, limits: Limits)
    requires SpoolOk(lanes, tmpBytes, done, maxBytes, limits)
    requires DirBytes(DirOf(lanes, tmpBytes, done)) + more <= maxBytes
    ensures SpoolOk(lanes, tmpBytes + more, done, maxBytes, limits)
  {
  }

  lemma OpenedLaneOk(lanes: PerKind<Lane>, tmpBytes: nat, done: Option<nat>, maxBytes: int, limits: Limits, k: Kind, r: Record)
    requires SpoolOk(lanes, tmpBytes, done, maxBytes, limits)
    requires !Oversized(r, limits, Worker) && !MustSeal(lanes.Get(k).open, r, limits)
    ensures SpoolOk(lanes.Set(k, OpenedLane(lanes.Get(k), r)), tmpBytes, done, maxBytes, limits)
  {
    var l := OpenedLane(lanes.Get(k), r);
    LaneAt(lanes, limits, k);
    OpenedOk(lanes.Get(k), r, limits);
    LanesOkSet(lanes, limits, k, l);
    MovedBytes(lanes, tmpBytes, tmpBytes, done, k, l);
    SameSize(DirOf(lanes, tmpBytes, done), DirOf(lanes.Set(k, l), tmpBytes, done), maxBytes);
  }

  lemma AckedLaneOk(lanes: PerKind<Lane>, tmpBytes: nat, done: Option<nat>, maxBytes: int, limits: Limits, k: Kind, f: Chunk)
    requires SpoolOk(lanes, tmpBytes, done, maxBytes, limits)
    ensures SpoolOk(lanes.Set(k, AckedLane(lanes.Get(k), f)), tmpBytes, done, maxBytes, limits)
  {
    var l := AckedLane(lanes.Get(k), f);
    LaneAt(lanes, limits, k);
    AckedMeans(lanes.Get(k), f, limits);
    LanesOkSet(lanes, limits, k, l);
    DirBytesSet(lanes, tmpBytes, done, k, l);
    SameSize(DirOf(lanes, tmpBytes, done), DirOf(lanes.Set(k, l), tmpBytes, done), maxBytes);
  }

  /** A number is used up although no chunk appears. */
  function NextNumber(l: Lane): Lane {
    l.(number := l.number + 1)
  }

  predicate OthersSame(lanes: PerKind<Lane>, lanes': PerKind<Lane>, k: Kind) {
    forall j: Kind :: j != k ==> lanes'.Get(j) == lanes.Get(j)
  }

  function SealedLanes(lanes: PerKind<Lane>): PerKind<Lane> {
    PerKind(SealedLane(lanes.devices), SealedLane(lanes.findings), SealedLane(lanes.coverage))
  }

  function AllPending(lanes: PerKind<Lane>): PerKind<seq<Record>> {
    PerKind(Pending(lanes.devices), Pending(lanes.findings), Pending(lanes.coverage))
  }

  predicate NothingOpen(lanes: PerKind<Lane>) {
    lanes.devices.open == [] && lanes.findings.open == [] && lanes.coverage.open == []
  }

  lemma InOrder(l: Lane, limits: Limits)
    requires LaneOk(l, limits)
    ensures l.number <= 999999 ==> Rows(ReadyChunks(l.files)) + l.open == Pending(l)
  {
    if l.number <= 999999 {
      ListingKeepsOrder(l.files, l.number);
    }
  }

  // ---------------------------------------------------------------- what may go wrong on the disk

  /** How writes end, the first one first: whole, or cut short after some bytes.  Beyond the list they are whole. */
  type Disk = seq<Option<nat>>

  /** The write after the first `n` is cut short. */
  predicate CutShort(disk: Disk, n: nat) {
    n < |disk| && disk[n].Some?
  }

  /** What a write that would bring the directory to `total` bytes runs into. */
  function WriteError(total: nat, maxBytes: int, disk: Disk, n: nat): Option<SpoolError> {
    if total > maxBytes then Some(CapExceeded) else if CutShort(disk, n) then Some(WriteFailed) else None
  }

  predicate NeverCutShort(disk: Disk) {
    forall i :: 0 <= i < |disk| ==> !CutShort(disk, i)
  }

  /** After the first `n` writes the next `count` are whole. */
  predicate Whole(disk: Disk, n: nat, count: nat) {
    forall i :: n <= i < n + count ==> !CutShort(disk, i)
  }

  function OpenFiles(l: Lane): nat {
    if l.open == [] then 0 else 1
  }

  function OpenBytes(l: Lane): nat {
    if l.open == [] then 0 else ListBytes(l.open, Worker)
  }

  /** How many files it takes to seal everything, and their size. */
  function FilesToSeal(lanes: PerKind<Lane>): nat {
    OpenFiles(lanes.devices) + OpenFiles(lanes.findings) + OpenFiles(lanes.coverage)
  }

  function BytesToSeal(lanes: PerKind<Lane>): nat {
    OpenBytes(lanes.devices) + OpenBytes(lanes.findings) + OpenBytes(lanes.coverage)
  }

  /** There is room for `bytes` more in `files` whole writes. */
  predicate Room(used: nat, disk: Disk, n: nat, maxBytes: int, bytes: nat, files: nat) {
    used + bytes <= maxBytes && Whole(disk, n, files)
  }

  lemma RoomNext(used: nat, disk: Disk, n: nat, maxBytes: int, bytes: nat, more: nat, files: nat)
    ensures Room(used, disk, n, maxBytes, bytes + more, 1 + files) <==>
      WriteError(used + bytes, maxBytes, disk, n).None? && Room(used + bytes, disk, n + 1, maxBytes, more, files)
  {
    assert Whole(disk, n, 1 + files) <==> !CutShort(disk, n) && Whole(disk, n + 1, files) by {
      if !CutShort(disk, n) && Whole(disk, n + 1, files) {
        forall i | n <= i < n + 1 + files ensures !CutShort(disk, i) {
        }
      }
    }
  }

  lemma RoomLast(used: nat, disk: Disk, n: nat, maxBytes: int, bytes: nat, last: nat, files: nat)
    ensures Room(used, disk, n, maxBytes, bytes + last, files + 1) <==>
      Room(used, disk, n, maxBytes, bytes, files) && WriteError(used + bytes + last, maxBytes, disk, n + files).None?
  {
    if Whole(disk, n, files + 1) {
      assert !CutShort(disk, n + files);
    }
  }

  lemma ToSealSet(lanes: PerKind<Lane>, k: Kind, l: Lane)
    ensures OpenBytes(lanes.Get(k)) <= BytesToSeal(lanes)
    ensures BytesToSeal(lanes.Set(k, l)) == BytesToSeal(lanes) - OpenBytes(lanes.Get(k)) + OpenBytes(l)
  {
  }

  /** Sealing a kind moves its open bytes to the directory; using up a number moves nothing. */
  lemma SealedBytes(lanes: PerKind<Lane>, tmpBytes: nat, done: Option<nat>, limits: Limits, k: Kind)
    requires LanesOk(lanes, limits)
    ensures var lanes' := lanes.Set(k, SealedLane(lanes.Get(k)));
      && DirBytes(DirOf(lanes', tmpBytes, done)) == DirBytes(DirOf(lanes, tmpBytes, done)) + OpenBytes(lanes.Get(k))
      && BytesToSeal(lanes') == BytesToSeal(lanes) - OpenBytes(lanes.Get(k))
      && AllPending(lanes') == AllPending(lanes) && lanes'.Get(k).open == []
    ensures var lanes' := lanes.Set(k, NextNumber(lanes.Get(k)));
      && DirBytes(DirOf(lanes', tmpBytes, done)) == DirBytes(DirOf(lanes, tmpBytes, done))
      && BytesToSeal(lanes') == BytesToSeal(lanes) && AllPending(lanes') == AllPending(lanes)
  {
    var l := lanes.Get(k);
    LaneAt(lanes, limits, k);
    SealedMeans(l, limits);
    DirBytesSet(lanes, tmpBytes, done, k, SealedLane(l));
    DirBytesSet(lanes, tmpBytes, done, k, NextNumber(l));
    ToSealSet(lanes, k, SealedLane(l));
    ToSealSet(lanes, k, NextNumber(l));
  }

  method ReadAll(listing: seq<Chunk>) returns (records: seq<Record>)
    ensures records == Rows(listing)
  {
    records := [];
    for n := 0 to |listing|
      invariant records == Rows(listing[..n])
    {
      assert listing[..n + 1] == listing[..n] + [listing[n]];
      RowsSnoc(listing[..n], listing[n]);
      records := records + listing[n].rows;
    }
    assert listing[..|listing|] == listing;
  }

  class JobSpool {
    const maxBytes: int
    const limits: Limits
    var lanes: PerKind<Lane>
    // Bytes of the temporary files whose own file never appeared.
    var tmpBytes: nat
    var done: Option<nat>
    const disk: Disk
    // How many writes there have been.
    var writes: nat

    ghost function Directory(): Dir
      reads this
    {
      DirOf(lanes, tmpBytes, done)
    }

    /** The bytes of all files of the directory. */
    ghost function Used(): nat
      reads this
    {
      DirBytes(DirOf(lanes, tmpBytes, done))
    }

    ghost predicate Valid()
      reads this
    {
      SpoolOk(lanes, tmpBytes, done, maxBytes, limits)
    }

    /** Opening a job's directory resumes numbering after its highest chunks and discards temporary files. */
    constructor (found: Dir, maxBytes: int, limits: Limits, disk: Disk)
      requires limits.maxRows >= 1 && DirBytes(found) <= maxBytes
      requires Ascending(found.files.devices, Highest(found.files.devices))
      requires Ascending(found.files.findings, Highest(found.files.findings))
      requires Ascending(found.files.coverage, Highest(found.files.coverage))
      ensures Valid() && this.maxBytes == maxBytes && this.limits == limits && this.disk == disk && writes == 0
      ensures Directory() == found.(tmpBytes := 0)
      ensures forall k: Kind :: lanes.Get(k) == Lane(found.files.Get(k), [], [], Highest(found.files.Get(k)))
    {
      this.maxBytes := maxBytes;
      this.limits := limits;
      this.disk := disk;
      writes := 0;
      tmpBytes, done := 0, found.done;
      SameSize(found, found.(tmpBytes := 0), maxBytes);
      lanes := PerKind(
        Lane(found.files.devices, [], [], Highest(found.files.devices)),
        Lane(found.files.findings, [], [], Highest(found.files.findings)),
        Lane(found.files.coverage, [], [], Highest(found.files.coverage)));
    }

    method DiskBytes() returns (n: nat)
      ensures n == DirBytes(Directory())
    {
      n := Bytes(lanes.devices.files) + Bytes(lanes.findings.files) + Bytes(lanes.coverage.files) + tmpBytes;
      if done.Some? {
        n := n + done.value;
      }
    }

    /**
     The first half of _atomic_write_json: unless the cap refuses it, the data goes to a temporary file.
     The write may be cut short anywhere, and what was written stays; the cap holds in every case.
     */
    method WriteTmp(bytes: nat) returns (error: Option<SpoolError>)
      requires Valid()
      modifies this`tmpBytes, this`writes
      ensures Valid() && error == WriteError(old(Used()) + bytes, maxBytes, disk, old(writes))
      ensures error == Some(CapExceeded) ==> tmpBytes == old(tmpBytes)
      ensures error == Some(WriteFailed) ==> tmpBytes == old(tmpBytes) + MinNat(bytes, disk[old(writes)].value)
      ensures error.None? ==> tmpBytes == old(tmpBytes) + bytes
      ensures writes == old(writes) + if error == Some(CapExceeded) then 0 else 1
    {
      var used := DiskBytes();
      if used + bytes > maxBytes {
        return Some(CapExceeded);
      }
      var cut := CutShort(disk, writes);
      var written := if cut then MinNat(bytes, disk[writes].value) else bytes;
      GrownOk(lanes, tmpBytes, written, done, maxBytes, limits);
      tmpBytes := tmpBytes + written;
      writes := writes + 1;
      return if cut then Some(WriteFailed) else None;
    }

    /** The second half: the temporary file is renamed to be the chunk of the open batch. */
    method Rename(k: Kind, bytes: nat)
      requires Valid() && lanes.Get(k).open != [] && bytes == ListBytes(lanes.Get(k).open, Worker) && tmpBytes >= bytes
      modifies this`lanes, this`tmpBytes
      ensures Valid() && lanes == old(lanes).Set(k, SealedLane(old(lanes).Get(k))) && tmpBytes == old(tmpBytes) - bytes
    {
      RenameOk(lanes, tmpBytes - bytes, bytes, done, maxBytes, limits, k);
      lanes := lanes.Set(k, SealedLane(lanes.Get(k)));
      tmpBytes := tmpBytes - bytes;
    }

    /** The write failed after the number had been taken. */
    method UseNumber(k: Kind)
      requires Valid()
      modifies this`lanes
      ensures Valid() && lanes == old(lanes).Set(k, NextNumber(old(lanes).Get(k)))
    {
      UseNumberOk(lanes, tmpBytes, done, maxBytes, limits, k);
      lanes := lanes.Set(k, NextNumber(lanes.Get(k)));
    }

    /** What sealing a kind runs into: the cap, a write cut short, or nothing. */
    ghost function SealError(k: Kind): Option<SpoolError>
      reads this
    {
      var open := lanes.Get(k).open;
      if open == [] then None
      else WriteError(Used() + ListBytes(open, Worker), maxBytes, disk, writes)
    }

    /** seal: write the open batch to its own file, or keep it open (the number is used up). */
    method Seal(k: Kind) returns (error: Option<SpoolError>)
      requires Valid()
      modifies this`lanes, this`tmpBytes, this`writes
      ensures Valid() && error == old(SealError(k)) && error != Some(RecordTooLarge)
      ensures error.None? ==> lanes == old(lanes).Set(k, SealedLane(old(lanes).Get(k))) && tmpBytes == old(tmpBytes)
      ensures error.Some? ==> lanes == old(lanes).Set(k, NextNumber(old(lanes).Get(k))) && old(lanes).Get(k).open != []
      ensures error.Some? ==> lanes.Get(k).number == old(lanes).Get(k).number + 1
      ensures writes == old(writes) + if old(lanes).Get(k).open == [] || error == Some(CapExceeded) then 0 else 1
      ensures error == Some(CapExceeded) ==> tmpBytes == old(tmpBytes)
    {
      if lanes.Get(k).open == [] {
        assert SealedLane(lanes.Get(k)) == lanes.Get(k);
        return None;
      }
      var bytes := ListBytes(lanes.Get(k).open, Worker);
      error := WriteTmp(bytes);
      if error.None? {
        Rename(k, bytes);
      } else {
        UseNumber(k);
      }
    }

    /** The first half of append: seal if the record would not fit beside the open ones. */
    method MakeRoom(k: Kind, r: Record) returns (error: Option<SpoolError>)
      requires Valid()
      modifies this`lanes, this`tmpBytes, this`writes
      ensures Valid()
      ensures error == if MustSeal(old(lanes).Get(k).open, r, limits) then old(SealError(k)) else None
      ensures error.None? ==>
        lanes == old(lanes).Set(k, if MustSeal(old(lanes).Get(k).open, r, limits) then SealedLane(old(lanes).Get(k)) else old(lanes).Get(k))
      ensures error.Some? ==> lanes == old(lanes).Set(k, NextNumber(old(lanes).Get(k)))
      ensures error == Some(CapExceeded) ==> tmpBytes == old(tmpBytes)
    {
      var lane := lanes.Get(k);
      var nextCount := |lane.open| + 1;
      var nextBytes := 2 + Sum(lane.sizes) + r.sent + |lane.open|;
      LaneAt(lanes, limits, k);
      assert nextBytes == 2 + Total(lane.open, Worker) + r.sent + |lane.open|;
      error := None;
      if lane.open != [] && (nextCount > limits.maxRows || nextBytes > limits.maxBytes) {
        error := Seal(k);
      }
    }

    /** append */
    method Append(k: Kind, r: Record) returns (error: Option<SpoolError>)
      requires Valid()
      modifies this`lanes, this`tmpBytes, this`writes
      ensures Valid()
      ensures error ==
        if Oversized(r, limits, Worker) then Some(RecordTooLarge)
        else if MustSeal(old(lanes).Get(k).open, r, limits) then old(SealError(k))
        else None
      ensures error.None? ==> lanes == old(lanes).Set(k, AppendedLane(old(lanes).Get(k), r, limits))
      ensures error == Some(RecordTooLarge) ==> lanes == old(lanes)
      ensures error.Some? && error.value != RecordTooLarge ==> lanes == old(lanes).Set(k, NextNumber(old(lanes).Get(k)))
      ensures error == Some(CapExceeded) ==> tmpBytes == old(tmpBytes)
    {
      var size := r.sent;
      if 2 + size > limits.maxBytes {
        return Some(RecordTooLarge);
      }
      error := MakeRoom(k, r);
      if error.Some? {
        return;
      }
      OpenedLaneOk(lanes, tmpBytes, done, maxBytes, limits, k, r);
      var lane := lanes.Get(k);
      lanes := lanes.Set(k, lane.(open := lane.open + [r], sizes := lane.sizes + [size]));
    }

    /** seal_all: goes through exactly if there is room for all open batches and none of their writes is cut short. */
    method SealAll() returns (error: Option<SpoolError>)
      requires Valid()
      modifies this`lanes, this`tmpBytes, this`writes
      ensures Valid() && error != Some(RecordTooLarge)
      ensures error.None? <==> Room(old(Used()), disk, old(writes), maxBytes, BytesToSeal(old(lanes)), FilesToSeal(old(lanes)))
      ensures error.None? ==> lanes == SealedLanes(old(lanes)) && tmpBytes == old(tmpBytes)
      ensures error.None? ==> Used() == old(Used()) + BytesToSeal(old(lanes)) && writes == old(writes) + FilesToSeal(old(lanes))
      ensures error.None? <==> NothingOpen(lanes)
      ensures error.Some? && NeverCutShort(disk) ==> Used() + BytesToSeal(lanes) > maxBytes
      ensures AllPending(lanes) == AllPending(old(lanes))
    {
      error := SealFirstTwo();
      if error.None? {
        error := SealNext(Coverage, 0, 0);
      }
    }

    method SealFirstTwo() returns (error: Option<SpoolError>)
      requires Valid()
      modifies this`lanes, this`tmpBytes, this`writes
      ensures Valid() && error != Some(RecordTooLarge)
      ensures error.None? ==> lanes == PerKind(SealedLane(old(lanes).devices), SealedLane(old(lanes).findings), old(lanes).coverage)
      ensures error.None? ==> tmpBytes == old(tmpBytes) && lanes.devices.open == [] && lanes.findings.open == []
      ensures error.None? ==>
        && Used() == old(Used()) + OpenBytes(old(lanes).devices) + OpenBytes(old(lanes).findings)
        && writes == old(writes) + OpenFiles(old(lanes).devices) + OpenFiles(old(lanes).findings)
      ensures error.Some? ==> !NothingOpen(lanes)
      ensures AllPending(lanes) == AllPending(old(lanes))
      ensures Room(old(Used()), disk, old(writes), maxBytes, BytesToSeal(old(lanes)), FilesToSeal(old(lanes))) <==>
        error.None? && Room(Used(), disk, writes, maxBytes, OpenBytes(lanes.coverage), OpenFiles(lanes.coverage))
      ensures NeverCutShort(disk) ==> Used() + BytesToSeal(lanes) == old(Used()) + BytesToSeal(old(lanes))
    {
      var f, c := lanes.findings, lanes.coverage;
      ghost var moreBytes, moreFiles := OpenBytes(f) + OpenBytes(c), OpenFiles(f) + OpenFiles(c);
      assert BytesToSeal(lanes) == OpenBytes(lanes.Get(Devices)) + moreBytes && FilesToSeal(lanes) == OpenFiles(lanes.Get(Devices)) + moreFiles;
      error := SealNext(Devices, moreBytes, moreFiles);
      assert lanes.findings == f && lanes.coverage == c;
      if error.None? {
        error := SealNext(Findings, OpenBytes(c), OpenFiles(c));
        assert lanes.coverage == c && lanes.devices.open == [];
      }
    }

    /** Sealing one kind, with `more` bytes in `files` files to come after it. */
    method SealNext(k: Kind, ghost more: nat, ghost files: nat) returns (error: Option<SpoolError>)
      requires Valid()
      modifies this`lanes, this`tmpBytes, this`writes
      ensures Valid() && error != Some(RecordTooLarge)
      ensures error.None? ==> lanes == old(lanes).Set(k, SealedLane(old(lanes).Get(k))) && tmpBytes == old(tmpBytes)
      ensures error.Some? ==> lanes == old(lanes).Set(k, NextNumber(old(lanes).Get(k))) && old(lanes).Get(k).open != []
      ensures error.None? ==> Used() == old(Used()) + OpenBytes(old(lanes).Get(k)) && writes == old(writes) + OpenFiles(old(lanes).Get(k))
      ensures AllPending(lanes) == AllPending(old(lanes)) && (error.None? ==> lanes.Get(k).open == [])
      ensures Room(old(Used()), disk, old(writes), maxBytes, OpenBytes(old(lanes).Get(k)) + more, OpenFiles(old(lanes).Get(k)) + files) <==>
        error.None? && Room(Used(), disk, writes, maxBytes, more, files)
      ensures Room(Used(), disk, writes, maxBytes, 0, 0)
      ensures NeverCutShort(disk) ==> Used() + BytesToSeal(lanes) == old(Used()) + BytesToSeal(old(lanes))
    {
      assert Occupies(Directory(), Used());
      ghost var open := lanes.Get(k).open;
      SealedBytes(lanes, tmpBytes, done, limits, k);
      RoomNext(Used(), disk, writes, maxBytes, OpenBytes(lanes.Get(k)), more, files);
      error := Seal(k);
      assert Occupies(Directory(), Used());
      if open == [] {
        assert lanes == old(lanes);
      }
    }

    /** The pipeline spools a list of rows by appending them one by one. */
    method SpoolRows(k: Kind, rows: seq<Record>) returns (error: Option<SpoolError>, ghost taken: nat)
      requires Valid()
      modifies this`lanes, this`tmpBytes, this`writes
      ensures Valid()
      ensures taken <= |rows| && (error.None? <==> taken == |rows|)
      ensures Spooled(old(lanes).Get(k), lanes.Get(k), rows[..taken], limits)
      ensures OthersSame(old(lanes), lanes, k)
      // what stopped it, if anything did
      ensures error == Some(RecordTooLarge) <==> taken < |rows| && Oversized(rows[taken], limits, Worker)
      ensures error == Some(CapExceeded) ==> Used() + OpenBytes(lanes.Get(k)) > maxBytes
      ensures error == Some(WriteFailed) ==> !NeverCutShort(disk)
    {
      error, taken := None, 0;
      assert rows[..0] == [];
      SpooledNone(lanes.Get(k), limits);
      for n := 0 to |rows|
        invariant Valid() && taken == n && error.None?
        invariant Spooled(old(lanes).Get(k), lanes.Get(k), rows[..n], limits)
        invariant OthersSame(old(lanes), lanes, k)
      {
        ghost var lane := lanes.Get(k);
        LaneAt(lanes, limits, k);
        error := Append(k, rows[n]);
        if error.Some? {
          SpooledAnyNumber(old(lanes).Get(k), lane, rows[..n], limits);
          return;
        }
        SpooledNext(old(lanes).Get(k), lane, rows[..n], rows[n], limits);
        assert rows[..n + 1] == rows[..n] + [rows[n]];
        taken := n + 1;
      }
      assert rows[..|rows|] == rows;
    }

    /**
     mark_pipeline_complete: nothing is left unsealed when pipeline.done appears, and it appears exactly
     if there is room for it beside all open batches and no write is cut short.
     */
    method MarkPipelineComplete(metaBytes: nat) returns (error: Option<SpoolError>)
      requires Valid()
      modifies this`lanes, this`tmpBytes, this`done, this`writes
      ensures Valid()
      ensures error.None? <==>
        Room(old(Used()), disk, old(writes), maxBytes, BytesToSeal(old(lanes)) + metaBytes, FilesToSeal(old(lanes)) + 1)
      ensures error.None? ==> done == Some(metaBytes) && NothingOpen(lanes)
      ensures error.Some? ==> done == old(done)
      ensures AllPending(lanes) == AllPending(old(lanes))
    {
      ghost var used, bytes, files := Used(), BytesToSeal(lanes), FilesToSeal(lanes);
      RoomLast(used, disk, writes, maxBytes, bytes, metaBytes, files);
      error := SealAll();
      if error.Some? {
        return;
      }
      assert Used() == used + bytes;
      error := WriteDone(metaBytes);
    }

    /** Write pipeline.done by temporary file and rename, unless the cap refuses it or the write is cut short. */
    method WriteDone(metaBytes: nat) returns (error: Option<SpoolError>)
      requires Valid()
      modifies this`tmpBytes, this`done, this`writes
      ensures Valid()
      ensures error.None? ==> done == Some(metaBytes)
      ensures error.Some? ==> done == old(done)
      ensures error == WriteError(old(Used()) + metaBytes, maxBytes, disk, old(writes))
    {
      error := WriteTmp(metaBytes);
      if error.None? {
        DoneOk(lanes, tmpBytes - metaBytes, done, metaBytes, maxBytes, limits);
        tmpBytes := tmpBytes - metaBytes;
        done := Some(metaBytes);
      }
    }

    method AckDelete(k: Kind, f: Chunk)
      requires Valid()
      modifies this`lanes
      ensures Valid() && lanes == old(lanes).Set(k, AckedLane(old(lanes).Get(k), f))
    {
      AckedLaneOk(lanes, tmpBytes, done, maxBytes, limits, k, f);
      lanes := lanes.Set(k, AckedLane(lanes.Get(k), f));
    }

    /** iter_records: listed chunks first, then what is still open. */
    method IterRecords(k: Kind) returns (records: seq<Record>)
      requires Valid()
      ensures records == Rows(ReadyChunks(lanes.Get(k).files)) + lanes.Get(k).open
      ensures lanes.Get(k).number <= 999999 ==> records == Pending(lanes.Get(k))
    {
      LaneAt(lanes, limits, k);
      InOrder(lanes.Get(k), limits);
      records := ReadAll(ReadyChunks(lanes.Get(k).files));
      records := records + lanes.Get(k).open;
    }

    predicate HasPending()
      reads this
    {
      || lanes.devices.files != [] || lanes.findings.files != [] || lanes.coverage.files != []
      || lanes.devices.open != [] || lanes.findings.open != [] || lanes.coverage.open != []
    }
  }

  /**
   The pipeline's use of the spool for one kind: append every record, then seal all.  The chunk files
   are exactly the batches that the chunker makes of the list.  It fails only if a record is too large
   for any chunk, a write is cut short, or the cap has no room for what is open.
   */
  method SpoolThenSeal(spool: JobSpool, k: Kind, rows: seq<Record>) returns (error: Option<SpoolError>)
    requires spool.Valid() && Fed(spool.lanes.Get(k)) == Feeding([], [])
    modifies spool`lanes, spool`tmpBytes, spool`writes
    ensures spool.Valid()
    ensures error.None? ==>
      Batches(spool.lanes.Get(k).files) == Flush(FeedAll(rows, spool.limits)) && spool.lanes.Get(k).open == []
    ensures error == Some(RecordTooLarge) ==> exists r :: r in rows && Oversized(r, spool.limits, Worker)
    ensures error.Some? && error != Some(RecordTooLarge) ==>
      !NeverCutShort(spool.disk) || spool.Used() + BytesToSeal(spool.lanes) > spool.maxBytes
  {
    ghost var taken;
    error, taken := spool.SpoolRows(k, rows);
    if error.Some? {
      assert taken < |rows| && rows[taken] in rows;
      var e := error.value;
      assert error == Some(e) && (e.RecordTooLarge? || e.CapExceeded? || e.WriteFailed?);
      ToSealSet(spool.lanes, k, spool.lanes.Get(k));
      return;
    }
    assert rows[..taken] == rows;
    ghost var lane := spool.lanes.Get(k);
    LaneAt(spool.lanes, spool.limits, k);
    SealedMeans(lane, spool.limits);
    error := spool.SealAll();
    assert error.None? ==> spool.lanes.Get(k) == SealedLane(lane);
  }
}
