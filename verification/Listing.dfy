/** What sorting a directory's chunk files by name keeps, whatever their numbers. */
module Listing {
  import opened SpoolNames
  import opened SpoolDir

  lemma {:induction false} NameAsymmetric(a: Digits, b: Digits)
    ensures NameLess(a, b) ==> !NameLess(b, a)
  {
    if a != [] && b != [] && a[0] == b[0] {
      NameAsymmetric(a[1..], b[1..]);
    }
  }

  lemma {:induction false} NotLessTransitive(a: Digits, b: Digits, c: Digits)
    requires !NameLess(a, b) && !NameLess(b, c)
    ensures !NameLess(a, c)
  {
    if a != [] && b != [] && c != [] && a[0] == b[0] == c[0] {
      NotLessTransitive(a[1..], b[1..], c[1..]);
    }
  }

  predicate ByName(files: seq<Chunk>) {
    files == [] || (ByName(files[1..]) && forall g :: g in files[1..] ==> !ListedBefore(g, files[0]))
  }

  lemma NotBeforeHead(sorted: seq<Chunk>, f: Chunk, g: Chunk)
    requires ByName(sorted) && sorted != [] && g in sorted && !ListedBefore(sorted[0], f)
    ensures !ListedBefore(g, f)
  {
    assert sorted == [sorted[0]] + sorted[1..];
    if g != sorted[0] {
      NotLessTransitive(Padded(g.number), Padded(sorted[0].number), Padded(f.number));
    }
  }

  lemma InsertMember(f: Chunk, sorted: seq<Chunk>, g: Chunk)
    ensures g in InsertByName(f, sorted) <==> g == f || g in sorted
  {
    InsertKeeps(f, sorted);
    assert g in InsertByName(f, sorted) <==> g in multiset(InsertByName(f, sorted));
  }

  lemma {:induction false} InsertSorted(f: Chunk, sorted: seq<Chunk>)
    requires ByName(sorted)
    ensures ByName(InsertByName(f, sorted))
  {
    if sorted == [] || !ListedBefore(sorted[0], f) {
      forall g | g in sorted ensures !ListedBefore(g, f) {
        NotBeforeHead(sorted, f, g);
      }
      assert ([f] + sorted)[1..] == sorted;
    } else {
      var tail := InsertByName(f, sorted[1..]);
      InsertSorted(f, sorted[1..]);
      NameAsymmetric(Padded(sorted[0].number), Padded(f.number));
      forall g | g in tail ensures !ListedBefore(g, sorted[0]) {
        InsertMember(f, sorted[1..], g);
      }
      assert ([sorted[0]] + tail)[1..] == tail;
    }
  }

  lemma {:induction false} ListingSorted(files: seq<Chunk>)
    ensures ByName(ReadyChunks(files))
  {
    if files != [] {
      ListingSorted(files[..|files| - 1]);
      InsertSorted(files[|files| - 1], ReadyChunks(files[..|files| - 1]));
    }
  }

  lemma {:induction false} WithoutInserted(f: Chunk, sorted: seq<Chunk>)
    ensures Without(InsertByName(f, sorted), f) == Without(sorted, f)
  {
    if sorted == [] || !ListedBefore(sorted[0], f) {
      assert ([f] + sorted)[1..] == sorted;
    } else {
      var tail := InsertByName(f, sorted[1..]);
      WithoutInserted(f, sorted[1..]);
      assert ([sorted[0]] + tail)[1..] == tail;
    }
  }

  lemma {:induction false} WithoutOther(g: Chunk, sorted: seq<Chunk>, f: Chunk)
    requires ByName(sorted) && f != g
    ensures Without(InsertByName(g, sorted), f) == InsertByName(g, Without(sorted, f))
  {
    var rest := Without(sorted, f);
    if sorted == [] || !ListedBefore(sorted[0], g) {
      assert ([g] + sorted)[1..] == sorted;
      if rest != [] {
        WithoutMember(sorted, f, rest[0]);
        NotBeforeHead(sorted, g, rest[0]);
      }
    } else {
      var tail := InsertByName(g, sorted[1..]);
      WithoutOther(g, sorted[1..], f);
      assert ([sorted[0]] + tail)[1..] == tail;
      assert sorted[0] != f ==> rest[0] == sorted[0] && rest[1..] == Without(sorted[1..], f);
    }
  }

  /** Deleting a file deletes it from the listing and changes nothing else there. */
  lemma {:induction false} ListingWithout(files: seq<Chunk>, f: Chunk)
    ensures ReadyChunks(Without(files, f)) == Without(ReadyChunks(files), f)
  {
    if files != [] {
      var front, last := files[..|files| - 1], files[|files| - 1];
      assert files == front + [last];
      ListingWithout(front, f);
      WithoutSnoc(front, last, f);
      ListingSorted(front);
      if last == f {
        assert Without(front, f) + [] == Without(front, f);
        WithoutInserted(f, ReadyChunks(front));
      } else {
        WithoutOther(last, ReadyChunks(front), f);
        assert (Without(front, f) + [last])[..|Without(front, f)|] == Without(front, f);
      }
    }
  }

  lemma {:induction false} AscendingOnce(files: seq<Chunk>, bound: int, f: Chunk)
    requires Ascending(files, bound)
    ensures multiset(files)[f] <= 1
  {
    if files != [] {
      var front, last := files[..|files| - 1], files[|files| - 1];
      MultisetSnoc(files);
      AscendingOnce(front, last.number - 1, f);
      if f == last && f in front {
        AscendingBound(front, last.number - 1, f);
      }
    }
  }

  /** Deleting the first listed file leaves the rest of the listing. */
  lemma ListingRest(files: seq<Chunk>, bound: int)
    requires Ascending(files, bound) && ReadyChunks(files) != []
    ensures ReadyChunks(Without(files, ReadyChunks(files)[0])) == ReadyChunks(files)[1..]
  {
    var listing := ReadyChunks(files);
    var f := listing[0];
    ListingWithout(files, f);
    AscendingOnce(files, bound, f);
    ListingKeepsFiles(files);
    assert listing == [f] + listing[1..];
    assert multiset(listing)[f] == 1 + multiset(listing[1..])[f];
    WithoutAbsent(listing[1..], f);
  }

  lemma {:induction false} InsertRows(f: Chunk, sorted: seq<Chunk>)
    ensures multiset(Rows(InsertByName(f, sorted))) == multiset(f.rows) + multiset(Rows(sorted))
  {
    RowsFirst(InsertByName(f, sorted));
    if sorted == [] || !ListedBefore(sorted[0], f) {
      assert ([f] + sorted)[1..] == sorted;
    } else {
      var tail := InsertByName(f, sorted[1..]);
      assert ([sorted[0]] + tail)[1..] == tail;
      InsertRows(f, sorted[1..]);
      RowsFirst(sorted);
    }
  }

  /** The listing holds the same records, each as often. */
  lemma {:induction false} ListingRows(files: seq<Chunk>)
    ensures multiset(Rows(ReadyChunks(files))) == multiset(Rows(files))
  {
    if files != [] {
      ListingRows(files[..|files| - 1]);
      InsertRows(files[|files| - 1], ReadyChunks(files[..|files| - 1]));
    }
  }
}
