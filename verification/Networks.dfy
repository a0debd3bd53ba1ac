/**
 IP networks as aligned power-of-two blocks of addresses, with the operations of Python's ipaddress
 library that the scanner relies on.
 */
module Networks {
  import opened Extremes

  // A network of 2^bits addresses starting at base (bits is the width minus the prefix length).
  datatype Net = Net(v6: bool, base: nat, bits: nat)

  function Width(v6: bool): nat {
    if v6 then 128 else 32
  }

  function Pow2(n: nat): (r: nat)
    ensures r >= 1
  {
    if n == 0 then 1 else 2 * Pow2(n - 1)
  }

  predicate Aligned(base: nat, bits: nat) {
    bits == 0 || (base % 2 == 0 && Aligned(base / 2, bits - 1))
  }

  function End(n: Net): nat {
    n.base + Pow2(n.bits)
  }

  ghost predicate ValidNet(n: Net) {
    n.bits <= Width(n.v6) && Aligned(n.base, n.bits) && End(n) <= Pow2(Width(n.v6))
  }

  ghost predicate ValidNets(nets: seq<Net>) {
    forall n :: n in nets ==> ValidNet(n)
  }

  predicate Has(n: Net, v6: bool, a: nat) {
    n.v6 == v6 && n.base <= a < End(n)
  }

  ghost predicate Covers(nets: seq<Net>, v6: bool, a: nat) {
    exists n :: n in nets && Has(n, v6, a)
  }

  predicate Overlaps(a: Net, b: Net) {
    a.v6 == b.v6 && a.base < End(b) && b.base < End(a)
  }

  /** b.subnet_of(a) within one version */
  predicate Within(b: Net, a: Net) {
    a.base <= b.base && End(b) <= End(a)
  }

  function Lower(n: Net): Net
    requires n.bits > 0
  {
    Net(n.v6, n.base, n.bits - 1)
  }

  function Upper(n: Net): Net
    requires n.bits > 0
  {
    Net(n.v6, n.base + Pow2(n.bits - 1), n.bits - 1)
  }

  function Supernet(n: Net): Net {
    if n.bits >= Width(n.v6) then n
    else if Aligned(n.base, n.bits + 1) then Net(n.v6, n.base, n.bits + 1)
    else if n.base >= Pow2(n.bits) then Net(n.v6, n.base - Pow2(n.bits), n.bits + 1)
    else n
  }

  // ---------------------------------------------------------------- alignment

  lemma {:induction false} AlignedHalves(base: nat, bits: nat)
    requires bits > 0 && Aligned(base, bits)
    ensures Aligned(base, bits - 1)
    ensures Aligned(base + Pow2(bits - 1), bits - 1)
    ensures !Aligned(base + Pow2(bits - 1), bits)
  {
    if bits > 1 {
      AlignedHalves(base / 2, bits - 1);
      assert (base + Pow2(bits - 1)) / 2 == base / 2 + Pow2(bits - 2);
    }
  }

  /** Two aligned blocks overlap only if one contains the other. */
  lemma {:induction false} BlocksNest(a: nat, i: nat, b: nat, j: nat)
    requires Aligned(a, i) && Aligned(b, j) && i <= j
    requires a < b + Pow2(j) && b < a + Pow2(i)
    ensures b <= a && a + Pow2(i) <= b + Pow2(j)
  {
    if i > 0 {
      BlocksNest(a / 2, i - 1, b / 2, j - 1);
    }
  }

  lemma NetsNest(a: Net, b: Net)
    requires ValidNet(a) && ValidNet(b) && Overlaps(a, b)
    ensures Within(a, b) || Within(b, a)
    ensures a.bits <= b.bits ==> Within(a, b)
  {
    if a.bits <= b.bits {
      BlocksNest(a.base, a.bits, b.base, b.bits);
    } else {
      BlocksNest(b.base, b.bits, a.base, a.bits);
    }
  }

  lemma {:induction false} Pow2Monotone(i: nat, j: nat)
    requires i <= j
    ensures Pow2(i) <= Pow2(j)
    ensures i < j ==> 2 * Pow2(i) <= Pow2(j)
  {
    if i < j {
      Pow2Monotone(i, j - 1);
    }
  }

  lemma Halves(n: Net)
    requires ValidNet(n) && n.bits > 0
    ensures ValidNet(Lower(n)) && ValidNet(Upper(n))
    ensures End(Lower(n)) == Upper(n).base && End(Upper(n)) == End(n)
    ensures Supernet(Lower(n)) == n && Supernet(Upper(n)) == n
  {
    AlignedHalves(n.base, n.bits);
  }

  lemma {:induction false} AlignedParent(base: nat, bits: nat)
    requires Aligned(base, bits) && !Aligned(base, bits + 1)
    ensures base >= Pow2(bits) && Aligned(base - Pow2(bits), bits + 1)
  {
    if bits > 0 {
      AlignedParent(base / 2, bits - 1);
      assert (base - Pow2(bits)) / 2 == base / 2 - Pow2(bits - 1);
    }
  }

  lemma {:induction false} AlignedFits(base: nat, bits: nat, width: nat)
    requires Aligned(base, bits) && bits <= width && base < Pow2(width)
    ensures base + Pow2(bits) <= Pow2(width)
  {
    if bits > 0 {
      AlignedFits(base / 2, bits - 1, width - 1);
    }
  }

  /** A supernet is a network whose halves are the network and its sibling. */
  lemma SupernetOfHalf(n: Net)
    requires ValidNet(n) && n.bits < Width(n.v6)
    ensures ValidNet(Supernet(n)) && Supernet(n).bits == n.bits + 1 && Supernet(n).v6 == n.v6
    ensures n == Lower(Supernet(n)) || n == Upper(Supernet(n))
  {
    if !Aligned(n.base, n.bits + 1) {
      AlignedParent(n.base, n.bits);
    }
    AlignedFits(Supernet(n).base, n.bits + 1, Width(n.v6));
  }

  /** The block of all addresses has no supernet but itself. */
  lemma SupernetOfAll(n: Net)
    requires ValidNet(n) && n.bits == Width(n.v6)
    ensures Supernet(n) == n
  {
  }

  lemma {:induction false} Pow2Sum(i: nat, j: nat)
    ensures Pow2(i + j) == Pow2(i) * Pow2(j)
  {
    if j > 0 {
      Pow2Sum(i, j - 1);
      DoubleProduct(Pow2(i), Pow2(j - 1));
    }
  }

  lemma DoubleProduct(a: nat, b: nat)
    ensures 2 * (a * b) == a * (2 * b)
  {
  }

  lemma Squared(n: nat, p: nat)
    requires Pow2(n) == p
    ensures Pow2(n + n) == p * p
  {
    Pow2Sum(n, n);
  }

  lemma PowersOfTwo(n: nat)
    requires n == 4
    ensures Pow2(8 * n) == 0x1_0000_0000 && Pow2(32 * n) == 0x1_0000_0000_0000_0000_0000_0000_0000_0000
  {
    assert Pow2(n) == 16;
    Squared(n, 16);
    Squared(2 * n, 0x100);
    Squared(4 * n, 0x1_0000);
    Squared(8 * n, 0x1_0000_0000);
    Squared(16 * n, 0x1_0000_0000_0000_0000);
  }

  /** There are 2^32 addresses of version 4 and 2^128 of version 6, and together they are one valid block. */
  lemma AddressSpace(v6: bool)
    ensures Pow2(Width(v6)) == if v6 then 0x1_0000_0000_0000_0000_0000_0000_0000_0000 else 0x1_0000_0000
    ensures ValidNet(Net(v6, 0, if v6 then 128 else 32))
  {
    PowersOfTwo(Width(v6) / (if v6 then 32 else 8));
    ZeroAligned(Width(v6));
  }

  lemma {:induction false} ZeroAligned(bits: nat)
    ensures Aligned(0, bits)
  {
    if bits > 0 {
      ZeroAligned(bits - 1);
    }
  }

  lemma {:induction false} TopBlock(base: nat, bits: nat, width: nat)
    requires Aligned(base, bits) && bits == width && base + Pow2(bits) <= Pow2(width)
    ensures base == 0
  {
  }

  /** Two different networks under one supernet make it up between them. */
  lemma SiblingsMerge(a: Net, b: Net, v6: bool, x: nat)
    requires ValidNet(a) && ValidNet(b) && a != b && Supernet(a) == Supernet(b)
    ensures ValidNet(Supernet(a))
    ensures Has(Supernet(a), v6, x) <==> Has(a, v6, x) || Has(b, v6, x)
  {
    SupernetVersion(a);
    SupernetVersion(b);
    if a.bits < Width(a.v6) {
      SupernetOfHalf(a);
      Halves(Supernet(a));
    }
    if b.bits < Width(b.v6) {
      SupernetOfHalf(b);
      Halves(Supernet(b));
    }
    if a.bits == Width(a.v6) {
      TopBlock(a.base, a.bits, Width(a.v6));
    }
    if b.bits == Width(b.v6) {
      TopBlock(b.base, b.bits, Width(b.v6));
    }
  }

  lemma SupernetVersion(n: Net)
    ensures Supernet(n).v6 == n.v6
  {
  }

  // ---------------------------------------------------------------- address_exclude

  /** The blocks left of `n` when the block `o` inside it is taken out, largest first. */
  function AddressExclude(n: Net, o: Net): seq<Net>
    decreases n.bits
  {
    if o == n || n.bits == 0 then []
    else if Within(o, Lower(n)) then [Upper(n)] + AddressExclude(Lower(n), o)
    else [Lower(n)] + AddressExclude(Upper(n), o)
  }

  lemma {:induction false} AddressExcludeDenotes(n: Net, o: Net, v6: bool, x: nat)
    requires ValidNet(n) && ValidNet(o) && n.v6 == o.v6 && Within(o, n)
    ensures ValidNets(AddressExclude(n, o))
    ensures forall p :: p in AddressExclude(n, o) ==> p.v6 == n.v6
    ensures Covers(AddressExclude(n, o), v6, x) <==> Has(n, v6, x) && !Has(o, v6, x)
    decreases n.bits
  {
    if o != n {
      SmallerBlock(n, o);
      Halves(n);
      SmallerInHalf(n, o);
      var (kept, rest) := if Within(o, Lower(n)) then (Upper(n), Lower(n)) else (Lower(n), Upper(n));
      AddressExcludeDenotes(rest, o, v6, x);
      var tail := AddressExclude(rest, o);
      assert AddressExclude(n, o) == [kept] + tail;
      assert Covers([kept] + tail, v6, x) <==> Has(kept, v6, x) || Covers(tail, v6, x) by {
        CoversAppend([kept], tail, v6, x);
        CoversOne(kept, v6, x);
      }
    }
  }

  lemma SmallerBlock(n: Net, o: Net)
    requires n.v6 == o.v6 && Within(o, n) && o != n
    ensures o.bits < n.bits
  {
    if n.bits <= o.bits {
      Pow2Monotone(n.bits, o.bits);
    }
  }

  lemma SmallerInHalf(n: Net, o: Net)
    requires ValidNet(n) && ValidNet(o) && n.v6 == o.v6 && Within(o, n) && o != n && n.bits > 0
    ensures Within(o, Lower(n)) || Within(o, Upper(n))
    ensures !(Within(o, Lower(n)) && Within(o, Upper(n)))
  {
    Halves(n);
    SmallerBlock(n, o);
    if Overlaps(o, Lower(n)) {
      NetsNest(o, Lower(n));
    } else {
      assert Overlaps(o, Upper(n));
      NetsNest(o, Upper(n));
    }
  }

  lemma CoversOne(n: Net, v6: bool, x: nat)
    ensures Covers([n], v6, x) <==> Has(n, v6, x)
  {
    assert n in [n];
  }

  lemma CoversAppend(a: seq<Net>, b: seq<Net>, v6: bool, x: nat)
    ensures Covers(a + b, v6, x) <==> Covers(a, v6, x) || Covers(b, v6, x)
  {
    if Covers(a, v6, x) {
      var n :| n in a && Has(n, v6, x);
      assert n in a + b;
    }
    if Covers(b, v6, x) {
      var n :| n in b && Has(n, v6, x);
      assert n in a + b;
    }
  }

  // ---------------------------------------------------------------- summarize_address_range

  function TrailingZeros(x: nat, width: nat): (r: nat)
    ensures r <= width
  {
    if width == 0 || x % 2 == 1 then 0 else 1 + TrailingZeros(x / 2, width - 1)
  }

  /** n.bit_length() - 1 */
  function Log2(n: nat): nat
    requires n >= 1
  {
    if n == 1 then 0 else 1 + Log2(n / 2)
  }

  function SummarizeRange(v6: bool, first: nat, last: int): seq<Net>
    decreases last - first
  {
    if first > last then []
    else
      var bits := MinNat(TrailingZeros(first, Width(v6)), Log2(last - first + 1));
      [Net(v6, first, bits)] + SummarizeRange(v6, first + Pow2(bits), last)
  }

  lemma {:induction false} TrailingAligned(x: nat, width: nat, bits: nat)
    requires bits <= TrailingZeros(x, width)
    ensures Aligned(x, bits)
  {
    if bits > 0 {
      TrailingAligned(x / 2, width - 1, bits - 1);
    }
  }

  lemma {:induction false} Log2Power(n: nat)
    requires n >= 1
    ensures Pow2(Log2(n)) <= n < 2 * Pow2(Log2(n))
  {
    if n > 1 {
      Log2Power(n / 2);
    }
  }

  lemma FirstBlock(v6: bool, first: nat, last: nat)
    requires first <= last < Pow2(Width(v6))
    ensures var n := Net(v6, first, MinNat(TrailingZeros(first, Width(v6)), Log2(last - first + 1)));
      ValidNet(n) && first < End(n) <= last + 1
  {
    var bits := MinNat(TrailingZeros(first, Width(v6)), Log2(last - first + 1));
    TrailingAligned(first, Width(v6), bits);
    Log2Power(last - first + 1);
    Pow2Monotone(bits, Log2(last - first + 1));
  }

  lemma {:induction false} TrailingExact(x: nat, width: nat, bits: nat)
    requires TrailingZeros(x, width) < bits <= width
    ensures !Aligned(x, bits)
  {
    if x % 2 == 0 {
      TrailingExact(x / 2, width - 1, bits - 1);
    }
  }

  /** Each block of a summary is the largest that may stand at its place: no larger one is aligned there and fits in the range. */
  lemma SummarizeGreedy(v6: bool, first: nat, last: nat, bits: nat)
    requires first <= last < Pow2(Width(v6))
    ensures var blocks := SummarizeRange(v6, first, last);
      && blocks != [] && blocks[0].base == first && blocks[1..] == SummarizeRange(v6, End(blocks[0]), last)
      && (blocks[0].bits < bits <= Width(v6) ==> !Aligned(first, bits) || first + Pow2(bits) > last + 1)
  {
    var n := SummarizeRange(v6, first, last)[0];
    if n.bits < bits <= Width(v6) {
      if TrailingZeros(first, Width(v6)) < bits {
        TrailingExact(first, Width(v6), bits);
      } else {
        Log2Power(last - first + 1);
        Pow2Monotone(Log2(last - first + 1), bits);
      }
    }
  }

  /** The summary of a range covers exactly the range, with valid blocks. */
  lemma {:induction false} SummarizeDenotes(v6: bool, first: nat, last: int, v: bool, x: nat)
    requires last < Pow2(Width(v6))
    ensures ValidNets(SummarizeRange(v6, first, last))
    ensures forall n :: n in SummarizeRange(v6, first, last) ==> n.v6 == v6
    ensures Covers(SummarizeRange(v6, first, last), v, x) <==> v == v6 && first <= x <= last
    decreases last - first
  {
    if first <= last {
      FirstBlock(v6, first, last);
      var n := Net(v6, first, MinNat(TrailingZeros(first, Width(v6)), Log2(last - first + 1)));
      SummarizeDenotes(v6, End(n), last, v, x);
      CoversAppend([n], SummarizeRange(v6, End(n), last), v, x);
      CoversOne(n, v, x);
    }
  }
}
