/**
 The names of sealed chunk files: a number padded to six digits, listed in string order.  The order
 is the numeric one up to 999999 and is characterised exactly beyond.
 */
module SpoolNames {
  type Digits = seq<nat>

  function DigitsOf(n: nat): (r: Digits)
    ensures |r| >= 1
  {
    if n < 10 then [n] else DigitsOf(n / 10) + [n % 10]
  }

  function Zeros(n: nat): (r: Digits)
    ensures |r| == n
  {
    if n == 0 then [] else Zeros(n - 1) + [0]
  }

  /** f"{n:06d}" */
  function Padded(n: nat): (r: Digits)
    ensures |r| >= 6
  {
    var d := DigitsOf(n);
    if |d| < 6 then Zeros(6 - |d|) + d else d
  }

  /** String order of two file names of one kind: the '.' that ends the number sorts before every digit. */
  predicate NameLess(a: Digits, b: Digits) {
    if b == [] then false
    else if a == [] then true
    else a[0] < b[0] || (a[0] == b[0] && NameLess(a[1..], b[1..]))
  }

  function Value(d: Digits): nat {
    if d == [] then 0 else 10 * Value(d[..|d| - 1]) + d[|d| - 1]
  }

  function Pow10(n: nat): (r: nat)
    ensures r >= 1
  {
    if n == 0 then 1 else 10 * Pow10(n - 1)
  }

  /** The number with its last `w` digits cut off. */
  function Cut(n: nat, w: nat): nat {
    if w == 0 then n else Cut(n / 10, w - 1)
  }

  predicate Decimal(d: Digits) {
    forall i :: 0 <= i < |d| ==> d[i] < 10
  }

  lemma ValueSnoc(d: Digits, c: nat)
    ensures Value(d + [c]) == 10 * Value(d) + c
  {
    assert (d + [c])[..|d|] == d;
  }

  lemma {:induction false} ZerosValue(n: nat)
    ensures Value(Zeros(n)) == 0 && Decimal(Zeros(n))
  {
    if n > 0 {
      ZerosValue(n - 1);
      ValueSnoc(Zeros(n - 1), 0);
    }
  }

  lemma {:induction false} DigitsValue(n: nat)
    ensures Value(DigitsOf(n)) == n && Decimal(DigitsOf(n))
  {
    if n < 10 {
      assert [n][..0] == [];
    } else {
      DigitsValue(n / 10);
      ValueSnoc(DigitsOf(n / 10), n % 10);
    }
  }

  lemma {:induction false} ValueLead(z: Digits, d: Digits)
    requires Value(z) == 0
    ensures Value(z + d) == Value(d)
  {
    if d == [] {
      assert z + d == z;
    } else {
      assert (z + d)[..|z + d| - 1] == z + d[..|d| - 1];
      ValueLead(z, d[..|d| - 1]);
    }
  }

  lemma LeadingZeros(z: nat, d: Digits)
    requires Decimal(d)
    ensures Value(Zeros(z) + d) == Value(d) && Decimal(Zeros(z) + d)
  {
    ZerosValue(z);
    ValueLead(Zeros(z), d);
  }

  lemma PaddedValue(n: nat)
    ensures Value(Padded(n)) == n && Decimal(Padded(n))
  {
    DigitsValue(n);
    if |DigitsOf(n)| < 6 {
      LeadingZeros(6 - |DigitsOf(n)|, DigitsOf(n));
    }
  }

  lemma {:induction false} LessSnoc(a: Digits, b: Digits, c: nat, d: nat)
    requires |a| == |b|
    ensures NameLess(a + [c], b + [d]) <==> NameLess(a, b) || (a == b && c < d)
  {
    if a == [] {
      assert a + [c] == [c] && b + [d] == [d];
    } else {
      assert (a + [c])[1..] == a[1..] + [c] && (b + [d])[1..] == b[1..] + [d];
      LessSnoc(a[1..], b[1..], c, d);
      assert a == b <==> a[0] == b[0] && a[1..] == b[1..];
    }
  }

  /** Equally long names are ordered by number, and equal numbers have equal names. */
  lemma {:induction false} SameWidthOrder(a: Digits, b: Digits)
    requires |a| == |b| && Decimal(a) && Decimal(b)
    ensures NameLess(a, b) <==> Value(a) < Value(b)
    ensures a == b <==> Value(a) == Value(b)
  {
    if a != [] {
      var n := |a| - 1;
      SameWidthOrder(a[..n], b[..n]);
      assert a == a[..n] + [a[n]] && b == b[..n] + [b[n]];
      LessSnoc(a[..n], b[..n], a[n], b[n]);
    }
  }

  lemma {:induction false} LessPrefix(a: Digits, b: Digits)
    requires |a| <= |b|
    ensures NameLess(a, b) <==> NameLess(a, b[..|a|]) || (a == b[..|a|] && |a| < |b|)
  {
    if a != [] {
      LessPrefix(a[1..], b[1..]);
      assert b[1..][..|a| - 1] == b[..|a|][1..];
      assert a == b[..|a|] <==> a[0] == b[0] && a[1..] == b[1..][..|a| - 1];
    }
  }

  lemma {:induction false} WidthMonotone(a: nat, b: nat)
    requires a <= b
    ensures |DigitsOf(a)| <= |DigitsOf(b)|
  {
    if a >= 10 {
      WidthMonotone(a / 10, b / 10);
    }
  }

  lemma {:induction false} PrefixValue(d: Digits, w: nat)
    requires Decimal(d) && w <= |d|
    ensures Value(d[..|d| - w]) == Cut(Value(d), w)
  {
    if w == 0 {
      assert d[..|d|] == d;
    } else {
      var front := d[..|d| - 1];
      PrefixValue(front, w - 1);
      assert front[..|front| - (w - 1)] == d[..|d| - w];
      assert Value(front) == Value(d) / 10;
    }
  }

  /**
   When an earlier file's name sorts first, exactly: the later number cut to the earlier one's width
   must not be smaller.
   */
  lemma NameOrderExact(a: nat, b: nat)
    requires a < b
    ensures |Padded(a)| <= |Padded(b)|
    ensures NameLess(Padded(a), Padded(b)) <==> a <= Cut(b, |Padded(b)| - |Padded(a)|)
    ensures !NameLess(Padded(b), Padded(a)) <==> NameLess(Padded(a), Padded(b))
  {
    WidthMonotone(a, b);
    PaddedValue(a);
    PaddedValue(b);
    var x, y := Padded(a), Padded(b);
    var p := y[..|x|];
    LessPrefix(x, y);
    PrefixValue(y, |y| - |x|);
    SameWidthOrder(x, p);
    NameTotal(x, y);
  }

  lemma {:induction false} NameTotal(a: Digits, b: Digits)
    requires a != b
    ensures NameLess(a, b) <==> !NameLess(b, a)
  {
    if a != [] && b != [] && a[0] == b[0] {
      assert a == [a[0]] + a[1..] && b == [b[0]] + b[1..];
      NameTotal(a[1..], b[1..]);
    }
  }

  lemma {:induction false} SmallWidth(n: nat, w: nat)
    requires n < Pow10(w) && w >= 1
    ensures |DigitsOf(n)| <= w
  {
    if n >= 10 {
      SmallWidth(n / 10, w - 1);
    }
  }

  lemma SixDigits(n: nat)
    requires n <= 999999
    ensures |Padded(n)| == 6
  {
    assert Pow10(6) == 1000000 by {
      assert Pow10(1) == 10 && Pow10(2) == 100 && Pow10(3) == 1000 && Pow10(4) == 10000 && Pow10(5) == 100000;
    }
    SmallWidth(n, 6);
  }

  /** Up to 999999 the listing order is the order of sealing. */
  lemma NameOrderSmall(a: nat, b: nat)
    requires a < b <= 999999
    ensures NameLess(Padded(a), Padded(b)) && !NameLess(Padded(b), Padded(a))
  {
    SixDigits(a);
    SixDigits(b);
    NameOrderExact(a, b);
  }

  /** The millionth chunk is listed before its predecessor. */
  lemma NameOrderBreaks()
    ensures NameLess(Padded(1000000), Padded(999999))
  {
    SixDigits(999999);
    SixDigits(100000);
    assert DigitsOf(1000000) == DigitsOf(100000) + [0];
    NameOrderExact(999999, 1000000);
    assert Cut(1000000, 1) == 100000;
  }
}
