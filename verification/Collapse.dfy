/**
 ipaddress.collapse_addresses: merge sibling networks upwards, sort, and drop what is contained in
 an earlier one.  The result covers the same addresses and is canonical, so collapsing again
 changes nothing.
 */
module Collapse {
  import opened Options
  import opened Networks

  /** The position of the network already kept under a supernet. */
  function FindUnder(kept: seq<Net>, s: Net): (r: Option<nat>)
    ensures r.Some? ==> r.value < |kept| && Supernet(kept[r.value]) == s
    ensures r.None? ==> forall i :: 0 <= i < |kept| ==> Supernet(kept[i]) != s
  {
    if kept == [] then None
    else if Supernet(kept[|kept| - 1]) == s then Some(|kept| - 1)
    else FindUnder(kept[..|kept| - 1], s)
  }

  function RemoveAt(kept: seq<Net>, i: nat): seq<Net>
    requires i < |kept|
  {
    kept[..i] + kept[i + 1..]
  }

  /** The merge loop: `todo` is a stack, `kept` holds at most one network per supernet. */
  function MergeUp(todo: seq<Net>, kept: seq<Net>): seq<Net>
    decreases 2 * |todo| + |kept|
  {
    if todo == [] then kept
    else
      var net, rest := todo[|todo| - 1], todo[..|todo| - 1];
      var found := FindUnder(kept, Supernet(net));
      if found.None? then MergeUp(rest, kept + [net])
      else if kept[found.value] == net then MergeUp(rest, kept)
      else MergeUp(rest + [Supernet(net)], RemoveAt(kept, found.value))
  }

  /** Sort order of networks: by address, the larger block first. */
  predicate NetBefore(a: Net, b: Net) {
    a.base < b.base || (a.base == b.base && a.bits > b.bits)
  }

  function InsertNet(n: Net, sorted: seq<Net>): seq<Net> {
    if sorted == [] || NetBefore(n, sorted[0]) then [n] + sorted else [sorted[0]] + InsertNet(n, sorted[1..])
  }

  function SortNets(nets: seq<Net>): seq<Net> {
    if nets == [] then [] else InsertNet(nets[0], SortNets(nets[1..]))
  }

  /** Drop the networks that end no later than the last one kept. */
  function DropCovered(sorted: seq<Net>, reach: nat): seq<Net> {
    if sorted == [] then []
    else if End(sorted[0]) <= reach then DropCovered(sorted[1..], reach)
    else [sorted[0]] + DropCovered(sorted[1..], End(sorted[0]))
  }

  function CollapseNets(nets: seq<Net>): seq<Net> {
    DropCovered(SortNets(MergeUp(nets, [])), 0)
  }

  ghost predicate OneVersion(nets: seq<Net>, v6: bool) {
    forall n :: n in nets ==> n.v6 == v6
  }

  ghost predicate OnePerSupernet(nets: seq<Net>) {
    forall i, j :: 0 <= i < j < |nets| ==> Supernet(nets[i]) != Supernet(nets[j])
  }

  /** Sorted, disjoint, and no two networks that a merge would join. */
  predicate Apart(nets: seq<Net>, from: nat) {
    nets == [] || (from <= nets[0].base && Apart(nets[1..], End(nets[0])))
  }

  ghost predicate SoleUnder(nets: seq<Net>) {
    forall a, b :: a in nets && b in nets && Supernet(a) == Supernet(b) ==> a == b
  }

  ghost predicate Canonical(nets: seq<Net>) {
    Apart(nets, 0) && SoleUnder(nets)
  }

  // ---------------------------------------------------------------- the merge loop

  lemma RemoveAtMember(kept: seq<Net>, i: nat, n: Net)
    requires i < |kept|
    ensures n in kept <==> n == kept[i] || n in RemoveAt(kept, i)
  {
    assert kept == kept[..i] + [kept[i]] + kept[i + 1..];
  }

  lemma CoversMember(nets: seq<Net>, nets': seq<Net>, v6: bool, x: nat)
    requires forall n :: n in nets <==> n in nets'
    ensures Covers(nets, v6, x) <==> Covers(nets', v6, x)
  {
  }

  lemma CoversRemove(kept: seq<Net>, i: nat, v6: bool, x: nat)
    requires i < |kept|
    ensures Covers(kept, v6, x) <==> Has(kept[i], v6, x) || Covers(RemoveAt(kept, i), v6, x)
  {
    forall n ensures n in kept <==> n in [kept[i]] + RemoveAt(kept, i) {
      RemoveAtMember(kept, i, n);
    }
    CoversMember(kept, [kept[i]] + RemoveAt(kept, i), v6, x);
    CoversAppend([kept[i]], RemoveAt(kept, i), v6, x);
    CoversOne(kept[i], v6, x);
  }

  lemma CoversSnoc(nets: seq<Net>, n: Net, v6: bool, x: nat)
    ensures Covers(nets + [n], v6, x) <==> Covers(nets, v6, x) || Has(n, v6, x)
  {
    CoversAppend(nets, [n], v6, x);
    CoversOne(n, v6, x);
  }

  lemma {:induction false} MergeUpDenotes(todo: seq<Net>, kept: seq<Net>, version: bool, v6: bool, x: nat)
    requires ValidNets(todo) && ValidNets(kept) && OneVersion(todo, version) && OneVersion(kept, version)
    ensures Covers(MergeUp(todo, kept), v6, x) <==> Covers(todo, v6, x) || Covers(kept, v6, x)
    ensures ValidNets(MergeUp(todo, kept)) && OneVersion(MergeUp(todo, kept), version)
    decreases 2 * |todo| + |kept|
  {
    if todo != [] {
      var net, rest := todo[|todo| - 1], todo[..|todo| - 1];
      assert todo == rest + [net];
      CoversSnoc(rest, net, v6, x);
      var found := FindUnder(kept, Supernet(net));
      if found.None? {
        CoversSnoc(kept, net, v6, x);
        MergeUpDenotes(rest, kept + [net], version, v6, x);
      } else if kept[found.value] == net {
        MergeUpDenotes(rest, kept, version, v6, x);
      } else {
        var i := found.value;
        assert net in todo && kept[i] in kept;
        SiblingsMerge(net, kept[i], v6, x);
        SupernetVersion(net);
        CoversRemove(kept, i, v6, x);
        CoversSnoc(rest, Supernet(net), v6, x);
        MergeUpDenotes(rest + [Supernet(net)], RemoveAt(kept, i), version, v6, x);
      }
    }
  }

  lemma {:induction false} MergeUpUnique(todo: seq<Net>, kept: seq<Net>)
    requires OnePerSupernet(kept)
    ensures OnePerSupernet(MergeUp(todo, kept))
    decreases 2 * |todo| + |kept|
  {
    if todo != [] {
      var net, rest := todo[|todo| - 1], todo[..|todo| - 1];
      var found := FindUnder(kept, Supernet(net));
      if found.None? {
        MergeUpUnique(rest, kept + [net]);
      } else if kept[found.value] == net {
        MergeUpUnique(rest, kept);
      } else {
        MergeUpUnique(rest + [Supernet(net)], RemoveAt(kept, found.value));
      }
    }
  }

  // ---------------------------------------------------------------- sorting and dropping

  lemma {:induction false} InsertMember(n: Net, sorted: seq<Net>)
    ensures multiset(InsertNet(n, sorted)) == multiset(sorted) + multiset{n}
  {
    if !(sorted == [] || NetBefore(n, sorted[0])) {
      InsertMember(n, sorted[1..]);
      assert sorted == [sorted[0]] + sorted[1..];
    }
  }

  lemma {:induction false} SortMember(nets: seq<Net>)
    ensures multiset(SortNets(nets)) == multiset(nets)
  {
    if nets != [] {
      SortMember(nets[1..]);
      InsertMember(nets[0], SortNets(nets[1..]));
      assert nets == [nets[0]] + nets[1..];
    }
  }

  lemma SortedMember(nets: seq<Net>, n: Net)
    ensures n in SortNets(nets) <==> n in nets
  {
    SortMember(nets);
    assert n in SortNets(nets) <==> n in multiset(SortNets(nets));
  }

  predicate Ordered(nets: seq<Net>) {
    nets == [] || (Ordered(nets[1..]) && (nets[1..] == [] || !NetBefore(nets[1], nets[0])))
  }

  lemma {:induction false} InsertOrdered(n: Net, sorted: seq<Net>)
    requires Ordered(sorted)
    ensures Ordered(InsertNet(n, sorted))
    ensures InsertNet(n, sorted) != [] && (InsertNet(n, sorted)[0] == n || (sorted != [] && InsertNet(n, sorted)[0] == sorted[0]))
  {
    if !(sorted == [] || NetBefore(n, sorted[0])) {
      InsertOrdered(n, sorted[1..]);
      var tail := InsertNet(n, sorted[1..]);
      assert ([sorted[0]] + tail)[1..] == tail;
    }
  }

  lemma {:induction false} SortOrdered(nets: seq<Net>)
    ensures Ordered(SortNets(nets))
  {
    if nets != [] {
      SortOrdered(nets[1..]);
      InsertOrdered(nets[0], SortNets(nets[1..]));
    }
  }

  lemma {:induction false} OrderedHead(nets: seq<Net>, n: Net)
    requires Ordered(nets) && n in nets
    ensures n == nets[0] || !NetBefore(n, nets[0])
  {
    if n != nets[0] {
      assert nets == [nets[0]] + nets[1..];
      OrderedHead(nets[1..], n);
    }
  }

  /** Dropping contained networks changes no address and leaves disjoint networks in order. */
  lemma {:induction false} DropCoveredDenotes(sorted: seq<Net>, reach: nat, low: nat, version: bool, v6: bool, x: nat)
    requires Ordered(sorted) && ValidNets(sorted) && OneVersion(sorted, version)
    requires forall n :: n in sorted ==> n.base >= low && (End(n) <= reach || n.base >= reach)
    ensures Covers(DropCovered(sorted, reach), v6, x) ==> Covers(sorted, v6, x)
    ensures Covers(sorted, v6, x) ==> Covers(DropCovered(sorted, reach), v6, x) || (v6 == version && low <= x < reach)
    ensures forall n :: n in DropCovered(sorted, reach) ==> n in sorted
    ensures Apart(DropCovered(sorted, reach), reach)
  {
    if sorted != [] {
      var n, rest := sorted[0], sorted[1..];
      assert sorted == [n] + rest;
      CoversAppend([n], rest, v6, x);
      CoversOne(n, v6, x);
      if End(n) <= reach {
        DropCoveredDenotes(rest, reach, low, version, v6, x);
      } else {
        forall m | m in rest ensures m.base >= n.base && (End(m) <= End(n) || m.base >= End(n)) {
          OrderedHead(sorted, m);
          if Overlaps(m, n) {
            NetsNest(m, n);
            NetsNest(n, m);
            if m.base == n.base {
              Pow2Monotone(m.bits, n.bits);
            }
          }
        }
        DropCoveredDenotes(rest, End(n), n.base, version, v6, x);
        var tail := DropCovered(rest, End(n));
        CoversAppend([n], tail, v6, x);
        assert ([n] + tail)[1..] == tail;
      }
    }
  }

  /** Collapsing keeps the address set and yields a canonical list of valid networks. */
  lemma CollapseDenotes(nets: seq<Net>, version: bool, v6: bool, x: nat)
    requires ValidNets(nets) && OneVersion(nets, version)
    ensures Covers(CollapseNets(nets), v6, x) <==> Covers(nets, v6, x)
    ensures ValidNets(CollapseNets(nets)) && OneVersion(CollapseNets(nets), version) && Canonical(CollapseNets(nets))
  {
    var merged := MergeUp(nets, []);
    MergeUpDenotes(nets, [], version, v6, x);
    MergeUpUnique(nets, []);
    var sorted := SortNets(merged);
    forall n ensures n in sorted <==> n in merged {
      SortedMember(merged, n);
    }
    CoversMember(merged, sorted, v6, x);
    SortOrdered(merged);
    DropCoveredDenotes(sorted, 0, 0, version, v6, x);
    forall a, b | a in merged && b in merged && Supernet(a) == Supernet(b) ensures a == b {
      var i :| 0 <= i < |merged| && merged[i] == a;
      var j :| 0 <= j < |merged| && merged[j] == b;
    }
  }

  // ---------------------------------------------------------------- collapsing again

  function Reversed(nets: seq<Net>): seq<Net> {
    if nets == [] then [] else [nets[|nets| - 1]] + Reversed(nets[..|nets| - 1])
  }

  lemma {:induction false} ApartAfter(nets: seq<Net>, from: nat, n: Net)
    requires Apart(nets, from) && n in nets
    ensures n.base >= from
  {
    assert nets == [nets[0]] + nets[1..];
    if n != nets[0] {
      ApartAfter(nets[1..], End(nets[0]), n);
    }
  }

  lemma {:induction false} ApartFront(nets: seq<Net>, from: nat)
    requires Apart(nets, from) && nets != []
    ensures Apart(nets[..|nets| - 1], from)
    ensures forall n :: n in nets[..|nets| - 1] ==> End(n) <= nets[|nets| - 1].base
  {
    var front := nets[..|nets| - 1];
    if |nets| > 1 {
      ApartFront(nets[1..], End(nets[0]));
      assert nets[1..][..|nets| - 2] == front[1..];
      ApartAfter(nets[1..], End(nets[0]), nets[|nets| - 1]);
      assert front == [front[0]] + front[1..];
    }
  }

  lemma {:induction false} MergeUpSettled(todo: seq<Net>, kept: seq<Net>)
    requires Apart(todo, 0) && SoleUnder(todo)
    requires forall n, m :: n in todo && m in kept ==> Supernet(n) != Supernet(m)
    ensures MergeUp(todo, kept) == kept + Reversed(todo)
  {
    if todo == [] {
      assert kept + [] == kept;
    } else {
      var net, rest := todo[|todo| - 1], todo[..|todo| - 1];
      SettledNext(todo, kept);
      assert FindUnder(kept, Supernet(net)).None?;
      MergeUpSettled(rest, kept + [net]);
      assert (kept + [net]) + Reversed(rest) == kept + ([net] + Reversed(rest));
    }
  }

  lemma SettledNext(todo: seq<Net>, kept: seq<Net>)
    requires todo != [] && Apart(todo, 0) && SoleUnder(todo)
    requires forall n, m :: n in todo && m in kept ==> Supernet(n) != Supernet(m)
    ensures var net, rest := todo[|todo| - 1], todo[..|todo| - 1];
      && Apart(rest, 0) && SoleUnder(rest)
      && (forall n, m :: n in rest && m in kept + [net] ==> Supernet(n) != Supernet(m))
      && FindUnder(kept, Supernet(net)).None?
  {
    var net, rest := todo[|todo| - 1], todo[..|todo| - 1];
    assert todo == rest + [net];
    ApartFront(todo, 0);
    forall i | 0 <= i < |kept| ensures Supernet(kept[i]) != Supernet(net) {
      assert kept[i] in kept && net in todo;
    }
    forall n, m | n in rest && m in kept + [net] ensures Supernet(n) != Supernet(m) {
      assert n in todo && net in todo;
      assert End(n) <= net.base;
    }
  }

  lemma {:induction false} InsertAtEnd(n: Net, nets: seq<Net>)
    requires forall m :: m in nets ==> m.base < n.base
    ensures InsertNet(n, nets) == nets + [n]
  {
    if nets != [] {
      assert nets == [nets[0]] + nets[1..];
      InsertAtEnd(n, nets[1..]);
    }
  }

  lemma {:induction false} SortReversed(nets: seq<Net>)
    requires Apart(nets, 0)
    ensures SortNets(Reversed(nets)) == nets
  {
    if nets != [] {
      var n, front := nets[|nets| - 1], nets[..|nets| - 1];
      ApartFront(nets, 0);
      SortReversed(front);
      assert forall m :: m in front ==> m.base < End(m);
      InsertAtEnd(n, front);
      assert Reversed(nets)[1..] == Reversed(front);
      assert nets == front + [n];
    }
  }

  lemma {:induction false} DropNothing(nets: seq<Net>, reach: nat)
    requires Apart(nets, reach)
    ensures DropCovered(nets, reach) == nets
  {
    if nets != [] {
      DropNothing(nets[1..], End(nets[0]));
      assert nets == [nets[0]] + nets[1..];
    }
  }

  /** A canonical list is left as it is. */
  lemma CollapseCanonical(nets: seq<Net>)
    requires Canonical(nets)
    ensures CollapseNets(nets) == nets
  {
    MergeUpSettled(nets, []);
    assert [] + Reversed(nets) == Reversed(nets);
    SortReversed(nets);
    DropNothing(nets, 0);
  }
}
