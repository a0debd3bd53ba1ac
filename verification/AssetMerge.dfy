/** Merging assets: merged-into pointers, and following them to the canonical asset. */
module AssetMerge {

  // Ids are positive; 0 stands for none.
  datatype Asset = Asset(tenant: nat, mergedInto: nat)

  type Table = map<nat, Asset>

  datatype Merge = Merge(source: nat, target: nat)

  function Live(t: Table, a: nat): bool {
    a in t && t[a].mergedInto == 0
  }

  // ---------------------------------------------------------------- merges as a history

  /** The representative after a history of merges, by replaying it. */
  function Root(log: seq<Merge>, a: nat): nat {
    if log == [] then a
    else
      var r, last := Root(log[..|log| - 1], a), log[|log| - 1];
      if r == last.source then last.target else r
  }

  function Pointer(log: seq<Merge>, a: nat): nat {
    if log == [] then 0
    else if log[|log| - 1].source == a then log[|log| - 1].target
    else Pointer(log[..|log| - 1], a)
  }

  /** When an asset was merged away; the whole length if it never was. */
  function Time(log: seq<Merge>, a: nat): nat {
    if log == [] then 0
    else
      var before := Time(log[..|log| - 1], a);
      if before < |log| - 1 then before
      else if log[|log| - 1].source == a then |log| - 1
      else |log|
  }

  /** Every merge joined two different assets that were both unmerged at the time. */
  predicate Accepted(log: seq<Merge>) {
    log == [] ||
    var front, last := log[..|log| - 1], log[|log| - 1];
    && Accepted(front) && last.source != last.target && last.source != 0 && last.target != 0
    && Pointer(front, last.source) == 0 && Pointer(front, last.target) == 0
  }

  ghost predicate Records(t: Table, log: seq<Merge>) {
    && Accepted(log)
    && (forall a :: a in t ==> t[a].mergedInto == Pointer(log, a))
    && (forall a :: Pointer(log, a) != 0 ==> a in t && Pointer(log, a) in t)
    && 0 !in t
  }

  lemma {:induction false} TimeBound(log: seq<Merge>, a: nat)
    ensures Time(log, a) <= |log|
    ensures Accepted(log) ==> (Time(log, a) < |log| <==> Pointer(log, a) != 0)
  {
    if log != [] {
      TimeBound(log[..|log| - 1], a);
    }
  }

  /** A merged asset points to one that was merged later, or not at all: the pointers form no cycle. */
  lemma {:induction false} PointersClimb(log: seq<Merge>, a: nat)
    requires Accepted(log) && Pointer(log, a) != 0
    ensures Time(log, a) < Time(log, Pointer(log, a))
  {
    var front, last := log[..|log| - 1], log[|log| - 1];
    TimeBound(front, a);
    TimeBound(front, Pointer(log, a));
    if last.source != a {
      PointersClimb(front, a);
    } else {
      TimeBound(front, last.target);
    }
  }

  /** Following a pointer stays under the same representative, and a live asset is its own. */
  lemma {:induction false} RootFollows(log: seq<Merge>, a: nat)
    requires Accepted(log)
    ensures Pointer(log, a) == 0 ==> Root(log, a) == a
    ensures Pointer(log, a) != 0 ==> Root(log, a) == Root(log, Pointer(log, a))
    ensures Pointer(log, Root(log, a)) == 0
    decreases |log|
  {
    if log != [] {
      var front, last := log[..|log| - 1], log[|log| - 1];
      RootFollows(front, a);
      RootFollows(front, last.target);
      if Pointer(front, a) != 0 {
        RootFollows(front, Pointer(front, a));
      }
    }
  }

  // ---------------------------------------------------------------- connectivity

  ghost predicate Linked(log: seq<Merge>, a: nat, b: nat) {
    Merge(a, b) in log || Merge(b, a) in log
  }

  ghost predicate Chain(log: seq<Merge>, path: seq<nat>) {
    |path| <= 1 || (Linked(log, path[0], path[1]) && Chain(log, path[1..]))
  }

  ghost predicate ChainBetween(log: seq<Merge>, path: seq<nat>, a: nat, b: nat) {
    path != [] && path[0] == a && path[|path| - 1] == b && Chain(log, path)
  }

  ghost predicate Connected(log: seq<Merge>, a: nat, b: nat) {
    exists path :: ChainBetween(log, path, a, b)
  }

  lemma {:induction false} ChainJoin(log: seq<Merge>, p: seq<nat>, q: seq<nat>)
    requires Chain(log, p) && Chain(log, q) && p != [] && q != [] && p[|p| - 1] == q[0]
    ensures Chain(log, p + q[1..])
    decreases |p|
  {
    if |p| == 1 {
      assert p + q[1..] == q;
    } else {
      ChainJoin(log, p[1..], q);
      assert (p + q[1..])[1..] == p[1..] + q[1..];
    }
  }

  lemma Joined(log: seq<Merge>, a: nat, b: nat, c: nat)
    requires Connected(log, a, b) && Connected(log, b, c)
    ensures Connected(log, a, c)
  {
    var p :| ChainBetween(log, p, a, b);
    var q :| ChainBetween(log, q, b, c);
    ChainJoin(log, p, q);
    assert ChainBetween(log, p + q[1..], a, c);
  }

  lemma {:induction false} TurnedChain(log: seq<Merge>, p: seq<nat>)
    requires Chain(log, p) && p != []
    ensures Connected(log, p[|p| - 1], p[0])
    decreases |p|
  {
    if |p| == 1 {
      assert ChainBetween(log, p, p[0], p[0]);
    } else {
      TurnedChain(log, p[1..]);
      OneLink(log, p[1], p[0]);
      Joined(log, p[|p| - 1], p[1], p[0]);
    }
  }

  lemma OneLink(log: seq<Merge>, a: nat, b: nat)
    requires Linked(log, a, b)
    ensures Connected(log, a, b)
  {
    assert Chain(log, [a, b][1..]);
    assert ChainBetween(log, [a, b], a, b);
  }

  lemma {:induction false} LongerLog(log: seq<Merge>, m: Merge, p: seq<nat>)
    requires Chain(log, p)
    ensures Chain(log + [m], p)
    decreases |p|
  {
    if |p| > 1 {
      LongerLog(log, m, p[1..]);
    }
  }

  lemma {:induction false} ToRoot(log: seq<Merge>, a: nat)
    ensures Connected(log, a, Root(log, a))
  {
    if log == [] {
      assert ChainBetween(log, [a], a, a);
    } else {
      var front, last := log[..|log| - 1], log[|log| - 1];
      assert log == front + [last];
      ToRoot(front, a);
      var r := Root(front, a);
      var p :| ChainBetween(front, p, a, r);
      LongerLog(front, last, p);
      assert ChainBetween(log, p, a, r);
      if r == last.source {
        assert last in log;
        OneLink(log, last.source, last.target);
        Joined(log, a, r, last.target);
      }
    }
  }

  lemma {:induction false} LinkSameRoot(log: seq<Merge>, a: nat, b: nat)
    requires Accepted(log) && Merge(a, b) in log
    ensures Root(log, a) == Root(log, b)
  {
    var front, last := log[..|log| - 1], log[|log| - 1];
    assert log == front + [last];
    if Merge(a, b) in front {
      LinkSameRoot(front, a, b);
    } else {
      RootFollows(front, a);
      RootFollows(front, b);
    }
  }

  lemma {:induction false} ChainSameRoot(log: seq<Merge>, p: seq<nat>)
    requires Accepted(log) && Chain(log, p) && p != []
    ensures Root(log, p[0]) == Root(log, p[|p| - 1])
    decreases |p|
  {
    if |p| > 1 {
      ChainSameRoot(log, p[1..]);
      if Merge(p[0], p[1]) in log {
        LinkSameRoot(log, p[0], p[1]);
      } else {
        LinkSameRoot(log, p[1], p[0]);
      }
    }
  }

  /** Two assets have the same canonical asset exactly when accepted merges connect them. */
  lemma SameRootIffConnected(log: seq<Merge>, a: nat, b: nat)
    requires Accepted(log)
    ensures Root(log, a) == Root(log, b) <==> Connected(log, a, b)
  {
    if Root(log, a) == Root(log, b) {
      ToRoot(log, a);
      ToRoot(log, b);
      var p :| ChainBetween(log, p, b, Root(log, b));
      TurnedChain(log, p);
      Joined(log, a, Root(log, a), b);
    }
    if Connected(log, a, b) {
      var p :| ChainBetween(log, p, a, b);
      ChainSameRoot(log, p);
    }
  }

  /** Canonical ids are canonical: following twice is following once. */
  lemma CanonicalTwice(log: seq<Merge>, a: nat)
    requires Accepted(log)
    ensures Root(log, Root(log, a)) == Root(log, a)
  {
    RootFollows(log, a);
    RootFollows(log, Root(log, a));
  }

  // ---------------------------------------------------------------- the table in place

  datatype Answer = Merged | TargetMerged | NotFound | IntoItself | OtherTenant | SourceMerged | NoSources

  /** The first objection to a list of sources, in the order they are given. */
  function Objection(t: Table, target: nat, sources: seq<nat>): Answer
    requires target in t
  {
    if sources == [] then Merged
    else
      var before, s := Objection(t, target, sources[..|sources| - 1]), sources[|sources| - 1];
      if before != Merged then before
      else if s !in t then NotFound
      else if s == target then IntoItself
      else if t[s].tenant != t[target].tenant then OtherTenant
      else if t[s].mergedInto != 0 then SourceMerged
      else Merged
  }

  function MergeAnswer(t: Table, target: nat, sources: seq<nat>): Answer
    requires target in t
  {
    if t[target].mergedInto != 0 then TargetMerged
    else if Objection(t, target, sources) != Merged then Objection(t, target, sources)
    else if sources == [] then NoSources
    else Merged
  }

  /** A source named twice is merged once. */
  function Extended(log: seq<Merge>, target: nat, sources: seq<nat>): seq<Merge> {
    if sources == [] then log
    else
      var before, s := Extended(log, target, sources[..|sources| - 1]), sources[|sources| - 1];
      if Pointer(before, s) != 0 then before else before + [Merge(s, target)]
  }

  lemma {:induction false} ObjectionEach(t: Table, target: nat, sources: seq<nat>)
    requires target in t && Objection(t, target, sources) == Merged
    ensures forall s :: s in sources ==> Live(t, s) && s != target && t[s].tenant == t[target].tenant
  {
    if sources != [] {
      assert sources == sources[..|sources| - 1] + [sources[|sources| - 1]];
      ObjectionEach(t, target, sources[..|sources| - 1]);
    }
  }

  lemma {:induction false} NoObjection(t: Table, target: nat, sources: seq<nat>)
    requires target in t
    requires forall s :: s in sources ==> s in t && s != target && t[s].tenant == t[target].tenant && t[s].mergedInto == 0
    ensures Objection(t, target, sources) == Merged
  {
    if sources != [] {
      assert sources == sources[..|sources| - 1] + [sources[|sources| - 1]];
      NoObjection(t, target, sources[..|sources| - 1]);
    }
  }

  /** A merge is accepted exactly if there are sources, and target and sources are distinct unmerged assets of one tenant. */
  lemma MergedIff(t: Table, target: nat, sources: seq<nat>)
    requires target in t
    ensures MergeAnswer(t, target, sources) == Merged <==>
      && t[target].mergedInto == 0 && sources != []
      && forall s :: s in sources ==> s in t && s != target && t[s].tenant == t[target].tenant && t[s].mergedInto == 0
  {
    if Objection(t, target, sources) == Merged {
      ObjectionEach(t, target, sources);
    }
    if forall s :: s in sources ==> s in t && s != target && t[s].tenant == t[target].tenant && t[s].mergedInto == 0 {
      NoObjection(t, target, sources);
    }
  }

  /** Afterwards every source points to the target, and no other pointer has changed. */
  lemma {:induction false} ExtendedPointers(log: seq<Merge>, target: nat, sources: seq<nat>, a: nat)
    requires target != 0 && forall s :: s in sources ==> Pointer(log, s) == 0
    ensures Pointer(Extended(log, target, sources), a) == if a in sources then target else Pointer(log, a)
  {
    if sources != [] {
      var front, s := sources[..|sources| - 1], sources[|sources| - 1];
      assert sources == front + [s];
      ExtendedPointers(log, target, front, a);
      ExtendedPointers(log, target, front, s);
      PointerSnoc(Extended(log, target, front), Merge(s, target), a);
    }
  }

  lemma PointerSnoc(log: seq<Merge>, m: Merge, a: nat)
    ensures Pointer(log + [m], a) == if m.source == a then m.target else Pointer(log, a)
  {
    assert (log + [m])[..|log|] == log;
  }

  lemma AcceptedSnoc(log: seq<Merge>, m: Merge)
    requires Accepted(log) && m.source != m.target && m.source != 0 && m.target != 0
    requires Pointer(log, m.source) == 0 && Pointer(log, m.target) == 0
    ensures Accepted(log + [m])
  {
    assert (log + [m])[..|log|] == log;
  }

  lemma ExtendOne(t: Table, log: seq<Merge>, s: nat, target: nat)
    requires Records(t, log) && s in t && target in t && s != target && t[target].mergedInto == 0
    requires t[s].mergedInto == 0 || t[s].mergedInto == target
    ensures Records(t[s := t[s].(mergedInto := target)], if Pointer(log, s) != 0 then log else log + [Merge(s, target)])
  {
    var t' := t[s := t[s].(mergedInto := target)];
    if Pointer(log, s) != 0 {
      assert t' == t;
    } else {
      AcceptedSnoc(log, Merge(s, target));
      forall a ensures Pointer(log + [Merge(s, target)], a) == if s == a then target else Pointer(log, a) {
        PointerSnoc(log, Merge(s, target), a);
      }
    }
  }

  class AssetTable {
    var assets: Table
    ghost var log: seq<Merge>

    ghost predicate Valid()
      reads this
    {
      Records(assets, log)
    }

    constructor (tenants: map<nat, nat>)
      requires 0 !in tenants
      ensures Valid() && log == []
      ensures assets == map a | a in tenants :: Asset(tenants[a], 0)
    {
      assets := map a | a in tenants :: Asset(tenants[a], 0);
      log := [];
    }

    /** canonical_asset_id: ends on any table, and on one built by accepted merges finds the live representative. */
    method CanonicalAssetId(id: nat) returns (r: nat)
      ensures Valid() ==> r == Root(log, id)
      ensures Valid() && id in assets ==> Live(assets, r)
    {
      var seen: set<nat> := {};
      var current := id;
      RootInTable(assets, log, id);
      while current != 0 && current !in seen
        invariant Valid() ==> Root(log, current) == Root(log, id)
        invariant Valid() ==> forall a :: a in seen ==> Time(log, a) < Time(log, current)
        invariant seen <= assets.Keys
        decreases assets.Keys - seen
      {
        if Valid() {
          RootFollows(log, current);
        }
        if current !in assets || assets[current].mergedInto == 0 {
          return current;
        }
        seen := seen + {current};
        if Valid() {
          PointersClimb(log, current);
        }
        current := assets[current].mergedInto;
      }
      if Valid() && current == 0 {
        RootFollows(log, 0);
      }
      return current;
    }

    method FirstObjection(target: nat, sources: seq<nat>) returns (answer: Answer)
      requires target in assets
      ensures answer == Objection(assets, target, sources)
    {
      assert sources[..0] == [];
      for i := 0 to |sources|
        invariant Objection(assets, target, sources[..i]) == Merged
      {
        var s := sources[i];
        assert sources[..i + 1][..i] == sources[..i];
        var objection :=
          if s !in assets then NotFound
          else if s == target then IntoItself
          else if assets[s].tenant != assets[target].tenant then OtherTenant
          else if assets[s].mergedInto != 0 then SourceMerged
          else Merged;
        if objection != Merged {
          ObjectionStays(assets, target, sources, i + 1);
          return objection;
        }
      }
      assert sources[..|sources|] == sources;
      return Merged;
    }

    method PointAll(target: nat, sources: seq<nat>)
      requires Valid() && target in assets && Live(assets, target)
      requires forall s :: s in sources ==> Live(assets, s) && s != target
      modifies this
      ensures Valid() && log == Extended(old(log), target, sources)
      ensures SameTenants(assets, old(assets))
    {
      assert sources[..0] == [];
      for i := 0 to |sources|
        invariant Valid() && log == Extended(old(log), target, sources[..i])
        invariant SameTenants(assets, old(assets)) && Live(assets, target)
        invariant forall s :: s in sources ==> s in assets && (assets[s].mergedInto == 0 || assets[s].mergedInto == target)
      {
        var s := sources[i];
        assert sources[..i + 1][..i] == sources[..i];
        ExtendOne(assets, log, s, target);
        if Pointer(log, s) == 0 {
          log := log + [Merge(s, target)];
        }
        assets := assets[s := assets[s].(mergedInto := target)];
      }
      assert sources[..|sources|] == sources;
    }

    /** merge_assets, its checks and its pointers. */
    method MergeAssets(target: nat, sources: seq<nat>) returns (answer: Answer)
      requires Valid() && target in assets
      modifies this
      ensures Valid() && answer == MergeAnswer(old(assets), target, sources)
      ensures answer != Merged ==> assets == old(assets) && log == old(log)
      ensures answer == Merged ==> log == Extended(old(log), target, sources)
      ensures SameTenants(assets, old(assets))
    {
      if assets[target].mergedInto != 0 {
        return TargetMerged;
      }
      answer := FirstObjection(target, sources);
      if answer != Merged {
        return;
      }
      if sources == [] {
        return NoSources;
      }
      ObjectionEach(assets, target, sources);
      PointAll(target, sources);
    }
  }

  ghost predicate SameTenants(t: Table, t': Table) {
    t.Keys == t'.Keys && forall a :: a in t ==> t[a].tenant == t'[a].tenant
  }

  lemma {:induction false} ObjectionStays(t: Table, target: nat, sources: seq<nat>, i: nat)
    requires target in t && i <= |sources| && Objection(t, target, sources[..i]) != Merged
    ensures Objection(t, target, sources) == Objection(t, target, sources[..i])
  {
    if i == |sources| {
      assert sources[..i] == sources;
    } else {
      var front := sources[..|sources| - 1];
      assert front[..i] == sources[..i];
      ObjectionStays(t, target, front, i);
    }
  }

  /** The representative of a known asset is a known, live asset. */
  lemma {:induction false} RootInTable(t: Table, log: seq<Merge>, a: nat)
    ensures Records(t, log) && a in t ==> Live(t, Root(log, a))
  {
    if Records(t, log) && a in t {
      RootFollows(log, a);
      RootKnown(log, a, t.Keys);
    }
  }

  lemma {:induction false} RootKnown(log: seq<Merge>, a: nat, known: set<nat>)
    requires Accepted(log) && a in known && forall b :: Pointer(log, b) != 0 ==> Pointer(log, b) in known
    ensures Root(log, a) in known
  {
    if log != [] {
      var front, last := log[..|log| - 1], log[|log| - 1];
      forall b | Pointer(front, b) != 0 ensures Pointer(front, b) in known {
        assert b != last.source;
        assert Pointer(log, b) == Pointer(front, b);
      }
      assert Pointer(log, last.source) == last.target;
      RootKnown(front, a, known);
    }
  }
}
