/** Subtracting scan exclusions from targets: centrally, and again on the worker. */
module Exclusions {
  import opened Options
  import opened Networks
  import opened Collapse

  // ---------------------------------------------------------------- exclusion rows

  /** A stored exclusion, or a target: one address, an address with a prefix, or a range. */
  datatype Row = Ip(v6: bool, address: nat) | Cidr(v6: bool, address: nat, bits: nat) | Range(v6: bool, start: nat, end: nat)

  ghost predicate ValidRow(row: Row) {
    match row
    case Ip(v6, a) => a < Pow2(Width(v6))
    case Cidr(v6, a, bits) => a < Pow2(Width(v6)) && bits <= Width(v6)
    case Range(v6, s, e) => s <= e < Pow2(Width(v6))
  }

  /** The network address: the low bits cleared. */
  function Mask(a: nat, bits: nat): nat {
    if bits == 0 then a else 2 * Mask(a / 2, bits - 1)
  }

  /** exclusion_networks */
  function RowNetworks(row: Row): seq<Net> {
    match row
    case Ip(v6, a) => [Net(v6, a, 0)]
    case Cidr(v6, a, bits) => [Net(v6, Mask(a, bits), bits)]
    case Range(v6, s, e) => SummarizeRange(v6, s, e)
  }

  /** What a row means: the address itself, every address with the same prefix, or every address between. */
  predicate RowHas(row: Row, v6: bool, x: nat) {
    row.v6 == v6
    && match row
       case Ip(_, a) => x == a
       case Cidr(_, a, bits) => Mask(x, bits) == Mask(a, bits)
       case Range(_, s, e) => s <= x <= e
  }

  lemma {:induction false} MaskBlock(a: nat, bits: nat)
    ensures Aligned(Mask(a, bits), bits) && Mask(a, bits) <= a < Mask(a, bits) + Pow2(bits)
  {
    if bits > 0 {
      MaskBlock(a / 2, bits - 1);
    }
  }

  lemma {:induction false} MaskSame(a: nat, x: nat, bits: nat)
    ensures Mask(x, bits) == Mask(a, bits) <==> Mask(a, bits) <= x < Mask(a, bits) + Pow2(bits)
  {
    MaskBlock(x, bits);
    if bits > 0 {
      MaskSame(a / 2, x / 2, bits - 1);
    }
  }

  /** The networks of a row are valid and cover exactly the addresses the row means. */
  lemma RowNetworksDenote(row: Row, v6: bool, x: nat)
    requires ValidRow(row)
    ensures ValidNets(RowNetworks(row)) && OneVersion(RowNetworks(row), row.v6)
    ensures Covers(RowNetworks(row), v6, x) <==> RowHas(row, v6, x)
  {
    match row
    case Ip(w, a) =>
      CoversOne(Net(w, a, 0), v6, x);
    case Cidr(w, a, bits) =>
      MaskBlock(a, bits);
      MaskSame(a, x, bits);
      AlignedFits(Mask(a, bits), bits, Width(w));
      CoversOne(Net(w, Mask(a, bits), bits), v6, x);
    case Range(w, s, e) =>
      SummarizeDenotes(w, s, e, v6, x);
  }

  /** exclusion_networks_from_rows */
  function AllNetworks(rows: seq<Row>): seq<Net> {
    if rows == [] then [] else AllNetworks(rows[..|rows| - 1]) + RowNetworks(rows[|rows| - 1])
  }

  ghost predicate AnyRowHas(rows: seq<Row>, v6: bool, x: nat) {
    exists r :: r in rows && RowHas(r, v6, x)
  }

  lemma {:induction false} AllNetworksDenote(rows: seq<Row>, v6: bool, x: nat)
    requires forall r :: r in rows ==> ValidRow(r)
    ensures ValidNets(AllNetworks(rows))
    ensures Covers(AllNetworks(rows), v6, x) <==> AnyRowHas(rows, v6, x)
  {
    if rows != [] {
      var front, last := rows[..|rows| - 1], rows[|rows| - 1];
      assert rows == front + [last];
      AllNetworksDenote(front, v6, x);
      RowNetworksDenote(last, v6, x);
      CoversAppend(AllNetworks(front), RowNetworks(last), v6, x);
      if AnyRowHas(front, v6, x) {
        var r :| r in front && RowHas(r, v6, x);
        assert r in rows;
      }
    }
  }

  // ---------------------------------------------------------------- the central subtraction

  /** _subtract_one: blocks nest, so the partial overlap that would have to be clipped does not arise. */
  function SubtractOne(n: Net, e: Net): seq<Net>
    requires ValidNet(n) && ValidNet(e) && Overlaps(n, e)
  {
    NetsNest(n, e);
    if Within(n, e) then []
    else if Within(e, n) then AddressExclude(n, e)
    else assert false; []
  }

  /** One turn of the inner loop of subtract_networks. */
  function Pieces(n: Net, e: Net): seq<Net>
    requires ValidNet(n) && ValidNet(e)
  {
    if Overlaps(n, e) then SubtractOne(n, e) else [n]
  }

  lemma PiecesDenote(n: Net, e: Net, v6: bool, x: nat)
    requires ValidNet(n) && ValidNet(e)
    ensures ValidNets(Pieces(n, e)) && OneVersion(Pieces(n, e), n.v6)
    ensures Covers(Pieces(n, e), v6, x) <==> Has(n, v6, x) && !Has(e, v6, x)
  {
    if Overlaps(n, e) {
      NetsNest(n, e);
      if !Within(n, e) {
        AddressExcludeDenotes(n, e, v6, x);
      }
    } else {
      CoversOne(n, v6, x);
    }
  }

  function SubtractEach(nets: seq<Net>, e: Net): (r: seq<Net>)
    requires ValidNets(nets) && ValidNet(e)
    ensures ValidNets(r)
  {
    if nets == [] then []
    else
      var front, n := nets[..|nets| - 1], nets[|nets| - 1];
      assert nets == front + [n];
      PiecesDenote(n, e, false, 0);
      SubtractEach(front, e) + Pieces(n, e)
  }

  function SubtractAll(nets: seq<Net>, exclusions: seq<Net>): (r: seq<Net>)
    requires ValidNets(nets) && ValidNets(exclusions)
    ensures ValidNets(r)
  {
    if exclusions == [] then nets
    else
      assert exclusions[|exclusions| - 1] in exclusions;
      SubtractEach(SubtractAll(nets, exclusions[..|exclusions| - 1]), exclusions[|exclusions| - 1])
  }

  lemma {:induction false} SubtractEachDenotes(nets: seq<Net>, e: Net, v6: bool, x: nat)
    requires ValidNets(nets) && ValidNet(e)
    ensures Covers(SubtractEach(nets, e), v6, x) <==> Covers(nets, v6, x) && !Has(e, v6, x)
    ensures forall v :: OneVersion(nets, v) ==> OneVersion(SubtractEach(nets, e), v)
  {
    if nets != [] {
      var front, n := nets[..|nets| - 1], nets[|nets| - 1];
      assert nets == front + [n];
      SubtractEachDenotes(front, e, v6, x);
      PiecesDenote(n, e, v6, x);
      CoversAppend(SubtractEach(front, e), Pieces(n, e), v6, x);
      CoversSnoc(front, n, v6, x);
      forall v | OneVersion(nets, v) ensures OneVersion(SubtractEach(nets, e), v) {
        assert OneVersion(front, v) && n in nets && n.v6 == v;
      }
    }
  }

  /** The remaining networks cover exactly the target addresses that no exclusion has. */
  lemma {:induction false} SubtractAllDenotes(nets: seq<Net>, exclusions: seq<Net>, v6: bool, x: nat)
    requires ValidNets(nets) && ValidNets(exclusions)
    ensures Covers(SubtractAll(nets, exclusions), v6, x) <==> Covers(nets, v6, x) && !Covers(exclusions, v6, x)
    ensures forall v :: OneVersion(nets, v) ==> OneVersion(SubtractAll(nets, exclusions), v)
  {
    if exclusions != [] {
      var front, e := exclusions[..|exclusions| - 1], exclusions[|exclusions| - 1];
      assert exclusions == front + [e];
      SubtractAllDenotes(nets, front, v6, x);
      SubtractEachDenotes(SubtractAll(nets, front), e, v6, x);
      CoversSnoc(front, e, v6, x);
    }
  }

  predicate MixedVersions(nets: seq<Net>) {
    exists i :: 0 < i < |nets| && nets[i].v6 != nets[i - 1].v6
  }

  lemma {:induction false} SingleVersion(nets: seq<Net>)
    requires !MixedVersions(nets) && nets != []
    ensures OneVersion(nets, nets[0].v6)
  {
    if |nets| > 1 {
      var front := nets[..|nets| - 1];
      forall i | 0 < i < |front| ensures front[i].v6 == front[i - 1].v6 {
        assert nets[i].v6 == nets[i - 1].v6;
      }
      SingleVersion(front);
      assert front[|front| - 1] in front;
      assert nets[|nets| - 1].v6 == nets[|nets| - 2].v6;
      assert nets == front + [nets[|nets| - 1]];
    }
  }

  /** subtract_networks: None where collapse_addresses refuses a list of both versions. */
  method SubtractNetworks(targets: seq<Net>, exclusions: seq<Net>) returns (r: Option<seq<Net>>)
    requires ValidNets(targets) && ValidNets(exclusions)
    ensures r == if MixedVersions(SubtractAll(targets, exclusions)) then None else Some(CollapseNets(SubtractAll(targets, exclusions)))
  {
    var remaining := targets;
    assert exclusions[..0] == [];
    for i := 0 to |exclusions|
      invariant ValidNets(exclusions[..i]) && remaining == SubtractAll(targets, exclusions[..i])
    {
      assert exclusions[..i + 1][..i] == exclusions[..i];
      remaining := WithoutOne(remaining, exclusions[i]);
    }
    assert exclusions[..|exclusions|] == exclusions;
    if MixedVersions(remaining) {
      return None;
    }
    return Some(CollapseNets(remaining));
  }

  method WithoutOne(remaining: seq<Net>, exclusion: Net) returns (next: seq<Net>)
    requires ValidNets(remaining) && ValidNet(exclusion)
    ensures next == SubtractEach(remaining, exclusion)
  {
    next := [];
    assert remaining[..0] == [];
    for j := 0 to |remaining|
      invariant ValidNets(remaining[..j]) && next == SubtractEach(remaining[..j], exclusion)
    {
      var network := remaining[j];
      assert remaining[..j + 1][..j] == remaining[..j];
      if network.v6 != exclusion.v6 || !Overlaps(network, exclusion) {
        next := next + [network];
      } else {
        next := next + SubtractOne(network, exclusion);
      }
    }
    assert remaining[..|remaining|] == remaining;
  }

  /** apply_exclusions_to_cidrs on already parsed targets. */
  function Central(targets: seq<Net>, exclusions: seq<Net>): Option<seq<Net>>
    requires ValidNets(targets) && ValidNets(exclusions)
  {
    var remaining := SubtractAll(targets, exclusions);
    if MixedVersions(remaining) then None else Some(CollapseNets(remaining))
  }

  /**
   The central reduction denotes exactly the target addresses minus the excluded ones, in canonical
   form; targets of one version are never refused.
   */
  lemma CentralDenotes(targets: seq<Net>, exclusions: seq<Net>, v6: bool, x: nat)
    requires ValidNets(targets) && ValidNets(exclusions)
    ensures Central(targets, exclusions).Some? ==>
      var r := Central(targets, exclusions).value;
      && (Covers(r, v6, x) <==> Covers(targets, v6, x) && !Covers(exclusions, v6, x))
      && ValidNets(r) && Canonical(r)
    ensures (OneVersion(targets, true) || OneVersion(targets, false)) ==> Central(targets, exclusions).Some?
  {
    SubtractAllDenotes(targets, exclusions, v6, x);
    var remaining := SubtractAll(targets, exclusions);
    forall v | OneVersion(targets, v) ensures !MixedVersions(remaining) {
      assert OneVersion(remaining, v);
      forall i | 0 < i < |remaining| ensures remaining[i].v6 == remaining[i - 1].v6 {
        assert remaining[i] in remaining && remaining[i - 1] in remaining;
      }
    }
    if !MixedVersions(remaining) {
      if remaining == [] {
        assert OneVersion(remaining, false);
        CollapseDenotes(remaining, false, v6, x);
      } else {
        SingleVersion(remaining);
        CollapseDenotes(remaining, remaining[0].v6, v6, x);
      }
    }
  }

  // ---------------------------------------------------------------- the worker's subtraction

  /** One turn of the worker's inner loop; on an overlap where neither contains the other it drops the block. */
  function WorkerPieces(current: Net, e: Net): seq<Net> {
    if Overlaps(current, e) then
      if Within(current, e) then []
      else if Within(e, current) then AddressExclude(current, e)
      else []
    else [current]
  }

  /** The worker's bare `continue` never meets a partial overlap, so it loses no address. */
  lemma WorkerPiecesSame(n: Net, e: Net)
    requires ValidNet(n) && ValidNet(e)
    ensures WorkerPieces(n, e) == Pieces(n, e)
  {
    if Overlaps(n, e) {
      NetsNest(n, e);
    }
  }

  ghost predicate Touches(n: Net, exclusions: seq<Net>) {
    exists e :: e in exclusions && Overlaps(n, e)
  }

  function ResolveAll(targets: seq<Net>, exclusions: seq<Net>): (r: seq<Net>)
    requires ValidNets(targets) && ValidNets(exclusions)
    ensures ValidNets(r)
  {
    if targets == [] then []
    else
      assert targets[|targets| - 1] in targets;
      ResolveAll(targets[..|targets| - 1], exclusions) + SubtractAll([targets[|targets| - 1]], exclusions)
  }

  lemma {:induction false} UntouchedStays(n: Net, exclusions: seq<Net>)
    requires ValidNet(n) && ValidNets(exclusions) && !Touches(n, exclusions)
    ensures SubtractAll([n], exclusions) == [n]
  {
    if exclusions != [] {
      var front, e := exclusions[..|exclusions| - 1], exclusions[|exclusions| - 1];
      assert exclusions == front + [e];
      assert e in exclusions && !Overlaps(n, e);
      assert !Touches(n, front);
      UntouchedStays(n, front);
      assert [n][..0] == [] && SubtractEach([], e) == [];
      assert SubtractEach([n], e) == [] + [n];
    }
  }

  /** resolve_execution_targets for targets that are not names; None where it reports that nothing is left. */
  method ResolveExecutionTargets(targets: seq<Net>, exclusions: seq<Net>) returns (r: Option<seq<Net>>)
    requires ValidNets(targets) && ValidNets(exclusions)
    ensures r == if targets != [] && ResolveAll(targets, exclusions) == [] then None else Some(ResolveAll(targets, exclusions))
  {
    var resolved: seq<Net> := [];
    assert targets[..0] == [];
    for t := 0 to |targets|
      invariant ValidNets(targets[..t]) && resolved == ResolveAll(targets[..t], exclusions)
    {
      var network := targets[t];
      assert targets[..t + 1][..t] == targets[..t];
      if exists e :: e in exclusions && Overlaps(network, e) {
        var remaining := ReduceOne(network, exclusions);
        resolved := resolved + remaining;
      } else {
        UntouchedStays(network, exclusions);
        resolved := resolved + [network];
      }
    }
    assert targets[..|targets|] == targets;
    if targets != [] && resolved == [] {
      return None;
    }
    return Some(resolved);
  }

  method ReduceOne(network: Net, exclusions: seq<Net>) returns (remaining: seq<Net>)
    requires ValidNet(network) && ValidNets(exclusions)
    ensures remaining == SubtractAll([network], exclusions)
  {
    remaining := [network];
    assert exclusions[..0] == [];
    for i := 0 to |exclusions|
      invariant ValidNets(exclusions[..i]) && remaining == SubtractAll([network], exclusions[..i])
    {
      assert exclusions[..i + 1][..i] == exclusions[..i];
      remaining := TakeOut(remaining, exclusions[i]);
    }
    assert exclusions[..|exclusions|] == exclusions;
  }

  method TakeOut(remaining: seq<Net>, exclusion: Net) returns (nxt: seq<Net>)
    requires ValidNets(remaining) && ValidNet(exclusion)
    ensures nxt == SubtractEach(remaining, exclusion)
  {
    nxt := [];
    assert remaining[..0] == [];
    for j := 0 to |remaining|
      invariant ValidNets(remaining[..j]) && nxt == SubtractEach(remaining[..j], exclusion)
    {
      var current := remaining[j];
      assert remaining[..j + 1][..j] == remaining[..j];
      WorkerPiecesSame(current, exclusion);
      if Overlaps(current, exclusion) && current.v6 == exclusion.v6 {
        if Within(current, exclusion) {
          continue;
        }
        if Within(exclusion, current) {
          nxt := nxt + AddressExclude(current, exclusion);
        }
        continue;
      }
      nxt := nxt + [current];
    }
    assert remaining[..|remaining|] == remaining;
  }

  lemma {:induction false} ResolveAllDenotes(targets: seq<Net>, exclusions: seq<Net>, v6: bool, x: nat)
    requires ValidNets(targets) && ValidNets(exclusions)
    ensures Covers(ResolveAll(targets, exclusions), v6, x) <==> Covers(targets, v6, x) && !Covers(exclusions, v6, x)
  {
    if targets != [] {
      var front, n := targets[..|targets| - 1], targets[|targets| - 1];
      assert targets == front + [n];
      ResolveAllDenotes(front, exclusions, v6, x);
      SubtractAllDenotes([n], exclusions, v6, x);
      CoversOne(n, v6, x);
      CoversAppend(ResolveAll(front, exclusions), SubtractAll([n], exclusions), v6, x);
      CoversSnoc(front, n, v6, x);
    }
  }

  /** Worker and centre agree on every address. */
  lemma WorkerAgreesWithCentral(targets: seq<Net>, exclusions: seq<Net>, v6: bool, x: nat)
    requires ValidNets(targets) && ValidNets(exclusions) && Central(targets, exclusions).Some?
    ensures Covers(ResolveAll(targets, exclusions), v6, x) <==> Covers(Central(targets, exclusions).value, v6, x)
  {
    ResolveAllDenotes(targets, exclusions, v6, x);
    CentralDenotes(targets, exclusions, v6, x);
  }

  // ---------------------------------------------------------------- reducing again

  lemma {:induction false} ResolveUntouched(targets: seq<Net>, exclusions: seq<Net>)
    requires ValidNets(targets) && ValidNets(exclusions) && forall n :: n in targets ==> !Touches(n, exclusions)
    ensures ResolveAll(targets, exclusions) == targets
  {
    if targets != [] {
      var front, n := targets[..|targets| - 1], targets[|targets| - 1];
      assert targets == front + [n];
      ResolveUntouched(front, exclusions);
      UntouchedStays(n, exclusions);
    }
  }

  lemma {:induction false} SubtractEachUntouched(nets: seq<Net>, e: Net)
    requires ValidNets(nets) && ValidNet(e) && forall n :: n in nets ==> !Overlaps(n, e)
    ensures SubtractEach(nets, e) == nets
  {
    if nets != [] {
      assert nets == nets[..|nets| - 1] + [nets[|nets| - 1]];
      SubtractEachUntouched(nets[..|nets| - 1], e);
    }
  }

  lemma {:induction false} SubtractAllUntouched(nets: seq<Net>, exclusions: seq<Net>)
    requires ValidNets(nets) && ValidNets(exclusions) && forall n :: n in nets ==> !Touches(n, exclusions)
    ensures SubtractAll(nets, exclusions) == nets
  {
    if exclusions != [] {
      var front, e := exclusions[..|exclusions| - 1], exclusions[|exclusions| - 1];
      assert exclusions == front + [e];
      forall n | n in nets ensures !Touches(n, front) && !Overlaps(n, e) {
        assert e in exclusions;
      }
      SubtractAllUntouched(nets, front);
      SubtractEachUntouched(nets, e);
    }
  }

  lemma ReducedUntouched(targets: seq<Net>, exclusions: seq<Net>)
    requires ValidNets(targets) && ValidNets(exclusions) && Central(targets, exclusions).Some?
    ensures ValidNets(Central(targets, exclusions).value)
    ensures forall n :: n in Central(targets, exclusions).value ==> !Touches(n, exclusions)
  {
    var r := Central(targets, exclusions).value;
    CentralDenotes(targets, exclusions, false, 0);
    forall n, e | n in r && e in exclusions ensures !Overlaps(n, e) {
      var x := if n.base > e.base then n.base else e.base;
      CentralDenotes(targets, exclusions, n.v6, x);
      assert Overlaps(n, e) ==> Has(n, n.v6, x) && Has(e, n.v6, x);
    }
  }

  /**
   Applying the exclusions to an already reduced list changes nothing: the centre returns the same
   list, and so does the worker.
   */
  lemma ReducingAgain(targets: seq<Net>, exclusions: seq<Net>)
    requires ValidNets(targets) && ValidNets(exclusions) && Central(targets, exclusions).Some?
    ensures var r := Central(targets, exclusions).value;
      ValidNets(r) && Central(r, exclusions) == Some(r) && ResolveAll(r, exclusions) == r
  {
    var r := Central(targets, exclusions).value;
    CentralDenotes(targets, exclusions, false, 0);
    ReducedUntouched(targets, exclusions);
    ResolveUntouched(r, exclusions);
    SubtractAllUntouched(r, exclusions);
    CollapseCanonical(r);
    OneVersionOnly(targets, exclusions);
  }

  lemma OneVersionOnly(targets: seq<Net>, exclusions: seq<Net>)
    requires ValidNets(targets) && ValidNets(exclusions) && Central(targets, exclusions).Some?
    ensures !MixedVersions(Central(targets, exclusions).value)
  {
    var remaining := SubtractAll(targets, exclusions);
    var version := if remaining == [] then false else remaining[0].v6;
    if remaining != [] {
      SingleVersion(remaining);
    }
    CollapseDenotes(remaining, version, false, 0);
    var r := CollapseNets(remaining);
    forall i | 0 < i < |r| ensures r[i].v6 == r[i - 1].v6 {
      assert r[i] in r && r[i - 1] in r;
    }
  }
}
