/** One field of a cron expression, split into its comma-separated chunks. */
module CronFields {
  import opened Options

  datatype Base = Any | Between(first: nat, last: nat) | Only(value: nat)

  // A chunk with its step as written after the slash, if there is one.
  datatype Chunk = Chunk(base: Base, step: Option<nat>)

  function First(c: Chunk, lo: nat): nat {
    match c.base
    case Any => lo
    case Between(a, _) => a
    case Only(v) => v
  }

  /** A single value with a step stands for itself alone. */
  function Last(c: Chunk, hi: nat): nat {
    match c.base
    case Any => hi
    case Between(_, b) => b
    case Only(v) => v
  }

  function Step(c: Chunk): nat {
    if c.step.Some? then c.step.value else 1
  }

  predicate ValidChunk(c: Chunk, lo: nat, hi: nat) {
    Step(c) > 0 && lo <= First(c, lo) <= Last(c, hi) <= hi
  }

  ghost predicate Lands(first: nat, step: nat, k: nat, v: nat) {
    v == first + k * step
  }

  /** The values a valid chunk names: every step-th one from its first to its last. */
  ghost predicate Matches(c: Chunk, lo: nat, hi: nat, v: nat) {
    v <= Last(c, hi) && exists k :: Lands(First(c, lo), Step(c), k, v)
  }

  /** What a chunk says: a star steps through the whole range, a dash through its own; a single value is itself, step or no step. */
  lemma ChunkMeans(c: Chunk, lo: nat, hi: nat, v: nat)
    requires ValidChunk(c, lo, hi)
    ensures var step := if c.step.Some? then c.step.value else 1;
      step > 0 && (Matches(c, lo, hi, v) <==>
        match c.base
        case Any => v <= hi && exists k :: Lands(lo, step, k, v)
        case Between(a, b) => v <= b && exists k :: Lands(a, step, k, v)
        case Only(x) => v == x)
  {
    if c.base.Only? && v == c.base.value {
      assert Lands(v, Step(c), 0, v);
    }
  }

  /** Which chunks are valid. */
  lemma ValidIff(c: Chunk, lo: nat, hi: nat)
    ensures ValidChunk(c, lo, hi) <==>
      && c.step != Some(0)
      && match c.base
         case Any => lo <= hi
         case Between(a, b) => lo <= a && a <= b && b <= hi
         case Only(x) => lo <= x && x <= hi
  {
  }

  lemma {:induction false} TimesGrows(j: nat, k: nat, step: nat)
    ensures j <= k ==> j * step <= k * step
  {
  }

  /** Between two neighbours on the grid there is no third value. */
  lemma NoneBetween(first: nat, step: nat, j: nat, k: nat)
    ensures first + j * step < first + (k + 1) * step ==> first + j * step <= first + k * step
  {
    TimesGrows(j, k, step);
    TimesGrows(k + 1, j, step);
  }

  method ChunkValues(c: Chunk, lo: nat, hi: nat) returns (values: set<nat>)
    requires ValidChunk(c, lo, hi)
    ensures forall v: nat :: v in values <==> Matches(c, lo, hi, v)
  {
    values := {};
    var v := First(c, lo);
    ghost var k: nat := 0;
    while v <= Last(c, hi)
      invariant Lands(First(c, lo), Step(c), k, v)
      invariant forall u: nat :: u in values <==> u < v && Matches(c, lo, hi, u)
      decreases Last(c, hi) + 1 - v
    {
      forall u: nat | v < u < v + Step(c) ensures !Matches(c, lo, hi, u) {
        forall j: nat ensures !Lands(First(c, lo), Step(c), j, u) {
          NoneBetween(First(c, lo), Step(c), j, k);
        }
      }
      values := values + {v};
      v := v + Step(c);
      k := k + 1;
    }
    forall u: nat | Matches(c, lo, hi, u) ensures u < v {
    }
  }

  /**
   _parse_cron_field: refused exactly when some chunk is invalid; otherwise the field holds just the
   values its chunks name, all within range, and at least one.
   */
  method ParseField(chunks: seq<Chunk>, lo: nat, hi: nat) returns (r: Option<set<nat>>)
    requires chunks != []
    ensures r.Some? <==> forall c :: c in chunks ==> ValidChunk(c, lo, hi)
    ensures r.Some? ==> forall v: nat :: v in r.value <==> exists c :: c in chunks && Matches(c, lo, hi, v)
    ensures r.Some? ==> r.value != {} && forall v: nat :: v in r.value ==> lo <= v <= hi
  {
    var values: set<nat> := {};
    for i := 0 to |chunks|
      invariant forall c :: c in chunks[..i] ==> ValidChunk(c, lo, hi)
      invariant forall v: nat :: v in values <==> exists c :: c in chunks[..i] && Matches(c, lo, hi, v)
    {
      if !ValidChunk(chunks[i], lo, hi) {
        assert chunks[i] in chunks;
        return None;
      }
      var more := ChunkValues(chunks[i], lo, hi);
      assert chunks[..i + 1] == chunks[..i] + [chunks[i]];
      values := values + more;
    }
    assert chunks[..|chunks|] == chunks;
    assert chunks[0] in chunks && Lands(First(chunks[0], lo), Step(chunks[0]), 0, First(chunks[0], lo));
    assert Matches(chunks[0], lo, hi, First(chunks[0], lo));
    assert First(chunks[0], lo) in values;
    return Some(values);
  }
}
