/**
 An asset's current identifiers, addresses and services, and the observation log they can be rebuilt
 from.  All three tables follow the same rule, so they are one map from natural keys to rows.
 */
module Projection {
  import opened Options
  import opened Identifiers

  // A reported name: as given, normalised for its kind, and what the code asks about it.
  datatype Name = Name(raw: string, normal: string, dotted: bool, placeholder: bool)

  datatype Port = Port(number: int, protocol: string, product: string, version: string)

  datatype Ip = Ip(text: string, valid: bool)

  datatype Observation = Observation(
    id: nat, job: nat, key: string, at: int, ip: Ip, site: Option<string>, network: Option<string>,
    hostname: Option<Name>, mac: Option<Name>, serial: Option<Name>, device: Option<Name>,
    fqdn: Option<Name>, tls: Option<Name>, dns: Option<Name>,
    ports: seq<Port>, title: string, tech: string)

  datatype Key = IdKey(kind: Kind, normal: string) | AddressKey(ip: string) | ServiceKey(ip: string, port: int, protocol: string)

  datatype Field = Value | Site | Net | Product | Version | Title | Tech

  // A field that was never given is absent.
  datatype Row = Row(manual: bool, incorrect: bool, fields: map<Field, string>, first: Option<int>, last: Option<int>)

  /** One upsert: the row it is for and the fields it gives. */
  datatype Touch = Touch(key: Key, sets: map<Field, string>, at: int)

  type Rows = map<Key, Row>

  // ---------------------------------------------------------------- what one observation reports

  function NameTouch(kind: Kind, name: Option<Name>, at: int): seq<Touch> {
    if name.None? || name.value.normal == "" || (kind == Hostname && name.value.placeholder) then []
    else [Touch(IdKey(kind, name.value.normal), map[Value := name.value.raw], at)]
  }

  function HostTouches(name: Option<Name>, at: int): seq<Touch> {
    if name.None? || name.value.placeholder then []
    else NameTouch(Hostname, name, at) + (if name.value.dotted then NameTouch(Fqdn, name, at) else [])
  }

  function NonEmpty(f: Field, s: string): map<Field, string> {
    if s == "" then map[] else map[f := s]
  }

  function Given(f: Field, s: Option<string>): map<Field, string> {
    if s.None? then map[] else map[f := s.value]
  }

  function AddressTouch(ip: Ip, site: Option<string>, network: Option<string>, at: int): seq<Touch> {
    if ip.text == "" || !ip.valid then []
    else [Touch(AddressKey(ip.text), Given(Site, site) + Given(Net, network), at)]
  }

  function ServiceTouch(ip: Ip, port: Port, title: string, tech: string, at: int): Touch {
    Touch(ServiceKey(ip.text, port.number, port.protocol),
          NonEmpty(Product, port.product) + NonEmpty(Version, port.version) + NonEmpty(Title, title) + NonEmpty(Tech, tech), at)
  }

  function ServiceTouches(ip: Ip, ports: seq<Port>, title: string, tech: string, at: int): seq<Touch> {
    if ports == [] then []
    else ServiceTouches(ip, ports[..|ports| - 1], title, tech, at) + [ServiceTouch(ip, ports[|ports| - 1], title, tech, at)]
  }

  function NamesGiven(o: Observation): seq<(Kind, Option<Name>)> {
    [(Mac, o.mac), (Serial, o.serial), (DeviceId, o.device), (Fqdn, o.fqdn), (TlsName, o.tls), (DnsName, o.dns)]
  }

  function Reported(given: seq<(Kind, Option<Name>)>, at: int): seq<Touch> {
    if given == [] then []
    else Reported(given[..|given| - 1], at) + NameTouch(given[|given| - 1].0, given[|given| - 1].1, at)
  }

  function NameTouches(o: Observation): seq<Touch> {
    HostTouches(o.hostname, o.at) + Reported(NamesGiven(o), o.at)
  }

  /** apply_scanner_facts_from_snapshot as the sequence of its upserts */
  function Touches(o: Observation): seq<Touch> {
    NameTouches(o) + AddressTouch(o.ip, o.site, o.network, o.at)
    + ServiceTouches(o.ip, o.ports, o.title, o.tech, o.at)
  }

  function AllTouches(log: seq<Observation>): seq<Touch> {
    if log == [] then [] else AllTouches(log[..|log| - 1]) + Touches(log[|log| - 1])
  }

  // ---------------------------------------------------------------- upserts and replay

  function Get(rows: Rows, k: Key): Option<Row> {
    if k in rows then Some(rows[k]) else None
  }

  /** The upsert rule; a row marked incorrect is left alone. */
  function Touched(row: Option<Row>, t: Touch): Row {
    match row
    case None => Row(false, false, t.sets, Some(t.at), Some(t.at))
    case Some(r) =>
      if r.incorrect then r
      else r.(fields := r.fields + t.sets, first := if r.first.None? then Some(t.at) else r.first, last := Some(t.at))
  }

  function Upsert(rows: Rows, t: Touch): Rows {
    rows[t.key := Touched(Get(rows, t.key), t)]
  }

  function Replay(rows: Rows, touches: seq<Touch>): Rows {
    if touches == [] then rows
    else Upsert(Replay(rows, touches[..|touches| - 1]), touches[|touches| - 1])
  }

  predicate Kept(row: Row) {
    row.manual || row.incorrect
  }

  /** The rows that a rebuild does not delete. */
  function Base(rows: Rows): Rows {
    map k | k in rows && Kept(rows[k]) :: rows[k]
  }

  /** The rows are what replaying the log onto the kept rows gives. */
  ghost predicate Projected(rows: Rows, touches: seq<Touch>) {
    Replay(Base(rows), touches) == rows
  }

  // ---------------------------------------------------------------- one row at a time

  function FoldRow(row: Option<Row>, touches: seq<Touch>, k: Key): Option<Row> {
    if touches == [] then row
    else
      var before := FoldRow(row, touches[..|touches| - 1], k);
      if touches[|touches| - 1].key == k then Some(Touched(before, touches[|touches| - 1])) else before
  }

  function BaseRow(row: Option<Row>): Option<Row> {
    if row.Some? && Kept(row.value) then row else None
  }

  ghost predicate RowProjected(row: Option<Row>, touches: seq<Touch>, k: Key) {
    row == FoldRow(BaseRow(row), touches, k)
  }

  lemma {:induction false} ReplayAt(rows: Rows, touches: seq<Touch>, k: Key)
    ensures Get(Replay(rows, touches), k) == FoldRow(Get(rows, k), touches, k)
  {
    if touches != [] {
      ReplayAt(rows, touches[..|touches| - 1], k);
      ReplayAt(rows, touches[..|touches| - 1], touches[|touches| - 1].key);
    }
  }

  lemma SameRows(a: Rows, b: Rows)
    requires forall k :: Get(a, k) == Get(b, k)
    ensures a == b
  {
    forall k ensures k in a <==> k in b {
      assert Get(a, k) == Get(b, k);
    }
    forall k | k in a ensures a[k] == b[k] {
      assert Get(a, k) == Get(b, k);
    }
  }

  lemma ProjectedByRow(rows: Rows, touches: seq<Touch>)
    ensures Projected(rows, touches) <==> forall k :: RowProjected(Get(rows, k), touches, k)
  {
    forall k ensures Get(Replay(Base(rows), touches), k) == FoldRow(BaseRow(Get(rows, k)), touches, k) {
      ReplayAt(Base(rows), touches, k);
    }
    if forall k :: RowProjected(Get(rows, k), touches, k) {
      forall k ensures Get(Replay(Base(rows), touches), k) == Get(rows, k) {
        assert RowProjected(Get(rows, k), touches, k);
      }
      SameRows(Replay(Base(rows), touches), rows);
    }
  }

  /** Everything the touches of one key give, later ones first. */
  function SetsOf(touches: seq<Touch>, k: Key): map<Field, string> {
    if touches == [] then map[]
    else
      var before := SetsOf(touches[..|touches| - 1], k);
      if touches[|touches| - 1].key == k then before + touches[|touches| - 1].sets else before
  }

  function FirstOf(touches: seq<Touch>, k: Key): Option<int> {
    if touches == [] then None
    else
      var before := FirstOf(touches[..|touches| - 1], k);
      if touches[|touches| - 1].key == k && before.None? then Some(touches[|touches| - 1].at) else before
  }

  function LastOf(touches: seq<Touch>, k: Key): Option<int> {
    if touches == [] then None
    else if touches[|touches| - 1].key == k then Some(touches[|touches| - 1].at)
    else LastOf(touches[..|touches| - 1], k)
  }

  function Or<T>(a: Option<T>, b: Option<T>): Option<T> { if a.Some? then a else b }

  /** Replaying onto a row in closed form. */
  lemma {:induction false} FoldSome(r: Row, touches: seq<Touch>, k: Key)
    ensures FoldRow(Some(r), touches, k) == Some(
      if r.incorrect then r
      else r.(fields := r.fields + SetsOf(touches, k), first := Or(r.first, FirstOf(touches, k)), last := Or(LastOf(touches, k), r.last)))
    ensures FirstOf(touches, k).Some? <==> LastOf(touches, k).Some?
    ensures FirstOf(touches, k).None? ==> SetsOf(touches, k) == map[]
  {
    if touches == [] {
      assert r.fields + map[] == r.fields;
    } else {
      var front, t := touches[..|touches| - 1], touches[|touches| - 1];
      FoldSome(r, front, k);
      assert r.fields + SetsOf(front, k) + t.sets == r.fields + (SetsOf(front, k) + t.sets);
      assert map[] + t.sets == t.sets;
    }
  }

  lemma {:induction false} FoldNone(touches: seq<Touch>, k: Key)
    ensures FoldRow(None, touches, k).None? <==> FirstOf(touches, k).None?
    ensures FoldRow(None, touches, k).Some? ==> !Kept(FoldRow(None, touches, k).value)
  {
    if touches != [] {
      FoldNone(touches[..|touches| - 1], k);
    }
  }

  lemma UpsertRow(row: Option<Row>, touches: seq<Touch>, t: Touch)
    requires RowProjected(row, touches, t.key)
    ensures RowProjected(Some(Touched(row, t)), touches + [t], t.key)
  {
    var row' := Touched(row, t);
    assert (touches + [t])[..|touches|] == touches;
    FoldNone(touches, t.key);
    if row.Some? && Kept(row.value) {
      FoldSome(row.value, touches, t.key);
      FoldSome(row', touches, t.key);
      if !row.value.incorrect {
        assert row.value.fields + SetsOf(touches, t.key) == row.value.fields;
        MapAbsorbs(row.value.fields, t.sets, SetsOf(touches, t.key));
      }
    }
  }

  lemma MapAbsorbs(m: map<Field, string>, x: map<Field, string>, s: map<Field, string>)
    requires m + s == m
    ensures m + x + s + x == m + x
  {
    assert forall f :: f in s ==> f in m && m[f] == (m + s)[f];
  }

  /** An upsert keeps the rows equal to the replay of the longer log. */
  lemma UpsertProjected(rows: Rows, touches: seq<Touch>, t: Touch)
    requires Projected(rows, touches)
    ensures Projected(Upsert(rows, t), touches + [t])
  {
    ProjectedByRow(rows, touches);
    ProjectedByRow(Upsert(rows, t), touches + [t]);
    assert (touches + [t])[..|touches|] == touches;
    forall k ensures RowProjected(Get(Upsert(rows, t), k), touches + [t], k) {
      assert RowProjected(Get(rows, k), touches, k);
      if k == t.key {
        UpsertRow(Get(rows, k), touches, t);
      }
    }
  }

  lemma {:induction false} ReplayProjected(rows: Rows, touches: seq<Touch>, more: seq<Touch>)
    requires Projected(rows, touches)
    ensures Projected(Replay(rows, more), touches + more)
  {
    if more == [] {
      assert touches + more == touches;
    } else {
      var front, t := more[..|more| - 1], more[|more| - 1];
      ReplayProjected(rows, touches, front);
      UpsertProjected(Replay(rows, front), touches + front, t);
      assert touches + more == touches + front + [t];
    }
  }

  /** Rebuilding from any rows at all gives rows that a second rebuild would not change. */
  lemma RebuiltProjected(rows: Rows, touches: seq<Touch>)
    ensures Projected(Replay(Base(rows), touches), touches)
  {
    var rows' := Replay(Base(rows), touches);
    ProjectedByRow(rows', touches);
    forall k ensures RowProjected(Get(rows', k), touches, k) {
      var base := BaseRow(Get(rows, k));
      assert Get(Base(rows), k) == base;
      ReplayAt(Base(rows), touches, k);
      FoldNone(touches, k);
      if base.Some? {
        FoldSome(base.value, touches, k);
        FoldSome(Get(rows', k).value, touches, k);
        assert base.value.fields + SetsOf(touches, k) + SetsOf(touches, k) == base.value.fields + SetsOf(touches, k);
      }
    }
  }

  lemma MarkProjected(rows: Rows, touches: seq<Touch>, k: Key)
    requires Projected(rows, touches) && k in rows
    ensures Projected(rows[k := rows[k].(incorrect := true)], touches)
  {
    var rows' := rows[k := rows[k].(incorrect := true)];
    ProjectedByRow(rows, touches);
    ProjectedByRow(rows', touches);
    forall q ensures RowProjected(Get(rows', q), touches, q) {
      assert RowProjected(Get(rows, q), touches, q);
      if q == k {
        FoldSome(rows'[k], touches, k);
      }
    }
  }

  lemma ManualProjected(rows: Rows, touches: seq<Touch>, k: Key, row: Row)
    requires Projected(rows, touches) && k !in rows && row.manual
    ensures Projected(rows[k := row], touches)
  {
    ProjectedByRow(rows, touches);
    var rows' := rows[k := row];
    ProjectedByRow(rows', touches);
    forall q ensures RowProjected(Get(rows', q), touches, q) {
      assert RowProjected(Get(rows, q), touches, q);
      if q == k {
        FoldNone(touches, k);
        FoldSome(row, touches, k);
        assert row.fields + map[] == row.fields;
      }
    }
  }

  // ---------------------------------------------------------------- the whole asset

  datatype Lifecycle = Unseen | Active | Inactive

  // The log is in the order of the rebuild's query: by time, then id.
  // `decided` holds the reports for which a correlation decision is stored, by run and observation key.
  datatype Asset = Asset(
    rows: Rows, log: seq<Observation>, decided: set<(nat, string)>, first: Option<int>, last: Option<int>, lifecycle: Lifecycle)

  predicate Before(a: Observation, b: Observation) {
    a.at < b.at || (a.at == b.at && a.id < b.id)
  }

  predicate InOrder(log: seq<Observation>) {
    |log| <= 1 || (InOrder(log[..|log| - 1]) && Before(log[|log| - 2], log[|log| - 1]))
  }

  function MinAt(log: seq<Observation>): Option<int> {
    if log == [] then None
    else
      var m, at := MinAt(log[..|log| - 1]), log[|log| - 1].at;
      if m.Some? && m.value <= at then m else Some(at)
  }

  function MaxAt(log: seq<Observation>): Option<int> {
    if log == [] then None
    else
      var m, at := MaxAt(log[..|log| - 1]), log[|log| - 1].at;
      if m.Some? && m.value >= at then m else Some(at)
  }

  /** recalculate_asset_seen */
  function Recalculated(a: Asset): Asset {
    a.(first := MinAt(a.log), last := MaxAt(a.log),
       lifecycle := if a.log == [] then Unseen else if a.lifecycle == Inactive then Inactive else Active)
  }

  /** rebuild_scanner_projections */
  function Rebuilt(a: Asset): Asset {
    Recalculated(a.(rows := Replay(Base(a.rows), AllTouches(a.log))))
  }

  /** ingest_device_report on an existing asset: lifecycle, upserts, the log; a decided report changes nothing. */
  function Ingested(a: Asset, o: Observation): Asset {
    if (o.job, o.key) in a.decided then a
    else Asset(Replay(a.rows, Touches(o)), a.log + [o], a.decided + {(o.job, o.key)}, Or(a.first, Some(o.at)), Some(o.at), Active)
  }

  datatype Event =
    | Ingest(o: Observation)
    | MarkIncorrect(key: Key)
    | AddManual(key: Key, value: string)
    | Deactivate
    | Relocate(log: seq<Observation>, moved: Rows)

  /** Times do not decrease, new ids are fresh, and unique keys hold. */
  ghost predicate Possible(a: Asset, e: Event) {
    match e
    case Ingest(o) => a.log == [] || Before(a.log[|a.log| - 1], o)
    case MarkIncorrect(k) => k.IdKey? && k in a.rows
    case AddManual(k, _) => k !in a.rows
    case Deactivate => a.log != []
    case Relocate(log, _) => InOrder(log)
  }

  /** Relocate stands for a merge or a moving of observations: any rows, any log, then a rebuild. */
  function After(a: Asset, e: Event): Asset
    requires Possible(a, e)
  {
    match e
    case Ingest(o) => Ingested(a, o)
    case MarkIncorrect(k) => a.(rows := a.rows[k := a.rows[k].(incorrect := true)])
    case AddManual(k, v) => a.(rows := a.rows[k := Row(true, false, map[Value := v], None, None)])
    case Deactivate => a.(lifecycle := Inactive)
    case Relocate(log, moved) => Rebuilt(a.(rows := moved, log := log))
  }

  ghost predicate Run(a: Asset, events: seq<Event>, a': Asset)
    decreases |events|
  {
    if events == [] then a == a'
    else Possible(a, events[0]) && Run(After(a, events[0]), events[1..], a')
  }

  function Empty(): Asset { Asset(map[], [], {}, None, None, Unseen) }

  ghost predicate Inv(a: Asset) {
    InOrder(a.log) && Rebuilt(a) == a
  }

  lemma {:induction false} SeenInOrder(log: seq<Observation>)
    requires InOrder(log) && log != []
    ensures MinAt(log) == Some(log[0].at) && MaxAt(log) == Some(log[|log| - 1].at)
    ensures log[0].at <= log[|log| - 1].at
  {
    if |log| > 1 {
      SeenInOrder(log[..|log| - 1]);
    }
  }

  lemma AllTouchesSnoc(log: seq<Observation>, o: Observation)
    ensures AllTouches(log + [o]) == AllTouches(log) + Touches(o)
  {
    assert (log + [o])[..|log|] == log;
  }

  /** First and last seen, kept as they come, are the least and greatest of the longer log. */
  lemma SeenAfter(log: seq<Observation>, o: Observation)
    requires InOrder(log) && (log == [] || Before(log[|log| - 1], o))
    ensures InOrder(log + [o])
    ensures MinAt(log + [o]) == Or(MinAt(log), Some(o.at)) && MaxAt(log + [o]) == Some(o.at)
  {
    assert (log + [o])[..|log|] == log;
    if log != [] {
      SeenInOrder(log);
    }
  }

  lemma IngestInv(a: Asset, o: Observation)
    requires Inv(a) && Possible(a, Ingest(o))
    ensures Inv(Ingested(a, o))
  {
    if (o.job, o.key) !in a.decided {
      assert Projected(a.rows, AllTouches(a.log));
      ReplayProjected(a.rows, AllTouches(a.log), Touches(o));
      AllTouchesSnoc(a.log, o);
      SeenAfter(a.log, o);
    }
  }

  /** Ingesting a report again, at any later time, changes nothing. */
  lemma IngestTwice(a: Asset, o: Observation, again: Observation)
    requires again.job == o.job && again.key == o.key
    ensures Ingested(Ingested(a, o), again) == Ingested(a, o)
  {
  }

  lemma EventInv(a: Asset, e: Event)
    requires Inv(a) && Possible(a, e)
    ensures Inv(After(a, e))
  {
    assert Projected(a.rows, AllTouches(a.log));
    match e
    case Ingest(o) => IngestInv(a, o);
    case MarkIncorrect(k) => MarkProjected(a.rows, AllTouches(a.log), k);
    case AddManual(k, v) => ManualProjected(a.rows, AllTouches(a.log), k, Row(true, false, map[Value := v], None, None));
    case Deactivate =>
    case Relocate(log, moved) => RebuiltProjected(moved, AllTouches(log));
  }

  /**
   Projection equals replay: after any run the incrementally kept rows, first and last seen and
   lifecycle are what a rebuild computes from the observation log.
   */
  lemma {:induction false} ProjectionIsReplay(a: Asset, events: seq<Event>, a': Asset)
    requires Inv(a) && Run(a, events, a')
    ensures Rebuilt(a') == a' && InOrder(a'.log)
    decreases |events|
  {
    if events != [] {
      EventInv(a, events[0]);
      ProjectionIsReplay(After(a, events[0]), events[1..], a');
    }
  }

  /** In any state a run comes to, first and last seen are the least and the greatest time observed, and an asset is unseen exactly if it never was. */
  lemma SeenThroughout(a: Asset)
    requires Inv(a)
    ensures a.log == [] ==> a.first.None? && a.last.None? && a.lifecycle == Unseen
    ensures a.log != [] ==> a.lifecycle != Unseen && a.first == Some(a.log[0].at) && a.last == Some(a.log[|a.log| - 1].at)
    ensures forall o :: o in a.log ==> a.first.value <= o.at <= a.last.value
  {
    if a.log != [] {
      SeenInOrder(a.log);
      forall o | o in a.log ensures MinAt(a.log).value <= o.at <= MaxAt(a.log).value {
        SeenBounds(a.log, o);
      }
    }
  }

  /** What an operator does to the rows: mark one incorrect, add one by hand, or set the asset inactive; and nothing else. */
  lemma OperatorIs(a: Asset, k: Key, v: string)
    ensures Possible(a, MarkIncorrect(k)) ==>
      After(a, MarkIncorrect(k)) == a.(rows := a.rows[k := a.rows[k].(incorrect := true)]) && k in a.rows
    ensures Possible(a, AddManual(k, v)) ==>
      After(a, AddManual(k, v)) == a.(rows := a.rows[k := Row(true, false, map[Value := v], None, None)]) && k !in a.rows
    ensures Possible(a, Deactivate) ==> After(a, Deactivate) == a.(lifecycle := Inactive)
  {
  }

  /** Rebuilding twice equals rebuilding once, from any state. */
  lemma RebuildTwice(a: Asset)
    ensures Rebuilt(Rebuilt(a)) == Rebuilt(a)
  {
    RebuiltProjected(a.rows, AllTouches(a.log));
  }

  /** A row marked incorrect is frozen through ingests and rebuilds. */
  lemma {:induction false} IncorrectStays(a: Asset, events: seq<Event>, a': Asset, k: Key)
    requires Run(a, events, a') && k in a.rows && a.rows[k].incorrect
    requires forall e :: e in events ==> !e.Relocate?
    ensures k in a'.rows && a'.rows[k] == a.rows[k]
    ensures k in Rebuilt(a').rows && Rebuilt(a').rows[k] == a.rows[k]
    decreases |events|
  {
    if events == [] {
      ReplayAt(Base(a.rows), AllTouches(a.log), k);
      FoldSome(a.rows[k], AllTouches(a.log), k);
    } else {
      if events[0].Ingest? {
        ReplayAt(a.rows, Touches(events[0].o), k);
        FoldSome(a.rows[k], Touches(events[0].o), k);
      }
      assert events[0] in events;
      IncorrectStays(After(a, events[0]), events[1..], a', k);
    }
  }

  /** First and last seen are the least and the greatest time in the log. */
  lemma {:induction false} SeenBounds(log: seq<Observation>, o: Observation)
    requires o in log
    ensures MinAt(log).Some? && MaxAt(log).Some? && MinAt(log).value <= o.at <= MaxAt(log).value
  {
    var front := log[..|log| - 1];
    assert log == front + [log[|log| - 1]];
    if o in front {
      SeenBounds(front, o);
    }
  }
}
