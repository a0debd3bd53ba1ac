/**
 What one report leaves in an asset's rows, read off the report's own fields: each name under its own
 kind, the address, each port's service, and nothing else.
 */
module Snapshots {
  import opened Options
  import opened Identifiers
  import opened Projection

  // ---------------------------------------------------------------- what a report says

  /** The report names the asset so, as this kind of identifier. */
  predicate Named(o: Observation, kind: Kind, n: Name) {
    n.normal != "" &&
    match kind
    case Hostname => o.hostname == Some(n) && !n.placeholder
    case Fqdn => o.fqdn == Some(n) || (o.hostname == Some(n) && !n.placeholder && n.dotted)
    case Mac => o.mac == Some(n)
    case Serial => o.serial == Some(n)
    case DeviceId => o.device == Some(n)
    case TlsName => o.tls == Some(n)
    case DnsName => o.dns == Some(n)
  }

  predicate IsPort(p: Port, number: int, protocol: string) {
    p.number == number && p.protocol == protocol
  }

  predicate HasPort(ports: seq<Port>, number: int, protocol: string) {
    exists p :: p in ports && IsPort(p, number, protocol)
  }

  /** The report has something to say about the row under this key. */
  ghost predicate Mentions(o: Observation, k: Key) {
    match k
    case IdKey(kind, normal) => exists n :: Named(o, kind, n) && n.normal == normal
    case AddressKey(ip) => o.ip.text == ip && ip != "" && o.ip.valid
    case ServiceKey(ip, number, protocol) => o.ip.text == ip && HasPort(o.ports, number, protocol)
  }

  function ValueOf(row: Option<Row>, f: Field): Option<string> {
    if row.Some? && f in row.value.fields then Some(row.value.fields[f]) else None
  }

  predicate Frozen(row: Option<Row>) {
    row.Some? && row.value.incorrect
  }

  /** The row exists and was seen at `at`; a new one is neither manual nor incorrect, and an old one keeps its origin and first time. */
  predicate Seen(row: Option<Row>, row': Option<Row>, at: int) {
    && row'.Some? && row'.value.last == Some(at) && !row'.value.incorrect
    && (row.None? ==> !row'.value.manual && row'.value.first == Some(at))
    && (row.Some? ==> row'.value.manual == row.value.manual && row'.value.first == if row.value.first.Some? then row.value.first else Some(at))
  }

  predicate OnlyField(row: Option<Row>, row': Option<Row>, f: Field) {
    forall g: Field :: g != f ==> ValueOf(row', g) == ValueOf(row, g)
  }

  /** A text that is given replaces the old one. */
  predicate Replaces(row: Option<Row>, row': Option<Row>, f: Field, text: string) {
    ValueOf(row', f) == if text != "" then Some(text) else ValueOf(row, f)
  }

  // ---------------------------------------------------------------- one touch after another

  lemma {:induction false} FoldAppend(row: Option<Row>, a: seq<Touch>, b: seq<Touch>, k: Key)
    ensures FoldRow(row, a + b, k) == FoldRow(FoldRow(row, a, k), b, k)
  {
    if b == [] {
      assert a + b == a;
    } else {
      assert (a + b)[..|a + b| - 1] == a + b[..|b| - 1];
      FoldAppend(row, a, b[..|b| - 1], k);
    }
  }

  lemma {:induction false} FoldElsewhere(row: Option<Row>, touches: seq<Touch>, k: Key)
    requires forall t :: t in touches ==> t.key != k
    ensures FoldRow(row, touches, k) == row
  {
    if touches != [] {
      FoldElsewhere(row, touches[..|touches| - 1], k);
    }
  }

  lemma FoldOne(row: Option<Row>, t: Touch, k: Key)
    ensures FoldRow(row, [t], k) == if t.key == k then Some(Touched(row, t)) else row
  {
    assert [t][..0] == [];
    assert FoldRow(row, [], k) == row;
  }

  /** One name's own turn. */
  function NameTurn(row: Option<Row>, kind: Kind, name: Option<Name>, at: int, k: Key): Option<Row> {
    if name.Some? && name.value.normal != "" && !(kind == Hostname && name.value.placeholder) && k == IdKey(kind, name.value.normal)
    then Some(Touched(row, Touch(k, map[Value := name.value.raw], at)))
    else row
  }

  lemma FoldName(row: Option<Row>, kind: Kind, name: Option<Name>, at: int, k: Key)
    ensures FoldRow(row, NameTouch(kind, name, at), k) == NameTurn(row, kind, name, at, k)
  {
    if NameTouch(kind, name, at) != [] {
      FoldOne(row, NameTouch(kind, name, at)[0], k);
    }
  }

  lemma FoldHost(row: Option<Row>, name: Option<Name>, at: int, k: Key)
    ensures FoldRow(row, HostTouches(name, at), k) ==
      if name.None? || name.value.placeholder then row
      else if name.value.dotted then NameTurn(NameTurn(row, Hostname, name, at, k), Fqdn, name, at, k)
      else NameTurn(row, Hostname, name, at, k)
  {
    FoldName(row, Hostname, name, at, k);
    if name.Some? && !name.value.placeholder {
      FoldAppend(row, NameTouch(Hostname, name, at), if name.value.dotted then NameTouch(Fqdn, name, at) else [], k);
      FoldName(NameTurn(row, Hostname, name, at, k), Fqdn, name, at, k);
    }
  }

  lemma FoldReported(row: Option<Row>, given: seq<(Kind, Option<Name>)>, kind: Kind, name: Option<Name>, at: int, k: Key)
    ensures FoldRow(row, Reported(given + [(kind, name)], at), k) == NameTurn(FoldRow(row, Reported(given, at), k), kind, name, at, k)
  {
    assert (given + [(kind, name)])[..|given|] == given;
    FoldAppend(row, Reported(given, at), NameTouch(kind, name, at), k);
    FoldName(FoldRow(row, Reported(given, at), k), kind, name, at, k);
  }

  /** The six names of a report in their order. */
  function SixTurns(row: Option<Row>, o: Observation, k: Key): Option<Row> {
    var r3 := NameTurn(NameTurn(NameTurn(row, Mac, o.mac, o.at, k), Serial, o.serial, o.at, k), DeviceId, o.device, o.at, k);
    NameTurn(NameTurn(NameTurn(r3, Fqdn, o.fqdn, o.at, k), TlsName, o.tls, o.at, k), DnsName, o.dns, o.at, k)
  }

  lemma FoldThree(row: Option<Row>, given: seq<(Kind, Option<Name>)>, a: (Kind, Option<Name>), b: (Kind, Option<Name>), c: (Kind, Option<Name>), at: int, k: Key)
    ensures FoldRow(row, Reported(given + [a, b, c], at), k) ==
      NameTurn(NameTurn(NameTurn(FoldRow(row, Reported(given, at), k), a.0, a.1, at, k), b.0, b.1, at, k), c.0, c.1, at, k)
  {
    FoldReported(row, given, a.0, a.1, at, k);
    FoldReported(row, given + [a], b.0, b.1, at, k);
    FoldReported(row, given + [a] + [b], c.0, c.1, at, k);
    assert given + [a, b, c] == given + [a] + [b] + [c];
  }

  lemma FoldNames(row: Option<Row>, o: Observation, k: Key)
    ensures FoldRow(row, Reported(NamesGiven(o), o.at), k) == SixTurns(row, o, k)
  {
    var first: seq<(Kind, Option<Name>)> := [(Mac, o.mac), (Serial, o.serial), (DeviceId, o.device)];
    FoldThree(row, [], first[0], first[1], first[2], o.at, k);
    FoldThree(row, first, (Fqdn, o.fqdn), (TlsName, o.tls), (DnsName, o.dns), o.at, k);
    assert [] + first == first;
    assert NamesGiven(o) == first + [(Fqdn, o.fqdn), (TlsName, o.tls), (DnsName, o.dns)];
    assert Reported([], o.at) == [] && FoldRow(row, [], k) == row;
  }

  lemma {:induction false} ServiceKeys(ip: Ip, ports: seq<Port>, title: string, tech: string, at: int)
    ensures forall t :: t in ServiceTouches(ip, ports, title, tech, at) ==> t.key.ServiceKey?
  {
    if ports != [] {
      ServiceKeys(ip, ports[..|ports| - 1], title, tech, at);
    }
  }

  lemma {:induction false} ReportedKeys(given: seq<(Kind, Option<Name>)>, at: int)
    ensures forall t :: t in Reported(given, at) ==> t.key.IdKey?
  {
    if given != [] {
      ReportedKeys(given[..|given| - 1], at);
    }
  }

  /** Touches of three sorts of row. */
  lemma FoldSorts(row: Option<Row>, names: seq<Touch>, address: seq<Touch>, services: seq<Touch>, k: Key)
    requires forall t :: t in names ==> t.key.IdKey?
    requires forall t :: t in address ==> t.key.AddressKey?
    requires forall t :: t in services ==> t.key.ServiceKey?
    ensures FoldRow(row, names + address + services, k) ==
      if k.IdKey? then FoldRow(row, names, k) else if k.AddressKey? then FoldRow(row, address, k) else FoldRow(row, services, k)
  {
    FoldAppend(row, names, address, k);
    FoldAppend(row, names + address, services, k);
    if !k.IdKey? {
      FoldElsewhere(row, names, k);
    }
    if !k.AddressKey? {
      FoldElsewhere(FoldRow(row, names, k), address, k);
    }
    if !k.ServiceKey? {
      FoldElsewhere(FoldRow(row, names + address, k), services, k);
    }
  }

  /** Names, address and services touch rows of their own sort only. */
  lemma FoldBySort(row: Option<Row>, o: Observation, k: Key)
    ensures FoldRow(row, Touches(o), k) ==
      match k
      case IdKey(_, _) => FoldRow(FoldRow(row, HostTouches(o.hostname, o.at), k), Reported(NamesGiven(o), o.at), k)
      case AddressKey(_) => FoldRow(row, AddressTouch(o.ip, o.site, o.network, o.at), k)
      case ServiceKey(_, _, _) => FoldRow(row, ServiceTouches(o.ip, o.ports, o.title, o.tech, o.at), k)
  {
    ReportedKeys(NamesGiven(o), o.at);
    ServiceKeys(o.ip, o.ports, o.title, o.tech, o.at);
    FoldSorts(row, NameTouches(o), AddressTouch(o.ip, o.site, o.network, o.at), ServiceTouches(o.ip, o.ports, o.title, o.tech, o.at), k);
    FoldAppend(row, HostTouches(o.hostname, o.at), Reported(NamesGiven(o), o.at), k);
  }

  // ---------------------------------------------------------------- names

  lemma TurnSeen(row: Option<Row>, t: Touch)
    requires !Frozen(row)
    ensures Seen(row, Some(Touched(row, t)), t.at)
    ensures forall f: Field :: ValueOf(Some(Touched(row, t)), f) == if f in t.sets then Some(t.sets[f]) else ValueOf(row, f)
  {
  }

  /** A new report of a name leaves it under its own kind, as reported; of two that normalise alike the one given as such stands. */
  lemma IngestName(a: Asset, o: Observation, kind: Kind, n: Name)
    requires (o.job, o.key) !in a.decided && Named(o, kind, n)
    requires kind == Fqdn && o.fqdn.Some? && o.fqdn.value.normal == n.normal ==> o.fqdn == Some(n)
    ensures var row, row' := Get(a.rows, IdKey(kind, n.normal)), Get(Ingested(a, o).rows, IdKey(kind, n.normal));
      && (Frozen(row) ==> row' == row)
      && (!Frozen(row) ==> Seen(row, row', o.at) && ValueOf(row', Value) == Some(n.raw) && OnlyField(row, row', Value))
  {
    var k := IdKey(kind, n.normal);
    var row := Get(a.rows, k);
    ReplayAt(a.rows, Touches(o), k);
    FoldBySort(row, o, k);
    FoldHost(row, o.hostname, o.at, k);
    FoldNames(FoldRow(row, HostTouches(o.hostname, o.at), k), o, k);
    if !Frozen(row) {
      TurnSeen(row, Touch(k, map[Value := n.raw], o.at));
      if kind == Fqdn && o.fqdn == Some(n) && o.hostname.Some? && !o.hostname.value.placeholder && o.hostname.value.dotted && o.hostname.value.normal == n.normal {
        var first := Touch(k, map[Value := o.hostname.value.raw], o.at);
        TurnSeen(row, first);
        TurnSeen(Some(Touched(row, first)), Touch(k, map[Value := n.raw], o.at));
      }
    }
  }

  // ---------------------------------------------------------------- the address

  /** A new report from a valid address leaves its row, with the site and network that were given. */
  lemma IngestAddress(a: Asset, o: Observation)
    requires (o.job, o.key) !in a.decided && o.ip.text != "" && o.ip.valid
    ensures var row, row' := Get(a.rows, AddressKey(o.ip.text)), Get(Ingested(a, o).rows, AddressKey(o.ip.text));
      && (Frozen(row) ==> row' == row)
      && (!Frozen(row) ==>
            && Seen(row, row', o.at)
            && ValueOf(row', Site) == (if o.site.Some? then o.site else ValueOf(row, Site))
            && ValueOf(row', Net) == (if o.network.Some? then o.network else ValueOf(row, Net))
            && forall f: Field :: f != Site && f != Net ==> ValueOf(row', f) == ValueOf(row, f))
  {
    var k := AddressKey(o.ip.text);
    var row := Get(a.rows, k);
    ReplayAt(a.rows, Touches(o), k);
    FoldBySort(row, o, k);
    FoldOne(row, AddressTouch(o.ip, o.site, o.network, o.at)[0], k);
    if !Frozen(row) {
      TurnSeen(row, AddressTouch(o.ip, o.site, o.network, o.at)[0]);
    }
  }

  // ---------------------------------------------------------------- services

  /** The i-th port gives `text` for its service, and no later port of the same service gives another. */
  predicate LastGiven(ports: seq<Port>, i: int, part: Port -> string) {
    && 0 <= i < |ports| && part(ports[i]) != ""
    && forall j :: i < j < |ports| && IsPort(ports[j], ports[i].number, ports[i].protocol) ==> part(ports[j]) == ""
  }

  ghost predicate NoneGiven(ports: seq<Port>, number: int, protocol: string, part: Port -> string) {
    forall p :: p in ports && IsPort(p, number, protocol) ==> part(p) == ""
  }

  /** The last text given for a part of a service replaces the old one. */
  ghost predicate PartSet(row: Option<Row>, row': Option<Row>, ports: seq<Port>, number: int, protocol: string, f: Field, part: Port -> string) {
    && (NoneGiven(ports, number, protocol, part) ==> ValueOf(row', f) == ValueOf(row, f))
    && (forall i :: LastGiven(ports, i, part) && IsPort(ports[i], number, protocol) ==> ValueOf(row', f) == Some(part(ports[i])))
  }

  function ProductOf(p: Port): string { p.product }

  function VersionOf(p: Port): string { p.version }

  lemma PartNext(row: Option<Row>, mid: Option<Row>, row': Option<Row>, ports: seq<Port>, p: Port, number: int, protocol: string, f: Field, part: Port -> string)
    requires PartSet(row, mid, ports, number, protocol, f, part)
    requires ValueOf(row', f) == if IsPort(p, number, protocol) && part(p) != "" then Some(part(p)) else ValueOf(mid, f)
    ensures PartSet(row, row', ports + [p], number, protocol, f, part)
  {
    var all := ports + [p];
    assert all[|ports|] == p;
    if NoneGiven(all, number, protocol, part) {
      assert p in all;
      forall q | q in ports && IsPort(q, number, protocol) ensures part(q) == "" {
        assert q in all;
      }
    }
    forall i | LastGiven(all, i, part) && IsPort(all[i], number, protocol) ensures ValueOf(row', f) == Some(part(all[i])) {
      if i < |ports| {
        forall j | i < j < |ports| && IsPort(ports[j], number, protocol) ensures part(ports[j]) == "" {
          assert IsPort(all[j], all[i].number, all[i].protocol);
        }
        assert LastGiven(ports, i, part);
        assert IsPort(p, number, protocol) ==> part(all[|ports|]) == "";
      }
    }
  }

  /** What the ports leave in the row of a service. */
  ghost predicate Serviced(row: Option<Row>, row': Option<Row>, o: Observation, ports: seq<Port>, number: int, protocol: string) {
    && Seen(row, row', o.at)
    && PartSet(row, row', ports, number, protocol, Product, ProductOf) && PartSet(row, row', ports, number, protocol, Version, VersionOf)
    && Replaces(row, row', Title, o.title) && Replaces(row, row', Tech, o.tech)
    && forall f: Field :: f in {Value, Site, Net} ==> ValueOf(row', f) == ValueOf(row, f)
  }

  /** A port's service row after its turn. */
  lemma TouchService(row: Option<Row>, o: Observation, p: Port)
    requires !Frozen(row)
    ensures var row' := Some(Touched(row, ServiceTouch(o.ip, p, o.title, o.tech, o.at)));
      && Seen(row, row', o.at)
      && Replaces(row, row', Product, p.product) && Replaces(row, row', Version, p.version)
      && Replaces(row, row', Title, o.title) && Replaces(row, row', Tech, o.tech)
      && forall f: Field :: f in {Value, Site, Net} ==> ValueOf(row', f) == ValueOf(row, f)
  {
    var t := ServiceTouch(o.ip, p, o.title, o.tech, o.at);
    TurnSeen(row, t);
    ServiceSets(o, p);
  }

  lemma ServiceSets(o: Observation, p: Port)
    ensures var sets := ServiceTouch(o.ip, p, o.title, o.tech, o.at).sets;
      && (Product in sets <==> p.product != "") && (Product in sets ==> sets[Product] == p.product)
      && (Version in sets <==> p.version != "") && (Version in sets ==> sets[Version] == p.version)
      && (Title in sets <==> o.title != "") && (Title in sets ==> sets[Title] == o.title)
      && (Tech in sets <==> o.tech != "") && (Tech in sets ==> sets[Tech] == o.tech)
      && Value !in sets && Site !in sets && Net !in sets
  {
  }

  lemma NoPortsYet(row: Option<Row>, ports: seq<Port>, number: int, protocol: string, f: Field, part: Port -> string)
    requires !HasPort(ports, number, protocol)
    ensures PartSet(row, row, ports, number, protocol, f, part)
  {
  }

  /** The row of a service after all ports, mentioned or not. */
  ghost predicate AfterPorts(row: Option<Row>, row': Option<Row>, o: Observation, ports: seq<Port>, number: int, protocol: string) {
    if HasPort(ports, number, protocol) then Serviced(row, row', o, ports, number, protocol) else row' == row
  }

  lemma FoldPort(row: Option<Row>, o: Observation, front: seq<Port>, p: Port, k: Key)
    ensures FoldRow(row, ServiceTouches(o.ip, front + [p], o.title, o.tech, o.at), k) ==
      var mid, t := FoldRow(row, ServiceTouches(o.ip, front, o.title, o.tech, o.at), k), ServiceTouch(o.ip, p, o.title, o.tech, o.at);
      if t.key == k then Some(Touched(mid, t)) else mid
  {
    var before, t := ServiceTouches(o.ip, front, o.title, o.tech, o.at), ServiceTouch(o.ip, p, o.title, o.tech, o.at);
    assert (front + [p])[..|front|] == front;
    FoldAppend(row, before, [t], k);
    FoldOne(FoldRow(row, before, k), t, k);
  }

  lemma {:induction false} FoldServices(row: Option<Row>, o: Observation, ports: seq<Port>, number: int, protocol: string)
    requires !Frozen(row)
    ensures AfterPorts(row, FoldRow(row, ServiceTouches(o.ip, ports, o.title, o.tech, o.at), ServiceKey(o.ip.text, number, protocol)), o, ports, number, protocol)
  {
    if ports != [] {
      var front, p := ports[..|ports| - 1], ports[|ports| - 1];
      var k := ServiceKey(o.ip.text, number, protocol);
      FoldServices(row, o, front, number, protocol);
      FoldPort(row, o, front, p, k);
      ServiceNext(row, FoldRow(row, ServiceTouches(o.ip, front, o.title, o.tech, o.at), k), o, front, p, number, protocol);
      assert ports == front + [p];
    }
  }

  lemma HasPortNext(front: seq<Port>, p: Port, number: int, protocol: string)
    ensures HasPort(front + [p], number, protocol) <==> HasPort(front, number, protocol) || IsPort(p, number, protocol)
  {
    assert p in front + [p];
    if HasPort(front, number, protocol) {
      var q :| q in front && IsPort(q, number, protocol);
      assert q in front + [p];
    }
  }

  lemma ServiceNext(row: Option<Row>, mid: Option<Row>, o: Observation, front: seq<Port>, p: Port, number: int, protocol: string)
    requires !Frozen(row)
    requires AfterPorts(row, mid, o, front, number, protocol)
    ensures var t := ServiceTouch(o.ip, p, o.title, o.tech, o.at);
      AfterPorts(row, if t.key == ServiceKey(o.ip.text, number, protocol) then Some(Touched(mid, t)) else mid, o, front + [p], number, protocol)
  {
    var row' := if IsPort(p, number, protocol) then Some(Touched(mid, ServiceTouch(o.ip, p, o.title, o.tech, o.at))) else mid;
    HasPortNext(front, p, number, protocol);
    if !HasPort(front, number, protocol) {
      NoPortsYet(row, front, number, protocol, Product, ProductOf);
      NoPortsYet(row, front, number, protocol, Version, VersionOf);
    }
    if IsPort(p, number, protocol) {
      TouchService(mid, o, p);
    }
    if HasPort(front + [p], number, protocol) {
      PartNext(row, mid, row', front, p, number, protocol, Product, ProductOf);
      PartNext(row, mid, row', front, p, number, protocol, Version, VersionOf);
    }
  }

  /** A new report of a port leaves its service's row, with the last product and version given for it, and the title and technology. */
  lemma IngestService(a: Asset, o: Observation, p: Port)
    requires (o.job, o.key) !in a.decided && p in o.ports
    ensures var k := ServiceKey(o.ip.text, p.number, p.protocol);
      && (Frozen(Get(a.rows, k)) ==> Get(Ingested(a, o).rows, k) == Get(a.rows, k))
      && (!Frozen(Get(a.rows, k)) ==> Serviced(Get(a.rows, k), Get(Ingested(a, o).rows, k), o, o.ports, p.number, p.protocol))
  {
    var k := ServiceKey(o.ip.text, p.number, p.protocol);
    var row := Get(a.rows, k);
    ReplayAt(a.rows, Touches(o), k);
    if Frozen(row) {
      FoldSome(row.value, Touches(o), k);
    } else {
      FoldBySort(row, o, k);
      FoldServices(row, o, o.ports, p.number, p.protocol);
      assert IsPort(p, p.number, p.protocol);
    }
  }

  // ---------------------------------------------------------------- everything else

  lemma UnnamedRow(row: Option<Row>, o: Observation, kind: Kind, normal: string)
    requires forall n :: Named(o, kind, n) ==> n.normal != normal
    ensures FoldRow(row, Touches(o), IdKey(kind, normal)) == row
  {
    var k := IdKey(kind, normal);
    FoldBySort(row, o, k);
    forall n: Name | n.normal == normal ensures !Named(o, kind, n) {
    }
    FoldHost(row, o.hostname, o.at, k);
    FoldNames(row, o, k);
  }

  lemma UnusedPort(row: Option<Row>, o: Observation, ip: string, number: int, protocol: string)
    requires o.ip.text == ip ==> !HasPort(o.ports, number, protocol)
    ensures FoldRow(row, Touches(o), ServiceKey(ip, number, protocol)) == row
  {
    FoldBySort(row, o, ServiceKey(ip, number, protocol));
    OtherService(o.ip, o.ports, o.title, o.tech, o.at, ip, number, protocol);
    FoldElsewhere(row, ServiceTouches(o.ip, o.ports, o.title, o.tech, o.at), ServiceKey(ip, number, protocol));
  }

  /** A row that the report does not mention is as it was, and so is every row when the report was decided before. */
  lemma IngestOthers(a: Asset, o: Observation, k: Key)
    requires (o.job, o.key) in a.decided || !Mentions(o, k)
    ensures Get(Ingested(a, o).rows, k) == Get(a.rows, k)
  {
    if (o.job, o.key) !in a.decided {
      ReplayAt(a.rows, Touches(o), k);
      match k
      case IdKey(kind, normal) => UnnamedRow(Get(a.rows, k), o, kind, normal);
      case AddressKey(_) =>
        FoldBySort(Get(a.rows, k), o, k);
        FoldElsewhere(Get(a.rows, k), AddressTouch(o.ip, o.site, o.network, o.at), k);
      case ServiceKey(ip, number, protocol) => UnusedPort(Get(a.rows, k), o, ip, number, protocol);
    }
  }

  lemma {:induction false} OtherService(ip: Ip, ports: seq<Port>, title: string, tech: string, at: int, other: string, number: int, protocol: string)
    requires ip.text == other ==> !HasPort(ports, number, protocol)
    ensures forall t :: t in ServiceTouches(ip, ports, title, tech, at) ==> t.key != ServiceKey(other, number, protocol)
  {
    if ports != [] {
      var front, p := ports[..|ports| - 1], ports[|ports| - 1];
      assert ports == front + [p];
      HasPortNext(front, p, number, protocol);
      OtherService(ip, front, title, tech, at, other, number, protocol);
    }
  }
}
