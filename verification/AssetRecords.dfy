/** One asset's rows as the ingest updates them in place. */
module AssetRecords {
  import opened Options
  import opened Identifiers
  import opened Projection

  lemma {:induction false} ReplayAppend(rows: Rows, a: seq<Touch>, b: seq<Touch>)
    ensures Replay(rows, a + b) == Replay(Replay(rows, a), b)
  {
    if b == [] {
      assert a + b == a;
    } else {
      var front, t := b[..|b| - 1], b[|b| - 1];
      ReplayAppend(rows, a, front);
      assert (a + b)[..|a + b| - 1] == a + front;
    }
  }

  lemma ReplayOne(rows: Rows, t: Touch)
    ensures Replay(rows, [t]) == Upsert(rows, t)
  {
    assert [t][..0] == [];
  }

  class AssetRecord {
    var rows: Rows
    var log: seq<Observation>
    var decided: set<(nat, string)>
    var first: Option<int>
    var last: Option<int>
    var lifecycle: Lifecycle

    ghost function State(): Asset
      reads this
    {
      Asset(rows, log, decided, first, last, lifecycle)
    }

    constructor ()
      ensures State() == Empty()
    {
      rows, log, decided, first, last, lifecycle := map[], [], {}, None, None, Unseen;
    }

    /** The shared part of the three upserts: find the row, insert it, leave it, or update it. */
    method Put(t: Touch)
      modifies this`rows
      ensures rows == Upsert(old(rows), t)
    {
      if t.key !in rows {
        rows := rows[t.key := Row(false, false, t.sets, Some(t.at), Some(t.at))];
        return;
      }
      var row := rows[t.key];
      if row.incorrect {
        return;
      }
      row := row.(fields := row.fields + t.sets, last := Some(t.at));
      if row.first.None? {
        row := row.(first := Some(t.at));
      }
      rows := rows[t.key := row];
    }

    /** upsert_identifier */
    method UpsertIdentifier(kind: Kind, name: Option<Name>, at: int)
      modifies this`rows
      ensures rows == Replay(old(rows), NameTouch(kind, name, at))
    {
      if name.None? || (kind == Hostname && name.value.placeholder) {
        return;
      }
      if name.value.normal == "" {
        return;
      }
      ReplayOne(rows, Touch(IdKey(kind, name.value.normal), map[Value := name.value.raw], at));
      Put(Touch(IdKey(kind, name.value.normal), map[Value := name.value.raw], at));
    }

    /** upsert_address */
    method UpsertAddress(ip: Ip, site: Option<string>, network: Option<string>, at: int)
      modifies this`rows
      ensures rows == Replay(old(rows), AddressTouch(ip, site, network, at))
    {
      if ip.text == "" || !ip.valid {
        return;
      }
      var sets := map[];
      if site.Some? {
        sets := sets[Site := site.value];
      }
      if network.Some? {
        sets := sets[Net := network.value];
      }
      assert sets == Given(Site, site) + Given(Net, network);
      ReplayOne(rows, Touch(AddressKey(ip.text), sets, at));
      Put(Touch(AddressKey(ip.text), sets, at));
    }

    /** upsert_services */
    method UpsertServices(ip: Ip, ports: seq<Port>, title: string, tech: string, at: int)
      modifies this`rows
      ensures rows == Replay(old(rows), ServiceTouches(ip, ports, title, tech, at))
    {
      assert ports[..0] == [];
      for i := 0 to |ports|
        invariant rows == Replay(old(rows), ServiceTouches(ip, ports[..i], title, tech, at))
      {
        var t := ServiceTouch(ip, ports[i], title, tech, at);
        assert ports[..i + 1][..i] == ports[..i];
        ReplayAppend(old(rows), ServiceTouches(ip, ports[..i], title, tech, at), [t]);
        ReplayOne(rows, t);
        Put(t);
      }
      assert ports[..|ports|] == ports;
    }

    method UpsertHost(name: Option<Name>, at: int)
      modifies this`rows
      ensures rows == Replay(old(rows), HostTouches(name, at))
    {
      if name.Some? && !name.value.placeholder {
        UpsertIdentifier(Hostname, name, at);
        if name.value.dotted {
          ReplayAppend(old(rows), NameTouch(Hostname, name, at), NameTouch(Fqdn, name, at));
          UpsertIdentifier(Fqdn, name, at);
        } else {
          assert NameTouch(Hostname, name, at) + [] == NameTouch(Hostname, name, at);
        }
      }
    }

    method UpsertNames(given: seq<(Kind, Option<Name>)>, at: int)
      modifies this`rows
      ensures rows == Replay(old(rows), Reported(given, at))
    {
      assert given[..0] == [];
      for i := 0 to |given|
        invariant rows == Replay(old(rows), Reported(given[..i], at))
      {
        assert given[..i + 1][..i] == given[..i];
        ReplayAppend(old(rows), Reported(given[..i], at), NameTouch(given[i].0, given[i].1, at));
        UpsertIdentifier(given[i].0, given[i].1, at);
      }
      assert given[..|given|] == given;
    }

    /** apply_scanner_facts_from_snapshot */
    method ApplySnapshot(o: Observation)
      modifies this`rows
      ensures rows == Replay(old(rows), Touches(o))
    {
      var address := AddressTouch(o.ip, o.site, o.network, o.at);
      ReplayAppend(rows, NameTouches(o), address);
      ReplayAppend(rows, NameTouches(o) + address, ServiceTouches(o.ip, o.ports, o.title, o.tech, o.at));
      ReplayAppend(rows, HostTouches(o.hostname, o.at), Reported(NamesGiven(o), o.at));
      UpsertHost(o.hostname, o.at);
      UpsertNames(NamesGiven(o), o.at);
      UpsertAddress(o.ip, o.site, o.network, o.at);
      UpsertServices(o.ip, o.ports, o.title, o.tech, o.at);
    }

    /** recalculate_asset_seen */
    method RecalculateSeen()
      modifies this`first, this`last, this`lifecycle
      ensures State() == Recalculated(old(State()))
    {
      if log == [] {
        first, last, lifecycle := None, None, Unseen;
        return;
      }
      var least, greatest := log[0].at, log[0].at;
      assert log[..1][..0] == [];
      for i := 1 to |log|
        invariant MinAt(log[..i]) == Some(least) && MaxAt(log[..i]) == Some(greatest)
      {
        assert log[..i + 1][..i] == log[..i];
        if log[i].at < least {
          least := log[i].at;
        }
        if log[i].at > greatest {
          greatest := log[i].at;
        }
      }
      assert log[..|log|] == log;
      first, last := Some(least), Some(greatest);
      if lifecycle != Inactive {
        lifecycle := Active;
      }
    }

    /** rebuild_scanner_projections */
    method Rebuild()
      modifies this
      ensures State() == Rebuilt(old(State()))
    {
      var doomed := set k | k in rows && !rows[k].manual && !rows[k].incorrect;
      rows := rows - doomed;
      assert rows == Base(old(rows));
      assert log[..0] == [];
      for i := 0 to |log|
        invariant log == old(log) && decided == old(decided) && first == old(first) && last == old(last) && lifecycle == old(lifecycle)
        invariant rows == Replay(Base(old(rows)), AllTouches(log[..i]))
      {
        assert log[..i + 1][..i] == log[..i];
        ReplayAppend(Base(old(rows)), AllTouches(log[..i]), Touches(log[i]));
        ApplySnapshot(log[i]);
      }
      assert log[..|log|] == log;
      RecalculateSeen();
    }

    /** ingest_device_report, once the asset is chosen; a report with a stored decision is a retry. */
    method Ingest(o: Observation)
      modifies this
      ensures State() == Ingested(old(State()), o)
    {
      if (o.job, o.key) in decided {
        return;
      }
      if first.None? {
        first := Some(o.at);
      }
      last := Some(o.at);
      lifecycle := Active;
      ApplySnapshot(o);
      log := log + [o];
      decided := decided + {(o.job, o.key)};
    }
  }
}
