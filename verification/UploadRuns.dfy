/** Every schedule of appends, seals, sends, acknowledgements, crashes and recoveries of one job. */
module UploadRuns {
  import opened Options
  import opened Chunks
  import opened SpoolDir
  import opened Spool
  import opened Upload

  datatype Phase = Collecting | Finishing | Down

  datatype Sys = Sys(
    tracks: PerKind<Track>, phase: Phase, done: bool, delivered: Option<(Kind, Chunk)>, outcome: Option<bool>)

  datatype Action =
    | Append(k: Kind, r: Record)
    | Seal(k: Kind)                     // the rename that makes a chunk file appear
    | Skip(k: Kind)                     // a write refused by the cap or cut short before its rename
    | MarkDone                          // pipeline.done appears
    | GiveUp                            // the pipeline failed; its records are uploaded all the same
    | SendPart(k: Kind, rows: nat)      // part of the first listed chunk reaches the server, or its reply is lost
    | Deliver(k: Kind)                  // the whole first listed chunk reaches the server and the reply arrives
    | Ack(k: Kind)                      // the delivered chunk is deleted
    | Complete(ok: bool)
    | Crash
    | Resume                            // restart with pipeline.done present
    | Abandon(again: bool)              // restart without it: the directory is deleted, the pipeline run again or failed

  function OnTrack(s: Sys, k: Kind, t: Track): Sys {
    s.(tracks := s.tracks.Set(k, t))
  }

  function MapTracks(ts: PerKind<Track>, f: Track -> Track): PerKind<Track> {
    PerKind(f(ts.devices), f(ts.findings), f(ts.coverage))
  }

  predicate NothingInMemory(s: Sys) {
    s.tracks.devices.lane.open == [] && s.tracks.findings.lane.open == [] && s.tracks.coverage.lane.open == []
  }

  predicate HasPending(s: Sys) {
    || s.tracks.devices.lane.files != [] || s.tracks.findings.lane.files != [] || s.tracks.coverage.lane.files != []
    || !NothingInMemory(s)
  }

  /** Memory is gone; only the files remain. */
  function TCrash(t: Track): Track {
    t.(lane := Lane(t.lane.files, [], [], 0))
  }

  function TAbandon(t: Track): Track {
    Fresh(t.table)
  }

  predicate Enabled(s: Sys, a: Action, limits: Limits) {
    && s.outcome.None?
    && match a
       case Append(k, r) =>
         s.phase == Collecting && !Oversized(r, limits, Worker) && !MustSeal(s.tracks.Get(k).lane.open, r, limits)
       case Seal(k) => s.phase != Down && s.delivered.None? && s.tracks.Get(k).lane.open != []
       case Skip(k) => s.phase != Down && s.delivered.None? && s.tracks.Get(k).lane.open != []
       case MarkDone => s.phase == Collecting && NothingInMemory(s)
       case GiveUp => s.phase == Collecting
       // requests are sent only once everything is sealed
       case SendPart(k, n) =>
         s.phase == Finishing && NothingInMemory(s) && Listed(s.tracks.Get(k).lane) != [] && n <= |FirstListed(s.tracks.Get(k).lane)|
       case Deliver(k) => s.phase == Finishing && NothingInMemory(s) && Listed(s.tracks.Get(k).lane) != []
       case Ack(k) => s.phase == Finishing && s.delivered.Some? && s.delivered.value.0 == k
       case Complete(ok) => s.phase == Finishing && (ok ==> !HasPending(s))
       case Crash => s.phase != Down
       case Resume => s.phase == Down && s.done
       case Abandon(_) => s.phase == Down && !s.done
  }

  function Next(s: Sys, a: Action, limits: Limits): Sys
    requires Enabled(s, a, limits)
  {
    match a
    case Append(k, r) => OnTrack(s, k, TAppend(s.tracks.Get(k), r))
    case Seal(k) => OnTrack(s, k, TSeal(s.tracks.Get(k)))
    case Skip(k) => OnTrack(s, k, TSkip(s.tracks.Get(k)))
    case MarkDone => s.(phase := Finishing, done := true)
    case GiveUp => s.(phase := Finishing)
    case SendPart(k, n) => OnTrack(s, k, TSend(s.tracks.Get(k), n))
    case Deliver(k) =>
      var f := Listed(s.tracks.Get(k).lane)[0];
      OnTrack(s, k, TSend(s.tracks.Get(k), |f.rows|)).(delivered := Some((k, f)))
    case Ack(k) => OnTrack(s, k, TAck(s.tracks.Get(k), s.delivered.value.1)).(delivered := None)
    case Complete(ok) => s.(outcome := Some(ok))
    case Crash => s.(tracks := MapTracks(s.tracks, TCrash), phase := Down, delivered := None)
    case Resume => s.(tracks := MapTracks(s.tracks, TReopen), phase := Finishing)
    case Abandon(again) =>
      s.(tracks := MapTracks(s.tracks, TAbandon), phase := Collecting, outcome := if again then None else Some(false))
  }

  function Start(tables: PerKind<Table>): Sys {
    Sys(PerKind(Fresh(tables.devices), Fresh(tables.findings), Fresh(tables.coverage)), Collecting, false, None, None)
  }

  ghost predicate Run(states: seq<Sys>, actions: seq<Action>, tables: PerKind<Table>, limits: Limits) {
    && |states| == |actions| + 1 && states[0] == Start(tables)
    && forall i :: 0 <= i < |actions| ==>
        Enabled(states[i], actions[i], limits) && states[i + 1] == Next(states[i], actions[i], limits)
  }

  /** The records of a kind appended since the directory was last created. */
  function AppendedSince(actions: seq<Action>, k: Kind): seq<Record> {
    if actions == [] then []
    else
      var before := AppendedSince(actions[..|actions| - 1], k);
      match actions[|actions| - 1]
      case Append(j, r) => if j == k then before + [r] else before
      case Abandon(_) => []
      case _ => before
  }

  // ---------------------------------------------------------------- the invariant

  ghost predicate TracksOk(ts: PerKind<Track>, limits: Limits) {
    forall t :: ts.Has(t) ==> TrackOk(t, limits)
  }

  ghost predicate DeliveredOk(s: Sys) {
    s.delivered.Some? ==>
      var (k, f) := s.delivered.value;
      var t := s.tracks.Get(k);
      && s.phase == Finishing && t.planned.Some?
      && Listed(t.lane) != [] && f == Listed(t.lane)[0]
      && forall r :: r in f.rows ==> Stored(t.table, r)
  }

  predicate NothingSent(ts: PerKind<Track>) {
    ts.devices.planned.None? && ts.findings.planned.None? && ts.coverage.planned.None?
  }

  ghost predicate Inv(s: Sys, limits: Limits) {
    && limits.maxRows >= 1
    && (s.phase != Down ==> TracksOk(s.tracks, limits) && DeliveredOk(s))
    && (s.phase == Down && s.done ==> TracksOk(MapTracks(s.tracks, TReopen), limits))
    && (s.phase == Down ==> s.delivered.None? && s.outcome.None?)
    && (s.phase == Collecting ==> NothingSent(s.tracks))
    // a pipeline.done file implies that nothing is left unsealed
    && (s.done ==> NothingInMemory(s) && s.phase != Collecting)
    && (s.outcome == Some(true) ==> s.phase == Finishing && !HasPending(s))
  }

  lemma TrackSet(ts: PerKind<Track>, k: Kind, t: Track, limits: Limits)
    requires TracksOk(ts, limits)
    ensures TrackOk(ts.Get(k), limits)
    ensures TrackOk(t, limits) ==> TracksOk(ts.Set(k, t), limits)
  {
    assert ts.Has(ts.Get(k));
    forall u | ts.Set(k, t).Has(u) ensures u == t || ts.Has(u) {
    }
  }

  lemma AllTracks(ts: PerKind<Track>, limits: Limits)
    ensures TracksOk(ts, limits) <==> TrackOk(ts.devices, limits) && TrackOk(ts.findings, limits) && TrackOk(ts.coverage, limits)
  {
    assert ts.Has(ts.devices) && ts.Has(ts.findings) && ts.Has(ts.coverage);
  }

  lemma DeliveredKept(s: Sys, k: Kind, t: Track)
    requires DeliveredOk(s) && Extends(s.tracks.Get(k).table, t.table)
    requires s.delivered.Some? && s.delivered.value.0 == k ==> Listed(t.lane) == Listed(s.tracks.Get(k).lane) && t.planned.Some?
    ensures DeliveredOk(OnTrack(s, k, t))
  {
  }

  lemma StepTrack(s: Sys, a: Action, k: Kind, limits: Limits)
    requires Inv(s, limits) && Enabled(s, a, limits) && s.phase != Down
    requires a == Append(k, if a.Append? then a.r else Record([], 0, 0)) || a == Seal(k) || a == Skip(k)
    ensures Inv(Next(s, a, limits), limits)
  {
    var t := s.tracks.Get(k);
    TrackSet(s.tracks, k, t, limits);
    match a
    case Append(_, r) =>
      AppendOk(t, r, limits);
      TrackSet(s.tracks, k, TAppend(t, r), limits);
    case Seal(_) =>
      SealOk(t, limits);
      TrackSet(s.tracks, k, TSeal(t), limits);
    case Skip(_) =>
      SkipOk(t, limits);
      TrackSet(s.tracks, k, TSkip(t), limits);
  }

  lemma StepSend(s: Sys, k: Kind, n: nat, limits: Limits)
    requires Inv(s, limits) && Enabled(s, SendPart(k, n), limits)
    ensures Inv(Next(s, SendPart(k, n), limits), limits)
  {
    var t := s.tracks.Get(k);
    TrackSet(s.tracks, k, TSend(t, n), limits);
    SendOk(t, n, limits);
    StoreRowsGrows(t.table, FirstListed(t.lane)[..n]);
    DeliveredKept(s, k, TSend(t, n));
  }

  /** Delivering is sending the whole chunk, with the reply. */
  lemma StepDeliver(s: Sys, k: Kind, limits: Limits)
    requires Inv(s, limits) && Enabled(s, Deliver(k), limits)
    ensures Inv(Next(s, Deliver(k), limits), limits)
  {
    var t := s.tracks.Get(k);
    var rows := FirstListed(t.lane);
    StepSend(s, k, |rows|, limits);
    assert rows[..|rows|] == rows;
    StoreRowsGrows(t.table, rows);
  }

  lemma StepAck(s: Sys, k: Kind, limits: Limits)
    requires Inv(s, limits) && Enabled(s, Ack(k), limits)
    ensures Inv(Next(s, Ack(k), limits), limits)
  {
    var t, f := s.tracks.Get(k), s.delivered.value.1;
    TrackSet(s.tracks, k, t, limits);
    AckOk(t, f, limits);
    TrackSet(s.tracks, k, TAck(t, f), limits);
  }

  lemma StepCrash(s: Sys, limits: Limits)
    requires Inv(s, limits) && Enabled(s, Crash, limits)
    ensures Inv(Next(s, Crash, limits), limits)
  {
    if s.done {
      AllTracks(s.tracks, limits);
      ReopenOk(s.tracks.devices, limits);
      ReopenOk(s.tracks.findings, limits);
      ReopenOk(s.tracks.coverage, limits);
      AllTracks(MapTracks(s.tracks, TReopen), limits);
      assert MapTracks(MapTracks(s.tracks, TCrash), TReopen) == MapTracks(s.tracks, TReopen);
    }
  }

  lemma StepInv(s: Sys, a: Action, limits: Limits)
    requires Inv(s, limits) && Enabled(s, a, limits)
    ensures Inv(Next(s, a, limits), limits)
  {
    match a
    case Append(k, _) => StepTrack(s, a, k, limits);
    case Seal(k) => StepTrack(s, a, k, limits);
    case Skip(k) => StepTrack(s, a, k, limits);
    case SendPart(k, n) => StepSend(s, k, n, limits);
    case Deliver(k) => StepDeliver(s, k, limits);
    case Ack(k) => StepAck(s, k, limits);
    case Crash => StepCrash(s, limits);
    case Abandon(_) =>
      FreshOk(s.tracks.devices.table, limits);
      FreshOk(s.tracks.findings.table, limits);
      FreshOk(s.tracks.coverage.table, limits);
      AllTracks(MapTracks(s.tracks, TAbandon), limits);
    case _ =>
  }

  lemma StepAppended(s: Sys, a: Action, limits: Limits, k: Kind)
    requires Enabled(s, a, limits)
    ensures Next(s, a, limits).tracks.Get(k).appended ==
      match a
      case Append(j, r) => if j == k then s.tracks.Get(k).appended + [r] else s.tracks.Get(k).appended
      case Abandon(_) => []
      case _ => s.tracks.Get(k).appended
  {
  }

  /** Whatever the schedule, the invariant holds. */
  lemma {:induction false} RunInv(states: seq<Sys>, actions: seq<Action>, tables: PerKind<Table>, limits: Limits)
    requires limits.maxRows >= 1 && Run(states, actions, tables, limits)
    ensures Inv(states[|actions|], limits)
  {
    if actions == [] {
      FreshOk(tables.devices, limits);
      FreshOk(tables.findings, limits);
      FreshOk(tables.coverage, limits);
      AllTracks(Start(tables).tracks, limits);
    } else {
      var n := |actions| - 1;
      RunInv(states[..n + 1], actions[..n], tables, limits);
      StepInv(states[n], actions[n], limits);
    }
  }

  /** The appended records are those the actions tell. */
  lemma {:induction false} AppendedIsHistory(states: seq<Sys>, actions: seq<Action>, tables: PerKind<Table>, limits: Limits, k: Kind)
    requires Run(states, actions, tables, limits)
    ensures states[|actions|].tracks.Get(k).appended == AppendedSince(actions, k)
  {
    if actions != [] {
      var n := |actions| - 1;
      AppendedIsHistory(states[..n + 1], actions[..n], tables, limits, k);
      StepAppended(states[n], actions[n], limits, k);
    }
  }

  // ---------------------------------------------------------------- the tables a delivery starts from

  function BaseSince(states: seq<Sys>, actions: seq<Action>, tables: PerKind<Table>, k: Kind): Table
    requires |states| == |actions| + 1
    decreases |actions|
  {
    if actions == [] then tables.Get(k)
    else
      var n := |actions| - 1;
      if actions[n].Abandon? then states[n].tracks.Get(k).table else BaseSince(states[..n + 1], actions[..n], tables, k)
  }

  lemma StepBase(s: Sys, a: Action, limits: Limits, k: Kind)
    requires Enabled(s, a, limits)
    ensures Next(s, a, limits).tracks.Get(k).base == if a.Abandon? then s.tracks.Get(k).table else s.tracks.Get(k).base
  {
  }

  /** `base` is the server's table when the directory was last created. */
  lemma {:induction false} BaseIsHistory(states: seq<Sys>, actions: seq<Action>, tables: PerKind<Table>, limits: Limits, k: Kind)
    requires Run(states, actions, tables, limits)
    ensures states[|actions|].tracks.Get(k).base == BaseSince(states, actions, tables, k)
  {
    if actions != [] {
      var n := |actions| - 1;
      BaseIsHistory(states[..n + 1], actions[..n], tables, limits, k);
      StepBase(states[n], actions[n], limits, k);
    }
  }

  /** The records as they were listed when the first request of a kind was sent, since the directory was created. */
  function PlanSince(states: seq<Sys>, actions: seq<Action>, k: Kind): Option<seq<Record>>
    requires |states| == |actions| + 1
    decreases |actions|
  {
    if actions == [] then None
    else
      var n := |actions| - 1;
      var before := PlanSince(states[..n + 1], actions[..n], k);
      if actions[n].Abandon? then None
      else if (actions[n].SendPart? || actions[n].Deliver?) && actions[n].k == k && before.None? then
        Some(Rows(Listed(states[n].tracks.Get(k).lane)))
      else before
  }

  lemma StepPlan(s: Sys, a: Action, limits: Limits, k: Kind)
    requires Enabled(s, a, limits)
    ensures Next(s, a, limits).tracks.Get(k).planned ==
      if a.Abandon? then None
      else if (a.SendPart? || a.Deliver?) && a.k == k then Some(Planned(s.tracks.Get(k)))
      else s.tracks.Get(k).planned
  {
  }

  lemma {:induction false} PlanIsHistory(states: seq<Sys>, actions: seq<Action>, tables: PerKind<Table>, limits: Limits, k: Kind)
    requires Run(states, actions, tables, limits)
    ensures states[|actions|].tracks.Get(k).planned == PlanSince(states, actions, k)
  {
    if actions != [] {
      var n := |actions| - 1;
      PlanIsHistory(states[..n + 1], actions[..n], tables, limits, k);
      StepPlan(states[n], actions[n], limits, k);
    }
  }

  function PlanOf(plan: Option<seq<Record>>): seq<Record> {
    if plan.Some? then plan.value else []
  }

  /**
   A run reported complete has delivered every record appended since its directory was created, and
   the server's tables are exactly those of one crash-free delivery: the chunks as they were listed
   when sending began, each stored once.  The listing holds each appended record as often as it was
   appended, and up to six-digit file numbers it is in append order.
   */
  lemma CompletedMeansDelivered(states: seq<Sys>, actions: seq<Action>, tables: PerKind<Table>, limits: Limits, k: Kind)
    requires limits.maxRows >= 1 && Run(states, actions, tables, limits)
    requires states[|actions|].outcome == Some(true)
    ensures var t, plan := states[|actions|].tracks.Get(k), PlanOf(PlanSince(states, actions, k));
      && t.table == StoreRows(BaseSince(states, actions, tables, k), plan)
      && multiset(plan) == multiset(AppendedSince(actions, k))
      && (t.peak <= 999999 ==> plan == AppendedSince(actions, k))
      && (forall r :: r in AppendedSince(actions, k) ==> Stored(t.table, r))
  {
    RunInv(states, actions, tables, limits);
    AppendedIsHistory(states, actions, tables, limits, k);
    BaseIsHistory(states, actions, tables, limits, k);
    PlanIsHistory(states, actions, tables, limits, k);
    AllDelivered(states[|actions|], limits, k);
  }

  /**
   What the server then holds: a key is in the table exactly if it was there when the directory was
   created or an appended record names it; what was there is unchanged; and under any other key is
   the body of the first entry with that key in the order of sending.
   */
  lemma CompletedTables(states: seq<Sys>, actions: seq<Action>, tables: PerKind<Table>, limits: Limits, k: Kind)
    requires limits.maxRows >= 1 && Run(states, actions, tables, limits)
    requires states[|actions|].outcome == Some(true)
    ensures var table, base := states[|actions|].tracks.Get(k).table, BaseSince(states, actions, tables, k);
      var sent := Entries(PlanOf(PlanSince(states, actions, k)));
      && (forall key :: key in table <==> key in base || exists r :: r in AppendedSince(actions, k) && Names(r, key))
      && (forall key :: key in base ==> table[key] == base[key])
      && (forall i :: FirstUnderKey(sent, i) && sent[i].key !in base ==> sent[i].key in table && table[sent[i].key] == sent[i].body)
  {
    CompletedMeansDelivered(states, actions, tables, limits, k);
    var table, base := states[|actions|].tracks.Get(k).table, BaseSince(states, actions, tables, k);
    var plan, appended := PlanOf(PlanSince(states, actions, k)), AppendedSince(actions, k);
    FirstRowWins(base, plan);
    forall r ensures r in plan <==> r in appended {
      assert r in multiset(plan) <==> r in multiset(appended);
    }
    forall key ensures key in table <==> key in base || exists r :: r in appended && Names(r, key) {
      NamedByRecords(plan, key);
    }
    forall i | FirstUnderKey(Entries(plan), i) ensures Entries(plan)[i].key in table {
      assert Entries(plan)[i] in Entries(plan) && NamedBy(Entries(plan), Entries(plan)[i].key);
    }
  }

  lemma AllDelivered(s: Sys, limits: Limits, k: Kind)
    requires Inv(s, limits) && s.outcome == Some(true)
    ensures var t, plan := s.tracks.Get(k), PlanOf(s.tracks.Get(k).planned);
      && t.table == StoreRows(t.base, plan) && multiset(plan) == multiset(t.appended)
      && (t.peak <= 999999 ==> plan == t.appended)
      && (forall r :: r in t.appended ==> Stored(t.table, r))
  {
    var t := s.tracks.Get(k);
    var plan := PlanOf(t.planned);
    TrackSet(s.tracks, k, t, limits);
    FinishedOk(t, limits);
    StoreRowsGrows(t.base, plan);
    forall r | r in t.appended ensures r in plan {
      assert r in multiset(plan);
    }
  }

  // ---------------------------------------------------------------- crashes

  /** A crash leaves the sealed files and nothing that was in memory; what was sent stays sent. */
  lemma CrashIs(s: Sys, limits: Limits, k: Kind)
    requires Enabled(s, Crash, limits)
    ensures var t, t' := s.tracks.Get(k), Next(s, Crash, limits).tracks.Get(k);
      && t'.lane.files == t.lane.files && t'.lane.open == [] && t'.lane.sizes == [] && t'.table == t.table
      && Next(s, Crash, limits).phase == Down && Next(s, Crash, limits).done == s.done
  {
  }

  /** A worker that comes back resumes a finished pipeline from its files, and otherwise deletes the directory and starts anew, or fails. */
  lemma ComingBackIs(s: Sys, limits: Limits, k: Kind, again: bool)
    requires s.phase == Down && s.outcome.None?
    ensures s.done ==> !Enabled(s, Abandon(again), limits) && Enabled(s, Resume, limits)
    ensures s.done ==>
      var s' := Next(s, Resume, limits);
      s'.phase == Finishing && s'.tracks.Get(k).lane == Lane(s.tracks.Get(k).lane.files, [], [], Highest(s.tracks.Get(k).lane.files))
    ensures !s.done ==> !Enabled(s, Resume, limits) && Enabled(s, Abandon(again), limits)
    ensures !s.done ==>
      var s' := Next(s, Abandon(again), limits);
      && s'.phase == Collecting && s'.tracks.Get(k).lane == Lane([], [], [], 0) && s'.tracks.Get(k).table == s.tracks.Get(k).table
      && s'.outcome == if again then None else Some(false)
  {
  }

  /** The pipeline's end, well or badly, is the end of appending; only a good one leaves pipeline.done, with nothing unsealed. */
  lemma PipelineEnds(s: Sys, limits: Limits)
    ensures Enabled(s, MarkDone, limits) ==>
      NothingInMemory(s) && Next(s, MarkDone, limits).done && Next(s, MarkDone, limits).phase == Finishing
    ensures Enabled(s, GiveUp, limits) ==> Next(s, GiveUp, limits) == s.(phase := Finishing)
  {
  }

  /** Once pipeline.done has appeared, no schedule takes it away, appends anything, or deletes the directory. */
  lemma {:induction false} DoneIsFinal(s: Sys, actions: seq<Action>, s': Sys, limits: Limits, k: Kind)
    requires Inv(s, limits) && s.done && Leads(s, actions, s', limits)
    ensures s'.done && s'.tracks.Get(k).appended == s.tracks.Get(k).appended && s'.tracks.Get(k).base == s.tracks.Get(k).base
    ensures forall a :: a in actions ==> !a.Append? && !a.Abandon? && !a.MarkDone?
    decreases |actions|
  {
    if actions != [] {
      var a := actions[0];
      assert actions == [a] + actions[1..];
      StepInv(s, a, limits);
      StepAppended(s, a, limits, k);
      StepBase(s, a, limits, k);
      DoneIsFinal(Next(s, a, limits), actions[1..], s', limits, k);
    }
  }

  // ---------------------------------------------------------------- no schedule gets stuck

  ghost predicate Leads(s: Sys, actions: seq<Action>, s': Sys, limits: Limits)
    decreases |actions|
  {
    if actions == [] then s == s'
    else Enabled(s, actions[0], limits) && Leads(Next(s, actions[0], limits), actions[1..], s', limits)
  }

  ghost predicate CanComplete(s: Sys, limits: Limits) {
    exists actions, s' :: Leads(s, actions, s', limits) && s'.outcome == Some(true)
  }

  lemma OneMore(s: Sys, a: Action, limits: Limits)
    requires Enabled(s, a, limits) && CanComplete(Next(s, a, limits), limits)
    ensures CanComplete(s, limits)
  {
    var actions, s' :| Leads(Next(s, a, limits), actions, s', limits) && s'.outcome == Some(true);
    assert ([a] + actions)[1..] == actions;
    assert Leads(s, [a] + actions, s', limits);
  }

  lemma Done(s: Sys, limits: Limits)
    requires s.outcome == Some(true)
    ensures CanComplete(s, limits)
  {
    assert Leads(s, [], s, limits);
  }

  lemma {:induction false} WithoutShorter(files: seq<Chunk>, f: Chunk)
    ensures |Without(files, f)| <= |files| && (f in files ==> |Without(files, f)| < |files|)
  {
    if files != [] {
      WithoutShorter(files[1..], f);
      assert files == [files[0]] + files[1..];
    }
  }

  lemma ListedSome(files: seq<Chunk>)
    requires files != []
    ensures ReadyChunks(files) != [] && ReadyChunks(files)[0] in files
  {
    ListingMember(files, files[0]);
    ListingMember(files, ReadyChunks(files)[0]);
  }

  function ChunksLeft(s: Sys): nat {
    |s.tracks.devices.lane.files| + |s.tracks.findings.lane.files| + |s.tracks.coverage.lane.files|
  }

  /** A kind with a chunk left: deliver its first listed one and delete it. */
  lemma SendFirst(s: Sys, k: Kind, limits: Limits)
    requires s.outcome.None? && s.phase == Finishing && NothingInMemory(s) && s.tracks.Get(k).lane.files != []
    ensures Enabled(s, Deliver(k), limits) && Enabled(Next(s, Deliver(k), limits), Ack(k), limits)
    ensures var s' := Next(Next(s, Deliver(k), limits), Ack(k), limits);
      && s'.outcome.None? && s'.phase == Finishing && NothingInMemory(s') && s'.delivered.None? && ChunksLeft(s') < ChunksLeft(s)
  {
    var files := s.tracks.Get(k).lane.files;
    ListedSome(files);
    WithoutShorter(files, ReadyChunks(files)[0]);
  }

  lemma {:induction false} EmptyOut(s: Sys, limits: Limits)
    requires s.outcome.None? && s.phase == Finishing && NothingInMemory(s) && s.delivered.None?
    ensures CanComplete(s, limits)
    decreases ChunksLeft(s)
  {
    if HasPending(s) {
      var k := if s.tracks.devices.lane.files != [] then Devices else if s.tracks.findings.lane.files != [] then Findings else Coverage;
      SendFirst(s, k, limits);
      EmptyOut(Next(Next(s, Deliver(k), limits), Ack(k), limits), limits);
      OneMore(Next(s, Deliver(k), limits), Ack(k), limits);
      OneMore(s, Deliver(k), limits);
    } else {
      Done(Next(s, Complete(true), limits), limits);
      OneMore(s, Complete(true), limits);
    }
  }

  function OpenKinds(s: Sys): nat {
    (if s.tracks.devices.lane.open != [] then 1 else 0) + (if s.tracks.findings.lane.open != [] then 1 else 0)
    + if s.tracks.coverage.lane.open != [] then 1 else 0
  }

  lemma {:induction false} SealOut(s: Sys, limits: Limits)
    requires s.outcome.None? && s.phase != Down && s.delivered.None?
    ensures CanComplete(s, limits)
    decreases OpenKinds(s)
  {
    if !NothingInMemory(s) {
      var k := if s.tracks.devices.lane.open != [] then Devices else if s.tracks.findings.lane.open != [] then Findings else Coverage;
      SealOut(Next(s, Seal(k), limits), limits);
      OneMore(s, Seal(k), limits);
    } else if s.phase == Collecting {
      EmptyOut(Next(s, MarkDone, limits), limits);
      OneMore(s, MarkDone, limits);
    } else {
      EmptyOut(s, limits);
    }
  }

  /** From any point of any schedule that has not ended, a worker that is left undisturbed can still complete with success. */
  lemma NeverStuck(states: seq<Sys>, actions: seq<Action>, tables: PerKind<Table>, limits: Limits)
    requires limits.maxRows >= 1 && Run(states, actions, tables, limits) && states[|actions|].outcome.None?
    ensures CanComplete(states[|actions|], limits)
  {
    RunInv(states, actions, tables, limits);
    var s := states[|actions|];
    if s.phase == Down {
      var a := if s.done then Resume else Abandon(true);
      SealOut(Next(s, a, limits), limits);
      OneMore(s, a, limits);
    } else if s.delivered.Some? {
      var k := s.delivered.value.0;
      SealOut(Next(s, Ack(k), limits), limits);
      OneMore(s, Ack(k), limits);
    } else {
      SealOut(s, limits);
    }
  }
}
