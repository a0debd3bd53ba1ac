/**
 Claiming scan jobs.  Each process works in its own transaction: it locks its agent's row, reads the
 committed jobs, updates one job row, and commits or rolls back, with other processes' steps between
 any two of its own.
 */
module Dispatch {
  import opened Options

  type AgentId = nat
  type JobId = nat
  type Proc = nat

  datatype Status = Queued | Waiting | Running | Done | Failed | Cancelled | Missed

  datatype Owner = Central | ByAgent(id: AgentId)

  datatype Job = Job(status: Status, owner: Option<Owner>)

  /** Where a process is in its transaction; a claim not yet committed is invisible to the others. */
  datatype Phase = Idle | Locked(agent: AgentId) | Checked(agent: AgentId) | Claimed(owner: Owner, job: JobId)

  datatype Claim = Claim(job: JobId, owner: Owner)

  // `claims` records every claim ever committed.
  datatype System = System(jobs: map<JobId, Job>, procs: map<Proc, Phase>, claims: seq<Claim>)

  /** What the other writers of a job row do: they may act on a row they read long before. */
  datatype Write = Fail(clear: bool) | Cancel(clear: bool) | Miss | Complete

  predicate Terminal(s: Status) {
    s in {Done, Failed, Cancelled, Missed}
  }

  /** transition_job_to_failed, transition_job_to_cancelled, mark_job_missed, complete_scan_run */
  predicate Applies(w: Write, seen: Job) {
    match w
    case Fail(_) => seen.status !in {Failed, Cancelled}
    case Cancel(_) => !Terminal(seen.status)
    case Miss => true
    case Complete => seen.status == Running
  }

  function Written(w: Write, job: Job): Job {
    match w
    case Fail(clear) => Job(Failed, if clear then None else job.owner)
    case Cancel(clear) => Job(Cancelled, if clear then None else job.owner)
    case Miss => job.(status := Missed)
    case Complete => job.(status := Done)
  }

  datatype Action =
    | Create(newJob: JobId, waiting: bool)
    | LockAgent(proc: Proc, agent: AgentId)
    | CheckIdle(proc: Proc)
    | ClaimJob(proc: Proc, job: JobId)
    | ClaimCentral(proc: Proc, job: JobId)
    | Commit(proc: Proc)
    | FailClaimed(proc: Proc)
    | Rollback(proc: Proc)
    | Other(job: JobId, seen: Job, write: Write)

  function PhaseOf(s: System, p: Proc): Phase {
    if p in s.procs then s.procs[p] else Idle
  }

  predicate HoldsAgent(phase: Phase, a: AgentId) {
    match phase
    case Idle => false
    case Locked(b) => a == b
    case Checked(b) => a == b
    case Claimed(owner, _) => owner == ByAgent(a)
  }

  predicate HoldsJob(phase: Phase, j: JobId) {
    phase.Claimed? && phase.job == j
  }

  ghost predicate AgentFree(s: System, a: AgentId) {
    forall p :: !HoldsAgent(PhaseOf(s, p), a)
  }

  ghost predicate JobFree(s: System, j: JobId) {
    forall p :: !HoldsJob(PhaseOf(s, p), j)
  }

  predicate RunsFor(job: Job, a: AgentId) {
    job.status == Running && job.owner == Some(ByAgent(a))
  }

  /** agent_has_running_job, on committed rows */
  ghost predicate Busy(s: System, a: AgentId) {
    exists j :: j in s.jobs && RunsFor(s.jobs[j], a)
  }

  predicate ClaimableBy(job: Job, owner: Owner) {
    job.owner == None && (job.status == Queued || (owner.ByAgent? && job.status == Waiting))
  }

  ghost predicate Enabled(s: System, a: Action) {
    match a
    case Create(j, _) => j !in s.jobs
    case LockAgent(p, agent) => PhaseOf(s, p).Idle? && AgentFree(s, agent)
    case CheckIdle(p) => PhaseOf(s, p).Locked?
    case ClaimJob(p, j) => PhaseOf(s, p).Checked? && j in s.jobs && JobFree(s, j)
    case ClaimCentral(p, j) => PhaseOf(s, p).Idle? && j in s.jobs && JobFree(s, j)
    case Commit(p) => PhaseOf(s, p).Claimed?
    case FailClaimed(p) => PhaseOf(s, p).Claimed?
    case Rollback(p) => true
    case Other(j, _, _) => j in s.jobs && JobFree(s, j)
  }

  function Move(s: System, p: Proc, phase: Phase): System {
    s.(procs := s.procs[p := phase])
  }

  /** The claim becomes visible with the status the process leaves the job in. */
  function Publish(s: System, p: Proc, status: Status): System
    requires PhaseOf(s, p).Claimed?
  {
    var phase := PhaseOf(s, p);
    Move(s, p, Idle).(jobs := s.jobs[phase.job := Job(status, Some(phase.owner))],
                      claims := s.claims + [Claim(phase.job, phase.owner)])
  }

  ghost function Next(s: System, a: Action): System
    requires Enabled(s, a)
  {
    match a
    case Create(j, waiting) => s.(jobs := s.jobs[j := Job(if waiting then Waiting else Queued, None)])
    case LockAgent(p, agent) => Move(s, p, Locked(agent))
    case CheckIdle(p) =>
      var agent := PhaseOf(s, p).agent;
      Move(s, p, if Busy(s, agent) then Idle else Checked(agent))
    case ClaimJob(p, j) =>
      var owner := ByAgent(PhaseOf(s, p).agent);
      Move(s, p, if ClaimableBy(s.jobs[j], owner) then Claimed(owner, j) else Idle)
    case ClaimCentral(p, j) =>
      Move(s, p, if ClaimableBy(s.jobs[j], Central) then Claimed(Central, j) else Idle)
    case Commit(p) => Publish(s, p, Running)
    case FailClaimed(p) => Publish(s, p, Failed)
    case Rollback(p) => Move(s, p, Idle)
    case Other(j, seen, w) =>
      if Applies(w, seen) then s.(jobs := s.jobs[j := Written(w, s.jobs[j])]) else s
  }

  function Initial(): System { System(map[], map[], []) }

  ghost predicate Run(s: System, actions: seq<Action>, s': System)
    decreases |actions|
  {
    if actions == [] then s == s'
    else Enabled(s, actions[0]) && Run(Next(s, actions[0]), actions[1..], s')
  }

  // ---------------------------------------------------------------- the invariant

  /** A process past the check holds its agent, which then runs nothing that is committed. */
  ghost predicate PhaseOk(s: System, phase: Phase) {
    match phase
    case Idle => true
    case Locked(_) => true
    case Checked(a) => !Busy(s, a)
    case Claimed(owner, j) =>
      && j in s.jobs && ClaimableBy(s.jobs[j], owner)
      && (owner.ByAgent? ==> !Busy(s, owner.id))
  }

  ghost predicate Exclusive(s: System) {
    && (forall p, q, a :: HoldsAgent(PhaseOf(s, p), a) && HoldsAgent(PhaseOf(s, q), a) ==> p == q)
    && (forall p, q, j :: HoldsJob(PhaseOf(s, p), j) && HoldsJob(PhaseOf(s, q), j) ==> p == q)
  }

  /** An agent owns at most one running job. */
  ghost predicate OneEach(s: System) {
    forall i, j, a :: i in s.jobs && j in s.jobs && RunsFor(s.jobs[i], a) && RunsFor(s.jobs[j], a) ==> i == j
  }

  /** How often a job was claimed in its life. */
  function TimesClaimed(claims: seq<Claim>, j: JobId): nat {
    if claims == [] then 0
    else TimesClaimed(claims[..|claims| - 1], j) + (if claims[|claims| - 1].job == j then 1 else 0)
  }

  ghost predicate JobOk(s: System, j: JobId) {
    && TimesClaimed(s.claims, j) <= 1
    && (j !in s.jobs ==> TimesClaimed(s.claims, j) == 0)
    && (j in s.jobs && s.jobs[j].status in {Queued, Waiting} ==> TimesClaimed(s.claims, j) == 0)
    && (j in s.jobs && s.jobs[j].status == Running ==>
          s.jobs[j].owner.Some? && Claim(j, s.jobs[j].owner.value) in s.claims)
  }

  ghost predicate Inv(s: System) {
    && Exclusive(s) && OneEach(s)
    && (forall p :: PhaseOk(s, PhaseOf(s, p)))
    && (forall j :: JobOk(s, j))
  }

  /** Committed rows unchanged, a process moved on. */
  lemma MoveInv(s: System, p: Proc, phase: Phase)
    requires Inv(s) && PhaseOk(s, phase)
    requires forall a :: HoldsAgent(phase, a) ==> forall q :: HoldsAgent(PhaseOf(s, q), a) ==> q == p
    requires forall j :: HoldsJob(phase, j) ==> forall q :: HoldsJob(PhaseOf(s, q), j) ==> q == p
    ensures Inv(Move(s, p, phase))
  {
    var s' := Move(s, p, phase);
    forall q ensures PhaseOf(s', q) == if q == p then phase else PhaseOf(s, q) {
    }
    forall a ensures Busy(s', a) <==> Busy(s, a) {
    }
    forall q ensures PhaseOk(s', PhaseOf(s', q)) {
      assert PhaseOk(s, PhaseOf(s, q));
    }
    forall j ensures JobOk(s', j) {
      assert JobOk(s, j);
    }
  }

  lemma PublishInv(s: System, p: Proc, status: Status)
    requires Inv(s) && PhaseOf(s, p).Claimed? && status in {Running, Failed}
    ensures Inv(Publish(s, p, status))
  {
    var s' := Publish(s, p, status);
    var owner, job := PhaseOf(s, p).owner, PhaseOf(s, p).job;
    assert PhaseOk(s, PhaseOf(s, p)) && HoldsJob(PhaseOf(s, p), job);
    forall q ensures PhaseOf(s', q) == if q == p then Idle else PhaseOf(s, q) {
    }
    forall q ensures PhaseOk(s', PhaseOf(s', q)) {
      if q != p {
        assert PhaseOk(s, PhaseOf(s, q));
        OthersUndisturbed(s, p, q, status);
      }
    }
    forall j ensures JobOk(s', j) {
      assert JobOk(s, j);
      assert s'.claims[..|s'.claims| - 1] == s.claims;
      assert s'.claims[|s'.claims| - 1] == Claim(job, owner);
    }
    OneEachPublished(s, p, status);
  }

  lemma OneEachPublished(s: System, p: Proc, status: Status)
    requires Inv(s) && PhaseOf(s, p).Claimed? && status in {Running, Failed}
    ensures OneEach(Publish(s, p, status))
  {
    var s' := Publish(s, p, status);
    var owner, job := PhaseOf(s, p).owner, PhaseOf(s, p).job;
    assert PhaseOk(s, PhaseOf(s, p));
    forall i, j, a | i in s'.jobs && j in s'.jobs && RunsFor(s'.jobs[i], a) && RunsFor(s'.jobs[j], a) ensures i == j {
      assert owner == ByAgent(a) ==> !Busy(s, a);
    }
  }

  /** Publishing one claim leaves every other open transaction's view true: it has another agent and another job. */
  lemma OthersUndisturbed(s: System, p: Proc, q: Proc, status: Status)
    requires Inv(s) && PhaseOf(s, p).Claimed? && q != p && PhaseOk(s, PhaseOf(s, q))
    ensures PhaseOk(Publish(s, p, status), PhaseOf(s, q))
  {
    var s' := Publish(s, p, status);
    var owner, job := PhaseOf(s, p).owner, PhaseOf(s, p).job;
    assert HoldsJob(PhaseOf(s, p), job);
    forall a | HoldsAgent(PhaseOf(s, q), a) && Busy(s', a) ensures Busy(s, a) {
      var j :| j in s'.jobs && RunsFor(s'.jobs[j], a);
      assert HoldsAgent(PhaseOf(s, q), a);
      assert HoldsAgent(PhaseOf(s, p), a) <==> owner == ByAgent(a);
      assert j != job && RunsFor(s.jobs[j], a);
    }
    match PhaseOf(s, q) {
      case Checked(a) => assert HoldsAgent(PhaseOf(s, q), a);
      case Claimed(o, j) =>
        assert HoldsJob(PhaseOf(s, q), j);
        if o.ByAgent? {
          assert HoldsAgent(PhaseOf(s, q), o.id);
        }
      case _ =>
    }
  }

  /** A job row nobody holds, written so that it becomes neither running nor claimable. */
  lemma RowInv(s: System, j: JobId, row: Job)
    requires Inv(s) && JobFree(s, j) && row.status != Running
    requires row.status in {Queued, Waiting} ==> j !in s.jobs
    ensures Inv(s.(jobs := s.jobs[j := row]))
  {
    var s' := s.(jobs := s.jobs[j := row]);
    forall a ensures Busy(s', a) ==> Busy(s, a) {
      if Busy(s', a) {
        var i :| i in s'.jobs && RunsFor(s'.jobs[i], a);
        assert i != j && RunsFor(s.jobs[i], a);
      }
    }
    forall q ensures PhaseOf(s', q) == PhaseOf(s, q) && PhaseOk(s', PhaseOf(s', q)) {
      assert PhaseOk(s, PhaseOf(s, q)) && !HoldsJob(PhaseOf(s, q), j);
    }
    forall i ensures JobOk(s', i) {
      assert JobOk(s, i);
    }
    forall i, k, a | i in s'.jobs && k in s'.jobs && RunsFor(s'.jobs[i], a) && RunsFor(s'.jobs[k], a) ensures i == k {
      assert i != j && k != j;
    }
  }

  lemma StepInv(s: System, a: Action)
    requires Inv(s) && Enabled(s, a)
    ensures Inv(Next(s, a))
  {
    match a
    case Create(j, waiting) =>
      forall p ensures !HoldsJob(PhaseOf(s, p), j) {
        assert PhaseOk(s, PhaseOf(s, p));
      }
      RowInv(s, j, Job(if waiting then Waiting else Queued, None));
    case LockAgent(p, agent) => MoveInv(s, p, Locked(agent));
    case CheckIdle(p) =>
      var agent := PhaseOf(s, p).agent;
      assert HoldsAgent(PhaseOf(s, p), agent);
      MoveInv(s, p, if Busy(s, agent) then Idle else Checked(agent));
    case ClaimJob(p, j) =>
      var agent := PhaseOf(s, p).agent;
      assert HoldsAgent(PhaseOf(s, p), agent) && PhaseOk(s, PhaseOf(s, p));
      MoveInv(s, p, if ClaimableBy(s.jobs[j], ByAgent(agent)) then Claimed(ByAgent(agent), j) else Idle);
    case ClaimCentral(p, j) =>
      MoveInv(s, p, if ClaimableBy(s.jobs[j], Central) then Claimed(Central, j) else Idle);
    case Commit(p) => PublishInv(s, p, Running);
    case FailClaimed(p) => PublishInv(s, p, Failed);
    case Rollback(p) => MoveInv(s, p, Idle);
    case Other(j, seen, w) =>
      if Applies(w, seen) {
        RowInv(s, j, Written(w, s.jobs[j]));
      }
  }

  lemma {:induction false} RunInv(s: System, actions: seq<Action>, s': System)
    requires Inv(s) && Run(s, actions, s')
    ensures Inv(s')
    decreases |actions|
  {
    if actions != [] {
      StepInv(s, actions[0]);
      RunInv(Next(s, actions[0]), actions[1..], s');
    }
  }

  /**
   Whatever the interleaving: an agent owns at most one running job, no job is claimed twice in its
   life, and a running job belongs to whoever claimed it.
   */
  lemma ClaimsAreExclusive(actions: seq<Action>, s: System)
    requires Run(Initial(), actions, s)
    ensures forall i, j, a :: i in s.jobs && j in s.jobs && RunsFor(s.jobs[i], a) && RunsFor(s.jobs[j], a) ==> i == j
    ensures forall i, j :: 0 <= i < j < |s.claims| ==> s.claims[i].job != s.claims[j].job
    ensures forall j :: j in s.jobs && s.jobs[j].status == Running ==>
      s.jobs[j].owner.Some? && Claim(j, s.jobs[j].owner.value) in s.claims
  {
    assert Inv(Initial());
    RunInv(Initial(), actions, s);
    forall i, j | 0 <= i < j < |s.claims| ensures s.claims[i].job != s.claims[j].job {
      assert JobOk(s, s.claims[i].job);
      ClaimedOnce(s.claims, i);
    }
    forall j
      ensures j in s.jobs && s.jobs[j].status == Running ==>
        s.jobs[j].owner.Some? && Claim(j, s.jobs[j].owner.value) in s.claims
    {
      assert JobOk(s, j);
    }
  }

  /** A claim is only ever committed on a job that nobody owns and that is queued, or waiting for an agent; it then runs for its claimer. */
  lemma CommitTakesWaiting(s: System, p: Proc)
    requires Inv(s) && PhaseOf(s, p).Claimed?
    ensures var phase := PhaseOf(s, p);
      && phase.job in s.jobs && s.jobs[phase.job].owner == None
      && (s.jobs[phase.job].status == Queued || (s.jobs[phase.job].status == Waiting && phase.owner != Central))
      && Next(s, Commit(p)).jobs == s.jobs[phase.job := Job(Running, Some(phase.owner))]
  {
    assert PhaseOk(s, PhaseOf(s, p));
  }

  /** The job runs for the agent, and nothing else about the jobs has changed. */
  predicate Gains(s: System, s': System, a: AgentId, j: JobId) {
    s'.jobs == s.jobs[j := Job(Running, Some(ByAgent(a)))] && s'.claims == s.claims + [Claim(j, ByAgent(a))]
  }

  /** Whenever an agent that nobody has locked runs nothing, and a job is queued or waiting and unlocked, the agent's claim goes through. */
  lemma ClaimSucceeds(s: System, p: Proc, a: AgentId, j: JobId)
    requires PhaseOf(s, p) == Idle && AgentFree(s, a) && JobFree(s, j)
    requires forall i :: i in s.jobs ==> s.jobs[i] != Job(Running, Some(ByAgent(a)))
    requires j in s.jobs && s.jobs[j].owner == None && (s.jobs[j].status == Queued || s.jobs[j].status == Waiting)
    ensures exists s' :: Run(s, [LockAgent(p, a), CheckIdle(p), ClaimJob(p, j), Commit(p)], s') && Gains(s, s', a, j)
  {
    var s1 := Next(s, LockAgent(p, a));
    assert !Busy(s1, a);
    var s2 := Next(s1, CheckIdle(p));
    forall q ensures !HoldsJob(PhaseOf(s2, q), j) {
      assert !HoldsJob(PhaseOf(s, q), j);
    }
    var s3 := Next(s2, ClaimJob(p, j));
    var s4 := Next(s3, Commit(p));
    var actions := [LockAgent(p, a), CheckIdle(p), ClaimJob(p, j), Commit(p)];
    assert actions[1..] == [CheckIdle(p), ClaimJob(p, j), Commit(p)];
    assert actions[1..][1..] == [ClaimJob(p, j), Commit(p)];
    assert actions[1..][1..][1..] == [Commit(p)];
    assert Run(s4, [], s4) && Run(s3, [Commit(p)], s4);
    assert Run(s2, [ClaimJob(p, j), Commit(p)], s4);
    assert Run(s1, actions[1..], s4);
    assert Run(s, actions, s4);
  }

  /** The central worker takes a queued job that nobody owns, and never one that waits for an agent. */
  lemma CentralClaims(s: System, p: Proc, j: JobId)
    requires PhaseOf(s, p) == Idle && JobFree(s, j) && j in s.jobs
    ensures Enabled(s, ClaimCentral(p, j))
    ensures PhaseOf(Next(s, ClaimCentral(p, j)), p) ==
      if s.jobs[j].owner == None && s.jobs[j].status == Queued then Claimed(Central, j) else Idle
  {
  }

  /** What each other writer leaves of a job's row, and on which rows it acts. */
  lemma WritersAre(s: System, j: JobId, seen: Job, w: Write)
    requires Enabled(s, Other(j, seen, w))
    ensures var job, job' := s.jobs[j], Next(s, Other(j, seen, w)).jobs[j];
      && Next(s, Other(j, seen, w)) == s.(jobs := s.jobs[j := job'])
      && match w
         case Fail(clear) =>
           job' == if seen.status == Failed || seen.status == Cancelled then job else Job(Failed, if clear then None else job.owner)
         case Cancel(clear) =>
           job' == if seen.status == Queued || seen.status == Waiting || seen.status == Running
                   then Job(Cancelled, if clear then None else job.owner) else job
         case Miss => job' == Job(Missed, job.owner)
         case Complete => job' == if seen.status == Running then Job(Done, job.owner) else job
  {
  }

  /** A new job is queued, or waits for an agent, and belongs to nobody. */
  lemma CreateIs(s: System, j: JobId, waiting: bool)
    requires Enabled(s, Create(j, waiting))
    ensures j !in s.jobs && Next(s, Create(j, waiting)) == s.(jobs := s.jobs[j := Job(if waiting then Waiting else Queued, None)])
  {
  }

  lemma {:induction false} ClaimedOnce(claims: seq<Claim>, i: int)
    requires 0 <= i < |claims|
    ensures TimesClaimed(claims, claims[i].job) >= 1
    ensures forall j :: i < j < |claims| && claims[j].job == claims[i].job ==> TimesClaimed(claims, claims[i].job) >= 2
  {
    var front := claims[..|claims| - 1];
    if i < |front| {
      ClaimedOnce(front, i);
      forall j | i < j < |claims| && claims[j].job == claims[i].job ensures TimesClaimed(claims, claims[i].job) >= 2 {
        assert j < |front| ==> front[j] == claims[j];
      }
    }
  }

  /** A job that has ended stays ended and is never claimed again, even by writers with an old view of it. */
  lemma {:induction false} EndedStaysEnded(s: System, actions: seq<Action>, s': System, j: JobId)
    requires Inv(s) && Run(s, actions, s') && j in s.jobs && Terminal(s.jobs[j].status)
    ensures j in s'.jobs && Terminal(s'.jobs[j].status)
    ensures s.claims <= s'.claims && forall k :: |s.claims| <= k < |s'.claims| ==> s'.claims[k].job != j
    decreases |actions|
  {
    if actions != [] {
      var a := actions[0];
      StepInv(s, a);
      if a.Commit? || a.FailClaimed? {
        assert PhaseOk(s, PhaseOf(s, a.proc));
        assert Next(s, a).claims[..|s.claims|] == s.claims;
      }
      EndedStaysEnded(Next(s, a), actions[1..], s', j);
    }
  }

  // ---------------------------------------------------------------- a job row in place

  class JobRow {
    var status: Status
    var owner: Option<Owner>
    var error: string
    var finishedAt: Option<int>
    var cancelRequestedAt: Option<int>

    function Row(): Job
      reads this
    {
      Job(status, owner)
    }

    /** The UPDATE of atomic_claim_job and atomic_claim_central_job. */
    method TryClaim(claimant: Owner) returns (ok: bool)
      modifies this`status, this`owner
      ensures ok == ClaimableBy(old(Row()), claimant)
      ensures ok <==> old(owner).None? && (old(status) == Queued || (old(status) == Waiting && claimant != Central))
      ensures Row() == if ok then Job(Running, Some(claimant)) else old(Row())
    {
      ok := owner.None? && (status == Queued || (status == Waiting && claimant.ByAgent?));
      if ok {
        status, owner := Running, Some(claimant);
      }
    }

    /** transition_job_to_failed */
    method TransitionToFailed(detail: string, clear: bool, now: int) returns (changed: bool)
      modifies this
      ensures changed == Applies(Fail(clear), old(Row())) && cancelRequestedAt == old(cancelRequestedAt)
      ensures changed <==> old(status) != Failed && old(status) != Cancelled
      ensures changed ==> status == Failed && owner == if clear then None else old(owner)
      ensures Row() == if changed then Written(Fail(clear), old(Row())) else old(Row())
      ensures finishedAt == if changed then Some(now) else old(finishedAt)
      ensures error == if changed || (old(status) == Cancelled && detail != "" && old(error) == "") then detail else old(error)
    {
      if status == Failed {
        return false;
      }
      if status == Cancelled {
        if detail != "" && error == "" {
          error := detail;
        }
        return false;
      }
      status, error, finishedAt := Failed, detail, Some(now);
      if clear {
        owner := None;
      }
      return true;
    }

    /** transition_job_to_cancelled */
    method TransitionToCancelled(detail: string, clear: bool, now: int) returns (changed: bool)
      modifies this
      ensures changed == Applies(Cancel(clear), old(Row()))
      ensures changed <==> old(status) == Queued || old(status) == Waiting || old(status) == Running
      ensures changed ==> status == Cancelled && owner == if clear then None else old(owner)
      ensures Row() == if changed then Written(Cancel(clear), old(Row())) else old(Row())
      ensures finishedAt == if changed then Some(now) else old(finishedAt)
      ensures cancelRequestedAt == if changed && old(cancelRequestedAt).None? then Some(now) else old(cancelRequestedAt)
      ensures error == if changed || (old(status) == Cancelled && detail != "" && old(error) == "") then detail else old(error)
    {
      if status in {Failed, Cancelled, Done, Missed} {
        if status == Cancelled && detail != "" && error == "" {
          error := detail;
        }
        return false;
      }
      status, error, finishedAt := Cancelled, detail, Some(now);
      if cancelRequestedAt.None? {
        cancelRequestedAt := finishedAt;
      }
      if clear {
        owner := None;
      }
      return true;
    }
  }

  // ---------------------------------------------------------------- who may claim

  datatype Agent = Agent(approved: bool, heartbeat: Option<int>)

  const HealthSeconds := 90
  const DefaultGrace := 60

  /** is_agent_healthy, times in seconds */
  predicate Healthy(a: Agent, now: int) {
    a.approved && a.heartbeat.Some? && a.heartbeat.value >= now - HealthSeconds
  }

  datatype Network = Network(failover: bool, preferred: Option<AgentId>)

  datatype Policy = AnyAvailable | PreferredFailover(preferred: AgentId)

  datatype PolicyResult = Policy(policy: Policy) | NoneNamed | Disagree | NotEligible

  function PreferredIds(networks: seq<Network>): set<Option<AgentId>> {
    set n | n in networks && n.failover :: n.preferred
  }

  /** resolve_dispatch_policy */
  function ResolvePolicy(networks: seq<Network>, eligible: set<AgentId>): PolicyResult {
    var ids := PreferredIds(networks);
    if ids == {} then Policy(AnyAvailable)
    else if None in ids then NoneNamed
    else
      var first :| first in networks && first.failover;
      if exists n :: n in networks && n.failover && n.preferred != first.preferred then Disagree
      else if first.preferred.value !in eligible then NotEligible
      else Policy(PreferredFailover(first.preferred.value))
  }

  // The dispatch part of a job's immutable snapshot.
  datatype Snapshot = Snapshot(eligible: set<AgentId>, policy: Policy, grace: nat, created: Option<int>)

  /** A stored grace of zero reads as not set. */
  function Grace(snap: Snapshot): nat {
    if snap.grace == 0 then DefaultGrace else snap.grace
  }

  /** agent_may_claim_now */
  predicate MayClaim(id: AgentId, snap: Snapshot, agents: map<AgentId, Agent>, now: int)
    requires id in agents
  {
    if id !in snap.eligible || !Healthy(agents[id], now) then false
    else
      match snap.policy
      case AnyAvailable => true
      case PreferredFailover(preferred) =>
        || id == preferred
        || preferred !in agents || !Healthy(agents[preferred], now)
        || now >= (if snap.created.Some? then snap.created.value else now) + Grace(snap)
  }

  /** An approved agent of the pool that reported within the last 90 seconds. */
  ghost predicate HealthyEligible(id: AgentId, snap: Snapshot, agents: map<AgentId, Agent>, now: int) {
    && id in agents && id in snap.eligible && agents[id].approved
    && agents[id].heartbeat.Some? && now - agents[id].heartbeat.value <= 90
  }

  /** An accepted policy prefers an agent of the pool, the one every failover network names. */
  lemma PreferredIsEligible(networks: seq<Network>, eligible: set<AgentId>)
    ensures var r := ResolvePolicy(networks, eligible);
      && (r == Policy(AnyAvailable) <==> forall n :: n in networks ==> !n.failover)
      && (r.Policy? && r.policy.PreferredFailover? <==>
            (exists n :: n in networks && n.failover) &&
            (exists a :: a in eligible && forall n :: n in networks && n.failover ==> n.preferred == Some(a)))
      && (r.Policy? && r.policy.PreferredFailover? ==>
            r.policy.preferred in eligible && forall n :: n in networks && n.failover ==> n.preferred == Some(r.policy.preferred))
  {
    if forall n :: n in networks ==> !n.failover {
      assert PreferredIds(networks) == {};
    } else {
      var n :| n in networks && n.failover;
      assert n.preferred in PreferredIds(networks);
      if forall m :: m in networks && m.failover ==> m.preferred == n.preferred {
        assert PreferredIds(networks) == {n.preferred};
      }
    }
  }

  /**
   While its preferred agent is healthy and the grace runs, that agent alone may claim; otherwise
   exactly the healthy agents of the pool may.
   */
  lemma MayClaimExactly(id: AgentId, snap: Snapshot, agents: map<AgentId, Agent>, now: int)
    requires id in agents
    requires snap.policy.PreferredFailover? ==> snap.policy.preferred in snap.eligible
    ensures var waits := snap.policy.PreferredFailover? && HealthyEligible(snap.policy.preferred, snap, agents, now) &&
          (snap.created.Some? ==> now - snap.created.value < if snap.grace == 0 then 60 else snap.grace);
      MayClaim(id, snap, agents, now) <==>
        HealthyEligible(id, snap, agents, now) && (waits ==> id == snap.policy.preferred)
  {
  }

  /** Whenever a healthy agent of the pool exists, some agent may claim. */
  lemma SomeoneMayClaim(networks: seq<Network>, snap: Snapshot, agents: map<AgentId, Agent>, now: int, id: AgentId)
    requires ResolvePolicy(networks, snap.eligible) == Policy(snap.policy)
    requires HealthyEligible(id, snap, agents, now)
    ensures exists a :: a in agents && MayClaim(a, snap, agents, now)
  {
    PreferredIsEligible(networks, snap.eligible);
    var chosen := if snap.policy.PreferredFailover? && HealthyEligible(snap.policy.preferred, snap, agents, now)
                  then snap.policy.preferred else id;
    assert MayClaim(chosen, snap, agents, now);
  }
}
