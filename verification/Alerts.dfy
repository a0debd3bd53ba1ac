/**
 Delivering one alert.  Workers claim it under a lease, read it again in a session of their own, send,
 and record the result; a worker may crash, or stall past its lease, between any two of these.
 */
module Alerts {
  datatype Status = Pending | Processing | Sent | Failed

  datatype Delivery = Delivery(status: Status, count: nat, nextAt: int, lastAt: int)

  const MaxAttempts := 5
  const LeaseSeconds := 120

  /** The condition of _claim_deliveries on a row. */
  predicate Claimable(d: Delivery, now: int) {
    (d.status == Pending && d.nextAt <= now) || (d.status == Processing && d.lastAt <= now - LeaseSeconds)
  }

  function Claimed(d: Delivery, now: int): Delivery {
    d.(status := Processing, count := d.count + 1, lastAt := now)
  }

  function Backoff(count: nat): int {
    if count == 0 then 0 else if count == 1 then 60 else if count == 2 then 300 else if count == 3 then 900 else 3600
  }

  datatype Result = Delivered | Refused(permanent: bool)

  function StatusAfter(seen: Delivery, r: Result): Status {
    match r
    case Delivered => Sent
    case Refused(permanent) => if permanent || seen.count >= MaxAttempts then Failed else Pending
  }

  /** _finish_delivery: decided on the row as read, and written where it differs from what was read. */
  function Finished(d: Delivery, seen: Delivery, r: Result, now: int): Delivery {
    var status := StatusAfter(seen, r);
    d.(status := if status == seen.status then d.status else status, lastAt := now,
       nextAt := if status == Pending then now + Backoff(seen.count) else d.nextAt)
  }

  // A worker's progress with its claim number n.
  datatype Phase = Idle | Holding(n: nat) | Looked(n: nat, seen: Delivery) | Sending(n: nat, seen: Delivery)

  type Worker = nat

  // sends counts messages handed to the channel; sentBy holds the claims under which they were.
  datatype System = System(row: Delivery, now: int, workers: map<Worker, Phase>, sends: nat, sentBy: set<nat>)

  datatype Action =
    | Tick(seconds: nat)
    | Claim(w: Worker)
    | Look(w: Worker)
    | GiveUp(w: Worker)
    | Send(w: Worker)
    | Finish(w: Worker, result: Result)
    | Crash(w: Worker)

  function PhaseOf(s: System, w: Worker): Phase {
    if w in s.workers then s.workers[w] else Idle
  }

  predicate Enabled(s: System, a: Action) {
    match a
    case Tick(_) => true
    case Claim(w) => PhaseOf(s, w).Idle? && Claimable(s.row, s.now)
    case Look(w) => PhaseOf(s, w).Holding?
    case GiveUp(w) => PhaseOf(s, w).Looked? && PhaseOf(s, w).seen.count > MaxAttempts
    case Send(w) => PhaseOf(s, w).Looked? && PhaseOf(s, w).seen.count <= MaxAttempts
    case Finish(w, _) => PhaseOf(s, w).Sending?
    case Crash(w) => true
  }

  function Move(s: System, w: Worker, phase: Phase): System {
    s.(workers := s.workers[w := phase])
  }

  function Next(s: System, a: Action): System
    requires Enabled(s, a)
  {
    match a
    case Tick(t) => s.(now := s.now + t)
    case Claim(w) => Move(s, w, Holding(s.row.count + 1)).(row := Claimed(s.row, s.now))
    case Look(w) => Move(s, w, Looked(PhaseOf(s, w).n, s.row))
    case GiveUp(w) =>
      Move(s, w, Idle).(row := Finished(s.row, PhaseOf(s, w).seen, Refused(true), s.now))
    case Send(w) =>
      var p := PhaseOf(s, w);
      Move(s, w, Sending(p.n, p.seen)).(sends := s.sends + 1, sentBy := s.sentBy + {p.n})
    case Finish(w, r) =>
      Move(s, w, Idle).(row := Finished(s.row, PhaseOf(s, w).seen, r, s.now))
    case Crash(w) => Move(s, w, Idle)
  }

  ghost predicate Run(s: System, actions: seq<Action>, s': System)
    decreases |actions|
  {
    if actions == [] then s == s'
    else Enabled(s, actions[0]) && Run(Next(s, actions[0]), actions[1..], s')
  }

  /** A worker's claim number is its own, and it has not sent under it unless it says so. */
  ghost predicate PhaseOk(s: System, phase: Phase) {
    match phase
    case Idle => true
    case Holding(n) => 1 <= n <= s.row.count && n !in s.sentBy
    case Looked(n, seen) => 1 <= n <= seen.count <= s.row.count && n !in s.sentBy
    case Sending(n, seen) => n in s.sentBy
  }

  predicate SameClaim(p: Phase, q: Phase) {
    !p.Idle? && !q.Idle? && p.n == q.n
  }

  ghost predicate Inv(s: System) {
    && (forall w :: PhaseOk(s, PhaseOf(s, w)))
    && (forall v, w :: SameClaim(PhaseOf(s, v), PhaseOf(s, w)) ==> v == w)
    && (forall n :: n in s.sentBy ==> 1 <= n <= MaxAttempts && n <= s.row.count)
    && s.sends == |s.sentBy|
  }

  lemma StepInv(s: System, a: Action)
    requires Inv(s) && Enabled(s, a)
    ensures Inv(Next(s, a)) && s.row.count <= Next(s, a).row.count
  {
    var s' := Next(s, a);
    if !a.Tick? {
      forall v ensures PhaseOf(s', v) == if v == a.w then PhaseOf(s', a.w) else PhaseOf(s, v) {
      }
      assert PhaseOk(s, PhaseOf(s, a.w));
    }
    forall v ensures PhaseOk(s', PhaseOf(s', v)) {
      assert PhaseOk(s, PhaseOf(s, v));
      if a.Send? && v != a.w {
        assert !SameClaim(PhaseOf(s, v), PhaseOf(s, a.w));
      }
    }
    forall v, w | SameClaim(PhaseOf(s', v), PhaseOf(s', w)) ensures v == w {
      assert PhaseOk(s, PhaseOf(s, v)) && PhaseOk(s, PhaseOf(s, w));
      if !a.Claim? {
        assert SameClaim(PhaseOf(s, v), PhaseOf(s, w));
      }
    }
  }

  function Start(at: int): System { System(Delivery(Pending, 0, at, at), at, map[], 0, {}) }

  lemma {:induction false} RunInv(s: System, actions: seq<Action>, s': System)
    requires Inv(s) && Run(s, actions, s')
    ensures Inv(s')
    decreases |actions|
  {
    if actions != [] {
      StepInv(s, actions[0]);
      RunInv(Next(s, actions[0]), actions[1..], s');
    }
  }

  lemma {:induction false} AtMost(s: set<nat>, limit: nat)
    requires forall n :: n in s ==> 1 <= n <= limit
    ensures |s| <= limit
  {
    if limit == 0 {
      assert s == {};
    } else {
      AtMost(s - {limit}, limit - 1);
      if limit in s {
        assert s == (s - {limit}) + {limit};
      } else {
        assert s - {limit} == s;
      }
    }
  }

  /**
   However workers interleave, crash or stall past their lease, an alert is handed to its channel at
   most five times, at most once per claim and never under a claim numbered above the limit.
   */
  lemma SendsBounded(at: int, actions: seq<Action>, s: System)
    requires Run(Start(at), actions, s)
    ensures s.sends <= MaxAttempts && s.sends <= s.row.count && s.sends == |s.sentBy|
    ensures forall n :: n in s.sentBy ==> 1 <= n <= MaxAttempts
  {
    assert Inv(Start(at));
    RunInv(Start(at), actions, s);
    AtMost(s.sentBy, MaxAttempts);
    AtMost(s.sentBy, s.row.count);
  }

  /** Claims, even crashed ones, use up the limit: once five were made, later claims send nothing. */
  lemma {:induction false} SpentClaims(s: System, actions: seq<Action>, s': System)
    requires Inv(s) && Run(s, actions, s') && s.row.count >= MaxAttempts
    requires forall w :: PhaseOf(s, w).Idle?
    ensures s'.sends == s.sends
    decreases |actions|
  {
    SpentRun(s, s, actions, s');
  }

  /** Every worker at work then holds a claim above the limit. */
  ghost predicate Spent(s: System, base: nat) {
    && s.row.count >= MaxAttempts && s.sends == base
    && forall w :: PhaseOf(s, w).Idle? || (PhaseOf(s, w).Holding? && PhaseOf(s, w).n > MaxAttempts)
         || (PhaseOf(s, w).Looked? && PhaseOf(s, w).n > MaxAttempts)
  }

  lemma {:induction false} SpentRun(first: System, s: System, actions: seq<Action>, s': System)
    requires Inv(s) && Spent(s, first.sends) && Run(s, actions, s')
    ensures s'.sends == first.sends
    decreases |actions|
  {
    if actions != [] {
      var a := actions[0];
      StepInv(s, a);
      if !a.Tick? {
        assert PhaseOk(s, PhaseOf(s, a.w));
      }
      forall v ensures PhaseOf(Next(s, a), v) == if !a.Tick? && v == a.w then PhaseOf(Next(s, a), v) else PhaseOf(s, v) {
      }
      SpentRun(first, Next(s, a), actions[1..], s');
    }
  }

  ghost predicate ComesUp(d: Delivery, now: int, later: nat) {
    Claimable(d, now + later)
  }

  /** A worker that looked before another delivered, and then fails, puts a delivered alert back in the queue. */
  lemma LateFailureReopens(d: Delivery, seen: Delivery, now: int)
    requires d.status == Sent && seen.status == Processing && seen.count <= d.count
    ensures var d' := Finished(d, seen, Refused(false), now);
      (exists later :: ComesUp(d', now, later)) <==> seen.count < MaxAttempts
  {
    var d' := Finished(d, seen, Refused(false), now);
    if seen.count < MaxAttempts {
      assert ComesUp(d', now, Backoff(seen.count));
    }
  }

  /** An alert can be claimed when it is pending and due, or when its last claim is 120 seconds old and nothing came of it. */
  lemma ClaimableIff(d: Delivery, now: int)
    ensures Claimable(d, now) <==>
      (d.status == Pending && now >= d.nextAt) || (d.status == Processing && now - d.lastAt >= 120)
  {
  }

  /** How a delivery ends: sent; failed for good, or on the fifth attempt; else pending again after 1, 5, 15 minutes or an hour. */
  lemma FinishedIs(d: Delivery, r: Result, now: int)
    requires d.status == Processing && d.count >= 1
    ensures var d' := Finished(d, d, r, now);
      && d'.count == d.count && d'.lastAt == now
      && (d'.status == Sent <==> r == Delivered)
      && (d'.status == Failed <==> r == Refused(true) || (r == Refused(false) && d.count >= 5))
      && (d'.status == Pending <==> r == Refused(false) && d.count < 5)
      && (d'.status == Pending ==> d'.nextAt == now + match d.count case 1 => 60 case 2 => 300 case 3 => 900 case _ => 3600)
      && (d'.status != Pending ==> d'.nextAt == d.nextAt)
  {
  }

  /** A worker that has looked at an alert sends it under the first five claims, and under any later one marks it failed instead. */
  lemma LookedIs(s: System, w: Worker)
    requires PhaseOf(s, w).Looked? && PhaseOf(s, w).seen == s.row && s.row.status == Processing
    ensures Enabled(s, Send(w)) <==> s.row.count <= 5
    ensures Enabled(s, GiveUp(w)) <==> s.row.count > 5
    ensures s.row.count > 5 ==> Next(s, GiveUp(w)).row == s.row.(status := Failed, lastAt := s.now)
  {
  }

  /** An alert that is due, and that nobody is at work on, is sent and delivered by a worker that meets no failure. */
  lemma DueIsDelivered(s: System, w: Worker)
    requires PhaseOf(s, w).Idle? && s.row.status == Pending && s.row.nextAt <= s.now && s.row.count < 5
    ensures exists s' :: Run(s, [Claim(w), Look(w), Send(w), Finish(w, Delivered)], s') && s'.row.status == Sent && s'.sends == s.sends + 1
  {
    var s1 := Next(s, Claim(w));
    var s2 := Next(s1, Look(w));
    var s3 := Next(s2, Send(w));
    var s4 := Next(s3, Finish(w, Delivered));
    RunCons(s3, Finish(w, Delivered), [], s4);
    RunCons(s2, Send(w), [Finish(w, Delivered)] + [], s4);
    RunCons(s1, Look(w), [Send(w)] + ([Finish(w, Delivered)] + []), s4);
    RunCons(s, Claim(w), [Look(w)] + ([Send(w)] + ([Finish(w, Delivered)] + [])), s4);
    assert [Claim(w), Look(w), Send(w), Finish(w, Delivered)] == [Claim(w)] + ([Look(w)] + ([Send(w)] + ([Finish(w, Delivered)] + [])));
  }

  /** A worker that can bring about another send: about to send, about to look, or about to report a failure that requeues. */
  predicate MayResend(s: System, w: Worker) {
    match PhaseOf(s, w)
    case Idle => false
    case Holding(_) => s.row.count <= MaxAttempts
    case Looked(_, seen) => seen.count <= MaxAttempts
    case Sending(_, seen) => seen.count < MaxAttempts && seen.status != Pending && s.row.count < MaxAttempts
  }

  ghost predicate Resent(s: System, actions: seq<Action>) {
    exists s' :: Run(s, actions, s') && s'.sends > s.sends
  }

  /** Nobody can bring about another send, and the row will not be claimed, or only above the limit. */
  ghost predicate Quiet(s: System) {
    (forall w :: !MayResend(s, w)) && (s.row.status == Sent || s.row.status == Failed || s.row.count >= MaxAttempts)
  }

  lemma QuietStep(s: System, a: Action)
    requires Quiet(s) && Enabled(s, a)
    ensures Quiet(Next(s, a)) && Next(s, a).sends == s.sends
  {
    if !a.Tick? {
      assert !MayResend(s, a.w);
    }
    forall w ensures !MayResend(Next(s, a), w) {
      assert !MayResend(s, w);
    }
  }

  lemma {:induction false} QuietRun(s: System, actions: seq<Action>, s': System)
    requires Quiet(s) && Run(s, actions, s')
    ensures s'.sends == s.sends
    decreases |actions|
  {
    if actions != [] {
      QuietStep(s, actions[0]);
      QuietRun(Next(s, actions[0]), actions[1..], s');
    }
  }

  lemma RunCons(s: System, a: Action, actions: seq<Action>, s': System)
    requires Enabled(s, a) && Run(Next(s, a), actions, s')
    ensures Run(s, [a] + actions, s')
  {
    assert ([a] + actions)[1..] == actions;
  }

  lemma RanThenResent(s: System, a: Action, actions: seq<Action>)
    requires Enabled(s, a) && Next(s, a).sends == s.sends && Resent(Next(s, a), actions)
    ensures Resent(s, [a] + actions)
  {
    var s' :| Run(Next(s, a), actions, s') && s'.sends > s.sends;
    RunCons(s, a, actions, s');
  }

  lemma LookedResends(s: System, w: Worker)
    requires PhaseOf(s, w).Looked? && MayResend(s, w)
    ensures Resent(s, [Send(w)] + [])
  {
    RunCons(s, Send(w), [], Next(s, Send(w)));
  }

  lemma HoldingResends(s: System, w: Worker)
    requires PhaseOf(s, w).Holding? && MayResend(s, w)
    ensures Resent(s, [Look(w)] + ([Send(w)] + []))
  {
    LookedResends(Next(s, Look(w)), w);
    RanThenResent(s, Look(w), [Send(w)] + []);
  }

  lemma SendingResends(s: System, w: Worker)
    requires PhaseOf(s, w).Sending? && MayResend(s, w)
    ensures exists actions :: Resent(s, actions)
  {
    var fail := Finish(w, Refused(false));
    var wait := Tick(Backoff(PhaseOf(s, w).seen.count));
    var s1 := Next(s, fail);
    var s2 := Next(s1, wait);
    HoldingResends(Next(s2, Claim(w)), w);
    RanThenResent(s2, Claim(w), [Look(w)] + ([Send(w)] + []));
    RanThenResent(s1, wait, [Claim(w)] + ([Look(w)] + ([Send(w)] + [])));
    RanThenResent(s, fail, [wait] + ([Claim(w)] + ([Look(w)] + ([Send(w)] + []))));
  }

  /** A delivered alert can be sent again exactly if some worker is still at work on it in such a place. */
  lemma ResentIff(s: System)
    requires s.row.status == Sent
    ensures (exists actions :: Resent(s, actions)) <==> exists w :: MayResend(s, w)
  {
    if w :| MayResend(s, w) {
      if PhaseOf(s, w).Holding? {
        HoldingResends(s, w);
      } else if PhaseOf(s, w).Looked? {
        LookedResends(s, w);
      } else {
        SendingResends(s, w);
      }
    } else {
      forall actions, s' | Run(s, actions, s') ensures s'.sends == s.sends {
        QuietRun(s, actions, s');
      }
    }
  }

  /** When nobody is at work, a delivered alert is never sent again, and its row never changes. */
  lemma {:induction false} DeliveredStays(s: System, actions: seq<Action>, s': System)
    requires s.row.status == Sent && (forall w :: PhaseOf(s, w).Idle?) && Run(s, actions, s')
    ensures s'.sends == s.sends && s'.row == s.row
    decreases |actions|
  {
    if actions != [] {
      var s1 := Next(s, actions[0]);
      assert actions[0].Tick? || actions[0].Crash?;
      forall w ensures PhaseOf(s1, w).Idle? {
        assert PhaseOf(s, w).Idle?;
      }
      DeliveredStays(s1, actions[1..], s');
    }
  }

  lemma {:induction false} RunSnoc(s: System, actions: seq<Action>, t: System, a: Action)
    requires Run(s, actions, t) && Enabled(t, a)
    ensures Run(s, actions + [a], Next(t, a))
    decreases |actions|
  {
    if actions == [] {
      assert ([] + [a])[1..] == [];
    } else {
      assert (actions + [a])[1..] == actions[1..] + [a];
      RunSnoc(Next(s, actions[0]), actions[1..], t, a);
    }
  }

  /** Two workers hold the alert, the second after the first's lease has passed; the second delivers it. */
  function DeliveredActions(): seq<Action> {
    [] + [Claim(0)] + [Tick(120)] + [Claim(1)] + [Look(0)] + [Look(1)] + [Send(1)] + [Finish(1, Delivered)]
  }

  /** The stalled worker then sends and fails, and a third picks the alert up again. */
  function LateActions(): seq<Action> {
    [] + [Send(0)] + [Finish(0, Refused(false))] + [Tick(300)] + [Claim(2)] + [Look(2)] + [Send(2)]
  }

  function DeliveredState(): System {
    System(Delivery(Sent, 2, 0, 120), 120, map[0 := Looked(1, Delivery(Processing, 2, 0, 120)), 1 := Idle], 1, {2})
  }

  function ResentState(): System {
    System(Delivery(Processing, 3, 420, 420), 420,
           map[0 := Idle, 1 := Idle, 2 := Sending(3, Delivery(Processing, 3, 420, 420))], 3, {1, 2, 3})
  }

  /** A run in which an alert is delivered, and is nevertheless sent twice more. */
  lemma SentAfterDelivery()
    ensures Run(Start(0), DeliveredActions(), DeliveredState()) && DeliveredState().row.status == Sent
    ensures Run(DeliveredState(), LateActions(), ResentState()) && ResentState().sends == DeliveredState().sends + 2
  {
    DeliveredRun();
    LateRun();
  }

  lemma DeliveredRun()
    ensures Run(Start(0), DeliveredActions(), DeliveredState())
  {
    var s0 := Start(0);
    var s1 := Next(s0, Claim(0));
    var s2 := Next(s1, Tick(120));
    var s3 := Next(s2, Claim(1));
    var s4 := Next(s3, Look(0));
    var s5 := Next(s4, Look(1));
    var s6 := Next(s5, Send(1));
    var a1 := [] + [Claim(0)];
    var a2 := a1 + [Tick(120)];
    var a3 := a2 + [Claim(1)];
    var a4 := a3 + [Look(0)];
    var a5 := a4 + [Look(1)];
    RunSnoc(s0, [], s0, Claim(0));
    RunSnoc(s0, a1, s1, Tick(120));
    RunSnoc(s0, a2, s2, Claim(1));
    RunSnoc(s0, a3, s3, Look(0));
    RunSnoc(s0, a4, s4, Look(1));
    RunSnoc(s0, a5, s5, Send(1));
    RunSnoc(s0, a5 + [Send(1)], s6, Finish(1, Delivered));
    assert Next(s6, Finish(1, Delivered)) == DeliveredState();
  }

  lemma LateRun()
    ensures Run(DeliveredState(), LateActions(), ResentState())
  {
    var s0 := DeliveredState();
    var s1 := Next(s0, Send(0));
    var s2 := Next(s1, Finish(0, Refused(false)));
    var s3 := Next(s2, Tick(300));
    var s4 := Next(s3, Claim(2));
    var s5 := Next(s4, Look(2));
    var a1 := [] + [Send(0)];
    var a2 := a1 + [Finish(0, Refused(false))];
    var a3 := a2 + [Tick(300)];
    var a4 := a3 + [Claim(2)];
    RunSnoc(s0, [], s0, Send(0));
    RunSnoc(s0, a1, s1, Finish(0, Refused(false)));
    RunSnoc(s0, a2, s2, Tick(300));
    RunSnoc(s0, a3, s3, Claim(2));
    RunSnoc(s0, a4, s4, Look(2));
    RunSnoc(s0, a4 + [Look(2)], s5, Send(2));
    assert Next(s5, Send(2)) == ResentState();
  }

  // ---------------------------------------------------------------- the row in place

  class DeliveryRow {
    var status: Status
    var count: nat
    var nextAt: int
    var lastAt: int

    function State(): Delivery
      reads this
    {
      Delivery(status, count, nextAt, lastAt)
    }

    /** _claim_deliveries, for this row */
    method TryClaim(now: int) returns (ok: bool)
      modifies this
      ensures ok == old(Claimable(State(), now))
      ensures State() == if ok then Claimed(old(State()), now) else old(State())
    {
      if (status == Pending && nextAt <= now) || (status == Processing && lastAt <= now - LeaseSeconds) {
        status, count, lastAt := Processing, count + 1, now;
        return true;
      }
      return false;
    }

    /** _finish_delivery */
    method FinishDelivery(r: Result, now: int)
      modifies this
      ensures State() == Finished(old(State()), old(State()), r, now)
    {
      lastAt := now;
      if r.Delivered? {
        status := Sent;
        return;
      }
      if r.permanent || count >= MaxAttempts {
        status := Failed;
        return;
      }
      var backoff := [0, 60, 300, 900, 3600];
      nextAt := now + backoff[if count < 4 then count else 4];
      status := Pending;
    }
  }
}
