/** Queueing the scheduled runs of one scan definition. */
module ScheduledRuns {
  import opened Options
  import opened Extremes
  import opened Schedule

  predicate NoRepeat(times: seq<int>) {
    times == [] || (NoRepeat(times[..|times| - 1]) && times[|times| - 1] !in times[..|times| - 1])
  }

  /** No two due times are the same. */
  lemma {:induction false} NoRepeatIff(times: seq<int>)
    ensures NoRepeat(times) <==> forall i, j :: 0 <= i < j < |times| ==> times[i] != times[j]
  {
    if times != [] {
      var front, last := times[..|times| - 1], times[|times| - 1];
      NoRepeatIff(front);
      if NoRepeat(times) {
        forall i, j | 0 <= i < j < |times| ensures times[i] != times[j] {
          assert times[i] == front[i];
          assert j < |front| ==> times[j] == front[j];
        }
      }
      if forall i, j :: 0 <= i < j < |times| ==> times[i] != times[j] {
        assert forall i, j :: 0 <= i < j < |front| ==> front[i] == times[i] && front[j] == times[j];
      }
    }
  }

  lemma NoRepeatSnoc(times: seq<int>, t: int)
    requires NoRepeat(times) && t !in times
    ensures NoRepeat(times + [t])
  {
    assert (times + [t])[..|times|] == times;
  }

  datatype Tick = Queued | Idle | Failed

  /** The search for the next run gives up on the way from the due time. */
  ghost predicate GivesUp(p: Plan, offset: int, now: int, due: int) {
    exists u :: Stuck(p, offset, due, now, u)
  }

  /** Past both times, and for a calendar schedule the least instant that is. */
  ghost predicate MovesOn(p: Plan, offset: int, now: int, due: int, t: int) {
    t > now && t > due && (!p.Interval? ==> LeastUtc(p, offset, Max(due, now), t))
  }

  method NextRun(p: Plan, offset: int, now: int, due: int) returns (r: Option<int>)
    requires ValidPlan(p) && !p.Manual? && due + offset >= 0
    ensures r.None? <==> GivesUp(p, offset, now, due)
    ensures r.Some? ==> MovesOn(p, offset, now, due, r.value)
  {
    var next := NextAfterCatchup(p, offset, now, due);
    if next.NotFound? {
      return None;
    }
    return Some(next.t);
  }

  class ScheduledScan {
    var nextRunAt: Option<int>
    // The due times of the runs queued so far.
    var scheduledFor: seq<int>

    /** A tick reaches this scan with a due time to act on. */
    predicate Acts(p: Plan, active: bool)
      reads this
    {
      !active && !p.Manual? && nextRunAt.Some?
    }

    /** A due time for which a run exists already is only moved past. */
    method Advance(due: int, next: int) returns (tick: Tick)
      requires NoRepeat(scheduledFor)
      modifies this
      ensures NoRepeat(scheduledFor) && nextRunAt == Some(next) && !tick.Failed?
      ensures tick.Queued? <==> due !in old(scheduledFor)
      ensures scheduledFor == old(scheduledFor) + (if tick.Queued? then [due] else [])
    {
      nextRunAt := Some(next);
      if due in scheduledFor {
        return Idle;
      }
      NoRepeatSnoc(scheduledFor, due);
      scheduledFor := scheduledFor + [due];
      return Queued;
    }

    /**
     queue_scheduled_run: however long the scheduler was down, one tick queues at most one run, for
     the due time, never queues a due time twice, and moves on past both the due time and now.  A
     search that gives up aborts the tick, and its transaction is rolled back.
     */
    method QueueScheduledRun(p: Plan, offset: int, now: int, active: bool) returns (tick: Tick)
      requires ValidPlan(p) && NoRepeat(scheduledFor)
      requires nextRunAt.Some? ==> nextRunAt.value + offset >= 0
      modifies this
      ensures NoRepeat(scheduledFor)
      ensures tick.Failed? <==> old(Acts(p, active)) && GivesUp(p, offset, now, old(nextRunAt).value)
      ensures tick.Queued? <==> old(Acts(p, active)) && !tick.Failed? && old(nextRunAt).value !in old(scheduledFor)
      ensures scheduledFor == old(scheduledFor) + (if tick.Queued? then [old(nextRunAt).value] else [])
      ensures old(Acts(p, active)) && !tick.Failed? ==>
        nextRunAt.Some? && MovesOn(p, offset, now, old(nextRunAt).value, nextRunAt.value)
      ensures !old(Acts(p, active)) || tick.Failed? ==> nextRunAt == if !active && p.Manual? then None else old(nextRunAt)
    {
      if active {
        return Idle;
      }
      if p.Manual? {
        nextRunAt := None;
        return Idle;
      }
      if nextRunAt.None? {
        return Idle;
      }
      var next := NextRun(p, offset, now, nextRunAt.value);
      if next.None? {
        return Failed;
      }
      tick := Advance(nextRunAt.value, next.value);
    }
  }
}
