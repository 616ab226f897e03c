/**
 The missed-run search of the cron controllers, against ticks as a plain set.

 A schedule is given by Next, "the least tick strictly after t"; the ticks are whatever Next returns.
 */
module CronSchedule {
  import opened Wrappers

  /** Next moves forward from t, and skips no tick: from anywhere before next(t) it leads to next(t). */
  ghost predicate LeadsOn(next: int -> int, t: int) {
    next(t) > t && forall u :: t <= u < next(t) ==> next(u) == next(t)
  }

  ghost predicate IsSchedule(next: int -> int) { forall t :: LeadsOn(next, t) }

  predicate Tick(next: int -> int, x: int) { next(x - 1) == x }

  /** The ticks in (from, to]. */
  ghost function Ticks(next: int -> int, from: int, to: int): set<int> {
    set x | from < x <= to && Tick(next, x)
  }

  lemma NextIsLeastTick(next: int -> int, t: int)
    requires IsSchedule(next)
    ensures Tick(next, next(t)) && next(t) > t
    ensures forall x :: t < x < next(t) ==> !Tick(next, x)
  {
    assert LeadsOn(next, t);
    assert t <= next(t) - 1 < next(t);
    forall x | t < x < next(t)
      ensures !Tick(next, x)
    {
      assert next(x - 1) == next(t);
    }
  }

  lemma NextAdvances(next: int -> int, t: int)
    requires IsSchedule(next)
    ensures next(t) > t
  {
    assert LeadsOn(next, t);
  }

  lemma TicksGrow(next: int -> int, from: int, t: int)
    requires IsSchedule(next) && from <= t
    ensures Ticks(next, from, next(t)) == Ticks(next, from, t) + {next(t)}
    ensures |Ticks(next, from, next(t))| == |Ticks(next, from, t)| + 1
  {
    NextIsLeastTick(next, t);
    assert next(t) !in Ticks(next, from, t);
  }

  /** A later end adds ticks only from the next tick on. */
  lemma TicksStop(next: int -> int, from: int, t: int, to: int)
    requires IsSchedule(next) && from <= t <= to < next(t)
    ensures Ticks(next, from, to) == Ticks(next, from, t)
  {
    NextIsLeastTick(next, t);
  }

  lemma TicksMonotone(next: int -> int, from: int, t: int, to: int)
    requires t <= to
    ensures |Ticks(next, from, t)| <= |Ticks(next, from, to)|
  {
    SubsetSize(Ticks(next, from, t), Ticks(next, from, to));
  }

  lemma SubsetSize(a: set<int>, b: set<int>)
    requires a <= b
    ensures |a| <= |b|
  {
    assert |b| == |a| + |b - a| by {
      assert b == a + (b - a);
    }
  }

  datatype Schedule = TooMany | Runs(missed: Option<int>, upcoming: int)

  /**
   getNextSchedule: fails on more than 100 missed ticks, else gives the last missed and the next one.  A tick is
   missed if it has passed, comes after the last run (or the creation, without one) and is not older than the deadline.
   */
  method GetNextSchedule(next: int -> int, last: Option<int>, created: int, deadline: Option<int>, now: int) returns (r: Schedule)
    requires IsSchedule(next)
    ensures var ts := set x | (if last.Some? then last.value else created) < x <= now && Tick(next, x) && (deadline.Some? ==> now - deadline.value < x);
      && (r.TooMany? <==> |ts| > 100)
      && (r.Runs? ==>
            && (r.missed.None? <==> ts == {})
            && (r.missed.Some? ==> r.missed.value in ts && forall x :: x in ts ==> x <= r.missed.value)
            && r.upcoming > now && Tick(next, r.upcoming) && forall x :: now < x < r.upcoming ==> !Tick(next, x))
  {
    var earliest := if last.Some? then last.value else created;
    if deadline.Some? {
      var schedulingDeadline := now - deadline.value;
      if schedulingDeadline > earliest {
        earliest := schedulingDeadline;
      }
    }
    ghost var missed := set x | (if last.Some? then last.value else created) < x <= now && Tick(next, x) && (deadline.Some? ==> now - deadline.value < x);
    assert missed == Ticks(next, earliest, now);
    if earliest > now {
      NextIsLeastTick(next, now);
      return Runs(None, next(now));
    }
    var found := FindMissed(next, earliest, now);
    match found {
      case None => return TooMany;
      case Some(lastMissed) =>
        NextIsLeastTick(next, now);
        return Runs(lastMissed, next(now));
    }
  }

  /** The loop: the greatest tick in (earliest, now], or None when there are more than 100. */
  method FindMissed(next: int -> int, earliest: int, now: int) returns (r: Option<Option<int>>)
    requires IsSchedule(next) && earliest <= now
    ensures var ts := Ticks(next, earliest, now);
      && (r.None? <==> |ts| > 100)
      && (r == Some(None) <==> ts == {})
      && (r.Some? && r.value.Some? ==> r.value.value in ts && forall x :: x in ts ==> x <= r.value.value)
  {
    var starts, lastMissed := 0, None;
    ghost var reached := earliest;
    var t := next(earliest);
    NextAdvances(next, earliest);
    while t <= now
      invariant earliest <= reached <= now && reached < t == next(reached)
      invariant |Ticks(next, earliest, reached)| == starts <= 100
      invariant lastMissed.None? ==> reached == earliest
      invariant lastMissed.Some? ==> lastMissed.value == reached && reached in Ticks(next, earliest, reached)
      decreases now - t
    {
      TicksGrow(next, earliest, reached);
      lastMissed := Some(t);
      starts := starts + 1;
      if starts > 100 {
        TicksMonotone(next, earliest, t, now);
        return None;
      }
      reached := t;
      NextAdvances(next, t);
      t := next(t);
    }
    TicksStop(next, earliest, reached, now);
    r := Some(lastMissed);
  }
}
