/**
 The reclaim-space cron controller together with the jobs it creates.

 The last schedule time is not stored but recomputed from the surviving children, so "no tick is
 started twice" rests on history pruning, job execution and the schedule search taken together.
 */
module ReclaimSpaceCron {
  import opened Wrappers
  import opened CronSchedule
  import J = ReclaimSpaceJob

  /** A child job: the tick it was created for (its annotation and its name), its creation time, spec and status. */
  datatype Child = Child(tick: int, created: int, spec: J.Spec, status: J.Status)

  predicate Active(c: Child) { c.status.result.None? }

  // ----- parseJobList -----

  function WithResult(cs: seq<Child>, r: J.Result): seq<Child> {
    if cs == [] then []
    else WithResult(cs[..|cs| - 1], r) + if cs[|cs| - 1].status.result == Some(r) then [cs[|cs| - 1]] else []
  }

  /** The finished jobs are sorted by result, each as often as it is listed. */
  lemma {:induction false} CountWithResult(cs: seq<Child>, r: J.Result)
    ensures forall c :: multiset(WithResult(cs, r))[c] == if c.status.result == Some(r) then multiset(cs)[c] else 0
  {
    if cs != [] {
      var n := |cs| - 1;
      CountWithResult(cs[..n], r);
      assert cs == cs[..n] + [cs[n]];
    }
  }

  datatype Info = Info(active: Option<Child>, successful: seq<Child>, failed: seq<Child>,
                       mostRecent: Option<int>, lastSuccessful: Option<int>)

  /** The source dereferences the completion time of a successful job; Sound jobs have one. */
  method ParseJobList(cs: seq<Child>) returns (info: Info)
    requires forall i :: 0 <= i < |cs| && cs[i].status.result == Some(J.Succeeded) ==> cs[i].status.completion.Some?
    ensures info.successful == WithResult(cs, J.Succeeded) && info.failed == WithResult(cs, J.NotSucceeded)
    ensures info.active.Some? <==> exists i :: 0 <= i < |cs| && Active(cs[i])
    ensures info.active.Some? ==> info.active.value in cs && Active(info.active.value)
    ensures info.mostRecent.None? <==> cs == []
    ensures info.mostRecent.Some? ==>
      && (exists i :: 0 <= i < |cs| && cs[i].tick == info.mostRecent.value)
      && (forall i :: 0 <= i < |cs| ==> cs[i].tick <= info.mostRecent.value)
    ensures info.lastSuccessful.None? <==> forall i :: 0 <= i < |cs| ==> cs[i].status.result != Some(J.Succeeded)
    ensures info.lastSuccessful.Some? ==>
      && (exists i :: 0 <= i < |cs| && cs[i].status.result == Some(J.Succeeded) && cs[i].status.completion == info.lastSuccessful)
      && (forall i :: 0 <= i < |cs| && cs[i].status.result == Some(J.Succeeded) ==>
            cs[i].status.completion.value <= info.lastSuccessful.value)
  {
    var active: Option<Child>, successful: seq<Child>, failed: seq<Child> := None, [], [];
    var mostRecent: Option<int>, lastSuccessful: Option<int> := None, None;
    for i := 0 to |cs|
      invariant successful == WithResult(cs[..i], J.Succeeded) && failed == WithResult(cs[..i], J.NotSucceeded)
      invariant active.Some? <==> exists k :: 0 <= k < i && Active(cs[k])
      invariant active.Some? ==> active.value in cs && Active(active.value)
      invariant mostRecent.None? <==> i == 0
      invariant mostRecent.Some? ==>
        && (exists k :: 0 <= k < i && cs[k].tick == mostRecent.value) && (forall k :: 0 <= k < i ==> cs[k].tick <= mostRecent.value)
      invariant lastSuccessful.None? <==> forall k :: 0 <= k < i ==> cs[k].status.result != Some(J.Succeeded)
      invariant lastSuccessful.Some? ==>
        && (exists k :: 0 <= k < i && cs[k].status.result == Some(J.Succeeded) && cs[k].status.completion == lastSuccessful)
        && (forall k :: 0 <= k < i && cs[k].status.result == Some(J.Succeeded) ==>
              cs[k].status.completion.value <= lastSuccessful.value)
    {
      assert cs[..i + 1][..i] == cs[..i];
      match cs[i].status.result {
        case None => active := Some(cs[i]);
        case Some(NotSucceeded) => failed := failed + [cs[i]];
        case Some(Succeeded) =>
          successful := successful + [cs[i]];
          if lastSuccessful.None? || lastSuccessful.value < cs[i].status.completion.value {
            lastSuccessful := cs[i].status.completion;
          }
      }
      if mostRecent.None? || mostRecent.value < cs[i].tick {
        mostRecent := Some(cs[i].tick);
      }
    }
    assert cs[..|cs|] == cs;
    info := Info(active, successful, failed, mostRecent, lastSuccessful);
  }

  // ----- deleteOldJobs -----

  /** The order of the sort: jobs without a start time first, then by start time. */
  predicate StartsBefore(a: Child, b: Child) {
    a.status.start.None? || (b.status.start.Some? && a.status.start.value <= b.status.start.value)
  }

  function Insert(c: Child, cs: seq<Child>): (r: seq<Child>)
    ensures multiset(r) == multiset(cs) + multiset{c}
  {
    if cs == [] || StartsBefore(c, cs[0]) then [c] + cs
    else
      assert cs == [cs[0]] + cs[1..];
      [cs[0]] + Insert(c, cs[1..])
  }

  function SortByStart(cs: seq<Child>): (r: seq<Child>)
    ensures multiset(r) == multiset(cs)
  {
    if cs == [] then []
    else
      assert cs == [cs[0]] + cs[1..];
      Insert(cs[0], SortByStart(cs[1..]))
  }

  predicate Sorted(cs: seq<Child>) { forall i, j :: 0 <= i < j < |cs| ==> StartsBefore(cs[i], cs[j]) }

  lemma {:induction false} InsertSorted(c: Child, cs: seq<Child>)
    requires Sorted(cs)
    ensures Sorted(Insert(c, cs))
  {
    if cs != [] && !StartsBefore(c, cs[0]) {
      InsertSorted(c, cs[1..]);
      var r := Insert(c, cs[1..]);
      forall j | 0 <= j < |r|
        ensures StartsBefore(cs[0], r[j])
      {
        assert r[j] in multiset(r);
        assert r[j] in multiset(cs[1..]) || r[j] == c;
      }
    }
  }

  lemma {:induction false} SortSorts(cs: seq<Child>)
    ensures Sorted(SortByStart(cs))
  {
    if cs != [] {
      SortSorts(cs[1..]);
      InsertSorted(cs[0], SortByStart(cs[1..]));
    }
  }

  /** The children that pruning deletes: all but the limit that started last. */
  function Old(cs: seq<Child>, limit: nat): seq<Child> {
    var sorted := SortByStart(cs);
    if |sorted| <= limit then [] else sorted[..|sorted| - limit]
  }

  /** Pruning takes exactly what is over the limit. */
  lemma OldCount(cs: seq<Child>, limit: nat)
    ensures |Old(cs, limit)| == (if |cs| <= limit then 0 else |cs| - limit) && multiset(Old(cs, limit)) <= multiset(cs)
  {
    var sorted := SortByStart(cs);
    assert |multiset(sorted)| == |multiset(cs)|;
    assert sorted == sorted[..|Old(cs, limit)|] + sorted[|Old(cs, limit)|..];
  }

  /** Pruning takes no job that started after one it keeps. */
  lemma OldStartFirst(cs: seq<Child>, limit: nat, d: Child, k: Child)
    requires d in Old(cs, limit) && multiset(cs)[k] > multiset(Old(cs, limit))[k]
    ensures d.status.start.None? || (k.status.start.Some? && d.status.start.value <= k.status.start.value)
  {
    var sorted, n := SortByStart(cs), |Old(cs, limit)|;
    SortSorts(cs);
    assert sorted == sorted[..n] + sorted[n..];
    assert multiset(sorted)[k] == multiset(sorted[..n])[k] + multiset(sorted[n..])[k];
    assert k in sorted[n..];
    var i :| 0 <= i < n && sorted[i] == d;
    var j :| 0 <= j < |sorted| - n && sorted[n..][j] == k;
    assert StartsBefore(sorted[i], sorted[n + j]);
  }

  method DeleteOldJobs(cs: seq<Child>, limit: nat) returns (deleted: seq<Child>)
    ensures deleted == Old(cs, limit)
  {
    var sorted := SortByStart(cs);
    deleted := [];
    var i := 0;
    while i < |sorted| && i < |sorted| - limit
      invariant i <= |sorted| && (|sorted| <= limit ==> i == 0) && (limit < |sorted| ==> i <= |sorted| - limit)
      invariant deleted == sorted[..i]
    {
      deleted := deleted + [sorted[i]];
      i := i + 1;
    }
  }

  predicate StartedBefore(c: Child, z: Child) {
    z.status.start.Some? && (c.status.start.None? || c.status.start.value < z.status.start.value)
  }

  lemma LatestIsLast(sorted: seq<Child>, z: Child)
    requires Sorted(sorted) && z in sorted
    requires forall i :: 0 <= i < |sorted| && sorted[i] != z ==> StartedBefore(sorted[i], z)
    ensures sorted[|sorted| - 1] == z
  {
    var i :| 0 <= i < |sorted| && sorted[i] == z;
    if i < |sorted| - 1 {
      assert StartsBefore(sorted[i], sorted[|sorted| - 1]);
    }
  }

  /** Pruning never removes the child that started after all the others. */
  lemma NewestKept(cs: seq<Child>, limit: nat, z: Child)
    requires limit >= 1 && forall i :: 0 <= i < |cs| && cs[i] != z ==> StartedBefore(cs[i], z)
    requires multiset(cs)[z] <= 1
    ensures z !in Old(cs, limit)
  {
    var sorted := SortByStart(cs);
    SortSorts(cs);
    forall i | 0 <= i < |sorted| && sorted[i] != z
      ensures StartedBefore(sorted[i], z)
    {
      assert sorted[i] in multiset(sorted);
      assert sorted[i] in cs;
    }
    forall i | 0 <= i < |sorted| - limit
      ensures sorted[i] != z
    {
      if sorted[i] == z {
        LatestIsLast(sorted, z);
        TwoCopies(sorted, i, |sorted| - 1);
      }
    }
  }

  lemma TwoCopies(cs: seq<Child>, i: nat, j: nat)
    requires i < j < |cs| && cs[i] == cs[j]
    ensures multiset(cs)[cs[i]] >= 2
  {
    assert cs == cs[..i] + [cs[i]] + cs[i + 1..j] + [cs[j]] + cs[j + 1..];
  }

  // ----- Cron and jobs composed -----

  /** now: the latest time anyone has read; started: the tick of every job ever created, in order. */
  datatype Cron = Cron(now: int, created: int, jobs: seq<Child>, started: seq<int>)

  datatype CronSpec = CronSpec(next: int -> int, deadline: Option<int>, keepSuccessful: nat, keepFailed: nat,
                               suspended: bool, jobSpec: J.Spec)

  /**
   One reconcile, ending later than all before.  A cron reconcile works on the spec and the list of children
   that it reads; the deletes of the ticks in undeleted fail, and proceeds is false if it is too late or
   creation fails for other reasons than its name.
   */
  datatype Event =
    | RunCron(at: int, spec: CronSpec, seen: seq<Child>, missed: Option<int>, undeleted: set<int>, proceeds: bool)
    | VisitJob(tick: int, visit: J.Visit)

  /** Least history limits, whether lists show all children, in whatever order, and whether every job names a claim. */
  datatype Promise = Promise(keepSuccessful: nat, keepFailed: nat, freshLists: bool, claims: bool)

  function MostRecent(cs: seq<Child>): Option<int> {
    if cs == [] then None
    else
      var m, t := MostRecent(cs[..|cs| - 1]), cs[|cs| - 1].tick;
      if m.None? || m.value < t then Some(t) else m
  }

  function TicksOf(cs: seq<Child>): set<int> { set c | c in cs :: c.tick }

  function Keep(cs: seq<Child>, gone: set<int>): seq<Child> {
    if cs == [] then []
    else Keep(cs[..|cs| - 1], gone) + if cs[|cs| - 1].tick in gone then [] else [cs[|cs| - 1]]
  }

  function Gone(cs: seq<Child>, spec: CronSpec): set<int> {
    TicksOf(Old(WithResult(cs, J.Succeeded), spec.keepSuccessful)) + TicksOf(Old(WithResult(cs, J.NotSucceeded), spec.keepFailed))
  }

  function VisitIn(cs: seq<Child>, tick: int, v: J.Visit): seq<Child> {
    if cs == [] then []
    else
      var c := cs[|cs| - 1];
      VisitIn(cs[..|cs| - 1], tick, v) + [if c.tick == tick then c.(status := J.Visited(c.spec, c.created, c.status, v)) else c]
  }

  /** missed is what GetNextSchedule returns for the children seen, which may lack some; a job's reconcile begins after its creation. */
  ghost predicate Possible(s: Cron, e: Event, p: Promise) {
    match e
    case RunCron(at, spec, seen, missed, _, _) =>
      && at > s.now && IsSchedule(spec.next) && spec.keepSuccessful >= p.keepSuccessful && spec.keepFailed >= p.keepFailed
      && (p.claims ==> spec.jobSpec.claim != "") && (if p.freshLists then multiset(seen) == multiset(s.jobs) else multiset(seen) <= multiset(s.jobs))
      && (missed.Some? ==>
            && Tick(spec.next, missed.value) && missed.value <= at && (spec.deadline.Some? ==> at - spec.deadline.value < missed.value)
            && missed.value > if MostRecent(seen).Some? then MostRecent(seen).value else s.created)
    case VisitJob(tick, v) =>
      v.end > s.now && v.begin <= v.check <= v.end && forall i :: 0 <= i < |s.jobs| && s.jobs[i].tick == tick ==> s.jobs[i].created <= v.begin
  }

  /** A job is named after its tick, so a second one for an existing tick is refused. */
  ghost function Next(s: Cron, e: Event): Cron {
    match e
    case RunCron(at, spec, seen, missed, undeleted, proceeds) =>
      var jobs := Keep(s.jobs, Gone(seen, spec) - undeleted);
      if spec.suspended || missed.None? || !proceeds || missed.value in TicksOf(jobs) || (exists i :: 0 <= i < |seen| && Active(seen[i])) then
        Cron(at, s.created, jobs, s.started)
      else
        Cron(at, s.created, jobs + [Child(missed.value, at, spec.jobSpec, J.NEW)], s.started + [missed.value])
    case VisitJob(tick, v) => Cron(v.end, s.created, VisitIn(s.jobs, tick, v), s.started)
  }

  /** A cron reconcile starts nothing but the missed tick it goes on with, unless suspended or a job is open. */
  lemma CronStarts(s: Cron, e: Event)
    requires e.RunCron? && Next(s, e).started != s.started
    ensures e.proceeds && e.missed.Some? && !e.spec.suspended && forall i :: 0 <= i < |e.seen| ==> !Active(e.seen[i])
    ensures var s' := Next(s, e);
      s'.started == s.started + [e.missed.value] && s'.jobs != [] && s'.jobs[|s'.jobs| - 1] == Child(e.missed.value, e.at, e.spec.jobSpec, J.NEW)
  {
    var jobs := Keep(s.jobs, Gone(e.seen, e.spec) - e.undeleted);
    LastOf(jobs, Child(e.missed.value, e.at, e.spec.jobSpec, J.NEW));
  }

  lemma LastOf(cs: seq<Child>, c: Child)
    ensures cs + [c] != [] && (cs + [c])[|cs + [c]| - 1] == c && c.tick in TicksOf(cs + [c])
  {
    assert c in cs + [c];
  }

  /** And it then leaves a job for that tick, its own or an earlier one. */
  lemma CronLeavesJob(s: Cron, e: Event)
    requires e.RunCron? && e.proceeds && e.missed.Some? && !e.spec.suspended && forall i :: 0 <= i < |e.seen| ==> !Active(e.seen[i])
    ensures e.missed.value in TicksOf(Next(s, e).jobs)
  {
    var jobs := Keep(s.jobs, Gone(e.seen, e.spec) - e.undeleted);
    LastOf(jobs, Child(e.missed.value, e.at, e.spec.jobSpec, J.NEW));
  }

  lemma {:induction false} MostRecentIsMax(cs: seq<Child>, m: int)
    requires cs != [] && (exists i :: 0 <= i < |cs| && cs[i].tick == m) && (forall i :: 0 <= i < |cs| ==> cs[i].tick <= m)
    ensures MostRecent(cs) == Some(m)
  {
    var n := |cs| - 1;
    MostRecentBound(cs[..n]);
    var i :| 0 <= i < |cs| && cs[i].tick == m;
    if cs[n].tick != m {
      assert cs[..n][i].tick == m;
      MostRecentIsMax(cs[..n], m);
    }
  }

  lemma {:induction false} MostRecentBound(cs: seq<Child>)
    ensures cs != [] ==> MostRecent(cs).Some? && exists i :: 0 <= i < |cs| && cs[i].tick == MostRecent(cs).value
    ensures cs == [] ==> MostRecent(cs).None?
  {
    if cs != [] {
      var n := |cs| - 1;
      MostRecentBound(cs[..n]);
      if MostRecent(cs[..n]).Some? {
        var i :| 0 <= i < n && cs[..n][i].tick == MostRecent(cs[..n]).value;
        assert cs[i].tick == MostRecent(cs[..n]).value;
      }
    }
  }

  /** m is the last missed tick, at most 100 were missed, and it is not too late to start it. */
  ghost predicate Due(last: Option<int>, created: int, spec: CronSpec, at: int, later: int, m: int) {
    var ts := set x | (if last.Some? then last.value else created) < x <= at && Tick(spec.next, x) && (spec.deadline.Some? ==> at - spec.deadline.value < x);
    m in ts && |ts| <= 100 && (forall x :: x in ts ==> x <= m) && (spec.deadline.Some? ==> m + spec.deadline.value >= later)
  }

  /** The tick to start now: the one that is due, if there is one. */
  method FindDue(last: Option<int>, created: int, spec: CronSpec, at: int, later: int) returns (due: Option<int>)
    requires IsSchedule(spec.next)
    ensures due.Some? ==> Due(last, created, spec, at, later, due.value)
    ensures due.None? ==> forall m :: !Due(last, created, spec, at, later, m)
    ensures var ts := set x | (if last.Some? then last.value else created) < x <= at && Tick(spec.next, x) && (spec.deadline.Some? ==> at - spec.deadline.value < x);
      && (due.Some? <==> 0 < |ts| <= 100 && exists m :: m in ts && (forall x :: x in ts ==> x <= m) && (spec.deadline.Some? ==> m + spec.deadline.value >= later))
      && (due.Some? ==> due.value in ts && forall x :: x in ts ==> x <= due.value)
  {
    var schedule := GetNextSchedule(spec.next, last, created, spec.deadline, at);
    if schedule.TooMany? || schedule.missed.None? {
      return None;
    }
    var missed := schedule.missed.value;
    return if spec.deadline.Some? && missed + spec.deadline.value < later then None else Some(missed);
  }

  /** The cron object with its children, as the controller reads and changes them. */
  class Controller {
    const created: int
    var now: int
    var jobs: seq<Child>
    ghost var started: seq<int>

    constructor (created: int)
      ensures View() == Cron(created, created, [], [])
    {
      this.created, now, jobs, started := created, created, [], [];
    }

    ghost function View(): Cron
      reads this
    {
      Cron(now, created, jobs, started)
    }

    /** Reconcile at time at; later is the clock when the starting deadline is checked again, seen the cached list of children. */
    method Reconcile(at: int, later: int, spec: CronSpec, seen: seq<Child>, undeleted: set<int>, createOk: bool) returns (ghost e: Event)
      requires at > now && IsSchedule(spec.next) && multiset(seen) <= multiset(jobs)
      requires forall i :: 0 <= i < |seen| && seen[i].status.result == Some(J.Succeeded) ==> seen[i].status.completion.Some?
      modifies this
      ensures e.RunCron? && e.at == at && e.spec == spec && e.seen == seen && Possible(old(View()), e, Promise(0, 0, false, false))
      ensures View() == Next(old(View()), e)
      ensures e.proceeds ==> e.missed.Some? && Due(MostRecent(seen), created, spec, at, later, e.missed.value)
      ensures e.proceeds <==> !spec.suspended && createOk && (forall i :: 0 <= i < |seen| ==> !Active(seen[i]))
                              && exists m :: Due(MostRecent(seen), created, spec, at, later, m)
    {
      var info := ParseJobList(seen);
      assert info.mostRecent == MostRecent(seen) by {
        if seen != [] { MostRecentIsMax(seen, info.mostRecent.value); }
      }
      var oldSuccessful := DeleteOldJobs(info.successful, spec.keepSuccessful);
      var oldFailed := DeleteOldJobs(info.failed, spec.keepFailed);
      now, jobs := at, Keep(jobs, TicksOf(oldSuccessful) + TicksOf(oldFailed) - undeleted);
      e := RunCron(at, spec, seen, None, undeleted, false);
      if spec.suspended {
        return;
      }
      var due := FindDue(info.mostRecent, created, spec, at, later);
      if due.None? || info.active.Some? || !createOk {
        return;
      }
      e := RunCron(at, spec, seen, due, undeleted, true);
      if due.value in TicksOf(jobs) {
        return;
      }
      jobs, started := jobs + [Child(due.value, at, spec.jobSpec, J.NEW)], started + [due.value];
    }

    /** A job's own reconcile. */
    method Visit(tick: int, v: J.Visit)
      requires v.end > now
      modifies this
      ensures View() == Next(old(View()), VisitJob(tick, v))
    {
      now, jobs := v.end, VisitIn(jobs, tick, v);
    }
  }

  /** b was created after a had finished, for a later tick. */
  predicate Succeeds(a: Child, b: Child) {
    a.tick < b.tick && !Active(a) && a.status.start.Some? && a.status.start.value < b.created
  }

  predicate Fit(c: Child, now: int) {
    && c.spec.claim != "" && J.Sound(c.spec, c.status) && c.created <= now
    && (c.status.start.Some? ==> c.created <= c.status.start.value <= now)
  }

  predicate Queue(cs: seq<Child>, now: int) {
    (forall i :: 0 <= i < |cs| ==> Fit(cs[i], now)) && (forall i, j :: 0 <= i < j < |cs| ==> Succeeds(cs[i], cs[j]))
  }

  predicate Increasing(ts: seq<int>) { forall i, j :: 0 <= i < j < |ts| ==> ts[i] < ts[j] }

  /** The most recently scheduled job survives, so the children still know the last tick. */
  predicate Inv(s: Cron) {
    && Queue(s.jobs, s.now) && Increasing(s.started)
    && (s.jobs == [] <==> s.started == [])
    && (s.jobs != [] ==> s.jobs[|s.jobs| - 1].tick == s.started[|s.started| - 1])
  }

  lemma {:induction false} KeepFacts(cs: seq<Child>, gone: set<int>, now: int)
    requires Queue(cs, now)
    ensures Queue(Keep(cs, gone), now)
    ensures forall i :: 0 <= i < |Keep(cs, gone)| ==> Keep(cs, gone)[i] in cs
    ensures cs != [] && cs[|cs| - 1].tick !in gone ==> Keep(cs, gone) != [] && Keep(cs, gone)[|Keep(cs, gone)| - 1] == cs[|cs| - 1]
  {
    if cs != [] {
      var n := |cs| - 1;
      KeepFacts(cs[..n], gone, now);
      var r := Keep(cs[..n], gone);
      forall i | 0 <= i < |r|
        ensures r[i] in cs && Succeeds(r[i], cs[n])
      {
        assert r[i] in cs[..n];
      }
    }
  }

  lemma {:induction false} WithResultFacts(cs: seq<Child>, r: J.Result)
    ensures multiset(WithResult(cs, r)) <= multiset(cs)
    ensures forall i :: 0 <= i < |WithResult(cs, r)| ==> WithResult(cs, r)[i] in cs
  {
    if cs != [] {
      var n := |cs| - 1;
      WithResultFacts(cs[..n], r);
      assert cs == cs[..n] + [cs[n]];
      var l := WithResult(cs[..n], r);
      forall i | 0 <= i < |l|
        ensures l[i] in cs
      {
        assert l[i] in cs[..n];
      }
      assert WithResult(cs, r) == if cs[n].status.result == Some(r) then l + [cs[n]] else l;
    }
  }

  /** A queue has no job twice. */
  lemma {:induction false} QueueCounts(cs: seq<Child>, z: Child, now: int)
    requires Queue(cs, now)
    ensures multiset(cs)[z] <= 1
  {
    if cs != [] {
      var n := |cs| - 1;
      QueueCounts(cs[..n], z, now);
      assert cs == cs[..n] + [cs[n]];
      if cs[n] == z {
        assert z !in cs[..n];
      }
    }
  }

  lemma SameMembers(cs: seq<Child>, seen: seq<Child>)
    requires multiset(seen) == multiset(cs)
    ensures forall c :: c in seen <==> c in cs
  {
    forall c ensures c in seen <==> c in cs {
      assert c in multiset(seen) <==> c in multiset(cs);
    }
  }

  /** The last job of the queue is not pruned, finished or not, in whatever order the jobs are listed. */
  lemma LastSurvives(cs: seq<Child>, seen: seq<Child>, spec: CronSpec, now: int)
    requires Queue(cs, now) && cs != [] && multiset(seen) == multiset(cs) && spec.keepSuccessful >= 1 && spec.keepFailed >= 1
    ensures cs[|cs| - 1].tick !in Gone(seen, spec)
  {
    LastNotOld(cs, seen, J.Succeeded, spec.keepSuccessful, now);
    LastNotOld(cs, seen, J.NotSucceeded, spec.keepFailed, now);
  }

  lemma OldOnesListed(cs: seq<Child>, limit: nat, c: Child)
    requires c in Old(cs, limit)
    ensures c in cs
  {
    assert c in SortByStart(cs);
    assert c in multiset(SortByStart(cs));
  }

  lemma TickNames(cs: seq<Child>, c: Child, z: Child, now: int)
    requires Queue(cs, now) && c in cs && z in cs && c.tick == z.tick
    ensures c == z
  {
    var i :| 0 <= i < |cs| && cs[i] == c;
    var j :| 0 <= j < |cs| && cs[j] == z;
    assert i < j ==> Succeeds(cs[i], cs[j]);
    assert j < i ==> Succeeds(cs[j], cs[i]);
  }

  lemma LastIsNewest(cs: seq<Child>, l: seq<Child>, now: int)
    requires Queue(cs, now) && cs != [] && !Active(cs[|cs| - 1]) && forall i :: 0 <= i < |l| ==> l[i] in cs
    ensures forall i :: 0 <= i < |l| && l[i] != cs[|cs| - 1] ==> StartedBefore(l[i], cs[|cs| - 1])
  {
    var z := cs[|cs| - 1];
    assert Fit(z, now);
    forall i | 0 <= i < |l| && l[i] != z
      ensures StartedBefore(l[i], z)
    {
      var k :| 0 <= k < |cs| && cs[k] == l[i];
      assert Succeeds(cs[k], z);
    }
  }

  lemma LastNotOld(cs: seq<Child>, seen: seq<Child>, r: J.Result, limit: nat, now: int)
    requires Queue(cs, now) && cs != [] && multiset(seen) == multiset(cs) && limit >= 1
    ensures cs[|cs| - 1].tick !in TicksOf(Old(WithResult(seen, r), limit))
  {
    var z, l := cs[|cs| - 1], WithResult(seen, r);
    SameMembers(cs, seen);
    WithResultFacts(seen, r);
    NoneActive(seen, r);
    QueueCounts(cs, z, now);
    if !Active(z) {
      LastIsNewest(cs, l, now);
      NewestKept(l, limit, z);
    }
    forall c | c in Old(l, limit)
      ensures c.tick != z.tick
    {
      OldOnesListed(l, limit, c);
      if c.tick == z.tick { TickNames(cs, c, z, now); }
    }
  }

  lemma {:induction false} NoneActive(cs: seq<Child>, r: J.Result)
    ensures forall i :: 0 <= i < |WithResult(cs, r)| ==> !Active(WithResult(cs, r)[i])
  {
    if cs != [] { NoneActive(cs[..|cs| - 1], r); }
  }

  lemma MostRecentIsLast(cs: seq<Child>, seen: seq<Child>, now: int)
    requires Queue(cs, now) && multiset(seen) == multiset(cs)
    ensures MostRecent(seen) == if cs == [] then None else Some(cs[|cs| - 1].tick)
  {
    SameMembers(cs, seen);
    if cs == [] {
      assert |multiset(seen)| == 0;
    } else {
      var z := cs[|cs| - 1];
      assert z in seen;
      forall i | 0 <= i < |seen|
        ensures seen[i].tick <= z.tick
      {
        assert seen[i] in cs;
        var k :| 0 <= k < |cs| && cs[k] == seen[i];
        if k < |cs| - 1 { assert Succeeds(cs[k], z); }
      }
      MostRecentIsMax(seen, z.tick);
    }
  }

  lemma {:induction false} VisitFacts(cs: seq<Child>, tick: int, v: J.Visit, now: int)
    requires Queue(cs, now)
    ensures |VisitIn(cs, tick, v)| == |cs|
    ensures forall i :: 0 <= i < |cs| ==>
      VisitIn(cs, tick, v)[i] ==
        (if cs[i].tick == tick then cs[i].(status := J.Visited(cs[i].spec, cs[i].created, cs[i].status, v)) else cs[i])
  {
    if cs != [] { VisitFacts(cs[..|cs| - 1], tick, v, now); }
  }

  lemma VisitKeepsQueue(cs: seq<Child>, tick: int, v: J.Visit, now: int)
    requires Queue(cs, now) && v.begin <= v.end && v.end > now
    requires forall i :: 0 <= i < |cs| && cs[i].tick == tick ==> cs[i].created <= v.begin
    ensures Queue(VisitIn(cs, tick, v), v.end)
    ensures |VisitIn(cs, tick, v)| == |cs| && forall i :: 0 <= i < |cs| ==> VisitIn(cs, tick, v)[i].tick == cs[i].tick
  {
    VisitFacts(cs, tick, v, now);
    var r := VisitIn(cs, tick, v);
    forall i | 0 <= i < |cs|
      ensures Fit(r[i], v.end)
    {
      J.VisitedSound(cs[i].spec, cs[i].created, cs[i].status, v);
    }
    forall i, j | 0 <= i < j < |cs|
      ensures Succeeds(r[i], r[j])
    {
      assert Succeeds(cs[i], cs[j]);
    }
  }

  /** Pruning leaves a queue with the same last job. */
  lemma PruneKeepsLast(s: Cron, seen: seq<Child>, spec: CronSpec, undeleted: set<int>, at: int)
    requires Inv(s) && multiset(seen) == multiset(s.jobs) && at > s.now && spec.keepSuccessful >= 1 && spec.keepFailed >= 1
    ensures var jobs := Keep(s.jobs, Gone(seen, spec) - undeleted);
      && Queue(jobs, at) && (jobs == [] <==> s.jobs == [])
      && (jobs != [] ==> jobs[|jobs| - 1] == s.jobs[|s.jobs| - 1])
      && forall i :: 0 <= i < |jobs| ==> jobs[i] in s.jobs
  {
    var gone := Gone(seen, spec) - undeleted;
    KeepFacts(s.jobs, gone, s.now);
    if s.jobs != [] { LastSurvives(s.jobs, seen, spec, s.now); }
    forall i | 0 <= i < |Keep(s.jobs, gone)|
      ensures Fit(Keep(s.jobs, gone)[i], at)
    {
      assert Fit(Keep(s.jobs, gone)[i], s.now);
    }
  }

  lemma Enqueue(jobs: seq<Child>, child: Child, now: int, at: int)
    requires Queue(jobs, now) && now < at && Fit(child, at) && child.created == at
    requires forall i :: 0 <= i < |jobs| ==> !Active(jobs[i])
    requires jobs != [] ==> jobs[|jobs| - 1].tick < child.tick
    ensures Queue(jobs + [child], at)
  {
    forall i | 0 <= i < |jobs|
      ensures Succeeds(jobs[i], child) && Fit(jobs[i], at)
    {
      assert Fit(jobs[i], now);
      if i < |jobs| - 1 { assert Succeeds(jobs[i], jobs[|jobs| - 1]); }
    }
  }

  const STRICT := Promise(1, 1, true, true)

  lemma StartKeepsInv(s: Cron, jobs: seq<Child>, child: Child, at: int)
    requires Inv(s) && at > s.now && Queue(jobs, at) && Fit(child, at) && child.created == at
    requires (jobs == [] <==> s.jobs == []) && (jobs != [] ==> jobs[|jobs| - 1] == s.jobs[|s.jobs| - 1])
    requires forall i :: 0 <= i < |jobs| ==> !Active(jobs[i]) && Fit(jobs[i], s.now)
    requires s.jobs != [] ==> s.jobs[|s.jobs| - 1].tick < child.tick
    ensures Inv(Cron(at, s.created, jobs + [child], s.started + [child.tick]))
  {
    assert Queue(jobs, s.now);
    Enqueue(jobs, child, s.now, at);
  }

  lemma CronKeepsInv(s: Cron, e: Event)
    requires Inv(s) && Possible(s, e, STRICT) && e.RunCron?
    ensures Inv(Next(s, e))
  {
    var jobs := Keep(s.jobs, Gone(e.seen, e.spec) - e.undeleted);
    PruneKeepsLast(s, e.seen, e.spec, e.undeleted, e.at);
    if Next(s, e).started != s.started {
      SameMembers(s.jobs, e.seen);
      MostRecentIsLast(s.jobs, e.seen, s.now);
      forall i | 0 <= i < |jobs|
        ensures !Active(jobs[i]) && Fit(jobs[i], s.now)
      {
        assert jobs[i] in e.seen;
      }
      StartKeepsInv(s, jobs, Child(e.missed.value, e.at, e.spec.jobSpec, J.NEW), e.at);
    }
  }

  lemma InvStep(s: Cron, e: Event)
    requires Inv(s) && Possible(s, e, STRICT)
    ensures Inv(Next(s, e))
  {
    match e
    case RunCron(_, _, _, _, _, _) => CronKeepsInv(s, e);
    case VisitJob(tick, v) => VisitKeepsQueue(s.jobs, tick, v, s.now);
  }

  ghost predicate Trace(s: Cron, es: seq<Event>, p: Promise)
    decreases |es|
  {
    es == [] || (Possible(s, es[0], p) && Trace(Next(s, es[0]), es[1..], p))
  }

  ghost function Run(s: Cron, es: seq<Event>): Cron
    decreases |es|
  {
    if es == [] then s else Run(Next(s, es[0]), es[1..])
  }

  lemma {:induction false} RunKeepsInv(s: Cron, es: seq<Event>)
    requires Inv(s) && Trace(s, es, STRICT)
    ensures Inv(Run(s, es))
    decreases |es|
  {
    if es != [] {
      InvStep(s, es[0]);
      RunKeepsInv(Next(s, es[0]), es[1..]);
    }
  }

  function Fresh(created: int): Cron { Cron(created, created, [], []) }

  /** Each created job's tick exceeds all earlier ones, at most one child is active, and completion times can be read. */
  ghost predicate Orderly(s: Cron) {
    && Increasing(s.started)
    && (forall i, j :: 0 <= i < j < |s.jobs| ==> !(Active(s.jobs[i]) && Active(s.jobs[j])))
    && (forall i :: 0 <= i < |s.jobs| && s.jobs[i].status.result == Some(J.Succeeded) ==> s.jobs[i].status.completion.Some?)
  }

  /** In every run with complete lists that keeps some history, whatever else changes in the spec, no tick is started twice. */
  lemma TicksStartOnce(created: int, es: seq<Event>)
    requires Trace(Fresh(created), es, STRICT)
    ensures Orderly(Run(Fresh(created), es))
  {
    RunKeepsInv(Fresh(created), es);
    var s := Run(Fresh(created), es);
    assert forall i, j :: 0 <= i < j < |s.jobs| ==> Succeeds(s.jobs[i], s.jobs[j]);
    assert forall i :: 0 <= i < |s.jobs| ==> Fit(s.jobs[i], s.now);
  }

  // ----- The history limits -----

  lemma {:induction false} KeepCounts(cs: seq<Child>, gone: set<int>)
    ensures forall c :: multiset(Keep(cs, gone))[c] == if c.tick in gone then 0 else multiset(cs)[c]
  {
    if cs != [] {
      var n := |cs| - 1;
      KeepCounts(cs[..n], gone);
      assert cs == cs[..n] + [cs[n]];
    }
  }

  function Limit(spec: CronSpec, r: J.Result): nat { if r.Succeeded? then spec.keepSuccessful else spec.keepFailed }

  /** A finished job of a queue is pruned exactly if it is one of the old ones with its result. */
  lemma GoneMeansOld(cs: seq<Child>, seen: seq<Child>, spec: CronSpec, c: Child, r: J.Result, now: int)
    requires Queue(cs, now) && multiset(seen) == multiset(cs) && c in cs && c.status.result == Some(r)
    ensures c.tick in Gone(seen, spec) <==> c in Old(WithResult(seen, r), Limit(spec, r))
  {
    SameMembers(cs, seen);
    forall r', limit: nat, z | z in Old(WithResult(seen, r'), limit) && z.tick == c.tick
      ensures z == c && r' == r
    {
      OldOnesListed(WithResult(seen, r'), limit, z);
      WithResultFacts(seen, r');
      CountWithResult(seen, r');
      assert multiset(WithResult(seen, r'))[z] > 0;
      TickNames(cs, c, z, now);
    }
  }

  lemma KeptOnce(cs: seq<Child>, seen: seq<Child>, spec: CronSpec, r: J.Result, c: Child, now: int)
    requires Queue(cs, now) && multiset(seen) == multiset(cs)
    ensures var l := WithResult(seen, r);
      multiset(l)[c] == multiset(WithResult(Keep(cs, Gone(seen, spec)), r))[c] + multiset(Old(l, Limit(spec, r)))[c]
  {
    var l := WithResult(seen, r);
    CountWithResult(seen, r);
    CountWithResult(Keep(cs, Gone(seen, spec)), r);
    KeepCounts(cs, Gone(seen, spec));
    OldCount(l, Limit(spec, r));
    QueueCounts(cs, c, now);
    if c in multiset(cs) && c.status.result == Some(r) { GoneMeansOld(cs, seen, spec, c, r, now); }
  }

  lemma Split(l: seq<Child>, a: seq<Child>, b: seq<Child>)
    requires forall c :: multiset(l)[c] == multiset(a)[c] + multiset(b)[c]
    ensures |l| == |a| + |b|
  {
    assert multiset(l) == multiset(a) + multiset(b);
    assert |multiset(l)| == |l| && |multiset(a)| == |a| && |multiset(b)| == |b|;
  }

  lemma LimitsHold(cs: seq<Child>, seen: seq<Child>, spec: CronSpec, r: J.Result, now: int)
    requires Queue(cs, now) && multiset(seen) == multiset(cs)
    ensures var n := |WithResult(cs, r)|;
      |WithResult(Keep(cs, Gone(seen, spec)), r)| == if n <= Limit(spec, r) then n else Limit(spec, r)
  {
    var l, kept := WithResult(seen, r), WithResult(Keep(cs, Gone(seen, spec)), r);
    forall c ensures multiset(l)[c] == multiset(kept)[c] + multiset(Old(l, Limit(spec, r)))[c] {
      KeptOnce(cs, seen, spec, r, c, now);
    }
    OldCount(l, Limit(spec, r));
    Split(l, kept, Old(l, Limit(spec, r)));
    SameLength(cs, seen, r);
  }

  lemma SameLength(cs: seq<Child>, seen: seq<Child>, r: J.Result)
    requires multiset(seen) == multiset(cs)
    ensures |WithResult(seen, r)| == |WithResult(cs, r)|
  {
    CountWithResult(cs, r);
    CountWithResult(seen, r);
    assert multiset(WithResult(cs, r)) == multiset(WithResult(seen, r));
    assert |multiset(WithResult(cs, r))| == |multiset(WithResult(seen, r))|;
  }

  /**
   In every run, a cron reconcile whose deletes succeed leaves as many finished jobs as the limits allow, no more
   and no less, and loses no open job.
   */
  lemma HistoryLimits(created: int, es: seq<Event>, e: Event)
    requires Trace(Fresh(created), es, STRICT) && e.RunCron? && Possible(Run(Fresh(created), es), e, STRICT) && e.undeleted == {}
    ensures var s := Run(Fresh(created), es);
      var n, m := |WithResult(s.jobs, J.Succeeded)|, |WithResult(s.jobs, J.NotSucceeded)|;
      && |WithResult(Next(s, e).jobs, J.Succeeded)| == (if n <= e.spec.keepSuccessful then n else e.spec.keepSuccessful)
      && |WithResult(Next(s, e).jobs, J.NotSucceeded)| == (if m <= e.spec.keepFailed then m else e.spec.keepFailed)
      && forall c :: c in s.jobs && Active(c) ==> c in Next(s, e).jobs
  {
    var s := Run(Fresh(created), es);
    RunKeepsInv(Fresh(created), es);
    LimitsHold(s.jobs, e.seen, e.spec, J.Succeeded, s.now);
    LimitsHold(s.jobs, e.seen, e.spec, J.NotSucceeded, s.now);
    NextEnded(s, e);
    forall c | c in s.jobs && Active(c)
      ensures c in Keep(s.jobs, Gone(e.seen, e.spec))
    {
      OpenKept(s.jobs, e.seen, e.spec, c, s.now);
    }
  }

  /** A new job has not ended. */
  lemma NextEnded(s: Cron, e: Event)
    requires e.RunCron? && e.undeleted == {}
    ensures forall r :: WithResult(Next(s, e).jobs, r) == WithResult(Keep(s.jobs, Gone(e.seen, e.spec)), r)
    ensures forall c :: c in Keep(s.jobs, Gone(e.seen, e.spec)) ==> c in Next(s, e).jobs
  {
    var kept := Keep(s.jobs, Gone(e.seen, e.spec));
    assert Gone(e.seen, e.spec) - {} == Gone(e.seen, e.spec);
    if Next(s, e).jobs != kept {
      var child := Child(e.missed.value, e.at, e.spec.jobSpec, J.NEW);
      assert Next(s, e).jobs == kept + [child] && (kept + [child])[..|kept|] == kept;
    }
  }

  lemma OpenKept(cs: seq<Child>, seen: seq<Child>, spec: CronSpec, c: Child, now: int)
    requires Queue(cs, now) && multiset(seen) == multiset(cs) && c in cs && Active(c)
    ensures c in Keep(cs, Gone(seen, spec))
  {
    SameMembers(cs, seen);
    forall r, limit: nat, z | z in Old(WithResult(seen, r), limit)
      ensures z.tick != c.tick
    {
      OldOnesListed(WithResult(seen, r), limit, z);
      WithResultFacts(seen, r);
      NoneActive(seen, r);
      if z.tick == c.tick { TickNames(cs, c, z, now); }
    }
    KeepCounts(cs, Gone(seen, spec));
    assert multiset(Keep(cs, Gone(seen, spec)))[c] > 0;
  }
}
