/**
 What the reclaim-space scheduler must be promised: runs that break each promise, and the exact condition.
 */
module ReclaimSpaceRuns {
  import opened Wrappers
  import opened CronSchedule
  import opened ReclaimSpaceCron
  import J = ReclaimSpaceJob

  // ----- Runs that break each promise -----

  /** A tick every ten. */
  function Tens(t: int): int { 10 * (t / 10 + 1) }

  lemma TensIsSchedule()
    ensures IsSchedule(Tens)
  {
    forall t ensures LeadsOn(Tens, t) {
      forall u | t <= u < Tens(t) ensures Tens(u) == Tens(t) { assert u / 10 == t / 10; }
    }
  }

  /** A job with one second to succeed. */
  const JOB := J.Spec("claim", 0, 1)

  function Keeping(p: Promise): CronSpec { CronSpec(Tens, None, p.keepSuccessful, p.keepFailed, false, JOB) }

  function Start(p: Promise, at: int, tick: int): Event { RunCron(at, Keeping(p), [], Some(tick), {}, true) }

  lemma StartPossible(s: Cron, p: Promise, at: int, tick: int)
    requires s.created == 0 && s.now < at && (tick == 10 || tick == 20) && tick <= at && (p.freshLists ==> s.jobs == [])
    ensures Possible(s, Start(p, at, tick), p)
  {
    TensIsSchedule();
    assert Tick(Tens, 10) && Tick(Tens, 20) && MostRecent([]) == None;
  }

  lemma StartCreates(s: Cron, p: Promise, at: int, tick: int)
    requires s.created == 0 && tick !in TicksOf(s.jobs)
    ensures Next(s, Start(p, at, tick)) == Cron(at, 0, s.jobs + [Child(tick, at, JOB, J.NEW)], s.started + [tick])
  {
    NothingGone(p);
    KeepAll(s.jobs);
  }

  lemma NothingGone(p: Promise)
    ensures Gone([], Keeping(p)) - {} == {}
  {
    assert SortByStart([]) == [];
  }

  lemma {:induction false} KeepAll(cs: seq<Child>)
    ensures Keep(cs, {}) == cs
  {
    if cs != [] { KeepAll(cs[..|cs| - 1]); }
  }

  lemma Goes(s: Cron, e: Event, es: seq<Event>, p: Promise)
    requires Possible(s, e, p) && Trace(Next(s, e), es, p)
    ensures Trace(s, [e] + es, p) && Run(s, [e] + es) == Run(Next(s, e), es)
  {
    assert ([e] + es)[1..] == es;
  }

  /** In time the attempt works; a second later the job fails. */
  function FirstVisit(works: bool): J.Visit { if works then J.Visit(13, 13, 13, true) else J.Visit(14, 14, 14, true) }

  function Finished(works: bool): Child {
    var v := FirstVisit(works);
    Child(10, 12, JOB, J.Status(Some(if works then J.Succeeded else J.NotSucceeded), Some(v.begin), Some(v.end), 0))
  }

  lemma JobRuns(works: bool, p: Promise)
    ensures Possible(Cron(12, 0, [Child(10, 12, JOB, J.NEW)], [10]), VisitJob(10, FirstVisit(works)), p)
    ensures Next(Cron(12, 0, [Child(10, 12, JOB, J.NEW)], [10]), VisitJob(10, FirstVisit(works)))
            == Cron(FirstVisit(works).end, 0, [Finished(works)], [10])
  {
    var one := Child(10, 12, JOB, J.NEW);
    assert |JOB.claim| == 5;
    assert J.Visited(JOB, 12, J.NEW, FirstVisit(works)) == Finished(works).status;
    assert [one][..0] == [] && VisitIn([], 10, FirstVisit(works)) == [];
  }

  function Prune(p: Promise, works: bool): Event { RunCron(15, Keeping(p), [Finished(works)], None, {}, true) }

  lemma JobForgotten(works: bool, p: Promise, s: Cron)
    requires s == Cron(FirstVisit(works).end, 0, [Finished(works)], [10])
    requires if works then p.keepSuccessful == 0 else p.keepFailed == 0
    ensures Possible(s, Prune(p, works), p) && Next(s, Prune(p, works)) == Cron(15, 0, [], [10])
  {
    TensIsSchedule();
    SingleForgotten(Finished(works), Keeping(p));
  }

  lemma SingleForgotten(c: Child, spec: CronSpec)
    requires (c.status.result == Some(J.Succeeded) && spec.keepSuccessful == 0) || (c.status.result == Some(J.NotSucceeded) && spec.keepFailed == 0)
    ensures Keep([c], Gone([c], spec) - {}) == []
  {
    assert [c][..0] == [] && [c][1..] == [];
    assert WithResult([c], c.status.result.value) == [c];
    assert SortByStart([c]) == [c];
    assert c in Old([c], 0);
    assert c.tick in Gone([c], spec);
  }

  /** A job runs and finishes, is pruned with the memory of its tick, and the tick is started again: successful or not. */
  lemma ForgottenTickRuns(works: bool, p: Promise) returns (es: seq<Event>)
    requires if works then p.keepSuccessful == 0 else p.keepFailed == 0
    ensures Trace(Fresh(0), es, p) && Run(Fresh(0), es).started == [10, 10]
  {
    var s := Cron(15, 0, [], [10]);
    StartPossible(s, p, 16, 10);
    StartCreates(s, p, 16, 10);
    Goes(s, Start(p, 16, 10), [], p);
    es := [Start(p, 16, 10)] + [];
    var u := Cron(FirstVisit(works).end, 0, [Finished(works)], [10]);
    JobForgotten(works, p, u);
    Goes(u, Prune(p, works), es, p);
    es := [Prune(p, works)] + es;
    es := FirstJob(works, p, u, es);
  }

  lemma FirstJob(works: bool, p: Promise, u: Cron, rest: seq<Event>) returns (es: seq<Event>)
    requires u == Cron(FirstVisit(works).end, 0, [Finished(works)], [10]) && Trace(u, rest, p)
    ensures Trace(Fresh(0), es, p) && Run(Fresh(0), es) == Run(u, rest)
  {
    JobRuns(works, p);
    var t := Cron(12, 0, [Child(10, 12, JOB, J.NEW)], [10]);
    Goes(t, VisitJob(10, FirstVisit(works)), rest, p);
    es := [VisitJob(10, FirstVisit(works))] + rest;
    StartPossible(Fresh(0), p, 12, 10);
    StartCreates(Fresh(0), p, 12, 10);
    assert Next(Fresh(0), Start(p, 12, 10)) == t;
    Goes(Fresh(0), Start(p, 12, 10), es, p);
    es := [Start(p, 12, 10)] + es;
  }

  /** A list that lacks the running job lets the next tick start beside it. */
  lemma HiddenJobRuns(p: Promise) returns (es: seq<Event>)
    requires !p.freshLists
    ensures Trace(Fresh(0), es, p) && |Run(Fresh(0), es).jobs| == 2 && Active(Run(Fresh(0), es).jobs[0]) && Active(Run(Fresh(0), es).jobs[1])
  {
    var one, two := Child(10, 12, JOB, J.NEW), Child(20, 22, JOB, J.NEW);
    var t := Cron(12, 0, [one], [10]);
    StartPossible(t, p, 22, 20);
    StartCreates(t, p, 22, 20);
    Goes(t, Start(p, 22, 20), [], p);
    es := [Start(p, 22, 20)] + [];
    assert Run(t, es) == Cron(22, 0, [one] + [two], [10] + [20]);
    StartPossible(Fresh(0), p, 12, 10);
    StartCreates(Fresh(0), p, 12, 10);
    assert Next(Fresh(0), Start(p, 12, 10)) == t;
    Goes(Fresh(0), Start(p, 12, 10), es, p);
    es := [Start(p, 12, 10)] + es;
  }

  // ----- Jobs without a claim fail before they have a start time -----

  function Nameless(p: Promise): CronSpec { CronSpec(Tens, None, p.keepSuccessful, p.keepFailed, false, J.Spec("", 0, 0)) }

  function Lost(i: nat): Child { Child(10 * i, 10 * i + 2, J.Spec("", 0, 0), J.Status(Some(J.NotSucceeded), None, Some(10 * i + 3), 0)) }

  function Losts(n: nat): seq<Child> { seq(n, i requires 0 <= i < n => Lost(i + 1)) }

  function LostTicks(n: nat): seq<int> { seq(n, i => 10 * (i + 1)) }

  lemma LostsMore(n: nat)
    ensures Losts(n + 1) == Losts(n) + [Lost(n + 1)] && LostTicks(n + 1) == LostTicks(n) + [10 * (n + 1)]
  {
  }

  /** n jobs were created and failed at once. */
  function AllLost(n: nat): Cron { Cron(if n == 0 then 0 else 10 * n + 3, 0, Losts(n), LostTicks(n)) }

  function Relist(p: Promise, at: int, seen: seq<Child>, missed: Option<int>): Event { RunCron(at, Nameless(p), seen, missed, {}, true) }

  predicate Unstarted(cs: seq<Child>) {
    forall i :: 0 <= i < |cs| ==> cs[i].status.start.None? && cs[i].status.result == Some(J.NotSucceeded)
  }

  lemma {:induction false} UnstartedFail(cs: seq<Child>)
    requires Unstarted(cs)
    ensures WithResult(cs, J.NotSucceeded) == cs && WithResult(cs, J.Succeeded) == []
  {
    if cs != [] {
      UnstartedFail(cs[..|cs| - 1]);
      assert cs == cs[..|cs| - 1] + [cs[|cs| - 1]];
    }
  }

  lemma {:induction false} UnstartedSorted(cs: seq<Child>)
    requires Unstarted(cs)
    ensures SortByStart(cs) == cs
  {
    if cs != [] { UnstartedSorted(cs[1..]); }
  }

  lemma UnstartedGone(cs: seq<Child>, p: Promise)
    requires Unstarted(cs)
    ensures Gone(cs, Nameless(p)) == TicksOf(if |cs| <= p.keepFailed then [] else cs[..|cs| - p.keepFailed])
  {
    UnstartedFail(cs);
    UnstartedSorted(cs);
    assert SortByStart([]) == [];
  }

  lemma LostRecent(n: nat)
    ensures MostRecent(Losts(n)) == if n == 0 then None else Some(10 * n)
  {
    if n > 0 {
      assert Losts(n)[n - 1].tick == 10 * n;
      MostRecentIsMax(Losts(n), 10 * n);
    }
  }

  lemma TensTick(n: nat)
    ensures Tick(Tens, 10 * (n + 1))
  {
    assert (10 * (n + 1) - 1) / 10 == n;
  }

  lemma NextLostPossible(n: nat, p: Promise, s: Cron, at: int)
    requires !p.claims && s.created == 0 && s.jobs == Losts(n) && s.now < at && 10 * (n + 1) <= at
    ensures Possible(s, Relist(p, at, Losts(n), Some(10 * (n + 1))), p)
  {
    TensIsSchedule();
    TensTick(n);
    LostRecent(n);
  }

  /** A tick with unstarted jobs listed, not too many to keep them. */
  lemma NextLost(cs: seq<Child>, tick: int, p: Promise, s: Cron, at: int)
    requires Unstarted(cs) && |cs| <= p.keepFailed && s.created == 0 && s.jobs == cs && forall i :: 0 <= i < |cs| ==> cs[i].tick != tick
    ensures Next(s, Relist(p, at, cs, Some(tick))) == Cron(at, 0, cs + [Child(tick, at, J.Spec("", 0, 0), J.NEW)], s.started + [tick])
  {
    UnstartedGone(cs, p);
    assert Gone(cs, Nameless(p)) - {} == {};
    KeepAll(cs);
    assert tick !in TicksOf(cs);
  }

  function NewLost(n: nat, at: int): Child { Child(10 * (n + 1), at, J.Spec("", 0, 0), J.NEW) }

  lemma LostCreated(n: nat, p: Promise, s: Cron, at: int) returns (create: Event)
    requires !p.claims && n <= p.keepFailed && s.created == 0 && s.jobs == Losts(n) && s.now < at && 10 * (n + 1) <= at
    ensures Possible(s, create, p) && Next(s, create) == Cron(at, 0, Losts(n) + [NewLost(n, at)], s.started + [10 * (n + 1)])
  {
    create := Relist(p, at, Losts(n), Some(10 * (n + 1)));
    NextLostPossible(n, p, s, at);
    NextLost(Losts(n), 10 * (n + 1), p, s, at);
  }

  lemma LostVisit(n: nat, p: Promise, s: Cron) returns (e: Event)
    requires s.now == 10 * n + 12 && s.created == 0 && s.jobs == Losts(n) + [NewLost(n, 10 * n + 12)]
    ensures Possible(s, e, p) && Next(s, e) == Cron(10 * n + 13, 0, Losts(n + 1), s.started)
  {
    var v := J.Visit(10 * n + 13, 10 * n + 13, 10 * n + 13, true);
    e := VisitJob(10 * (n + 1), v);
    OthersUnvisited(Losts(n), 10 * (n + 1), v);
    LostsMore(n);
    assert s.jobs[..n] == Losts(n);
    assert VisitIn(s.jobs, 10 * (n + 1), v) == Losts(n) + [Lost(n + 1)];
  }

  lemma {:induction false} OthersUnvisited(cs: seq<Child>, tick: int, v: J.Visit)
    requires forall i :: 0 <= i < |cs| ==> cs[i].tick != tick
    ensures VisitIn(cs, tick, v) == cs
  {
    if cs != [] {
      OthersUnvisited(cs[..|cs| - 1], tick, v);
      assert cs == cs[..|cs| - 1] + [cs[|cs| - 1]];
    }
  }

  lemma {:induction false} KeepsOthers(cs: seq<Child>, tick: int)
    requires forall i :: 0 <= i < |cs| ==> cs[i].tick != tick
    ensures Keep(cs, {tick}) == cs
  {
    if cs != [] {
      KeepsOthers(cs[..|cs| - 1], tick);
      assert cs == cs[..|cs| - 1] + [cs[|cs| - 1]];
    }
  }

  function NewestFirst(k: nat): seq<Child> { [Lost(k + 1)] + Losts(k) }

  lemma NewestGone(p: Promise)
    ensures Gone(NewestFirst(p.keepFailed), Nameless(p)) - {} == {10 * (p.keepFailed + 1)}
  {
    var seen := NewestFirst(p.keepFailed);
    UnstartedGone(seen, p);
    assert seen[..1] == [Lost(p.keepFailed + 1)];
    assert Lost(p.keepFailed + 1) in seen[..1];
  }

  lemma OthersKept(k: nat)
    ensures Keep(Losts(k + 1), {10 * (k + 1)}) == Losts(k)
  {
    assert Losts(k + 1)[..k] == Losts(k);
    KeepsOthers(Losts(k), 10 * (k + 1));
  }

  lemma NewestFirstPossible(p: Promise, at: int)
    requires !p.claims && at > AllLost(p.keepFailed + 1).now
    ensures Possible(AllLost(p.keepFailed + 1), Relist(p, at, NewestFirst(p.keepFailed), None), p)
  {
    TensIsSchedule();
    LostsMore(p.keepFailed);
    assert multiset(NewestFirst(p.keepFailed)) == multiset(Losts(p.keepFailed + 1));
  }

  /** A list that happens to begin with the newest job has it pruned. */
  lemma NewestPruned(p: Promise, at: int)
    ensures Next(AllLost(p.keepFailed + 1), Relist(p, at, NewestFirst(p.keepFailed), None))
            == Cron(at, 0, Losts(p.keepFailed), LostTicks(p.keepFailed + 1))
  {
    NewestGone(p);
    OthersKept(p.keepFailed);
  }

  predicate Repeats(ts: seq<int>) { |ts| >= 2 && ts[|ts| - 2] == ts[|ts| - 1] }

  lemma LostPruned(p: Promise) returns (prune: Event)
    requires !p.claims
    ensures Possible(AllLost(p.keepFailed + 1), prune, p)
    ensures Next(AllLost(p.keepFailed + 1), prune) == Cron(10 * p.keepFailed + 14, 0, Losts(p.keepFailed), LostTicks(p.keepFailed + 1))
  {
    prune := Relist(p, 10 * p.keepFailed + 14, NewestFirst(p.keepFailed), None);
    NewestFirstPossible(p, 10 * p.keepFailed + 14);
    NewestPruned(p, 10 * p.keepFailed + 14);
  }

  /** Some run from s starts a tick twice in a row. */
  ghost predicate CanRepeat(s: Cron, p: Promise) { exists es: seq<Event> :: Trace(s, es, p) && Repeats(Run(s, es).started) }

  lemma GoesTwice(s: Cron, e: Event, u: Cron, f: Event, w: Cron, p: Promise)
    requires Possible(s, e, p) && Next(s, e) == u && Possible(u, f, p) && Next(u, f) == w && CanRepeat(w, p)
    ensures CanRepeat(s, p)
  {
    var es: seq<Event> :| Trace(w, es, p) && Repeats(Run(w, es).started);
    Goes(u, f, es, p);
    Goes(s, e, [f] + es, p);
  }

  lemma Repeated(s: Cron, p: Promise)
    requires Repeats(s.started)
    ensures CanRepeat(s, p)
  {
    assert Trace(s, [], p) && Run(s, []) == s;
  }

  lemma LastLostRuns(p: Promise)
    requires !p.claims
    ensures CanRepeat(AllLost(p.keepFailed + 1), p)
  {
    var prune := LostPruned(p);
    var u := Cron(10 * p.keepFailed + 14, 0, Losts(p.keepFailed), LostTicks(p.keepFailed + 1));
    var again := LostCreated(p.keepFailed, p, u, 10 * p.keepFailed + 15);
    var w := Next(u, again);
    Repeated(w, p);
    GoesTwice(AllLost(p.keepFailed + 1), prune, u, again, w, p);
  }

  lemma OneMoreSteps(n: nat, p: Promise) returns (create: Event, u: Cron, visit: Event)
    requires !p.claims && n <= p.keepFailed
    ensures Possible(AllLost(n), create, p) && Next(AllLost(n), create) == u && Possible(u, visit, p) && Next(u, visit) == AllLost(n + 1)
  {
    create := LostCreated(n, p, AllLost(n), 10 * n + 12);
    u := Cron(10 * n + 12, 0, Losts(n) + [NewLost(n, 10 * n + 12)], LostTicks(n) + [10 * (n + 1)]);
    visit := LostVisit(n, p, u);
    LostsMore(n);
  }

  lemma OneMoreLost(n: nat, p: Promise)
    requires !p.claims && n <= p.keepFailed && CanRepeat(AllLost(n + 1), p)
    ensures CanRepeat(AllLost(n), p)
  {
    var create, u, visit := OneMoreSteps(n, p);
    GoesTwice(AllLost(n), create, u, visit, AllLost(n + 1), p);
  }

  /** Jobs without a claim pile up until the newest is pruned, and its tick is started again. */
  lemma {:induction false} LostRuns(n: nat, p: Promise)
    requires !p.claims && n <= p.keepFailed + 1
    ensures CanRepeat(AllLost(n), p)
    decreases p.keepFailed + 1 - n
  {
    if n == p.keepFailed + 1 {
      LastLostRuns(p);
    } else {
      LostRuns(n + 1, p);
      OneMoreLost(n, p);
    }
  }

  ghost predicate AlwaysOrderly(p: Promise) {
    forall created: int, es: seq<Event> :: Trace(Fresh(created), es, p) ==> Orderly(Run(Fresh(created), es))
  }

  /** The scheduler is orderly in every run exactly if neither history limit is ever 0, lists show all children, and every job names a claim. */
  lemma HistoryCondition(p: Promise)
    ensures AlwaysOrderly(p) <==> p.keepSuccessful >= 1 && p.keepFailed >= 1 && p.freshLists && p.claims
  {
    if p.keepSuccessful >= 1 && p.keepFailed >= 1 && p.freshLists && p.claims {
      forall created: int, es: seq<Event> | Trace(Fresh(created), es, p)
        ensures Orderly(Run(Fresh(created), es))
      {
        TraceWeakens(Fresh(created), es, p);
        TicksStartOnce(created, es);
      }
    } else {
      Disorder(p);
    }
  }

  lemma Disorder(p: Promise)
    requires p.keepSuccessful == 0 || p.keepFailed == 0 || !p.freshLists || !p.claims
    ensures !AlwaysOrderly(p)
  {
    if !p.claims {
      LostRuns(0, p);
      assert AllLost(0) == Fresh(0);
      var es: seq<Event> :| Trace(Fresh(0), es, p) && Repeats(Run(Fresh(0), es).started);
      assert Trace(Fresh(0), es, p) && !Orderly(Run(Fresh(0), es));
    } else if p.freshLists {
      var es := ForgottenTickRuns(p.keepSuccessful == 0, p);
      var ts := Run(Fresh(0), es).started;
      assert ts[0] == ts[1];
      assert Trace(Fresh(0), es, p) && !Orderly(Run(Fresh(0), es));
    } else {
      var es := HiddenJobRuns(p);
      assert Trace(Fresh(0), es, p) && !Orderly(Run(Fresh(0), es));
    }
  }

  lemma {:induction false} TraceWeakens(s: Cron, es: seq<Event>, p: Promise)
    requires p.keepSuccessful >= 1 && p.keepFailed >= 1 && p.freshLists && p.claims && Trace(s, es, p)
    ensures Trace(s, es, STRICT)
    decreases |es|
  {
    if es != [] { TraceWeakens(Next(s, es[0]), es[1..], p); }
  }
}
