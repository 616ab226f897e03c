/**
 The volume-condition reporter: a cache of the last condition of each volume decides what is reported.
 */
module ConditionReporter {
  import opened Wrappers

  datatype Condition = Condition(healthy: bool, message: string)

  /** A listed volume with the driver's answer; None when the driver fails or returns no condition. */
  datatype Volume = Volume(driver: string, id: string, answer: Option<Condition>)

  // ----- What should be reported -----

  datatype Event = Observed(id: string, condition: Condition) | Listed(ids: set<string>)

  /** What happens to one volume: it is seen in a condition, or a tick's list lacks it. */
  datatype Mark = Seen(condition: Condition) | Gap

  function Ids(vs: seq<Volume>): set<string> { set v | v in vs :: v.id }

  function Observations(driver: string, vs: seq<Volume>): seq<Event> {
    if vs == [] then []
    else
      var v := vs[|vs| - 1];
      Observations(driver, vs[..|vs| - 1]) + if v.driver == driver && v.answer.Some? then [Observed(v.id, v.answer.value)] else []
  }

  function History(driver: string, ticks: seq<seq<Volume>>): seq<Event> {
    if ticks == [] then []
    else
      var vs := ticks[|ticks| - 1];
      History(driver, ticks[..|ticks| - 1]) + Observations(driver, vs) + [Listed(Ids(vs))]
  }

  /** The observations of a list are its entries with this driver and an answer, all of them, in order: at says which. */
  lemma {:induction false} ObservedInOrder(driver: string, vs: seq<Volume>) returns (at: seq<nat>)
    ensures |at| == |Observations(driver, vs)| && forall j, k :: 0 <= j < k < |at| ==> at[j] < at[k]
    ensures forall j :: 0 <= j < |at| ==>
      && at[j] < |vs| && vs[at[j]].driver == driver && vs[at[j]].answer.Some?
      && Observations(driver, vs)[j] == Observed(vs[at[j]].id, vs[at[j]].answer.value)
    ensures forall i :: 0 <= i < |vs| && vs[i].driver == driver && vs[i].answer.Some? ==> i in at
  {
    if vs == [] {
      at := [];
    } else {
      var n := |vs| - 1;
      var at' := ObservedInOrder(driver, vs[..n]);
      at := at' + if vs[n].driver == driver && vs[n].answer.Some? then [n] else [];
      forall i | 0 <= i < |vs| && vs[i].driver == driver && vs[i].answer.Some?
        ensures i in at
      {
        if i < n { assert vs[..n][i] == vs[i] && i in at'; } else { assert at[|at'|] == i; }
      }
    }
  }

  /** The history of some ticks goes on, whatever follows, with the observations of the next list and then the list. */
  lemma {:induction false} HistoryByTicks(driver: string, ticks: seq<seq<Volume>>, t: nat)
    requires t < |ticks|
    ensures History(driver, ticks[..t]) + Observations(driver, ticks[t]) + [Listed(Ids(ticks[t]))] <= History(driver, ticks)
    decreases |ticks|
  {
    var n := |ticks| - 1;
    if t < n {
      assert ticks[..n][..t] == ticks[..t];
      HistoryByTicks(driver, ticks[..n], t);
    }
  }

  function MarkOf(e: Event, id: string): seq<Mark> {
    match e
    case Observed(i, c) => if i == id then [Seen(c)] else []
    case Listed(ids) => if id in ids then [] else [Gap]
  }

  function Stream(es: seq<Event>, id: string): seq<Mark> {
    if es == [] then [] else Stream(es[..|es| - 1], id) + MarkOf(es[|es| - 1], id)
  }

  /** The conditions seen, without those that repeat the mark before them. */
  function Reports(ms: seq<Mark>): seq<Condition> {
    if ms == [] then []
    else
      var n := |ms| - 1;
      Reports(ms[..n]) + if ms[n].Seen? && (n == 0 || ms[n - 1] != ms[n]) then [ms[n].condition] else []
  }

  function Latest(ms: seq<Mark>): Option<Condition> {
    if ms == [] || ms[|ms| - 1].Gap? then None else Some(ms[|ms| - 1].condition)
  }

  /** Nothing is lost: a volume's last report is the condition it was last seen in. */
  lemma {:induction false} LatestIsReported(ms: seq<Mark>)
    requires Latest(ms).Some?
    ensures Reports(ms) != [] && Reports(ms)[|Reports(ms)| - 1] == Latest(ms).value
  {
    var n := |ms| - 1;
    if n > 0 && ms[n - 1] == ms[n] { LatestIsReported(ms[..n]); }
  }

  /** Nothing is noise: while no list lacks a volume its consecutive reports differ. */
  lemma {:induction false} ReportsDiffer(ms: seq<Mark>, i: nat)
    requires Gap !in ms && i + 1 < |Reports(ms)|
    ensures Reports(ms)[i] != Reports(ms)[i + 1]
  {
    var n := |ms| - 1;
    var r := Reports(ms[..n]);
    if i + 1 < |r| {
      ReportsDiffer(ms[..n], i);
    } else {
      assert n > 0 && ms[n - 1] in ms;
      LatestIsReported(ms[..n]);
    }
  }

  /** A repeat is never reported again, and a report only ever adds to the earlier ones. */
  lemma ReportsSnoc(ms: seq<Mark>, m: Mark)
    ensures Reports(ms + [m]) == Reports(ms) + if m.Seen? && Latest(ms) != Some(m.condition) then [m.condition] else []
  {
    assert (ms + [m])[..|ms|] == ms;
  }

  lemma StreamSnoc(es: seq<Event>, e: Event, id: string)
    ensures Stream(es + [e], id) == Stream(es, id) + MarkOf(e, id)
  {
    assert (es + [e])[..|es|] == es;
  }

  // ----- What is reported -----

  datatype Report = Report(id: string, condition: Condition)

  function ReportsOf(log: seq<Report>, id: string): seq<Condition> {
    if log == [] then []
    else ReportsOf(log[..|log| - 1], id) + if log[|log| - 1].id == id then [log[|log| - 1].condition] else []
  }

  lemma ReportsOfSnoc(log: seq<Report>, r: Report, id: string)
    ensures ReportsOf(log + [r], id) == ReportsOf(log, id) + if r.id == id then [r.condition] else []
  {
    assert (log + [r])[..|log|] == log;
  }

  /** c is the last that was reported of the volume. */
  ghost predicate LastReport(log: seq<Report>, id: string, c: Condition) {
    exists k :: 0 <= k < |log| && log[k] == Report(id, c) && forall j :: k < j < |log| ==> log[j].id != id
  }

  lemma {:induction false} LastOfReports(log: seq<Report>, id: string)
    requires ReportsOf(log, id) != []
    ensures LastReport(log, id, ReportsOf(log, id)[|ReportsOf(log, id)| - 1])
  {
    var n := |log| - 1;
    if log[n].id == id {
      assert log[n] == Report(id, log[n].condition);
    } else {
      LastOfReports(log[..n], id);
      var c := ReportsOf(log, id)[|ReportsOf(log, id)| - 1];
      var k :| 0 <= k < n && log[..n][k] == Report(id, c) && forall j :: k < j < n ==> log[..n][j].id != id;
      assert log[k] == Report(id, c);
      forall j | k < j < |log| ensures log[j].id != id { if j < n { assert log[..n][j] == log[j]; } }
    }
  }

  lemma OtherReport(log: seq<Report>, r: Report, id: string, c: Condition)
    requires LastReport(log, id, c) && r.id != id
    ensures LastReport(log + [r], id, c)
  {
    var k :| 0 <= k < |log| && log[k] == Report(id, c) && forall j :: k < j < |log| ==> log[j].id != id;
    assert (log + [r])[k] == Report(id, c);
  }

  function Lookup(cache: map<string, Option<Condition>>, id: string): Option<Condition> {
    if id in cache then cache[id] else None
  }

  ghost predicate Faithful(cache: map<string, Option<Condition>>, log: seq<Report>, es: seq<Event>, id: string) {
    ReportsOf(log, id) == Reports(Stream(es, id)) && Lookup(cache, id) == Latest(Stream(es, id))
  }

  lemma {:induction false} ObserveFaithfully(cache: map<string, Option<Condition>>, log: seq<Report>, es: seq<Event>,
                                             id: string, c: Condition, other: string)
    requires Faithful(cache, log, es, other)
    ensures Lookup(cache, id) == Some(c) ==> Faithful(cache, log, es + [Observed(id, c)], other)
    ensures Lookup(cache, id) != Some(c) ==> Faithful(cache[id := Some(c)], log + [Report(id, c)], es + [Observed(id, c)], other)
  {
    StreamSnoc(es, Observed(id, c), other);
    assert Stream(es, other) + [] == Stream(es, other) && ReportsOf(log, other) + [] == ReportsOf(log, other);
    ReportsSnoc(Stream(es, other), Seen(c));
    ReportsOfSnoc(log, Report(id, c), other);
  }

  lemma {:induction false} PruneFaithfully(cache: map<string, Option<Condition>>, pruned: map<string, Option<Condition>>, log: seq<Report>,
                                         es: seq<Event>, ids: set<string>, id: string)
    requires Faithful(cache, log, es, id) && Lookup(pruned, id) == if id in ids then Lookup(cache, id) else None
    ensures Faithful(pruned, log, es + [Listed(ids)], id)
  {
    StreamSnoc(es, Listed(ids), id);
    var ms := Stream(es, id);
    if id in ids {
      assert Stream(es + [Listed(ids)], id) == ms + [] == ms;
    } else {
      ReportsSnoc(ms, Gap);
      assert Reports(ms + [Gap]) == Reports(ms) + [] == Reports(ms);
      assert Latest(ms + [Gap]) == None;
    }
  }

  lemma ShownIsReported(cache: map<string, Option<Condition>>, log: seq<Report>, es: seq<Event>, id: string, c: Condition)
    requires Faithful(cache, log, es, id) && Lookup(cache, id) == Some(c)
    ensures LastReport(log, id, c)
  {
    LatestIsReported(Stream(es, id));
    LastOfReports(log, id);
  }

  lemma HistorySnoc(driver: string, ticks: seq<seq<Volume>>, vs: seq<Volume>)
    ensures History(driver, ticks + [vs]) == History(driver, ticks) + Observations(driver, vs) + [Listed(Ids(vs))]
  {
    assert (ticks + [vs])[..|ticks|] == ticks;
  }

  /** The answer of the last listed entry of each volume is the last report of it. */
  ghost predicate AllLastReported(driver: string, vs: seq<Volume>, log: seq<Report>) {
    forall i :: 0 <= i < |vs| && vs[i].driver == driver && vs[i].answer.Some? ==>
      || (exists j :: i < j < |vs| && vs[j].driver == driver && vs[j].answer.Some? && vs[j].id == vs[i].id)
      || LastReport(log, vs[i].id, vs[i].answer.value)
  }

  /** A listed volume of the driver gives the report as its answer. */
  ghost predicate Answers(driver: string, vs: seq<Volume>, r: Report) {
    exists i :: 0 <= i < |vs| && vs[i].driver == driver && vs[i].id == r.id && vs[i].answer == Some(r.condition)
  }

  lemma OneMoreReported(driver: string, vs: seq<Volume>, n: nat, log: seq<Report>, log': seq<Report>)
    requires n < |vs| && AllLastReported(driver, vs[..n], log)
    requires log' == log || (vs[n].driver == driver && vs[n].answer.Some? && log' == log + [Report(vs[n].id, vs[n].answer.value)])
    requires vs[n].driver == driver && vs[n].answer.Some? ==> LastReport(log', vs[n].id, vs[n].answer.value)
    ensures AllLastReported(driver, vs[..n + 1], log')
  {
    var ws := vs[..n + 1];
    forall i | 0 <= i < n && ws[i].driver == driver && ws[i].answer.Some?
      && (forall j :: i < j < |ws| && ws[j].driver == driver && ws[j].answer.Some? ==> ws[j].id != ws[i].id)
      ensures LastReport(log', ws[i].id, ws[i].answer.value)
    {
      assert forall j :: i <= j < n ==> vs[..n][j] == ws[j];
      assert LastReport(log, ws[i].id, ws[i].answer.value);
      if log' != log { OtherReport(log, Report(vs[n].id, vs[n].answer.value), ws[i].id, ws[i].answer.value); }
    }
  }

  /** log is the list of calls of recordVolumeCondition, events what the reporter has seen. */
  class Reporter {
    const driver: string
    var cache: map<string, Option<Condition>>
    ghost var log: seq<Report>
    ghost var events: seq<Event>

    ghost predicate Valid()
      reads this
    {
      forall id :: Faithful(cache, log, events, id)
    }

    /** Of every volume, what it was seen in is reported, consecutive repeats removed, anew after each list that lacks it. */
    ghost predicate Reported(done: seq<seq<Volume>>)
      reads this
    {
      forall id :: ReportsOf(log, id) == Reports(Stream(History(driver, done), id))
    }

    constructor (driver: string)
      ensures Valid() && this.driver == driver && cache == map[] && log == [] && events == []
    {
      this.driver, cache, log, events := driver, map[], [], [];
    }

    method IsUpdatedVolumeCondition(id: string, c: Condition) returns (updated: bool)
      modifies this`cache
      ensures updated <==> Lookup(old(cache), id) != Some(c)
      ensures cache == if updated then old(cache)[id := Some(c)] else old(cache)
    {
      var last := Lookup(cache, id);
      updated := last.None? || last.value.healthy != c.healthy || last.value.message != c.message;
      if updated {
        cache := cache[id := Some(c)];
      }
    }

    /** A new cache takes over the entries of the listed volumes; one not seen yet gets an empty entry. */
    method PruneConditionCache(vs: seq<Volume>)
      modifies this`cache
      ensures cache.Keys == Ids(vs)
      ensures forall id :: id in cache ==> cache[id] == Lookup(old(cache), id)
    {
      var pruned: map<string, Option<Condition>> := map[];
      for i := 0 to |vs|
        invariant cache == old(cache) && pruned.Keys == Ids(vs[..i])
        invariant forall id :: id in pruned ==> pruned[id] == Lookup(cache, id)
      {
        assert vs[..i + 1] == vs[..i] + [vs[i]];
        assert Ids(vs[..i + 1]) == Ids(vs[..i]) + {vs[i].id};
        pruned := pruned[vs[i].id := Lookup(cache, vs[i].id)];
      }
      assert vs[..|vs|] == vs;
      cache := pruned;
    }

    method Check(v: Volume)
      requires Valid()
      modifies this
      ensures Valid() && |old(log)| <= |log| && log[..|old(log)|] == old(log)
      ensures events == old(events) + if v.driver == driver && v.answer.Some? then [Observed(v.id, v.answer.value)] else []
      ensures log == old(log) || (v.driver == driver && v.answer.Some? && log == old(log) + [Report(v.id, v.answer.value)])
      ensures v.driver == driver && v.answer.Some? ==> LastReport(log, v.id, v.answer.value)
    {
      if v.driver != driver || v.answer.None? {
        return;
      }
      var c := v.answer.value;
      ghost var cache0, log0, events0 := cache, log, events;
      var updated := IsUpdatedVolumeCondition(v.id, c);
      events := events + [Observed(v.id, c)];
      if updated {
        log := log + [Report(v.id, c)];
      }
      forall id ensures Faithful(cache, log, events, id) {
        ObserveFaithfully(cache0, log0, events0, v.id, c, id);
      }
      ShownIsReported(cache, log, events, v.id, c);
    }

    method Tick(vs: seq<Volume>)
      requires Valid()
      modifies this
      ensures Valid() && cache.Keys == Ids(vs) && |old(log)| <= |log| && log[..|old(log)|] == old(log)
      ensures events == old(events) + Observations(driver, vs) + [Listed(Ids(vs))]
      ensures AllLastReported(driver, vs, log)
      ensures forall k :: |old(log)| <= k < |log| ==> Answers(driver, vs, log[k])
    {
      for i := 0 to |vs|
        invariant Valid() && |old(log)| <= |log| && log[..|old(log)|] == old(log)
        invariant events == old(events) + Observations(driver, vs[..i])
        invariant AllLastReported(driver, vs[..i], log)
        invariant forall k :: |old(log)| <= k < |log| ==> Answers(driver, vs, log[k])
      {
        assert vs[..i + 1][..i] == vs[..i];
        ghost var before := log;
        Check(vs[i]);
        assert log[..|old(log)|] == log[..|before|][..|old(log)|];
        OneMoreReported(driver, vs, i, before, log);
        assert vs[i].driver == driver && vs[i].answer.Some? ==> Answers(driver, vs, Report(vs[i].id, vs[i].answer.value));
      }
      assert vs[..|vs|] == vs;
      ghost var was := cache;
      PruneConditionCache(vs);
      forall id ensures Faithful(cache, log, events + [Listed(Ids(vs))], id) {
        PruneFaithfully(was, cache, log, events, Ids(vs), id);
      }
      events := events + [Listed(Ids(vs))];
    }

    /** The ticks that fire, each with the volumes listed, or None if listing fails, which ends the run. */
    method Run(interval: int, ticks: seq<Option<seq<Volume>>>) returns (failed: bool, ghost done: seq<seq<Volume>>)
      requires Valid() && events == [] && log == []
      modifies this
      ensures |done| <= |ticks| && forall i :: 0 <= i < |done| ==> ticks[i] == Some(done[i])
      ensures interval <= 0 ==> failed && done == []
      ensures interval > 0 ==> (failed <==> |done| < |ticks|) && (failed ==> ticks[|done|].None?)
      ensures Reported(done)
      ensures done != [] ==> cache.Keys == Ids(done[|done| - 1]) && AllLastReported(driver, done[|done| - 1], log)
    {
      done := [];
      failed := interval <= 0;
      if failed {
        AllReported(this, done);
        return;
      }
      for i := 0 to |ticks|
        invariant Valid() && |done| == i && (forall k :: 0 <= k < i ==> ticks[k] == Some(done[k]))
        invariant events == History(driver, done) && (done != [] ==> cache.Keys == Ids(done[i - 1]) && AllLastReported(driver, done[i - 1], log))
      {
        if ticks[i].None? {
          AllReported(this, done);
          return true, done;
        }
        Tick(ticks[i].value);
        HistorySnoc(driver, done, ticks[i].value);
        done := done + [ticks[i].value];
      }
      AllReported(this, done);
    }
  }

  lemma AllReported(r: Reporter, done: seq<seq<Volume>>)
    requires r.Valid() && r.events == History(r.driver, done)
    ensures r.Reported(done)
  {
    forall id ensures ReportsOf(r.log, id) == Reports(Stream(r.events, id)) {
      assert Faithful(r.cache, r.log, r.events, id);
    }
  }
}
