/**
 The reclaim-space job: bounded retries, a deadline counted from creation, and a final result.
 */
module ReclaimSpaceJob {
  import opened Wrappers

  datatype Result = Succeeded | NotSucceeded

  datatype Spec = Spec(claim: string, backoffLimit: nat, retryDeadline: nat)

  datatype Status = Status(result: Option<Result>, start: Option<int>, completion: Option<int>, retries: nat)

  const NEW := Status(None, None, None, 0)

  const DEFAULT_BACKOFF_LIMIT := 6
  const DEFAULT_RETRY_DEADLINE := 600

  function Limit(spec: Spec): nat { if spec.backoffLimit == 0 then DEFAULT_BACKOFF_LIMIT else spec.backoffLimit }

  function Deadline(spec: Spec): nat { if spec.retryDeadline == 0 then DEFAULT_RETRY_DEADLINE else spec.retryDeadline }

  /** One visit: when it reads the clock (at its start, before the attempt, at its end), and whether the attempt works. */
  datatype Visit = Visit(begin: int, check: int, end: int, works: bool)

  predicate Attempts(spec: Spec, created: int, st: Status, v: Visit) {
    st.result.None? && spec.claim != "" && v.check <= created + Deadline(spec)
  }

  /** The status after one reconcile. */
  function Visited(spec: Spec, created: int, st: Status, v: Visit): Status {
    if st.result.Some? then st
    else if spec.claim == "" then st.(result := Some(NotSucceeded), completion := Some(v.end))
    else
      var st' := if st.start.None? then st.(start := Some(v.begin)) else st.(retries := st.retries + 1);
      if !Attempts(spec, created, st, v) then st'.(result := Some(NotSucceeded), completion := Some(v.end))
      else if v.works then st'.(result := Some(Succeeded), completion := Some(v.end))
      else if st'.retries == Limit(spec) then st'.(result := Some(NotSucceeded), completion := Some(v.end))
      else st'
  }

  class Job {
    const spec: Spec
    const created: int
    var status: Status
    var attempts: seq<int>

    constructor (spec: Spec, created: int)
      ensures this.spec == spec && this.created == created && status == NEW && attempts == []
    {
      this.spec, this.created, status, attempts := spec, created, NEW, [];
    }

    /** Reconcile, up to and including its status update. */
    method Reconcile(v: Visit)
      modifies this
      ensures status == Visited(spec, created, old(status), v)
      ensures attempts == old(attempts) + if Attempts(spec, created, old(status), v) then [v.check] else []
    {
      if status.result.Some? {
        return;
      }
      if spec.claim == "" {
        status := status.(result := Some(NotSucceeded), completion := Some(v.end));
        return;
      }
      var backoffLimit := if spec.backoffLimit == 0 then DEFAULT_BACKOFF_LIMIT else spec.backoffLimit;
      var retryDeadline := if spec.retryDeadline == 0 then DEFAULT_RETRY_DEADLINE else spec.retryDeadline;
      Attempt(v, retryDeadline);
      if status.result.None? && status.retries == backoffLimit {
        status := status.(result := Some(NotSucceeded), completion := Some(v.end));
      }
    }

    /** The inner reconcile: start time or retry counter, deadline, then one attempt. */
    method Attempt(v: Visit, retryDeadline: nat)
      requires status.result.None?
      modifies this
      ensures var st := if old(status).start.None? then old(status).(start := Some(v.begin)) else old(status).(retries := old(status).retries + 1);
        var inTime := v.check <= created + retryDeadline;
        && status == (if !inTime then st.(result := Some(NotSucceeded), completion := Some(v.end))
                      else if v.works then st.(result := Some(Succeeded), completion := Some(v.end)) else st)
        && attempts == old(attempts) + if inTime then [v.check] else []
    {
      if status.start.None? {
        status := status.(start := Some(v.begin));
      } else {
        status := status.(retries := status.retries + 1);
      }
      if v.check > created + retryDeadline {
        status := status.(result := Some(NotSucceeded), completion := Some(v.end));
        return;
      }
      attempts := attempts + [v.check];
      if v.works {
        status := status.(result := Some(Succeeded), completion := Some(v.end));
      }
    }
  }

  // ----- Runs of one job -----

  function After(spec: Spec, created: int, vs: seq<Visit>): Status
    decreases |vs|
  {
    if vs == [] then NEW else Visited(spec, created, After(spec, created, vs[..|vs| - 1]), vs[|vs| - 1])
  }

  /** When the attempts of a run begin. */
  function AttemptTimes(spec: Spec, created: int, vs: seq<Visit>): seq<int>
    decreases |vs|
  {
    if vs == [] then []
    else
      var n := |vs| - 1;
      AttemptTimes(spec, created, vs[..n])
      + if Attempts(spec, created, After(spec, created, vs[..n]), vs[n]) then [vs[n].check] else []
  }

  /** Retries stay below the limit while the job is open, and a result comes with its completion time. */
  predicate Sound(spec: Spec, st: Status) {
    && st.retries <= Limit(spec)
    && (st.result.None? ==> st.retries < Limit(spec))
    && (st.start.None? ==> st.retries == 0)
    && (st.result.Some? <==> st.completion.Some?)
    && (st.result.Some? && spec.claim != "" ==> st.start.Some?)
  }

  lemma VisitedSound(spec: Spec, created: int, st: Status, v: Visit)
    requires Sound(spec, st)
    ensures Sound(spec, Visited(spec, created, st, v))
  {
  }

  lemma {:induction false} RunSound(spec: Spec, created: int, vs: seq<Visit>)
    ensures Sound(spec, After(spec, created, vs))
    decreases |vs|
  {
    if vs != [] {
      RunSound(spec, created, vs[..|vs| - 1]);
      VisitedSound(spec, created, After(spec, created, vs[..|vs| - 1]), vs[|vs| - 1]);
    }
  }

  /** Visits left before an open job must have a result. */
  function Remaining(spec: Spec, st: Status): nat
    requires Sound(spec, st)
  {
    if st.result.Some? then 0 else Limit(spec) - st.retries + if st.start.None? then 1 else 0
  }

  lemma RemainingFalls(spec: Spec, created: int, st: Status, v: Visit)
    requires Sound(spec, st) && st.result.None?
    ensures Sound(spec, Visited(spec, created, st, v)) && Remaining(spec, Visited(spec, created, st, v)) < Remaining(spec, st)
  {
  }

  /** A result never changes, nor does anything else in the status of a finished job. */
  lemma {:induction false} ResultIsFinal(spec: Spec, created: int, vs: seq<Visit>, more: seq<Visit>)
    requires After(spec, created, vs).result.Some?
    ensures After(spec, created, vs + more) == After(spec, created, vs)
    decreases |more|
  {
    if more == [] {
      assert vs + more == vs;
    } else {
      assert (vs + more)[..|vs + more| - 1] == vs + more[..|more| - 1];
      ResultIsFinal(spec, created, vs, more[..|more| - 1]);
    }
  }

  ghost predicate WorkedAt(spec: Spec, created: int, vs: seq<Visit>, i: nat) {
    i < |vs| && Attempts(spec, created, After(spec, created, vs[..i]), vs[i]) && vs[i].works
  }

  /** A job is successful exactly if one of its attempts worked. */
  lemma {:induction false} SuccessMeansWorked(spec: Spec, created: int, vs: seq<Visit>)
    ensures After(spec, created, vs).result == Some(Succeeded) <==> exists i: nat :: WorkedAt(spec, created, vs, i)
    decreases |vs|
  {
    if vs != [] {
      var n := |vs| - 1;
      SuccessMeansWorked(spec, created, vs[..n]);
      forall i: nat | i < n
        ensures WorkedAt(spec, created, vs[..n], i) <==> WorkedAt(spec, created, vs, i)
      {
        assert vs[..n][..i] == vs[..i];
      }
      assert WorkedAt(spec, created, vs, n) <==> Attempts(spec, created, After(spec, created, vs[..n]), vs[n]) && vs[n].works;
      if After(spec, created, vs).result == Some(Succeeded) && After(spec, created, vs[..n]).result == Some(Succeeded) {
        var i: nat :| WorkedAt(spec, created, vs[..n], i);
        assert WorkedAt(spec, created, vs, i);
      }
    }
  }

  /** Every job finishes within its limit plus one visits. */
  lemma {:induction false} JobFinishes(spec: Spec, created: int, vs: seq<Visit>)
    requires |vs| > if spec.backoffLimit == 0 then 6 else spec.backoffLimit
    ensures After(spec, created, vs).result.Some?
  {
    RunSound(spec, created, vs);
    RemainingBound(spec, created, vs);
  }

  lemma {:induction false} RemainingBound(spec: Spec, created: int, vs: seq<Visit>)
    ensures Sound(spec, After(spec, created, vs))
    ensures After(spec, created, vs).result.None? ==> Remaining(spec, After(spec, created, vs)) + |vs| <= Limit(spec) + 1
    decreases |vs|
  {
    RunSound(spec, created, vs);
    if vs != [] {
      var n := |vs| - 1;
      RemainingBound(spec, created, vs[..n]);
      var st := After(spec, created, vs[..n]);
      if st.result.None? { RemainingFalls(spec, created, st, vs[n]); }
    }
  }

  /** At most limit plus one attempts, each within the deadline after creation. */
  lemma {:induction false} AttemptsBounded(spec: Spec, created: int, vs: seq<Visit>)
    ensures var ts := AttemptTimes(spec, created, vs); var st := After(spec, created, vs);
      && |ts| <= (if spec.backoffLimit == 0 then 6 else spec.backoffLimit) + 1
      && (st.start.None? ==> ts == []) && (st.start.Some? ==> |ts| <= st.retries + 1)
      && forall i :: 0 <= i < |ts| ==> ts[i] <= created + if spec.retryDeadline == 0 then 600 else spec.retryDeadline
    decreases |vs|
  {
    RunSound(spec, created, vs);
    if vs != [] {
      AttemptsBounded(spec, created, vs[..|vs| - 1]);
    }
  }

  // ----- The whole course of a job -----

  /** When a run of visits ends a job: at the first one that is late, works, or is the one after limit others. */
  predicate EndsFirstAt(vs: seq<Visit>, k: nat, limit: nat, deadline: int) {
    && k <= |vs| && (forall i :: 0 <= i < k ==> vs[i].check <= deadline && !vs[i].works && i != limit)
    && (k < |vs| ==> vs[k].check > deadline || vs[k].works || k == limit)
  }

  lemma FirstEnd(vs: seq<Visit>, limit: nat, deadline: int) returns (k: nat)
    ensures EndsFirstAt(vs, k, limit, deadline)
  {
    if i: nat :| i < |vs| && (vs[i].check > deadline || vs[i].works || i == limit) {
      k := Least(vs, limit, deadline, i);
    } else {
      k := |vs|;
    }
  }

  lemma {:induction false} Least(vs: seq<Visit>, limit: nat, deadline: int, i: nat) returns (k: nat)
    requires i < |vs| && (vs[i].check > deadline || vs[i].works || i == limit)
    ensures EndsFirstAt(vs, k, limit, deadline)
  {
    if j: nat :| j < i && (vs[j].check > deadline || vs[j].works || j == limit) {
      k := Least(vs, limit, deadline, j);
    } else {
      k := i;
    }
  }

  /**
   The status after any visits and the attempts made on the way: the start is the first visit's, every further visit
   is a retry, and the visit that ends the job gives the result and the completion time.
   */
  lemma {:induction false} CourseOfJob(spec: Spec, created: int, vs: seq<Visit>, k: nat)
    requires vs != [] && spec.claim != ""
    requires EndsFirstAt(vs, k, if spec.backoffLimit == 0 then 6 else spec.backoffLimit,
                         created + if spec.retryDeadline == 0 then 600 else spec.retryDeadline)
    ensures var inTime := k < |vs| && vs[k].check <= created + if spec.retryDeadline == 0 then 600 else spec.retryDeadline;
      && After(spec, created, vs) == (
            if k == |vs| then Status(None, Some(vs[0].begin), None, k - 1)
            else Status(Some(if inTime && vs[k].works then Succeeded else NotSucceeded), Some(vs[0].begin), Some(vs[k].end), k))
      && AttemptTimes(spec, created, vs) == seq(if inTime then k + 1 else k, i requires 0 <= i < |vs| => vs[i].check)
    decreases |vs|
  {
    var n := |vs| - 1;
    assert After(spec, created, vs) == Visited(spec, created, After(spec, created, vs[..n]), vs[n]);
    if n > 0 {
      CourseOfJob(spec, created, vs[..n], if k <= n then k else n);
    } else {
      assert vs[..0] == [];
    }
  }

  /** Without a claim the first visit fails the job, and nothing is attempted. */
  lemma {:induction false} NoClaimFails(spec: Spec, created: int, vs: seq<Visit>)
    requires vs != [] && spec.claim == ""
    ensures After(spec, created, vs) == Status(Some(NotSucceeded), None, Some(vs[0].end), 0) && AttemptTimes(spec, created, vs) == []
    decreases |vs|
  {
    var n := |vs| - 1;
    if n > 0 { NoClaimFails(spec, created, vs[..n]); }
  }
}
