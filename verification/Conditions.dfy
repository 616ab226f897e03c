/**
 The condition list of a VolumeReplication's status.

 A list changes only through operations: put a condition (append it, or update the entry of its type
 in place) and drop a type.  The list is specified by the whole trace of operations so far.
 */
module Conditions {
  import opened Wrappers

  datatype Kind = Completed | Degraded | Resyncing | Validated | Replicating

  datatype Status = Yes | No | Unknown

  datatype Reason =
    | Promoted | Demoted | FailedToPromote | FailedToDemote | Error | VolumeDegraded | Healthy | ResyncTriggered
    | FailedToResync | NotResyncing | PrerequisiteMet | PrerequisiteNotMet | IsReplicating | NotReplicating

  /** What a message says of its source (a volume or a volume group). */
  datatype Fact =
    | IsPromoted | IsHealthy | IsNotResyncing | IsValidated | DidNotPromote | DidNotDemote | IsDemoted | IsDegraded
    | IsResyncing | DidNotResync | Replicates | DoesNotReplicate | ReplicationUnknown

  /** A message text: a caller's own words, a fact about the source with optional detail, or a failed prerequisite. */
  datatype Message = Plain(text: Note) | About(source: string, fact: Fact) | Because(source: string, fact: Fact, detail: string)
                   | MissedPrerequisite(detail: string)

  datatype Note =
    | EnableNote | PromoteNote | ForcePromoteNote | DemoteNote | ResyncNote | ResyncResponseNote | OtherNote(text: string)

  /** since is the LastTransitionTime. */
  datatype Condition = Condition(kind: Kind, status: Status, reason: Reason, message: Message, generation: int, since: int)

  // ----- setStatusCondition, findCondition and removeCondition -----

  /** The list after setStatusCondition with new condition c at time now. */
  function Put(l: seq<Condition>, c: Condition, now: int): seq<Condition> {
    if l == [] then [c.(since := now)]
    else if l[0].kind != c.kind then [l[0]] + Put(l[1..], c, now)
    else [c.(since := if l[0].status != c.status then now else l[0].since)] + l[1..]
  }

  /** The list after removeCondition. */
  function Drop(l: seq<Condition>, kind: Kind): seq<Condition> {
    if l == [] then [] else (if l[0].kind == kind then [] else [l[0]]) + Drop(l[1..], kind)
  }

  method FindCondition(l: seq<Condition>, kind: Kind) returns (i: nat)
    ensures i <= |l| && (i < |l| ==> l[i].kind == kind)
    ensures forall j :: 0 <= j < i ==> l[j].kind != kind
  {
    i := 0;
    while i < |l| && l[i].kind != kind
      invariant i <= |l| && forall j :: 0 <= j < i ==> l[j].kind != kind
    {
      i := i + 1;
    }
  }

  lemma {:induction false} PutAppends(l: seq<Condition>, c: Condition, now: int)
    requires forall j :: 0 <= j < |l| ==> l[j].kind != c.kind
    ensures Put(l, c, now) == l + [c.(since := now)]
  {
    if l != [] { PutAppends(l[1..], c, now); }
  }

  lemma {:induction false} PutUpdates(l: seq<Condition>, c: Condition, now: int, i: nat)
    requires i < |l| && l[i].kind == c.kind && forall j :: 0 <= j < i ==> l[j].kind != c.kind
    ensures Put(l, c, now) == l[i := c.(since := if l[i].status != c.status then now else l[i].since)]
  {
    if i > 0 { PutUpdates(l[1..], c, now, i - 1); }
  }

  class ConditionList {
    var items: seq<Condition>

    constructor ()
      ensures items == []
    {
      items := [];
    }

    method SetStatusCondition(c: Condition, now: int)
      modifies this
      ensures items == Put(old(items), c, now)
    {
      var i := FindCondition(items, c.kind);
      if i == |items| {
        PutAppends(items, c, now);
        items := items + [c.(since := now)];
        return;
      }
      PutUpdates(items, c, now, i);
      var e := items[i];
      if e.status != c.status {
        e := e.(status := c.status, since := now);
      }
      items := items[i := e.(message := c.message, reason := c.reason, generation := c.generation)];
    }

    method RemoveCondition(kind: Kind)
      modifies this
      ensures items == Drop(old(items), kind)
    {
      var kept: seq<Condition> := [];
      for i := 0 to |items|
        invariant items == old(items)
        invariant kept + Drop(items[i..], kind) == Drop(items, kind)
      {
        assert items[i..][1..] == items[i + 1..];
        if items[i].kind != kind {
          assert kept + Drop(items[i..], kind) == kept + ([items[i]] + Drop(items[i + 1..], kind));
          kept := kept + [items[i]];
        }
      }
      items := kept;
    }
  }

  // ----- Traces of operations -----

  datatype Op = Set(c: Condition, at: int) | Unset(kind: Kind)

  function KindOf(op: Op): Kind { match op case Set(c, _) => c.kind case Unset(k) => k }

  function Apply(l: seq<Condition>, op: Op): seq<Condition> {
    match op case Set(c, at) => Put(l, c, at) case Unset(k) => Drop(l, k)
  }

  function ApplyAll(l: seq<Condition>, ops: seq<Op>): seq<Condition>
    decreases |ops|
  {
    if ops == [] then l else Apply(ApplyAll(l, ops[..|ops| - 1]), ops[|ops| - 1])
  }

  /** The status that the trace leaves the type in, by its last operation alone. */
  function StatusAfter(ops: seq<Op>, kind: Kind): Option<Status>
    decreases |ops|
  {
    if ops == [] then None
    else
      var op := ops[|ops| - 1];
      if KindOf(op) != kind then StatusAfter(ops[..|ops| - 1], kind)
      else match op case Set(c, _) => Some(c.status) case Unset(_) => None
  }

  /** Operation j inserted the type or flipped its status, and nothing has changed it since. */
  ghost predicate LastFlip(ops: seq<Op>, kind: Kind, j: nat) {
    && j < |ops| && ops[j].Set? && ops[j].c.kind == kind
    && StatusAfter(ops[..j], kind) != Some(ops[j].c.status)
    && forall i :: j < i < |ops| && KindOf(ops[i]) == kind ==> ops[i].Set? && ops[i].c.status == ops[j].c.status
  }

  // ----- What a list says -----

  predicate NoRepeats(l: seq<Condition>) { forall i, j :: 0 <= i < j < |l| ==> l[i].kind != l[j].kind }

  function StatusIn(l: seq<Condition>, kind: Kind): Option<Status> {
    if l == [] then None else if l[0].kind == kind then Some(l[0].status) else StatusIn(l[1..], kind)
  }

  /** Every entry shows the status its last operation gave it and dates from the last flip. */
  ghost predicate Follows(l: seq<Condition>, ops: seq<Op>) {
    && NoRepeats(l)
    && (forall k :: StatusIn(l, k) == StatusAfter(ops, k))
    && (forall i :: 0 <= i < |l| ==> exists j: nat :: LastFlip(ops, l[i].kind, j) && l[i].since == ops[j].at)
  }

  lemma {:induction false} PutStatus(l: seq<Condition>, c: Condition, now: int, kind: Kind)
    ensures StatusIn(Put(l, c, now), kind) == if kind == c.kind then Some(c.status) else StatusIn(l, kind)
  {
    if l != [] && l[0].kind != c.kind {
      PutStatus(l[1..], c, now, kind);
      assert Put(l, c, now)[1..] == Put(l[1..], c, now);
    } else if l != [] {
      assert Put(l, c, now)[1..] == l[1..];
    }
  }

  lemma {:induction false} DropStatus(l: seq<Condition>, gone: Kind, kind: Kind)
    ensures StatusIn(Drop(l, gone), kind) == if kind == gone then None else StatusIn(l, kind)
  {
    if l != [] {
      DropStatus(l[1..], gone, kind);
      assert ([l[0]] + Drop(l[1..], gone))[1..] == Drop(l[1..], gone);
      assert [] + Drop(l[1..], gone) == Drop(l[1..], gone);
    }
  }

  /** What a list says of a type. */
  datatype Face = Absent | Shows(status: Status, reason: Reason, message: Message, generation: int)

  function FaceIn(l: seq<Condition>, kind: Kind): Face {
    if l == [] then Absent
    else if l[0].kind == kind then Shows(l[0].status, l[0].reason, l[0].message, l[0].generation)
    else FaceIn(l[1..], kind)
  }

  /** Putting a condition shows exactly it, and changes nothing that is said of other types. */
  lemma {:induction false} PutFace(l: seq<Condition>, c: Condition, now: int, kind: Kind)
    ensures FaceIn(Put(l, c, now), kind) == if kind == c.kind then Shows(c.status, c.reason, c.message, c.generation) else FaceIn(l, kind)
  {
    if l != [] && l[0].kind != c.kind {
      PutFace(l[1..], c, now, kind);
      assert Put(l, c, now)[1..] == Put(l[1..], c, now);
    } else if l != [] {
      assert Put(l, c, now)[1..] == l[1..];
    }
  }

  lemma {:induction false} DropFace(l: seq<Condition>, gone: Kind, kind: Kind)
    ensures FaceIn(Drop(l, gone), kind) == if kind == gone then Absent else FaceIn(l, kind)
  {
    if l != [] {
      DropFace(l[1..], gone, kind);
      assert ([l[0]] + Drop(l[1..], gone))[1..] == Drop(l[1..], gone);
      assert [] + Drop(l[1..], gone) == Drop(l[1..], gone);
    }
  }

  /** Every entry of the new list is an old one or the one just put. */
  lemma {:induction false} PutEntries(l: seq<Condition>, c: Condition, now: int)
    requires NoRepeats(l)
    ensures NoRepeats(Put(l, c, now))
    ensures forall i :: 0 <= i < |Put(l, c, now)| ==> var e := Put(l, c, now)[i];
      if e.kind != c.kind then e in l
      else e.status == c.status && e.since == if StatusIn(l, c.kind) == Some(c.status) then SinceIn(l, c.kind) else now
  {
    if l != [] && l[0].kind != c.kind {
      PutEntries(l[1..], c, now);
      var l' := Put(l[1..], c, now);
      assert forall i :: 0 <= i < |l'| && l'[i].kind != c.kind ==> l'[i] in l[1..];
      assert forall i :: 0 < i < |Put(l, c, now)| ==> Put(l, c, now)[i] == l'[i - 1];
    }
  }

  function SinceIn(l: seq<Condition>, kind: Kind): int {
    if l == [] then 0 else if l[0].kind == kind then l[0].since else SinceIn(l[1..], kind)
  }

  lemma {:induction false} DropEntries(l: seq<Condition>, gone: Kind)
    requires NoRepeats(l)
    ensures NoRepeats(Drop(l, gone))
    ensures forall i :: 0 <= i < |Drop(l, gone)| ==> Drop(l, gone)[i] in l && Drop(l, gone)[i].kind != gone
  {
    if l != [] {
      DropEntries(l[1..], gone);
      var l' := Drop(l[1..], gone);
      assert forall i :: 0 <= i < |l'| ==> l'[i] in l[1..];
    }
  }

  lemma {:induction false} EntryOf(l: seq<Condition>, kind: Kind) returns (i: nat)
    requires StatusIn(l, kind).Some?
    ensures i < |l| && l[i].kind == kind && l[i].since == SinceIn(l, kind) && l[i].status == StatusIn(l, kind).value
  {
    if l[0].kind == kind {
      i := 0;
    } else {
      var i' := EntryOf(l[1..], kind);
      i := i' + 1;
    }
  }

  lemma FlipStays(ops: seq<Op>, op: Op, kind: Kind, j: nat)
    requires LastFlip(ops, kind, j)
    requires KindOf(op) != kind || (op.Set? && op.c.status == ops[j].c.status)
    ensures LastFlip(ops + [op], kind, j)
  {
    assert (ops + [op])[..j] == ops[..j];
  }

  lemma {:induction false} FlipStatus(ops: seq<Op>, kind: Kind, j: nat)
    requires LastFlip(ops, kind, j)
    ensures StatusAfter(ops, kind) == Some(ops[j].c.status)
    decreases |ops|
  {
    if j < |ops| - 1 {
      var n := |ops| - 1;
      assert ops[..n][..j] == ops[..j];
      assert LastFlip(ops[..n], kind, j);
      FlipStatus(ops[..n], kind, j);
    }
  }

  /** An entry for another type keeps its date. */
  lemma OtherEntry(l: seq<Condition>, ops: seq<Op>, op: Op, e: Condition)
    requires Follows(l, ops) && e in l && e.kind != KindOf(op)
    ensures exists j: nat :: LastFlip(ops + [op], e.kind, j) && e.since == (ops + [op])[j].at
  {
    var i :| 0 <= i < |l| && l[i] == e;
    var j: nat :| LastFlip(ops, l[i].kind, j) && l[i].since == ops[j].at;
    FlipStays(ops, op, e.kind, j);
    assert (ops + [op])[j] == ops[j];
  }

  /** The entry just put dates from its last flip. */
  lemma PutEntry(l: seq<Condition>, ops: seq<Op>, c: Condition, at: int, since: int)
    requires Follows(l, ops)
    requires since == if StatusIn(l, c.kind) == Some(c.status) then SinceIn(l, c.kind) else at
    ensures exists j: nat :: LastFlip(ops + [Set(c, at)], c.kind, j) && since == (ops + [Set(c, at)])[j].at
  {
    var ops' := ops + [Set(c, at)];
    if StatusIn(l, c.kind) == Some(c.status) {
      var i := EntryOf(l, c.kind);
      var j: nat :| LastFlip(ops, l[i].kind, j) && l[i].since == ops[j].at;
      FlipStatus(ops, c.kind, j);
      FlipStays(ops, Set(c, at), c.kind, j);
      assert ops'[j] == ops[j];
    } else {
      assert ops'[..|ops|] == ops;
      assert LastFlip(ops', c.kind, |ops|);
      assert ops'[|ops|].at == at;
    }
  }

  lemma FollowsStep(l: seq<Condition>, ops: seq<Op>, op: Op)
    requires Follows(l, ops)
    ensures Follows(Apply(l, op), ops + [op])
  {
    var l', ops' := Apply(l, op), ops + [op];
    assert ops'[..|ops'| - 1] == ops;
    match op {
      case Set(c, at) =>
        PutEntries(l, c, at);
        forall k ensures StatusIn(l', k) == StatusAfter(ops', k) { PutStatus(l, c, at, k); }
      case Unset(gone) =>
        DropEntries(l, gone);
        forall k ensures StatusIn(l', k) == StatusAfter(ops', k) { DropStatus(l, gone, k); }
    }
    forall i | 0 <= i < |l'|
      ensures exists j: nat :: LastFlip(ops', l'[i].kind, j) && l'[i].since == ops'[j].at
    {
      if l'[i].kind != KindOf(op) {
        OtherEntry(l, ops, op, l'[i]);
      } else {
        PutEntry(l, ops, op.c, op.at, l'[i].since);
      }
    }
  }

  /** Whatever the operations, the list they build follows them. */
  lemma {:induction false} ListFollowsTrace(ops: seq<Op>)
    ensures Follows(ApplyAll([], ops), ops)
    decreases |ops|
  {
    if ops != [] {
      var n := |ops| - 1;
      ListFollowsTrace(ops[..n]);
      FollowsStep(ApplyAll([], ops[..n]), ops[..n], ops[n]);
      assert ops[..n] + [ops[n]] == ops;
    }
  }
}
