/**
 What one reconcile of a VolumeReplication asks of the backend, stores and shows, case by case.
 */
module Outcomes {
  import opened Wrappers
  import opened Conditions
  import opened VolumeReplication

  // ----- What each set*Condition function shows -----

  /** What a list says of each of the five types. */
  datatype Faces = Faces(completed: Face, degraded: Face, resyncing: Face, validated: Face, replicating: Face)

  function FacesOf(l: seq<Condition>): Faces {
    Faces(FaceIn(l, Completed), FaceIn(l, Degraded), FaceIn(l, Resyncing), FaceIn(l, Validated), FaceIn(l, Replicating))
  }

  /** What is said after the function, given what was said before. */
  function SetFaces(fs: Faces, g: Group, spec: Spec): Faces {
    var src, n := spec.source, spec.generation;
    var idle := Shows(No, NotResyncing, About(src, IsNotResyncing), n);
    match g
    case SetPromoted =>
      fs.(completed := Shows(Yes, Promoted, About(src, IsPromoted), n), degraded := Shows(No, Healthy, About(src, IsHealthy), n), resyncing := idle)
    case SetFailedPromotion(m, d) =>
      fs.(completed := Shows(No, FailedToPromote, Plain(m), n), degraded := Shows(Yes, Error, Because(src, DidNotPromote, d), n),
          resyncing := idle, validated := Shows(Yes, PrerequisiteMet, About(src, IsValidated), n))
    case SetFailedValidation(m, d) =>
      fs.(completed := Shows(No, FailedToPromote, About(src, DidNotPromote), n), degraded := Shows(Yes, Error, Plain(m), n),
          resyncing := idle, validated := Shows(No, PrerequisiteNotMet, MissedPrerequisite(d), n))
    case SetNotDegraded =>
      fs.(degraded := Shows(No, Healthy, About(src, IsDemoted), n), resyncing := idle)
    case SetDemoted =>
      fs.(completed := Shows(Yes, Demoted, About(src, IsDemoted), n), degraded := Shows(Yes, VolumeDegraded, About(src, IsDegraded), n), resyncing := idle)
    case SetFailedDemotion(m, d) =>
      fs.(completed := Shows(No, FailedToDemote, Plain(m), n), degraded := Shows(Yes, Error, Because(src, DidNotDemote, d), n), resyncing := idle)
    case SetResync =>
      fs.(completed := Shows(Yes, Demoted, About(src, IsDemoted), n), degraded := Shows(Yes, VolumeDegraded, About(src, IsDegraded), n),
          resyncing := Shows(Yes, ResyncTriggered, About(src, IsResyncing), n))
    case SetFailedResync(m, d) =>
      fs.(completed := Shows(No, FailedToResync, Plain(m), n), degraded := Shows(Yes, Error, Because(src, DidNotResync, d), n),
          resyncing := Shows(No, FailedToResync, About(src, IsNotResyncing), n))
    case SetReplicating(status, text) =>
      fs.(replicating := match status
                         case Yes => Shows(Yes, IsReplicating, Because(src, Replicates, text), n)
                         case No => Shows(No, NotReplicating, Because(src, DoesNotReplicate, text), n)
                         case Unknown => Shows(Unknown, IsReplicating, Because(src, ReplicationUnknown, text), n))
    case RemoveReplicating => fs.(replicating := Absent)
  }

  function With(fs: Faces, c: Condition): Faces {
    var f := Shows(c.status, c.reason, c.message, c.generation);
    match c.kind
    case Completed => fs.(completed := f)
    case Degraded => fs.(degraded := f)
    case Resyncing => fs.(resyncing := f)
    case Validated => fs.(validated := f)
    case Replicating => fs.(replicating := f)
  }

  lemma PutFaces(l: seq<Condition>, c: Condition, now: int)
    ensures FacesOf(Put(l, c, now)) == With(FacesOf(l), c)
  {
    forall kind { PutFace(l, c, now, kind); }
  }

  lemma DropFaces(l: seq<Condition>)
    ensures FacesOf(Drop(l, Replicating)) == FacesOf(l).(replicating := Absent)
  {
    forall kind { DropFace(l, Replicating, kind); }
  }

  function WithAll(fs: Faces, cs: seq<Condition>): Faces
    decreases |cs|
  {
    if cs == [] then fs else WithAll(With(fs, cs[0]), cs[1..])
  }

  lemma {:induction false} SetOpsFaces(l: seq<Condition>, cs: seq<Condition>, clock: nat -> int, k: nat)
    ensures FacesOf(ApplyAll(l, SetOps(cs, clock, k))) == WithAll(FacesOf(l), cs)
    decreases |cs|
  {
    if cs != [] {
      SetOpsFirst(cs, clock, k);
      ApplyFirst(l, Set(cs[0], clock(k)), SetOps(cs[1..], clock, k + 1));
      PutFaces(l, cs[0], clock(k));
      SetOpsFaces(Put(l, cs[0], clock(k)), cs[1..], clock, k + 1);
    }
  }

  lemma SetsFaces(fs: Faces, g: Group, spec: Spec)
    requires !g.RemoveReplicating?
    ensures WithAll(fs, Sets(g, spec.source, spec.generation)) == SetFaces(fs, g, spec)
  {
    var cs := Sets(g, spec.source, spec.generation);
    var f1 := With(fs, cs[0]);
    assert WithAll(fs, cs) == WithAll(f1, cs[1..]);
    if |cs| >= 2 {
      var f2 := With(f1, cs[1]);
      assert cs[1..][1..] == cs[2..] && WithAll(f1, cs[1..]) == WithAll(f2, cs[2..]);
      if |cs| >= 3 {
        var f3 := With(f2, cs[2]);
        assert cs[2..][1..] == cs[3..] && WithAll(f2, cs[2..]) == WithAll(f3, cs[3..]);
        if |cs| == 4 {
          assert cs[3..][1..] == [] && WithAll(f3, cs[3..]) == WithAll(With(f3, cs[3]), []);
        }
      }
    }
  }

  lemma GroupOpsFaces(l: seq<Condition>, g: Group, spec: Spec, clock: nat -> int, k: nat)
    ensures FacesOf(ApplyAll(l, GroupOps(g, spec, clock, k))) == SetFaces(FacesOf(l), g, spec)
  {
    if g.RemoveReplicating? {
      assert [Unset(Replicating)][..0] == [];
      assert ApplyAll(l, [Unset(Replicating)][..0]) == l;
      DropFaces(l);
    } else {
      SetOpsFaces(l, Sets(g, spec.source, spec.generation), clock, k);
      SetsFaces(FacesOf(l), g, spec);
    }
  }

  function SetAllFaces(fs: Faces, gs: seq<Group>, spec: Spec): Faces
    decreases |gs|
  {
    if gs == [] then fs else SetFaces(SetAllFaces(fs, gs[..|gs| - 1], spec), gs[|gs| - 1], spec)
  }

  /** Any functions in a row, on any list. */
  lemma {:induction false} AllOpsFaces(l: seq<Condition>, gs: seq<Group>, spec: Spec, clock: nat -> int)
    ensures FacesOf(ApplyAll(l, AllOps(gs, spec, clock))) == SetAllFaces(FacesOf(l), gs, spec)
    decreases |gs|
  {
    if gs != [] {
      var n := |gs| - 1;
      var before := AllOps(gs[..n], spec, clock);
      AllOpsFaces(l, gs[..n], spec, clock);
      ApplyAllConcat(l, before, GroupOps(gs[n], spec, clock, |before|));
      GroupOpsFaces(ApplyAll(l, before), gs[n], spec, clock, |before|);
    }
  }

  lemma OneMore(fs: Faces, gs: seq<Group>, g: Group, spec: Spec)
    ensures SetAllFaces(fs, gs + [g], spec) == SetFaces(SetAllFaces(fs, gs, spec), g, spec)
  {
    assert (gs + [g])[..|gs|] == gs;
  }

  lemma One(fs: Faces, g: Group, spec: Spec)
    ensures SetAllFaces(fs, [g], spec) == SetFaces(fs, g, spec)
  {
    assert [g][..0] == [];
    assert SetAllFaces(fs, [g][..0], spec) == fs;
  }

  lemma Two(fs: Faces, g: Group, h: Group, spec: Spec)
    ensures SetAllFaces(fs, [g, h], spec) == SetFaces(SetFaces(fs, g, spec), h, spec)
  {
    One(fs, g, spec);
    OneMore(fs, [g], h, spec);
    assert [g] + [h] == [g, h];
  }

  // ----- What a reconcile leads to -----

  /** What is said of each type after a reconcile, by the list that it stores. */
  function FacesAfter(l: seq<Condition>, spec: Spec, s: State, a: Answers, clock: nat -> int): Faces {
    FacesOf(ApplyAll(l, AllOps(Decide(spec, s, a).groups, Named(spec, a), clock)))
  }

  predicate Says(f: Face, status: Status, reason: Reason) { f.Shows? && f.status == status && f.reason == reason }

  /** Completed, Degraded and Resyncing. */
  predicate Trio(fs: Faces, completed: Status, why: Reason, degraded: Status, cause: Reason, resyncing: Status, note: Reason) {
    Says(fs.completed, completed, why) && Says(fs.degraded, degraded, cause) && Says(fs.resyncing, resyncing, note)
  }

  lemma Follow(l: seq<Condition>, spec: Spec, s: State, a: Answers, clock: nat -> int)
    ensures FacesAfter(l, spec, s, a, clock) == SetAllFaces(FacesOf(l), Decide(spec, s, a).groups, Named(spec, a))
  {
    AllOpsFaces(l, Decide(spec, s, a).groups, Named(spec, a), clock);
  }

  /** A resync that is ready: one call, forced. */
  lemma ResyncReadyOutcome(l: seq<Condition>, spec: Spec, s: State, a: Answers, clock: nat -> int)
    requires spec.want.Resync? && a.early.None? && a.resync.Ready?
    ensures Decide(spec, s, a).rpcs == [ResyncReady(true)] && Decide(spec, s, a).state == SecondaryState
    ensures var fs := FacesAfter(l, spec, s, a, clock);
      Trio(fs, Yes, Demoted, No, Healthy, No, NotResyncing) && fs.replicating == FaceIn(l, Replicating)
  {
    Follow(l, spec, s, a, clock);
    assert [SetResync, SetNotDegraded] + [] == [SetResync, SetNotDegraded];
    Two(FacesOf(l), SetResync, SetNotDegraded, spec);
  }

  lemma ResyncPendingOutcome(l: seq<Condition>, spec: Spec, s: State, a: Answers, clock: nat -> int)
    requires spec.want.Resync? && a.early.None? && a.resync.NotReady?
    ensures Decide(spec, s, a).rpcs == [ResyncPending(true)] && Decide(spec, s, a).state == if s.NoState? then UnknownState else s
    ensures var fs := FacesAfter(l, spec, s, a, clock);
      Trio(fs, Yes, Demoted, Yes, VolumeDegraded, Yes, ResyncTriggered) && fs.replicating == Absent
  {
    Follow(l, spec, s, a, clock);
    Two(FacesOf(l), SetResync, RemoveReplicating, spec);
  }

  lemma ResyncFailedOutcome(l: seq<Condition>, spec: Spec, s: State, a: Answers, clock: nat -> int)
    requires spec.want.Resync? && a.early.None? && (a.resync.Malformed? || a.resync.ResyncFailed?)
    ensures Decide(spec, s, a).rpcs == [] && Decide(spec, s, a).state == if s.NoState? then UnknownState else s
    ensures var fs := FacesAfter(l, spec, s, a, clock);
      Trio(fs, No, FailedToResync, Yes, Error, No, FailedToResync) && fs.replicating == FaceIn(l, Replicating)
  {
    Follow(l, spec, s, a, clock);
    var g := if a.resync.Malformed? then SetFailedResync(ResyncResponseNote, UNEXPECTED_TYPE) else SetFailedResync(ResyncNote, a.resync.error);
    assert Decide(spec, s, a).groups == [g];
    One(FacesOf(l), g, spec);
  }

  /** A demotion that fails, or the first one. */
  lemma DemoteOutcome(l: seq<Condition>, spec: Spec, s: State, a: Answers, clock: nat -> int)
    requires spec.want.Secondary? && a.early.None? && (a.demote.Fine? ==> !s.SecondaryState?)
    ensures var d, fs := Decide(spec, s, a), FacesAfter(l, spec, s, a, clock);
      if a.demote.Fine? then
        d.rpcs == [Demote] && d.state == SecondaryState && Trio(fs, Yes, Demoted, Yes, VolumeDegraded, No, NotResyncing)
      else
        d.rpcs == [] && d.state == (if s.NoState? then UnknownState else s) && Trio(fs, No, FailedToDemote, Yes, Error, No, NotResyncing)
  {
    Follow(l, spec, s, a, clock);
    One(FacesOf(l), Decide(spec, s, a).groups[0], spec);
  }

  /** A stored Secondary is demoted again and resynced, forced exactly if the spec asks for it: the resync is ready. */
  lemma ResecondReadyOutcome(l: seq<Condition>, spec: Spec, s: State, a: Answers, clock: nat -> int)
    requires spec.want.Secondary? && a.early.None? && a.demote.Fine? && s.SecondaryState? && a.resync.Ready?
    ensures Decide(spec, s, a).rpcs == [Demote, ResyncReady(spec.autoResync)] && Decide(spec, s, a).state == SecondaryState
    ensures var fs := FacesAfter(l, spec, s, a, clock);
      Trio(fs, Yes, Demoted, No, Healthy, No, NotResyncing) && fs.replicating == Absent
  {
    Follow(l, spec, s, a, clock);
    ResyncedAgain(spec, s, a);
    ResyncedFaces(FacesOf(l), spec);
  }

  lemma ResyncedAgain(spec: Spec, s: State, a: Answers)
    requires spec.want.Secondary? && a.early.None? && a.demote.Fine? && s.SecondaryState? && a.resync.Ready?
    ensures Decide(spec, s, a).groups == [SetDemoted, SetResync] + [SetNotDegraded] + [RemoveReplicating]
  {
    assert [SetDemoted] + ([SetResync, SetNotDegraded] + [RemoveReplicating]) == [SetDemoted, SetResync] + [SetNotDegraded] + [RemoveReplicating];
  }

  lemma ResyncedFaces(fs: Faces, spec: Spec)
    ensures var fs' := SetAllFaces(fs, [SetDemoted, SetResync] + [SetNotDegraded] + [RemoveReplicating], spec);
      Trio(fs', Yes, Demoted, No, Healthy, No, NotResyncing) && fs'.replicating == Absent
  {
    Two(fs, SetDemoted, SetResync, spec);
    OneMore(fs, [SetDemoted, SetResync], SetNotDegraded, spec);
    OneMore(fs, [SetDemoted, SetResync] + [SetNotDegraded], RemoveReplicating, spec);
  }

  lemma ResecondPendingOutcome(l: seq<Condition>, spec: Spec, s: State, a: Answers, clock: nat -> int)
    requires spec.want.Secondary? && a.early.None? && a.demote.Fine? && s.SecondaryState? && a.resync.NotReady?
    ensures Decide(spec, s, a).rpcs == [Demote, ResyncPending(spec.autoResync)] && Decide(spec, s, a).state == SecondaryState
    ensures var fs := FacesAfter(l, spec, s, a, clock);
      Trio(fs, Yes, Demoted, Yes, VolumeDegraded, Yes, ResyncTriggered) && fs.replicating == Absent
  {
    Follow(l, spec, s, a, clock);
    assert Decide(spec, s, a).groups == [SetDemoted, SetResync] + [RemoveReplicating];
    Two(FacesOf(l), SetDemoted, SetResync, spec);
    OneMore(FacesOf(l), [SetDemoted, SetResync], RemoveReplicating, spec);
  }

  lemma ResecondFailedOutcome(l: seq<Condition>, spec: Spec, s: State, a: Answers, clock: nat -> int)
    requires spec.want.Secondary? && a.early.None? && a.demote.Fine? && s.SecondaryState? && (a.resync.Malformed? || a.resync.ResyncFailed?)
    ensures Decide(spec, s, a).rpcs == [Demote] && Decide(spec, s, a).state == SecondaryState
    ensures var fs := FacesAfter(l, spec, s, a, clock);
      Trio(fs, No, FailedToResync, Yes, Error, No, FailedToResync) && fs.replicating == FaceIn(l, Replicating)
  {
    Follow(l, spec, s, a, clock);
    var g := if a.resync.Malformed? then SetFailedResync(ResyncResponseNote, UNEXPECTED_TYPE) else SetFailedResync(ResyncNote, a.resync.error);
    assert Decide(spec, s, a).groups == [SetDemoted, g];
    Two(FacesOf(l), SetDemoted, g, spec);
  }

  /** What the backend's replication info makes of the face of Replicating. */
  predicate InfoShown(f: Face, f': Face, a: InfoAnswer) {
    match a
    case Info(status, _) =>
      (match status
       case InfoHealthy => Says(f', Yes, IsReplicating)
       case InfoDegraded => Says(f', No, NotReplicating)
       case InfoError => Says(f', No, NotReplicating)
       case InfoUnknown => Says(f', Unknown, IsReplicating)
       case InfoOther => f' == f)
    case InfoFailed(_) => Says(f', Unknown, IsReplicating)
    case NoInfo => f' == f
    case Unimplemented => f' == f
  }

  lemma PromotedFaces(fs: Faces, a: InfoAnswer, spec: Spec)
    ensures var fs' := SetAllFaces(fs, [SetPromoted] + InfoGroups(a), spec);
      Trio(fs', Yes, Promoted, No, Healthy, No, NotResyncing) && InfoShown(fs.replicating, fs'.replicating, a)
  {
    var gs := InfoGroups(a);
    One(fs, SetPromoted, spec);
    if gs == [] {
      assert [SetPromoted] + gs == [SetPromoted];
    } else {
      assert gs == [gs[0]];
      OneMore(fs, [SetPromoted], gs[0], spec);
    }
  }

  /** A volume that is primary, or becomes it: the calls, and what the backend's replication info makes of Replicating. */
  lemma PrimaryOutcome(l: seq<Condition>, spec: Spec, s: State, a: Answers, clock: nat -> int)
    requires spec.want.Primary? && a.early.None?
    requires s.PrimaryState? || (a.enable.Fine? && (a.promote.Fine? || (a.promote.Known? && a.force.Fine?)))
    ensures Decide(spec, s, a).rpcs == (if s.PrimaryState? then [] else [Enable, Promote(a.promote.Known?)]) && Decide(spec, s, a).state == PrimaryState
    ensures var fs := FacesAfter(l, spec, s, a, clock);
      Trio(fs, Yes, Promoted, No, Healthy, No, NotResyncing) && InfoShown(FaceIn(l, Replicating), fs.replicating, a.info)
  {
    Follow(l, spec, s, a, clock);
    assert Decide(spec, s, a).groups == [SetPromoted] + InfoGroups(a.info);
    PromotedFaces(FacesOf(l), a.info, spec);
  }

  /** A promotion that fails: how far it got, and why. */
  lemma PromotionFailedOutcome(l: seq<Condition>, spec: Spec, s: State, a: Answers, clock: nat -> int)
    requires spec.want.Primary? && a.early.None? && !s.PrimaryState?
    requires !(a.enable.Fine? && (a.promote.Fine? || (a.promote.Known? && a.force.Fine?)))
    ensures Decide(spec, s, a).rpcs == (if a.enable.Fine? then [Enable] else []) && Decide(spec, s, a).state == if s.NoState? then UnknownState else s
    ensures var fs := FacesAfter(l, spec, s, a, clock);
      Trio(fs, No, FailedToPromote, Yes, Error, No, NotResyncing) && fs.replicating == FaceIn(l, Replicating)
      && if a.enable.Known? then Says(fs.validated, No, PrerequisiteNotMet) else Says(fs.validated, Yes, PrerequisiteMet)
  {
    Follow(l, spec, s, a, clock);
    One(FacesOf(l), Decide(spec, s, a).groups[0], spec);
  }

  /** A failure before the backend is reached calls nothing, keeps the state and shows the failure of what was wanted. */
  lemma EarlyOutcome(l: seq<Condition>, spec: Spec, s: State, a: Answers, clock: nat -> int)
    requires a.early.Some?
    ensures Decide(spec, s, a).rpcs == [] && Decide(spec, s, a).state == if s.NoState? then UnknownState else s
    ensures var fs := FacesAfter(l, spec, s, a, clock);
      match spec.want
      case Primary => Trio(fs, No, FailedToPromote, Yes, Error, No, NotResyncing) && Says(fs.validated, Yes, PrerequisiteMet)
      case Secondary => Trio(fs, No, FailedToDemote, Yes, Error, No, NotResyncing)
      case Resync => Trio(fs, No, FailedToResync, Yes, Error, No, FailedToResync)
      case Unsupported => fs == FacesOf(l)
  {
    Follow(l, spec, s, a, clock);
    if !spec.want.Unsupported? { One(FacesOf(l), Decide(spec, s, a).groups[0], Named(spec, a)); }
  }

  /** A state that is not supported is not acted on. */
  lemma UnsupportedOutcome(l: seq<Condition>, spec: Spec, s: State, a: Answers, clock: nat -> int)
    requires spec.want.Unsupported?
    ensures Decide(spec, s, a).rpcs == [] && Decide(spec, s, a).state == if s.NoState? then UnknownState else s
    ensures FacesAfter(l, spec, s, a, clock) == FacesOf(l)
  {
  }
}
