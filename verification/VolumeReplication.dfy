/**
 The VolumeReplication state machine: what one reconcile asks of the storage backend, what it
 stores in Status.State, and which conditions it sets, for any answers of the backend.
 */
module VolumeReplication {
  import opened Wrappers
  import opened Conditions

  datatype Want = Primary | Secondary | Resync | Unsupported

  datatype State = NoState | PrimaryState | SecondaryState | UnknownState

  /** source: the data source as messages name it. */
  datatype Spec = Spec(want: Want, autoResync: bool, source: string, generation: int)

  /** How an RPC ends; Known is the one error code each call treats specially. */
  datatype Answer = Fine | Known(error: string) | Failed(error: string)

  datatype ResyncAnswer = Ready | NotReady | Malformed | ResyncFailed(error: string)

  datatype InfoStatus = InfoUnknown | InfoHealthy | InfoDegraded | InfoError | InfoOther

  datatype InfoAnswer = Info(status: InfoStatus, text: string) | NoInfo | Unimplemented | InfoFailed(error: string)

  /** A failure before the backend is reached; some callers name the source differently there. */
  datatype Early = Early(message: Note, detail: string, source: string)

  datatype Answers = Answers(early: Option<Early>, enable: Answer, promote: Answer, force: Answer,
                             demote: Answer, resync: ResyncAnswer, info: InfoAnswer)

  const UNEXPECTED_TYPE := "received response of unexpected type"

  /** Calls that the backend answered with success. */
  datatype Rpc = Enable | Promote(forced: bool) | Demote | ResyncReady(forced: bool) | ResyncPending(forced: bool)

  function KeepState(s: State): State { if s.NoState? then UnknownState else s }

  function GetReplicationState(w: Want): State {
    match w case Primary => PrimaryState case Secondary => SecondaryState case Resync => SecondaryState case Unsupported => UnknownState
  }

  // ----- The set*Condition functions -----

  datatype Group =
    | SetPromoted
    | SetFailedPromotion(completed: Note, detail: string)
    | SetFailedValidation(degraded: Note, detail: string)
    | SetNotDegraded
    | SetDemoted
    | SetFailedDemotion(completed: Note, detail: string)
    | SetResync
    | SetFailedResync(completed: Note, detail: string)
    | SetReplicating(status: Status, text: string)
    | RemoveReplicating

  /** The conditions a set*Condition function sets, in order. */
  function Sets(group: Group, src: string, g: int): seq<Condition> {
    var idle := Condition(Resyncing, No, NotResyncing, About(src, IsNotResyncing), g, 0);
    match group
    case SetPromoted =>
      [Condition(Completed, Yes, Promoted, About(src, IsPromoted), g, 0),
       Condition(Degraded, No, Healthy, About(src, IsHealthy), g, 0), idle]
    case SetFailedPromotion(m, d) =>
      [Condition(Completed, No, FailedToPromote, Plain(m), g, 0),
       Condition(Degraded, Yes, Error, Because(src, DidNotPromote, d), g, 0), idle,
       Condition(Validated, Yes, PrerequisiteMet, About(src, IsValidated), g, 0)]
    case SetFailedValidation(m, d) =>
      [Condition(Completed, No, FailedToPromote, About(src, DidNotPromote), g, 0),
       Condition(Degraded, Yes, Error, Plain(m), g, 0), idle,
       Condition(Validated, No, PrerequisiteNotMet, MissedPrerequisite(d), g, 0)]
    case SetNotDegraded =>
      [Condition(Degraded, No, Healthy, About(src, IsDemoted), g, 0), idle]
    case SetDemoted =>
      [Condition(Completed, Yes, Demoted, About(src, IsDemoted), g, 0),
       Condition(Degraded, Yes, VolumeDegraded, About(src, IsDegraded), g, 0), idle]
    case SetFailedDemotion(m, d) =>
      [Condition(Completed, No, FailedToDemote, Plain(m), g, 0),
       Condition(Degraded, Yes, Error, Because(src, DidNotDemote, d), g, 0), idle]
    case SetResync =>
      [Condition(Completed, Yes, Demoted, About(src, IsDemoted), g, 0),
       Condition(Degraded, Yes, VolumeDegraded, About(src, IsDegraded), g, 0),
       Condition(Resyncing, Yes, ResyncTriggered, About(src, IsResyncing), g, 0)]
    case SetFailedResync(m, d) =>
      [Condition(Completed, No, FailedToResync, Plain(m), g, 0),
       Condition(Degraded, Yes, Error, Because(src, DidNotResync, d), g, 0), idle.(reason := FailedToResync)]
    case SetReplicating(s, text) =>
      [Condition(Replicating, s, if s.No? then NotReplicating else IsReplicating,
                 Because(src, match s case Yes => Replicates case No => DoesNotReplicate case Unknown => ReplicationUnknown, text), g, 0)]
    case RemoveReplicating => []
  }

  /** The k-th operation of a reconcile happens at clock(k). */
  function SetOps(cs: seq<Condition>, clock: nat -> int, k: nat): (ops: seq<Op>)
    ensures |ops| == |cs| && forall i :: 0 <= i < |cs| ==> ops[i] == Set(cs[i], clock(k + i))
  {
    seq(|cs|, i requires 0 <= i < |cs| => Set(cs[i], clock(k + i)))
  }

  function GroupOps(group: Group, spec: Spec, clock: nat -> int, k: nat): seq<Op> {
    if group.RemoveReplicating? then [Unset(Replicating)] else SetOps(Sets(group, spec.source, spec.generation), clock, k)
  }

  function AllOps(groups: seq<Group>, spec: Spec, clock: nat -> int): seq<Op>
    decreases |groups|
  {
    if groups == [] then []
    else
      var before := AllOps(groups[..|groups| - 1], spec, clock);
      before + GroupOps(groups[|groups| - 1], spec, clock, |before|)
  }

  // ----- The decision of one reconcile -----

  datatype Decision = Decision(rpcs: seq<Rpc>, groups: seq<Group>, state: State)

  function FailureGroups(w: Want, m: Note, d: string): seq<Group> {
    match w
    case Primary => [SetFailedPromotion(m, d)]
    case Secondary => [SetFailedDemotion(m, d)]
    case Resync => [SetFailedResync(m, d)]
    case Unsupported => []
  }

  function InfoGroups(a: InfoAnswer): seq<Group> {
    match a
    case Info(s, text) =>
      (match s
       case InfoUnknown => [SetReplicating(Unknown, text)]
       case InfoHealthy => [SetReplicating(Yes, text)]
       case InfoDegraded => [SetReplicating(No, text)]
       case InfoError => [SetReplicating(No, text)]
       case InfoOther => [])
    case NoInfo => []
    case Unimplemented => []
    case InfoFailed(e) => [SetReplicating(Unknown, e)]
  }

  function DecideResync(w: Want, force: bool, s: State, a: ResyncAnswer): Decision {
    match a
    case ResyncFailed(e) => Decision([], [SetFailedResync(ResyncNote, e)], KeepState(s))
    case Malformed =>
      Decision([], [SetFailedResync(ResyncResponseNote, UNEXPECTED_TYPE)], KeepState(s))
    case NotReady => Decision([ResyncPending(force)], [SetResync, RemoveReplicating], KeepState(s))
    case Ready =>
      Decision([ResyncReady(force)], [SetResync, SetNotDegraded] + (if w.Secondary? then [RemoveReplicating] else []),
               GetReplicationState(w))
  }

  function DecidePrimary(s: State, a: Answers): Decision {
    var promoted := [SetPromoted] + InfoGroups(a.info);
    if s.PrimaryState? then Decision([], promoted, PrimaryState)
    else if a.enable.Known? then Decision([], [SetFailedValidation(EnableNote, a.enable.error)], KeepState(s))
    else if a.enable.Failed? then Decision([], [SetFailedPromotion(EnableNote, a.enable.error)], KeepState(s))
    else if a.promote.Fine? then Decision([Enable, Promote(false)], promoted, PrimaryState)
    else if a.promote.Failed? then Decision([Enable], [SetFailedPromotion(PromoteNote, a.promote.error)], KeepState(s))
    else if a.force.Fine? then Decision([Enable, Promote(true)], promoted, PrimaryState)
    else Decision([Enable], [SetFailedPromotion(ForcePromoteNote, a.force.error)], KeepState(s))
  }

  function DecideSecondary(auto: bool, s: State, a: Answers): Decision {
    if !a.demote.Fine? then Decision([], [SetFailedDemotion(DemoteNote, a.demote.error)], KeepState(s))
    else if !s.SecondaryState? then Decision([Demote], [SetDemoted], SecondaryState)
    else
      var d := DecideResync(Secondary, auto, s, a.resync);
      Decision([Demote] + d.rpcs, [SetDemoted] + d.groups, d.state)
  }

  function Decide(spec: Spec, s: State, a: Answers): Decision {
    if a.early.Some? then Decision([], FailureGroups(spec.want, a.early.value.message, a.early.value.detail), KeepState(s))
    else
      match spec.want
      case Primary => DecidePrimary(s, a)
      case Secondary => DecideSecondary(spec.autoResync, s, a)
      case Resync => DecideResync(Resync, true, s, a.resync)
      case Unsupported => Decision([], [], KeepState(s))
  }

  /** The spec as the conditions of this reconcile name its source. */
  function Named(spec: Spec, a: Answers): Spec { if a.early.Some? then spec.(source := a.early.value.source) else spec }

  lemma {:induction false} ApplyAllConcat(l: seq<Condition>, a: seq<Op>, b: seq<Op>)
    ensures ApplyAll(l, a + b) == ApplyAll(ApplyAll(l, a), b)
    decreases |b|
  {
    if b == [] {
      assert a + b == a;
    } else {
      assert (a + b)[..|a + b| - 1] == a + b[..|b| - 1];
      ApplyAllConcat(l, a, b[..|b| - 1]);
    }
  }

  predicate Pin(k: int) { k == 0 }

  /** One VolumeReplication instance during a reconcile; ops and rpcs remember what was done. */
  class Instance {
    const spec: Spec
    var state: State
    const conditions: ConditionList
    var rpcs: seq<Rpc>
    const clock: nat -> int
    ghost const start: seq<Condition>
    ghost var groups: seq<Group>
    ghost var ops: seq<Op>
    var calls: nat

    constructor (spec: Spec, state: State, list: seq<Condition>, clock: nat -> int)
      ensures Valid() && this.spec == spec && this.state == state && this.start == list && this.clock == clock
      ensures rpcs == [] && groups == [] && fresh(conditions)
    {
      this.spec, this.state, this.clock, this.start := spec, state, clock, list;
      rpcs, groups, ops, calls := [], [], [], 0;
      conditions := new ConditionList();
      new;
      conditions.items := list;
    }

    ghost predicate Valid()
      reads this`groups, this`ops, this`calls, conditions
    {
      calls == |ops| && conditions.items == ApplyAll(start, ops) && Recorded()
    }

    /**
     ops are the operations of groups.  The equality is guarded by a trigger, so that methods which only pass it
     on do not unfold AllOps; SetConditions and the two entry points release it with Pin(0).
     */
    ghost predicate Recorded()
      reads this`groups, this`ops
    {
      forall k {:trigger Pin(k)} :: Pin(k) ==> ops == AllOps(groups, spec, clock)
    }

    method SetEach(cs: seq<Condition>)
      modifies this`calls, conditions
      ensures calls == old(calls) + |cs|
      ensures conditions.items == ApplyAll(old(conditions.items), SetOps(cs, clock, old(calls)))
    {
      ghost var ops := SetOps(cs, clock, calls);
      for i := 0 to |cs|
        invariant calls == old(calls)
        invariant conditions.items == ApplyAll(old(conditions.items), ops[..i])
      {
        assert ops[..i + 1][..i] == ops[..i];
        conditions.SetStatusCondition(cs[i], clock(calls + i));
      }
      assert ops[..|cs|] == ops;
      calls := calls + |cs|;
    }

    /** Any of the set*Condition functions, and the removal of the Replicating condition. */
    method SetConditions(g: Group)
      requires Valid()
      modifies this`groups, this`ops, this`calls, conditions
      ensures Valid() && groups == old(groups) + [g]
    {
      ghost var before := ops;
      assert Pin(0);
      if g.RemoveReplicating? {
        conditions.RemoveCondition(Replicating);
        assert [Unset(Replicating)][..0] == [];
        assert ApplyAll(old(conditions.items), [Unset(Replicating)][..0]) == old(conditions.items);
        assert conditions.items == ApplyAll(old(conditions.items), [Unset(Replicating)]);
        calls := calls + 1;
      } else {
        SetEach(Sets(g, spec.source, spec.generation));
      }
      ApplyAllConcat(start, before, GroupOps(g, spec, clock, |before|));
      groups, ops := groups + [g], before + GroupOps(g, spec, clock, |before|);
      assert groups[..|groups| - 1] == old(groups);
    }

    method EnableReplication(a: Answers) returns (ok: bool)
      requires Valid()
      modifies this`groups, this`ops, this`calls, this`rpcs, conditions
      ensures Valid() && ok == a.enable.Fine?
      ensures rpcs == old(rpcs) + if ok then [Enable] else []
      ensures groups == old(groups) + match a.enable
        case Fine => []
        case Known(e) => [SetFailedValidation(EnableNote, e)]
        case Failed(e) => [SetFailedPromotion(EnableNote, e)]
    {
      ok := a.enable.Fine?;
      if ok {
        rpcs := rpcs + [Enable];
      } else if a.enable.Known? {
        SetConditions(SetFailedValidation(EnableNote, a.enable.error));
      } else {
        SetConditions(SetFailedPromotion(EnableNote, a.enable.error));
      }
    }

    method MarkVolumeAsPrimary(a: Answers) returns (ok: bool)
      requires Valid()
      modifies this`groups, this`ops, this`calls, this`rpcs, conditions
      ensures Valid() && ok == (a.promote.Fine? || (a.promote.Known? && a.force.Fine?))
      ensures rpcs == old(rpcs) + if ok then [Promote(a.promote.Known?)] else []
      ensures groups == old(groups) + if ok then [] else if a.promote.Failed?
        then [SetFailedPromotion(PromoteNote, a.promote.error)]
        else [SetFailedPromotion(ForcePromoteNote, a.force.error)]
    {
      ok := true;
      if !a.promote.Fine? {
        if a.promote.Failed? {
          SetConditions(SetFailedPromotion(PromoteNote, a.promote.error));
          return false;
        }
        if !a.force.Fine? {
          SetConditions(SetFailedPromotion(ForcePromoteNote, a.force.error));
          return false;
        }
        rpcs := rpcs + [Promote(true)];
      } else {
        rpcs := rpcs + [Promote(false)];
      }
    }

    method MarkVolumeAsSecondary(a: Answers) returns (ok: bool)
      requires Valid()
      modifies this`groups, this`ops, this`calls, this`rpcs, conditions
      ensures Valid() && ok == a.demote.Fine?
      ensures rpcs == old(rpcs) + if ok then [Demote] else []
      ensures groups == old(groups) + if ok then [SetDemoted] else [SetFailedDemotion(DemoteNote, a.demote.error)]
    {
      ok := a.demote.Fine?;
      if !ok {
        SetConditions(SetFailedDemotion(DemoteNote, a.demote.error));
        return;
      }
      rpcs := rpcs + [Demote];
      SetConditions(SetDemoted);
    }

    method ResyncVolume(a: ResyncAnswer, force: bool) returns (requeue: bool, ok: bool)
      requires Valid()
      modifies this`groups, this`ops, this`calls, this`rpcs, conditions
      ensures Valid() && requeue == a.NotReady? && ok == (a.Ready? || a.NotReady?)
      ensures rpcs == old(rpcs) + match a case Ready => [ResyncReady(force)] case NotReady => [ResyncPending(force)] case _ => []
      ensures groups == old(groups) + match a
        case Ready => [SetResync, SetNotDegraded]
        case NotReady => [SetResync]
        case Malformed => [SetFailedResync(ResyncResponseNote, UNEXPECTED_TYPE)]
        case ResyncFailed(e) => [SetFailedResync(ResyncNote, e)]
    {
      requeue, ok := false, false;
      if a.ResyncFailed? {
        SetConditions(SetFailedResync(ResyncNote, a.error));
        return;
      }
      if a.Malformed? {
        SetConditions(SetFailedResync(ResyncResponseNote, UNEXPECTED_TYPE));
        return;
      }
      ok := true;
      SetConditions(SetResync);
      if a.NotReady? {
        rpcs := rpcs + [ResyncPending(force)];
        return true, true;
      }
      rpcs := rpcs + [ResyncReady(force)];
      SetConditions(SetNotDegraded);
    }

    method ReconcilePrimary(a: Answers)
      requires Valid() && rpcs == [] && groups == [] && spec.want.Primary?
      modifies this, conditions
      ensures Valid() && Decision(rpcs, groups, state) == DecidePrimary(old(state), a)
    {
      var replicated := true;
      if !state.PrimaryState? {
        var enabled := EnableReplication(a);
        if !enabled {
          state := KeepState(state);
          return;
        }
        replicated := MarkVolumeAsPrimary(a);
      }
      if replicated {
        SetConditions(SetPromoted);
        assert groups == [SetPromoted];
      }
      Conclude(a.info, replicated, false);
    }

    method ResyncAndConclude(a: Answers, force: bool)
      requires Valid() && (spec.want.Secondary? || spec.want.Resync?)
      modifies this, conditions
      ensures Valid()
      ensures var d := DecideResync(spec.want, force, old(state), a.resync);
        rpcs == old(rpcs) + d.rpcs && groups == old(groups) + d.groups && state == d.state
    {
      var requeue, replicated := ResyncVolume(a.resync, force);
      Conclude(a.info, replicated, requeue);
    }

    method ReconcileSecondary(a: Answers)
      requires Valid() && rpcs == [] && groups == [] && spec.want.Secondary?
      modifies this, conditions
      ensures Valid() && Decision(rpcs, groups, state) == DecideSecondary(spec.autoResync, old(state), a)
    {
      var replicated := MarkVolumeAsSecondary(a);
      if !replicated {
        state := KeepState(state);
      } else if !state.SecondaryState? {
        state := GetReplicationState(spec.want);
      } else {
        ResyncAndConclude(a, spec.autoResync);
      }
    }

    /** Reconcile past the delete check, up to its one status write. */
    method Reconcile(a: Answers)
      requires Valid() && rpcs == [] && groups == [] && a.early.None?
      modifies this, conditions
      ensures Valid() && Decision(rpcs, groups, state) == Decide(spec, old(state), a)
      ensures conditions.items == ApplyAll(start, AllOps(groups, spec, clock))
    {
      match spec.want {
        case Primary => ReconcilePrimary(a);
        case Secondary => ReconcileSecondary(a);
        case Resync => ResyncAndConclude(a, true);
        case Unsupported => state := KeepState(state);
      }
      assert Pin(0);
    }

    /** setFailureCondition before the backend is reached. */
    method FailEarly(a: Answers)
      requires Valid() && rpcs == [] && groups == [] && a.early.Some?
      modifies this, conditions
      ensures Valid() && Decision(rpcs, groups, state) == Decide(spec, old(state), a)
      ensures conditions.items == ApplyAll(start, AllOps(groups, spec, clock))
    {
      match spec.want {
        case Primary => SetConditions(SetFailedPromotion(a.early.value.message, a.early.value.detail));
        case Secondary => SetConditions(SetFailedDemotion(a.early.value.message, a.early.value.detail));
        case Resync => SetConditions(SetFailedResync(a.early.value.message, a.early.value.detail));
        case Unsupported =>
      }
      state := KeepState(state);
      assert Pin(0);
    }

    /** The end of every reconcile that got an answer from the backend. */
    method Conclude(info: InfoAnswer, replicated: bool, requeue: bool)
      requires Valid()
      modifies this`state, this`groups, this`ops, this`calls, conditions
      ensures Valid() && state == if replicated && !requeue then GetReplicationState(spec.want) else KeepState(old(state))
      ensures groups == old(groups) + if !replicated then []
        else if requeue then [RemoveReplicating]
        else match spec.want case Primary => InfoGroups(info) case Secondary => [RemoveReplicating] case _ => []
    {
      if !replicated {
        state := KeepState(state);
        return;
      }
      if requeue {
        SetConditions(RemoveReplicating);
        state := KeepState(state);
        return;
      }
      if spec.want.Primary? {
        match info {
          case Info(s, text) =>
            match s {
              case InfoUnknown => SetConditions(SetReplicating(Unknown, text));
              case InfoHealthy => SetConditions(SetReplicating(Yes, text));
              case InfoDegraded => SetConditions(SetReplicating(No, text));
              case InfoError => SetConditions(SetReplicating(No, text));
              case InfoOther =>
            }
          case NoInfo =>
          case Unimplemented =>
          case InfoFailed(e) => SetConditions(SetReplicating(Unknown, e));
        }
      }
      if spec.want.Secondary? {
        SetConditions(RemoveReplicating);
      }
      state := GetReplicationState(spec.want);
    }
  }

  // ----- Runs -----

  /** One reconcile of a run; stored says whether its status write succeeded. */
  datatype Round = Round(spec: Spec, answers: Answers, clock: nat -> int, stored: bool)

  /** What is persisted, by the operations behind it, and every successful call so far. */
  datatype Machine = Machine(state: State, ops: seq<Op>, rpcs: seq<Rpc>)

  function Do(m: Machine, r: Round): Machine {
    var d := Decide(r.spec, m.state, r.answers);
    Machine(if r.stored then d.state else m.state,
            if r.stored then m.ops + AllOps(d.groups, Named(r.spec, r.answers), r.clock) else m.ops,
            m.rpcs + d.rpcs)
  }

  function DoAll(m: Machine, rs: seq<Round>): Machine
    decreases |rs|
  {
    if rs == [] then m else Do(DoAll(m, rs[..|rs| - 1]), rs[|rs| - 1])
  }

  const NEW := Machine(NoState, [], [])

  // ----- Status.State is true of the backend -----

  /** The last successful call among promotions and demotions was a promotion. */
  ghost predicate LastIsPromote(rpcs: seq<Rpc>) {
    exists i :: 0 <= i < |rpcs| && rpcs[i].Promote? && forall j :: i < j < |rpcs| ==> !rpcs[j].Demote?
  }

  /** A demotion or a finished resync came after every promotion. */
  ghost predicate DemotedSince(rpcs: seq<Rpc>) {
    exists i :: 0 <= i < |rpcs| && (rpcs[i].Demote? || rpcs[i].ResyncReady?) && forall j :: i < j < |rpcs| ==> !rpcs[j].Promote?
  }

  ghost predicate Truthful(m: Machine) {
    && (m.state.PrimaryState? ==> LastIsPromote(m.rpcs))
    && (m.state.SecondaryState? ==> DemotedSince(m.rpcs))
  }

  /** The backend is about to turn the volume against the stored state: to promote a secondary or to demote a primary. */
  predicate TurnsVolume(spec: Spec, s: State, a: Answers) {
    && a.early.None?
    && if spec.want.Primary? then s.SecondaryState? && a.enable.Fine? && (a.promote.Fine? || (a.promote.Known? && a.force.Fine?))
       else spec.want.Secondary? && s.PrimaryState? && a.demote.Fine?
  }

  /** Whatever the answers: a stored reconcile keeps the state truthful; a lost write does unless the volume turns. */
  lemma StepTruth(m: Machine, r: Round)
    requires Truthful(m)
    ensures Truthful(Do(m, r)) <==> r.stored || !TurnsVolume(r.spec, m.state, r.answers)
  {
    var d := Decide(r.spec, m.state, r.answers);
    DecisionShape(r.spec, m.state, r.answers);
    TurningCalls(r.spec, m.state, r.answers);
    LastIsPromoteAppend(m.rpcs, d.rpcs);
    DemotedSinceAppend(m.rpcs, d.rpcs);
    if d.rpcs != [] {
      var last := d.rpcs[|d.rpcs| - 1];
      assert last.Promote? ==> LastIsPromote(d.rpcs);
      assert last.Demote? || last.ResyncReady? || (last.ResyncPending? && |d.rpcs| == 2) ==> DemotedSince(d.rpcs) by {
        if last.ResyncPending? && |d.rpcs| == 2 { assert d.rpcs[0].Demote?; }
      }
    }
  }

  lemma TurningCalls(spec: Spec, s: State, a: Answers)
    ensures var d := Decide(spec, s, a);
      TurnsVolume(spec, s, a) <==>
        || (s.SecondaryState? && exists i :: 0 <= i < |d.rpcs| && d.rpcs[i].Promote?)
        || (s.PrimaryState? && exists i :: 0 <= i < |d.rpcs| && d.rpcs[i].Demote?)
  {
    var d := Decide(spec, s, a);
    DecisionShape(spec, s, a);
    if TurnsVolume(spec, s, a) {
      assert spec.want.Primary? ==> d.rpcs[1].Promote?;
      assert spec.want.Secondary? ==> d.rpcs[0].Demote?;
    }
  }

  lemma LastIsPromoteAppend(a: seq<Rpc>, b: seq<Rpc>)
    ensures LastIsPromote(a + b) <==> LastIsPromote(b) || (LastIsPromote(a) && forall j :: 0 <= j < |b| ==> !b[j].Demote?)
  {
    var c := a + b;
    if LastIsPromote(b) {
      var i :| 0 <= i < |b| && b[i].Promote? && forall j :: i < j < |b| ==> !b[j].Demote?;
      assert c[|a| + i] == b[i];
    } else if LastIsPromote(a) && forall j :: 0 <= j < |b| ==> !b[j].Demote? {
      var i :| 0 <= i < |a| && a[i].Promote? && forall j :: i < j < |a| ==> !a[j].Demote?;
      assert c[i] == a[i];
    } else if LastIsPromote(c) {
      var i :| 0 <= i < |c| && c[i].Promote? && forall j :: i < j < |c| ==> !c[j].Demote?;
      if i < |a| {
        assert a[i] == c[i];
        forall j | 0 <= j < |b| ensures !b[j].Demote? { assert b[j] == c[|a| + j]; }
        forall j | i < j < |a| ensures !a[j].Demote? { assert a[j] == c[j]; }
      } else {
        assert b[i - |a|] == c[i];
        forall j | i - |a| < j < |b| ensures !b[j].Demote? { assert b[j] == c[|a| + j]; }
      }
    }
  }

  lemma DemotedSinceAppend(a: seq<Rpc>, b: seq<Rpc>)
    ensures DemotedSince(a + b) <==> DemotedSince(b) || (DemotedSince(a) && forall j :: 0 <= j < |b| ==> !b[j].Promote?)
  {
    var c := a + b;
    if DemotedSince(b) {
      var i :| 0 <= i < |b| && (b[i].Demote? || b[i].ResyncReady?) && forall j :: i < j < |b| ==> !b[j].Promote?;
      assert c[|a| + i] == b[i];
    } else if DemotedSince(a) && forall j :: 0 <= j < |b| ==> !b[j].Promote? {
      var i :| 0 <= i < |a| && (a[i].Demote? || a[i].ResyncReady?) && forall j :: i < j < |a| ==> !a[j].Promote?;
      assert c[i] == a[i];
    } else if DemotedSince(c) {
      var i :| 0 <= i < |c| && (c[i].Demote? || c[i].ResyncReady?) && forall j :: i < j < |c| ==> !c[j].Promote?;
      if i < |a| {
        assert a[i] == c[i];
        forall j | 0 <= j < |b| ensures !b[j].Promote? { assert b[j] == c[|a| + j]; }
        forall j | i < j < |a| ensures !a[j].Promote? { assert a[j] == c[j]; }
      } else {
        assert b[i - |a|] == c[i];
        forall j | i - |a| < j < |b| ensures !b[j].Promote? { assert b[j] == c[|a| + j]; }
      }
    }
  }

  /** The status write of a round is not lost just when the volume turns. */
  ghost predicate Careful(rs: seq<Round>, i: nat)
    requires i < |rs|
  {
    rs[i].stored || !TurnsVolume(rs[i].spec, DoAll(NEW, rs[..i]).state, rs[i].answers)
  }

  lemma PrefixStep(rs: seq<Round>, i: nat)
    requires i < |rs|
    ensures DoAll(NEW, rs[..i + 1]) == Do(DoAll(NEW, rs[..i]), rs[i])
  {
    assert rs[..i + 1][..i] == rs[..i];
  }

  lemma {:induction false} StaysTrue(rs: seq<Round>, k: nat)
    requires k <= |rs| && forall i :: 0 <= i < k ==> Careful(rs, i)
    ensures Truthful(DoAll(NEW, rs[..k]))
  {
    if k > 0 {
      StaysTrue(rs, k - 1);
      PrefixStep(rs, k - 1);
      StepTruth(DoAll(NEW, rs[..k - 1]), rs[k - 1]);
      assert Careful(rs, k - 1);
    }
  }

  /** Status.State is true of the backend all through a run, exactly if no status write is lost just when the volume turns. */
  lemma StateIsTrue(rs: seq<Round>)
    ensures (forall k :: 0 <= k <= |rs| ==> Truthful(DoAll(NEW, rs[..k]))) <==> (forall i :: 0 <= i < |rs| ==> Careful(rs, i))
  {
    if forall i :: 0 <= i < |rs| ==> Careful(rs, i) {
      forall k | 0 <= k <= |rs| ensures Truthful(DoAll(NEW, rs[..k])) { StaysTrue(rs, k); }
    }
    if forall k :: 0 <= k <= |rs| ==> Truthful(DoAll(NEW, rs[..k])) {
      forall i | 0 <= i < |rs| ensures Careful(rs, i) {
        assert Truthful(DoAll(NEW, rs[..i])) && Truthful(DoAll(NEW, rs[..i + 1]));
        PrefixStep(rs, i);
        StepTruth(DoAll(NEW, rs[..i]), rs[i]);
      }
    }
  }

  const ALL_FINE := Answers(None, Fine, Fine, Fine, Fine, Ready, NoInfo)

  /** A promotion that is stored, then a demotion whose status write is lost. */
  function PromotedThenLost(source: string, clock: nat -> int): seq<Round> {
    [Round(Spec(Primary, false, source, 1), ALL_FINE, clock, true), Round(Spec(Secondary, false, source, 2), ALL_FINE, clock, false)]
  }

  /** The state still says Primary of a demoted volume. */
  lemma LostDemotion(source: string, clock: nat -> int)
    ensures DoAll(NEW, PromotedThenLost(source, clock)).state == PrimaryState
    ensures DoAll(NEW, PromotedThenLost(source, clock)).rpcs == [Enable, Promote(false), Demote]
    ensures !Truthful(DoAll(NEW, PromotedThenLost(source, clock)))
  {
    var rs := PromotedThenLost(source, clock);
    PrefixStep(rs, 0);
    PrefixStep(rs, 1);
    assert rs[..2] == rs && rs[..0] == [] && DoAll(NEW, rs[..0]) == NEW;
    assert Do(NEW, rs[0]).state == PrimaryState && Do(NEW, rs[0]).rpcs == [] + [Enable, Promote(false)];
    assert DoAll(NEW, rs).rpcs[2] == Demote;
  }

  // ----- The three core conditions -----

  datatype Core = Core(completed: Option<Status>, degraded: Option<Status>, resyncing: Option<Status>)

  function CoreOf(l: seq<Condition>): Core { Core(StatusIn(l, Completed), StatusIn(l, Degraded), StatusIn(l, Resyncing)) }

  /** All three or none; a failure is degraded and not resyncing; a resync is completed and degraded. */
  predicate Coherent(c: Core) {
    && (c.completed.Some? <==> c.degraded.Some?) && (c.degraded.Some? <==> c.resyncing.Some?)
    && (c.completed == Some(No) ==> c.degraded == Some(Yes) && c.resyncing == Some(No))
    && (c.resyncing == Some(Yes) ==> c.completed == Some(Yes) && c.degraded == Some(Yes))
  }

  function Core1(c: Core, e: Condition): Core {
    match e.kind
    case Completed => c.(completed := Some(e.status))
    case Degraded => c.(degraded := Some(e.status))
    case Resyncing => c.(resyncing := Some(e.status))
    case _ => c
  }

  /** What setting the conditions cs in order does to the core. */
  function CoreAfter(c: Core, cs: seq<Condition>): Core
    decreases |cs|
  {
    if cs == [] then c else CoreAfter(Core1(c, cs[0]), cs[1..])
  }

  lemma PutCore(l: seq<Condition>, e: Condition, now: int)
    ensures CoreOf(Put(l, e, now)) == Core1(CoreOf(l), e)
  {
    PutStatus(l, e, now, Completed);
    PutStatus(l, e, now, Degraded);
    PutStatus(l, e, now, Resyncing);
  }

  lemma ApplyFirst(l: seq<Condition>, op: Op, rest: seq<Op>)
    ensures ApplyAll(l, [op] + rest) == ApplyAll(Apply(l, op), rest)
  {
    ApplyAllConcat(l, [op], rest);
    assert [op][..0] == [] && ApplyAll(l, [op][..0]) == l;
  }

  lemma SetOpsFirst(cs: seq<Condition>, clock: nat -> int, k: nat)
    requires cs != []
    ensures SetOps(cs, clock, k) == [Set(cs[0], clock(k))] + SetOps(cs[1..], clock, k + 1)
  {
  }

  lemma {:induction false} SetOpsCore(l: seq<Condition>, cs: seq<Condition>, clock: nat -> int, k: nat)
    ensures CoreOf(ApplyAll(l, SetOps(cs, clock, k))) == CoreAfter(CoreOf(l), cs)
    decreases |cs|
  {
    if cs != [] {
      SetOpsFirst(cs, clock, k);
      ApplyFirst(l, Set(cs[0], clock(k)), SetOps(cs[1..], clock, k + 1));
      PutCore(l, cs[0], clock(k));
      SetOpsCore(Put(l, cs[0], clock(k)), cs[1..], clock, k + 1);
    }
  }

  function GroupCore(c: Core, g: Group): Core {
    match g
    case SetPromoted => Core(Some(Yes), Some(No), Some(No))
    case SetNotDegraded => c.(degraded := Some(No), resyncing := Some(No))
    case SetDemoted => Core(Some(Yes), Some(Yes), Some(No))
    case SetResync => Core(Some(Yes), Some(Yes), Some(Yes))
    case SetReplicating(_, _) => c
    case RemoveReplicating => c
    case _ => Core(Some(No), Some(Yes), Some(No))
  }

  lemma GroupOpsCore(l: seq<Condition>, g: Group, spec: Spec, clock: nat -> int, k: nat)
    ensures CoreOf(ApplyAll(l, GroupOps(g, spec, clock, k))) == GroupCore(CoreOf(l), g)
  {
    if g.RemoveReplicating? {
      assert [Unset(Replicating)][..0] == [];
      assert ApplyAll(l, [Unset(Replicating)][..0]) == l;
      DropStatus(l, Replicating, Completed);
      DropStatus(l, Replicating, Degraded);
      DropStatus(l, Replicating, Resyncing);
    } else {
      var cs := Sets(g, spec.source, spec.generation);
      SetOpsCore(l, cs, clock, k);
      SetsCore(CoreOf(l), g, spec.source, spec.generation);
    }
  }

  lemma SetsCore(c: Core, g: Group, src: string, gen: int)
    requires !g.RemoveReplicating?
    ensures CoreAfter(c, Sets(g, src, gen)) == GroupCore(c, g)
  {
    var cs := Sets(g, src, gen);
    var c1 := Core1(c, cs[0]);
    assert CoreAfter(c, cs) == CoreAfter(c1, cs[1..]);
    if |cs| >= 2 {
      var c2 := Core1(c1, cs[1]);
      assert cs[1..][1..] == cs[2..] && CoreAfter(c1, cs[1..]) == CoreAfter(c2, cs[2..]);
      if |cs| >= 3 {
        var c3 := Core1(c2, cs[2]);
        assert cs[2..][1..] == cs[3..] && CoreAfter(c2, cs[2..]) == CoreAfter(c3, cs[3..]);
        if |cs| == 4 {
          assert cs[3..][1..] == [] && CoreAfter(c3, cs[3..]) == CoreAfter(Core1(c3, cs[3]), []);
        }
      }
    }
  }

  function GroupsCore(c: Core, gs: seq<Group>): Core
    decreases |gs|
  {
    if gs == [] then c else GroupCore(GroupsCore(c, gs[..|gs| - 1]), gs[|gs| - 1])
  }

  lemma {:induction false} GroupsCoreConcat(c: Core, a: seq<Group>, b: seq<Group>)
    ensures GroupsCore(c, a + b) == GroupsCore(GroupsCore(c, a), b)
    decreases |b|
  {
    if b == [] {
      assert a + b == a;
    } else {
      assert (a + b)[..|a + b| - 1] == a + b[..|b| - 1];
      GroupsCoreConcat(c, a, b[..|b| - 1]);
    }
  }

  lemma GroupsCore1(c: Core, g: Group)
    ensures GroupsCore(c, [g]) == GroupCore(c, g)
  {
    assert [g][..0] == [] && GroupsCore(c, [g][..0]) == c;
  }

  lemma GroupsCore2(c: Core, g: Group, h: Group)
    ensures GroupsCore(c, [g, h]) == GroupCore(GroupCore(c, g), h)
  {
    assert [g, h] == [g] + [h];
    GroupsCoreConcat(c, [g], [h]);
    GroupsCore1(c, g);
    GroupsCore1(GroupCore(c, g), h);
  }

  lemma ReadyCoherent(c: Core, more: seq<Group>)
    requires Coherent(c) && (more == [] || more == [RemoveReplicating])
    ensures Coherent(GroupsCore(c, [SetResync, SetNotDegraded] + more))
  {
    var ready := [SetResync, SetNotDegraded];
    GroupsCore2(c, SetResync, SetNotDegraded);
    GroupsCoreConcat(c, ready, more);
    if more != [] { GroupsCore1(GroupsCore(c, ready), RemoveReplicating); }
  }

  lemma ResyncCoherent(w: Want, force: bool, s: State, a: ResyncAnswer, c: Core)
    requires Coherent(c)
    ensures Coherent(GroupsCore(c, DecideResync(w, force, s, a).groups))
  {
    match a
    case ResyncFailed(e) => GroupsCore1(c, SetFailedResync(ResyncNote, e));
    case Malformed => GroupsCore1(c, SetFailedResync(ResyncResponseNote, UNEXPECTED_TYPE));
    case NotReady => GroupsCore2(c, SetResync, RemoveReplicating);
    case Ready => ReadyCoherent(c, if w.Secondary? then [RemoveReplicating] else []);
  }

  lemma PromotedCoherent(c: Core, info: InfoAnswer)
    ensures Coherent(GroupsCore(c, [SetPromoted] + InfoGroups(info)))
  {
    var gs := InfoGroups(info);
    GroupsCoreConcat(c, [SetPromoted], gs);
    GroupsCore1(c, SetPromoted);
    if gs != [] { GroupsCore1(GroupCore(c, SetPromoted), gs[0]); }
  }

  lemma PrimaryCoherent(s: State, a: Answers, c: Core)
    requires Coherent(c)
    ensures Coherent(GroupsCore(c, DecidePrimary(s, a).groups))
  {
    var gs := DecidePrimary(s, a).groups;
    if gs[0].SetPromoted? { PromotedCoherent(c, a.info); } else { GroupsCore1(c, gs[0]); }
  }

  lemma SecondaryCoherent(auto: bool, s: State, a: Answers, c: Core)
    requires Coherent(c)
    ensures Coherent(GroupsCore(c, DecideSecondary(auto, s, a).groups))
  {
    if !a.demote.Fine? {
      GroupsCore1(c, SetFailedDemotion(DemoteNote, a.demote.error));
    } else {
      GroupsCore1(c, SetDemoted);
      if s.SecondaryState? {
        GroupsCoreConcat(c, [SetDemoted], DecideResync(Secondary, auto, s, a.resync).groups);
        ResyncCoherent(Secondary, auto, s, a.resync, GroupCore(c, SetDemoted));
      }
    }
  }

  lemma FailureCoherent(w: Want, m: Note, d: string, c: Core)
    requires Coherent(c)
    ensures Coherent(GroupsCore(c, FailureGroups(w, m, d)))
  {
    if !w.Unsupported? { GroupsCore1(c, FailureGroups(w, m, d)[0]); }
  }

  /** Every reconcile's condition groups, taken together, leave the core coherent. */
  lemma DecisionCoherent(spec: Spec, s: State, a: Answers, c: Core)
    requires Coherent(c)
    ensures Coherent(GroupsCore(c, Decide(spec, s, a).groups))
  {
    if a.early.Some? {
      FailureCoherent(spec.want, a.early.value.message, a.early.value.detail, c);
    } else {
      match spec.want
      case Primary => PrimaryCoherent(s, a, c);
      case Secondary => SecondaryCoherent(spec.autoResync, s, a, c);
      case Resync => ResyncCoherent(Resync, true, s, a.resync, c);
      case Unsupported =>
    }
  }

  lemma {:induction false} AllOpsCore(l: seq<Condition>, gs: seq<Group>, spec: Spec, clock: nat -> int)
    ensures CoreOf(ApplyAll(l, AllOps(gs, spec, clock))) == GroupsCore(CoreOf(l), gs)
    decreases |gs|
  {
    if gs != [] {
      var n := |gs| - 1;
      var before := AllOps(gs[..n], spec, clock);
      AllOpsCore(l, gs[..n], spec, clock);
      ApplyAllConcat(l, before, GroupOps(gs[n], spec, clock, |before|));
      GroupOpsCore(ApplyAll(l, before), gs[n], spec, clock, |before|);
    }
  }

  /**
   In every persisted state of every run, lost writes included, the condition list has one entry per
   type, each dated by its last insertion or flip, and its three core conditions are coherent.
   */
  lemma {:induction false} ConditionsAreCoherent(rs: seq<Round>)
    ensures var m := DoAll(NEW, rs);
      Follows(ApplyAll([], m.ops), m.ops) && Coherent(CoreOf(ApplyAll([], m.ops)))
    decreases |rs|
  {
    ListFollowsTrace(DoAll(NEW, rs).ops);
    if rs != [] {
      var n := |rs| - 1;
      var m, r := DoAll(NEW, rs[..n]), rs[n];
      ConditionsAreCoherent(rs[..n]);
      if r.stored {
        var d := Decide(r.spec, m.state, r.answers);
        var l := ApplyAll([], m.ops);
        var more := AllOps(d.groups, Named(r.spec, r.answers), r.clock);
        ApplyAllConcat([], m.ops, more);
        AllOpsCore(l, d.groups, Named(r.spec, r.answers), r.clock);
        DecisionCoherent(r.spec, m.state, r.answers, CoreOf(l));
      }
    }
  }

  /** The successful calls of one reconcile, and the state it stores. */
  lemma DecisionShape(spec: Spec, s: State, a: Answers)
    ensures var d := Decide(spec, s, a);
      || (d.rpcs == [] && (d.state == KeepState(s)))
      || (d.rpcs == [Enable] && d.state == KeepState(s) && !s.PrimaryState?)
      || (|d.rpcs| == 2 && d.rpcs[0].Enable? && d.rpcs[1].Promote? && d.state.PrimaryState? && !s.PrimaryState?)
      || (d.rpcs == [Demote] && d.state.SecondaryState?)
      || (|d.rpcs| == 2 && d.rpcs[0].Demote? && d.rpcs[1].ResyncPending? && d.state.SecondaryState? && s.SecondaryState?)
      || (|d.rpcs| == 2 && d.rpcs[0].Demote? && d.rpcs[1].ResyncReady? && d.state.SecondaryState?)
      || (|d.rpcs| == 1 && d.rpcs[0].ResyncPending? && d.state == KeepState(s))
      || (|d.rpcs| == 1 && d.rpcs[0].ResyncReady? && d.state.SecondaryState?)
  {
  }
}
