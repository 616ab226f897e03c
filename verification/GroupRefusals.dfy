/**
 Failures while a group is being deleted: which of them strand an object, and that all others only delay.
 */
module GroupRefusals {
  import opened Wrappers
  import opened GroupModel
  import opened GroupSafety
  import opened GroupBacking
  import opened GroupOrder
  import opened GroupRaces
  import opened GroupClosing
  import opened GroupProgress
  import opened GroupSchedules
  import opened GroupDeletion

  // ----- Refused writes -----

  /** Somebody else writes to the VGR or to a marked object. */
  predicate Meddles(s: State, a: Action) {
    a.World? && (a.world.TouchVgr? || (a.world.TouchVr? && VrRank(s) == 1) || (a.world.TouchContent? && ContentRank(s) == 1))
  }

  /** The write that takes an object's own finalizer is refused, or its reconcile is cut short, after its annotation was taken off. */
  predicate Cuts(s: State, a: Action) {
    || ((a == VrSetup(VrAbort) || a == VrTeardown(VrDropFin(false))) && s.vrTask.pc.VDropFin? && s.vr.latest.Some?)
    || ((a == ContentSetup(ContentAbort) || a == ContentTeardown(ContentDropFin(false))) && s.contentTask.pc.CDropFin? && s.content.latest.Some?)
  }

  lemma RefusedVr(s: State, a: VrTeardownAction, list: set<string>)
    requires Base(s) && Closing(s, list) && !a.ok && (s.vrTask.pc.VDropFin? ==> !Owned(s))
    ensures Closing(AbortVr(s), list) <==> !Cuts(s, VrSetup(VrAbort))
    ensures Closing(ApplyVrTeardown(s, a), list) <==> !Cuts(s, VrTeardown(a))
  {
  }

  lemma RefusedContent(s: State, a: ContentTeardownAction, list: set<string>)
    requires Base(s) && Closing(s, list) && !a.ok
    ensures Closing(AbortContent(s), list) <==> !Cuts(s, ContentSetup(ContentAbort))
    ensures Closing(ApplyContentTeardown(s, a), list) <==> !Cuts(s, ContentTeardown(a))
  {
  }

  lemma RefusedVgr(s: State, a: VgrTeardownAction, list: set<string>)
    requires VgrClosing(s, list) && !Smooth(s, VgrTeardown(a))
    ensures SameLogs(s, ApplyVgrTeardown(s, a)) && VgrClosing(ApplyVgrTeardown(s, a), list)
    ensures ApplyVgrTeardown(s, a).vrTask == s.vrTask && ApplyVgrTeardown(s, a).contentTask == s.contentTask
  {
  }

  lemma RefusedStep(r: Rules, s: State, a: Action, list: set<string>)
    requires Base(s) && Closing(s, list) && (s.vrTask.pc.VDropFin? ==> !Owned(s)) && !Meddles(s, a) && !Smooth(s, a)
    ensures Closing(Apply(r, s, a), list) <==> !Cuts(s, a)
  {
    match a
    case VrSetup(b) => RefusedVr(s, VrDropFin(false), list);
    case VrTeardown(b) => RefusedVr(s, b, list);
    case ContentSetup(b) => RefusedContent(s, ContentDropFin(false), list);
    case ContentTeardown(b) => RefusedContent(s, b, list);
    case VgrSetup(b) =>
    case VgrTeardown(b) => RefusedVgr(s, b, list);
  }

  /** Of all failures, exactly these break what guarantees that the deletion finishes. */
  lemma RefusalCondition(r: Rules, s: State, a: Action, list: set<string>)
    requires Fit(r, s, list) && !Meddles(s, a)
    ensures Closing(Apply(r, s, a), list) <==> !Cuts(s, a)
  {
    if Smooth(s, a) { ClosingStep(r, s, a, list); } else { RefusedStep(r, s, a, list); }
  }

  // ----- Steps of the others do not depend on the reconcile that was cut -----

  lemma ContentSetupApart(s: State, a: ContentSetupAction, t: VrTask)
    ensures ApplyContentSetup(s.(vrTask := t), a) == ApplyContentSetup(s, a).(vrTask := t)
  {
  }

  lemma ContentTeardownApart(s: State, a: ContentTeardownAction, t: VrTask)
    ensures ApplyContentTeardown(s.(vrTask := t), a) == ApplyContentTeardown(s, a).(vrTask := t)
  {
  }

  lemma VrSetupApart(r: Rules, s: State, a: VrSetupAction, t: ContentTask)
    ensures ApplyVrSetup(r, s.(contentTask := t), a) == ApplyVrSetup(r, s, a).(contentTask := t)
  {
  }

  lemma VrTeardownApart(s: State, a: VrTeardownAction, t: ContentTask)
    ensures ApplyVrTeardown(s.(contentTask := t), a) == ApplyVrTeardown(s, a).(contentTask := t)
  {
  }

  lemma VgrSetupApartVr(r: Rules, s: State, a: VgrSetupAction, t: VrTask)
    ensures ApplyVgrSetup(r, s.(vrTask := t), a) == ApplyVgrSetup(r, s, a).(vrTask := t)
  {
  }

  lemma VgrSetupApartContent(r: Rules, s: State, a: VgrSetupAction, t: ContentTask)
    ensures ApplyVgrSetup(r, s.(contentTask := t), a) == ApplyVgrSetup(r, s, a).(contentTask := t)
  {
  }

  lemma VgrTeardownApart(s: State, a: VgrTeardownAction, v: VrTask, c: ContentTask)
    ensures ApplyVgrTeardown(s.(vrTask := v), a) == ApplyVgrTeardown(s, a).(vrTask := v)
    ensures ApplyVgrTeardown(s.(contentTask := c), a) == ApplyVgrTeardown(s, a).(contentTask := c)
  {
  }

  lemma WorldApart(s: State, a: WorldAction, v: VrTask, c: ContentTask)
    ensures ApplyWorld(s.(vrTask := v), a) == ApplyWorld(s, a).(vrTask := v)
    ensures ApplyWorld(s.(contentTask := c), a) == ApplyWorld(s, a).(contentTask := c)
  {
  }

  lemma VrTaskApart(r: Rules, s: State, a: Action, t: VrTask)
    requires !StepOf(a, VrTurn)
    ensures Apply(r, s.(vrTask := t), a) == Apply(r, s, a).(vrTask := t)
  {
    match a
    case World(b) => WorldApart(s, b, t, s.contentTask);
    case ContentSetup(b) => ContentSetupApart(s, b, t);
    case ContentTeardown(b) => ContentTeardownApart(s, b, t);
    case VgrSetup(b) => VgrSetupApartVr(r, s, b, t);
    case VgrTeardown(b) => VgrTeardownApart(s, b, t, s.contentTask);
  }

  lemma ContentTaskApart(r: Rules, s: State, a: Action, t: ContentTask)
    requires !StepOf(a, ContentTurn)
    ensures Apply(r, s.(contentTask := t), a) == Apply(r, s, a).(contentTask := t)
  {
    match a
    case World(b) => WorldApart(s, b, s.vrTask, t);
    case VrSetup(b) => VrSetupApart(r, s, b, t);
    case VrTeardown(b) => VrTeardownApart(s, b, t);
    case VgrSetup(b) => VgrSetupApartContent(r, s, b, t);
    case VgrTeardown(b) => VgrTeardownApart(s, b, s.vrTask, t);
  }

  lemma {:induction false} VrTaskApartRun(r: Rules, s: State, acts: seq<Action>, t: VrTask)
    requires Spares(acts, VrTurn)
    ensures Run(r, s.(vrTask := t), acts) == Run(r, s, acts).(vrTask := t)
    decreases |acts|
  {
    if acts != [] {
      var n := |acts| - 1;
      VrTaskApartRun(r, s, acts[..n], t);
      VrTaskApart(r, Run(r, s, acts[..n]), acts[n], t);
    }
  }

  lemma {:induction false} ContentTaskApartRun(r: Rules, s: State, acts: seq<Action>, t: ContentTask)
    requires Spares(acts, ContentTurn)
    ensures Run(r, s.(contentTask := t), acts) == Run(r, s, acts).(contentTask := t)
    decreases |acts|
  {
    if acts != [] {
      var n := |acts| - 1;
      ContentTaskApartRun(r, s, acts[..n], t);
      ContentTaskApart(r, Run(r, s, acts[..n]), acts[n], t);
    }
  }

  // ----- The others come to rest -----

  /** The content and VGR controllers end what they are doing and the caches catch up. */
  lemma RestOthersOfVr(r: Rules, s: State) returns (acts: seq<Action>, u: State)
    requires Sound(r, s)
    ensures Path(r, s, acts, u) && Spares(acts, VrTurn) && u.vrTask == s.vrTask
    ensures u.contentTask.pc.CIdle? && u.vgrTask.pc.GIdle? && Caught(u)
  {
    var a, t := DrainContent(r, s);
    var b, v := DrainVgr(r, t);
    PathConcat(r, s, a, t, b, v);
    RunIsSound(r, s, a + b);
    var c := CatchUp(r, v);
    u := Synced(v);
    PathConcat(r, s, a + b, v, c, u);
    acts := a + b + c;
  }

  lemma RestOthersOfContent(r: Rules, s: State) returns (acts: seq<Action>, u: State)
    requires Sound(r, s)
    ensures Path(r, s, acts, u) && Spares(acts, ContentTurn) && u.contentTask == s.contentTask
    ensures u.vrTask.pc.VIdle? && u.vgrTask.pc.GIdle? && Caught(u)
  {
    CaughtIsReady(r, s);
    var a := CatchUp(r, s);
    var b, t := DrainVr(r, Synced(s));
    PathConcat(r, s, a, Synced(s), b, t);
    var c, v := DrainVgr(r, t);
    PathConcat(r, s, a + b, t, c, v);
    RunIsSound(r, s, a + b + c);
    var d := CatchUp(r, v);
    u := Synced(v);
    PathConcat(r, s, a + b + c, v, d, u);
    acts := a + b + c + d;
  }

  // ----- The object that was cut off stays -----

  lemma VrStays(r: Rules, s: State, a: Action)
    requires Base(s) && VrHolds(s) && !StepOf(a, VrTurn)
    ensures VrHolds(Apply(r, s, a))
  {
    match a
    case World(b) => ElsewhereOfWorld(r, s, b);
    case ContentSetup(b) => ElsewhereOfContentSetup(r, s, b);
    case ContentTeardown(b) => ElsewhereOfContentTeardown(r, s, b);
    case VgrSetup(b) => ElsewhereOfVgrSetup(r, s, b);
    case VgrTeardown(b) => ElsewhereOfVgrTeardown(r, s, b);
  }

  predicate ContentHolds(s: State) { s.content.latest.Some? && s.content.latest.value.vgrFin }

  lemma ContentStaysByVr(r: Rules, s: State, a: VrSetupAction, b: VrTeardownAction)
    requires Base(s) && ContentHolds(s)
    ensures ContentHolds(ApplyVrSetup(r, s, a)) && ContentHolds(ApplyVrTeardown(s, b))
  {
  }

  lemma ContentStays(r: Rules, s: State, a: Action)
    requires Base(s) && ContentHolds(s) && !StepOf(a, ContentTurn)
    ensures ContentHolds(Apply(r, s, a))
  {
    match a
    case World(b) =>
    case VrSetup(b) => ContentStaysByVr(r, s, b, VrDropFin(true));
    case VrTeardown(b) => ContentStaysByVr(r, s, VrAbort, b);
    case VgrSetup(b) =>
    case VgrTeardown(b) =>
  }

  lemma {:induction false} BothStay(r: Rules, s: State, acts: seq<Action>)
    requires Sound(r, s)
    ensures VrHolds(s) && Spares(acts, VrTurn) ==> VrHolds(Run(r, s, acts))
    ensures ContentHolds(s) && Spares(acts, ContentTurn) ==> ContentHolds(Run(r, s, acts))
    decreases |acts|
  {
    if acts != [] {
      var n := |acts| - 1;
      BothStay(r, s, acts[..n]);
      RunIsSound(r, s, acts[..n]);
      var t := Run(r, s, acts[..n]);
      if VrHolds(s) && Spares(acts, VrTurn) { VrStays(r, t, acts[n]); }
      if ContentHolds(s) && Spares(acts, ContentTurn) { ContentStays(r, t, acts[n]); }
    }
  }

  // ----- A cut strands the object -----

  /** At rest after the cut: a VR that is not announced, beside a VGR and a content as the closing invariant leaves them. */
  lemma StrandCutVr(r: Rules, u: State, list: set<string>) returns (acts: seq<Action>, t: State)
    requires Sound(r, u) && r.ownWritesVisible && Quiet(u) && Caught(u) && VrHolds(u) && !Owned(u)
    requires u.vgr.latest.Some? ==> Settled(u.vgr.latest.value, list)
    requires if u.content.latest.Some? then ContentHolds(u) && (u.vgr.latest.Some? ==> ContentOwns(u)) else !ContentOwns(u)
    ensures PlainRun(acts) && t == Run(r, u, acts) && Later(u, t) && VrStranded(t)
  {
    if u.vgr.latest.None? {
      acts, t := [], u;
    } else if u.content.latest.Some? {
      acts, t := StrandVr(r, u, list);
    } else {
      acts := VGR_RUN + SYNCS;
      t := VgrRuns(r, u);
    }
  }

  lemma StrandCutContent(r: Rules, u: State, list: set<string>) returns (acts: seq<Action>, t: State)
    requires Sound(r, u) && r.ownWritesVisible && Quiet(u) && Caught(u) && ContentHolds(u) && !ContentOwns(u)
    requires u.vgr.latest.Some? ==> Settled(u.vgr.latest.value, list)
    requires u.vr.latest.Some? ==> VrHolds(u)
    ensures PlainRun(acts) && t == Run(r, u, acts) && Later(u, t) && ContentStranded(t)
  {
    if u.vgr.latest.None? {
      acts, t := [], u;
    } else {
      acts, t := StrandContent(r, u, list);
    }
  }

  lemma PathFit(r: Rules, s: State, acts: seq<Action>, u: State, list: set<string>)
    requires Fit(r, s, list) && Path(r, s, acts, u)
    ensures Fit(r, u, list) && Longer(s, u)
  {
    PlainIsSmooth(r, s, acts);
    Along(r, s, acts, |acts|, list);
    assert acts[..|acts|] == acts;
    RunIsSound(r, s, acts);
  }

  lemma CutVrRests(r: Rules, s: State, list: set<string>) returns (acts: seq<Action>, u: State)
    requires Fit(r, s, list) && s.vrTask.pc.VDropFin? && s.vr.latest.Some?
    ensures PlainRun(acts) && Run(r, AbortVr(s), acts) == AbortVr(u) && Fit(r, u, list) && Longer(s, u)
    ensures u.vrTask.pc.VDropFin? && u.contentTask.pc.CIdle? && u.vgrTask.pc.GIdle? && Caught(u) && VrHolds(u)
  {
    acts, u := RestOthersOfVr(r, s);
    PathFit(r, s, acts, u, list);
    BothStay(r, s, acts);
    VrTaskApartRun(r, s, acts, s.vrTask.(pc := VIdle));
  }

  lemma CutContentRests(r: Rules, s: State, list: set<string>) returns (acts: seq<Action>, u: State)
    requires Fit(r, s, list) && s.contentTask.pc.CDropFin? && s.content.latest.Some?
    ensures PlainRun(acts) && Run(r, AbortContent(s), acts) == AbortContent(u) && Fit(r, u, list) && Longer(s, u)
    ensures u.contentTask.pc.CDropFin? && u.vrTask.pc.VIdle? && u.vgrTask.pc.GIdle? && Caught(u) && ContentHolds(u)
  {
    acts, u := RestOthersOfContent(r, s);
    PathFit(r, s, acts, u, list);
    BothStay(r, s, acts);
    ContentTaskApartRun(r, s, acts, s.contentTask.(pc := CIdle));
  }

  lemma StrandedSchedule(r: Rules, s: State, acts: seq<Action>, list: set<string>)
    requires PlainRun(acts) && Later(s, Run(r, s, acts)) && (VrStranded(Run(r, s, acts)) || ContentStranded(Run(r, s, acts)))
    ensures !AlwaysFinishes(r, s, list)
  {
    var u := BadRoundsStrand(r, s, acts, 7);
    assert !Done(u, list);
    assert FairRounds(r, s, BadRounds(acts, 7)) && !Done(RunRounds(r, s, BadRounds(acts, 7)), list);
  }

  lemma CutVrFacts(r: Rules, u: State, list: set<string>)
    requires Fit(r, u, list) && u.vrTask.pc.VDropFin? && u.contentTask.pc.CIdle?
    ensures !Owned(u) && (u.vgr.latest.Some? ==> Settled(u.vgr.latest.value, list))
    ensures if u.content.latest.Some? then ContentHolds(u) && ContentOwns(u) else !ContentOwns(u)
  {
    assert Version(u.vgr, Last(u.vgr)) == u.vgr.latest;
  }

  lemma CutContentFacts(r: Rules, u: State, list: set<string>)
    requires Fit(r, u, list) && u.contentTask.pc.CDropFin?
    ensures !ContentOwns(u) && (u.vgr.latest.Some? ==> Settled(u.vgr.latest.value, list)) && (u.vr.latest.Some? ==> VrHolds(u))
  {
    assert Version(u.vgr, Last(u.vgr)) == u.vgr.latest;
  }

  lemma AbortIsSound(r: Rules, u: State)
    requires Sound(r, u)
    ensures Sound(r, AbortVr(u)) && Sound(r, AbortContent(u))
  {
    SoundStep(r, u, VrSetup(VrAbort));
    SoundStep(r, u, ContentSetup(ContentAbort));
  }

  lemma CutVrStrands(r: Rules, s: State, list: set<string>)
    requires Fit(r, s, list) && s.vrTask.pc.VDropFin? && s.vr.latest.Some?
    ensures !AlwaysFinishes(r, AbortVr(s), list)
  {
    var acts, u := CutVrRests(r, s, list);
    AbortIsSound(r, u);
    CutVrFacts(r, u, list);
    var more, t := StrandCutVr(r, AbortVr(u), list);
    RunConcat(r, AbortVr(s), acts, more);
    StrandedSchedule(r, AbortVr(s), acts + more, list);
  }

  lemma CutContentStrands(r: Rules, s: State, list: set<string>)
    requires Fit(r, s, list) && s.contentTask.pc.CDropFin? && s.content.latest.Some?
    ensures !AlwaysFinishes(r, AbortContent(s), list)
  {
    var acts, u := CutContentRests(r, s, list);
    AbortIsSound(r, u);
    CutContentFacts(r, u, list);
    StrandContentFrom(r, AbortContent(s), acts, AbortContent(u), list);
  }

  lemma StrandContentFrom(r: Rules, s: State, acts: seq<Action>, u: State, list: set<string>)
    requires PlainRun(acts) && Run(r, s, acts) == u && Longer(s, u)
    requires Sound(r, u) && r.ownWritesVisible && Quiet(u) && Caught(u) && ContentHolds(u) && !ContentOwns(u)
    requires (u.vgr.latest.Some? ==> Settled(u.vgr.latest.value, list)) && (u.vr.latest.Some? ==> VrHolds(u))
    ensures !AlwaysFinishes(r, s, list)
  {
    var more, t := StrandCutContent(r, u, list);
    RunConcat(r, s, acts, more);
    StrandedSchedule(r, s, acts + more, list);
  }

  lemma CutIsAbort(r: Rules, s: State, a: Action)
    requires Cuts(s, a)
    ensures StepOf(a, VrTurn) ==> Apply(r, s, a) == AbortVr(s) && s.vrTask.pc.VDropFin? && s.vr.latest.Some?
    ensures !StepOf(a, VrTurn) ==> Apply(r, s, a) == AbortContent(s) && s.contentTask.pc.CDropFin? && s.content.latest.Some?
  {
  }

  lemma UncutFinishes(r: Rules, s: State, a: Action, list: set<string>)
    requires Fit(r, s, list) && !Meddles(s, a) && !Cuts(s, a)
    ensures AlwaysFinishes(r, Apply(r, s, a), list)
  {
    RefusalCondition(r, s, a, list);
    SoundStep(r, s, a);
    ClosingFinishes(r, Apply(r, s, a), list);
  }

  /**
   While a group is being deleted, whatever step comes next and however it fails: the deletion still finishes
   in every fair interleaving, exactly if the step does not cut off an object from dropping its finalizer.
   */
  lemma RefusalOutcome(r: Rules, s: State, a: Action, list: set<string>)
    requires Fit(r, s, list) && !Meddles(s, a)
    ensures AlwaysFinishes(r, Apply(r, s, a), list) <==> !Cuts(s, a)
  {
    if !Cuts(s, a) {
      UncutFinishes(r, s, a, list);
    } else {
      CutIsAbort(r, s, a);
      if StepOf(a, VrTurn) { CutVrStrands(r, s, list); } else { CutContentStrands(r, s, list); }
    }
  }

  lemma UncutStepFits(r: Rules, s: State, a: Action, list: set<string>)
    requires Fit(r, s, list) && !Meddles(s, a) && !Cuts(s, a)
    ensures Fit(r, Apply(r, s, a), list)
  {
    RefusalCondition(r, s, a, list);
    SoundStep(r, s, a);
  }

  lemma {:induction false} UncutRunFits(r: Rules, s: State, acts: seq<Action>, k: nat, list: set<string>)
    requires Fit(r, s, list) && k <= |acts|
    requires forall n :: 0 <= n < |acts| ==> !Meddles(At(r, s, acts, n), acts[n]) && !Cuts(At(r, s, acts, n), acts[n])
    ensures Fit(r, At(r, s, acts, k), list)
  {
    if k > 0 {
      UncutRunFits(r, s, acts, k - 1, list);
      AtNext(r, s, acts, k - 1);
      UncutStepFits(r, At(r, s, acts, k - 1), acts[k - 1], list);
    }
  }

  /** After any number of failures that cut nothing off, the deletion still finishes. */
  lemma FailuresOnlyDelay(r: Rules, s: State, acts: seq<Action>, list: set<string>)
    requires Fit(r, s, list)
    requires forall n :: 0 <= n < |acts| ==> !Meddles(At(r, s, acts, n), acts[n]) && !Cuts(At(r, s, acts, n), acts[n])
    ensures AlwaysFinishes(r, Run(r, s, acts), list)
  {
    assert acts[..|acts|] == acts;
    UncutRunFits(r, s, acts, |acts|, list);
    ClosingFinishes(r, Run(r, s, acts), list);
  }
}
