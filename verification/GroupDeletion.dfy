/**
 Deletion of a group terminates, or strands an object.

 A round is any smooth interleaving of single steps that serves each controller once.  From a quiet
 moment after the VGR was marked for deletion, every schedule of eight fair rounds ends with all three
 objects gone, the group deleted and the listed PVCs released, exactly if the content and an existing VR
 are announced on the VGR by their owner annotations.
 */
module GroupDeletion {
  import opened Wrappers
  import opened GroupModel
  import opened GroupSafety
  import opened GroupBacking
  import opened GroupOrder
  import opened GroupRaces
  import opened GroupClosing
  import opened GroupProgress
  import opened GroupSchedules
  import opened GroupTheorems

  /**
   A marked VGR with both names recorded and both dependents finalized, at a moment when the caches have
   caught up; set-ups of the VR and the content may be in flight, on whatever copies they have.
   */
  predicate Begun(s: State, list: set<string>) {
    && Caught(s) && s.vgrTask.pc.GIdle?
    && (s.vrTask.pc.VIdle? || !s.vrTask.vr.deleting) && (s.contentTask.pc.CIdle? || !s.contentTask.content.deleting)
    && s.vgr.latest.Some? && Settled(s.vgr.latest.value, list)
    && s.content.latest.Some? && s.content.latest.value.vgrFin
    && (s.vr.latest.Some? ==> s.vr.latest.value.fin)
  }

  /** The same with nothing in flight. */
  predicate Starts(s: State, list: set<string>) { Begun(s, list) && Quiet(s) }

  predicate Announced(s: State) { ContentOwns(s) && (s.vr.latest.Some? ==> Owned(s)) }

  lemma BegunCloses(r: Rules, s: State, list: set<string>)
    requires Sound(r, s) && Begun(s, list) && Announced(s)
    ensures Closing(s, list)
  {
    assert Version(s.vgr, Last(s.vgr)) == s.vgr.latest && Version(s.content, Last(s.content)) == s.content.latest;
  }

  lemma RankBound(s: State)
    requires VgrRank(s) < 2
    ensures Rank(s) <= 8
  {
  }

  /** There are fair schedules of eight rounds, and every schedule of eight fair rounds or more finishes the deletion. */
  ghost predicate AlwaysFinishes(r: Rules, s: State, list: set<string>) {
    && (exists rounds: seq<seq<Action>> :: FairRounds(r, s, rounds) && |rounds| == 8)
    && (forall rounds: seq<seq<Action>> :: FairRounds(r, s, rounds) && |rounds| >= 8 ==> Done(RunRounds(r, s, rounds), list))
  }

  // ----- Stranded objects -----

  predicate VgrGone(s: State) { s.vgr.latest.None? && s.vgr.cached == Last(s.vgr) }

  /** The VGR is gone and the VR is not, nor is its removal in flight. */
  predicate VrStranded(s: State) {
    VgrGone(s) && s.vr.latest.Some? && s.vr.latest.value.fin && (s.vrTask.pc.VIdle? || s.vrTask.pc.VFetchVgr?)
  }

  predicate ContentStranded(s: State) {
    VgrGone(s) && s.content.latest.Some? && s.content.latest.value.vgrFin && (s.contentTask.pc.CIdle? || s.contentTask.pc.CFetchVgr?)
  }

  lemma StrandedByVrSetup(r: Rules, s: State, a: VrSetupAction)
    requires Base(s)
    ensures VrStranded(s) ==> VrStranded(ApplyVrSetup(r, s, a))
    ensures ContentStranded(s) ==> ContentStranded(ApplyVrSetup(r, s, a))
  {
  }

  lemma StrandedByVrTeardown(s: State, a: VrTeardownAction)
    requires Base(s)
    ensures VrStranded(s) ==> VrStranded(ApplyVrTeardown(s, a))
    ensures ContentStranded(s) ==> ContentStranded(ApplyVrTeardown(s, a))
  {
  }

  lemma StrandedByContent(s: State, a: ContentSetupAction, b: ContentTeardownAction)
    requires Base(s)
    ensures VrStranded(s) ==> VrStranded(ApplyContentSetup(s, a)) && VrStranded(ApplyContentTeardown(s, b))
    ensures ContentStranded(s) ==> ContentStranded(ApplyContentSetup(s, a)) && ContentStranded(ApplyContentTeardown(s, b))
  {
  }

  lemma StrandedByVgrSetup(r: Rules, s: State, a: VgrSetupAction)
    requires Base(s)
    ensures VrStranded(s) ==> VrStranded(ApplyVgrSetup(r, s, a))
    ensures ContentStranded(s) ==> ContentStranded(ApplyVgrSetup(r, s, a))
  {
  }

  lemma StrandedByVgrTeardown(s: State, a: VgrTeardownAction)
    requires Base(s)
    ensures VrStranded(s) ==> VrStranded(ApplyVgrTeardown(s, a))
    ensures ContentStranded(s) ==> ContentStranded(ApplyVgrTeardown(s, a))
  {
  }

  lemma StrandedStep(r: Rules, s: State, a: Action)
    requires Base(s)
    ensures VrStranded(s) ==> VrStranded(Apply(r, s, a))
    ensures ContentStranded(s) ==> ContentStranded(Apply(r, s, a))
  {
    match a
    case World(b) =>
    case VrSetup(b) => StrandedByVrSetup(r, s, b);
    case VrTeardown(b) => StrandedByVrTeardown(s, b);
    case ContentSetup(b) => StrandedByContent(s, b, ContentDisown(true));
    case ContentTeardown(b) => StrandedByContent(s, ContentAbort, b);
    case VgrSetup(b) => StrandedByVgrSetup(r, s, b);
    case VgrTeardown(b) => StrandedByVgrTeardown(s, b);
  }

  /** Whatever happens next, a stranded object stays for good. */
  lemma {:induction false} StrandedForGood(r: Rules, s: State, acts: seq<Action>)
    requires Base(s) && (VrStranded(s) || ContentStranded(s))
    ensures Base(Run(r, s, acts)) && (VrStranded(s) ==> VrStranded(Run(r, s, acts)))
    ensures ContentStranded(s) ==> ContentStranded(Run(r, s, acts))
    decreases |acts|
  {
    if acts != [] {
      var n := |acts| - 1;
      StrandedForGood(r, s, acts[..n]);
      BaseStep(r, Run(r, s, acts[..n]), acts[n]);
      StrandedStep(r, Run(r, s, acts[..n]), acts[n]);
    }
  }

  // ----- Complete reconciles, one after the other -----

  const SYNCS := [World(SyncVgr), World(SyncContent), World(SyncVr)]
  const VGR_RUN := [VgrSetup(VgrBegin), VgrTeardown(VgrDelVr(true)), VgrTeardown(VgrDelContent(true)), VgrTeardown(VgrRelease({})),
                    VgrTeardown(VgrDropFin(true))]
  const CONTENT_RUN := [ContentSetup(ContentBegin), ContentSetup(ContentFetchVgr), ContentTeardown(ContentDelete(true, true)),
                        ContentTeardown(ContentDisown(true)), ContentTeardown(ContentDropFin(true))]
  const VR_RUN := [VrSetup(VrBegin), VrSetup(VrFetchVgr), VrSetup(VrFetchContent), VrTeardown(VrDisable(true, true)),
                   VrTeardown(VrUnguard(true)), VrTeardown(VrDisown(true)), VrTeardown(VrDropFin(true))]

  predicate Calm(s: State) {
    Quiet(s) && Caught(s) && s.memo.vrWroteVgr <= Last(s.vgr) && s.memo.vrWroteContent <= Last(s.content)
  }

  /** Logs grow and the VR controller wrote nothing newer. */
  predicate Later(s: State, t: State) { Calm(t) && Longer(s, t) }

  function MarkedVr(x: Option<Vr>): Option<Vr> { if x.None? then None else Some(x.value.(deleting := true)) }

  function MarkedContent(x: Option<Content>): Option<Content> { if x.None? then None else Some(x.value.(deleting := true)) }

  lemma Synchronize(r: Rules, s: State) returns (t: State)
    requires Last(s.vgr) - 1 <= s.vgr.cached <= Last(s.vgr) && Last(s.content) - 1 <= s.content.cached <= Last(s.content)
    requires Last(s.vr) - 1 <= s.vr.cached <= Last(s.vr)
    ensures t == Run(r, s, SYNCS)
    ensures t == s.(vgr := s.vgr.(cached := Last(s.vgr)), content := s.content.(cached := Last(s.content)), vr := s.vr.(cached := Last(s.vr)))
  {
    var acts: seq<Action>;
    acts, t := [], s;
    acts, t := Do(r, s, acts, t, World(SyncVgr));
    acts, t := Do(r, s, acts, t, World(SyncContent));
    acts, t := Do(r, s, acts, t, World(SyncVr));
    assert acts == SYNCS;
  }

  /** The VGR controller marks its dependents, and goes if neither was announced. */
  lemma VgrRuns(r: Rules, s: State) returns (t: State)
    requires Calm(s) && s.vgr.latest.Some? && Settled(s.vgr.latest.value, s.vgr.latest.value.pvcs)
    requires (s.vr.latest.Some? ==> s.vr.latest.value.fin) && (s.content.latest.Some? ==> s.content.latest.value.vgrFin)
    ensures t == Run(r, s, VGR_RUN + SYNCS) && Later(s, t)
    ensures t.vr.latest == MarkedVr(s.vr.latest) && t.content.latest == MarkedContent(s.content.latest)
    ensures t.vgr.latest == if Owned(s) || ContentOwns(s) then s.vgr.latest else None
  {
    var acts: seq<Action>;
    acts, t := [], s;
    acts, t := Do(r, s, acts, t, VgrSetup(VgrBegin));
    acts, t := Do(r, s, acts, t, VgrTeardown(VgrDelVr(true)));
    acts, t := Do(r, s, acts, t, VgrTeardown(VgrDelContent(true)));
    acts, t := Do(r, s, acts, t, VgrTeardown(VgrRelease({})));
    acts, t := Do(r, s, acts, t, VgrTeardown(VgrDropFin(true)));
    assert acts == VGR_RUN;
    RunConcat(r, s, acts, SYNCS);
    t := Synchronize(r, t);
  }

  lemma ContentRuns(r: Rules, s: State) returns (t: State)
    requires Calm(s) && s.vgr.latest.Some? && s.vgr.latest.value.deleting && s.vgr.latest.value.fin
    requires s.content.latest.Some? && s.content.latest.value.deleting && s.content.latest.value.vgrFin && !s.content.latest.value.vrFin
    ensures t == Run(r, s, CONTENT_RUN + SYNCS) && Later(s, t)
    ensures t.vr.latest == s.vr.latest && t.content.latest == None
    ensures t.vgr.latest == Some(s.vgr.latest.value.(contentOwner := false))
  {
    var acts: seq<Action>;
    acts, t := [], s;
    acts, t := Do(r, s, acts, t, ContentSetup(ContentBegin));
    acts, t := Do(r, s, acts, t, ContentSetup(ContentFetchVgr));
    acts, t := Do(r, s, acts, t, ContentTeardown(ContentDelete(true, true)));
    acts, t := Do(r, s, acts, t, ContentTeardown(ContentDisown(true)));
    acts, t := Do(r, s, acts, t, ContentTeardown(ContentDropFin(true)));
    assert acts == CONTENT_RUN;
    RunConcat(r, s, acts, SYNCS);
    t := Synchronize(r, t);
  }

  /** The VR controller has read everything its teardown needs. */
  lemma VrReads(r: Rules, s: State) returns (acts: seq<Action>, t: State)
    requires Calm(s) && s.vgr.latest.Some? && s.vgr.latest.value.contentNamed && s.vr.latest == Some(Vr(true, true)) && s.content.latest.Some?
    ensures acts == VR_RUN[..4] && t == Run(r, s, acts) && SameLogs(s, t) && t.contentTask == s.contentTask && t.vgrTask == s.vgrTask
    ensures t.vrTask == VrTask(VUnguard, Vr(true, true), Last(s.vr), s.vgr.latest.value, Last(s.vgr), s.content.latest, Last(s.content))
  {
    acts, t := [], s;
    acts, t := Do(r, s, acts, t, VrSetup(VrBegin));
    acts, t := Do(r, s, acts, t, VrSetup(VrFetchVgr));
    acts, t := Do(r, s, acts, t, VrSetup(VrFetchContent));
    acts, t := Do(r, s, acts, t, VrTeardown(VrDisable(true, true)));
  }

  lemma VrRuns(r: Rules, s: State) returns (t: State)
    requires Calm(s) && s.vgr.latest.Some? && s.vgr.latest.value.deleting && s.vgr.latest.value.fin && s.vgr.latest.value.contentNamed
    requires s.vr.latest == Some(Vr(true, true)) && s.content.latest.Some? && s.content.latest.value.vgrFin
    ensures t == Run(r, s, VR_RUN + SYNCS) && Later(s, t)
    ensures t.vr.latest == None && t.content.latest == Some(s.content.latest.value.(vrFin := false))
    ensures t.vgr.latest == Some(s.vgr.latest.value.(vrOwner := false))
  {
    var acts: seq<Action>;
    acts, t := VrReads(r, s);
    acts, t := Do(r, s, acts, t, VrTeardown(VrUnguard(true)));
    acts, t := Do(r, s, acts, t, VrTeardown(VrDisown(true)));
    acts, t := Do(r, s, acts, t, VrTeardown(VrDropFin(true)));
    assert acts == VR_RUN;
    RunConcat(r, s, acts, SYNCS);
    t := Synchronize(r, t);
  }

  // ----- A fair schedule that strands an object -----

  lemma Concat(r: Rules, s: State, a: seq<Action>, t: State, b: seq<Action>)
    requires t == Run(r, s, a) && PlainRun(a) && PlainRun(b)
    ensures Run(r, s, a + b) == Run(r, t, b) && PlainRun(a + b)
  {
    RunConcat(r, s, a, b);
  }

  /** The VR is not announced: the content goes, then the VGR. */
  lemma StrandVr(r: Rules, s: State, list: set<string>) returns (acts: seq<Action>, t: State)
    requires Sound(r, s) && r.ownWritesVisible && Starts(s, list) && ContentOwns(s) && s.vr.latest.Some? && !Owned(s)
    ensures PlainRun(acts) && t == Run(r, s, acts) && Later(s, t) && VrStranded(t)
  {
    acts := VGR_RUN + SYNCS;
    t := VgrRuns(r, s);
    Concat(r, s, acts, t, CONTENT_RUN + SYNCS);
    acts := acts + (CONTENT_RUN + SYNCS);
    t := ContentRuns(r, t);
    Concat(r, s, acts, t, VGR_RUN + SYNCS);
    acts := acts + (VGR_RUN + SYNCS);
    t := VgrRuns(r, t);
  }

  /** The content is not announced: the VR goes if it holds the VGR, then the VGR. */
  lemma StrandContent(r: Rules, s: State, list: set<string>) returns (acts: seq<Action>, t: State)
    requires Sound(r, s) && r.ownWritesVisible && Starts(s, list) && !ContentOwns(s)
    ensures PlainRun(acts) && t == Run(r, s, acts) && Later(s, t) && ContentStranded(t)
  {
    acts := VGR_RUN + SYNCS;
    t := VgrRuns(r, s);
    if Owned(s) {
      Concat(r, s, acts, t, VR_RUN + SYNCS);
      acts := acts + (VR_RUN + SYNCS);
      t := VrRuns(r, t);
      Concat(r, s, acts, t, VGR_RUN + SYNCS);
      acts := acts + (VGR_RUN + SYNCS);
      t := VgrRuns(r, t);
    }
  }

  const IDLE := [VgrSetup(VgrBegin), ContentSetup(ContentBegin), ContentSetup(ContentFetchVgr), VrSetup(VrBegin), VrSetup(VrFetchVgr)]

  predicate SameLogs(s: State, t: State) { t.vgr == s.vgr && t.content == s.content && t.vr == s.vr && t.memo == s.memo }

  /** Without the VGR every controller gives up at once. */
  lemma IdleSteps(r: Rules, s: State) returns (t1: State, t3: State, t5: State)
    requires Calm(s) && VgrGone(s)
    ensures At(r, s, IDLE, 0) == s && t1 == At(r, s, IDLE, 1) && t3 == At(r, s, IDLE, 3) && t5 == Run(r, s, IDLE)
    ensures Quiet(t1) && SameLogs(s, t1) && Quiet(t3) && SameLogs(s, t3) && Quiet(t5) && SameLogs(s, t5)
  {
    var acts: seq<Action> := [];
    assert IDLE[..0] == [];
    acts, t1 := Do(r, s, acts, s, VgrSetup(VgrBegin));
    assert IDLE[..1] == acts;
    acts, t3 := Do(r, s, acts, t1, ContentSetup(ContentBegin));
    acts, t3 := Do(r, s, acts, t3, ContentSetup(ContentFetchVgr));
    assert IDLE[..3] == acts;
    acts, t5 := Do(r, s, acts, t3, VrSetup(VrBegin));
    acts, t5 := Do(r, s, acts, t5, VrSetup(VrFetchVgr));
    assert acts == IDLE;
  }

  lemma IdleRound(r: Rules, s: State) returns (t: State)
    requires Calm(s) && VgrGone(s)
    ensures t == Run(r, s, IDLE) && Calm(t) && SameLogs(s, t) && FairRound(r, s, IDLE)
  {
    PlainIsSmooth(r, s, IDLE);
    var t1, t3, t5 := IdleSteps(r, s);
    t := t5;
    assert IDLE[..5] == IDLE && At(r, s, IDLE, 5) == t;
    assert Serves(r, s, IDLE, VgrTurn, 0, 1) && Serves(r, s, IDLE, ContentTurn, 1, 3) && Serves(r, s, IDLE, VrTurn, 3, 5);
  }

  /** The stranding run, then n rounds in which nothing can be done. */
  function BadRounds(acts: seq<Action>, n: nat): seq<seq<Action>> {
    if n == 0 then [acts + IDLE] else BadRounds(acts, n - 1) + [IDLE]
  }

  lemma FirstRoundStrands(r: Rules, s: State, acts: seq<Action>) returns (t: State)
    requires PlainRun(acts) && Later(s, Run(r, s, acts)) && VgrGone(Run(r, s, acts))
    ensures FairRound(r, s, acts + IDLE) && t == Run(r, s, acts + IDLE) && Calm(t)
    ensures SameLogs(Run(r, s, acts), t)
  {
    var u := Run(r, s, acts);
    t := IdleRound(r, u);
    PlainIsSmooth(r, s, acts + IDLE);
    Concat(r, s, acts, u, IDLE);
    ServedLater(r, s, acts, IDLE, VrTurn);
    ServedLater(r, s, acts, IDLE, ContentTurn);
    ServedLater(r, s, acts, IDLE, VgrTurn);
  }

  lemma {:induction false} BadRoundsStrand(r: Rules, s: State, acts: seq<Action>, n: nat) returns (t: State)
    requires PlainRun(acts) && Later(s, Run(r, s, acts)) && VgrGone(Run(r, s, acts))
    ensures |BadRounds(acts, n)| == n + 1 && FairRounds(r, s, BadRounds(acts, n)) && t == RunRounds(r, s, BadRounds(acts, n))
    ensures Calm(t) && SameLogs(Run(r, s, acts), t)
  {
    var rounds := BadRounds(acts, n);
    if n == 0 {
      assert rounds[..0] == [] && RunRounds(r, s, rounds[..0]) == s && FairRounds(r, s, rounds[..0]);
      t := FirstRoundStrands(r, s, acts);
    } else {
      var u := BadRoundsStrand(r, s, acts, n - 1);
      assert rounds[..n] == BadRounds(acts, n - 1);
      t := IdleRound(r, u);
    }
  }

  // ----- The exact condition -----

  /** With the dependents announced, deletion finishes whatever set-ups are in flight when it begins. */
  lemma FinishesIf(r: Rules, s: State, list: set<string>)
    requires Sound(r, s) && r.ownWritesVisible && Begun(s, list) && Announced(s)
    ensures AlwaysFinishes(r, s, list)
  {
    BegunCloses(r, s, list);
    ClosingFinishes(r, s, list);
  }

  lemma ClosingFinishes(r: Rules, s: State, list: set<string>)
    requires Fit(r, s, list)
    ensures AlwaysFinishes(r, s, list)
  {
    assert Version(s.vgr, Last(s.vgr)) == s.vgr.latest;
    RankBound(s);
    var schedule := FairRoundsExist(r, s, 8);
    forall rounds: seq<seq<Action>> | FairRounds(r, s, rounds) && |rounds| >= 8
      ensures Done(RunRounds(r, s, rounds), list)
    {
      RoundsFinish(r, s, rounds, list);
    }
  }

  lemma StrandsUnless(r: Rules, s: State, list: set<string>)
    requires Sound(r, s) && r.ownWritesVisible && Starts(s, list) && !Announced(s)
    ensures !AlwaysFinishes(r, s, list)
  {
    var acts, t;
    if ContentOwns(s) { acts, t := StrandVr(r, s, list); } else { acts, t := StrandContent(r, s, list); }
    var u := BadRoundsStrand(r, s, acts, 7);
    assert !Done(u, list);
    assert FairRounds(r, s, BadRounds(acts, 7)) && !Done(RunRounds(r, s, BadRounds(acts, 7)), list);
  }

  /**
   From every reachable start, deletion finishes in every fair interleaving exactly if the content, and a VR
   that exists, are announced on the VGR.
   */
  lemma DeletionCondition(r: Rules, named: bool, held: set<string>, acts: seq<Action>, list: set<string>)
    requires r.ownWritesVisible && Starts(Run(r, Init(named, held), acts), list)
    ensures AlwaysFinishes(r, Run(r, Init(named, held), acts), list) <==> Announced(Run(r, Init(named, held), acts))
  {
    var s := Run(r, Init(named, held), acts);
    RunInvariants(r, named, held, acts);
    if Announced(s) { FinishesIf(r, s, list); } else { StrandsUnless(r, s, list); }
  }

  // ----- Starts that runs reach -----

  /** A group in full operation is marked: both dependents are announced. */
  lemma AnnouncedReached(r: Rules) returns (acts: seq<Action>, s: State)
    ensures Run(r, Init(false, {}), acts) == s && Starts(s, {}) && Announced(s) && s.vr.latest.Some? && s.back.enabled
  {
    var s0 := Init(false, {});
    acts, s := VrEnabled(r);
    acts, s := Do(r, s0, acts, s, World(UserDeletesVgr));
    acts, s := Do(r, s0, acts, s, World(SyncVgr));
    acts, s := Do(r, s0, acts, s, World(SyncVgr));
    acts, s := Do(r, s0, acts, s, World(SyncContent));
    acts, s := Do(r, s0, acts, s, World(SyncVr));
    acts, s := Do(r, s0, acts, s, World(SyncVr));
  }

  /** The VGR is marked between two writes of the VR's first reconcile: the VR has its finalizer and is refused its annotation. */
  lemma UnannouncedReached(r: Rules) returns (acts: seq<Action>, s: State)
    ensures Run(r, Init(false, {}), acts) == s && Starts(s, {}) && s.vr.latest.Some? && !Announced(s)
  {
    var s0 := Init(false, {});
    acts, s := VrRead(r);
    acts, s := Do(r, s0, acts, s, VrSetup(VrAddFin(true)));
    acts, s := Do(r, s0, acts, s, World(UserDeletesVgr));
    acts, s := Do(r, s0, acts, s, VrSetup(VrOwnVgr(true)));
    acts, s := Do(r, s0, acts, s, World(SyncVgr));
    acts, s := Do(r, s0, acts, s, World(SyncVr));
  }

  /** A deleted VR is refused the write that takes its finalizer, after its annotation is gone. */
  lemma RefusedReached(r: Rules) returns (acts: seq<Action>, s: State)
    ensures Run(r, Init(false, {}), acts) == s && Starts(s, {}) && s.vr.latest.Some? && !Announced(s)
  {
    var s0 := Init(false, {});
    acts, s := VrAtDisable(r);
    acts, s := Do(r, s0, acts, s, VrTeardown(VrDisable(true, true)));
    acts, s := Do(r, s0, acts, s, VrTeardown(VrUnguard(true)));
    acts, s := Do(r, s0, acts, s, VrTeardown(VrDisown(true)));
    acts, s := Do(r, s0, acts, s, VrTeardown(VrDropFin(false)));
    acts, s := Do(r, s0, acts, s, World(UserDeletesVgr));
    acts, s := Do(r, s0, acts, s, World(SyncVgr));
    acts, s := Do(r, s0, acts, s, World(SyncVgr));
    acts, s := Do(r, s0, acts, s, World(SyncContent));
  }
}
