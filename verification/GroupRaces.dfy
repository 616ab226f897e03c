/**
 What the protocol's guards promise about a run, and two concrete runs that break the promises when
 the VR controller's cache has not caught up with the VR controller's own writes.
 */
module GroupRaces {
  import opened Wrappers
  import opened GroupModel
  import opened GroupSafety

  // ----- What the guards promise, run by run -----

  /** After acts, the next step a does not call DeleteVolumeGroup on an enabled group. */
  ghost predicate DeleteIsSafe(r: Rules, named: bool, held: set<string>, acts: seq<Action>, a: Action) {
    var s := Run(r, Init(named, held), acts);
    DeletesGroup(s, a) ==> !s.back.enabled
  }

  ghost predicate AlwaysDeleteSafe(r: Rules) {
    forall named: bool, held: set<string>, acts: seq<Action>, a: Action :: DeleteIsSafe(r, named, held, acts, a)
  }

  ghost predicate AlwaysNoOrphan(r: Rules) {
    forall named: bool, held: set<string>, acts: seq<Action> :: NoOrphan(Run(r, Init(named, held), acts))
  }

  // ----- Building runs step by step -----

  lemma {:induction false} RunConcat(r: Rules, s: State, a: seq<Action>, b: seq<Action>)
    ensures Run(r, s, a + b) == Run(r, Run(r, s, a), b)
    decreases |b|
  {
    if b == [] {
      assert a + b == a;
    } else {
      var c := b[..|b| - 1];
      RunConcat(r, s, a, c);
      assert (a + b)[..|a + b| - 1] == a + c;
    }
  }

  lemma Run1(r: Rules, s: State, a: Action)
    ensures Run(r, s, [a]) == Apply(r, s, a)
  {
    assert [a][..0] == [];
    assert Run(r, s, [a][..0]) == s;
  }

  lemma Do(r: Rules, s0: State, acts: seq<Action>, s: State, a: Action) returns (more: seq<Action>, s': State)
    requires Run(r, s0, acts) == s
    ensures more == acts + [a] && Run(r, s0, more) == s' == Apply(r, s, a)
  {
    more, s' := acts + [a], Apply(r, s, a);
    RunConcat(r, s0, acts, [a]);
    Run1(r, s, a);
  }

  predicate Quiet(s: State) { s.vrTask.pc.VIdle? && s.contentTask.pc.CIdle? && s.vgrTask.pc.GIdle? }

  const G1 := NEW_VGR.(fin := true)
  const G2 := G1.(contentNamed := true)
  const G3 := G2.(contentOwner := true)
  const G4 := G3.(vrNamed := true)
  const G5 := G4.(vrOwner := true)
  const C2 := NEW_CONTENT.(vgrFin := true)
  const C3 := C2.(handle := true)
  const C4 := C3.(vrFin := true)

  /** The VGR controller creates and names the content. */
  lemma ContentNamed(r: Rules) returns (acts: seq<Action>, s: State)
    ensures Run(r, Init(false, {}), acts) == s && Quiet(s)
    ensures s.vgr == Log([Some(NEW_VGR), Some(G1)], Some(G2), 0) && s.content == Log([None], Some(NEW_CONTENT), 0)
    ensures s.vr == Log([], None, 0) && s.memo.vrWroteVgr == 0 == s.memo.vrWroteContent
    ensures !s.back.enabled
  {
    var s0 := Init(false, {});
    acts, s := [], s0;
    acts, s := Do(r, s0, acts, s, VgrSetup(VgrBegin));
    acts, s := Do(r, s0, acts, s, VgrSetup(VgrAddFin(true)));
    acts, s := Do(r, s0, acts, s, VgrSetup(VgrSelect({}, {}, {}, true)));
    acts, s := Do(r, s0, acts, s, VgrSetup(VgrContent(true, false)));
    acts, s := Do(r, s0, acts, s, VgrSetup(VgrNameContent(true)));
  }

  /** The caches show it. */
  lemma ContentMade(r: Rules) returns (acts: seq<Action>, s: State)
    ensures Run(r, Init(false, {}), acts) == s && Quiet(s)
    ensures s.vgr == Log([Some(NEW_VGR), Some(G1)], Some(G2), 2) && s.content == Log([None], Some(NEW_CONTENT), 1)
    ensures s.vr == Log([], None, 0) && s.memo.vrWroteVgr == 0 == s.memo.vrWroteContent
    ensures !s.back.enabled
  {
    var s0 := Init(false, {});
    acts, s := ContentNamed(r);
    acts, s := Do(r, s0, acts, s, World(SyncContent));
    acts, s := Do(r, s0, acts, s, World(SyncVgr));
    acts, s := Do(r, s0, acts, s, World(SyncVgr));
  }

  /** The content controller has announced itself on the VGR and taken the content's finalizer. */
  lemma ContentHeld(r: Rules) returns (acts: seq<Action>, s: State)
    ensures Run(r, Init(false, {}), acts) == s && s.vrTask.pc.VIdle? && s.vgrTask.pc.GIdle?
    ensures s.contentTask.pc.CCreate? && s.contentTask.content == C2 && s.contentTask.contentAt == 2
    ensures s.vgr == Log([Some(NEW_VGR), Some(G1), Some(G2)], Some(G3), 2)
    ensures s.content == Log([None, Some(NEW_CONTENT)], Some(C2), 1)
    ensures s.vr == Log([], None, 0) && s.memo.vrWroteVgr == 0 == s.memo.vrWroteContent
    ensures !s.back.enabled
  {
    var s0 := Init(false, {});
    acts, s := ContentMade(r);
    acts, s := Do(r, s0, acts, s, ContentSetup(ContentBegin));
    acts, s := Do(r, s0, acts, s, ContentSetup(ContentFetchVgr));
    acts, s := Do(r, s0, acts, s, ContentSetup(ContentOwnVgr(true)));
    acts, s := Do(r, s0, acts, s, ContentSetup(ContentAddFin(true)));
  }

  /** The content controller creates the group and records its handle. */
  lemma GroupMade(r: Rules) returns (acts: seq<Action>, s: State)
    ensures Run(r, Init(false, {}), acts) == s && Quiet(s)
    ensures s.vgr == Log([Some(NEW_VGR), Some(G1), Some(G2)], Some(G3), 3)
    ensures s.content == Log([None, Some(NEW_CONTENT), Some(C2)], Some(C3), 3)
    ensures s.vr == Log([], None, 0) && s.memo.vrWroteVgr == 0 == s.memo.vrWroteContent
    ensures s.back.group && !s.back.enabled
  {
    var s0 := Init(false, {});
    acts, s := ContentHeld(r);
    acts, s := Do(r, s0, acts, s, ContentSetup(ContentCreate(true, true)));
    acts, s := Do(r, s0, acts, s, ContentSetup(ContentRecord(true)));
    acts, s := Do(r, s0, acts, s, World(SyncContent));
    acts, s := Do(r, s0, acts, s, World(SyncContent));
    acts, s := Do(r, s0, acts, s, World(SyncVgr));
  }

  /** With the content named and the handle recorded, the VGR controller goes on to the VR. */
  lemma VgrAtVr(r: Rules, s0: State, acts: seq<Action>, s: State) returns (more: seq<Action>, s': State)
    requires Run(r, s0, acts) == s && Quiet(s) && Cached(s.vgr).Some? && Cached(s.content).Some? && Cached(s.content).value.handle
    requires var g := Cached(s.vgr).value; g.fin && !g.deleting && g.contentNamed && g.pvcs == {}
    ensures Run(r, s0, more) == s' && s'.vgrTask == VgrTask(GVr, Cached(s.vgr).value, s.vgr.cached, true)
    ensures s'.vgr == s.vgr && s'.content == s.content && s'.vr == s.vr && s'.memo == s.memo
    ensures s'.vrTask == s.vrTask && s'.contentTask == s.contentTask
    ensures s'.back.group == s.back.group && s'.back.enabled == s.back.enabled
  {
    more, s' := acts, s;
    more, s' := Do(r, s0, more, s', VgrSetup(VgrBegin));
    more, s' := Do(r, s0, more, s', VgrSetup(VgrAddFin(true)));
    more, s' := Do(r, s0, more, s', VgrSetup(VgrSelect({}, {}, {}, true)));
    more, s' := Do(r, s0, more, s', VgrSetup(VgrContent(true, false)));
    more, s' := Do(r, s0, more, s', VgrSetup(VgrNameContent(true)));
  }

  /** The VGR controller creates and names the VR. */
  lemma VrMade(r: Rules) returns (acts: seq<Action>, s: State)
    ensures Run(r, Init(false, {}), acts) == s && Quiet(s)
    ensures s.vgr == Log([Some(NEW_VGR), Some(G1), Some(G2), Some(G3)], Some(G4), 4)
    ensures s.content == Log([None, Some(NEW_CONTENT), Some(C2)], Some(C3), 3)
    ensures s.vr == Log([None], Some(Vr(false, false)), 1) && s.memo.vrWroteVgr == 0 == s.memo.vrWroteContent
    ensures s.back.group && !s.back.enabled
  {
    var s0 := Init(false, {});
    acts, s := GroupMade(r);
    acts, s := VgrAtVr(r, s0, acts, s);
    acts, s := Do(r, s0, acts, s, VgrSetup(VgrVr(true, false)));
    acts, s := Do(r, s0, acts, s, VgrSetup(VgrNameVr(true)));
    acts, s := Do(r, s0, acts, s, World(SyncVr));
    acts, s := Do(r, s0, acts, s, World(SyncVgr));
  }

  const PAST_G := [Some(NEW_VGR), Some(G1), Some(G2), Some(G3), Some(G4)]
  const PAST_C := [None, Some(NEW_CONTENT), Some(C2), Some(C3)]
  const PAST_V := [None, Some(Vr(false, false)), Some(Vr(false, true)), Some(Vr(false, true))]

  /** The VR controller has read everything it needs. */
  lemma VrRead(r: Rules) returns (acts: seq<Action>, s: State)
    ensures Run(r, Init(false, {}), acts) == s
    ensures s.contentTask.pc.CIdle? && s.vgrTask.pc.GIdle?
    ensures s.vrTask == VrTask(VAddFin, Vr(false, false), 1, G4, 4, Some(C3), 3)
    ensures s.vgr == Log([Some(NEW_VGR), Some(G1), Some(G2), Some(G3)], Some(G4), 4)
    ensures s.content == Log([None, Some(NEW_CONTENT), Some(C2)], Some(C3), 3)
    ensures s.vr == Log([None], Some(Vr(false, false)), 1)
    ensures s.back.group && !s.back.enabled
    ensures s.memo.vrWroteVgr == 0 == s.memo.vrWroteContent
  {
    var s0 := Init(false, {});
    acts, s := VrMade(r);
    acts, s := Do(r, s0, acts, s, VrSetup(VrBegin));
    acts, s := Do(r, s0, acts, s, VrSetup(VrFetchVgr));
    acts, s := Do(r, s0, acts, s, VrSetup(VrFetchContent));
  }

  /** The VR controller sets its guards and enables replication: setup can always get this far. */
  lemma VrEnabled(r: Rules) returns (acts: seq<Action>, s: State)
    ensures Run(r, Init(false, {}), acts) == s && Quiet(s)
    ensures s.vgr == Log(PAST_G, Some(G5), 4) && s.content == Log(PAST_C, Some(C4), 3)
    ensures s.vr == Log([None, Some(Vr(false, false)), Some(Vr(false, true))], Some(Vr(false, true)), 1)
    ensures s.memo.vrWroteVgr == 5 && s.memo.vrWroteContent == 4
    ensures s.back.group && s.back.enabled
  {
    var s0 := Init(false, {});
    acts, s := VrRead(r);
    acts, s := Do(r, s0, acts, s, VrSetup(VrAddFin(true)));
    acts, s := Do(r, s0, acts, s, VrSetup(VrOwnVgr(true)));
    acts, s := Do(r, s0, acts, s, VrSetup(VrGuard(true)));
    acts, s := Do(r, s0, acts, s, VrSetup(VrUpdate(true)));
    acts, s := Do(r, s0, acts, s, VrSetup(VrEnable(true, true)));
  }

  /** Then the VR is marked for deletion, and the cache shows it. */
  lemma VrEnabledAndMarked(r: Rules) returns (acts: seq<Action>, s: State)
    ensures Run(r, Init(false, {}), acts) == s && Quiet(s)
    ensures s.vgr == Log(PAST_G, Some(G5), 4) && s.content == Log(PAST_C, Some(C4), 3)
    ensures s.vr == Log(PAST_V, Some(Vr(true, true)), 4)
    ensures s.memo.vrWroteVgr == 5 && s.memo.vrWroteContent == 4
  {
    var s0 := Init(false, {});
    acts, s := VrEnabled(r);
    acts, s := Do(r, s0, acts, s, World(UserDeletesVr));
    acts, s := Do(r, s0, acts, s, World(SyncVr));
    acts, s := Do(r, s0, acts, s, World(SyncVr));
    acts, s := Do(r, s0, acts, s, World(SyncVr));
  }

  /**
   Cache lag orphans the guard: the VR controller tears down from copies of the VGR and the content
   that predate its own writes, finds nothing to remove, and lets the VR go.
   */
  lemma LagOrphansGuard(r: Rules)
    requires !r.ownWritesVisible
    ensures !AlwaysNoOrphan(r)
  {
    var s0 := Init(false, {});
    var acts, s := VrEnabledAndMarked(r);
    acts, s := Do(r, s0, acts, s, VrSetup(VrBegin));
    acts, s := Do(r, s0, acts, s, VrSetup(VrFetchVgr));
    acts, s := Do(r, s0, acts, s, VrSetup(VrFetchContent));
    acts, s := Do(r, s0, acts, s, VrTeardown(VrDisable(true, true)));
    acts, s := Do(r, s0, acts, s, VrTeardown(VrUnguard(true)));
    acts, s := Do(r, s0, acts, s, VrTeardown(VrDisown(true)));
    acts, s := Do(r, s0, acts, s, VrTeardown(VrDropFin(true)));
    assert Guarded(s) && !VrHolds(s);
    assert !NoOrphan(Run(r, Init(false, {}), acts));
  }

  /** The VR controller starts the teardown of the first VR from fresh copies. */
  lemma VrAtDisable(r: Rules) returns (acts: seq<Action>, s: State)
    ensures Run(r, Init(false, {}), acts) == s && s.contentTask.pc.CIdle? && s.vgrTask.pc.GIdle?
    ensures s.vrTask == VrTask(VDisable, Vr(true, true), 4, G5, 5, Some(C4), 4)
    ensures s.vgr == Log(PAST_G, Some(G5), 5) && s.content == Log(PAST_C, Some(C4), 4)
    ensures s.vr == Log(PAST_V, Some(Vr(true, true)), 4)
  {
    var s0 := Init(false, {});
    acts, s := VrEnabledAndMarked(r);
    acts, s := Do(r, s0, acts, s, World(SyncVgr));
    acts, s := Do(r, s0, acts, s, World(SyncContent));
    acts, s := Do(r, s0, acts, s, VrSetup(VrBegin));
    acts, s := Do(r, s0, acts, s, VrSetup(VrFetchVgr));
    acts, s := Do(r, s0, acts, s, VrSetup(VrFetchContent));
  }

  /** The first VR is torn down. */
  lemma VrGone(r: Rules) returns (acts: seq<Action>, s: State)
    requires !r.ownWritesVisible
    ensures Run(r, Init(false, {}), acts) == s && Quiet(s)
    ensures s.vgr == Log(PAST_G + [Some(G5)], Some(G4), 5) && s.content == Log(PAST_C + [Some(C4)], Some(C3), 4)
    ensures s.vr == Log(PAST_V + [Some(Vr(true, true))], None, 5)
  {
    var s0 := Init(false, {});
    acts, s := VrAtDisable(r);
    acts, s := Do(r, s0, acts, s, VrTeardown(VrDisable(true, true)));
    acts, s := Do(r, s0, acts, s, VrTeardown(VrUnguard(true)));
    acts, s := Do(r, s0, acts, s, VrTeardown(VrDisown(true)));
    acts, s := Do(r, s0, acts, s, VrTeardown(VrDropFin(true)));
    acts, s := Do(r, s0, acts, s, World(SyncVr));
  }

  /** The VGR controller creates a second VR. */
  lemma VrMadeAgain(r: Rules) returns (acts: seq<Action>, s: State)
    requires !r.ownWritesVisible && r.vrRecreated
    ensures Run(r, Init(false, {}), acts) == s && Quiet(s)
    ensures s.vgr == Log(PAST_G + [Some(G5)], Some(G4), 5) && s.content == Log(PAST_C + [Some(C4)], Some(C3), 4)
    ensures s.vr == Log(PAST_V + [Some(Vr(true, true)), None], Some(Vr(false, false)), 6)
  {
    var s0 := Init(false, {});
    acts, s := VrGone(r);
    acts, s := VgrAtVr(r, s0, acts, s);
    acts, s := Do(r, s0, acts, s, VgrSetup(VgrVr(true, false)));
    acts, s := Do(r, s0, acts, s, VgrSetup(VgrNameVr(true)));
    acts, s := Do(r, s0, acts, s, World(SyncVr));
  }

  /** Its controller reads copies that still show the first VR's guard. */
  lemma SecondVrRead(r: Rules) returns (acts: seq<Action>, s: State)
    requires !GuardRule(r)
    ensures Run(r, Init(false, {}), acts) == s && s.contentTask.pc.CIdle? && s.vgrTask.pc.GIdle?
    ensures s.vrTask == VrTask(VAddFin, Vr(false, false), 6, G5, 5, Some(C4), 4)
    ensures s.vgr == Log(PAST_G + [Some(G5)], Some(G4), 5) && s.content == Log(PAST_C + [Some(C4)], Some(C3), 4)
    ensures s.vr == Log(PAST_V + [Some(Vr(true, true)), None], Some(Vr(false, false)), 6)
  {
    var s0 := Init(false, {});
    acts, s := VrMadeAgain(r);
    acts, s := Do(r, s0, acts, s, VrSetup(VrBegin));
    acts, s := Do(r, s0, acts, s, VrSetup(VrFetchVgr));
    acts, s := Do(r, s0, acts, s, VrSetup(VrFetchContent));
  }

  /** It trusts that guard and enables the group without one. */
  lemma EnabledUnguarded(r: Rules) returns (acts: seq<Action>, s: State)
    requires !GuardRule(r)
    ensures Run(r, Init(false, {}), acts) == s && Quiet(s) && s.back.enabled
    ensures s.vgr == Log(PAST_G + [Some(G5)], Some(G4), 5) && s.content == Log(PAST_C + [Some(C4)], Some(C3), 4)
  {
    var s0 := Init(false, {});
    acts, s := SecondVrRead(r);
    acts, s := Do(r, s0, acts, s, VrSetup(VrAddFin(true)));
    acts, s := Do(r, s0, acts, s, VrSetup(VrOwnVgr(true)));
    acts, s := Do(r, s0, acts, s, VrSetup(VrGuard(true)));
    acts, s := Do(r, s0, acts, s, VrSetup(VrUpdate(true)));
    acts, s := Do(r, s0, acts, s, VrSetup(VrEnable(true, true)));
  }

  /** With a second VR the lag is fatal: the content controller deletes the group that is enabled. */
  lemma LagUnguardsEnable(r: Rules)
    requires !GuardRule(r)
    ensures !AlwaysDeleteSafe(r)
  {
    var s0 := Init(false, {});
    var acts, s := EnabledUnguarded(r);
    acts, s := Do(r, s0, acts, s, World(UserDeletesVgr));
    acts, s := Do(r, s0, acts, s, World(UserDeletesContent));
    acts, s := Do(r, s0, acts, s, World(SyncVgr));
    acts, s := Do(r, s0, acts, s, World(SyncVgr));
    acts, s := Do(r, s0, acts, s, World(SyncContent));
    acts, s := Do(r, s0, acts, s, World(SyncContent));
    acts, s := Do(r, s0, acts, s, ContentSetup(ContentBegin));
    acts, s := Do(r, s0, acts, s, ContentSetup(ContentFetchVgr));
    assert DeletesGroup(s, ContentTeardown(ContentDelete(true, true)));
    assert !DeleteIsSafe(r, false, {}, acts, ContentTeardown(ContentDelete(true, true)));
  }
}
