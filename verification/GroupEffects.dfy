/**
 Why things happen: what must be true of the objects when a group is deleted, a dependent is created or
 marked, a PVC is held, or a finalizer goes, in every run.
 */
module GroupEffects {
  import opened Wrappers
  import opened GroupModel
  import opened GroupSafety
  import opened GroupBacking
  import opened GroupOrder
  import opened GroupTheorems

  /** DeleteVolumeGroup is issued only for a VGR that is marked or gone, and a content that is marked or gone. */
  lemma GroupOfLiveVgrStays(r: Rules, named: bool, held: set<string>, acts: seq<Action>, a: Action)
    ensures var s := Run(r, Init(named, held), acts);
      DeletesGroup(s, a) ==> (s.vgr.latest.None? || s.vgr.latest.value.deleting) && (s.content.latest.None? || s.content.latest.value.deleting)
  {
    RunInvariants(r, named, held, acts);
    var s := Run(r, Init(named, held), acts);
    if DeletesGroup(s, a) {
      assert Version(s.vgr, Last(s.vgr)) == s.vgr.latest && Version(s.content, Last(s.content)) == s.content.latest;
      assert VgrDoomed(Version(s.vgr, s.contentTask.vgrAt));
      if s.content.latest.Some? { assert Grows(Version(s.content, s.contentTask.contentAt).value, s.content.latest.value); }
    }
  }

  // ----- Dependents -----

  /** A live VR is marked, or vanishes, only by its user or for a VGR that was marked and names it. */
  lemma VrMarkedForVgr(r: Rules, s: State, a: Action)
    requires Base(s) && s.vr.latest.Some? && !s.vr.latest.value.deleting
    requires var l := Apply(r, s, a).vr.latest; l.None? || l.value.deleting
    ensures a != World(UserDeletesVr) ==>
      a.VgrTeardown? && a.vgrTeardown.VgrDelVr? && s.vgrTask.vgr.deleting && s.vgrTask.vgr.vrNamed && IsVersion(s.vgr, s.vgrTask.vgrAt, s.vgrTask.vgr)
  {
  }

  lemma ContentMarkedForVgr(r: Rules, s: State, a: Action)
    requires Base(s) && s.content.latest.Some? && !s.content.latest.value.deleting
    requires var l := Apply(r, s, a).content.latest; l.None? || l.value.deleting
    ensures a != World(UserDeletesContent) ==>
      a.VgrTeardown? && a.vgrTeardown.VgrDelContent? && s.vgrTask.vgr.deleting && s.vgrTask.vgr.contentNamed
      && IsVersion(s.vgr, s.vgrTask.vgrAt, s.vgrTask.vgr)
  {
  }

  /** A VR is created only for a VGR that was alive and finalized, once the cache has shown the group's handle. */
  lemma VrCreatedForVgr(r: Rules, s: State, a: Action)
    requires Base(s) && Guard(r, s) && s.vr.latest.None? && Apply(r, s, a).vr.latest.Some?
    ensures a.VgrSetup? && a.vgrSetup.VgrVr? && !s.vgrTask.vgr.deleting && s.vgrTask.vgr.fin && IsVersion(s.vgr, s.vgrTask.vgrAt, s.vgrTask.vgr)
    ensures s.content.cached >= 1 && (Cached(s.content).Some? ==> Cached(s.content).value.handle)
  {
  }

  /** A content is created by the administrator, or for a VGR that was alive and finalized and named none. */
  lemma ContentCreatedForVgr(r: Rules, s: State, a: Action)
    requires Base(s) && s.content.latest.None? && Apply(r, s, a).content.latest.Some?
    ensures a != World(AdminAddsContent) ==>
      a.VgrSetup? && a.vgrSetup.VgrContent? && !s.vgrTask.vgr.deleting && s.vgrTask.vgr.fin && !s.vgrTask.vgr.contentNamed
      && IsVersion(s.vgr, s.vgrTask.vgrAt, s.vgrTask.vgr)
  {
  }

  // ----- The backend -----

  /** Exactly the calls of the controllers change the group, and a call that fails may have taken effect all the same. */
  lemma GroupChanges(r: Rules, s: State, a: Action)
    ensures Apply(r, s, a).back.group ==
      if a.ContentSetup? && a.contentSetup.ContentCreate? && s.contentTask.pc.CCreate?
      then s.back.group || a.contentSetup.ok || a.contentSetup.took
      else if a.ContentTeardown? && a.contentTeardown.ContentDelete? && s.contentTask.pc.CDelete?
      then s.back.group && !a.contentTeardown.ok && !a.contentTeardown.took
      else s.back.group
  {
  }

  /** The same for replication on it; Enable needs a handle in the copy, whatever it answers. */
  lemma ReplicationChanges(r: Rules, s: State, a: Action)
    ensures Apply(r, s, a).back.enabled ==
      if a.VrSetup? && a.vrSetup.VrEnable? && s.vrTask.pc.VEnable? && s.vrTask.content.Some? && s.vrTask.content.value.handle
      then s.back.enabled || (a.vrSetup.call && a.vrSetup.took)
      else if a.VrTeardown? && a.vrTeardown.VrDisable? && s.vrTask.pc.VDisable?
      then s.back.enabled && !a.vrTeardown.ok && !a.vrTeardown.took
      else s.back.enabled
  {
  }

  /**
   Replication is enabled only for a VR that was alive and finalized, just after a write confirmed that, on a content
   that carried a handle and the guard.
   */
  lemma EnabledForVr(r: Rules, s: State, a: Action)
    requires Base(s) && Guard(r, s) && !s.back.enabled && Apply(r, s, a).back.enabled
    ensures var t := s.vrTask;
      && a.VrSetup? && a.vrSetup.VrEnable? && a.vrSetup.call && IsVersion(s.vr, t.vrAt, t.vr) && !t.vr.deleting && t.vr.fin
      && t.vgr.contentNamed && t.vrAt > 0 && Version(s.vr, t.vrAt - 1) == Version(s.vr, t.vrAt) && t.content.Some? && t.content.value.handle && t.content.value.vrFin
  {
  }

  /** It is disabled only for a VR that was marked, on a content that carried a handle. */
  lemma DisabledForVr(r: Rules, s: State, a: Action)
    requires Base(s) && s.back.enabled && !Apply(r, s, a).back.enabled
    ensures var t := s.vrTask;
      a.VrTeardown? && a.vrTeardown.VrDisable? && IsVersion(s.vr, t.vrAt, t.vr) && t.vr.deleting && t.vr.fin
      && t.content.Some? && t.content.value.handle && Version(s.content, t.contentAt) == t.content
  {
  }

  /** A group is created only for a content that was alive and without a handle. */
  lemma GroupCreatedForContent(r: Rules, s: State, a: Action)
    requires Base(s) && !s.back.group && Apply(r, s, a).back.group
    ensures var t := s.contentTask;
      a.ContentSetup? && a.contentSetup.ContentCreate? && IsVersion(s.content, t.contentAt, t.content) && !t.content.deleting && !t.content.handle
  {
  }

  // ----- PVCs -----

  /**
   held0 are the PVCs of other groups.  The listed PVCs of a live VGR are held, a VGR holds no others, and when its
   finalizer is about to go or is gone it holds none.
   */
  ghost predicate Holding(s: State, held0: set<string>) {
    && (s.vgr.latest.Some? && !s.vgr.latest.value.deleting ==> forall p :: p in s.vgr.latest.value.pvcs ==> p in s.back.held)
    && (forall p :: p in s.back.held && p !in held0 ==> s.vgr.latest.Some? && p in s.vgr.latest.value.pvcs)
    && (s.vgrTask.pc.GDropFin? ==> forall p :: p in s.vgrTask.vgr.pvcs ==> p !in s.back.held)
    && (s.vgr.latest.Some? && !s.vgr.latest.value.fin ==> s.vgr.latest.value.pvcs == {})
  }

  /** A selection is not cut short between its first PVC write and the stored list. */
  predicate Whole(r: Rules, s: State, a: Action) {
    a.VgrSetup? && a.vgrSetup.VgrSelect? && s.vgrTask.pc.GSelect? ==> Apply(r, s, a).vgrTask.pc.GContent?
  }

  lemma HoldingOfVgrSetup(r: Rules, s: State, a: VgrSetupAction, held0: set<string>)
    requires Base(s) && VgrEnds(s.vgr) && Holding(s, held0) && Whole(r, s, VgrSetup(a))
    ensures Holding(ApplyVgrSetup(r, s, a), held0)
  {
  }

  lemma HoldingOfVgrTeardown(s: State, a: VgrTeardownAction, held0: set<string>)
    requires Base(s) && VgrEnds(s.vgr) && Holding(s, held0)
    ensures Holding(ApplyVgrTeardown(s, a), held0)
  {
    assert Version(s.vgr, Last(s.vgr)) == s.vgr.latest;
    if VgrTearsDown(s.vgrTask.pc) { assert VgrDoomed(Version(s.vgr, s.vgrTask.vgrAt)); }
  }

  lemma HoldingOfWorld(s: State, a: WorldAction, held0: set<string>)
    requires Base(s) && Holding(s, held0)
    ensures Holding(ApplyWorld(s, a), held0)
  {
  }

  lemma HoldingOfVrSetup(r: Rules, s: State, a: VrSetupAction, held0: set<string>)
    requires Base(s) && Holding(s, held0)
    ensures Holding(ApplyVrSetup(r, s, a), held0)
  {
  }

  lemma HoldingOfVrTeardown(s: State, a: VrTeardownAction, held0: set<string>)
    requires Base(s) && Holding(s, held0)
    ensures Holding(ApplyVrTeardown(s, a), held0)
  {
  }

  lemma HoldingOfContentSetup(s: State, a: ContentSetupAction, held0: set<string>)
    requires Base(s) && Holding(s, held0)
    ensures Holding(ApplyContentSetup(s, a), held0)
  {
  }

  lemma HoldingOfContentTeardown(s: State, a: ContentTeardownAction, held0: set<string>)
    requires Base(s) && Holding(s, held0)
    ensures Holding(ApplyContentTeardown(s, a), held0)
  {
  }

  lemma HoldingStep(r: Rules, s: State, a: Action, held0: set<string>)
    requires Base(s) && VgrEnds(s.vgr) && Holding(s, held0) && Whole(r, s, a)
    ensures Holding(Apply(r, s, a), held0)
  {
    match a
    case World(b) => HoldingOfWorld(s, b, held0);
    case VrSetup(b) => HoldingOfVrSetup(r, s, b, held0);
    case VrTeardown(b) => HoldingOfVrTeardown(s, b, held0);
    case ContentSetup(b) => HoldingOfContentSetup(s, b, held0);
    case ContentTeardown(b) => HoldingOfContentTeardown(s, b, held0);
    case VgrSetup(b) => HoldingOfVgrSetup(r, s, b, held0);
    case VgrTeardown(b) => HoldingOfVgrTeardown(s, b, held0);
  }

  /** In every run whose selections are not cut short, a VGR holds exactly its listed PVCs until it is deleted, and none once it is gone. */
  lemma {:induction false} RunHolds(r: Rules, named: bool, held: set<string>, acts: seq<Action>)
    requires forall k :: 0 <= k < |acts| ==> Whole(r, Run(r, Init(named, held), acts[..k]), acts[k])
    ensures Holding(Run(r, Init(named, held), acts), held)
    decreases |acts|
  {
    if acts != [] {
      var n := |acts| - 1;
      forall k | 0 <= k < n ensures Whole(r, Run(r, Init(named, held), acts[..n][..k]), acts[..n][k]) {
        assert acts[..n][..k] == acts[..k];
      }
      RunHolds(r, named, held, acts[..n]);
      RunInvariants(r, named, held, acts[..n]);
      HoldingStep(r, Run(r, Init(named, held), acts[..n]), acts[n], held);
    }
  }
}
