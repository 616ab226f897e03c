/**
 The order in which the controllers write: the VR is announced before it guards, a VR is created
 before it is named, and the backend's group belongs to a content that the VGR controller created.
 */
module GroupOrder {
  import opened Wrappers
  import opened GroupModel
  import opened GroupSafety
  import opened GroupBacking

  predicate Names(s: State) {
    (s.vgr.latest.Some? && s.vgr.latest.value.vrNamed ==> Last(s.vr) > 0) && (s.vgrTask.pc.GNameVr? ==> Last(s.vr) > 0)
  }

  predicate Origins(s: State) {
    && (s.memo.dynamic ==> Last(s.content) > 0)
    && (s.memo.dynamic && s.content.latest.Some? && s.content.latest.value.handle ==> s.memo.recorded)
    && (s.back.group ==> s.memo.dynamic)
  }

  predicate OwnsFirst(r: Rules, s: State) {
    r.ownWritesVisible && (Guarded(s) || s.vrTask.pc.VGuard?) && s.vgr.latest.Some? ==> s.vgr.latest.value.vrOwner
  }

  predicate Order(r: Rules, s: State) { Names(s) && Origins(s) && OwnsFirst(r, s) }

  lemma OrderOfWorld(r: Rules, s: State, a: WorldAction)
    requires Base(s) && Order(r, s)
    ensures Order(r, ApplyWorld(s, a))
  {
  }

  lemma OrderOfVrSetup(r: Rules, s: State, a: VrSetupAction)
    requires Base(s) && Guard(r, s) && Order(r, s)
    ensures Order(r, ApplyVrSetup(r, s, a))
  {
  }

  lemma OrderOfVrTeardown(r: Rules, s: State, a: VrTeardownAction)
    requires Base(s) && Guard(r, s) && Order(r, s)
    ensures Order(r, ApplyVrTeardown(s, a))
  {
  }

  lemma OrderOfContentSetup(r: Rules, s: State, a: ContentSetupAction)
    requires Base(s) && Backing(s) && Order(r, s)
    ensures Order(r, ApplyContentSetup(s, a))
  {
  }

  lemma OrderOfContentTeardown(r: Rules, s: State, a: ContentTeardownAction)
    requires Base(s) && Order(r, s)
    ensures Order(r, ApplyContentTeardown(s, a))
  {
  }

  lemma NamesOfVgrSetup(r: Rules, s: State, a: VgrSetupAction)
    requires Base(s) && Names(s)
    ensures Names(ApplyVgrSetup(r, s, a))
  {
  }

  lemma OrderOfVgrSetup(r: Rules, s: State, a: VgrSetupAction)
    requires Base(s) && Order(r, s)
    ensures Origins(ApplyVgrSetup(r, s, a)) && OwnsFirst(r, ApplyVgrSetup(r, s, a))
  {
  }

  lemma OrderOfVgrTeardown(r: Rules, s: State, a: VgrTeardownAction)
    requires Base(s) && Order(r, s)
    ensures Order(r, ApplyVgrTeardown(s, a))
  {
  }

  lemma OrderStep(r: Rules, s: State, a: Action)
    requires Base(s) && Guard(r, s) && Backing(s) && Order(r, s)
    ensures Order(r, Apply(r, s, a))
  {
    match a
    case World(b) => OrderOfWorld(r, s, b);
    case VrSetup(b) => OrderOfVrSetup(r, s, b);
    case VrTeardown(b) => OrderOfVrTeardown(r, s, b);
    case ContentSetup(b) => OrderOfContentSetup(r, s, b);
    case ContentTeardown(b) => OrderOfContentTeardown(r, s, b);
    case VgrSetup(b) => NamesOfVgrSetup(r, s, b); OrderOfVgrSetup(r, s, b);
    case VgrTeardown(b) => OrderOfVgrTeardown(r, s, b);
  }

  // ----- A VGR that is marked stays marked -----

  predicate VgrDoomed(x: Option<Vgr>) { x.None? || x.value.deleting }

  ghost predicate VgrEnds(l: Log<Vgr>) {
    forall i, j :: 0 <= i <= j <= Last(l) && VgrDoomed(Version(l, i)) ==> VgrDoomed(Version(l, j))
  }

  ghost predicate VgrLasts(l: Log<Vgr>, l': Log<Vgr>) {
    Moves(l, l') && (l'.past != l.past && VgrDoomed(l.latest) ==> VgrDoomed(l'.latest))
  }

  lemma VgrEndsMore(l: Log<Vgr>, l': Log<Vgr>)
    requires VgrEnds(l) && VgrLasts(l, l')
    ensures VgrEnds(l')
  {
    MovesExtends(l, l');
    assert Version(l, Last(l)) == l.latest;
  }

  lemma VgrLastsOfVr(r: Rules, s: State, a: VrSetupAction, b: VrTeardownAction)
    requires Base(s)
    ensures VgrLasts(s.vgr, ApplyVrSetup(r, s, a).vgr) && VgrLasts(s.vgr, ApplyVrTeardown(s, b).vgr)
  {
  }

  lemma VgrLastsOfContent(s: State, a: ContentSetupAction, b: ContentTeardownAction)
    requires Base(s)
    ensures VgrLasts(s.vgr, ApplyContentSetup(s, a).vgr) && VgrLasts(s.vgr, ApplyContentTeardown(s, b).vgr)
  {
  }

  lemma VgrLastsOfVgr(r: Rules, s: State, a: VgrSetupAction, b: VgrTeardownAction)
    requires Base(s)
    ensures VgrLasts(s.vgr, ApplyVgrSetup(r, s, a).vgr) && VgrLasts(s.vgr, ApplyVgrTeardown(s, b).vgr)
  {
  }

  lemma VgrLastsStep(r: Rules, s: State, a: Action)
    requires Base(s)
    ensures VgrLasts(s.vgr, Apply(r, s, a).vgr)
  {
    match a
    case World(b) => MovesOfWorld(s, b);
    case VrSetup(b) => VgrLastsOfVr(r, s, b, VrDisable(true, true));
    case VrTeardown(b) => VgrLastsOfVr(r, s, VrAbort, b);
    case ContentSetup(b) => VgrLastsOfContent(s, b, ContentDisown(true));
    case ContentTeardown(b) => VgrLastsOfContent(s, ContentAbort, b);
    case VgrSetup(b) => VgrLastsOfVgr(r, s, b, VgrDelVr(true));
    case VgrTeardown(b) => VgrLastsOfVgr(r, s, VgrAbort, b);
  }

  /** A step of another controller leaves the reconcile in flight alone. */
  lemma OthersKeepTask(r: Rules, s: State, a: Action)
    requires Base(s)
    ensures !a.VrSetup? && !a.VrTeardown? ==> Apply(r, s, a).vrTask == s.vrTask
    ensures !a.ContentSetup? && !a.ContentTeardown? ==> Apply(r, s, a).contentTask == s.contentTask
    ensures !a.VgrSetup? && !a.VgrTeardown? ==> Apply(r, s, a).vgrTask == s.vgrTask
  {
    match a
    case World(b) => MovesOfWorld(s, b);
    case VrSetup(b) => MovesOfVrSetup(r, s, b);
    case VrTeardown(b) => MovesOfVrTeardown(s, b);
    case ContentSetup(b) => MovesOfContentSetup(s, b);
    case ContentTeardown(b) => MovesOfContentTeardown(s, b);
    case VgrSetup(b) => MovesOfVgrSetup(r, s, b);
    case VgrTeardown(b) => MovesOfVgrTeardown(s, b);
  }

  // ----- All invariants of a run -----

  ghost predicate Sound(r: Rules, s: State) { Base(s) && Guard(r, s) && Backing(s) && Order(r, s) && VgrEnds(s.vgr) }

  lemma SoundStep(r: Rules, s: State, a: Action)
    requires Sound(r, s)
    ensures Sound(r, Apply(r, s, a))
  {
    BaseStep(r, s, a);
    GuardStep(r, s, a);
    BackingStep(r, s, a);
    OrderStep(r, s, a);
    VgrLastsStep(r, s, a);
    VgrEndsMore(s.vgr, Apply(r, s, a).vgr);
  }
}
