/**
 A group on its way out: what single steps do once the cache shows that the VGR is marked for deletion.
 */
module GroupClosing {
  import opened Wrappers
  import opened GroupModel
  import opened GroupSafety
  import opened GroupBacking
  import opened GroupOrder

  // ----- Nothing comes back, whatever fails -----

  function VrRank(s: State): nat { if s.vr.latest.None? then 0 else if s.vr.latest.value.deleting then 1 else 2 }

  function ContentRank(s: State): nat { if s.content.latest.None? then 0 else if s.content.latest.value.deleting then 1 else 2 }

  function VgrRank(s: State): nat { if s.vgr.latest.None? then 0 else if s.vgr.latest.value.deleting then 1 else 2 }

  /** The cache shows the VGR marked or gone, no reconcile of it started before that, and the content was created. */
  predicate Shut(s: State) { VgrDoomed(Cached(s.vgr)) && !VgrSetsUp(s.vgrTask.pc) && Last(s.content) > 0 }

  lemma NoSetupBegins(r: Rules, s: State, a: VgrSetupAction, b: VgrTeardownAction)
    requires Shut(s)
    ensures !VgrSetsUp(ApplyVgrSetup(r, s, a).vgrTask.pc) && !VgrSetsUp(ApplyVgrTeardown(s, b).vgrTask.pc)
  {
  }

  lemma ShutStays(r: Rules, s: State, a: Action)
    requires Base(s) && VgrEnds(s.vgr) && Shut(s)
    ensures Shut(Apply(r, s, a))
  {
    var s' := Apply(r, s, a);
    StepSinks(r, s, a);
    VgrLastsStep(r, s, a);
    VgrEndsMore(s.vgr, s'.vgr);
    MovesExtends(s.vgr, s'.vgr);
    assert Version(s'.vgr, s.vgr.cached) == Cached(s.vgr);
    OthersKeepTask(r, s, a);
    if a.VgrSetup? { NoSetupBegins(r, s, a.vgrSetup, VgrDelVr(true)); }
    if a.VgrTeardown? { NoSetupBegins(r, s, VgrAbort, a.vgrTeardown); }
  }

  /** The VR and the content only move towards being gone, and a VGR that is gone stays gone. */
  predicate Sinks(s: State, s': State) {
    && VrRank(s') <= VrRank(s) && ContentRank(s') <= ContentRank(s)
    && (s.vgr.latest.None? ==> s'.vgr.latest.None?) && Last(s.content) <= Last(s'.content)
  }

  lemma SinksOfVrSetup(r: Rules, s: State, a: VrSetupAction)
    requires Base(s) && Shut(s)
    ensures Sinks(s, ApplyVrSetup(r, s, a))
  {
  }

  lemma SinksOfVrTeardown(s: State, a: VrTeardownAction)
    requires Base(s) && Shut(s)
    ensures Sinks(s, ApplyVrTeardown(s, a))
  {
  }

  lemma SinksOfContent(s: State, a: ContentSetupAction, b: ContentTeardownAction)
    requires Base(s) && Shut(s)
    ensures Sinks(s, ApplyContentSetup(s, a)) && Sinks(s, ApplyContentTeardown(s, b))
  {
  }

  lemma SinksOfVgr(r: Rules, s: State, a: VgrSetupAction, b: VgrTeardownAction)
    requires Base(s) && Shut(s)
    ensures Sinks(s, ApplyVgrSetup(r, s, a)) && Sinks(s, ApplyVgrTeardown(s, b))
  {
  }

  /** Under any action, with any stale read, refused write or failed call. */
  lemma StepSinks(r: Rules, s: State, a: Action)
    requires Base(s) && Shut(s)
    ensures Sinks(s, Apply(r, s, a))
  {
    match a
    case World(b) => MovesOfWorld(s, b);
    case VrSetup(b) => SinksOfVrSetup(r, s, b);
    case VrTeardown(b) => SinksOfVrTeardown(s, b);
    case ContentSetup(b) => SinksOfContent(s, b, ContentDisown(true));
    case ContentTeardown(b) => SinksOfContent(s, ContentAbort, b);
    case VgrSetup(b) => SinksOfVgr(r, s, b, VgrDelVr(true));
    case VgrTeardown(b) => SinksOfVgr(r, s, VgrAbort, b);
  }

  // ----- The closing invariant -----

  predicate Settled(g: Vgr, list: set<string>) { g.deleting && g.fin && g.contentNamed && g.vrNamed && g.pvcs == list }

  /** Every version of the VGR that can still be read is marked, names both dependents, and announces the content if the newest does. */
  ghost predicate VgrTail(l: Log<Vgr>, list: set<string>) {
    forall i :: l.cached <= i <= Last(l) && Version(l, i).Some? ==>
      Settled(Version(l, i).value, list) && (Owns(l.latest) ==> Version(l, i).value.contentOwner)
  }

  /** A marked VR is not written again before it goes. */
  ghost predicate VrTail(l: Log<Vr>) {
    forall i :: l.cached <= i < Last(l) && Version(l, i).Some? && Version(l, i).value.deleting ==> l.latest.None?
  }

  /** Nor is a marked content without its guard. */
  ghost predicate ContentTail(l: Log<Content>) {
    forall i :: l.cached <= i < Last(l) && Version(l, i).Some? && Version(l, i).value.deleting && !Version(l, i).value.vrFin ==>
      l.latest.None?
  }

  ghost predicate VgrClosing(s: State, list: set<string>) {
    var t := s.vgrTask;
    && (t.pc != GIdle ==> VgrTearsDown(t.pc) && Settled(t.vgr, list))
    && (s.vgr.latest.None? || t.pc.GDropFin? ==> s.back.held !! list)
  }

  /** The VR holds its finalizer and is announced, unless its finalizer is about to be taken. */
  ghost predicate VrClosing(s: State) {
    var t := s.vrTask;
    && (t.pc != VIdle && t.vr.deleting ==> t.vrAt == Last(s.vr) || s.vr.latest.None?)
    && (s.vr.latest.Some? ==> s.vr.latest.value.fin && (Owned(s) || t.pc.VDropFin?))
  }

  /** So does and is the content, which also exists as long as it is announced or a set-up of it is in flight. */
  ghost predicate ContentClosing(s: State) {
    var t := s.contentTask;
    && Last(s.content) > 0
    && (t.pc != CIdle && t.content.deleting && !t.content.vrFin ==> t.contentAt == Last(s.content) || s.content.latest.None?)
    && (t.pc != CIdle && !t.content.deleting ==> s.content.latest.Some?)
    && (s.content.latest.None? ==> ContentDoomed(s.content) && !ContentOwns(s))
    && (s.content.latest.Some? ==> s.content.latest.value.vgrFin && (ContentOwns(s) || t.pc.CDropFin?))
    && (t.pc.CDropFin? ==> !ContentOwns(s))
    && (t.pc.CDelete? || t.pc.CDisown? ==> ContentOwns(s) ==> t.vgr.contentOwner)
    && (s.memo.dynamic ==> s.memo.recorded)
  }

  ghost predicate Tails(s: State, list: set<string>) { VgrTail(s.vgr, list) && VrTail(s.vr) && ContentTail(s.content) }

  ghost predicate Closing(s: State, list: set<string>) { Tails(s, list) && VgrClosing(s, list) && VrClosing(s) && ContentClosing(s) }

  /**
   No reconcile is cut short, no call or write of a teardown fails, other than by compare-and-swap
   against a newer version, and nobody else writes to the VGR or to a marked object.  Set-ups may fail.
   */
  predicate Smooth(s: State, a: Action) {
    match a
    case World(b) => !b.TouchVgr? && (b.TouchVr? ==> VrRank(s) != 1) && (b.TouchContent? ==> ContentRank(s) != 1)
    case VrSetup(b) => !b.VrAbort?
    case ContentSetup(b) => !b.ContentAbort?
    case VgrSetup(b) => !b.VgrAbort?
    case VrTeardown(b) => b.ok
    case ContentTeardown(b) => b.ok
    case VgrTeardown(b) => if b.VgrRelease? then b.failed == {} else b.ok
  }

  // ----- How the logs close -----

  ghost predicate VgrShuts(l: Log<Vgr>, l': Log<Vgr>) {
    && Moves(l, l')
    && (l'.past != l.past ==> l.latest.Some? && l'.latest != l.latest && (l'.latest.Some? ==>
          && l'.latest.value == l.latest.value.(vrOwner := l'.latest.value.vrOwner, contentOwner := l'.latest.value.contentOwner)
          && (l'.latest.value.contentOwner ==> l.latest.value.contentOwner) && (l'.latest.value.vrOwner ==> l.latest.value.vrOwner)))
  }

  ghost predicate VrShuts(l: Log<Vr>, l': Log<Vr>) {
    Moves(l, l') && (l'.past != l.past ==> l.latest.Some? && (l'.latest.None? || (!l.latest.value.deleting && l'.latest.value.fin)))
  }

  ghost predicate ContentShuts(l: Log<Content>, l': Log<Content>) {
    && Moves(l, l')
    && (l'.past != l.past ==>
          && l.latest.Some?
          && if l.latest.value.deleting then l'.latest.None? || (l.latest.value.vrFin && l'.latest == Some(l.latest.value.(vrFin := false)))
             else l'.latest.Some? && l'.latest.value.vgrFin)
  }

  ghost predicate Shuts(s: State, s': State) { VgrShuts(s.vgr, s'.vgr) && VrShuts(s.vr, s'.vr) && ContentShuts(s.content, s'.content) }

  lemma TailsStay(s: State, s': State, list: set<string>)
    requires Base(s) && Tails(s, list) && Shuts(s, s')
    ensures Tails(s', list)
  {
    MovesExtends(s.vgr, s'.vgr);
    MovesExtends(s.vr, s'.vr);
    MovesExtends(s.content, s'.content);
    assert Version(s.vgr, Last(s.vgr)) == s.vgr.latest && Version(s.vr, Last(s.vr)) == s.vr.latest;
    assert Version(s.content, Last(s.content)) == s.content.latest;
  }

  // ----- Each controller minds its own object -----

  predicate VgrAside(s: State, s': State) {
    s'.vgrTask == s.vgrTask && s'.back.held == s.back.held && (s.vgr.latest.Some? ==> s'.vgr.latest.Some?)
  }

  predicate VrAside(s: State, s': State) {
    s'.vrTask == s.vrTask && Owned(s') == Owned(s) && (s.vr.latest.Some? ==> s'.vr.latest.Some?)
  }

  predicate ContentAside(s: State, s': State) {
    && s'.contentTask == s.contentTask && ContentOwns(s') == ContentOwns(s) && (s.content.latest.Some? ==> s'.content.latest.Some?)
    && s'.memo.dynamic == s.memo.dynamic && s'.memo.recorded == s.memo.recorded
  }

  lemma AsideKeeps(s: State, s': State, list: set<string>)
    requires Base(s) && Closing(s, list) && Shuts(s, s') && ContentNext(s.content, s'.content)
    ensures VgrAside(s, s') ==> VgrClosing(s', list)
    ensures VrAside(s, s') ==> VrClosing(s')
    ensures ContentAside(s, s') ==> ContentClosing(s')
  {
    if ContentDoomed(s.content) { DoomedStays(s, s'); }
  }

  lemma ShutsOfWorld(s: State, a: WorldAction, list: set<string>)
    requires Base(s) && Closing(s, list) && Smooth(s, World(a))
    ensures Shuts(s, ApplyWorld(s, a)) && VgrAside(s, ApplyWorld(s, a)) && VrAside(s, ApplyWorld(s, a)) && ContentAside(s, ApplyWorld(s, a))
  {
    assert Version(s.vgr, Last(s.vgr)) == s.vgr.latest;
  }

  lemma AsideOfVrSetup(r: Rules, s: State, a: VrSetupAction, list: set<string>)
    requires Base(s) && Guard(r, s) && Closing(s, list)
    ensures VgrShuts(s.vgr, ApplyVrSetup(r, s, a).vgr) && VgrAside(s, ApplyVrSetup(r, s, a))
  {
    assert Version(s.vgr, Last(s.vgr)) == s.vgr.latest;
  }

  lemma ShutsOfVrSetup(r: Rules, s: State, a: VrSetupAction, list: set<string>)
    requires Base(s) && Guard(r, s) && Closing(s, list)
    ensures VrShuts(s.vr, ApplyVrSetup(r, s, a).vr) && ContentShuts(s.content, ApplyVrSetup(r, s, a).content)
    ensures ContentAside(s, ApplyVrSetup(r, s, a))
  {
    assert Version(s.vgr, Last(s.vgr)) == s.vgr.latest;
  }

  lemma ShutsOfVrTeardown(s: State, a: VrTeardownAction, list: set<string>)
    requires Base(s) && Closing(s, list) && Smooth(s, VrTeardown(a))
    ensures Shuts(s, ApplyVrTeardown(s, a)) && VgrAside(s, ApplyVrTeardown(s, a)) && ContentAside(s, ApplyVrTeardown(s, a))
  {
    assert Version(s.vgr, Last(s.vgr)) == s.vgr.latest;
  }

  lemma ShutsOfContentSetup(s: State, a: ContentSetupAction, list: set<string>)
    requires Base(s) && Closing(s, list) && Smooth(s, ContentSetup(a))
    ensures Shuts(s, ApplyContentSetup(s, a)) && VgrAside(s, ApplyContentSetup(s, a)) && VrAside(s, ApplyContentSetup(s, a))
  {
    assert Version(s.vgr, Last(s.vgr)) == s.vgr.latest;
  }

  lemma ShutsOfContentTeardown(s: State, a: ContentTeardownAction, list: set<string>)
    requires Base(s) && Closing(s, list) && Smooth(s, ContentTeardown(a))
    ensures Shuts(s, ApplyContentTeardown(s, a)) && VgrAside(s, ApplyContentTeardown(s, a)) && VrAside(s, ApplyContentTeardown(s, a))
  {
    assert Version(s.vgr, Last(s.vgr)) == s.vgr.latest;
  }

  lemma ShutsOfVgrSetup(r: Rules, s: State, a: VgrSetupAction, list: set<string>)
    requires Base(s) && Closing(s, list) && Smooth(s, VgrSetup(a))
    ensures Shuts(s, ApplyVgrSetup(r, s, a)) && VrAside(s, ApplyVgrSetup(r, s, a)) && ContentAside(s, ApplyVgrSetup(r, s, a))
  {
    assert Version(s.vgr, Last(s.vgr)) == s.vgr.latest;
  }

  lemma ShutsOfVgrTeardown(s: State, a: VgrTeardownAction, list: set<string>)
    requires Base(s) && Closing(s, list) && Smooth(s, VgrTeardown(a))
    ensures Shuts(s, ApplyVgrTeardown(s, a)) && VrAside(s, ApplyVgrTeardown(s, a)) && ContentAside(s, ApplyVgrTeardown(s, a))
  {
    assert Version(s.vgr, Last(s.vgr)) == s.vgr.latest;
  }

  lemma ClosingOfVrSetup(r: Rules, s: State, a: VrSetupAction, list: set<string>)
    requires Base(s) && Guard(r, s) && Closing(s, list) && Smooth(s, VrSetup(a)) && Shuts(s, ApplyVrSetup(r, s, a))
    ensures VrClosing(ApplyVrSetup(r, s, a))
  {
    assert Version(s.vgr, Last(s.vgr)) == s.vgr.latest;
  }

  lemma ClosingOfVrTeardown(s: State, a: VrTeardownAction, list: set<string>)
    requires Base(s) && Closing(s, list) && Smooth(s, VrTeardown(a)) && Shuts(s, ApplyVrTeardown(s, a))
    ensures VrClosing(ApplyVrTeardown(s, a))
  {
    assert Version(s.vgr, Last(s.vgr)) == s.vgr.latest;
  }

  lemma ClosingOfContentSetup(s: State, a: ContentSetupAction, list: set<string>)
    requires Base(s) && Closing(s, list) && Smooth(s, ContentSetup(a)) && Shuts(s, ApplyContentSetup(s, a))
    ensures ContentClosing(ApplyContentSetup(s, a))
  {
    assert Version(s.vgr, Last(s.vgr)) == s.vgr.latest;
  }

  lemma ClosingOfContentTeardown(s: State, a: ContentTeardownAction, list: set<string>)
    requires Base(s) && Closing(s, list) && Smooth(s, ContentTeardown(a)) && Shuts(s, ApplyContentTeardown(s, a))
    ensures ContentClosing(ApplyContentTeardown(s, a))
  {
    assert Version(s.vgr, Last(s.vgr)) == s.vgr.latest;
  }

  lemma ClosingOfVgrSetup(r: Rules, s: State, a: VgrSetupAction, list: set<string>)
    requires Base(s) && Closing(s, list) && Smooth(s, VgrSetup(a)) && Shuts(s, ApplyVgrSetup(r, s, a))
    ensures VgrClosing(ApplyVgrSetup(r, s, a), list)
  {
    assert Version(s.vgr, Last(s.vgr)) == s.vgr.latest;
  }

  lemma ClosingOfVgrTeardown(s: State, a: VgrTeardownAction, list: set<string>)
    requires Base(s) && Closing(s, list) && Smooth(s, VgrTeardown(a)) && Shuts(s, ApplyVgrTeardown(s, a))
    ensures VgrClosing(ApplyVgrTeardown(s, a), list)
  {
    assert Version(s.vgr, Last(s.vgr)) == s.vgr.latest;
  }

  lemma ClosingStep(r: Rules, s: State, a: Action, list: set<string>)
    requires Sound(r, s) && Closing(s, list) && Smooth(s, a)
    ensures Sound(r, Apply(r, s, a)) && Closing(Apply(r, s, a), list) && Shuts(s, Apply(r, s, a))
  {
    SoundStep(r, s, a);
    match a {
      case World(b) => MovesOfWorld(s, b); ShutsOfWorld(s, b, list);
      case VrSetup(b) => MovesOfVrSetup(r, s, b); AsideOfVrSetup(r, s, b, list); ShutsOfVrSetup(r, s, b, list); ClosingOfVrSetup(r, s, b, list);
      case VrTeardown(b) => MovesOfVrTeardown(s, b); ShutsOfVrTeardown(s, b, list); ClosingOfVrTeardown(s, b, list);
      case ContentSetup(b) => MovesOfContentSetup(s, b); ShutsOfContentSetup(s, b, list); ClosingOfContentSetup(s, b, list);
      case ContentTeardown(b) => MovesOfContentTeardown(s, b); ShutsOfContentTeardown(s, b, list); ClosingOfContentTeardown(s, b, list);
      case VgrSetup(b) => MovesOfVgrSetup(r, s, b); ShutsOfVgrSetup(r, s, b, list); ClosingOfVgrSetup(r, s, b, list);
      case VgrTeardown(b) => MovesOfVgrTeardown(s, b); ShutsOfVgrTeardown(s, b, list); ClosingOfVgrTeardown(s, b, list);
    }
    AsideKeeps(s, Apply(r, s, a), list);
    TailsStay(s, Apply(r, s, a), list);
  }
}
