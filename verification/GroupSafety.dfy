/**
 Safety of the group-replication protocol over every interleaving.

 Two inductive invariants: Base (the copies that reconciles hold are versions that existed) and Guard
 (the VR finalizer on the content covers every enabled group).
 */
module GroupSafety {
  import opened Wrappers
  import opened GroupModel

  ghost predicate IsVersion<T>(l: Log<T>, at: nat, x: T) {
    at <= Last(l) && Version(l, at) == Some(x)
  }

  /** An object that is created at most once: it may be missing at the start and at the end only. */
  ghost predicate OneLife<T>(l: Log<T>) {
    forall i :: 0 < i < Last(l) ==> Version(l, i).Some?
  }

  predicate SetsUp(pc: VrPc) { pc.VAddFin? || pc.VOwnVgr? || pc.VGuard? || pc.VUpdate? || pc.VEnable? }

  predicate TearsDown(pc: VrPc) { pc.VDisable? || pc.VUnguard? || pc.VDisown? || pc.VDropFin? }

  predicate ContentSetsUp(pc: ContentPc) { pc.COwnVgr? || pc.CAddFin? || pc.CCreate? || pc.CRecord? }

  predicate ContentTearsDown(pc: ContentPc) { pc.CDelete? || pc.CDisown? || pc.CDropFin? }

  predicate VgrSetsUp(pc: VgrPc) {
    pc.GAddFin? || pc.GSelect? || pc.GContent? || pc.GNameContent? || pc.GVr? || pc.GNameVr?
  }

  predicate VgrTearsDown(pc: VgrPc) { pc.GDelVr? || pc.GDelContent? || pc.GRelease? || pc.GDropFin? }

  // ----- Base: copies and log shapes -----

  ghost predicate VrCopies(s: State) {
    var t := s.vrTask;
    && (t.pc != VIdle ==> IsVersion(s.vr, t.vrAt, t.vr))
    && (t.pc != VIdle && t.vr.deleting ==> t.vrAt <= s.vr.cached)
    && (SetsUp(t.pc) ==> !t.vr.deleting && t.content.Some?)
    && (SetsUp(t.pc) && t.pc != VAddFin ==> t.vr.fin)
    && (TearsDown(t.pc) ==> t.vr.deleting && t.vr.fin)
    && (t.pc.VFetchContent? || SetsUp(t.pc) || TearsDown(t.pc) ==> t.vgr.contentNamed)
    && (t.pc.VDisable? ==> t.content.Some? && t.content.value.handle)
    && (t.pc.VEnable? ==> t.vrAt > 0 && Version(s.vr, t.vrAt - 1) == Some(t.vr))
    && (t.pc.VFetchContent? || t.pc.VAddFin? || t.pc.VOwnVgr? || TearsDown(t.pc) ==> IsVersion(s.vgr, t.vgrAt, t.vgr))
    && (SetsUp(t.pc) || TearsDown(t.pc) ==>
          t.contentAt <= Last(s.content) && Version(s.content, t.contentAt) == t.content)
  }

  ghost predicate ContentCopies(s: State) {
    var t := s.contentTask;
    && (t.pc != CIdle ==> IsVersion(s.content, t.contentAt, t.content))
    && (t.pc != CIdle && t.content.deleting ==> t.contentAt <= s.content.cached)
    && (ContentSetsUp(t.pc) ==> !t.content.deleting)
    && (ContentTearsDown(t.pc) ==> t.content.deleting && !t.content.vrFin && t.vgr.deleting)
    && (t.pc.COwnVgr? || ContentTearsDown(t.pc) ==> IsVersion(s.vgr, t.vgrAt, t.vgr))
    && (t.pc.CCreate? || t.pc.CRecord? ==> !t.content.handle)
    && (t.pc.CDelete? ==> t.content.handle)
  }

  ghost predicate VgrCopies(s: State) {
    var t := s.vgrTask;
    && (t.pc != GIdle ==> IsVersion(s.vgr, t.vgrAt, t.vgr))
    && (VgrSetsUp(t.pc) ==> !t.vgr.deleting)
    && (VgrSetsUp(t.pc) && t.pc != GAddFin ==> t.vgr.fin)
    && (VgrTearsDown(t.pc) ==> t.vgr.deleting && t.vgrAt <= s.vgr.cached)
    && (t.pc.GRelease? || t.pc.GDropFin? ==> !t.vgr.vrOwner && !t.vgr.contentOwner)
  }

  /** What a version says about deletion and the handle is never taken back, and no guard is added late. */
  predicate Grows(c: Content, c': Content) {
    && (c.deleting ==> c'.deleting) && (c.handle ==> c'.handle)
    && (c.deleting && !c.vrFin ==> !c'.vrFin)
  }

  ghost predicate ContentGrows(l: Log<Content>) {
    forall i, j :: 0 <= i <= j <= Last(l) && Version(l, i).Some? && Version(l, j).Some? ==>
      Grows(Version(l, i).value, Version(l, j).value)
  }

  ghost predicate Base(s: State) {
    && s.vgr.cached <= Last(s.vgr) && s.content.cached <= Last(s.content) && s.vr.cached <= Last(s.vr)
    && VrCopies(s) && ContentCopies(s) && VgrCopies(s)
    && Version(s.vgr, 0).Some? && Version(s.vr, 0).None? && Version(s.content, 0).None?
    && OneLife(s.vgr) && OneLife(s.content) && ContentGrows(s.content)
  }

  // ----- Guard: the VR finalizer on the content -----

  predicate Guarded(s: State) { s.content.latest.Some? && s.content.latest.value.vrFin }

  predicate Owned(s: State) { s.vgr.latest.Some? && s.vgr.latest.value.vrOwner }

  predicate VrHolds(s: State) { s.vr.latest.Some? && s.vr.latest.value.fin }

  /** A VR that the cache shows alive and finalized has kept its finalizer ever since. */
  ghost predicate VrKeepsFin(l: Log<Vr>) {
    forall i, j :: l.cached <= i <= j <= Last(l) && Version(l, i).Some? && Version(l, i).value.fin && !Version(l, i).value.deleting ==>
      Version(l, j).Some? && Version(l, j).value.fin
  }

  predicate Doomed(x: Option<Vr>) { x.None? || x.value.deleting }

  ghost predicate VrEndsOnce(l: Log<Vr>) {
    forall i, j :: 0 < i <= j <= Last(l) && Doomed(Version(l, i)) ==> Doomed(Version(l, j))
  }

  ghost predicate GuardNeverTaken(l: Log<Content>) {
    forall i :: 0 <= i <= Last(l) && Version(l, i).Some? && Version(l, i).value.vrFin ==> l.latest.Some? && l.latest.value.vrFin
  }

  /** From the VR controller's last write on, every version agrees about the guard, and about the owner. */
  ghost predicate GuardAgrees(l: Log<Content>, wrote: nat) {
    wrote <= Last(l) && forall i :: wrote <= i <= Last(l) && Version(l, i).Some? ==>
      (Version(l, i).value.vrFin <==> l.latest.Some? && l.latest.value.vrFin)
  }

  ghost predicate OwnerAgrees(l: Log<Vgr>, wrote: nat) {
    wrote <= Last(l) && forall i :: wrote <= i <= Last(l) && Version(l, i).Some? && l.latest.Some? ==>
      Version(l, i).value.vrOwner == l.latest.value.vrOwner
  }

  /** A guard on the content or an owner annotation on the VGR is backed by a VR that holds its finalizer. */
  predicate NoOrphan(s: State) { Guarded(s) || Owned(s) ==> VrHolds(s) }

  ghost predicate HandleSeen(l: Log<Content>) { l.cached >= 1 && (Cached(l).Some? ==> Cached(l).value.handle) }

  ghost predicate Guard(r: Rules, s: State) {
    var t := s.vrTask;
    && VrKeepsFin(s.vr) && GuardAgrees(s.content, s.memo.vrWroteContent) && OwnerAgrees(s.vgr, s.memo.vrWroteVgr)
    && (t.pc != VIdle && !t.vr.deleting && t.vr.fin ==> VrHolds(s))
    && (Last(s.vr) > 0 ==> HandleSeen(s.content))
    && (NeedsHandle(s.vgrTask) ==> HandleSeen(s.content))
    && (GuardRule(r) && (t.pc.VUnguard? || t.pc.VDisown? || t.pc.VDropFin?) ==> !s.back.enabled)
    && (t.pc.VUpdate? || t.pc.VEnable? ==> t.content.Some? && t.content.value.vrFin)
    && (!r.vrRecreated ==> VrEndsOnce(s.vr))
    && (!r.vrRecreated && !GuardNeverTaken(s.content) ==> s.vr.cached > 0 && Doomed(Cached(s.vr)))
    && (!r.vrRecreated && t.pc != VIdle && !t.vr.deleting ==> GuardNeverTaken(s.content))
    && (r.ownWritesVisible && (SetsUp(t.pc) || t.pc.VDisable? || t.pc.VUnguard?) ==> t.contentAt >= s.memo.vrWroteContent)
    && (t.pc.VDisable? || t.pc.VUnguard? ==> t.contentAt >= 1)
    && (r.ownWritesVisible && (t.pc.VFetchContent? || t.pc.VAddFin? || t.pc.VOwnVgr? || t.pc.VDisable? || t.pc.VUnguard? || t.pc.VDisown?) ==>
          t.vgrAt >= s.memo.vrWroteVgr)
    && (GuardRule(r) && SetsUp(t.pc) && t.content.Some? && t.content.value.vrFin ==> Guarded(s))
    && (GuardRule(r) && s.back.enabled ==> Guarded(s))
    && (r.ownWritesVisible ==> NoOrphan(s))
    && (r.ownWritesVisible && (t.pc.VDisown? || t.pc.VDropFin?) ==> !Guarded(s))
    && (r.ownWritesVisible && t.pc.VDropFin? ==> !Owned(s))
  }

  /** The condition under which the guard is sound. */
  predicate GuardRule(r: Rules) { r.ownWritesVisible || !r.vrRecreated }

  // ----- How one step changes a log -----

  ghost predicate Extends<T>(l: Log<T>, l': Log<T>) {
    && l.cached <= l'.cached && Last(l) <= Last(l') && (l.cached <= Last(l) ==> l'.cached <= Last(l'))
    && (forall i :: 0 <= i <= Last(l) ==> Version(l', i) == Version(l, i))
  }

  ghost predicate Moves<T>(l: Log<T>, l': Log<T>) {
    l' == l || l' == Sync(l) || l' == Append(l, l'.latest)
  }

  lemma MovesExtends<T>(l: Log<T>, l': Log<T>)
    requires Moves(l, l')
    ensures Extends(l, l')
  {
  }

  ghost predicate ContentNext(l: Log<Content>, l': Log<Content>) {
    && Moves(l, l')
    && (l'.past != l.past ==>
          if l.latest.Some? then l'.latest.Some? ==> Grows(l.latest.value, l'.latest.value)
          else Last(l) == 0 && l'.latest.Some?)
  }

  lemma ContentNextGrows(l: Log<Content>, l': Log<Content>)
    requires l.cached <= Last(l) && OneLife(l) && ContentGrows(l) && Version(l, 0).None? && ContentNext(l, l')
    ensures OneLife(l') && ContentGrows(l') && Version(l', 0).None?
  {
    MovesExtends(l, l');
    if l'.past != l.past {
      assert Version(l', Last(l)) == l.latest;
      forall i, j | 0 <= i <= j <= Last(l') && Version(l', i).Some? && Version(l', j).Some?
        ensures Grows(Version(l', i).value, Version(l', j).value)
      {
        if i <= Last(l) < j && l.latest.Some? {
          assert Grows(Version(l, i).value, Version(l, Last(l)).value);
        }
      }
    }
  }

  ghost predicate VgrNext(l: Log<Vgr>, l': Log<Vgr>) { Moves(l, l') && (l'.past != l.past ==> l.latest.Some?) }

  ghost predicate LogsMove(s: State, s': State) {
    VgrNext(s.vgr, s'.vgr) && ContentNext(s.content, s'.content) && Moves(s.vr, s'.vr)
  }

  lemma MovesOfWorld(s: State, a: WorldAction)
    requires Base(s)
    ensures var s' := ApplyWorld(s, a);
      LogsMove(s, s') && s'.vrTask == s.vrTask && s'.contentTask == s.contentTask && s'.vgrTask == s.vgrTask
  {
  }

  lemma MovesOfVrSetup(r: Rules, s: State, a: VrSetupAction)
    requires Base(s)
    ensures var s' := ApplyVrSetup(r, s, a);
      LogsMove(s, s') && s'.contentTask == s.contentTask && s'.vgrTask == s.vgrTask
  {
  }

  lemma MovesOfVrTeardown(s: State, a: VrTeardownAction)
    requires Base(s)
    ensures var s' := ApplyVrTeardown(s, a);
      LogsMove(s, s') && s'.contentTask == s.contentTask && s'.vgrTask == s.vgrTask
  {
  }

  lemma MovesOfContentSetup(s: State, a: ContentSetupAction)
    requires Base(s)
    ensures var s' := ApplyContentSetup(s, a);
      LogsMove(s, s') && s'.vrTask == s.vrTask && s'.vgrTask == s.vgrTask
  {
  }

  lemma MovesOfContentTeardown(s: State, a: ContentTeardownAction)
    requires Base(s)
    ensures var s' := ApplyContentTeardown(s, a);
      LogsMove(s, s') && s'.vrTask == s.vrTask && s'.vgrTask == s.vgrTask
  {
  }

  lemma MovesOfVgrSetup(r: Rules, s: State, a: VgrSetupAction)
    requires Base(s)
    ensures var s' := ApplyVgrSetup(r, s, a);
      LogsMove(s, s') && s'.vrTask == s.vrTask && s'.contentTask == s.contentTask
  {
  }

  lemma MovesOfVgrTeardown(s: State, a: VgrTeardownAction)
    requires Base(s)
    ensures var s' := ApplyVgrTeardown(s, a);
      LogsMove(s, s') && s'.vrTask == s.vrTask && s'.contentTask == s.contentTask
  {
  }

  lemma CopiesOfVrSetup(r: Rules, s: State, a: VrSetupAction)
    requires Base(s)
    ensures VrCopies(ApplyVrSetup(r, s, a))
  {
  }

  lemma CopiesOfVrTeardown(s: State, a: VrTeardownAction)
    requires Base(s)
    ensures VrCopies(ApplyVrTeardown(s, a))
  {
  }

  lemma CopiesOfContentSetup(s: State, a: ContentSetupAction)
    requires Base(s)
    ensures ContentCopies(ApplyContentSetup(s, a))
  {
  }

  lemma CopiesOfContentTeardown(s: State, a: ContentTeardownAction)
    requires Base(s)
    ensures ContentCopies(ApplyContentTeardown(s, a))
  {
  }

  lemma CopiesOfVgrSetup(r: Rules, s: State, a: VgrSetupAction)
    requires Base(s)
    ensures VgrCopies(ApplyVgrSetup(r, s, a))
  {
  }

  lemma CopiesOfVgrTeardown(s: State, a: VgrTeardownAction)
    requires Base(s)
    ensures VgrCopies(ApplyVgrTeardown(s, a))
  {
  }

  /** Copies stay versions of logs that only grow. */
  lemma CopiesStay(s: State, s': State)
    requires Extends(s.vgr, s'.vgr) && Extends(s.content, s'.content) && Extends(s.vr, s'.vr)
    ensures VrCopies(s) && s'.vrTask == s.vrTask ==> VrCopies(s')
    ensures ContentCopies(s) && s'.contentTask == s.contentTask ==> ContentCopies(s')
    ensures VgrCopies(s) && s'.vgrTask == s.vgrTask ==> VgrCopies(s')
  {
  }

  lemma BaseMoves(s: State, s': State)
    requires Base(s) && LogsMove(s, s')
    requires s'.vrTask == s.vrTask || VrCopies(s')
    requires s'.contentTask == s.contentTask || ContentCopies(s')
    requires s'.vgrTask == s.vgrTask || VgrCopies(s')
    ensures Base(s')
  {
    MovesExtends(s.vgr, s'.vgr);
    MovesExtends(s.content, s'.content);
    MovesExtends(s.vr, s'.vr);
    CopiesStay(s, s');
    ContentNextGrows(s.content, s'.content);
  }

  lemma BaseStep(r: Rules, s: State, a: Action)
    requires Base(s)
    ensures Base(Apply(r, s, a))
  {
    match a
    case World(b) => MovesOfWorld(s, b); BaseMoves(s, ApplyWorld(s, b));
    case VrSetup(b) => MovesOfVrSetup(r, s, b); CopiesOfVrSetup(r, s, b); BaseMoves(s, ApplyVrSetup(r, s, b));
    case VrTeardown(b) => MovesOfVrTeardown(s, b); CopiesOfVrTeardown(s, b); BaseMoves(s, ApplyVrTeardown(s, b));
    case ContentSetup(b) => MovesOfContentSetup(s, b); CopiesOfContentSetup(s, b); BaseMoves(s, ApplyContentSetup(s, b));
    case ContentTeardown(b) => MovesOfContentTeardown(s, b); CopiesOfContentTeardown(s, b); BaseMoves(s, ApplyContentTeardown(s, b));
    case VgrSetup(b) => MovesOfVgrSetup(r, s, b); CopiesOfVgrSetup(r, s, b); BaseMoves(s, ApplyVgrSetup(r, s, b));
    case VgrTeardown(b) => MovesOfVgrTeardown(s, b); CopiesOfVgrTeardown(s, b); BaseMoves(s, ApplyVgrTeardown(s, b));
  }

  // ----- Guard is kept: first by everybody but the VR controller -----

  ghost predicate KeepsGuard(l: Log<Content>, l': Log<Content>) {
    && Moves(l, l')
    && (l'.past != l.past ==>
          match l.latest
          case None => l'.latest.Some? && !l'.latest.value.vrFin && Last(l) == 0
          case Some(c) => if l'.latest.Some? then l'.latest.value.vrFin == c.vrFin else !c.vrFin)
  }

  ghost predicate KeepsOwner(l: Log<Vgr>, l': Log<Vgr>) {
    && Moves(l, l')
    && (l'.past != l.past ==> l.latest.Some? && (l'.latest.Some? ==> l'.latest.value.vrOwner == l.latest.value.vrOwner))
  }

  ghost predicate KeepsVr(r: Rules, l: Log<Vr>, l': Log<Vr>) {
    && Moves(l, l')
    && (l'.past != l.past ==>
          match l.latest
          case None => l'.latest == Some(Vr(false, false)) && (Last(l) == 0 || r.vrRecreated)
          case Some(v) => if v.fin then l'.latest.Some? && l'.latest.value.fin && (v.deleting ==> l'.latest.value.deleting)
                          else l'.latest.Some? && v.deleting ==> l'.latest.value.deleting)
  }

  /** A step of another controller, as the VR controller sees it. */
  ghost predicate Elsewhere(r: Rules, s: State, s': State) {
    && s'.vrTask == s.vrTask && s'.back.enabled == s.back.enabled
    && s'.memo.vrWroteVgr == s.memo.vrWroteVgr && s'.memo.vrWroteContent == s.memo.vrWroteContent
    && KeepsGuard(s.content, s'.content) && KeepsOwner(s.vgr, s'.vgr) && KeepsVr(r, s.vr, s'.vr)
    && (s'.vr.past != s.vr.past && s.vr.latest.None? ==> s.vgrTask.pc.GVr?)
  }

  ghost predicate NeedsHandle(t: VgrTask) { (t.pc.GNameContent? && t.sawHandle) || t.pc.GVr? }

  lemma ElsewhereOfWorld(r: Rules, s: State, a: WorldAction)
    requires Base(s)
    ensures Elsewhere(r, s, ApplyWorld(s, a))
  {
  }

  lemma ElsewhereOfContentSetup(r: Rules, s: State, a: ContentSetupAction)
    requires Base(s)
    ensures Elsewhere(r, s, ApplyContentSetup(s, a))
  {
  }

  lemma ElsewhereOfContentTeardown(r: Rules, s: State, a: ContentTeardownAction)
    requires Base(s)
    ensures Elsewhere(r, s, ApplyContentTeardown(s, a))
  {
  }

  lemma ElsewhereOfVgrSetup(r: Rules, s: State, a: VgrSetupAction)
    requires Base(s)
    ensures Elsewhere(r, s, ApplyVgrSetup(r, s, a))
  {
  }

  lemma ElsewhereOfVgrTeardown(r: Rules, s: State, a: VgrTeardownAction)
    requires Base(s)
    ensures Elsewhere(r, s, ApplyVgrTeardown(s, a))
  {
  }

  lemma KeepsGuardFacts(s: State, s': State)
    requires KeepsGuard(s.content, s'.content)
    ensures Guarded(s') == Guarded(s)
    ensures GuardNeverTaken(s.content) ==> GuardNeverTaken(s'.content)
    ensures GuardNeverTaken(s'.content) ==> GuardNeverTaken(s.content)
  {
    MovesExtends(s.content, s'.content);
    assert Version(s.content, Last(s.content)) == s.content.latest;
  }

  lemma KeepsAgreement(s: State, s': State)
    requires KeepsGuard(s.content, s'.content) && KeepsOwner(s.vgr, s'.vgr)
    requires s'.memo.vrWroteVgr == s.memo.vrWroteVgr && s'.memo.vrWroteContent == s.memo.vrWroteContent
    requires GuardAgrees(s.content, s.memo.vrWroteContent) && OwnerAgrees(s.vgr, s.memo.vrWroteVgr)
    ensures GuardAgrees(s'.content, s'.memo.vrWroteContent) && OwnerAgrees(s'.vgr, s'.memo.vrWroteVgr)
  {
    KeepsGuardFacts(s, s');
    MovesExtends(s.content, s'.content);
    MovesExtends(s.vgr, s'.vgr);
    assert Version(s.vgr, Last(s.vgr)) == s.vgr.latest;
  }

  lemma KeepsVrFacts(r: Rules, s: State, s': State)
    requires KeepsVr(r, s.vr, s'.vr) && s.vr.cached <= Last(s.vr)
    ensures VrKeepsFin(s.vr) ==> VrKeepsFin(s'.vr)
    ensures VrHolds(s) ==> VrHolds(s')
    ensures !r.vrRecreated && VrEndsOnce(s.vr) ==> VrEndsOnce(s'.vr)
  {
    MovesExtends(s.vr, s'.vr);
    assert Version(s.vr, Last(s.vr)) == s.vr.latest;
  }

  lemma VrEndsMore(s: State, s': State)
    requires VrEndsOnce(s.vr) && Moves(s.vr, s'.vr)
    requires s'.vr.past != s.vr.past && s.vr.latest.Some? && s.vr.latest.value.deleting ==> Doomed(s'.vr.latest)
    requires s'.vr.past != s.vr.past && s.vr.latest.None? ==> Last(s.vr) == 0
    ensures VrEndsOnce(s'.vr)
  {
    MovesExtends(s.vr, s'.vr);
    assert Version(s.vr, Last(s.vr)) == s.vr.latest;
  }

  lemma HandleStaysSeen(s: State, s': State)
    requires Base(s) && Base(s') && HandleSeen(s.content) && ContentNext(s.content, s'.content)
    ensures HandleSeen(s'.content)
  {
    MovesExtends(s.content, s'.content);
    if Cached(s'.content).Some? {
      assert Cached(s'.content) == Version(s'.content, s'.content.cached);
      assert Version(s'.content, s.content.cached) == Cached(s.content);
    }
  }

  lemma DoomStays(s: State, s': State)
    requires s.vr.cached <= Last(s.vr) && Moves(s.vr, s'.vr) && VrEndsOnce(s.vr) && s.vr.cached > 0 && Doomed(Cached(s.vr))
    ensures s'.vr.cached > 0 && Doomed(Cached(s'.vr))
  {
    MovesExtends(s.vr, s'.vr);
  }

  lemma GuardElsewhere(r: Rules, s: State, s': State)
    requires Base(s) && Base(s') && Guard(r, s) && Elsewhere(r, s, s') && ContentNext(s.content, s'.content)
    requires NeedsHandle(s'.vgrTask) ==> NeedsHandle(s.vgrTask) || HandleSeen(s'.content)
    ensures Guard(r, s')
  {
    KeepsGuardFacts(s, s');
    KeepsAgreement(s, s');
    KeepsVrFacts(r, s, s');
    if HandleSeen(s.content) { HandleStaysSeen(s, s'); }
    if !r.vrRecreated && !GuardNeverTaken(s.content) { DoomStays(s, s'); }
  }

  lemma GuardOfBegin(r: Rules, s: State)
    requires Base(s) && Guard(r, s)
    ensures Guard(r, BeginVr(s))
  {
    assert Version(s.vr, Last(s.vr)) == s.vr.latest;
  }
  lemma GuardOfFetchVgr(r: Rules, s: State)
    requires Base(s) && Guard(r, s)
    ensures Guard(r, FetchVgrVr(r, s))
  {
  }
  lemma GuardOfFetchContent(r: Rules, s: State)
    requires Base(s) && Guard(r, s)
    ensures Guard(r, FetchContentVr(r, s))
  {
  }
  lemma GuardOfAddFin(r: Rules, s: State, ok: bool)
    requires Base(s) && Guard(r, s)
    ensures Guard(r, AddFinVr(s, ok))
  {
    KeepsVrFacts(r, s, AddFinVr(s, ok));
  }
  lemma GuardOfOwnVgr(r: Rules, s: State, ok: bool)
    requires Base(s) && Guard(r, s)
    ensures Guard(r, OwnVgrVr(s, ok))
  {
  }
  lemma GuardOfGuard(r: Rules, s: State, ok: bool)
    requires Base(s) && Guard(r, s)
    ensures Guard(r, GuardVr(s, ok))
  {
  }
  lemma GuardOfUpdate(r: Rules, s: State, ok: bool)
    requires Base(s) && Guard(r, s)
    ensures Guard(r, UpdateVr(s, ok))
  {
    KeepsVrFacts(r, s, UpdateVr(s, ok));
  }
  lemma GuardOfEnable(r: Rules, s: State, call: bool, took: bool)
    requires Base(s) && Guard(r, s)
    ensures Guard(r, EnableVr(s, call, took))
  {
  }
  lemma GuardOfDisable(r: Rules, s: State, call: bool, took: bool)
    requires Base(s) && Guard(r, s)
    ensures Guard(r, DisableVr(s, call, took))
  {
  }
  lemma GuardOfUnguard(r: Rules, s: State, ok: bool)
    requires Base(s) && Guard(r, s)
    ensures Guard(r, UnguardVr(s, ok))
  {
  }
  lemma GuardOfDisown(r: Rules, s: State, ok: bool)
    requires Base(s) && Guard(r, s)
    ensures Guard(r, DisownVr(s, ok))
  {
  }
  lemma GuardOfDropFin(r: Rules, s: State, ok: bool)
    requires Base(s) && Guard(r, s)
    ensures Guard(r, DropFinVr(s, ok))
  {
    assert Version(s.vr, Last(s.vr)) == s.vr.latest;
    if !r.vrRecreated { VrEndsMore(s, DropFinVr(s, ok)); }
  }

  lemma HandleSeenByVgr(r: Rules, s: State, a: VgrSetupAction)
    requires Base(s)
    ensures var s' := ApplyVgrSetup(r, s, a);
      NeedsHandle(s'.vgrTask) ==> NeedsHandle(s.vgrTask) || HandleSeen(s'.content)
  {
  }

  lemma NoHandleNeeded(s: State, a: VgrTeardownAction)
    ensures NeedsHandle(ApplyVgrTeardown(s, a).vgrTask) ==> NeedsHandle(s.vgrTask)
  {
  }

  lemma GuardOfVrSetup(r: Rules, s: State, a: VrSetupAction)
    requires Base(s) && Guard(r, s)
    ensures Guard(r, ApplyVrSetup(r, s, a))
  {
    match a
    case VrAbort =>
    case VrBegin => GuardOfBegin(r, s);
    case VrFetchVgr => GuardOfFetchVgr(r, s);
    case VrFetchContent => GuardOfFetchContent(r, s);
    case VrAddFin(ok) => GuardOfAddFin(r, s, ok);
    case VrOwnVgr(ok) => GuardOfOwnVgr(r, s, ok);
    case VrGuard(ok) => GuardOfGuard(r, s, ok);
    case VrUpdate(ok) => GuardOfUpdate(r, s, ok);
    case VrEnable(call, took) => GuardOfEnable(r, s, call, took);
  }

  lemma GuardOfVrTeardown(r: Rules, s: State, a: VrTeardownAction)
    requires Base(s) && Guard(r, s)
    ensures Guard(r, ApplyVrTeardown(s, a))
  {
    match a
    case VrDisable(ok, took) => GuardOfDisable(r, s, ok, took);
    case VrUnguard(ok) => GuardOfUnguard(r, s, ok);
    case VrDisown(ok) => GuardOfDisown(r, s, ok);
    case VrDropFin(ok) => GuardOfDropFin(r, s, ok);
  }

  lemma GuardOfWorld(r: Rules, s: State, a: WorldAction)
    requires Base(s) && Base(ApplyWorld(s, a)) && Guard(r, s)
    ensures Guard(r, ApplyWorld(s, a))
  {
    MovesOfWorld(s, a);
    ElsewhereOfWorld(r, s, a);
    GuardElsewhere(r, s, ApplyWorld(s, a));
  }

  lemma GuardOfContentSetup(r: Rules, s: State, a: ContentSetupAction)
    requires Base(s) && Base(ApplyContentSetup(s, a)) && Guard(r, s)
    ensures Guard(r, ApplyContentSetup(s, a))
  {
    MovesOfContentSetup(s, a);
    ElsewhereOfContentSetup(r, s, a);
    GuardElsewhere(r, s, ApplyContentSetup(s, a));
  }

  lemma GuardOfContentTeardown(r: Rules, s: State, a: ContentTeardownAction)
    requires Base(s) && Base(ApplyContentTeardown(s, a)) && Guard(r, s)
    ensures Guard(r, ApplyContentTeardown(s, a))
  {
    MovesOfContentTeardown(s, a);
    ElsewhereOfContentTeardown(r, s, a);
    GuardElsewhere(r, s, ApplyContentTeardown(s, a));
  }

  lemma GuardOfVgrSetup(r: Rules, s: State, a: VgrSetupAction)
    requires Base(s) && Base(ApplyVgrSetup(r, s, a)) && Guard(r, s)
    ensures Guard(r, ApplyVgrSetup(r, s, a))
  {
    MovesOfVgrSetup(r, s, a);
    ElsewhereOfVgrSetup(r, s, a);
    HandleSeenByVgr(r, s, a);
    GuardElsewhere(r, s, ApplyVgrSetup(r, s, a));
  }

  lemma GuardOfVgrTeardown(r: Rules, s: State, a: VgrTeardownAction)
    requires Base(s) && Base(ApplyVgrTeardown(s, a)) && Guard(r, s)
    ensures Guard(r, ApplyVgrTeardown(s, a))
  {
    MovesOfVgrTeardown(s, a);
    ElsewhereOfVgrTeardown(r, s, a);
    NoHandleNeeded(s, a);
    GuardElsewhere(r, s, ApplyVgrTeardown(s, a));
  }

  lemma GuardStep(r: Rules, s: State, a: Action)
    requires Base(s) && Guard(r, s)
    ensures Guard(r, Apply(r, s, a))
  {
    BaseStep(r, s, a);
    match a
    case World(b) => GuardOfWorld(r, s, b);
    case VrSetup(b) => GuardOfVrSetup(r, s, b);
    case VrTeardown(b) => GuardOfVrTeardown(r, s, b);
    case ContentSetup(b) => GuardOfContentSetup(r, s, b);
    case ContentTeardown(b) => GuardOfContentTeardown(r, s, b);
    case VgrSetup(b) => GuardOfVgrSetup(r, s, b);
    case VgrTeardown(b) => GuardOfVgrTeardown(r, s, b);
  }
}
