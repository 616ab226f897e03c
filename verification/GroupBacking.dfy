/**
 A volume group whose handle was recorded stays pinned: until it is deleted on the backend, the
 VGR exists, holds its finalizer and carries the content's owner annotation.
 */
module GroupBacking {
  import opened Wrappers
  import opened GroupModel
  import opened GroupSafety

  predicate VgrHolds(s: State) { s.vgr.latest.Some? && s.vgr.latest.value.fin }

  predicate ContentOwns(s: State) { s.vgr.latest.Some? && s.vgr.latest.value.contentOwner }

  /** Like VrKeepsFin, for the VGR. */
  ghost predicate VgrKeepsFin(l: Log<Vgr>) {
    forall i, j :: l.cached <= i <= j <= Last(l) && Version(l, i).Some?
                   && Version(l, i).value.fin && !Version(l, i).value.deleting ==>
      Version(l, j).Some? && Version(l, j).value.fin
  }

  predicate Owns(x: Option<Vgr>) { x.Some? && x.value.contentOwner }

  ghost predicate OwnerKept(l: Log<Vgr>) {
    forall i, j :: 0 <= i <= j <= Last(l) && Owns(Version(l, i)) ==> Owns(Version(l, j))
  }

  ghost predicate NeverOwned(l: Log<Vgr>) {
    forall i :: 0 <= i <= Last(l) ==> !Owns(Version(l, i))
  }

  /** The cache shows the content on its way out; it will never show it alive again. */
  predicate ContentDoomed(l: Log<Content>) { l.cached > 0 && (Cached(l).None? || Cached(l).value.deleting) }

  ghost predicate AllHandled(l: Log<Content>, onlyDeleting: bool) {
    forall i :: 0 <= i <= Last(l) && Version(l, i).Some? && (onlyDeleting ==> Version(l, i).value.deleting) ==>
      Version(l, i).value.handle
  }

  predicate Alive(t: VgrTask) { t.pc != GIdle && !t.vgr.deleting && t.vgr.fin }

  ghost predicate Backing(s: State) {
    var t := s.contentTask;
    var m := s.memo;
    && VgrKeepsFin(s.vgr)
    && (Alive(s.vgrTask) ==> VgrHolds(s))
    && (Last(s.content) == 0 ==> NeverOwned(s.vgr))
    && (m.dynamic ==> s.vgr.latest.None? || VgrHolds(s))
    && (m.dynamic && !m.disowned ==> OwnerKept(s.vgr))
    && (m.disowned ==> ContentDoomed(s.content))
    && (t.pc != CIdle && !t.content.deleting ==> !m.disowned)
    && (m.dynamic && (t.pc.CAddFin? || t.pc.CCreate? || t.pc.CRecord?) ==> ContentOwns(s))
    && (!m.dynamic ==> AllHandled(s.content, false))
    && (m.recorded ==> m.dynamic && Last(s.content) > 0 && AllHandled(s.content, true) && (s.content.latest.Some? ==> s.content.latest.value.handle))
    && (m.recorded && (t.pc.CDisown? || t.pc.CDropFin?) ==> !s.back.group)
    && (m.recorded && s.back.group ==> ContentOwns(s))
  }

  lemma BackingInit(named: bool, held: set<string>)
    ensures Backing(Init(named, held))
  {
  }

  // ----- Steps that neither touch the content's annotation nor take the VGR's finalizer -----

  ghost predicate VgrSteady(l: Log<Vgr>, l': Log<Vgr>) {
    && Moves(l, l')
    && (l'.past != l.past ==>
          l.latest.Some?
          && if l'.latest.Some? then l'.latest.value.contentOwner == l.latest.value.contentOwner
                                     && (l.latest.value.fin ==> l'.latest.value.fin)
             else !l.latest.value.fin)
  }

  ghost predicate HandleSteady(l: Log<Content>, l': Log<Content>) {
    && ContentNext(l, l')
    && (l'.past != l.past && l.latest.Some? && l'.latest.Some? ==> l'.latest.value.handle == l.latest.value.handle)
  }

  ghost predicate Apart(s: State, s': State) {
    && VgrSteady(s.vgr, s'.vgr) && HandleSteady(s.content, s'.content)
    && s'.contentTask == s.contentTask && s'.back.group == s.back.group
    && s'.memo.recorded == s.memo.recorded && s'.memo.disowned == s.memo.disowned
    && (s'.memo.dynamic == s.memo.dynamic || (s'.memo.dynamic && Last(s.content) == 0 && VgrHolds(s)))
    && (Last(s.content) == 0 && Last(s'.content) != 0 && s.content.latest.None? && !s'.memo.dynamic ==> s'.content.latest.value.handle)
  }

  lemma ApartOfWorld(s: State, a: WorldAction)
    requires Base(s) && Backing(s)
    ensures Apart(s, ApplyWorld(s, a))
  {
  }

  lemma ApartOfVrSetup(r: Rules, s: State, a: VrSetupAction)
    requires Base(s)
    ensures Apart(s, ApplyVrSetup(r, s, a))
  {
  }

  lemma ApartOfVrTeardown(s: State, a: VrTeardownAction)
    requires Base(s)
    ensures Apart(s, ApplyVrTeardown(s, a))
  {
  }

  lemma ApartOfVgrSetup(r: Rules, s: State, a: VgrSetupAction)
    requires Base(s) && (Alive(s.vgrTask) ==> VgrHolds(s))
    ensures Apart(s, ApplyVgrSetup(r, s, a))
  {
  }

  lemma KeepsFinMore(l: Log<Vgr>, l': Log<Vgr>)
    requires Moves(l, l') && VgrKeepsFin(l)
    requires l'.past != l.past && l.latest.Some? && l.latest.value.fin ==> l'.latest.Some? && l'.latest.value.fin
    requires l'.past != l.past ==> l.latest.Some?
    ensures VgrKeepsFin(l')
  {
    MovesExtends(l, l');
    assert Version(l, Last(l)) == l.latest;
  }

  lemma NeverOwnedMore(l: Log<Vgr>, l': Log<Vgr>)
    requires Moves(l, l') && NeverOwned(l) && !Owns(l'.latest)
    ensures NeverOwned(l')
  {
    MovesExtends(l, l');
  }

  lemma OwnerKeptMore(l: Log<Vgr>, l': Log<Vgr>)
    requires Moves(l, l') && OwnerKept(l) && (Owns(l.latest) ==> Owns(l'.latest))
    ensures OwnerKept(l')
  {
    MovesExtends(l, l');
    assert Version(l, Last(l)) == l.latest;
  }

  lemma SteadyFacts(l: Log<Vgr>, l': Log<Vgr>)
    requires VgrSteady(l, l')
    ensures VgrKeepsFin(l) ==> VgrKeepsFin(l')
    ensures NeverOwned(l) ==> NeverOwned(l')
    ensures OwnerKept(l) && (l.latest.None? || l.latest.value.fin) ==> OwnerKept(l')
  {
    assert Version(l, Last(l)) == l.latest;
    if VgrKeepsFin(l) { KeepsFinMore(l, l'); }
    if NeverOwned(l) { NeverOwnedMore(l, l'); }
    if OwnerKept(l) && (l.latest.None? || l.latest.value.fin) { OwnerKeptMore(l, l'); }
  }

  lemma HandledFacts(l: Log<Content>, l': Log<Content>)
    requires HandleSteady(l, l')
    ensures AllHandled(l, true) && (l.latest.Some? ==> l.latest.value.handle) && (l.latest.Some? || Last(l) > 0) ==>
              AllHandled(l', true)
    ensures AllHandled(l, false) && (l'.past != l.past && l.latest.None? ==> l'.latest.Some? && l'.latest.value.handle) ==>
              AllHandled(l', false)
  {
    MovesExtends(l, l');
    assert Version(l, Last(l)) == l.latest;
  }

  lemma DoomedStays(s: State, s': State)
    requires Base(s) && ContentDoomed(s.content) && ContentNext(s.content, s'.content)
    ensures ContentDoomed(s'.content)
  {
    MovesExtends(s.content, s'.content);
    if s'.content.cached != s.content.cached && Cached(s'.content).Some? {
      assert Version(s.content, s.content.cached).Some?;
      assert Grows(Version(s.content, s.content.cached).value, Version(s.content, s'.content.cached).value);
    }
  }

  lemma BackingApart(s: State, s': State)
    requires Base(s) && Base(s') && Backing(s) && Apart(s, s')
    requires Alive(s'.vgrTask) ==> Alive(s.vgrTask) || VgrHolds(s')
    ensures Backing(s')
  {
    SteadyFacts(s.vgr, s'.vgr);
    HandledFacts(s.content, s'.content);
    if s.memo.disowned { DoomedStays(s, s'); }
    if !s.memo.dynamic && s'.memo.dynamic { OwnerKeptIfNeverOwned(s'.vgr); }
  }

  lemma OwnerKeptIfNeverOwned(l: Log<Vgr>)
    requires NeverOwned(l)
    ensures OwnerKept(l)
  {
  }

  lemma AliveInSetup(r: Rules, s: State, a: VgrSetupAction)
    requires Base(s) && Backing(s)
    ensures var s' := ApplyVgrSetup(r, s, a); Alive(s'.vgrTask) ==> VgrHolds(s')
  {
    assert Version(s.vgr, Last(s.vgr)) == s.vgr.latest;
  }

  // ----- The VGR controller deletes -----

  lemma ApartOfDelVr(s: State, ok: bool)
    requires Base(s) && Backing(s)
    ensures Apart(s, DelVr(s, ok)) && (Alive(DelVr(s, ok).vgrTask) ==> Alive(s.vgrTask))
  {
  }

  lemma ApartOfDelContent(s: State, ok: bool)
    requires Base(s) && Backing(s)
    ensures Apart(s, DelContent(s, ok)) && (Alive(DelContent(s, ok).vgrTask) ==> Alive(s.vgrTask))
  {
  }

  lemma ApartOfRelease(s: State, failed: set<string>)
    requires Base(s) && Backing(s)
    ensures Apart(s, ReleasePvcs(s, failed)) && (Alive(ReleasePvcs(s, failed).vgrTask) ==> Alive(s.vgrTask))
  {
  }

  lemma BackingOfDropFin(s: State, ok: bool)
    requires Base(s) && Backing(s)
    ensures Backing(DropFinVgr(s, ok))
  {
    var s' := DropFinVgr(s, ok);
    if s'.vgr != s.vgr {
      assert Version(s.vgr, Last(s.vgr)) == s.vgr.latest;
      if NeverOwned(s.vgr) { NeverOwnedMore(s.vgr, s'.vgr); }
      if OwnerKept(s.vgr) { OwnerKeptMore(s.vgr, s'.vgr); }
    }
  }

  // ----- The content controller -----

  lemma BackingOfBegin(s: State)
    requires Base(s) && Backing(s)
    ensures Backing(BeginContent(s))
  {
    assert Version(s.content, Last(s.content)) == s.content.latest;
  }

  lemma BackingOfFetchVgr(s: State)
    requires Base(s) && Backing(s)
    ensures Backing(FetchVgrContent(s))
  {
  }

  lemma BackingOfOwnVgr(s: State, ok: bool)
    requires Base(s) && Backing(s)
    ensures Backing(OwnVgrContent(s, ok))
  {
    var s' := OwnVgrContent(s, ok);
    assert Version(s.vgr, Last(s.vgr)) == s.vgr.latest;
    KeepsFinMore(s.vgr, s'.vgr);
    if s.memo.dynamic && OwnerKept(s.vgr) { OwnerKeptMore(s.vgr, s'.vgr); }
  }

  lemma BackingOfAddFin(s: State, ok: bool)
    requires Base(s) && Base(AddFinContent(s, ok)) && Backing(s)
    ensures Backing(AddFinContent(s, ok))
  {
    var s' := AddFinContent(s, ok);
    HandledFacts(s.content, s'.content);
  }

  lemma BackingOfCreate(s: State, ok: bool, took: bool)
    requires Base(s) && Backing(s)
    ensures Backing(CreateGroup(s, ok, took))
  {
  }

  lemma BackingOfRecord(s: State, ok: bool)
    requires Base(s) && Backing(s)
    ensures Backing(RecordHandle(s, ok))
  {
    var s' := RecordHandle(s, ok);
    assert Version(s.content, Last(s.content)) == s.content.latest;
    if s'.content != s.content {
      MovesExtends(s.content, s'.content);
      forall i | 0 <= i <= Last(s.content) && Version(s.content, i).Some?
        ensures !Version(s.content, i).value.deleting
      {
        assert Grows(Version(s.content, i).value, Version(s.content, Last(s.content)).value);
      }
    }
  }

  lemma BackingOfDelete(s: State, ok: bool, took: bool)
    requires Base(s) && Backing(s)
    ensures Backing(DeleteGroup(s, ok, took))
  {
  }

  lemma BackingOfDisown(s: State, ok: bool)
    requires Base(s) && Backing(s)
    ensures Backing(DisownContent(s, ok))
  {
    var s' := DisownContent(s, ok);
    assert Version(s.vgr, Last(s.vgr)) == s.vgr.latest;
    KeepsFinMore(s.vgr, s'.vgr);
  }

  lemma BackingOfDropFinContent(s: State, ok: bool)
    requires Base(s) && Base(DropFinContent(s, ok)) && Backing(s)
    ensures Backing(DropFinContent(s, ok))
  {
    var s' := DropFinContent(s, ok);
    HandledFacts(s.content, s'.content);
    if s.memo.disowned { DoomedStays(s, s'); }
  }

  lemma BackingOfContentSetup(s: State, a: ContentSetupAction)
    requires Base(s) && Base(ApplyContentSetup(s, a)) && Backing(s)
    ensures Backing(ApplyContentSetup(s, a))
  {
    match a
    case ContentOwnVgr(ok) => BackingOfOwnVgr(s, ok);
    case ContentAddFin(ok) => BackingOfAddFin(s, ok);
    case ContentCreate(ok, took) => BackingOfCreate(s, ok, took);
    case ContentRecord(ok) => BackingOfRecord(s, ok);
    case ContentBegin => BackingOfBegin(s);
    case ContentFetchVgr => BackingOfFetchVgr(s);
    case _ =>
  }

  lemma BackingOfContentTeardown(s: State, a: ContentTeardownAction)
    requires Base(s) && Base(ApplyContentTeardown(s, a)) && Backing(s)
    ensures Backing(ApplyContentTeardown(s, a))
  {
    match a
    case ContentDelete(ok, took) => BackingOfDelete(s, ok, took);
    case ContentDisown(ok) => BackingOfDisown(s, ok);
    case ContentDropFin(ok) => BackingOfDropFinContent(s, ok);
  }

  lemma BackingOfVgrTeardown(s: State, a: VgrTeardownAction)
    requires Base(s) && Base(ApplyVgrTeardown(s, a)) && Backing(s)
    ensures Backing(ApplyVgrTeardown(s, a))
  {
    match a
    case VgrDelVr(ok) => ApartOfDelVr(s, ok); BackingApart(s, DelVr(s, ok));
    case VgrDelContent(ok) => ApartOfDelContent(s, ok); BackingApart(s, DelContent(s, ok));
    case VgrRelease(failed) => ApartOfRelease(s, failed); BackingApart(s, ReleasePvcs(s, failed));
    case VgrDropFin(ok) => BackingOfDropFin(s, ok);
  }

  lemma BackingStep(r: Rules, s: State, a: Action)
    requires Base(s) && Backing(s)
    ensures Backing(Apply(r, s, a))
  {
    BaseStep(r, s, a);
    match a
    case World(b) => ApartOfWorld(s, b); MovesOfWorld(s, b); BackingApart(s, ApplyWorld(s, b));
    case VrSetup(b) => ApartOfVrSetup(r, s, b); MovesOfVrSetup(r, s, b); BackingApart(s, ApplyVrSetup(r, s, b));
    case VrTeardown(b) => ApartOfVrTeardown(s, b); MovesOfVrTeardown(s, b); BackingApart(s, ApplyVrTeardown(s, b));
    case ContentSetup(b) => BackingOfContentSetup(s, b);
    case ContentTeardown(b) => BackingOfContentTeardown(s, b);
    case VgrSetup(b) => ApartOfVgrSetup(r, s, b); AliveInSetup(r, s, b); BackingApart(s, ApplyVgrSetup(r, s, b));
    case VgrTeardown(b) => BackingOfVgrTeardown(s, b);
  }

  /** The VGR loses its finalizer (and with it the object) in the step from s to s'. */
  predicate LosesFinalizer(s: State, s': State) { VgrHolds(s) && !VgrHolds(s') }

  /** The group is gone from the backend when the VGR lets go, if its handle had been recorded. */
  lemma FinalizerGoesLast(r: Rules, s: State, a: Action)
    requires Base(s) && Backing(s) && LosesFinalizer(s, Apply(r, s, a))
    ensures s.memo.recorded ==> !s.back.group
  {
    match a
    case World(b) => ApartOfWorld(s, b);
    case VrSetup(b) => ApartOfVrSetup(r, s, b);
    case VrTeardown(b) => ApartOfVrTeardown(s, b);
    case ContentSetup(b) =>
    case ContentTeardown(b) =>
    case VgrSetup(b) => ApartOfVgrSetup(r, s, b);
    case VgrTeardown(b) =>
  }
}
