/**
 Fair rounds exist: from every state that a run reaches, each controller can be brought to the end of what
 it is doing, and then through one complete reconcile on a caught-up cache.
 */
module GroupSchedules {
  import opened GroupModel
  import opened GroupSafety
  import opened GroupOrder
  import opened GroupRaces
  import opened GroupClosing
  import opened GroupProgress

  /** Smooth in every state: a cache catches up, or a reconcile goes on without a failure. */
  predicate Plain(a: Action) {
    match a
    case World(b) => b.SyncVgr? || b.SyncContent? || b.SyncVr?
    case VrSetup(b) => !b.VrAbort?
    case ContentSetup(b) => !b.ContentAbort?
    case VgrSetup(b) => !b.VgrAbort?
    case VrTeardown(b) => b.ok
    case ContentTeardown(b) => b.ok
    case VgrTeardown(b) => if b.VgrRelease? then b.failed == {} else b.ok
  }

  predicate PlainRun(acts: seq<Action>) { forall k :: 0 <= k < |acts| ==> Plain(acts[k]) }

  lemma PlainIsSmooth(r: Rules, s: State, acts: seq<Action>)
    requires PlainRun(acts)
    ensures SmoothRun(r, s, acts)
  {
  }

  /** No step of who's reconciles. */
  predicate Spares(acts: seq<Action>, who: Who) { forall k :: 0 <= k < |acts| ==> !StepOf(acts[k], who) }

  /** A plain path from s to t. */
  ghost predicate Path(r: Rules, s: State, acts: seq<Action>, t: State) { PlainRun(acts) && t == Run(r, s, acts) }

  lemma PathSelf(r: Rules, s: State)
    ensures Path(r, s, [], s)
  {
  }

  lemma PathFirst(r: Rules, s: State, a: Action, acts: seq<Action>, t: State)
    requires Plain(a) && Path(r, Apply(r, s, a), acts, t)
    ensures Path(r, s, [a] + acts, t)
  {
    Run1(r, s, a);
    RunConcat(r, s, [a], acts);
  }

  lemma PathConcat(r: Rules, s: State, a: seq<Action>, t: State, b: seq<Action>, u: State)
    requires Path(r, s, a, t) && Path(r, t, b, u)
    ensures Path(r, s, a + b, u)
  {
    RunConcat(r, s, a, b);
  }

  /** What any run keeps: its invariants, and logs that only grow. */
  predicate Longer(s: State, t: State) {
    Last(s.vgr) <= Last(t.vgr) && Last(s.content) <= Last(t.content) && Last(s.vr) <= Last(t.vr)
  }

  lemma LogsGrow(r: Rules, s: State, a: Action)
    requires Base(s)
    ensures Longer(s, Apply(r, s, a))
  {
    match a
    case World(b) => MovesOfWorld(s, b);
    case VrSetup(b) => MovesOfVrSetup(r, s, b);
    case VrTeardown(b) => MovesOfVrTeardown(s, b);
    case ContentSetup(b) => MovesOfContentSetup(s, b);
    case ContentTeardown(b) => MovesOfContentTeardown(s, b);
    case VgrSetup(b) => MovesOfVgrSetup(r, s, b);
    case VgrTeardown(b) => MovesOfVgrTeardown(s, b);
  }

  lemma {:induction false} RunIsSound(r: Rules, s: State, acts: seq<Action>)
    requires Sound(r, s)
    ensures Sound(r, Run(r, s, acts)) && Longer(s, Run(r, s, acts))
    decreases |acts|
  {
    if acts != [] {
      var n := |acts| - 1;
      RunIsSound(r, s, acts[..n]);
      SoundStep(r, Run(r, s, acts[..n]), acts[n]);
      LogsGrow(r, Run(r, s, acts[..n]), acts[n]);
    }
  }

  // ----- Caches catch up -----

  function CaughtUp<T>(l: Log<T>): Log<T> { l.(cached := Last(l)) }

  function Synced(s: State): State { s.(vgr := CaughtUp(s.vgr), content := CaughtUp(s.content), vr := CaughtUp(s.vr)) }

  predicate Within(s: State) { s.vgr.cached <= Last(s.vgr) && s.content.cached <= Last(s.content) && s.vr.cached <= Last(s.vr) }

  function Lag(s: State): nat
    requires Within(s)
  {
    Last(s.vgr) - s.vgr.cached + Last(s.content) - s.content.cached + Last(s.vr) - s.vr.cached
  }

  predicate Syncs(acts: seq<Action>) { forall k :: 0 <= k < |acts| ==> acts[k].World? && Plain(acts[k]) }

  lemma {:induction false} CatchUp(r: Rules, s: State) returns (acts: seq<Action>)
    requires Within(s)
    ensures Path(r, s, acts, Synced(s)) && Syncs(acts)
    decreases Lag(s)
  {
    if Lag(s) == 0 {
      acts := [];
      assert Synced(s) == s;
      PathSelf(r, s);
    } else {
      var b := if s.vgr.cached < Last(s.vgr) then SyncVgr else if s.content.cached < Last(s.content) then SyncContent else SyncVr;
      assert Synced(ApplyWorld(s, b)) == Synced(s);
      var rest := CatchUp(r, ApplyWorld(s, b));
      PathFirst(r, s, World(b), rest, Synced(s));
      acts := [World(b)] + rest;
    }
  }

  // ----- A reconcile in flight goes on to its end -----

  function VrLeft(pc: VrPc): nat {
    match pc
    case VIdle => 0 case VDropFin => 1 case VDisown => 2 case VUnguard => 3 case VDisable => 4 case VEnable => 5
    case VUpdate => 6 case VGuard => 7 case VOwnVgr => 8 case VAddFin => 9 case VFetchContent => 10 case VFetchVgr => 11
  }

  function VrGoesOn(pc: VrPc): Action {
    match pc
    case VIdle => VrSetup(VrBegin) case VFetchVgr => VrSetup(VrFetchVgr) case VFetchContent => VrSetup(VrFetchContent)
    case VAddFin => VrSetup(VrAddFin(true)) case VOwnVgr => VrSetup(VrOwnVgr(true)) case VGuard => VrSetup(VrGuard(true))
    case VUpdate => VrSetup(VrUpdate(true)) case VEnable => VrSetup(VrEnable(true, true))
    case VDisable => VrTeardown(VrDisable(true, true)) case VUnguard => VrTeardown(VrUnguard(true))
    case VDisown => VrTeardown(VrDisown(true)) case VDropFin => VrTeardown(VrDropFin(true))
  }

  /** The VR controller's reads are not held back, and it has what its next steps need. */
  predicate VrReady(s: State) {
    && (s.vrTask.pc.VFetchVgr? ==> s.vgr.cached >= s.memo.vrWroteVgr)
    && (s.vrTask.pc.VFetchVgr? || s.vrTask.pc.VFetchContent? ==> s.content.cached >= s.memo.vrWroteContent)
    && (SetsUp(s.vrTask.pc) ==> s.vrTask.content.Some?)
  }

  predicate SameElse(s: State, t: State, who: Who) {
    && (who.VrTurn? || t.vrTask == s.vrTask) && (who.ContentTurn? || t.contentTask == s.contentTask) && (who.VgrTurn? || t.vgrTask == s.vgrTask)
  }

  lemma VrGoesOnStep(r: Rules, s: State)
    requires VrReady(s) && !s.vrTask.pc.VIdle?
    ensures var t := Apply(r, s, VrGoesOn(s.vrTask.pc)); VrReady(t) && VrLeft(t.vrTask.pc) < VrLeft(s.vrTask.pc) && SameElse(s, t, VrTurn)
  {
  }

  lemma {:induction false} DrainVr(r: Rules, s: State) returns (acts: seq<Action>, t: State)
    requires VrReady(s)
    ensures Path(r, s, acts, t) && Spares(acts, ContentTurn) && Spares(acts, VgrTurn) && t.vrTask.pc.VIdle? && SameElse(s, t, VrTurn)
    decreases VrLeft(s.vrTask.pc)
  {
    if s.vrTask.pc.VIdle? {
      acts, t := [], s;
      PathSelf(r, s);
    } else {
      VrGoesOnStep(r, s);
      var rest;
      rest, t := DrainVr(r, Apply(r, s, VrGoesOn(s.vrTask.pc)));
      PathFirst(r, s, VrGoesOn(s.vrTask.pc), rest, t);
      acts := [VrGoesOn(s.vrTask.pc)] + rest;
    }
  }

  function ContentLeft(pc: ContentPc): nat {
    match pc
    case CIdle => 0 case CDropFin => 1 case CDisown => 2 case CDelete => 3 case CRecord => 4 case CCreate => 5
    case CAddFin => 6 case COwnVgr => 7 case CFetchVgr => 8
  }

  function ContentGoesOn(pc: ContentPc): Action {
    match pc
    case CIdle => ContentSetup(ContentBegin) case CFetchVgr => ContentSetup(ContentFetchVgr) case COwnVgr => ContentSetup(ContentOwnVgr(true))
    case CAddFin => ContentSetup(ContentAddFin(true)) case CCreate => ContentSetup(ContentCreate(true, true))
    case CRecord => ContentSetup(ContentRecord(true)) case CDelete => ContentTeardown(ContentDelete(true, true))
    case CDisown => ContentTeardown(ContentDisown(true)) case CDropFin => ContentTeardown(ContentDropFin(true))
  }

  lemma ContentGoesOnStep(r: Rules, s: State)
    requires !s.contentTask.pc.CIdle?
    ensures var t := Apply(r, s, ContentGoesOn(s.contentTask.pc)); ContentLeft(t.contentTask.pc) < ContentLeft(s.contentTask.pc) && SameElse(s, t, ContentTurn)
  {
  }

  lemma {:induction false} DrainContent(r: Rules, s: State) returns (acts: seq<Action>, t: State)
    ensures Path(r, s, acts, t) && Spares(acts, VrTurn) && Spares(acts, VgrTurn) && t.contentTask.pc.CIdle? && SameElse(s, t, ContentTurn)
    decreases ContentLeft(s.contentTask.pc)
  {
    if s.contentTask.pc.CIdle? {
      acts, t := [], s;
      PathSelf(r, s);
    } else {
      ContentGoesOnStep(r, s);
      var rest;
      rest, t := DrainContent(r, Apply(r, s, ContentGoesOn(s.contentTask.pc)));
      PathFirst(r, s, ContentGoesOn(s.contentTask.pc), rest, t);
      acts := [ContentGoesOn(s.contentTask.pc)] + rest;
    }
  }

  function VgrLeft(pc: VgrPc): nat {
    match pc
    case GIdle => 0 case GDropFin => 1 case GRelease => 2 case GDelContent => 3 case GDelVr => 4
    case GNameVr => 5 case GVr => 6 case GNameContent => 7 case GContent => 8 case GSelect => 9 case GAddFin => 10
  }

  /** A set-up in flight keeps its list of PVCs. */
  function VgrGoesOn(t: VgrTask): Action {
    match t.pc
    case GIdle => VgrSetup(VgrBegin) case GAddFin => VgrSetup(VgrAddFin(true)) case GSelect => VgrSetup(VgrSelect(t.vgr.pvcs, {}, {}, true))
    case GContent => VgrSetup(VgrContent(true, false)) case GNameContent => VgrSetup(VgrNameContent(true))
    case GVr => VgrSetup(VgrVr(true, false)) case GNameVr => VgrSetup(VgrNameVr(true))
    case GDelVr => VgrTeardown(VgrDelVr(true)) case GDelContent => VgrTeardown(VgrDelContent(true))
    case GRelease => VgrTeardown(VgrRelease({})) case GDropFin => VgrTeardown(VgrDropFin(true))
  }

  lemma VgrGoesOnStep(r: Rules, s: State)
    requires !s.vgrTask.pc.GIdle?
    ensures var t := Apply(r, s, VgrGoesOn(s.vgrTask)); VgrLeft(t.vgrTask.pc) < VgrLeft(s.vgrTask.pc) && SameElse(s, t, VgrTurn)
  {
  }

  lemma {:induction false} DrainVgr(r: Rules, s: State) returns (acts: seq<Action>, t: State)
    ensures Path(r, s, acts, t) && Spares(acts, VrTurn) && Spares(acts, ContentTurn) && t.vgrTask.pc.GIdle? && SameElse(s, t, VgrTurn)
    decreases VgrLeft(s.vgrTask.pc)
  {
    if s.vgrTask.pc.GIdle? {
      acts, t := [], s;
      PathSelf(r, s);
    } else {
      VgrGoesOnStep(r, s);
      var rest;
      rest, t := DrainVgr(r, Apply(r, s, VgrGoesOn(s.vgrTask)));
      PathFirst(r, s, VgrGoesOn(s.vgrTask), rest, t);
      acts := [VgrGoesOn(s.vgrTask)] + rest;
    }
  }

  // ----- One complete reconcile -----

  lemma Drain(r: Rules, s: State, who: Who) returns (acts: seq<Action>, t: State)
    requires VrReady(s)
    ensures Path(r, s, acts, t) && Idle(t, who)
  {
    match who
    case VrTurn => acts, t := DrainVr(r, s);
    case ContentTurn => acts, t := DrainContent(r, s);
    case VgrTurn => acts, t := DrainVgr(r, s);
  }

  lemma CaughtIsReady(r: Rules, s: State)
    requires Sound(r, s)
    ensures Within(s) && VrReady(Synced(s)) && VrReady(Apply(r, Synced(s), VrSetup(VrBegin)))
    ensures VrReady(Apply(r, Synced(s), ContentSetup(ContentBegin))) && VrReady(Apply(r, Synced(s), VgrSetup(VgrBegin)))
  {
  }

  /** Once who is idle and the caches have caught up, it begins and ends a reconcile. */
  lemma ServeFrom(r: Rules, s: State, who: Who) returns (acts: seq<Action>, t: State)
    requires Sound(r, s) && Idle(s, who)
    ensures Path(r, s, acts, t) && Served(r, s, acts, who)
  {
    CaughtIsReady(r, s);
    var a := CatchUp(r, s);
    var u := Synced(s);
    var b;
    b, t := Drain(r, Apply(r, u, Begin(who)), who);
    PathFirst(r, u, Begin(who), b, t);
    PathConcat(r, s, a, u, [Begin(who)] + b, t);
    acts := a + ([Begin(who)] + b);
    assert acts[..|a|] == a && acts[..|acts|] == acts && acts[|a|] == Begin(who);
    assert Serves(r, s, acts, who, |a|, |acts|);
  }

  lemma Serve(r: Rules, s: State, who: Who) returns (acts: seq<Action>, t: State)
    requires Sound(r, s)
    ensures Path(r, s, acts, t) && Served(r, s, acts, who)
  {
    CaughtIsReady(r, s);
    var a := CatchUp(r, s);
    var b, u := Drain(r, Synced(s), who);
    PathConcat(r, s, a, Synced(s), b, u);
    RunIsSound(r, s, a + b);
    var c;
    c, t := ServeFrom(r, u, who);
    PathConcat(r, s, a + b, u, c, t);
    ServedLater(r, s, a + b, c, who);
    acts := a + b + c;
  }

  lemma AtLater(r: Rules, s: State, acts: seq<Action>, more: seq<Action>, k: nat)
    requires k <= |more|
    ensures At(r, s, acts + more, |acts| + k) == At(r, Run(r, s, acts), more, k)
  {
    assert (acts + more)[..|acts| + k] == acts + more[..k];
    RunConcat(r, s, acts, more[..k]);
  }

  lemma ServedLater(r: Rules, s: State, acts: seq<Action>, more: seq<Action>, who: Who)
    requires Longer(s, Run(r, s, acts)) && Served(r, Run(r, s, acts), more, who)
    ensures Served(r, s, acts + more, who)
  {
    var t := Run(r, s, acts);
    var i: nat, j: nat :| Serves(r, t, more, who, i, j);
    AtLater(r, s, acts, more, i);
    AtLater(r, s, acts, more, j);
    assert Serves(r, s, acts + more, who, |acts| + i, |acts| + j);
  }

  lemma ServedEarlier(r: Rules, s: State, acts: seq<Action>, more: seq<Action>, who: Who)
    requires Served(r, s, acts, who)
    ensures Served(r, s, acts + more, who)
  {
    var i: nat, j: nat :| Serves(r, s, acts, who, i, j);
    assert (acts + more)[..i] == acts[..i] && (acts + more)[..j] == acts[..j];
    assert Serves(r, s, acts + more, who, i, j);
  }

  // ----- Fair rounds exist -----

  /** From every state that satisfies the invariants there is a fair round, without any failure. */
  lemma FairRoundExists(r: Rules, s: State) returns (acts: seq<Action>)
    requires Sound(r, s)
    ensures FairRound(r, s, acts) && Sound(r, Run(r, s, acts))
  {
    var a, t := Serve(r, s, VrTurn);
    RunIsSound(r, s, a);
    var b, u := Serve(r, t, ContentTurn);
    ServedEarlier(r, s, a, b, VrTurn);
    ServedLater(r, s, a, b, ContentTurn);
    PathConcat(r, s, a, t, b, u);
    RunIsSound(r, s, a + b);
    var c, v := Serve(r, u, VgrTurn);
    ServedEarlier(r, s, a + b, c, VrTurn);
    ServedEarlier(r, s, a + b, c, ContentTurn);
    ServedLater(r, s, a + b, c, VgrTurn);
    PathConcat(r, s, a + b, u, c, v);
    acts := a + b + c;
    PlainIsSmooth(r, s, acts);
    RunIsSound(r, s, acts);
  }

  lemma {:induction false} FairRoundsExist(r: Rules, s: State, n: nat) returns (rounds: seq<seq<Action>>)
    requires Sound(r, s)
    ensures |rounds| == n && FairRounds(r, s, rounds) && Sound(r, RunRounds(r, s, rounds))
  {
    if n == 0 {
      rounds := [];
    } else {
      var before := FairRoundsExist(r, s, n - 1);
      var acts := FairRoundExists(r, RunRounds(r, s, before));
      rounds := before + [acts];
      assert rounds[..n - 1] == before;
    }
  }
}
