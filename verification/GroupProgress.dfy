/**
 Deletion makes progress: a measure that no smooth step raises, and that every round serving each
 controller lowers, whatever the steps interleave with.
 */
module GroupProgress {
  import opened GroupModel
  import opened GroupSafety
  import opened GroupBacking
  import opened GroupOrder
  import opened GroupClosing

  // ----- The measure -----

  /** A content that is not marked may still get a guard. */
  function GuardRank(s: State): nat {
    if s.content.latest.None? then 0 else if !s.content.latest.value.deleting || s.content.latest.value.vrFin then 1 else 0
  }

  function OwnerRank(s: State): nat {
    if s.vgr.latest.None? then 0 else 1 + (if s.vgr.latest.value.vrOwner then 1 else 0) + (if s.vgr.latest.value.contentOwner then 1 else 0)
  }

  function Rank(s: State): nat { VrRank(s) + ContentRank(s) + GuardRank(s) + OwnerRank(s) }

  predicate Still<T(==)>(l: Log<T>, l': Log<T>) { l'.past == l.past && l'.latest == l.latest }

  /** No step raises the measure; one that keeps it writes at most to a VR or a content that is not marked. */
  lemma ShutsLower(s: State, s': State)
    requires Shuts(s, s')
    ensures VrRank(s') <= VrRank(s) && ContentRank(s') <= ContentRank(s) && GuardRank(s') <= GuardRank(s) && OwnerRank(s') <= OwnerRank(s)
    ensures Rank(s') == Rank(s) ==> Still(s.vgr, s'.vgr)
    ensures Rank(s') == Rank(s) ==> Still(s.vr, s'.vr) || (VrRank(s) == 2 && VrRank(s') == 2)
    ensures Rank(s') == Rank(s) ==> Still(s.content, s'.content) || (ContentRank(s) == 2 && ContentRank(s') == 2)
  {
  }

  // ----- The reconcile that is due -----

  datatype Who = VrTurn | ContentTurn | VgrTurn

  /** The controller whose next complete reconcile lowers the measure. */
  function Due(s: State): Who {
    if VrRank(s) == 2 || ContentRank(s) == 2 then VgrTurn
    else if VrRank(s) == 1 then VrTurn
    else if ContentRank(s) == 1 then ContentTurn
    else VgrTurn
  }

  predicate Idle(s: State, who: Who) {
    match who
    case VrTurn => s.vrTask.pc.VIdle?
    case ContentTurn => s.contentTask.pc.CIdle?
    case VgrTurn => s.vgrTask.pc.GIdle?
  }

  function Begin(who: Who): Action {
    match who
    case VrTurn => VrSetup(VrBegin)
    case ContentTurn => ContentSetup(ContentBegin)
    case VgrTurn => VgrSetup(VgrBegin)
  }

  predicate Caught(s: State) { s.vgr.cached == Last(s.vgr) && s.content.cached == Last(s.content) && s.vr.cached == Last(s.vr) }

  /** The cache is right about whether the object exists, now and from now on. */
  ghost predicate Present<T>(l: Log<T>, from: nat) { forall i :: from <= i <= Last(l) ==> (Version(l, i).Some? <==> l.latest.Some?) }

  /** The VGR reconcile in flight is about to mark a dependent. */
  ghost predicate Marking(s: State) {
    var t := s.vgrTask;
    && Present(s.vr, s.vr.cached) && Present(s.content, s.content.cached)
    && (t.pc.GDelVr? || (t.pc.GDelContent? && VrRank(s) < 2))
  }

  /** The VR teardown in flight works on the newest versions. */
  predicate TearingVr(s: State) {
    var t := s.vrTask;
    || t.pc.VDropFin?
    || (&& Caught(s) && t.vrAt == Last(s.vr) && (t.pc.VFetchVgr? || t.pc.VFetchContent? || TearsDown(t.pc))
        && (!t.pc.VFetchVgr? ==> t.vgrAt == Last(s.vgr)) && (TearsDown(t.pc) ==> t.contentAt == Last(s.content)))
  }

  predicate TearingContent(s: State) {
    var t := s.contentTask;
    || t.pc.CDropFin?
    || (&& Caught(s) && t.contentAt == Last(s.content) && (t.pc.CFetchVgr? || ContentTearsDown(t.pc))
        && (!t.pc.CFetchVgr? ==> t.vgrAt == Last(s.vgr)))
  }

  predicate TearingVgr(s: State) { Caught(s) && s.vgrTask.vgrAt == Last(s.vgr) && VgrTearsDown(s.vgrTask.pc) }

  /** The due reconcile is in flight and on its way to a write. */
  ghost predicate OnTrack(s: State) {
    if VrRank(s) == 2 || ContentRank(s) == 2 then Marking(s)
    else match Due(s)
      case VrTurn => TearingVr(s)
      case ContentTurn => TearingContent(s)
      case VgrTurn => TearingVgr(s)
  }

  ghost predicate Fit(r: Rules, s: State, list: set<string>) { Sound(r, s) && r.ownWritesVisible && Closing(s, list) }

  lemma StaysCaught(s: State, s': State)
    requires Base(s) && Shuts(s, s') && Rank(s') == Rank(s) && VrRank(s) < 2 && ContentRank(s) < 2 && Caught(s)
    ensures s'.vgr == s.vgr && s'.content == s.content && s'.vr == s.vr
  {
    ShutsLower(s, s');
  }

  lemma StaysPresent(s: State, s': State, vr: nat, content: nat)
    requires Shuts(s, s') && Rank(s') == Rank(s) && Present(s.vr, vr) && Present(s.content, content)
    ensures Present(s'.vr, vr) && Present(s'.content, content)
  {
    ShutsLower(s, s');
    MovesExtends(s.vr, s'.vr);
    MovesExtends(s.content, s'.content);
  }

  lemma TrackVr(r: Rules, s: State, a: Action, list: set<string>)
    requires Base(s) && Guard(r, s) && Closing(s, list) && Smooth(s, a) && Shuts(s, Apply(r, s, a)) && Due(s).VrTurn? && TearingVr(s)
    requires a.VrSetup? || a.VrTeardown?
    ensures Rank(Apply(r, s, a)) < Rank(s) || TearingVr(Apply(r, s, a))
  {
    assert Version(s.vgr, Last(s.vgr)) == s.vgr.latest;
  }

  lemma TrackContent(r: Rules, s: State, a: Action, list: set<string>)
    requires Base(s) && Guard(r, s) && r.ownWritesVisible && Closing(s, list) && Smooth(s, a) && Shuts(s, Apply(r, s, a))
    requires Due(s).ContentTurn? && TearingContent(s)
    requires a.ContentSetup? || a.ContentTeardown?
    ensures Rank(Apply(r, s, a)) < Rank(s) || TearingContent(Apply(r, s, a))
  {
    assert Version(s.vgr, Last(s.vgr)) == s.vgr.latest;
  }

  lemma TrackVgr(r: Rules, s: State, a: Action, list: set<string>)
    requires Base(s) && Guard(r, s) && r.ownWritesVisible && Closing(s, list) && Smooth(s, a) && Shuts(s, Apply(r, s, a))
    requires VrRank(s) == 0 == ContentRank(s) && TearingVgr(s)
    requires a.VgrSetup? || a.VgrTeardown?
    ensures Rank(Apply(r, s, a)) < Rank(s) || TearingVgr(Apply(r, s, a))
  {
    assert Version(s.vgr, Last(s.vgr)) == s.vgr.latest;
  }

  lemma TrackMarking(r: Rules, s: State, a: Action, list: set<string>)
    requires Base(s) && Closing(s, list) && Smooth(s, a) && Shuts(s, Apply(r, s, a)) && (VrRank(s) == 2 || ContentRank(s) == 2) && Marking(s)
    requires a.VgrSetup? || a.VgrTeardown?
    ensures var s' := Apply(r, s, a); Rank(s') < Rank(s) || s'.vgrTask.pc.GDelVr? || (s'.vgrTask.pc.GDelContent? && VrRank(s) < 2)
  {
  }

  lemma OthersKeepTrack(s: State, s': State)
    requires Base(s) && Shuts(s, s') && Rank(s') == Rank(s) && OnTrack(s)
    requires s'.vrTask == s.vrTask || !Due(s).VrTurn?
    requires s'.contentTask == s.contentTask || !Due(s).ContentTurn?
    requires s'.vgrTask == s.vgrTask || !Due(s).VgrTurn?
    ensures OnTrack(s')
  {
    ShutsLower(s, s');
    if VrRank(s) == 2 || ContentRank(s) == 2 {
      StaysPresent(s, s', s.vr.cached, s.content.cached);
    } else if Caught(s) {
      StaysCaught(s, s');
    }
  }

  /** a is a step of who's reconcile. */
  predicate StepOf(a: Action, who: Who) {
    match who
    case VrTurn => a.VrSetup? || a.VrTeardown?
    case ContentTurn => a.ContentSetup? || a.ContentTeardown?
    case VgrTurn => a.VgrSetup? || a.VgrTeardown?
  }

  lemma OwnKeepsTrack(r: Rules, s: State, a: Action, list: set<string>)
    requires Fit(r, s, list) && Smooth(s, a) && Shuts(s, Apply(r, s, a)) && OnTrack(s) && Rank(Apply(r, s, a)) == Rank(s)
    requires StepOf(a, Due(s))
    ensures OnTrack(Apply(r, s, a))
  {
    ShutsLower(s, Apply(r, s, a));
    if VrRank(s) == 2 || ContentRank(s) == 2 {
      StaysPresent(s, Apply(r, s, a), s.vr.cached, s.content.cached);
      TrackMarking(r, s, a, list);
    } else {
      match Due(s)
      case VrTurn => TrackVr(r, s, a, list);
      case ContentTurn => TrackContent(r, s, a, list);
      case VgrTurn => TrackVgr(r, s, a, list);
    }
  }

  /** The due reconcile, once on track, stays on track under every interleaving until the measure falls. */
  lemma TrackStep(r: Rules, s: State, a: Action, list: set<string>)
    requires Fit(r, s, list) && Smooth(s, a) && OnTrack(s)
    ensures Rank(Apply(r, s, a)) < Rank(s) || OnTrack(Apply(r, s, a))
  {
    ClosingStep(r, s, a, list);
    ShutsLower(s, Apply(r, s, a));
    if Rank(Apply(r, s, a)) == Rank(s) {
      OthersKeepTask(r, s, a);
      if StepOf(a, Due(s)) { OwnKeepsTrack(r, s, a, list); } else { OthersKeepTrack(s, Apply(r, s, a)); }
    }
  }

  /** A due reconcile that begins on a cache as new as s0 is on track, if the measure has not fallen since s0. */
  lemma BeginsOnTrack(r: Rules, s0: State, s: State, list: set<string>)
    requires Fit(r, s, list) && Rank(s) > 0 && Idle(s, Due(s)) && Since(s0, s)
    requires s.vgr.cached >= Last(s0.vgr) && s.content.cached >= Last(s0.content) && s.vr.cached >= Last(s0.vr)
    ensures OnTrack(Apply(r, s, Begin(Due(s)))) && Rank(Apply(r, s, Begin(Due(s)))) == Rank(s)
  {
    assert Version(s.vgr, Last(s.vgr)) == s.vgr.latest;
    assert Version(s.vr, s.vr.cached) == Cached(s.vr) && Version(s.content, s.content.cached) == Cached(s.content);
  }

  /** What is known of s while the measure is still that of the earlier s0. */
  ghost predicate Since(s0: State, s: State) {
    && Present(s.vr, Last(s0.vr)) && Present(s.content, Last(s0.content)) && Last(s.vgr) == Last(s0.vgr)
    && (VrRank(s) < 2 && ContentRank(s) < 2 ==> Last(s.vr) == Last(s0.vr) && Last(s.content) == Last(s0.content))
  }

  lemma SinceStep(s0: State, s: State, s': State)
    requires Since(s0, s) && Shuts(s, s') && Rank(s') == Rank(s)
    ensures Since(s0, s')
  {
    ShutsLower(s, s');
    StaysPresent(s, s', Last(s0.vr), Last(s0.content));
  }

  // ----- Along a path of states -----

  ghost predicate Sinking(ss: seq<State>, k: nat)
    requires k + 1 < |ss|
  {
    Shuts(ss[k], ss[k + 1])
  }

  ghost predicate Tracking(ss: seq<State>, k: nat)
    requires k + 1 < |ss|
  {
    OnTrack(ss[k]) ==> Rank(ss[k + 1]) < Rank(ss[k]) || OnTrack(ss[k + 1])
  }

  lemma {:induction false} PathFalls(ss: seq<State>, i: nat, k: nat)
    requires i <= k < |ss| && forall n: nat :: n + 1 < |ss| ==> Sinking(ss, n)
    ensures Rank(ss[k]) <= Rank(ss[i]) && (Rank(ss[k]) == Rank(ss[i]) ==> Due(ss[k]) == Due(ss[i]))
    decreases k - i
  {
    if i < k {
      PathFalls(ss, i, k - 1);
      assert Sinking(ss, k - 1);
      ShutsLower(ss[k - 1], ss[k]);
    }
  }

  /** While the measure stands still, what is known since s0 lasts. */
  lemma {:induction false} PathSince(s0: State, ss: seq<State>, i: nat, k: nat)
    requires i <= k < |ss| && forall n: nat :: n + 1 < |ss| ==> Sinking(ss, n)
    requires Since(s0, ss[i]) && Rank(ss[k]) == Rank(ss[i])
    ensures Since(s0, ss[k])
    decreases k - i
  {
    if i < k {
      PathFalls(ss, i, k - 1);
      PathFalls(ss, k - 1, k);
      PathSince(s0, ss, i, k - 1);
      assert Sinking(ss, k - 1);
      SinceStep(s0, ss[k - 1], ss[k]);
    }
  }

  /** So does a reconcile on track. */
  lemma {:induction false} PathTracks(ss: seq<State>, i: nat, k: nat)
    requires i <= k < |ss| && forall n: nat :: n + 1 < |ss| ==> Sinking(ss, n) && Tracking(ss, n)
    requires OnTrack(ss[i]) && Rank(ss[k]) == Rank(ss[i])
    ensures OnTrack(ss[k])
    decreases k - i
  {
    if i < k {
      PathFalls(ss, i, k - 1);
      PathFalls(ss, k - 1, k);
      PathTracks(ss, i, k - 1);
      assert Tracking(ss, k - 1);
    }
  }

  // ----- Fair runs -----

  function At(r: Rules, s: State, acts: seq<Action>, k: nat): State
    requires k <= |acts|
  {
    Run(r, s, acts[..k])
  }

  function States(r: Rules, s: State, acts: seq<Action>): (ss: seq<State>)
    ensures |ss| == |acts| + 1 && forall k :: 0 <= k <= |acts| ==> ss[k] == At(r, s, acts, k)
  {
    seq(|acts| + 1, k requires 0 <= k <= |acts| => At(r, s, acts, k))
  }

  lemma AtNext(r: Rules, s: State, acts: seq<Action>, k: nat)
    requires k < |acts|
    ensures At(r, s, acts, k + 1) == Apply(r, At(r, s, acts, k), acts[k])
  {
    assert acts[..k + 1][..k] == acts[..k];
  }

  ghost predicate SmoothRun(r: Rules, s: State, acts: seq<Action>) { forall k :: 0 <= k < |acts| ==> Smooth(At(r, s, acts, k), acts[k]) }

  /** A reconcile of who begins in the run, on a cache as new as its start, and ends in the run. */
  ghost predicate Serves(r: Rules, s: State, acts: seq<Action>, who: Who, i: nat, j: nat) {
    && i < j <= |acts| && acts[i] == Begin(who) && Idle(At(r, s, acts, i), who) && Idle(At(r, s, acts, j), who)
    && At(r, s, acts, i).vgr.cached >= Last(s.vgr) && At(r, s, acts, i).content.cached >= Last(s.content)
    && At(r, s, acts, i).vr.cached >= Last(s.vr)
  }

  ghost predicate Served(r: Rules, s: State, acts: seq<Action>, who: Who) {
    exists i: nat, j: nat :: Serves(r, s, acts, who, i, j)
  }

  /** A smooth interleaving of single steps that serves each controller at least once. */
  ghost predicate FairRound(r: Rules, s: State, acts: seq<Action>) {
    SmoothRun(r, s, acts) && Served(r, s, acts, VrTurn) && Served(r, s, acts, ContentTurn) && Served(r, s, acts, VgrTurn)
  }

  lemma {:induction false} Along(r: Rules, s: State, acts: seq<Action>, k: nat, list: set<string>)
    requires k <= |acts| && SmoothRun(r, s, acts) && Fit(r, s, list)
    ensures Fit(r, At(r, s, acts, k), list)
    decreases k
  {
    if k > 0 {
      Along(r, s, acts, k - 1, list);
      AtNext(r, s, acts, k - 1);
      ClosingStep(r, At(r, s, acts, k - 1), acts[k - 1], list);
    }
  }

  lemma Links(r: Rules, s: State, acts: seq<Action>, k: nat, list: set<string>)
    requires k < |acts| && SmoothRun(r, s, acts) && Fit(r, s, list)
    ensures Sinking(States(r, s, acts), k) && Tracking(States(r, s, acts), k)
  {
    var t := At(r, s, acts, k);
    Along(r, s, acts, k, list);
    AtNext(r, s, acts, k);
    ClosingStep(r, t, acts[k], list);
    if OnTrack(t) { TrackStep(r, t, acts[k], list); }
  }

  lemma RunIsPath(r: Rules, s: State, acts: seq<Action>, list: set<string>)
    requires SmoothRun(r, s, acts) && Fit(r, s, list)
    ensures var ss := States(r, s, acts); ss[0] == s && ss[|acts|] == Run(r, s, acts) && forall n: nat :: n < |acts| ==> Sinking(ss, n) && Tracking(ss, n)
  {
    assert acts[..0] == [] && acts[..|acts|] == acts;
    forall n: nat | n < |acts| ensures Sinking(States(r, s, acts), n) && Tracking(States(r, s, acts), n) {
      Links(r, s, acts, n, list);
    }
  }

  lemma SinceSelf(s: State)
    ensures Since(s, s)
  {
    assert Version(s.vr, Last(s.vr)) == s.vr.latest && Version(s.content, Last(s.content)) == s.content.latest;
  }

  /** On a path, a due reconcile that begins at i on a fresh cache and is over at j has lowered the measure. */
  lemma PathLowers(r: Rules, ss: seq<State>, i: nat, j: nat, list: set<string>)
    requires i < j < |ss| && Rank(ss[0]) > 0 && forall n: nat :: n + 1 < |ss| ==> Sinking(ss, n) && Tracking(ss, n)
    requires Idle(ss[i], Due(ss[0])) && Idle(ss[j], Due(ss[0])) && ss[i + 1] == Apply(r, ss[i], Begin(Due(ss[0]))) && Fit(r, ss[i], list)
    requires ss[i].vgr.cached >= Last(ss[0].vgr) && ss[i].content.cached >= Last(ss[0].content) && ss[i].vr.cached >= Last(ss[0].vr)
    ensures Rank(ss[j]) < Rank(ss[0])
  {
    PathFalls(ss, 0, i);
    PathFalls(ss, i + 1, j);
    PathFalls(ss, i, j);
    if Rank(ss[i]) == Rank(ss[0]) {
      SinceSelf(ss[0]);
      PathSince(ss[0], ss, 0, i);
      BeginsOnTrack(r, ss[0], ss[i], list);
      if Rank(ss[j]) == Rank(ss[0]) {
        PathTracks(ss, i + 1, j);
        OnTrackIsBusy(ss[j]);
      }
    }
  }

  lemma ServiceLowers(r: Rules, s: State, acts: seq<Action>, i: nat, j: nat, list: set<string>)
    requires Fit(r, s, list) && SmoothRun(r, s, acts) && Rank(s) > 0 && Serves(r, s, acts, Due(s), i, j)
    ensures Rank(At(r, s, acts, j)) < Rank(s)
  {
    RunIsPath(r, s, acts, list);
    Along(r, s, acts, i, list);
    AtNext(r, s, acts, i);
    PathLowers(r, States(r, s, acts), i, j, list);
  }

  lemma RoundLowers(r: Rules, s: State, acts: seq<Action>, list: set<string>)
    requires Fit(r, s, list) && FairRound(r, s, acts)
    ensures Fit(r, Run(r, s, acts), list) && Rank(Run(r, s, acts)) <= Rank(s)
    ensures Rank(s) > 0 ==> Rank(Run(r, s, acts)) < Rank(s)
  {
    var ss := States(r, s, acts);
    RunIsPath(r, s, acts, list);
    Along(r, s, acts, |acts|, list);
    PathFalls(ss, 0, |acts|);
    if Rank(s) > 0 {
      assert Served(r, s, acts, Due(s));
      var i: nat, j: nat :| Serves(r, s, acts, Due(s), i, j);
      ServiceLowers(r, s, acts, i, j, list);
      PathFalls(ss, j, |acts|);
    }
  }

  lemma OnTrackIsBusy(s: State)
    requires OnTrack(s)
    ensures !Idle(s, Due(s))
  {
  }

  function RunRounds(r: Rules, s: State, rounds: seq<seq<Action>>): State
    decreases |rounds|
  {
    if rounds == [] then s else Run(r, RunRounds(r, s, rounds[..|rounds| - 1]), rounds[|rounds| - 1])
  }

  ghost predicate FairRounds(r: Rules, s: State, rounds: seq<seq<Action>>)
    decreases |rounds|
  {
    rounds == [] || (var n := |rounds| - 1; FairRounds(r, s, rounds[..n]) && FairRound(r, RunRounds(r, s, rounds[..n]), rounds[n]))
  }

  /** All three objects are gone, the group is deleted and disabled, and no listed PVC is held. */
  predicate Done(s: State, list: set<string>) {
    && s.vgr.latest.None? && s.content.latest.None? && s.vr.latest.None?
    && !s.back.group && !s.back.enabled && s.back.held !! list
  }

  lemma RankZeroDone(r: Rules, s: State, list: set<string>)
    requires Fit(r, s, list) && Rank(s) == 0
    ensures Done(s, list)
  {
  }

  lemma {:induction false} RoundsLower(r: Rules, s: State, rounds: seq<seq<Action>>, list: set<string>)
    requires Fit(r, s, list) && FairRounds(r, s, rounds)
    ensures Fit(r, RunRounds(r, s, rounds), list)
    ensures Rank(RunRounds(r, s, rounds)) + |rounds| <= Rank(s) || Rank(RunRounds(r, s, rounds)) == 0
    decreases |rounds|
  {
    if rounds != [] {
      var n := |rounds| - 1;
      RoundsLower(r, s, rounds[..n], list);
      RoundLowers(r, RunRounds(r, s, rounds[..n]), rounds[n], list);
    }
  }

  /** As many fair rounds as the measure finish the deletion, in every interleaving of single steps. */
  lemma RoundsFinish(r: Rules, s: State, rounds: seq<seq<Action>>, list: set<string>)
    requires Fit(r, s, list) && FairRounds(r, s, rounds) && |rounds| >= Rank(s)
    ensures Done(RunRounds(r, s, rounds), list)
  {
    RoundsLower(r, s, rounds, list);
    RankZeroDone(r, RunRounds(r, s, rounds), list);
  }
}
