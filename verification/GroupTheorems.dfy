/**
 The protocol's safety theorems, stated over every run from a fresh VGR, and the exact conditions
 on the cache under which the two guard properties hold.
 */
module GroupTheorems {
  import opened GroupModel
  import opened GroupSafety
  import opened GroupBacking
  import opened GroupOrder
  import opened GroupRaces

  lemma {:induction false} RunInvariants(r: Rules, named: bool, held: set<string>, acts: seq<Action>)
    ensures Sound(r, Run(r, Init(named, held), acts))
    decreases |acts|
  {
    if acts == [] {
      BackingInit(named, held);
    } else {
      var prefix, a := acts[..|acts| - 1], acts[|acts| - 1];
      RunInvariants(r, named, held, prefix);
      var s := Run(r, Init(named, held), prefix);
      SoundStep(r, s, a);
    }
  }

  lemma DeleteNeverWhileEnabled(r: Rules, named: bool, held: set<string>, acts: seq<Action>, a: Action)
    requires GuardRule(r)
    ensures DeleteIsSafe(r, named, held, acts, a)
  {
    RunInvariants(r, named, held, acts);
    var s := Run(r, Init(named, held), acts);
    if DeletesGroup(s, a) && s.content.latest.Some? {
      assert Version(s.content, Last(s.content)) == s.content.latest;
      assert Grows(Version(s.content, s.contentTask.contentAt).value, s.content.latest.value);
    }
  }

  /** A recorded group is deleted before the VGR loses its finalizer, whatever caches and writes do. */
  lemma {:induction false} RecordedGroupDeletedFirst(r: Rules, named: bool, held: set<string>, acts: seq<Action>, a: Action)
    ensures var s := Run(r, Init(named, held), acts);
      LosesFinalizer(s, Apply(r, s, a)) && s.memo.recorded ==> !s.back.group
    ensures var s := Run(r, Init(named, held), acts);
      s.memo.recorded && s.back.group ==> VgrHolds(s) && ContentOwns(s)
  {
    RunInvariants(r, named, held, acts);
    var s := Run(r, Init(named, held), acts);
    if LosesFinalizer(s, Apply(r, s, a)) { FinalizerGoesLast(r, s, a); }
  }

  // ----- The exact conditions -----

  /**
   In every interleaving DeleteVolumeGroup spares enabled groups, exactly if the VR controller's
   reads show its own last writes or the VR is never created a second time.
   */
  lemma DeleteSafetyCondition(r: Rules)
    ensures AlwaysDeleteSafe(r) <==> r.ownWritesVisible || !r.vrRecreated
  {
    if GuardRule(r) {
      forall named: bool, held: set<string>, acts: seq<Action>, a: Action
        ensures DeleteIsSafe(r, named, held, acts, a)
      {
        DeleteNeverWhileEnabled(r, named, held, acts, a);
      }
    } else {
      LagUnguardsEnable(r);
    }
  }

  /** No guard is ever orphaned, exactly if the VR controller's reads show its own last writes. */
  lemma NoOrphanCondition(r: Rules)
    ensures AlwaysNoOrphan(r) <==> r.ownWritesVisible
  {
    if r.ownWritesVisible {
      forall named: bool, held: set<string>, acts: seq<Action> ensures NoOrphan(Run(r, Init(named, held), acts)) {
        RunInvariants(r, named, held, acts);
      }
    } else {
      LagOrphansGuard(r);
    }
  }
}
