/**
 Which group a PersistentVolumeClaim belongs to.

 The VGR controller compares the PVCs its selector matches with the list in the VGR's status, puts
 its owner annotation and finalizer on the new ones and takes them off the dropped ones, one API
 write at a time, and only then stores the new list.
 */
module PvcOwnership {

  /** The VGR owner annotation and the VR owner annotation ("" when absent), and the VGR finalizer. */
  datatype Pvc = Pvc(vgrOwner: string, vrOwner: string, fin: bool)

  type Pvcs = map<string, Pvc>

  predicate CanClaim(p: Pvc, vgr: string) {
    !(p.vrOwner != "" && p.vgrOwner != "") && (p.vgrOwner == "" || p.vgrOwner == vgr)
  }

  function Claimed(p: Pvc, vgr: string): Pvc { p.(vgrOwner := vgr, fin := true) }

  function Released(p: Pvc): Pvc { p.(vgrOwner := "", fin := false) }

  function Names(s: seq<string>): set<string> { set n | n in s }

  lemma NamesAppend(s: seq<string>, x: string)
    ensures Names(s + [x]) == Names(s) + {x}
  {
    assert forall n :: n in s + [x] <==> n in s || n == x;
  }

  lemma SomeName(s: seq<string>)
    ensures s != [] ==> Names(s) != {}
  {
    if s != [] { assert s[0] in Names(s); }
  }

  /** A claim based on copy c goes through: the copy shows it done, or it is current and may be claimed. */
  predicate Claimable(p: Pvc, c: Pvc, vgr: string) { CanClaim(c, vgr) && (c == Claimed(c, vgr) || c == p) }

  /** Likewise for a release. */
  predicate Releasable(p: Pvc, c: Pvc) { c == Released(c) || c == p }

  /** What is written: nothing, if the copy shows it done. */
  function AfterClaim(p: Pvc, c: Pvc, vgr: string): Pvc { if c == Claimed(c, vgr) then p else Claimed(p, vgr) }

  function AfterRelease(p: Pvc, c: Pvc): Pvc { if c == Released(c) then p else Released(p) }

  /** The PVCs once all of add is claimed and all of drop is released, on the copies in cache. */
  function Moved(m: Pvcs, cache: Pvcs, vgr: string, add: set<string>, drop: set<string>): (m': Pvcs)
    requires add + drop <= cache.Keys
  {
    map n | n in m :: if n in add then AfterClaim(m[n], cache[n], vgr) else if n in drop then AfterRelease(m[n], cache[n]) else m[n]
  }

  /** Where a failed write can leave the PVCs: no removal starts before the last addition is complete. */
  ghost predicate Underway(m: Pvcs, m': Pvcs, cache: Pvcs, vgr: string, add: set<string>, drop: set<string>) {
    && m'.Keys == m.Keys
    && (forall n :: n in m && n !in add && n !in drop ==> m'[n] == m[n])
    && (forall n :: n in m && n in add && m'[n] != m[n] ==>
          CanClaim(m[n], vgr) && (m'[n] == m[n].(vgrOwner := vgr) || m'[n] == Claimed(m[n], vgr)))
    && (forall n :: n in m && n in drop && n !in add && m'[n] != m[n] ==>
          && n in cache && cache[n] == m[n] && (m'[n] == m[n].(vgrOwner := "") || m'[n] == Released(m[n]))
          && (forall k :: k in m && k in add ==> k in cache && Claimable(m[k], cache[k], vgr) && m'[k] == AfterClaim(m[k], cache[k], vgr)))
  }

  /** p has lost its owner and the finalizer, and nothing else. */
  predicate Freed(p: Pvc, p': Pvc) { p'.vgrOwner == "" && !p'.fin && p'.vrOwner == p.vrOwner }

  /** p, which had no other VGR's annotation, has got this owner and the finalizer, and nothing else. */
  predicate Taken(p: Pvc, p': Pvc, vgr: string) {
    p'.vgrOwner == vgr && p'.fin && p'.vrOwner == p.vrOwner && (p.vgrOwner == "" || (p.vgrOwner == vgr && p.vrOwner == ""))
  }

  /** The API server; after failAfter more writes, every write fails. */
  class Api {
    var pvcs: Pvcs
    var failAfter: nat
    var writes: nat

    constructor (pvcs: Pvcs, failAfter: nat)
      ensures this.pvcs == pvcs && this.failAfter == failAfter && writes == 0
    {
      this.pvcs, this.failAfter, writes := pvcs, failAfter, 0;
    }

    /** A compare-and-swap. */
    method Update(name: string, read: Pvc, p: Pvc) returns (ok: bool)
      modifies this
      ensures ok == (old(failAfter) > 0 && name in old(pvcs) && old(pvcs)[name] == read)
      ensures pvcs == if ok then old(pvcs)[name := p] else old(pvcs)
      ensures writes == (if ok then old(writes) + 1 else old(writes)) && failAfter == (if ok then old(failAfter) - 1 else old(failAfter))
    {
      ok := failAfter > 0 && name in pvcs && pvcs[name] == read;
      if ok {
        pvcs, failAfter, writes := pvcs[name := p], failAfter - 1, writes + 1;
      }
    }

    /** annotatePVCWithOwner followed by addFinalizerToPVC, on a copy of the PVC. */
    method Claim(name: string, copy: Pvc, vgr: string) returns (ok: bool)
      requires name in pvcs && vgr != ""
      modifies this
      ensures ok ==> Claimable(old(pvcs)[name], copy, vgr) && pvcs == old(pvcs)[name := AfterClaim(old(pvcs)[name], copy, vgr)]
      ensures !ok ==> failAfter == 0 || !Claimable(old(pvcs)[name], copy, vgr)
      ensures !ok ==> pvcs == old(pvcs) || (CanClaim(old(pvcs)[name], vgr) && pvcs == old(pvcs)[name := old(pvcs)[name].(vgrOwner := vgr)])
      ensures ok ==> (copy.vgrOwner == "" || (copy.vgrOwner == vgr && copy.vrOwner == ""))
      ensures ok && copy.vgrOwner == vgr && copy.fin ==> pvcs == old(pvcs) && writes == old(writes)
      ensures ok && !(copy.vgrOwner == vgr && copy.fin) ==> old(pvcs)[name] == copy && pvcs == old(pvcs)[name := Pvc(vgr, copy.vrOwner, true)]
      ensures !ok && failAfter > 0 && copy.vgrOwner in {"", vgr} && (copy.vgrOwner == "" || copy.vrOwner == "") ==>
                old(pvcs)[name] != copy && !(copy.vgrOwner == vgr && copy.fin)
      ensures writes >= old(writes)
    {
      var p := copy;
      if p.vrOwner != "" && p.vgrOwner != "" {
        return false;
      }
      if p.vgrOwner == "" {
        ok := Update(name, p, p.(vgrOwner := vgr));
        if !ok { return; }
        p := p.(vgrOwner := vgr);
      } else if p.vgrOwner != vgr {
        return false;
      }
      if !p.fin {
        ok := Update(name, p, p.(fin := true));
        if !ok { return; }
      }
      ok := true;
    }

    /** removeOwnerFromPVCAnnotation followed by removeFinalizerFromPVC, on a copy of the PVC. */
    method Release(name: string, copy: Pvc) returns (ok: bool)
      requires name in pvcs
      modifies this
      ensures ok ==> Releasable(old(pvcs)[name], copy) && pvcs == old(pvcs)[name := AfterRelease(old(pvcs)[name], copy)]
      ensures !ok ==> failAfter == 0 || !Releasable(old(pvcs)[name], copy)
      ensures !ok ==> pvcs == old(pvcs) || (old(pvcs)[name] == copy && pvcs == old(pvcs)[name := copy.(vgrOwner := "")])
      ensures ok && copy.vgrOwner == "" && !copy.fin ==> pvcs == old(pvcs) && writes == old(writes)
      ensures ok && (copy.vgrOwner != "" || copy.fin) ==> old(pvcs)[name] == copy && pvcs == old(pvcs)[name := Pvc("", copy.vrOwner, false)]
      ensures !ok && failAfter > 0 ==> old(pvcs)[name] != copy && (copy.vgrOwner != "" || copy.fin)
      ensures writes >= old(writes)
    {
      var p := copy;
      if p.vgrOwner != "" {
        ok := Update(name, p, p.(vgrOwner := ""));
        if !ok { return; }
        p := p.(vgrOwner := "");
      }
      if p.fin {
        ok := Update(name, p, p.(fin := false));
        if !ok { return; }
      }
      ok := true;
    }
  }

  /**
   updateFinalizerAndAnnotationOnPVCs: list is the VGR's status, selected what the selector matches in the
   cache, which may lag behind the API server.
   */
  method UpdatePvcs(api: Api, cache: Pvcs, vgr: string, list: seq<string>, selected: seq<string>) returns (ok: bool, refs: seq<string>)
    requires vgr != "" && cache.Keys <= api.pvcs.Keys && (forall n :: n in selected ==> n in cache)
    requires forall i, j :: 0 <= i < j < |selected| ==> selected[i] != selected[j]
    modifies api
    ensures ok ==> refs == selected && Names(list) - Names(selected) <= cache.Keys
    ensures ok ==> forall n :: n in selected && n !in list ==> Claimable(old(api.pvcs)[n], cache[n], vgr)
    ensures ok ==> forall n :: n in list && n !in selected ==> Releasable(old(api.pvcs)[n], cache[n])
    ensures ok ==> api.pvcs == Moved(old(api.pvcs), cache, vgr, Names(selected) - Names(list), Names(list) - Names(selected))
    ensures !ok ==> api.failAfter == 0 || (exists n :: n in selected && n !in list && !Claimable(old(api.pvcs)[n], cache[n], vgr))
                    || (exists n :: n in list && n !in selected && (n !in cache || !Releasable(old(api.pvcs)[n], cache[n])))
    ensures Underway(old(api.pvcs), api.pvcs, cache, vgr, Names(selected) - Names(list), Names(list) - Names(selected))
    ensures ok ==> forall n :: n in list && n !in selected ==>
      Freed(old(api.pvcs)[n], api.pvcs[n]) || (api.pvcs[n] == old(api.pvcs)[n] && cache[n].vgrOwner == "" && !cache[n].fin)
    ensures ok ==> forall n :: n in selected && n !in list ==>
      Taken(old(api.pvcs)[n], api.pvcs[n], vgr) || (api.pvcs[n] == old(api.pvcs)[n] && cache[n].vgrOwner == vgr && cache[n].fin)
    ensures Names(list) == Names(selected) ==> api.writes == old(api.writes)
  {
    var toAdd, refs' := Compare(Names(list), selected);
    refs := refs';
    var found, toRemove := FindRemoved(cache, Names(list), selected);
    if !found {
      ghost var n :| n in Names(list) - Names(selected) && n !in cache;
      return false, [];
    }
    if Names(list) == Names(selected) {
      assert Names(toAdd) == {} && Names(toRemove) == {};
      SomeName(toAdd);
      SomeName(toRemove);
    }
    InNames(toAdd, toRemove, list, selected);
    ok := AddAndRemove(api, cache, vgr, toAdd, toRemove);
    if ok {
      MovedFields(old(api.pvcs), cache, vgr, Names(selected) - Names(list), Names(list) - Names(selected));
    }
  }

  /** What moving the PVCs does to each of them. */
  lemma MovedFields(m: Pvcs, cache: Pvcs, vgr: string, add: set<string>, drop: set<string>)
    requires add !! drop && add + drop <= cache.Keys && add + drop <= m.Keys
    requires forall n :: n in add ==> Claimable(m[n], cache[n], vgr)
    requires forall n :: n in drop ==> Releasable(m[n], cache[n])
    ensures var m' := Moved(m, cache, vgr, add, drop);
      && (forall n :: n in drop ==> Freed(m[n], m'[n]) || (m'[n] == m[n] && cache[n].vgrOwner == "" && !cache[n].fin))
      && (forall n :: n in add ==> Taken(m[n], m'[n], vgr) || (m'[n] == m[n] && cache[n].vgrOwner == vgr && cache[n].fin))
  {
  }

  lemma InNames(toAdd: seq<string>, toRemove: seq<string>, list: seq<string>, selected: seq<string>)
    requires Names(toAdd) == Names(selected) - Names(list) && Names(toRemove) == Names(list) - Names(selected)
    ensures forall n :: n in toAdd <==> n in selected && n !in list
    ensures forall n :: n in toRemove <==> n in list && n !in selected
  {
    forall n
      ensures (n in toAdd <==> n in selected && n !in list) && (n in toRemove <==> n in list && n !in selected)
    {
      assert (n in toAdd <==> n in Names(toAdd)) && (n in toRemove <==> n in Names(toRemove));
      assert (n in list <==> n in Names(list)) && (n in selected <==> n in Names(selected));
    }
  }

  method AddAndRemove(api: Api, cache: Pvcs, vgr: string, toAdd: seq<string>, toRemove: seq<string>) returns (ok: bool)
    requires vgr != "" && cache.Keys <= api.pvcs.Keys
    requires (forall n :: n in toAdd || n in toRemove ==> n in cache) && (forall n :: n in toAdd ==> n !in toRemove)
    requires forall i, j :: 0 <= i < j < |toAdd| ==> toAdd[i] != toAdd[j]
    requires forall i, j :: 0 <= i < j < |toRemove| ==> toRemove[i] != toRemove[j]
    modifies api
    ensures ok ==> forall n :: n in toAdd ==> Claimable(old(api.pvcs)[n], cache[n], vgr)
    ensures ok ==> forall n :: n in toRemove ==> Releasable(old(api.pvcs)[n], cache[n])
    ensures ok ==> api.pvcs == Moved(old(api.pvcs), cache, vgr, Names(toAdd), Names(toRemove))
    ensures !ok ==> api.failAfter == 0 || (exists n :: n in toAdd && !Claimable(old(api.pvcs)[n], cache[n], vgr))
                    || (exists n :: n in toRemove && !Releasable(old(api.pvcs)[n], cache[n]))
    ensures Underway(old(api.pvcs), api.pvcs, cache, vgr, Names(toAdd), Names(toRemove))
    ensures toAdd == [] == toRemove ==> ok && api.writes == old(api.writes)
  {
    ok := Additions(api, cache, vgr, toAdd);
    if !ok { return; }
    ghost var m1 := api.pvcs;
    ok := Removals(api, cache, toRemove);
    RemovalsUnderway(old(api.pvcs), m1, api.pvcs, cache, vgr, Names(toAdd), Names(toRemove));
  }

  method Compare(oldNames: set<string>, selected: seq<string>) returns (toAdd: seq<string>, refs: seq<string>)
    requires forall i, j :: 0 <= i < j < |selected| ==> selected[i] != selected[j]
    ensures refs == selected && Names(toAdd) == Names(selected) - oldNames
    ensures forall i, j :: 0 <= i < j < |toAdd| ==> toAdd[i] != toAdd[j]
    ensures forall i :: 0 <= i < |toAdd| ==> toAdd[i] in selected
  {
    toAdd, refs := [], [];
    for i := 0 to |selected|
      invariant refs == selected[..i]
      invariant Names(toAdd) == Names(selected[..i]) - oldNames
      invariant forall a, b :: 0 <= a < b < |toAdd| ==> toAdd[a] != toAdd[b]
      invariant forall a :: 0 <= a < |toAdd| ==> toAdd[a] in selected[..i]
    {
      assert selected[..i + 1] == selected[..i] + [selected[i]];
      NamesAppend(selected[..i], selected[i]);
      refs := refs + [selected[i]];
      if selected[i] !in oldNames {
        NamesAppend(toAdd, selected[i]);
        toAdd := toAdd + [selected[i]];
      }
    }
    assert selected[..|selected|] == selected;
  }

  /** Fetches every PVC that left the selection, in no particular order; fails if the cache lacks one. */
  method FindRemoved(cache: Pvcs, oldNames: set<string>, selected: seq<string>) returns (ok: bool, toRemove: seq<string>)
    ensures ok ==> Names(toRemove) == oldNames - Names(selected)
    ensures ok ==> forall i :: 0 <= i < |toRemove| ==> toRemove[i] in cache
    ensures ok ==> forall i, j :: 0 <= i < j < |toRemove| ==> toRemove[i] != toRemove[j]
    ensures ok <==> oldNames - Names(selected) <= cache.Keys
  {
    toRemove := [];
    var rest := oldNames;
    while rest != {}
      invariant rest <= oldNames
      invariant Names(toRemove) == (oldNames - rest) - Names(selected)
      invariant forall i, j :: 0 <= i < j < |toRemove| ==> toRemove[i] != toRemove[j]
      invariant forall i :: 0 <= i < |toRemove| ==> toRemove[i] in cache && toRemove[i] !in rest
      invariant Names(toRemove) <= cache.Keys
      decreases rest
    {
      var name :| name in rest;
      rest := rest - {name};
      if name !in selected {
        if name !in cache {
          return false, [];
        }
        NamesAppend(toRemove, name);
        toRemove := toRemove + [name];
      }
    }
    ok := true;
  }

  /** Removals that start only once every addition is complete. */
  lemma RemovalsUnderway(m: Pvcs, m1: Pvcs, m2: Pvcs, cache: Pvcs, vgr: string, add: set<string>, drop: set<string>)
    requires add !! drop && add <= cache.Keys && m1 == Moved(m, cache, vgr, add, {}) && m2.Keys == m1.Keys
    requires forall n :: n in add && n in m ==> Claimable(m[n], cache[n], vgr)
    requires forall n :: n in m2 && m2[n] != m1[n] ==>
      n in drop && n in cache && cache[n] == m1[n] && (m2[n] == m1[n].(vgrOwner := "") || m2[n] == Released(m1[n]))
    ensures Underway(m, m2, cache, vgr, add, drop)
  {
  }

  /** One more claim, done or failed. */
  lemma OneAdded(m: Pvcs, m1: Pvcs, m2: Pvcs, cache: Pvcs, vgr: string, done: set<string>, all: set<string>, n: string)
    requires done <= all <= cache.Keys && n in all && n !in done && n in m && m1 == Moved(m, cache, vgr, done, {})
    requires forall k :: k in done && k in m ==> Claimable(m[k], cache[k], vgr)
    ensures Claimable(m[n], cache[n], vgr) && m2 == m1[n := AfterClaim(m1[n], cache[n], vgr)] ==> m2 == Moved(m, cache, vgr, done + {n}, {})
    ensures m2 == m1 || (CanClaim(m1[n], vgr) && m2 == m1[n := m1[n].(vgrOwner := vgr)]) ==> Underway(m, m2, cache, vgr, all, {})
  {
  }

  method Additions(api: Api, cache: Pvcs, vgr: string, names: seq<string>) returns (ok: bool)
    requires vgr != "" && forall i :: 0 <= i < |names| ==> names[i] in api.pvcs && names[i] in cache
    requires forall i, j :: 0 <= i < j < |names| ==> names[i] != names[j]
    modifies api
    ensures ok ==> api.pvcs == Moved(old(api.pvcs), cache, vgr, Names(names), {})
    ensures ok ==> forall n :: n in names ==> Claimable(old(api.pvcs)[n], cache[n], vgr)
    ensures !ok ==> api.failAfter == 0 || exists n :: n in names && !Claimable(old(api.pvcs)[n], cache[n], vgr)
    ensures Underway(old(api.pvcs), api.pvcs, cache, vgr, Names(names), {})
    ensures names == [] ==> ok && api.writes == old(api.writes)
  {
    ok := true;
    for i := 0 to |names|
      invariant ok && api.pvcs == Moved(old(api.pvcs), cache, vgr, Names(names[..i]), {})
      invariant forall n :: n in names[..i] ==> Claimable(old(api.pvcs)[n], cache[n], vgr)
      invariant names == [] ==> api.writes == old(api.writes)
    {
      ghost var m1 := api.pvcs;
      ok := api.Claim(names[i], cache[names[i]], vgr);
      assert names[..i + 1] == names[..i] + [names[i]];
      NamesAppend(names[..i], names[i]);
      assert names[i] !in names[..i];
      OneAdded(old(api.pvcs), m1, api.pvcs, cache, vgr, Names(names[..i]), Names(names), names[i]);
      if !ok { return; }
    }
    assert names[..|names|] == names;
  }

  method Removals(api: Api, cache: Pvcs, names: seq<string>) returns (ok: bool)
    requires forall i :: 0 <= i < |names| ==> names[i] in api.pvcs && names[i] in cache
    requires forall i, j :: 0 <= i < j < |names| ==> names[i] != names[j]
    modifies api
    ensures ok ==> api.pvcs == Moved(old(api.pvcs), cache, "", {}, Names(names))
    ensures ok ==> forall n :: n in names ==> Releasable(old(api.pvcs)[n], cache[n])
    ensures !ok ==> api.failAfter == 0 || exists n :: n in names && !Releasable(old(api.pvcs)[n], cache[n])
    ensures api.pvcs.Keys == old(api.pvcs.Keys)
    ensures forall n :: n in api.pvcs && api.pvcs[n] != old(api.pvcs)[n] ==>
              n in names && cache[n] == old(api.pvcs)[n]
              && (api.pvcs[n] == old(api.pvcs)[n].(vgrOwner := "") || api.pvcs[n] == Released(old(api.pvcs)[n]))
    ensures names == [] ==> ok && api.writes == old(api.writes)
  {
    ok := true;
    for i := 0 to |names|
      invariant ok && api.pvcs == Moved(old(api.pvcs), cache, "", {}, Names(names[..i]))
      invariant forall n :: n in names[..i] ==> Releasable(old(api.pvcs)[n], cache[n])
      invariant names == [] ==> api.writes == old(api.writes)
    {
      ok := api.Release(names[i], cache[names[i]]);
      assert names[..i + 1] == names[..i] + [names[i]];
      if !ok { return; }
    }
    assert names[..|names|] == names;
  }

  // ----- One group: the update is an exact set difference -----

  /** The PVCs that vgr owns, all of them finalized, are exactly those in list. */
  ghost predicate OwnsExactly(m: Pvcs, vgr: string, list: set<string>) {
    && list <= m.Keys
    && (forall n :: n in m ==> (m[n].vgrOwner == vgr <==> n in list))
    && (forall n :: n in list ==> m[n].fin)
  }

  /**
   The copy shows vgr's own last write: only vgr makes a PVC its own or gives it up, and nobody else changes the
   finalizer of a PVC that it owns.
   */
  predicate Shows(p: Pvc, c: Pvc, vgr: string) { (c.vgrOwner == vgr <==> p.vgrOwner == vgr) && (p.vgrOwner == vgr ==> c.fin == p.fin) }

  ghost predicate AllShown(m: Pvcs, cache: Pvcs, vgr: string, names: set<string>) {
    forall n :: n in names ==> n in m && n in cache && Shows(m[n], cache[n], vgr)
  }

  /**
   From a list that is exactly what the group owns, and copies that show its own writes, a successful update makes
   it own exactly the selection, leaves every other PVC alone, and takes no PVC from another group.
   */
  lemma UpdateIsExact(m: Pvcs, cache: Pvcs, vgr: string, list: set<string>, selected: set<string>)
    requires vgr != "" && OwnsExactly(m, vgr, list) && AllShown(m, cache, vgr, list + selected)
    requires forall n :: n in selected - list ==> Claimable(m[n], cache[n], vgr)
    requires forall n :: n in list - selected ==> Releasable(m[n], cache[n])
    ensures var m' := Moved(m, cache, vgr, selected - list, list - selected);
      && OwnsExactly(m', vgr, selected)
      && (forall n :: n in m && n !in selected && n !in list ==> m'[n] == m[n])
      && (forall n :: n in m && m[n].vgrOwner != "" && m[n].vgrOwner != vgr ==> m'[n] == m[n])
      && (forall n :: n in list - selected ==> Freed(m[n], m'[n]))
      && (forall n :: n in selected - list ==> m'[n].vrOwner == m[n].vrOwner)
  {
  }

  /** A foreign owner survives even an update that fails half-way, on whatever copies. */
  lemma ForeignOwnerKept(m: Pvcs, m': Pvcs, cache: Pvcs, vgr: string, list: set<string>, selected: set<string>, n: string)
    requires vgr != "" && OwnsExactly(m, vgr, list) && Underway(m, m', cache, vgr, selected - list, list - selected)
    requires n in m && m[n].vgrOwner != "" && m[n].vgrOwner != vgr
    ensures m'[n] == m[n]
  {
  }

  // ----- Many groups with overlapping selectors -----

  /** The PVCs and the status list of every VGR. */
  datatype World = World(pvcs: Pvcs, lists: map<string, set<string>>)

  /** Every listed PVC carries exactly its VGR's annotation. */
  ghost predicate Labelled(w: World) {
    "" !in w.lists && forall v, n :: v in w.lists && n in w.lists[v] ==> n in w.pvcs && w.pvcs[n].vgrOwner == v
  }

  ghost predicate Disjoint(w: World) {
    forall v, u, n :: v in w.lists && u in w.lists && n in w.lists[v] && n in w.lists[u] ==> v == u
  }

  /** A reconcile of vgr on the copies in cache stores the new list, or fails and leaves the PVCs as after, with the list unchanged. */
  datatype Step =
    | Create(vgr: string)
    | Reconcile(vgr: string, selected: set<string>, cache: Pvcs)
    | FailedReconcile(vgr: string, selected: set<string>, cache: Pvcs, after: Pvcs)
    | Finish(vgr: string, cache: Pvcs)

  /** The updates of a reconcile go through. */
  ghost predicate GoesThrough(w: World, v: string, sel: set<string>, cache: Pvcs)
    requires v in w.lists
  {
    && (forall n :: n in sel - w.lists[v] ==> n in w.pvcs && n in cache && Claimable(w.pvcs[n], cache[n], v))
    && (forall n :: n in w.lists[v] - sel ==> n in w.pvcs && n in cache && Releasable(w.pvcs[n], cache[n]))
  }

  /** Names are not reused while a VGR exists; a failed reconcile leaves some state that Underway allows. */
  ghost predicate Possible(w: World, s: Step) {
    match s
    case Create(v) => v != "" && v !in w.lists
    case Reconcile(v, sel, cache) => v != "" && v in w.lists && sel <= w.pvcs.Keys && GoesThrough(w, v, sel, cache)
    case FailedReconcile(v, sel, cache, m) =>
      v != "" && v in w.lists && sel <= w.pvcs.Keys && Underway(w.pvcs, m, cache, v, sel - w.lists[v], w.lists[v] - sel)
    case Finish(v, cache) => v in w.lists && GoesThrough(w, v, {}, cache)
  }

  ghost function Next(w: World, s: Step): World {
    if !Possible(w, s) then w else
    match s
    case Create(v) => w.(lists := w.lists[v := {}])
    case Reconcile(v, sel, cache) => World(Moved(w.pvcs, cache, v, sel - w.lists[v], w.lists[v] - sel), w.lists[v := sel])
    case FailedReconcile(v, sel, cache, m) => w.(pvcs := m)
    case Finish(v, cache) => World(Moved(w.pvcs, cache, v, {}, w.lists[v]), w.lists - {v})
  }

  /** The reconcile of v takes nothing off a listed PVC: each dropped one conflicts, if any, or an addition is refused first. */
  ghost predicate DropsNothing(w: World, v: string, sel: set<string>, cache: Pvcs)
    requires v in w.lists
  {
    || (forall n :: n in w.lists[v] - sel ==> n !in cache || n !in w.pvcs || cache[n] != w.pvcs[n])
    || (exists n :: n in sel - w.lists[v] && n in w.pvcs && (n !in cache || !Claimable(w.pvcs[n], cache[n], v)))
  }

  /** Every failure that a reconcile of v can leave keeps the listed PVCs labelled. */
  ghost predicate FailsSafely(w: World, v: string, sel: set<string>, cache: Pvcs)
    requires v in w.lists
  {
    forall m: Pvcs :: Underway(w.pvcs, m, cache, v, sel - w.lists[v], w.lists[v] - sel) ==> Labelled(w.(pvcs := m))
  }

  lemma UnderwayKeeps(w: World, v: string, sel: set<string>, cache: Pvcs, m: Pvcs)
    requires Labelled(w) && v in w.lists && v != "" && DropsNothing(w, v, sel, cache)
    requires Underway(w.pvcs, m, cache, v, sel - w.lists[v], w.lists[v] - sel)
    ensures Labelled(w.(pvcs := m))
  {
  }

  /** All additions done and the one PVC n released: what a failure after that leaves. */
  function Dropped(m: Pvcs, cache: Pvcs, v: string, add: set<string>, n: string): Pvcs
    requires add + {n} <= cache.Keys
  {
    Moved(m, cache, v, add, {n})
  }

  /** A reconcile can fail at any point without harm exactly if it drops nothing. */
  lemma FailureCondition(w: World, v: string, sel: set<string>, cache: Pvcs)
    requires Labelled(w) && v in w.lists && sel <= w.pvcs.Keys
    ensures FailsSafely(w, v, sel, cache) <==> DropsNothing(w, v, sel, cache)
  {
    if DropsNothing(w, v, sel, cache) {
      forall m: Pvcs | Underway(w.pvcs, m, cache, v, sel - w.lists[v], w.lists[v] - sel)
        ensures Labelled(w.(pvcs := m))
      {
        UnderwayKeeps(w, v, sel, cache, m);
      }
    } else {
      var add := sel - w.lists[v];
      var n :| n in w.lists[v] - sel && n in cache && n in w.pvcs && cache[n] == w.pvcs[n];
      var m := Dropped(w.pvcs, cache, v, add, n);
      assert Underway(w.pvcs, m, cache, v, add, w.lists[v] - sel);
      assert m[n].vgrOwner == "";
      assert !Labelled(w.(pvcs := m));
    }
  }

  /** ownWritesShown: the copies show the VGR's own writes; careful: reconciles fail only where they drop nothing. */
  datatype Rules = Rules(ownWritesShown: bool, careful: bool)

  ghost predicate Allowed(w: World, s: Step, r: Rules) {
    && Possible(w, s)
    && (r.ownWritesShown && s.Reconcile? ==> AllShown(w.pvcs, s.cache, s.vgr, s.selected - w.lists[s.vgr]))
    && (r.careful && s.FailedReconcile? ==> DropsNothing(w, s.vgr, s.selected, s.cache))
  }

  ghost predicate Trace(w: World, steps: seq<Step>, r: Rules)
    decreases |steps|
  {
    steps == [] || (Allowed(w, steps[0], r) && Trace(Next(w, steps[0]), steps[1..], r))
  }

  ghost function After(w: World, steps: seq<Step>): World
    decreases |steps|
  {
    if steps == [] then w else After(Next(w, steps[0]), steps[1..])
  }

  const STRICT := Rules(true, true)

  lemma StepKeepsLabels(w: World, s: Step)
    requires Labelled(w) && Allowed(w, s, STRICT)
    ensures Labelled(Next(w, s))
  {
    if s.FailedReconcile? { UnderwayKeeps(w, s.vgr, s.selected, s.cache, s.after); }
  }

  lemma {:induction false} StaysLabelled(w: World, steps: seq<Step>)
    requires Labelled(w) && Trace(w, steps, STRICT)
    ensures Labelled(After(w, steps))
    decreases |steps|
  {
    if steps != [] {
      StepKeepsLabels(w, steps[0]);
      StaysLabelled(Next(w, steps[0]), steps[1..]);
    }
  }

  lemma LabelledIsDisjoint(w: World)
    requires Labelled(w)
    ensures Disjoint(w)
  {
    forall v, u, n | v in w.lists && u in w.lists && n in w.lists[v] && n in w.lists[u]
      ensures v == u
    {
      assert v == w.pvcs[n].vgrOwner == u;
    }
  }

  /** However selectors overlap, caches lag and careful reconciles fail, no PVC is in two lists, and each carries its VGR's annotation. */
  lemma NeverShared(m: Pvcs, steps: seq<Step>)
    requires Trace(World(m, map[]), steps, STRICT)
    ensures Labelled(After(World(m, map[]), steps)) && Disjoint(After(World(m, map[]), steps))
  {
    StaysLabelled(World(m, map[]), steps);
    LabelledIsDisjoint(After(World(m, map[]), steps));
  }

  /** A finished VGR frees all its PVCs, and touches no other, exactly if no copy wrongly shows a PVC as free already. */
  lemma FinishFrees(m: Pvcs, steps: seq<Step>, v: string, cache: Pvcs)
    requires Trace(World(m, map[]), steps, STRICT) && Possible(After(World(m, map[]), steps), Finish(v, cache))
    ensures var w := After(World(m, map[]), steps);
      var w' := Next(w, Finish(v, cache));
      && v !in w'.lists && (forall n :: n in w.pvcs && n !in w.lists[v] ==> w'.pvcs[n] == w.pvcs[n])
      && ((forall n :: n in w.lists[v] ==> Freed(w.pvcs[n], w'.pvcs[n])) <==> forall n :: n in w.lists[v] ==> cache[n].vgrOwner != "" || cache[n].fin)
  {
    NeverShared(m, steps);
    var w := After(World(m, map[]), steps);
    MovedFields(w.pvcs, cache, v, {}, w.lists[v] - {});
    forall n | n in w.lists[v]
      ensures Freed(w.pvcs[n], Next(w, Finish(v, cache)).pvcs[n]) <==> cache[n].vgrOwner != "" || cache[n].fin
    {
    }
  }

  /** In every run, whatever its failures and copies: PVCs neither come nor go, and no VR owner annotation changes. */
  lemma {:induction false} RunKeepsVrOwner(w: World, steps: seq<Step>, r: Rules)
    requires Trace(w, steps, r)
    ensures After(w, steps).pvcs.Keys == w.pvcs.Keys
    ensures forall n :: n in w.pvcs ==> After(w, steps).pvcs[n].vrOwner == w.pvcs[n].vrOwner
    decreases |steps|
  {
    if steps != [] {
      assert forall n :: n in w.pvcs ==> Next(w, steps[0]).pvcs[n].vrOwner == w.pvcs[n].vrOwner;
      RunKeepsVrOwner(Next(w, steps[0]), steps[1..], r);
    }
  }

  /** No PVC carries the finalizer without an owner to take it off. */
  ghost predicate NoStrays(m: Pvcs) { forall n :: n in m && m[n].fin ==> m[n].vgrOwner != "" }

  lemma {:induction false} NeverStray(w: World, steps: seq<Step>, r: Rules)
    requires r.careful && Trace(w, steps, r) && NoStrays(w.pvcs)
    ensures NoStrays(After(w, steps).pvcs)
    decreases |steps|
  {
    if steps != [] {
      StepLeavesNoStray(w, steps[0], r);
      NeverStray(Next(w, steps[0]), steps[1..], r);
    }
  }

  lemma StepLeavesNoStray(w: World, s: Step, r: Rules)
    requires r.careful && Allowed(w, s, r) && NoStrays(w.pvcs)
    ensures NoStrays(Next(w, s).pvcs)
  {
  }

  // ----- Runs that break each rule -----

  const FREE := Pvc("", "", false)

  function Of(v: string): Pvc { Pvc(v, "", true) }

  /** Two VGRs and one PVC that both select. */
  datatype Names3 = Names3(a: string, b: string, p: string)

  predicate Distinct3(x: Names3) { x.a != x.b && x.a != "" && x.b != "" }

  function One(x: Names3, c: Pvc): Pvcs { map[x.p := c] }

  function Listed(x: Names3, yes: bool): set<string> { if yes then {x.p} else {} }

  /** The PVC, and whether a and b list it. */
  function Now(x: Names3, c: Pvc, byA: bool, byB: bool): World { World(One(x, c), map[x.a := Listed(x, byA), x.b := Listed(x, byB)]) }

  ghost predicate CanShare(w: World, r: Rules) { exists steps: seq<Step> :: Trace(w, steps, r) && !Disjoint(After(w, steps)) }

  lemma Goes(w: World, s: Step, w': World, r: Rules)
    requires Allowed(w, s, r) && Next(w, s) == w' && CanShare(w', r)
    ensures CanShare(w, r)
  {
    var rest: seq<Step> :| Trace(w', rest, r) && !Disjoint(After(w', rest));
    assert ([s] + rest)[1..] == rest;
    assert Trace(w, [s] + rest, r) && After(w, [s] + rest) == After(w', rest);
  }

  /** What v's reconcile does that adds the PVC, on the copy. */
  lemma Adds(x: Names3, c: Pvc, copy: Pvc, v: string)
    ensures Listed(x, true) - Listed(x, false) == {x.p} && Listed(x, false) - Listed(x, true) == {}
    ensures Moved(One(x, c), One(x, copy), v, {x.p}, {}) == One(x, AfterClaim(c, copy, v))
    ensures Moved(One(x, c), One(x, copy), v, {}, {x.p}) == One(x, AfterRelease(c, copy))
  {
  }

  /** b takes over the PVC, which a lists without owning it. */
  lemma TakenOver(x: Names3, r: Rules)
    requires Distinct3(x)
    ensures CanShare(Now(x, FREE, true, false), r)
  {
    var w := Now(x, Of(x.b), true, true);
    assert x.p in w.lists[x.a] && x.p in w.lists[x.b];
    assert Trace(w, [], r) && !Disjoint(After(w, []));
    Adds(x, FREE, FREE, x.b);
    Goes(Now(x, FREE, true, false), Reconcile(x.b, {x.p}, One(x, FREE)), w, r);
  }

  lemma BothCreated(x: Names3, r: Rules)
    requires Distinct3(x) && CanShare(Now(x, FREE, false, false), r)
    ensures CanShare(World(One(x, FREE), map[]), r)
  {
    var w := World(One(x, FREE), map[x.a := {}]);
    assert Next(w, Create(x.b)) == Now(x, FREE, false, false);
    Goes(w, Create(x.b), Now(x, FREE, false, false), r);
    Goes(World(One(x, FREE), map[]), Create(x.a), w, r);
  }

  lemma ClaimedByA(x: Names3, r: Rules)
    requires Distinct3(x) && CanShare(Now(x, Of(x.a), true, false), r)
    ensures CanShare(Now(x, FREE, false, false), r)
  {
    Adds(x, FREE, FREE, x.a);
    Goes(Now(x, FREE, false, false), Reconcile(x.a, {x.p}, One(x, FREE)), Now(x, Of(x.a), true, false), r);
  }

  lemma DroppedByA(x: Names3, r: Rules)
    requires Distinct3(x) && CanShare(Now(x, FREE, false, false), r)
    ensures CanShare(Now(x, Of(x.a), true, false), r)
  {
    Adds(x, Of(x.a), Of(x.a), x.a);
    Goes(Now(x, Of(x.a), true, false), Reconcile(x.a, {}, One(x, Of(x.a))), Now(x, FREE, false, false), r);
  }

  /** a drops the PVC but loses its status write, and b, whose selector matches it too, takes it over while a still lists it. */
  lemma LostStatusWriteShares(x: Names3, r: Rules)
    requires Distinct3(x) && !r.careful
    ensures CanShare(World(One(x, FREE), map[]), r)
  {
    TakenOver(x, r);
    Goes(Now(x, Of(x.a), true, false), FailedReconcile(x.a, {}, One(x, Of(x.a)), One(x, FREE)), Now(x, FREE, true, false), r);
    ClaimedByA(x, r);
    BothCreated(x, r);
  }

  /** a lists the PVC again on a copy that still shows it as its own: nothing is written. */
  lemma RelistedByA(x: Names3, r: Rules)
    requires Distinct3(x) && !r.ownWritesShown && CanShare(Now(x, FREE, true, false), r)
    ensures CanShare(Now(x, FREE, false, false), r)
  {
    Adds(x, FREE, Of(x.a), x.a);
    Goes(Now(x, FREE, false, false), Reconcile(x.a, {x.p}, One(x, Of(x.a))), Now(x, FREE, true, false), r);
  }

  /** a claims the PVC, drops it, and lists it again on the stale copy; then b takes it, and no reconcile failed. */
  lemma StaleCopyShares(x: Names3, r: Rules)
    requires Distinct3(x) && !r.ownWritesShown
    ensures CanShare(World(One(x, FREE), map[]), r)
  {
    TakenOver(x, r);
    RelistedByA(x, r);
    DroppedByA(x, r);
    ClaimedByA(x, r);
    BothCreated(x, r);
  }

  ghost predicate NeverShares(r: Rules) {
    forall m: Pvcs, steps: seq<Step> :: Trace(World(m, map[]), steps, r) ==> Disjoint(After(World(m, map[]), steps))
  }

  /** Over all runs no PVC is shared, exactly if reconciles see the VGR's own writes and fail only where they drop nothing. */
  lemma SharingCondition(r: Rules)
    ensures NeverShares(r) <==> r.ownWritesShown && r.careful
  {
    if r.ownWritesShown && r.careful {
      forall m: Pvcs, steps: seq<Step> | Trace(World(m, map[]), steps, r)
        ensures Disjoint(After(World(m, map[]), steps))
      {
        NeverShared(m, steps);
      }
    } else {
      var x := Names3("a", "b", "p");
      assert "a" != "b";
      if r.careful { StaleCopyShares(x, r); } else { LostStatusWriteShares(x, r); }
      var w := World(One(x, FREE), map[]);
      var steps: seq<Step> :| Trace(w, steps, r) && !Disjoint(After(w, steps));
      assert !NeverShares(r);
    }
  }

  ghost predicate NeverStrays(r: Rules) {
    forall m: Pvcs, steps: seq<Step> :: NoStrays(m) && Trace(World(m, map[]), steps, r) ==> NoStrays(After(World(m, map[]), steps).pvcs)
  }

  /** a claims the PVC, and its reconcile that drops it fails between the two writes. */
  lemma HalfReleased(x: Names3, r: Rules) returns (steps: seq<Step>)
    requires Distinct3(x) && !r.careful
    ensures Trace(World(One(x, FREE), map[]), steps, r) && !NoStrays(After(World(One(x, FREE), map[]), steps).pvcs)
  {
    var w0 := World(One(x, FREE), map[]);
    var w1 := World(One(x, FREE), map[x.a := {}]);
    var w2 := World(One(x, Of(x.a)), map[x.a := {x.p}]);
    var half := One(x, Of(""));
    var s1, s2 := Reconcile(x.a, {x.p}, One(x, FREE)), FailedReconcile(x.a, {}, One(x, Of(x.a)), half);
    Adds(x, FREE, FREE, x.a);
    assert Allowed(w1, s1, r) && Next(w1, s1) == w2;
    assert Allowed(w2, s2, r) && Next(w2, s2).pvcs == half;
    assert half[x.p].fin && half[x.p].vgrOwner == "";
    steps := [Create(x.a), s1, s2];
    assert steps[1..] == [s1, s2] && [s1, s2][1..] == [s2] && [s2][1..] == [];
    assert Trace(Next(w2, s2), [], r) && Trace(w2, [s2], r) && Trace(w1, [s1, s2], r);
    assert After(w2, [s2]) == Next(w2, s2) && After(w1, [s1, s2]) == Next(w2, s2) && After(w0, steps) == Next(w2, s2);
  }

  /** Over all runs no finalizer stays without its owner, exactly if reconciles fail only where they drop nothing. */
  lemma StrayCondition(r: Rules)
    ensures NeverStrays(r) <==> r.careful
  {
    if r.careful {
      forall m: Pvcs, steps: seq<Step> | NoStrays(m) && Trace(World(m, map[]), steps, r)
        ensures NoStrays(After(World(m, map[]), steps).pvcs)
      {
        NeverStray(World(m, map[]), steps, r);
      }
    } else {
      var x := Names3("a", "b", "p");
      assert "a" != "b";
      var steps := HalfReleased(x, r);
      assert NoStrays(One(x, FREE));
    }
  }
}
