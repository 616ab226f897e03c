/**
 The group-replication protocol as a transition system.

 Three controllers (VolumeGroupReplication, its content, and the VolumeReplication) share three
 API objects and one volume group on the storage backend.  Every step is one cache read, one API
 write or one RPC, so an arbitrary sequence of actions is an arbitrary interleaving:

 - every object keeps the log of all its versions, and the manager's informer cache is a position
   in that log which only moves forward, so each read may be stale;
 - a write carries the version it was computed from and is accepted only if that is the newest one
   (and even then it may be refused);
 - each controller runs one reconcile at a time, which may be cut short after any step;
 - an object marked for deletion vanishes with its last finalizer.
 */
module GroupModel {
  import opened Wrappers

  // ----- Versioned API objects behind an informer cache -----

  /** All versions of one named object (None: it does not exist), the newest last, and the cache's position. */
  datatype Log<T> = Log(past: seq<Option<T>>, latest: Option<T>, cached: nat)

  function Last<T>(l: Log<T>): nat { |l.past| }

  function Version<T>(l: Log<T>, at: nat): Option<T> { if at < |l.past| then l.past[at] else l.latest }

  function Cached<T>(l: Log<T>): Option<T> { Version(l, l.cached) }

  function Append<T>(l: Log<T>, x: Option<T>): Log<T> { Log(l.past + [l.latest], x, l.cached) }

  function Sync<T>(l: Log<T>): Log<T> {
    if l.cached < Last(l) then l.(cached := l.cached + 1) else l
  }

  /** The compare-and-swap test of the API server; ok is false when the write fails regardless. */
  predicate Accepts<T>(l: Log<T>, at: nat, ok: bool) {
    ok && at == Last(l) && l.latest.Some?
  }

  /** A write to fields that the protocol does not read. */
  function Touch<T>(l: Log<T>): Log<T> {
    if l.latest.Some? then Append(l, l.latest) else l
  }

  /** VolumeGroupReplication: vrOwner and contentOwner are the two owner annotations. */
  datatype Vgr = Vgr(deleting: bool, fin: bool, vrOwner: bool, contentOwner: bool,
                     contentNamed: bool, vrNamed: bool, pvcs: set<string>)

  /** VolumeGroupReplicationContent: vgrFin is its own finalizer, vrFin the guard the VR puts on it. */
  datatype Content = Content(deleting: bool, vgrFin: bool, vrFin: bool, handle: bool)

  /** VolumeReplication. */
  datatype Vr = Vr(deleting: bool, fin: bool)

  function SettleVgr(g: Vgr): Option<Vgr> { if g.deleting && !g.fin then None else Some(g) }

  function SettleContent(c: Content): Option<Content> {
    if c.deleting && !c.vgrFin && !c.vrFin then None else Some(c)
  }

  function SettleVr(v: Vr): Option<Vr> { if v.deleting && !v.fin then None else Some(v) }

  /** Deleting an object that is already marked changes nothing. */
  function MarkVgr(l: Log<Vgr>): Log<Vgr> {
    if l.latest.Some? && !l.latest.value.deleting then Append(l, SettleVgr(l.latest.value.(deleting := true))) else l
  }

  function MarkContent(l: Log<Content>): Log<Content> {
    if l.latest.Some? && !l.latest.value.deleting then Append(l, SettleContent(l.latest.value.(deleting := true))) else l
  }

  function MarkVr(l: Log<Vr>): Log<Vr> {
    if l.latest.Some? && !l.latest.value.deleting then Append(l, SettleVr(l.latest.value.(deleting := true))) else l
  }

  // ----- Reconciles in flight -----

  datatype VrPc =
    | VIdle | VFetchVgr | VFetchContent
    | VAddFin | VOwnVgr | VGuard | VUpdate | VEnable
    | VDisable | VUnguard | VDisown | VDropFin

  datatype VrTask = VrTask(pc: VrPc, vr: Vr, vrAt: nat, vgr: Vgr, vgrAt: nat,
                           content: Option<Content>, contentAt: nat)

  datatype ContentPc =
    | CIdle | CFetchVgr
    | COwnVgr | CAddFin | CCreate | CRecord
    | CDelete | CDisown | CDropFin

  datatype ContentTask = ContentTask(pc: ContentPc, content: Content, contentAt: nat, vgr: Vgr, vgrAt: nat)

  datatype VgrPc =
    | GIdle
    | GAddFin | GSelect | GContent | GNameContent | GVr | GNameVr
    | GDelVr | GDelContent | GRelease | GDropFin

  datatype VgrTask = VgrTask(pc: VgrPc, vgr: Vgr, vgrAt: nat, sawHandle: bool)

  /** The storage backend's volume group, whether replication is enabled on it, and the PVCs marked as grouped. */
  datatype Backend = Backend(group: bool, enabled: bool, held: set<string>)

  /**
   What happened so far, for stating properties only: a group handle was recorded; the content came
   from the VGR controller; its owner annotation was taken off again; the versions that the VR
   controller's newest writes to the other two objects produced.
   */
  datatype Memo = Memo(recorded: bool, dynamic: bool, disowned: bool, vrWroteVgr: nat, vrWroteContent: nat)

  datatype State = State(
    vgr: Log<Vgr>, content: Log<Content>, vr: Log<Vr>,
    vrTask: VrTask, contentTask: ContentTask, vgrTask: VgrTask, back: Backend, memo: Memo)

  /**
   ownWritesVisible: when the VR controller reads the VGR or the content, the cache already shows
   its own last write to that object.  vrRecreated: a VR that is gone may be created again.
   */
  datatype Rules = Rules(ownWritesVisible: bool, vrRecreated: bool)

  datatype WorldAction =
    | SyncVgr | SyncContent | SyncVr
    | TouchVgr | TouchContent | TouchVr
    | UserDeletesVgr | UserDeletesContent | UserDeletesVr
    | AdminAddsContent

  datatype VrSetupAction =
    | VrAbort | VrBegin | VrFetchVgr | VrFetchContent
    | VrAddFin(ok: bool) | VrOwnVgr(ok: bool) | VrGuard(ok: bool) | VrUpdate(ok: bool) | VrEnable(call: bool, took: bool)

  datatype VrTeardownAction = VrDisable(ok: bool, took: bool) | VrUnguard(ok: bool) | VrDisown(ok: bool) | VrDropFin(ok: bool)

  datatype ContentSetupAction =
    | ContentAbort | ContentBegin | ContentFetchVgr
    | ContentOwnVgr(ok: bool) | ContentAddFin(ok: bool) | ContentCreate(ok: bool, took: bool) | ContentRecord(ok: bool)

  datatype ContentTeardownAction = ContentDelete(ok: bool, took: bool) | ContentDisown(ok: bool) | ContentDropFin(ok: bool)

  datatype VgrSetupAction =
    | VgrAbort | VgrBegin
    | VgrAddFin(ok: bool) | VgrSelect(list: set<string>, annotated: set<string>, released: set<string>, ok: bool)
    | VgrContent(ok: bool, change: bool) | VgrNameContent(ok: bool) | VgrVr(ok: bool, change: bool) | VgrNameVr(ok: bool)

  datatype VgrTeardownAction = VgrDelVr(ok: bool) | VgrDelContent(ok: bool) | VgrRelease(failed: set<string>) | VgrDropFin(ok: bool)

  datatype Action =
    | World(world: WorldAction)
    | VrSetup(vrSetup: VrSetupAction) | VrTeardown(vrTeardown: VrTeardownAction)
    | ContentSetup(contentSetup: ContentSetupAction) | ContentTeardown(contentTeardown: ContentTeardownAction)
    | VgrSetup(vgrSetup: VgrSetupAction) | VgrTeardown(vgrTeardown: VgrTeardownAction)

  // ----- The VolumeReplication controller -----

  function AbortVr(s: State): State { s.(vrTask := s.vrTask.(pc := VIdle)) }

  function BeginVr(s: State): State {
    if s.vrTask.pc.VIdle? && Cached(s.vr).Some? then
      s.(vrTask := s.vrTask.(pc := VFetchVgr, vr := Cached(s.vr).value, vrAt := s.vr.cached))
    else s
  }

  /**
   A missing VGR ends the reconcile: while setting up by the explicit error, while tearing down
   because the owner annotation is then looked up through a nil object before anything was written.
   */
  function FetchVgrVr(r: Rules, s: State): State {
    var t := s.vrTask;
    if !t.pc.VFetchVgr? || (r.ownWritesVisible && s.vgr.cached < s.memo.vrWroteVgr) then s
    else if Cached(s.vgr).None? || !Cached(s.vgr).value.contentNamed then AbortVr(s)
    else s.(vrTask := t.(pc := VFetchContent, vgr := Cached(s.vgr).value, vgrAt := s.vgr.cached))
  }

  function FetchContentVr(r: Rules, s: State): State {
    var t := s.vrTask.(content := Cached(s.content), contentAt := s.content.cached);
    if !t.pc.VFetchContent? || (r.ownWritesVisible && s.content.cached < s.memo.vrWroteContent) then s
    else if !t.vr.deleting then
      if t.content.None? then AbortVr(s) else s.(vrTask := t.(pc := VAddFin))
    else if !t.vr.fin then AbortVr(s)
    else if t.content.Some? && t.content.value.handle then s.(vrTask := t.(pc := VDisable))
    else s.(vrTask := t.(pc := VUnguard))
  }

  function AddFinVr(s: State, ok: bool): State {
    var t := s.vrTask;
    if !t.pc.VAddFin? then s
    else if t.vr.fin then s.(vrTask := t.(pc := VOwnVgr))
    else if !Accepts(s.vr, t.vrAt, ok) then AbortVr(s)
    else
      var x := t.vr.(fin := true);
      s.(vr := Append(s.vr, SettleVr(x)), vrTask := t.(pc := VOwnVgr, vr := x, vrAt := Last(s.vr) + 1))
  }

  function OwnVgrVr(s: State, ok: bool): State {
    var t := s.vrTask;
    if !t.pc.VOwnVgr? then s
    else if t.vgr.vrOwner then s.(vrTask := t.(pc := VGuard))
    else if !Accepts(s.vgr, t.vgrAt, ok) then AbortVr(s)
    else s.(vgr := Append(s.vgr, SettleVgr(t.vgr.(vrOwner := true))), memo := s.memo.(vrWroteVgr := Last(s.vgr) + 1),
            vrTask := t.(pc := VGuard))
  }

  function GuardVr(s: State, ok: bool): State {
    var t := s.vrTask;
    if !t.pc.VGuard? || t.content.None? then s
    else if t.content.value.vrFin then s.(vrTask := t.(pc := VUpdate))
    else if t.content.value.deleting || !Accepts(s.content, t.contentAt, ok) then AbortVr(s)
    else
      var c := t.content.value.(vrFin := true);
      s.(content := Append(s.content, SettleContent(c)), memo := s.memo.(vrWroteContent := Last(s.content) + 1),
         vrTask := t.(pc := VUpdate, content := Some(c), contentAt := Last(s.content) + 1))
  }

  function UpdateVr(s: State, ok: bool): State {
    var t := s.vrTask;
    if !t.pc.VUpdate? then s
    else if !Accepts(s.vr, t.vrAt, ok) then AbortVr(s)
    else s.(vr := Append(s.vr, SettleVr(t.vr)), vrTask := t.(pc := VEnable, vrAt := Last(s.vr) + 1))
  }

  /**
   Enable is called when the spec asks for a primary that the status does not show yet, and only
   with a group handle; took says whether the backend acted on it, whatever it answered.
   */
  function EnableVr(s: State, call: bool, took: bool): State {
    var t := s.vrTask;
    if !t.pc.VEnable? then s
    else if call && took && t.content.Some? && t.content.value.handle then AbortVr(s.(back := s.back.(enabled := true)))
    else AbortVr(s)
  }

  /** ok: success or NotFound. */
  function DisableVr(s: State, ok: bool, took: bool): State {
    if !s.vrTask.pc.VDisable? then s
    else if ok then s.(back := s.back.(enabled := false), vrTask := s.vrTask.(pc := VUnguard))
    else AbortVr(s.(back := s.back.(enabled := s.back.enabled && !took)))
  }

  function UnguardVr(s: State, ok: bool): State {
    var t := s.vrTask;
    if !t.pc.VUnguard? then s
    else if t.content.None? || !t.content.value.vrFin then s.(vrTask := t.(pc := VDisown))
    else if !Accepts(s.content, t.contentAt, ok) then AbortVr(s)
    else
      var c := t.content.value.(vrFin := false);
      s.(content := Append(s.content, SettleContent(c)), memo := s.memo.(vrWroteContent := Last(s.content) + 1),
         vrTask := t.(pc := VDisown))
  }

  function DisownVr(s: State, ok: bool): State {
    var t := s.vrTask;
    if !t.pc.VDisown? then s
    else if !t.vgr.vrOwner then s.(vrTask := t.(pc := VDropFin))
    else if !Accepts(s.vgr, t.vgrAt, ok) then AbortVr(s)
    else s.(vgr := Append(s.vgr, SettleVgr(t.vgr.(vrOwner := false))), memo := s.memo.(vrWroteVgr := Last(s.vgr) + 1),
            vrTask := t.(pc := VDropFin))
  }

  function DropFinVr(s: State, ok: bool): State {
    var t := s.vrTask;
    if !t.pc.VDropFin? then s
    else if !Accepts(s.vr, t.vrAt, ok) then AbortVr(s)
    else AbortVr(s.(vr := Append(s.vr, SettleVr(t.vr.(fin := false)))))
  }

  // ----- The VolumeGroupReplicationContent controller -----

  function AbortContent(s: State): State { s.(contentTask := s.contentTask.(pc := CIdle)) }

  function BeginContent(s: State): State {
    if s.contentTask.pc.CIdle? && Cached(s.content).Some? then
      s.(contentTask := s.contentTask.(pc := CFetchVgr, content := Cached(s.content).value, contentAt := s.content.cached))
    else s
  }

  function FetchVgrContent(s: State): State {
    if !s.contentTask.pc.CFetchVgr? then s
    else if Cached(s.vgr).None? then AbortContent(s)
    else
      var t := s.contentTask.(vgr := Cached(s.vgr).value, vgrAt := s.vgr.cached);
      if !t.content.deleting then s.(contentTask := t.(pc := COwnVgr))
      else if !t.vgr.deleting || t.content.vrFin then AbortContent(s)
      else if t.content.handle then s.(contentTask := t.(pc := CDelete))
      else s.(contentTask := t.(pc := CDisown))
  }

  function OwnVgrContent(s: State, ok: bool): State {
    var t := s.contentTask;
    if !t.pc.COwnVgr? then s
    else if t.vgr.contentOwner then s.(contentTask := t.(pc := CAddFin))
    else if !Accepts(s.vgr, t.vgrAt, ok) then AbortContent(s)
    else s.(vgr := Append(s.vgr, SettleVgr(t.vgr.(contentOwner := true))), contentTask := t.(pc := CAddFin))
  }

  /** Ends with the choice between creating the group and modifying its membership. */
  function AddFinContent(s: State, ok: bool): State {
    var t := s.contentTask;
    var next := if t.content.handle then CIdle else CCreate;
    if !t.pc.CAddFin? then s
    else if t.content.vgrFin then s.(contentTask := t.(pc := next))
    else if !Accepts(s.content, t.contentAt, ok) then AbortContent(s)
    else
      var c := t.content.(vgrFin := true);
      s.(content := Append(s.content, SettleContent(c)),
         contentTask := t.(pc := next, content := c, contentAt := Last(s.content) + 1))
  }

  function CreateGroup(s: State, ok: bool, took: bool): State {
    if !s.contentTask.pc.CCreate? then s
    else if ok then s.(back := s.back.(group := true), contentTask := s.contentTask.(pc := CRecord))
    else AbortContent(s.(back := s.back.(group := s.back.group || took)))
  }

  function RecordHandle(s: State, ok: bool): State {
    var t := s.contentTask;
    if !t.pc.CRecord? then s
    else if !Accepts(s.content, t.contentAt, ok) then AbortContent(s)
    else AbortContent(s.(content := Append(s.content, SettleContent(t.content.(handle := true))), memo := s.memo.(recorded := true)))
  }

  function DeleteGroup(s: State, ok: bool, took: bool): State {
    if !s.contentTask.pc.CDelete? then s
    else if ok then s.(back := s.back.(group := false), contentTask := s.contentTask.(pc := CDisown))
    else AbortContent(s.(back := s.back.(group := s.back.group && !took)))
  }

  function DisownContent(s: State, ok: bool): State {
    var t := s.contentTask;
    if !t.pc.CDisown? then s
    else if !t.vgr.contentOwner then s.(contentTask := t.(pc := CDropFin))
    else if !Accepts(s.vgr, t.vgrAt, ok) then AbortContent(s)
    else s.(vgr := Append(s.vgr, SettleVgr(t.vgr.(contentOwner := false))), memo := s.memo.(disowned := true),
            contentTask := t.(pc := CDropFin))
  }

  function DropFinContent(s: State, ok: bool): State {
    var t := s.contentTask;
    if !t.pc.CDropFin? then s
    else if !t.content.vgrFin || !Accepts(s.content, t.contentAt, ok) then AbortContent(s)
    else AbortContent(s.(content := Append(s.content, SettleContent(t.content.(vgrFin := false)))))
  }

  // ----- The VolumeGroupReplication controller -----

  function AbortVgr(s: State): State { s.(vgrTask := s.vgrTask.(pc := GIdle)) }

  function BeginVgr(s: State): State {
    if s.vgrTask.pc.GIdle? && Cached(s.vgr).Some? then
      var g := Cached(s.vgr).value;
      s.(vgrTask := VgrTask(if g.deleting then GDelVr else GAddFin, g, s.vgr.cached, false))
    else s
  }

  function AddFinVgr(s: State, ok: bool): State {
    var t := s.vgrTask;
    if !t.pc.GAddFin? then s
    else if t.vgr.fin then s.(vgrTask := t.(pc := GSelect))
    else if !Accepts(s.vgr, t.vgrAt, ok) then AbortVgr(s)
    else
      var g := t.vgr.(fin := true);
      s.(vgr := Append(s.vgr, SettleVgr(g)), vgrTask := t.(pc := GSelect, vgr := g, vgrAt := Last(s.vgr) + 1))
  }

  /** The PVC writes come first; the status list is written only when all of them succeeded. */
  function SelectPvcs(s: State, list: set<string>, annotated: set<string>, released: set<string>, ok: bool): State {
    var t := s.vgrTask;
    if !t.pc.GSelect? then s
    else
      var s' := s.(back := s.back.(held := s.back.held + (annotated * (list - t.vgr.pvcs)) - (released * (t.vgr.pvcs - list))));
      if !(list - t.vgr.pvcs <= annotated && t.vgr.pvcs - list <= released) then AbortVgr(s')
      else if list == t.vgr.pvcs then s'.(vgrTask := t.(pc := GContent))
      else if !Accepts(s.vgr, t.vgrAt, ok) then AbortVgr(s')
      else
        var g := t.vgr.(pvcs := list);
        s'.(vgr := Append(s.vgr, SettleVgr(g)), vgrTask := t.(pc := GContent, vgr := g, vgrAt := Last(s.vgr) + 1))
  }

  function MakeContent(s: State, ok: bool, change: bool): State {
    var t := s.vgrTask;
    if !t.pc.GContent? then s
    else if Cached(s.content).None? then
      if t.vgr.contentNamed || !ok || Last(s.content) != 0 then AbortVgr(s)
      else s.(content := Append(s.content, Some(Content(false, false, false, false))), memo := s.memo.(dynamic := true),
              vgrTask := t.(pc := GNameContent, sawHandle := false))
    else if change && !Accepts(s.content, s.content.cached, ok) then AbortVgr(s)
    else s.(content := if change then Touch(s.content) else s.content,
            vgrTask := t.(pc := GNameContent, sawHandle := Cached(s.content).value.handle))
  }

  /** Without a group handle in the copy just read there is nothing to replicate yet. */
  function NameContent(s: State, ok: bool): State {
    var t := s.vgrTask;
    var next := if t.sawHandle then GVr else GIdle;
    if !t.pc.GNameContent? then s
    else if t.vgr.contentNamed then s.(vgrTask := t.(pc := next))
    else if !Accepts(s.vgr, t.vgrAt, ok) then AbortVgr(s)
    else
      var g := t.vgr.(contentNamed := true);
      s.(vgr := Append(s.vgr, SettleVgr(g)), vgrTask := t.(pc := next, vgr := g, vgrAt := Last(s.vgr) + 1))
  }

  function MakeVr(r: Rules, s: State, ok: bool, change: bool): State {
    var t := s.vgrTask;
    if !t.pc.GVr? then s
    else if Cached(s.vr).None? then
      if !ok || s.vr.latest.Some? || (Last(s.vr) != 0 && !r.vrRecreated) then AbortVgr(s)
      else s.(vr := Append(s.vr, Some(Vr(false, false))), vgrTask := t.(pc := GNameVr))
    else if change && !Accepts(s.vr, s.vr.cached, ok) then AbortVgr(s)
    else s.(vr := if change then Touch(s.vr) else s.vr, vgrTask := t.(pc := GNameVr))
  }

  function NameVr(s: State, ok: bool): State {
    var t := s.vgrTask;
    if !t.pc.GNameVr? then s
    else if t.vgr.vrNamed || !Accepts(s.vgr, t.vgrAt, ok) then AbortVgr(s)
    else AbortVgr(s.(vgr := Append(s.vgr, SettleVgr(t.vgr.(vrNamed := true)))))
  }

  function DelVr(s: State, ok: bool): State {
    var t := s.vgrTask;
    if !t.pc.GDelVr? then s
    else if !t.vgr.vrNamed || Cached(s.vr).None? then s.(vgrTask := t.(pc := GDelContent))
    else if !ok || s.vr.latest.None? then AbortVgr(s)
    else s.(vr := MarkVr(s.vr), vgrTask := t.(pc := GDelContent))
  }

  /** Ends with isSafeToDeleteVGR on the copy of the VGR that this reconcile started from. */
  function DelContent(s: State, ok: bool): State {
    var t := s.vgrTask;
    var next := if t.vgr.vrOwner || t.vgr.contentOwner then GIdle else GRelease;
    if !t.pc.GDelContent? then s
    else if !t.vgr.contentNamed || Cached(s.content).None? then s.(vgrTask := t.(pc := next))
    else if !ok || s.content.latest.None? then AbortVgr(s)
    else s.(content := MarkContent(s.content), vgrTask := t.(pc := next))
  }

  /** Takes annotation and finalizer off the listed PVCs, except those for which a write fails. */
  function ReleasePvcs(s: State, failed: set<string>): State {
    var t := s.vgrTask;
    if !t.pc.GRelease? then s
    else
      var s' := s.(back := s.back.(held := s.back.held - (t.vgr.pvcs - failed)));
      if t.vgr.pvcs !! failed then s'.(vgrTask := t.(pc := GDropFin)) else AbortVgr(s')
  }

  function DropFinVgr(s: State, ok: bool): State {
    var t := s.vgrTask;
    if !t.pc.GDropFin? then s
    else if !t.vgr.fin || !Accepts(s.vgr, t.vgrAt, ok) then AbortVgr(s)
    else AbortVgr(s.(vgr := Append(s.vgr, SettleVgr(t.vgr.(fin := false)))))
  }

  // ----- Steps and runs -----

  function ApplyWorld(s: State, a: WorldAction): State {
    match a
    case SyncVgr => s.(vgr := Sync(s.vgr))
    case SyncContent => s.(content := Sync(s.content))
    case SyncVr => s.(vr := Sync(s.vr))
    case TouchVgr => s.(vgr := Touch(s.vgr))
    case TouchContent => s.(content := Touch(s.content))
    case TouchVr => s.(vr := Touch(s.vr))
    case UserDeletesVgr => s.(vgr := MarkVgr(s.vgr))
    case UserDeletesContent => s.(content := MarkContent(s.content))
    case UserDeletesVr => s.(vr := MarkVr(s.vr))
    case AdminAddsContent =>
      if Last(s.content) == 0 then s.(content := Append(s.content, Some(Content(false, false, false, true)))) else s
  }

  function ApplyVrSetup(r: Rules, s: State, a: VrSetupAction): State {
    match a
    case VrAbort => AbortVr(s)
    case VrBegin => BeginVr(s)
    case VrFetchVgr => FetchVgrVr(r, s)
    case VrFetchContent => FetchContentVr(r, s)
    case VrAddFin(ok) => AddFinVr(s, ok)
    case VrOwnVgr(ok) => OwnVgrVr(s, ok)
    case VrGuard(ok) => GuardVr(s, ok)
    case VrUpdate(ok) => UpdateVr(s, ok)
    case VrEnable(call, took) => EnableVr(s, call, took)
  }

  function ApplyVrTeardown(s: State, a: VrTeardownAction): State {
    match a
    case VrDisable(ok, took) => DisableVr(s, ok, took)
    case VrUnguard(ok) => UnguardVr(s, ok)
    case VrDisown(ok) => DisownVr(s, ok)
    case VrDropFin(ok) => DropFinVr(s, ok)
  }

  function ApplyContentSetup(s: State, a: ContentSetupAction): State {
    match a
    case ContentAbort => AbortContent(s)
    case ContentBegin => BeginContent(s)
    case ContentFetchVgr => FetchVgrContent(s)
    case ContentOwnVgr(ok) => OwnVgrContent(s, ok)
    case ContentAddFin(ok) => AddFinContent(s, ok)
    case ContentCreate(ok, took) => CreateGroup(s, ok, took)
    case ContentRecord(ok) => RecordHandle(s, ok)
  }

  function ApplyContentTeardown(s: State, a: ContentTeardownAction): State {
    match a
    case ContentDelete(ok, took) => DeleteGroup(s, ok, took)
    case ContentDisown(ok) => DisownContent(s, ok)
    case ContentDropFin(ok) => DropFinContent(s, ok)
  }

  function ApplyVgrSetup(r: Rules, s: State, a: VgrSetupAction): State {
    match a
    case VgrAbort => AbortVgr(s)
    case VgrBegin => BeginVgr(s)
    case VgrAddFin(ok) => AddFinVgr(s, ok)
    case VgrSelect(list, annotated, released, ok) => SelectPvcs(s, list, annotated, released, ok)
    case VgrContent(ok, change) => MakeContent(s, ok, change)
    case VgrNameContent(ok) => NameContent(s, ok)
    case VgrVr(ok, change) => MakeVr(r, s, ok, change)
    case VgrNameVr(ok) => NameVr(s, ok)
  }

  function ApplyVgrTeardown(s: State, a: VgrTeardownAction): State {
    match a
    case VgrDelVr(ok) => DelVr(s, ok)
    case VgrDelContent(ok) => DelContent(s, ok)
    case VgrRelease(failed) => ReleasePvcs(s, failed)
    case VgrDropFin(ok) => DropFinVgr(s, ok)
  }

  /** One step; an action that does not apply in s leaves s as it is. */
  function Apply(r: Rules, s: State, a: Action): State {
    match a
    case World(b) => ApplyWorld(s, b)
    case VrSetup(b) => ApplyVrSetup(r, s, b)
    case VrTeardown(b) => ApplyVrTeardown(s, b)
    case ContentSetup(b) => ApplyContentSetup(s, b)
    case ContentTeardown(b) => ApplyContentTeardown(s, b)
    case VgrSetup(b) => ApplyVgrSetup(r, s, b)
    case VgrTeardown(b) => ApplyVgrTeardown(s, b)
  }

  function Run(r: Rules, s: State, acts: seq<Action>): State
    decreases |acts|
  {
    if acts == [] then s else Apply(r, Run(r, s, acts[..|acts| - 1]), acts[|acts| - 1])
  }

  const NEW_VGR := Vgr(false, false, false, false, false, false, {})
  const NEW_CONTENT := Content(false, false, false, false)

  /** A freshly created VGR, naming an existing content or none; held are PVCs of other groups. */
  function Init(named: bool, held: set<string>): State {
    State(Log([], Some(NEW_VGR.(contentNamed := named)), 0), Log([], None, 0), Log([], None, 0),
          VrTask(VIdle, Vr(false, false), 0, NEW_VGR, 0, None, 0),
          ContentTask(CIdle, NEW_CONTENT, 0, NEW_VGR, 0),
          VgrTask(GIdle, NEW_VGR, 0, false),
          Backend(false, false, held), Memo(false, false, false, 0, 0))
  }

  /** The content controller is about to call DeleteVolumeGroup. */
  predicate DeletesGroup(s: State, a: Action) {
    a.ContentTeardown? && a.contentTeardown.ContentDelete? && s.contentTask.pc.CDelete?
  }
}
