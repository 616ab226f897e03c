/**
 Network fence classes: each class is listed on the CSIAddonsNode objects of its driver that can
 report the clients to fence, and a deleted class waits until it is off these lists.
 */
module FenceClasses {
  datatype Capability = GetClientsToFence | Other

  /** The annotation holding the class names; it may also not parse. */
  datatype Annotation = Absent | Classes(names: seq<string>) | Malformed

  datatype Node = Node(driver: string, deleting: bool, capabilities: seq<Capability>, annotation: Annotation)

  datatype FenceClass = FenceClass(driver: string, deleting: bool, finalizer: bool)

  function Names(a: Annotation): seq<string> { if a.Classes? then a.names else [] }

  predicate Distinct(names: seq<string>) { forall i, j :: 0 <= i < j < |names| ==> names[i] != names[j] }

  // ----- removeClassFromList -----

  function Without(names: seq<string>, name: string): seq<string> {
    if names == [] then []
    else if names[0] == name then names[1..]
    else [names[0]] + Without(names[1..], name)
  }

  method RemoveClassFromList(names: seq<string>, name: string) returns (r: seq<string>)
    ensures r == Without(names, name)
  {
    for i := 0 to |names|
      invariant name !in names[..i]
    {
      if names[i] == name {
        WithoutAt(names, name, i);
        return names[..i] + names[i + 1..];
      }
    }
    assert names[..|names|] == names;
    WithoutNone(names, name);
    r := names;
  }

  lemma {:induction false} WithoutAt(names: seq<string>, name: string, i: nat)
    requires i < |names| && names[i] == name && name !in names[..i]
    ensures Without(names, name) == names[..i] + names[i + 1..]
  {
    if i > 0 {
      assert names[..i][0] != name;
      assert names[1..][..i - 1] == names[..i][1..] && names[1..][i..] == names[i + 1..];
      WithoutAt(names[1..], name, i - 1);
    }
  }

  lemma {:induction false} WithoutNone(names: seq<string>, name: string)
    requires name !in names
    ensures Without(names, name) == names
  {
    if names != [] { WithoutNone(names[1..], name); }
  }

  /** Removing the first match takes one copy of the name away and nothing else. */
  lemma {:induction false} WithoutCounts(names: seq<string>, name: string)
    ensures multiset(Without(names, name)) == multiset(names) - multiset{name}
  {
    if names != [] {
      assert names == [names[0]] + names[1..];
      if names[0] != name { WithoutCounts(names[1..], name); }
    }
  }

  lemma {:induction false} DistinctCounts(names: seq<string>, name: string)
    requires Distinct(names)
    ensures multiset(names)[name] <= 1
  {
    if names != [] {
      assert names == [names[0]] + names[1..];
      DistinctCounts(names[1..], name);
      if names[0] == name { assert name !in names[1..]; }
    }
  }

  /** On a list without duplicates the removal is complete; on others it is not. */
  lemma RemovalIsComplete(names: seq<string>, name: string)
    ensures name !in Without(names, name) <==> multiset(names)[name] <= 1
    ensures Distinct(names) ==> name !in Without(names, name)
  {
    WithoutCounts(names, name);
    assert name in Without(names, name) <==> name in multiset(Without(names, name));
    if Distinct(names) { DistinctCounts(names, name); }
  }

  lemma {:induction false} WithoutDistinct(names: seq<string>, name: string)
    requires Distinct(names)
    ensures Distinct(Without(names, name))
  {
    if i: nat :| i < |names| && names[i] == name && name !in names[..i] {
      WithoutAt(names, name, i);
    } else {
      FirstAt(names, name);
      WithoutNone(names, name);
    }
  }

  lemma {:induction false} FirstAt(names: seq<string>, name: string)
    ensures name in names ==> exists i: nat :: i < |names| && names[i] == name && name !in names[..i]
  {
    if name in names && names[0] != name {
      FirstAt(names[1..], name);
      var i: nat :| i < |names[1..]| && names[1..][i] == name && name !in names[1..][..i];
      assert names[..i + 1] == [names[0]] + names[1..][..i];
      assert names[i + 1] == name && name !in names[..i + 1];
    }
  }

  // ----- processCSIAddonsNode -----

  predicate Advertises(n: Node) { GetClientsToFence in n.capabilities }

  predicate Lists(n: Node, name: string) { name in Names(n.annotation) }

  /** What becomes of the annotation. */
  function Processed(n: Node, name: string, deleting: bool): Node {
    if !Advertises(n) || n.annotation.Malformed? || Lists(n, name) != deleting then n
    else if !deleting then n.(annotation := Classes(Names(n.annotation) + [name]))
    else
      var names := Without(Names(n.annotation), name);
      n.(annotation := if names == [] then Absent else Classes(names))
  }

  /** The node can report clients to fence, and lists a class that is to go or lacks one that is to be there. */
  predicate NeedsUpdate(n: Node, name: string, deleting: bool) {
    GetClientsToFence in n.capabilities && (n.annotation.Classes? && name in n.annotation.names) == deleting
  }

  /** The name is added at the end, or one copy of it is gone, and the annotation with its last name. */
  predicate Edited(a: Annotation, a': Annotation, name: string, deleting: bool) {
    if !deleting then a' == Classes((if a.Classes? then a.names else []) + [name])
    else a.Classes? && if |a.names| <= 1 then a' == Absent else a'.Classes? && multiset(a'.names) == multiset(a.names) - multiset{name}
  }

  lemma ProcessedEdits(n: Node, name: string, deleting: bool)
    requires !n.annotation.Malformed?
    ensures Processed(n, name, deleting) != n <==> NeedsUpdate(n, name, deleting)
    ensures NeedsUpdate(n, name, deleting) ==>
      var n' := Processed(n, name, deleting);
      n' == n.(annotation := n'.annotation) && Edited(n.annotation, n'.annotation, name, deleting)
  {
    var names := Names(n.annotation);
    WithoutShorter(names, name);
    WithoutCounts(names, name);
  }

  /** No error: the node has capabilities, and an update, if needed, is not refused and is based on the current object. */
  predicate Handled(nodes: map<string, Node>, key: string, n: Node, name: string, deleting: bool, refused: bool) {
    && n.capabilities != [] && !n.annotation.Malformed?
    && (Processed(n, name, deleting) != n ==> !refused && key in nodes && nodes[key] == n)
  }

  predicate Relevant(n: Node, driver: string) { n.driver == driver && !n.deleting }

  /** One reconcile of a class: the nodes as listed, the nodes whose update is refused, and whether the class's own update succeeds. */
  datatype Visit = Visit(seen: map<string, Node>, refused: set<string>, written: bool)

  predicate HandledIn(nodes: map<string, Node>, key: string, name: string, c: FenceClass, v: Visit) {
    key in v.seen && (Relevant(v.seen[key], c.driver) ==> Handled(nodes, key, v.seen[key], name, c.deleting, key in v.refused))
  }

  /** The loop went through without an error. */
  predicate AllHandled(nodes: map<string, Node>, name: string, c: FenceClass, v: Visit) {
    forall key :: key in v.seen ==> HandledIn(nodes, key, name, c, v)
  }

  /** The node after the loop: processed, if it was listed and its update went through. */
  function NodeAfter(nodes: map<string, Node>, key: string, name: string, c: FenceClass, v: Visit): Node
    requires key in nodes
  {
    var n := nodes[key];
    if key in v.seen && v.seen[key] == n && Relevant(n, c.driver) && HandledIn(nodes, key, name, c, v)
    then Processed(n, name, c.deleting) else n
  }

  function NodesAfter(nodes: map<string, Node>, name: string, c: FenceClass, v: Visit): map<string, Node> {
    map key | key in nodes :: NodeAfter(nodes, key, name, c, v)
  }

  datatype State = State(nodes: map<string, Node>, classes: map<string, FenceClass>)

  function Reconciled(s: State, name: string, v: Visit): State {
    if name !in s.classes then s
    else
      var c := s.classes[name];
      if !c.deleting && !c.finalizer && !v.written then s
      else
        var nodes := NodesAfter(s.nodes, name, c, v);
        if !c.deleting then State(nodes, s.classes[name := c.(finalizer := true)])
        else if AllHandled(s.nodes, name, c, v) && v.written then State(nodes, s.classes - {name})
        else State(nodes, s.classes)
  }

  /** The class controller's cluster. */
  class Cluster {
    var nodes: map<string, Node>
    var classes: map<string, FenceClass>

    method ProcessCSIAddonsNode(key: string, n: Node, name: string, deleting: bool, refused: bool) returns (ok: bool)
      modifies this`nodes
      ensures ok <==> Handled(old(nodes), key, n, name, deleting, refused)
      ensures nodes == if ok && Processed(n, name, deleting) != n then old(nodes)[key := Processed(n, name, deleting)] else old(nodes)
      ensures ok <==>
        && n.capabilities != [] && !n.annotation.Malformed?
        && (NeedsUpdate(n, name, deleting) ==> !refused && key in old(nodes) && old(nodes)[key] == n)
      ensures !ok || !NeedsUpdate(n, name, deleting) ==> nodes == old(nodes)
      ensures ok && NeedsUpdate(n, name, deleting) ==>
        && nodes == old(nodes)[key := n.(annotation := nodes[key].annotation)]
        && Edited(n.annotation, nodes[key].annotation, name, deleting)
    {
      if n.capabilities == [] || n.annotation.Malformed? {
        return false;
      }
      ProcessedEdits(n, name, deleting);
      var names := Names(n.annotation);
      for i := 0 to |n.capabilities|
        invariant nodes == old(nodes)
        invariant (exists k :: 0 <= k < i && n.capabilities[k].GetClientsToFence?) ==> (name in names) != deleting
      {
        if n.capabilities[i].GetClientsToFence? {
          var listed := name in names;
          if listed == deleting {
            var updated: Node;
            if deleting {
              var rest := RemoveClassFromList(names, name);
              WithoutShorter(names, name);
              updated := n.(annotation := if rest == [] then Absent else Classes(rest));
            } else {
              updated := n.(annotation := Classes(names + [name]));
            }
            ok := Update(key, n, updated, refused);
            return;
          }
        }
      }
      return true;
    }

    /** The nodes in seen are visited in any order. */
    method Reconcile(name: string, v: Visit)
      modifies this
      ensures State(nodes, classes) == Reconciled(State(old(nodes), old(classes)), name, v)
    {
      if name !in classes {
        return;
      }
      var c := classes[name];
      if !c.deleting && !c.finalizer {
        if !v.written {
          return;
        }
        classes := classes[name := c.(finalizer := true)];
      }
      var ok := ProcessAll(name, c, v);
      if ok && c.deleting && v.written {
        classes := classes - {name};
      }
    }

    method ProcessAll(name: string, c: FenceClass, v: Visit) returns (ok: bool)
      modifies this`nodes
      ensures nodes == NodesAfter(old(nodes), name, c, v) && (ok <==> AllHandled(old(nodes), name, c, v))
    {
      ok := true;
      var rest := v.seen.Keys;
      while rest != {}
        invariant rest <= v.seen.Keys && nodes.Keys == old(nodes).Keys
        invariant ok <==> forall key :: key in v.seen && key !in rest ==> HandledIn(old(nodes), key, name, c, v)
        invariant forall key :: key in nodes ==> nodes[key] == if key in rest then old(nodes)[key] else NodeAfter(old(nodes), key, name, c, v)
        decreases |rest|
      {
        var key :| key in rest;
        var n := v.seen[key];
        if !n.deleting && n.driver == c.driver {
          var done := ProcessCSIAddonsNode(key, n, name, c.deleting, key in v.refused);
          ok := ok && done;
        }
        rest := rest - {key};
      }
    }

    /** A compare-and-swap. */
    method Update(key: string, read: Node, updated: Node, refused: bool) returns (ok: bool)
      modifies this`nodes
      ensures ok <==> !refused && key in old(nodes) && old(nodes)[key] == read
      ensures nodes == if ok then old(nodes)[key := updated] else old(nodes)
    {
      ok := !refused && key in nodes && nodes[key] == read;
      if ok {
        nodes := nodes[key := updated];
      }
    }
  }

  lemma {:induction false} WithoutShorter(names: seq<string>, name: string)
    ensures |Without(names, name)| == |names| - if name in names then 1 else 0
  {
    if names != [] && names[0] != name {
      WithoutShorter(names[1..], name);
    }
  }

  // ----- Runs -----

  /** Nodes come, change and go, but only the controller edits the lists. */
  datatype Event =
    | Reconcile(name: string, visit: Visit)
    | SetNode(key: string, node: Node)
    | DropNode(key: string)
    | CreateClass(name: string, driver: string)
    | DeleteClass(name: string)

  predicate Possible(s: State, e: Event) {
    match e
    case SetNode(key, n) => n.annotation.Classes? ==> key in s.nodes && s.nodes[key].annotation == n.annotation
    case CreateClass(name, _) => name !in s.classes
    case DeleteClass(name) => name in s.classes
    case _ => true
  }

  function Next(s: State, e: Event): State {
    match e
    case Reconcile(name, v) => Reconciled(s, name, v)
    case SetNode(key, n) => s.(nodes := s.nodes[key := n])
    case DropNode(key) => s.(nodes := s.nodes - {key})
    case CreateClass(name, driver) => s.(classes := s.classes[name := FenceClass(driver, false, false)])
    case DeleteClass(name) =>
      if name !in s.classes then s
      else if s.classes[name].finalizer then s.(classes := s.classes[name := s.classes[name].(deleting := true)])
      else s.(classes := s.classes - {name})
  }

  ghost predicate Trace(s: State, es: seq<Event>)
    decreases |es|
  {
    es == [] || (Possible(s, es[0]) && Trace(Next(s, es[0]), es[1..]))
  }

  ghost function Run(s: State, es: seq<Event>): State
    decreases |es|
  {
    if es == [] then s else Run(Next(s, es[0]), es[1..])
  }

  const EMPTY := State(map[], map[])

  ghost predicate NoDuplicates(s: State) { forall key :: key in s.nodes ==> Distinct(Names(s.nodes[key].annotation)) }

  lemma ProcessedDistinct(n: Node, name: string, deleting: bool)
    requires Distinct(Names(n.annotation))
    ensures Distinct(Names(Processed(n, name, deleting).annotation))
    ensures deleting && Advertises(n) && !n.annotation.Malformed? ==> !Lists(Processed(n, name, deleting), name)
  {
    WithoutDistinct(Names(n.annotation), name);
    RemovalIsComplete(Names(n.annotation), name);
  }

  lemma StepKeepsDistinct(s: State, e: Event)
    requires NoDuplicates(s) && Possible(s, e)
    ensures NoDuplicates(Next(s, e))
  {
    if e.Reconcile? {
      forall key | key in s.nodes
        ensures e.name in s.classes ==> Distinct(Names(NodeAfter(s.nodes, key, e.name, s.classes[e.name], e.visit).annotation))
      {
        if e.name in s.classes { ProcessedDistinct(s.nodes[key], e.name, s.classes[e.name].deleting); }
      }
    }
  }

  /** In every run, with stale lists and refused updates, no node lists a class twice. */
  lemma {:induction false} RunKeepsDistinct(s: State, es: seq<Event>)
    requires NoDuplicates(s) && Trace(s, es)
    ensures NoDuplicates(Run(s, es))
    decreases |es|
  {
    if es != [] {
      StepKeepsDistinct(s, es[0]);
      RunKeepsDistinct(Next(s, es[0]), es[1..]);
    }
  }

  predicate Bears(n: Node, driver: string, name: string) { Relevant(n, driver) && Advertises(n) && Lists(n, name) }

  /** On a node that was read up to date and handled, the class is listed unless it is being deleted. */
  lemma ListedAfter(s: State, name: string, c: FenceClass, v: Visit, key: string)
    requires NoDuplicates(s) && name in s.classes && c == s.classes[name] && key in s.nodes
    requires key in v.seen && v.seen[key] == s.nodes[key] && HandledIn(s.nodes, key, name, c, v)
    requires Relevant(s.nodes[key], c.driver) && Advertises(s.nodes[key])
    ensures Lists(NodeAfter(s.nodes, key, name, c, v), name) <==> !c.deleting
  {
    ProcessedDistinct(s.nodes[key], name, c.deleting);
  }

  /** No reconcile changes which other classes a node lists. */
  lemma OthersKept(s: State, name: string, c: FenceClass, v: Visit, key: string, other: string)
    requires name in s.classes && c == s.classes[name] && key in s.nodes && other != name
    ensures Lists(NodeAfter(s.nodes, key, name, c, v), other) <==> Lists(s.nodes[key], other)
  {
    WithoutOthers(Names(s.nodes[key].annotation), name, other);
  }

  lemma WithoutOthers(names: seq<string>, name: string, other: string)
    requires other != name
    ensures other in Without(names, name) <==> other in names
  {
    WithoutCounts(names, name);
    assert other in Without(names, name) <==> other in multiset(Without(names, name));
  }

  /** No live node of the driver that reports clients to fence lists the class. */
  ghost predicate Off(nodes: map<string, Node>, driver: string, name: string) {
    forall key :: key in nodes ==> !Bears(nodes[key], driver, name)
  }

  /** The list shows each node that bears the class, as it is. */
  ghost predicate UpToDate(nodes: map<string, Node>, driver: string, name: string, seen: map<string, Node>) {
    forall key :: key in nodes && Bears(nodes[key], driver, name) ==> key in seen && seen[key] == nodes[key]
  }

  lemma NodeCleared(s: State, name: string, v: Visit, key: string)
    requires NoDuplicates(s) && name in s.classes && s.classes[name].deleting && key in s.nodes
    requires AllHandled(s.nodes, name, s.classes[name], v)
    ensures Bears(NodeAfter(s.nodes, key, name, s.classes[name], v), s.classes[name].driver, name)
      <==> Bears(s.nodes[key], s.classes[name].driver, name) && !(key in v.seen && v.seen[key] == s.nodes[key])
  {
    ProcessedDistinct(s.nodes[key], name, true);
    assert key in v.seen ==> HandledIn(s.nodes, key, name, s.classes[name], v);
  }

  /** The node does not hold back the deleted class: its name is not on the node, or can be taken off. */
  ghost predicate Clear(nodes: map<string, Node>, key: string, name: string, v: Visit)
    requires key in v.seen
  {
    var n := v.seen[key];
    && n.capabilities != [] && !n.annotation.Malformed?
    && (GetClientsToFence in n.capabilities && n.annotation.Classes? && name in n.annotation.names ==>
          key !in v.refused && key in nodes && nodes[key] == n)
  }

  /** A reconcile touches no node of another driver, under deletion or not listed, and no other class; a live class has its finalizer before any node is touched. */
  lemma ReconcileTouches(s: State, name: string, v: Visit)
    ensures var s' := Reconciled(s, name, v);
      && s'.nodes.Keys == s.nodes.Keys
      && (forall key :: key in s.nodes && s'.nodes[key] != s.nodes[key] ==>
            && name in s.classes && s.nodes[key].driver == s.classes[name].driver && !s.nodes[key].deleting
            && key in v.seen && v.seen[key] == s.nodes[key] && key !in v.refused)
      && (forall other :: other in s.classes && other != name ==> other in s'.classes && s'.classes[other] == s.classes[other])
      && (name in s.classes && !s.classes[name].deleting ==>
            if v.written || s.classes[name].finalizer then name in s'.classes && s'.classes[name] == s.classes[name].(finalizer := true) else s' == s)
  {
  }

  /**
   After any run a deleted class is let go exactly if its loop had no error and its update succeeds;
   it is then off all the lists exactly if the nodes bearing it were read up to date.
   */
  lemma FinalizerCondition(s: State, es: seq<Event>, name: string, v: Visit)
    requires Trace(EMPTY, es) && s == Run(EMPTY, es) && name in s.classes && s.classes[name].deleting
    ensures name !in Reconciled(s, name, v).classes <==>
      v.written && forall key :: key in v.seen && v.seen[key].driver == s.classes[name].driver && !v.seen[key].deleting ==> Clear(s.nodes, key, name, v)
    ensures name !in Reconciled(s, name, v).classes ==>
      (Off(Reconciled(s, name, v).nodes, s.classes[name].driver, name) <==> UpToDate(s.nodes, s.classes[name].driver, name, v.seen))
  {
    RunKeepsDistinct(EMPTY, es);
    forall key | key in v.seen && v.seen[key].driver == s.classes[name].driver && !v.seen[key].deleting
      ensures HandledIn(s.nodes, key, name, s.classes[name], v) <==> Clear(s.nodes, key, name, v)
    {
      if !v.seen[key].annotation.Malformed? { ProcessedEdits(v.seen[key], name, true); }
    }
    if AllHandled(s.nodes, name, s.classes[name], v) {
      forall key | key in s.nodes
        ensures Bears(NodesAfter(s.nodes, name, s.classes[name], v)[key], s.classes[name].driver, name)
          <==> Bears(s.nodes[key], s.classes[name].driver, name) && !(key in v.seen && v.seen[key] == s.nodes[key])
      {
        NodeCleared(s, name, v, key);
      }
    }
  }

  lemma FourSteps(s0: State, e0: Event, e1: Event, e2: Event, e3: Event)
    requires Possible(s0, e0) && Possible(Next(s0, e0), e1)
    requires Possible(Next(Next(s0, e0), e1), e2) && Possible(Next(Next(Next(s0, e0), e1), e2), e3)
    ensures Run(s0, [e0, e1, e2, e3]) == Next(Next(Next(Next(s0, e0), e1), e2), e3)
    ensures Trace(s0, [e0, e1, e2, e3])
  {
    var s1 := Next(s0, e0);
    var s2 := Next(s1, e1);
    assert [e0, e1, e2, e3][1..] == [e1, e2, e3] && [e1, e2, e3][1..] == [e2, e3] && [e2, e3][1..] == [e3] && [e3][1..] == [];
    var s3 := Next(s2, e2);
    assert Run(s3, [e3]) == Run(Next(s3, e3), []) == Next(s3, e3);
    assert Run(s2, [e2, e3]) == Run(s3, [e3]) && Run(s1, [e1, e2, e3]) == Run(s2, [e2, e3]);
    assert Trace(s3, [e3]) <==> Possible(s3, e3) && Trace(Next(s3, e3), []);
    assert Trace(s2, [e2, e3]) <==> Possible(s2, e2) && Trace(s3, [e3]);
    assert Trace(s1, [e1, e2, e3]) <==> Possible(s1, e1) && Trace(s2, [e2, e3]);
  }

  /** A list read before the class was added shows a node without it: the class goes and the node keeps its name. */
  lemma StaleListLeavesName() returns (es: seq<Event>, name: string, v: Visit)
    ensures Trace(EMPTY, es) && name in Run(EMPTY, es).classes && Run(EMPTY, es).classes[name].deleting
    ensures name !in Next(Run(EMPTY, es), Reconcile(name, v)).classes
    ensures !Off(Next(Run(EMPTY, es), Reconcile(name, v)).nodes, Run(EMPTY, es).classes[name].driver, name)
  {
    name := "c";
    var bare := Node("d", false, [GetClientsToFence], Absent);
    var listed := bare.(annotation := Classes([name]));
    v := Visit(map["n" := bare], {}, true);
    var e0, e1, e2, e3 := SetNode("n", bare), CreateClass(name, "d"), Reconcile(name, v), DeleteClass(name);
    es := [e0, e1, e2, e3];
    var s1 := Next(EMPTY, e0);
    var s2 := Next(s1, e1);
    var s3 := Next(s2, e2);
    assert bare.capabilities[0] == GetClientsToFence && [] + [name] == [name] && listed.annotation.names[0] == name;
    assert Processed(bare, name, false) == listed;
    assert s3 == State(map["n" := listed], map[name := FenceClass("d", false, true)]);
    var s4 := Next(s3, e3);
    assert s4 == State(map["n" := listed], map[name := FenceClass("d", true, true)]);
    FourSteps(EMPTY, e0, e1, e2, e3);
    FinalizerCondition(s4, es, name, v);
    assert AllHandled(s4.nodes, name, s4.classes[name], v);
    assert Bears(s4.nodes["n"], "d", name);
  }
}
