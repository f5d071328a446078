/** The canvas compiler: a drawn graph of nodes and edges becomes a list of subtasks, and a graph
    with a cyclic dependency is refused (app/multi_agent/decision_factory.py). */
module Canvas {
  import opened DependencyGraph
  import opened Wrappers
  import SortedIds

  const MAX_CANVAS_NODES := 20

  datatype AgentRole = Research | Writer | Reviewer | Custom

  /** The hashable JSON values that can stand where an id is expected. */
  datatype JsonId = Null | Text(text: string) | Number(n: int)

  /** `id` is None when the key is absent; `role` is None when absent or not a string;
      `configOk` says that `config` is absent, falsy or an object. */
  datatype Node = Node(id: Option<JsonId>, role: Option<string>, description: string, configOk: bool)

  /** An absent `source` or `target` reads as Null. */
  datatype Edge = Edge(source: JsonId, target: JsonId)

  /** `nodes` and `edges` are None when they are absent or not lists. */
  datatype Dag = NotAnObject | Object(nodes: Option<seq<Node>>, edges: Option<seq<Edge>>)

  datatype Subtask = Subtask(id: string, description: string, agentRole: AgentRole, dependsOn: seq<string>)

  datatype Refusal =
    | DagNotAnObject | NodesMissing | TooManyNodes | EdgesMissing
    | IdKeyMissing | UnknownNode(source: JsonId, target: JsonId)
    | CycleFound | BadNodeId | BadNodeConfig(id: string) | UnsortableIds

  // ----- Cycle detection -----

  /** The depth-first search. `order` and `stack` are what the two sets stand for: the nodes in the
      order in which their visit finished, and the path of the visits still open. */
  class CycleChecker {
    const g: Graph<JsonId>
    var visited: set<JsonId>
    var inStack: set<JsonId>
    ghost var order: seq<JsonId>
    ghost var stack: seq<JsonId>

    constructor (g: Graph<JsonId>)
      ensures this.g == g && Valid() && stack == [] && visited == {}
    {
      this.g := g;
      visited, inStack, order, stack := {}, {}, [], [];
    }

    ghost predicate Valid()
      reads this
    {
      && visited == Elems(order)
      && inStack == Elems(stack)
      && TopoOrder(g, order)
      && IsPath(g, stack)
    }

    ghost function Universe(): set<JsonId> {
      g.Keys + set n, d | n in g && d in g[n] :: d
    }

    /** Returns false where the source raises. */
    method Visit(node: JsonId) returns (ok: bool)
      requires Valid() && IsPath(g, stack + [node]) && node in Universe()
      modifies this
      ensures ok ==> Valid() && stack == old(stack) && old(visited) <= visited && node in visited
      ensures !ok ==> HasCycle(g)
      decreases Universe() - visited - inStack
    {
      if node in inStack {
        assert HasRepeat(stack + [node]) by {
          var i :| 0 <= i < |stack| && stack[i] == node;
          assert (stack + [node])[i] == (stack + [node])[|stack|];
        }
        RepeatGivesCycle(g, stack + [node]);
        return false;
      }
      if node in visited {
        return true;
      }
      inStack, stack := inStack + {node}, stack + [node];
      var rest := Deps(g, node);
      while rest != {}
        invariant Valid() && stack == old(stack) + [node] && rest <= Deps(g, node)
        invariant old(visited) <= visited && Deps(g, node) - rest <= visited
      {
        var dep :| dep in rest;
        rest := rest - {dep};
        var fine := Visit(dep);
        if !fine {
          return false;
        }
      }
      TopoAppend(g, order, node);
      ElemsAppend(order, node);
      inStack, stack := inStack - {node}, stack[..|stack| - 1];
      visited, order := visited + {node}, order + [node];
      return true;
    }
  }

  /** Accepts exactly the graphs without a dependency cycle; a self-loop is a cycle. */
  method ValidateAcyclic(g: Graph<JsonId>) returns (ok: bool)
    ensures ok <==> !HasCycle(g)
  {
    var checker := new CycleChecker(g);
    var rest := g.Keys;
    while rest != {}
      invariant fresh(checker) && checker.g == g
      invariant checker.Valid() && checker.stack == []
      invariant rest <= g.Keys && g.Keys - rest <= checker.visited
    {
      var node :| node in rest;
      rest := rest - {node};
      var fine := checker.Visit(node);
      if !fine {
        return false;
      }
    }
    OrderForbidsCycle(g, checker.order);
    return true;
  }

  // ----- What a canvas means -----

  function Sources(edges: seq<Edge>, target: JsonId): set<JsonId> {
    set e | e in edges && e.target == target :: e.source
  }

  function NodeIds(nodes: seq<Node>): set<JsonId> {
    set n | n in nodes && n.id.Some? :: n.id.value
  }

  /** The relation the edges draw: every node's id, with the sources of the edges that end in it. */
  function EdgeGraph(nodes: seq<Node>, edges: seq<Edge>): Graph<JsonId> {
    map id | id in NodeIds(nodes) :: Sources(edges, id)
  }

  /** The checks made before the search for cycles. */
  ghost predicate Connected(dag: Dag) {
    && dag.Object? && dag.nodes.Some? && dag.edges.Some?
    && 1 <= |dag.nodes.value| <= MAX_CANVAS_NODES
    && (forall n :: n in dag.nodes.value ==> n.id.Some?)
    && (forall e :: e in dag.edges.value ==>
          e.source in NodeIds(dag.nodes.value) && e.target in NodeIds(dag.nodes.value))
  }

  ghost predicate Nameable(n: Node) {
    n.id.Some? && n.id.value.Text? && n.id.value.text != "" && n.configOk
  }

  ghost predicate Acceptable(dag: Dag) {
    && Connected(dag)
    && !HasCycle(EdgeGraph(dag.nodes.value, dag.edges.value))
    && forall n :: n in dag.nodes.value ==> Nameable(n)
  }

  function RoleOf(role: Option<string>): AgentRole {
    if role == Some("research") then Research
    else if role == Some("writer") then Writer
    else if role == Some("reviewer") then Reviewer
    else Custom
  }

  /** The subtask is the node, and depends on exactly the nodes with an edge into it, in ascending order. */
  ghost predicate Compiles(n: Node, edges: seq<Edge>, t: Subtask) {
    && n.id == Some(Text(t.id))
    && t.description == n.description
    && (t.agentRole == Research <==> n.role == Some("research"))
    && (t.agentRole == Writer <==> n.role == Some("writer"))
    && (t.agentRole == Reviewer <==> n.role == Some("reviewer"))
    && SortedIds.Ascending(t.dependsOn)
    && (forall d :: d in t.dependsOn <==> Edge(Text(d), Text(t.id)) in edges)
  }

  predicate Sortable(ids: set<JsonId>) {
    || |ids| <= 1
    || (forall x :: x in ids ==> x.Text?)
    || (forall x :: x in ids ==> x.Number?)
  }

  /** Ids cannot be sorted exactly if two different ones are not both texts and not both numbers. */
  lemma {:induction false} SortableReads(ids: set<JsonId>)
    ensures !Sortable(ids) <==>
            exists x, y :: x in ids && y in ids && x != y && !(x.Text? && y.Text?) && !(x.Number? && y.Number?)
  {
    if !Sortable(ids) {
      var x :| x in ids && !x.Text?;
      var y :| y in ids && !y.Number?;
      if x == y {
        assert |ids - {x}| == |ids| - 1 >= 1;
        var z :| z in ids - {x};
        assert z in ids && z != x;
      }
    }
    if x, y :| x in ids && y in ids && x != y && !(x.Text? && y.Text?) && !(x.Number? && y.Number?) {
      assert {x, y} <= ids;
      Larger({x, y}, ids);
    }
  }

  lemma {:induction false} Larger(a: set<JsonId>, b: set<JsonId>)
    requires a <= b
    ensures |a| <= |b|
  {
    assert b == a + (b - a);
  }

  /** What is wrong with a node, if anything. */
  function Fault(n: Node, edges: seq<Edge>): Option<Refusal>
    requires n.id.Some?
  {
    if !n.id.value.Text? || n.id.value.text == "" then Some(BadNodeId)
    else if !n.configOk then Some(BadNodeConfig(n.id.value.text))
    else if !Sortable(Sources(edges, n.id.value)) then Some(UnsortableIds)
    else None
  }

  /** The error names the fault of the first faulty node. */
  ghost predicate FirstFault(nodes: seq<Node>, edges: seq<Edge>, error: Refusal)
    requires forall n :: n in nodes ==> n.id.Some?
  {
    exists i :: 0 <= i < |nodes| && Fault(nodes[i], edges) == Some(error)
                && forall k :: 0 <= k < i ==> Fault(nodes[k], edges) == None
  }

  // ----- The compiler -----

  /** Fills the dependency map edge by edge, or reports the first edge with an unknown end. */
  method BuildDependsMap(nodes: seq<Node>, edges: seq<Edge>) returns (r: Result<Graph<JsonId>, Refusal>)
    ensures r.Success? <==> forall e :: e in edges ==> e.source in NodeIds(nodes) && e.target in NodeIds(nodes)
    ensures r.Success? ==> r.value == EdgeGraph(nodes, edges)
    ensures r.Failure? ==>
              exists i ::
                && 0 <= i < |edges| && r.error == UnknownNode(edges[i].source, edges[i].target)
                && (forall e :: e in edges[..i] ==> e.source in NodeIds(nodes) && e.target in NodeIds(nodes))
                && !(edges[i].source in NodeIds(nodes) && edges[i].target in NodeIds(nodes))
  {
    hide NodeIds;
    var m: Graph<JsonId> := map id | id in NodeIds(nodes) :: {};
    for i := 0 to |edges|
      invariant m.Keys == NodeIds(nodes)
      invariant forall id :: id in m ==> m[id] == Sources(edges[..i], id)
      invariant forall e :: e in edges[..i] ==> e.source in NodeIds(nodes) && e.target in NodeIds(nodes)
    {
      var Edge(source, target) := edges[i];
      if source !in m || target !in m {
        return Failure(UnknownNode(source, target));
      }
      ExtendSources(edges, i);
      m := m[target := m[target] + {source}];
    }
    assert edges[..|edges|] == edges;
    assert m == EdgeGraph(nodes, edges);
    return Success(m);
  }

  lemma {:induction false} ExtendSources(edges: seq<Edge>, i: nat)
    requires i < |edges|
    ensures forall id :: Sources(edges[..i + 1], id) ==
                         Sources(edges[..i], id) + if edges[i].target == id then {edges[i].source} else {}
  {
    assert edges[..i + 1] == edges[..i] + [edges[i]];
    forall id
      ensures Sources(edges[..i + 1], id) ==
              Sources(edges[..i], id) + if edges[i].target == id then {edges[i].source} else {}
    {
      assert edges[i] in edges[..i + 1];
    }
  }

  /** One node of the canvas; ids that are not texts cannot be among the sources when every node is nameable. */
  method CompileNode(node: Node, edges: seq<Edge>, m: Graph<JsonId>) returns (r: Result<Subtask, Refusal>)
    requires node.id.Some? && node.id.value in m && m[node.id.value] == Sources(edges, node.id.value)
    ensures Fault(node, edges) == if r.Failure? then Some(r.error) else None
    ensures r.Success? && (forall x :: x in m[node.id.value] ==> x.Text?) ==> Compiles(node, edges, r.value)
  {
    var id := node.id.value;
    if !id.Text? || id.text == "" {
      return Failure(BadNodeId);
    }
    if !node.configOk {
      return Failure(BadNodeConfig(id.text));
    }
    if !Sortable(m[id]) {
      return Failure(UnsortableIds);
    }
    var ids := set x | x in m[id] && x.Text? :: x.text;
    var dependsOn := SortedIds.Sort(ids);
    SourcesAreEdges(edges, id, ids, dependsOn);
    return Success(Subtask(id.text, node.description, RoleOf(node.role), dependsOn));
  }

  lemma {:induction false} NameableSources(nodes: seq<Node>, edges: seq<Edge>, node: Node)
    requires node in nodes && node.id.Some? && forall e :: e in edges ==> e.source in NodeIds(nodes)
    ensures (forall n :: n in nodes ==> Nameable(n)) ==>
              && Fault(node, edges) == None && forall x :: x in Sources(edges, node.id.value) ==> x.Text?
    ensures Fault(node, edges) == None ==> Nameable(node)
  {
  }

  method CompileNodes(nodes: seq<Node>, edges: seq<Edge>, m: Graph<JsonId>)
    returns (r: Result<seq<Subtask>, Refusal>)
    requires forall n :: n in nodes ==> n.id.Some?
    requires m == EdgeGraph(nodes, edges)
    requires forall e :: e in edges ==> e.source in NodeIds(nodes)
    ensures r.Success? <==> forall n :: n in nodes ==> Nameable(n)
    ensures r.Success? ==> |r.value| == |nodes|
                           && forall i :: 0 <= i < |nodes| ==> Compiles(nodes[i], edges, r.value[i])
    ensures r.Failure? ==> FirstFault(nodes, edges, r.error)
  {
    hide Compiles, Fault, Sources, Nameable;
    var subtasks: seq<Subtask> := [];
    for i := 0 to |nodes|
      invariant |subtasks| == i
      invariant forall k :: 0 <= k < i ==> Nameable(nodes[k]) && Fault(nodes[k], edges) == None
      invariant (forall n :: n in nodes ==> Nameable(n)) ==>
          forall k :: 0 <= k < i ==> Compiles(nodes[k], edges, subtasks[k])
    {
      assert nodes[i] in nodes && nodes[i].id.value in NodeIds(nodes);
      NameableSources(nodes, edges, nodes[i]);
      var compiled := CompileNode(nodes[i], edges, m);
      if compiled.Failure? {
        return Failure(compiled.error);
      }
      subtasks := subtasks + [compiled.value];
    }
    return Success(subtasks);
  }

  lemma {:induction false} SourcesAreEdges(edges: seq<Edge>, id: JsonId, ids: set<string>, dependsOn: seq<string>)
    requires ids == (set x | x in Sources(edges, id) && x.Text? :: x.text)
    requires Elems(dependsOn) == ids
    ensures forall d :: d in dependsOn <==> Edge(Text(d), id) in edges
  {
    forall d
      ensures d in dependsOn <==> Edge(Text(d), id) in edges
    {
      assert d in dependsOn <==> d in Elems(dependsOn);
      if d in ids {
        assert Text(d) in Sources(edges, id);
      }
      if Edge(Text(d), id) in edges {
        assert Edge(Text(d), id).source in Sources(edges, id);
        assert Text(d).text in ids;
      }
    }
  }

  /** There is a list of one to twenty nodes. */
  ghost predicate Populated(dag: Dag) {
    dag.Object? && dag.nodes.Some? && 1 <= |dag.nodes.value| <= 20
  }

  /** Moreover a list of edges, and every node has an id. */
  ghost predicate Identified(dag: Dag) {
    Populated(dag) && dag.edges.Some? && forall n :: n in dag.nodes.value ==> n.id.Some?
  }

  /** Both ends of the edge are ids of nodes. */
  ghost predicate Ends(dag: Dag, e: Edge)
    requires Identified(dag)
  {
    && (exists n :: n in dag.nodes.value && n.id == Some(e.source))
    && (exists n :: n in dag.nodes.value && n.id == Some(e.target))
  }

  lemma {:induction false} EndsAreIds(dag: Dag, e: Edge)
    requires Identified(dag)
    ensures Ends(dag, e) <==> e.source in NodeIds(dag.nodes.value) && e.target in NodeIds(dag.nodes.value)
  {
  }

  /** A canvas compiles exactly when it is well formed and its edges draw no cycle. */
  method FromDag(dag: Dag) returns (r: Result<seq<Subtask>, Refusal>)
    ensures r.Success? <==> Acceptable(dag)
    ensures r == Failure(CycleFound) <==>
            Connected(dag) && HasCycle(EdgeGraph(dag.nodes.value, dag.edges.value))
    ensures dag.NotAnObject? <==> r == Failure(DagNotAnObject)
    ensures r == Failure(NodesMissing) <==> dag.Object? && (dag.nodes == None || dag.nodes == Some([]))
    ensures r == Failure(TooManyNodes) <==> dag.Object? && dag.nodes.Some? && |dag.nodes.value| > 20
    ensures r == Failure(EdgesMissing) <==> Populated(dag) && dag.edges == None
    ensures r == Failure(IdKeyMissing) <==>
            Populated(dag) && dag.edges.Some? && exists n :: n in dag.nodes.value && n.id == None
    ensures r.Failure? && r.error.UnknownNode? <==> Identified(dag) && exists e :: e in dag.edges.value && !Ends(dag, e)
    ensures r.Failure? && r.error.UnknownNode? ==>
              exists i :: && 0 <= i < |dag.edges.value| && !Ends(dag, dag.edges.value[i])
                          && r.error == UnknownNode(dag.edges.value[i].source, dag.edges.value[i].target)
                          && forall k :: 0 <= k < i ==> Ends(dag, dag.edges.value[k])
    ensures r.Failure? && Connected(dag) && r.error != CycleFound ==>
              FirstFault(dag.nodes.value, dag.edges.value, r.error)
    ensures r.Success? ==> |r.value| == |dag.nodes.value|
                           && forall i :: 0 <= i < |r.value| ==>
                                Compiles(dag.nodes.value[i], dag.edges.value, r.value[i])
  {
    if dag.NotAnObject? { return Failure(DagNotAnObject); }
    if dag.nodes.None? || dag.nodes.value == [] { return Failure(NodesMissing); }
    var nodes := dag.nodes.value;
    if |nodes| > MAX_CANVAS_NODES { return Failure(TooManyNodes); }
    if dag.edges.None? { return Failure(EdgesMissing); }
    var edges := dag.edges.value;
    if n :| n in nodes && n.id.None? { return Failure(IdKeyMissing); }
    forall e
      ensures Ends(dag, e) <==> e.source in NodeIds(nodes) && e.target in NodeIds(nodes)
    {
      EndsAreIds(dag, e);
    }
    hide Ends, NodeIds, EdgeGraph;
    var built := BuildDependsMap(nodes, edges);
    if built.Failure? { return Failure(built.error); }
    var acyclic := ValidateAcyclic(built.value);
    if !acyclic { return Failure(CycleFound); }
    r := CompileNodes(nodes, edges, built.value);
  }
}
