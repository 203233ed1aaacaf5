/** The topology compiler of graph.py: it reads an activity/connection
    workflow definition, resolves every activity name to one of the nine
    registered handlers, gives every node a unique graph name, turns the
    connections into direct edges and the two conditional edges, and wires
    every node without an outgoing connection to END. The compiled graph is
    what the builder hands to the graph library; how that library runs the
    graph is not part of this model. */
module WorkflowGraph {
  import opened Common
  import opened Text
  import opened Routing

  // ---------------------------------------------------------------------------
  // Definitions and the compiled graph
  // ---------------------------------------------------------------------------

  datatype Handler =
    | StartHandler | UserTaskHandler | UserTask2Handler | RetrievalHandler | LlmHandler
    | ToolHandler | RouterHandler | RenderHandler | AgentHandler

  /** The activity-name registry of `build_from_copilot_json`. */
  function HandlerFor(name: string): Option<Handler> {
    if name == "Start" then Some(StartHandler)
    else if name == "UserTask1" then Some(UserTaskHandler)
    else if name == "UserTask2" then Some(UserTask2Handler)
    else if name == "RetrievalTask1" then Some(RetrievalHandler)
    else if name == "LLMTask1" then Some(LlmHandler)
    else if name == "ToolTask1" then Some(ToolHandler)
    else if name == "RouterTask1" then Some(RouterHandler)
    else if name == "RenderTask1" then Some(RenderHandler)
    else if name == "AgentTask1" then Some(AgentHandler)
    else None
  }

  /** One entry of an activity's `Properties` list; `None` is a missing key. */
  datatype Property = Property(name: Option<string>, value: Option<Json>)

  datatype Activity = Activity(id: string, name: string, properties: seq<Property>)

  datatype Connection = Connection(source: string, target: string)

  /** The decoded workflow file; `None` is a missing top-level key. */
  datatype Workflow = Workflow(
    activities: Option<seq<Activity>>,
    connections: Option<seq<Connection>>,
    startId: Option<string>)

  /** Where an edge leads: a graph node by name, or the terminal marker. */
  datatype Target = Node(name: string) | End

  /** The two routing functions the builder attaches. */
  datatype Router = RouteConditionFn | UserTask2RouteFn

  /** A conditional edge: a routing function and its route table. */
  datatype Branch = Branch(router: Router, routes: map<string, Target>)

  datatype GraphNode = GraphNode(name: string, handler: Handler)

  /** What the builder hands to the graph library. Nodes are in `add_node`
      order; edges form a set, as the library keeps them; `branches` holds the
      conditional edge of each node that has one. */
  datatype CompiledGraph = CompiledGraph(
    nodes: seq<GraphNode>,
    nodeMap: map<string, string>,
    edges: set<(string, Target)>,
    branches: map<string, Branch>,
    entry: string)

  /** Why a build fails: an activity name without a handler, a node name the
      graph already holds (the graph library's `add_node` refuses it), a start
      id no activity carries, a route table naming a node the graph lacks (the
      library's `compile()` refuses it), or a file not in the
      activity/connection format. */
  datatype BuildError =
    | NoHandler(name: string)
    | DuplicateNode(node: string)
    | StartNotFound(id: string)
    | UnknownTarget(source: string, target: string)
    | UnsupportedFormat

  function Activities(w: Workflow): seq<Activity> { w.activities.GetOr([]) }
  function Connections(w: Workflow): seq<Connection> { w.connections.GetOr([]) }
  function StartId(w: Workflow): string { w.startId.GetOr("1") }

  // ---------------------------------------------------------------------------
  // get_property_value
  // ---------------------------------------------------------------------------

  /** `get_property_value`: the `Value` of the first property named `propName`
      (the default when that property has no `Value`), or the default when no
      property has that name. */
  method GetPropertyValue(activity: Activity, propName: string, default: Json) returns (r: Json)
    ensures (forall i :: 0 <= i < |activity.properties| ==> activity.properties[i].name != Some(propName))
      ==> r == default
    ensures forall i ::
              0 <= i < |activity.properties| && activity.properties[i].name == Some(propName) &&
              (forall j :: 0 <= j < i ==> activity.properties[j].name != Some(propName)) ==>
              r == activity.properties[i].value.GetOr(default)
  {
    var props := activity.properties;
    for i := 0 to |props|
      invariant forall j :: 0 <= j < i ==> props[j].name != Some(propName)
    {
      if props[i].name == Some(propName) {
        return props[i].value.GetOr(default);
      }
    }
    return default;
  }

  // ---------------------------------------------------------------------------
  // Unique node names
  // ---------------------------------------------------------------------------

  /** The candidate name `f"{name}_{k}"`. */
  function Suffixed(name: string, k: nat): string {
    name + "_" + NatToString(k)
  }

  lemma SuffixedInjective(name: string, j: nat, k: nat)
    requires Suffixed(name, j) == Suffixed(name, k)
    ensures j == k
  {
    var p := |name| + 1;
    assert Suffixed(name, j)[p..] == NatToString(j);
    assert Suffixed(name, k)[p..] == NatToString(k);
    NatToStringInjective(j, k);
  }

  ghost function SuffixesBelow(name: string, k: nat): set<string> {
    set j: nat | 2 <= j < k :: Suffixed(name, j)
  }

  /** Trying one more taken candidate leaves fewer taken names untried. */
  lemma SuffixStep(name: string, taken: set<string>, k: nat)
    requires 2 <= k && Suffixed(name, k) in taken
    ensures |taken - SuffixesBelow(name, k + 1)| < |taken - SuffixesBelow(name, k)|
  {
    var x := Suffixed(name, k);
    assert SuffixesBelow(name, k + 1) == SuffixesBelow(name, k) + {x};
    if x in SuffixesBelow(name, k) {
      var j: nat :| 2 <= j < k && Suffixed(name, j) == x;
      SuffixedInjective(name, j, k);
    }
    assert taken - SuffixesBelow(name, k) == (taken - SuffixesBelow(name, k + 1)) + {x};
  }

  /** `k` is the smallest suffix from 2 on whose candidate is not taken. */
  ghost predicate IsFirstFreeSuffix(name: string, taken: set<string>, k: nat) {
    2 <= k && Suffixed(name, k) !in taken
    && forall j :: 2 <= j < k ==> Suffixed(name, j) in taken
  }

  function FirstFreeSuffix(name: string, taken: set<string>, k: nat): (r: nat)
    requires 2 <= k
    requires forall j :: 2 <= j < k ==> Suffixed(name, j) in taken
    ensures k <= r && IsFirstFreeSuffix(name, taken, r)
    decreases |taken - SuffixesBelow(name, k)|
  {
    if Suffixed(name, k) !in taken then k
    else
      SuffixStep(name, taken, k);
      FirstFreeSuffix(name, taken, k + 1)
  }

  /** The graph name a new activity receives given the names already assigned:
      its own name when free, else its name with the smallest free suffix. */
  function UniqueName(name: string, taken: set<string>): (r: string)
    ensures r !in taken
    ensures name !in taken ==> r == name
    ensures name in taken ==> exists k :: IsFirstFreeSuffix(name, taken, k) && r == Suffixed(name, k)
  {
    if name !in taken then name else Suffixed(name, FirstFreeSuffix(name, taken, 2))
  }

  /** The node map and node list after the first loop. */
  datatype Naming = Naming(nodeMap: map<string, string>, nodes: seq<GraphNode>)

  /** The names of the nodes added to the graph so far. */
  function NamesOf(nodes: seq<GraphNode>): set<string> {
    set i | 0 <= i < |nodes| :: nodes[i].name
  }

  lemma NamesOfAppend(nodes: seq<GraphNode>, x: GraphNode)
    ensures NamesOf(nodes + [x]) == NamesOf(nodes) + {x.name}
  {
    var all := nodes + [x];
    forall y | y in NamesOf(all) ensures y in NamesOf(nodes) + {x.name} {
      var i :| 0 <= i < |all| && all[i].name == y;
      if i < |nodes| { assert nodes[i].name == y; }
    }
    forall y | y in NamesOf(nodes) ensures y in NamesOf(all) {
      var i :| 0 <= i < |nodes| && nodes[i].name == y;
      assert all[i].name == y;
    }
    assert all[|nodes|].name == x.name;
  }

  /** The first loop: the node map and node list, or the first failure. The
      unique name is chosen among the node map's values, but the graph refuses
      a name any earlier node holds; the two differ once a repeated id has
      overwritten an entry of the map. */
  function NameActivities(acts: seq<Activity>): Result<Naming, BuildError> {
    if acts == [] then Ok(Naming(map[], []))
    else
      match NameActivities(acts[..|acts| - 1])
      case Err(e) => Err(e)
      case Ok(nm) => NameNext(nm, acts[|acts| - 1])
  }

  /** One pass of the first loop, for activity `a`. */
  function NameNext(nm: Naming, a: Activity): Result<Naming, BuildError> {
    match HandlerFor(a.name)
    case None => Err(NoHandler(a.name))
    case Some(h) =>
      var n := UniqueName(a.name, nm.nodeMap.Values);
      if n in NamesOf(nm.nodes) then Err(DuplicateNode(n))
      else Ok(Naming(nm.nodeMap[a.id := n], nm.nodes + [GraphNode(n, h)]))
  }

  // ---------------------------------------------------------------------------
  // Edges
  // ---------------------------------------------------------------------------

  /** The two literal node names that receive a conditional edge. */
  const ConditionalNames: set<string> := {"RouterTask1", "UserTask2"}

  /** The router's route targets, in the order its table lists them. */
  const RouterTargets: seq<string> := ["RenderTask1", "AgentTask1", "UserTask2"]

  function RouterBranch(): Branch {
    Branch(RouteConditionFn,
           map["RenderTask1" := Node("RenderTask1"), "AgentTask1" := Node("AgentTask1"),
               "UserTask2" := Node("UserTask2")])
  }

  function ReviewBranch(target: string): Branch {
    Branch(UserTask2RouteFn, map["LLMTask1" := Node(target), "__end__" := End])
  }

  /** The key a branch's routing function returns for a state. */
  function RouteKey(router: Router, s: GraphState): string {
    match router
    case RouteConditionFn => RouteCondition(s)
    case UserTask2RouteFn => UserTask2Route(s)
  }

  /** Where a conditional edge sends a state: the route table's entry for the
      key, or nothing when the table has no such key. */
  function NextStep(b: Branch, s: GraphState): Option<Target> {
    var k := RouteKey(b.router, s);
    if k in b.routes then Some(b.routes[k]) else None
  }

  /** Both ends of the connection map to (non-empty) node names. */
  predicate Resolves(nodeMap: map<string, string>, c: Connection) {
    c.source in nodeMap && c.target in nodeMap && nodeMap[c.source] != "" && nodeMap[c.target] != ""
  }

  /** The `outgoing` dict, the `conditional_nodes` set and the edges added so far. */
  datatype Wiring = Wiring(
    outgoing: map<string, seq<string>>,
    conditional: set<string>,
    edges: set<(string, Target)>,
    branches: map<string, Branch>)

  /** One iteration of the connection loop. */
  function WireConnection(nodeMap: map<string, string>, w: Wiring, c: Connection): Wiring {
    if !Resolves(nodeMap, c) then w
    else
      var src, tgt := nodeMap[c.source], nodeMap[c.target];
      var out := w.outgoing[src := (if src in w.outgoing then w.outgoing[src] else []) + [tgt]];
      if src == "RouterTask1" then
        if src in w.conditional then w.(outgoing := out)
        else w.(outgoing := out, branches := w.branches[src := RouterBranch()],
                conditional := w.conditional + {src})
      else if src == "UserTask2" then
        if src in w.conditional then w.(outgoing := out)
        else w.(outgoing := out, branches := w.branches[src := ReviewBranch(tgt)],
                conditional := w.conditional + {src})
      else w.(outgoing := out, edges := w.edges + {(src, Node(tgt))})
  }

  function WireAll(nodeMap: map<string, string>, conns: seq<Connection>): Wiring {
    if conns == [] then Wiring(map[], {}, {}, map[])
    else WireConnection(nodeMap, WireAll(nodeMap, conns[..|conns| - 1]), conns[|conns| - 1])
  }

  /** The END edges of the nodes named in `names` that have no outgoing connection. */
  function EndEdges(names: set<string>, outgoing: map<string, seq<string>>): set<(string, Target)> {
    set v | v in names && v !in outgoing :: (v, End)
  }

  /** The first of `targets`, in order, that is not among `names`: the target
      the graph library's `compile()` reports when it checks a route table. */
  function FirstMissing(targets: seq<string>, names: set<string>): (r: Option<string>)
    ensures r.None? <==> forall i :: 0 <= i < |targets| ==> targets[i] in names
    ensures r.Some? ==> exists k :: 0 <= k < |targets| && targets[k] == r.value && r.value !in names
                                    && forall j :: 0 <= j < k ==> targets[j] in names
  {
    if targets == [] then None
    else if targets[0] !in names then Some(targets[0])
    else
      var r := FirstMissing(targets[1..], names);
      assert forall i :: 1 <= i < |targets| ==> targets[i] == targets[1..][i - 1];
      r
  }

  /** The whole of `build_from_copilot_json` after the file is read, up to and
      including `compile()`: the start check comes first, then the library's
      check that every route-table target is a node. Only the router's table
      can name a node the graph lacks; the review node's aims at a node or END. */
  function Compile(w: Workflow): Result<CompiledGraph, BuildError> {
    match NameActivities(Activities(w))
    case Err(e) => Err(e)
    case Ok(nm) =>
      var wired := WireAll(nm.nodeMap, Connections(w));
      var start := StartId(w);
      var missing := FirstMissing(RouterTargets, NamesOf(nm.nodes));
      if start !in nm.nodeMap || nm.nodeMap[start] == "" then Err(StartNotFound(start))
      else if "RouterTask1" in wired.branches && missing.Some? then Err(UnknownTarget("RouterTask1", missing.value))
      else
        Ok(CompiledGraph(nm.nodes, nm.nodeMap,
                         wired.edges + EndEdges(nm.nodeMap.Values, wired.outgoing),
                         wired.branches, nm.nodeMap[start]))
  }

  /** `build_graph`: only a definition with both `WorkflowActivities` and
      `StartActivityId` is accepted, and it is then compiled. */
  function BuildGraph(w: Workflow): (r: Result<CompiledGraph, BuildError>)
    ensures w.activities.None? || w.startId.None? ==> r == Err(UnsupportedFormat)
    ensures w.activities.Some? && w.startId.Some? ==> r == Compile(w)
  {
    if w.activities.Some? && w.startId.Some? then Compile(w) else Err(UnsupportedFormat)
  }

  // ---------------------------------------------------------------------------
  // The builder as written: loops over activities, connections and node names
  // ---------------------------------------------------------------------------

  lemma {:induction false} NameErrorPersists(acts: seq<Activity>, n: nat)
    requires 0 < n <= |acts| && NameActivities(acts[..n]).Err?
    ensures NameActivities(acts) == NameActivities(acts[..n])
  {
    if n == |acts| {
      assert acts[..n] == acts;
    } else {
      var init := acts[..|acts| - 1];
      assert init[..n] == acts[..n];
      NameErrorPersists(init, n);
    }
  }

  /** The `while` loop that bumps `suffix` until the candidate is free. */
  method PickNodeName(name: string, taken: set<string>) returns (nodeName: string)
    ensures nodeName == UniqueName(name, taken)
  {
    nodeName := name;
    if name in taken {
      var suffix := 2;
      var uniqueName := Suffixed(name, suffix);
      while uniqueName in taken
        invariant 2 <= suffix && uniqueName == Suffixed(name, suffix)
        invariant forall j :: 2 <= j < suffix ==> Suffixed(name, j) in taken
        invariant FirstFreeSuffix(name, taken, suffix) == FirstFreeSuffix(name, taken, 2)
        decreases |taken - SuffixesBelow(name, suffix)|
      {
        SuffixStep(name, taken, suffix);
        suffix := suffix + 1;
        uniqueName := Suffixed(name, suffix);
      }
      nodeName := uniqueName;
    }
  }

  /** The activity loop: registers one node per activity, in order. */
  method AddNodes(activities: seq<Activity>) returns (r: Result<Naming, BuildError>)
    ensures r == NameActivities(activities)
  {
    var nodeMap: map<string, string> := map[];
    var nodes: seq<GraphNode> := [];
    var graphNodes: set<string> := {};
    for i := 0 to |activities|
      invariant NameActivities(activities[..i]) == Ok(Naming(nodeMap, nodes))
      invariant graphNodes == NamesOf(nodes)
    {
      var activity := activities[i];
      assert activities[..i + 1][..i] == activities[..i];
      var handler := HandlerFor(activity.name);
      if handler.None? {
        NameErrorPersists(activities, i + 1);
        return Err(NoHandler(activity.name));
      }
      var nodeName := PickNodeName(activity.name, nodeMap.Values);
      if nodeName in graphNodes {
        NameErrorPersists(activities, i + 1);
        return Err(DuplicateNode(nodeName));
      }
      NamesOfAppend(nodes, GraphNode(nodeName, handler.value));
      nodes := nodes + [GraphNode(nodeName, handler.value)];
      graphNodes := graphNodes + {nodeName};
      nodeMap := nodeMap[activity.id := nodeName];
    }
    assert activities[..|activities|] == activities;
    r := Ok(Naming(nodeMap, nodes));
  }

  /** The connection loop. */
  method AddConnections(nodeMap: map<string, string>, connections: seq<Connection>) returns (wired: Wiring)
    ensures wired == WireAll(nodeMap, connections)
  {
    var outgoing: map<string, seq<string>> := map[];
    var conditionalNodes: set<string> := {};
    var edges: set<(string, Target)> := {};
    var branches: map<string, Branch> := map[];
    for i := 0 to |connections|
      invariant WireAll(nodeMap, connections[..i]) == Wiring(outgoing, conditionalNodes, edges, branches)
    {
      assert connections[..i + 1][..i] == connections[..i];
      var connection := connections[i];
      var sourceNode := if connection.source in nodeMap then Some(nodeMap[connection.source]) else None;
      var targetNode := if connection.target in nodeMap then Some(nodeMap[connection.target]) else None;
      if !Given(sourceNode) || !Given(targetNode) {
        continue;
      }
      var src, tgt := sourceNode.value, targetNode.value;
      outgoing := outgoing[src := (if src in outgoing then outgoing[src] else []) + [tgt]];
      if src == "RouterTask1" {
        if src in conditionalNodes {
          continue;
        }
        branches := branches[src := RouterBranch()];
        conditionalNodes := conditionalNodes + {src};
      } else if src == "UserTask2" {
        if src in conditionalNodes {
          continue;
        }
        branches := branches[src := ReviewBranch(tgt)];
        conditionalNodes := conditionalNodes + {src};
      } else {
        edges := edges + {(src, Node(tgt))};
      }
    }
    assert connections[..|connections|] == connections;
    wired := Wiring(outgoing, conditionalNodes, edges, branches);
  }

  /** The final loop: an END edge for every node name without outgoing connections. */
  method AddEndEdges(names: set<string>, outgoing: map<string, seq<string>>, edges0: set<(string, Target)>)
    returns (edges: set<(string, Target)>)
    ensures edges == edges0 + EndEdges(names, outgoing)
  {
    edges := edges0;
    var remaining := names;
    while remaining != {}
      invariant remaining <= names
      invariant edges == edges0 + EndEdges(names - remaining, outgoing)
      decreases remaining
    {
      var nodeName :| nodeName in remaining;
      if nodeName !in outgoing {
        edges := edges + {(nodeName, End)};
      }
      remaining := remaining - {nodeName};
    }
    assert names - remaining == names;
  }

  /** `build_from_copilot_json` once the file is decoded. */
  method BuildFromCopilotJson(w: Workflow) returns (r: Result<CompiledGraph, BuildError>)
    ensures r == Compile(w)
  {
    var activities := w.activities.GetOr([]);
    var connections := w.connections.GetOr([]);
    var startId := w.startId.GetOr("1");
    var naming := AddNodes(activities);
    if naming.Err? {
      return Err(naming.error);
    }
    var nodeMap := naming.value.nodeMap;
    var wired := AddConnections(nodeMap, connections);
    var startNodeName := if startId in nodeMap then Some(nodeMap[startId]) else None;
    if !Given(startNodeName) {
      return Err(StartNotFound(startId));
    }
    var edges := AddEndEdges(nodeMap.Values, wired.outgoing, wired.edges);
    var missing := FirstMissing(RouterTargets, NamesOf(naming.value.nodes));
    if "RouterTask1" in wired.branches && missing.Some? {
      return Err(UnknownTarget("RouterTask1", missing.value));
    }
    r := Ok(CompiledGraph(naming.value.nodes, nodeMap, edges, wired.branches, startNodeName.value));
  }
}
