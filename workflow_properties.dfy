/** What the topology compiler promises: unique node names, the failure
    conditions, dropped dangling connections, END edges for exactly the sinks,
    and the two conditional edges with the targets their routers can reach. */
module WorkflowProperties {
  import opened Common
  import opened Text
  import opened Routing
  import opened WorkflowGraph

  // ---------------------------------------------------------------------------
  // Naming
  // ---------------------------------------------------------------------------

  /** Registered activity names are non-empty and contain no `_`, so no
      suffixed name can clash with one. */
  lemma RegisteredNamesPlain(n: string)
    requires HandlerFor(n).Some?
    ensures n != [] && '_' !in n
  {
  }

  lemma SuffixedHasUnderscore(name: string, k: nat)
    ensures '_' in Suffixed(name, k) && Suffixed(name, k) != []
  {
    assert Suffixed(name, k)[|name|] == '_';
  }

  lemma UpdateFreshKeyValues(m: map<string, string>, k: string, v: string)
    requires k !in m
    ensures m[k := v].Values == m.Values + {v}
  {
    forall x | x in m.Values ensures x in m[k := v].Values {
      var k' :| k' in m && m[k'] == x;
      assert m[k := v][k'] == x;
    }
    assert m[k := v][k] == v;
  }

  lemma UpdateValuesBound(m: map<string, string>, k: string, v: string)
    ensures m[k := v].Values <= m.Values + {v}
  {
  }

  /** One pass of the naming loop, for the last activity. */
  lemma NamingStep(acts: seq<Activity>)
    requires acts != [] && NameActivities(acts).Ok?
    ensures NameActivities(acts[..|acts| - 1]).Ok?
    ensures HandlerFor(acts[|acts| - 1].name).Some?
    ensures var nmp := NameActivities(acts[..|acts| - 1]).value;
      var a := acts[|acts| - 1];
      var n := UniqueName(a.name, nmp.nodeMap.Values);
      && n !in NamesOf(nmp.nodes)
      && NameActivities(acts).value
           == Naming(nmp.nodeMap[a.id := n], nmp.nodes + [GraphNode(n, HandlerFor(a.name).value)])
  {
  }

  lemma {:induction false} NamingLength(acts: seq<Activity>)
    requires NameActivities(acts).Ok?
    ensures |NameActivities(acts).value.nodes| == |acts|
  {
    if acts != [] {
      NamingStep(acts);
      NamingLength(acts[..|acts| - 1]);
    }
  }

  /** The node map is keyed by exactly the activity ids. */
  lemma {:induction false} NamingKeys(acts: seq<Activity>)
    requires NameActivities(acts).Ok?
    ensures NameActivities(acts).value.nodeMap.Keys == (set a | a in acts :: a.id)
  {
    if acts != [] {
      var pre := acts[..|acts| - 1];
      var a := acts[|acts| - 1];
      NamingStep(acts);
      NamingKeys(pre);
      assert acts == pre + [a];
      assert (set x | x in acts :: x.id) == (set x | x in pre :: x.id) + {a.id};
    }
  }

  /** Each node carries the handler registered for its activity's name. */
  lemma {:induction false} NamingHandlers(acts: seq<Activity>)
    requires NameActivities(acts).Ok?
    ensures |NameActivities(acts).value.nodes| == |acts|
    ensures forall i :: 0 <= i < |acts| ==>
      HandlerFor(acts[i].name) == Some(NameActivities(acts).value.nodes[i].handler)
  {
    NamingLength(acts);
    if acts != [] {
      var pre := acts[..|acts| - 1];
      NamingStep(acts);
      NamingHandlers(pre);
      var nodes, pn := NameActivities(acts).value.nodes, NameActivities(pre).value.nodes;
      assert nodes == pn + [nodes[|pre|]];
      forall i | 0 <= i < |acts| ensures HandlerFor(acts[i].name) == Some(nodes[i].handler) {
        if i < |pre| {
          assert acts[i] == pre[i] && nodes[i] == pn[i];
        }
      }
    }
  }

  /** The name `UniqueName` gives a registered name is that name or contains `_`. */
  lemma UniqueNameShape(name: string, taken: set<string>)
    requires HandlerFor(name).Some?
    ensures UniqueName(name, taken) != ""
    ensures UniqueName(name, taken) == name || '_' in UniqueName(name, taken)
  {
    RegisteredNamesPlain(name);
    if name in taken {
      SuffixedHasUnderscore(name, FirstFreeSuffix(name, taken, 2));
    }
  }

  /** Each node's name is its activity's name or a suffixed one. */
  lemma {:induction false} NamingNames(acts: seq<Activity>)
    requires NameActivities(acts).Ok?
    ensures |NameActivities(acts).value.nodes| == |acts|
    ensures forall i :: 0 <= i < |acts| ==>
      NameActivities(acts).value.nodes[i].name == acts[i].name
      || '_' in NameActivities(acts).value.nodes[i].name
  {
    NamingLength(acts);
    if acts != [] {
      var pre := acts[..|acts| - 1];
      var a := acts[|acts| - 1];
      NamingStep(acts);
      NamingNames(pre);
      UniqueNameShape(a.name, NameActivities(pre).value.nodeMap.Values);
      var nodes, pn := NameActivities(acts).value.nodes, NameActivities(pre).value.nodes;
      assert nodes == pn + [nodes[|pre|]];
      OwnOrSuffixedGrows(pre, a, pn, nodes[|pre|]);
      assert acts == pre + [a];
    }
  }

  /** Appending one activity and its node keeps every node named either as its
      activity or with a suffix. */
  lemma OwnOrSuffixedGrows(pre: seq<Activity>, a: Activity, pn: seq<GraphNode>, x: GraphNode)
    requires |pn| == |pre|
    requires forall i :: 0 <= i < |pre| ==> pn[i].name == pre[i].name || '_' in pn[i].name
    requires x.name == a.name || '_' in x.name
    ensures forall i :: 0 <= i < |pre| + 1 ==>
      (pn + [x])[i].name == (pre + [a])[i].name || '_' in (pn + [x])[i].name
  {
  }

  /** No id maps to the empty name. */
  lemma {:induction false} NamingValuesNonEmpty(acts: seq<Activity>)
    requires NameActivities(acts).Ok?
    ensures forall v :: v in NameActivities(acts).value.nodeMap.Values ==> v != ""
  {
    if acts != [] {
      var pre := acts[..|acts| - 1];
      var a := acts[|acts| - 1];
      NamingStep(acts);
      NamingValuesNonEmpty(pre);
      var nmp := NameActivities(pre).value;
      UniqueNameShape(a.name, nmp.nodeMap.Values);
      UpdateValuesBound(nmp.nodeMap, a.id, UniqueName(a.name, nmp.nodeMap.Values));
    }
  }

  /** Facts about every successful naming pass: one node per activity with the
      activity's handler, the map keyed by the activity ids, non-empty names,
      and each name either the activity's own or a suffixed one. */
  lemma NamingShape(acts: seq<Activity>)
    requires NameActivities(acts).Ok?
    ensures var nm := NameActivities(acts).value;
      |nm.nodes| == |acts|
      && nm.nodeMap.Keys == (set a | a in acts :: a.id)
      && (forall i :: 0 <= i < |acts| ==> HandlerFor(acts[i].name) == Some(nm.nodes[i].handler))
      && (forall i :: 0 <= i < |acts| ==> nm.nodes[i].name == acts[i].name || '_' in nm.nodes[i].name)
      && (forall v :: v in nm.nodeMap.Values ==> v != "")
  {
    NamingKeys(acts);
    NamingHandlers(acts);
    NamingNames(acts);
    NamingValuesNonEmpty(acts);
  }

  /** Naming succeeds only when every activity name is registered; with
      distinct ids that is also enough, since the map's values are then the
      node names and the chosen name is never one of them. */
  lemma NamingSucceedsIff(acts: seq<Activity>)
    ensures NameActivities(acts).Ok? ==> forall i :: 0 <= i < |acts| ==> HandlerFor(acts[i].name).Some?
    ensures DistinctIds(acts) && (forall i :: 0 <= i < |acts| ==> HandlerFor(acts[i].name).Some?) ==>
      NameActivities(acts).Ok?
  {
    if NameActivities(acts).Ok? {
      NamingHandlers(acts);
    }
    if DistinctIds(acts) && forall i :: 0 <= i < |acts| ==> HandlerFor(acts[i].name).Some? {
      NamingSucceeds(acts);
    }
  }

  /** With distinct ids and every name registered, each pass adds a node. */
  lemma {:induction false} NamingSucceeds(acts: seq<Activity>)
    requires DistinctIds(acts)
    requires forall i :: 0 <= i < |acts| ==> HandlerFor(acts[i].name).Some?
    ensures NameActivities(acts).Ok?
  {
    if acts != [] {
      var pre := acts[..|acts| - 1];
      assert forall i :: 0 <= i < |pre| ==> pre[i] == acts[i];
      assert DistinctIds(pre);
      NamingSucceeds(pre);
      NamingValues(pre);
      NameNextSucceeds(NameActivities(pre).value, acts[|acts| - 1]);
    }
  }

  /** A pass for a registered name succeeds while the map's values are the node
      names, since the chosen name is never one of them. */
  lemma NameNextSucceeds(nm: Naming, a: Activity)
    requires HandlerFor(a.name).Some?
    requires nm.nodeMap.Values == NamesOf(nm.nodes)
    ensures NameNext(nm, a).Ok?
  {
  }

  /** The nodes of a prefix are a prefix of the nodes. */
  lemma {:induction false} NamingPrefix(acts: seq<Activity>, n: nat)
    requires n <= |acts| && NameActivities(acts).Ok?
    ensures NameActivities(acts[..n]).Ok?
    ensures |NameActivities(acts).value.nodes| == |acts|
    ensures NameActivities(acts[..n]).value.nodes == NameActivities(acts).value.nodes[..n]
    decreases |acts| - n
  {
    NamingLength(acts);
    if n == |acts| {
      assert acts[..n] == acts;
    } else {
      NamingPrefix(acts, n + 1);
      var p := acts[..n + 1];
      assert p[..|p| - 1] == acts[..n];
      NamingStep(p);
      NamingLength(acts[..n]);
      var all := NameActivities(acts).value.nodes;
      var pre := NameActivities(acts[..n]).value.nodes;
      var grown := NameActivities(p).value.nodes;
      assert grown == pre + [grown[n]];
      assert grown[..n] == pre;
      assert all[..n + 1][..n] == all[..n];
    }
  }

  /** Node `i` receives the unique name computed from the names assigned before it. */
  lemma NodeNameAt(acts: seq<Activity>, i: nat)
    requires i < |acts| && NameActivities(acts).Ok?
    ensures NameActivities(acts[..i]).Ok?
    ensures |NameActivities(acts).value.nodes| == |acts|
    ensures NameActivities(acts).value.nodes[i].name
      == UniqueName(acts[i].name, NameActivities(acts[..i]).value.nodeMap.Values)
  {
    NamingPrefix(acts, i + 1);
    var p := acts[..i + 1];
    assert p[..|p| - 1] == acts[..i];
    assert p[|p| - 1] == acts[i];
    NamingStep(p);
    assert NameActivities(acts).value.nodes[i] == NameActivities(p).value.nodes[i];
  }

  /** Activity ids are pairwise distinct. */
  predicate DistinctIds(acts: seq<Activity>) {
    forall i, j :: 0 <= i < j < |acts| ==> acts[i].id != acts[j].id
  }

  /** The last activity's id is new when ids are distinct. */
  lemma LastIdFresh(acts: seq<Activity>)
    requires acts != [] && DistinctIds(acts) && NameActivities(acts).Ok?
    ensures NameActivities(acts[..|acts| - 1]).Ok?
    ensures acts[|acts| - 1].id !in NameActivities(acts[..|acts| - 1]).value.nodeMap
  {
    var pre := acts[..|acts| - 1];
    NamingStep(acts);
    NamingKeys(pre);
  }

  /** With distinct ids the node map's values are exactly the node names. */
  lemma {:induction false} NamingValues(acts: seq<Activity>)
    requires DistinctIds(acts) && NameActivities(acts).Ok?
    ensures NameActivities(acts).value.nodeMap.Values == NamesOf(NameActivities(acts).value.nodes)
  {
    if acts != [] {
      var pre := acts[..|acts| - 1];
      var a := acts[|acts| - 1];
      NamingStep(acts);
      LastIdFresh(acts);
      assert DistinctIds(pre);
      NamingValues(pre);
      var nmp := NameActivities(pre).value;
      var n := UniqueName(a.name, nmp.nodeMap.Values);
      UpdateFreshKeyValues(nmp.nodeMap, a.id, n);
      NamesOfAppend(nmp.nodes, GraphNode(n, HandlerFor(a.name).value));
    }
  }

  /** With distinct ids the node map sends each activity id to its node's name. */
  lemma {:induction false} NamingIdsMapped(acts: seq<Activity>)
    requires DistinctIds(acts) && NameActivities(acts).Ok?
    ensures |NameActivities(acts).value.nodes| == |acts|
    ensures forall i :: 0 <= i < |acts| ==>
      acts[i].id in NameActivities(acts).value.nodeMap
      && NameActivities(acts).value.nodeMap[acts[i].id] == NameActivities(acts).value.nodes[i].name
  {
    NamingLength(acts);
    if acts != [] {
      var pre := acts[..|acts| - 1];
      NamingStep(acts);
      LastIdFresh(acts);
      assert DistinctIds(pre);
      NamingIdsMapped(pre);
      var nm := NameActivities(acts).value;
      var nmp := NameActivities(pre).value;
      forall i | 0 <= i < |acts|
        ensures acts[i].id in nm.nodeMap && nm.nodeMap[acts[i].id] == nm.nodes[i].name
      {
        if i < |pre| {
          assert acts[i] == pre[i] && nm.nodes[i] == nmp.nodes[i];
        }
      }
    }
  }

  /** No two nodes of a successful naming share a name: the graph refuses a
      name it already holds. */
  lemma {:induction false} NamingNamesDistinct(acts: seq<Activity>)
    requires NameActivities(acts).Ok?
    ensures |NameActivities(acts).value.nodes| == |acts|
    ensures forall i, j :: 0 <= i < j < |acts| ==>
      NameActivities(acts).value.nodes[i].name != NameActivities(acts).value.nodes[j].name
  {
    NamingLength(acts);
    if acts != [] {
      var pre := acts[..|acts| - 1];
      NamingStep(acts);
      NamingNamesDistinct(pre);
      NamingLength(pre);
      var nm := NameActivities(acts).value;
      var nmp := NameActivities(pre).value;
      forall i, j | 0 <= i < j < |acts| ensures nm.nodes[i].name != nm.nodes[j].name {
        assert nm.nodes[i] == nmp.nodes[i];
        if j < |pre| {
          assert nm.nodes[j] == nmp.nodes[j];
        } else {
          assert nmp.nodes[i].name in NamesOf(nmp.nodes);
        }
      }
    }
  }

  /** Every activity's own name is held by some node. */
  lemma {:induction false} NamingOwnNamesPresent(acts: seq<Activity>)
    requires DistinctIds(acts) && NameActivities(acts).Ok?
    ensures forall i :: 0 <= i < |acts| ==> acts[i].name in NameActivities(acts).value.nodeMap.Values
  {
    if acts != [] {
      var pre := acts[..|acts| - 1];
      var a := acts[|acts| - 1];
      NamingStep(acts);
      LastIdFresh(acts);
      assert DistinctIds(pre);
      NamingOwnNamesPresent(pre);
      var nmp := NameActivities(pre).value;
      var n := UniqueName(a.name, nmp.nodeMap.Values);
      UpdateFreshKeyValues(nmp.nodeMap, a.id, n);
      assert NameActivities(acts).value.nodeMap == nmp.nodeMap[a.id := n];
      forall i | 0 <= i < |acts| ensures acts[i].name in NameActivities(acts).value.nodeMap.Values {
        if i < |pre| {
          assert acts[i] == pre[i];
        }
      }
    }
  }

  /** With distinct activity ids, graph node names are pairwise distinct, the
      node map sends each id to its node's name, its values are exactly the node
      names, and every activity's own name is among them. */
  lemma NamingDistinct(acts: seq<Activity>)
    requires DistinctIds(acts) && NameActivities(acts).Ok?
    ensures var nm := NameActivities(acts).value;
      |nm.nodes| == |acts|
      && (forall i :: 0 <= i < |acts| ==> acts[i].id in nm.nodeMap && nm.nodeMap[acts[i].id] == nm.nodes[i].name)
      && (forall i, j :: 0 <= i < j < |acts| ==> nm.nodes[i].name != nm.nodes[j].name)
      && nm.nodeMap.Values == NamesOf(nm.nodes)
      && (forall i :: 0 <= i < |acts| ==> acts[i].name in nm.nodeMap.Values)
  {
    NamingIdsMapped(acts);
    NamingNamesDistinct(acts);
    NamingValues(acts);
    NamingOwnNamesPresent(acts);
  }

  /** The suffixing rule, for distinct activity ids: the first activity with a
      given name keeps it; a later one gets `name_k` for the smallest `k >= 2`
      whose candidate no earlier node holds. */
  lemma NameAssignment(acts: seq<Activity>, i: nat)
    requires DistinctIds(acts) && NameActivities(acts).Ok? && i < |acts|
    ensures |NameActivities(acts).value.nodes| == |acts|
    ensures var nodes := NameActivities(acts).value.nodes;
      && ((forall j :: 0 <= j < i ==> acts[j].name != acts[i].name) ==> nodes[i].name == acts[i].name)
      && ((exists j :: 0 <= j < i && acts[j].name == acts[i].name) ==>
            exists k :: IsFirstFreeSuffix(acts[i].name, NamesOf(nodes[..i]), k)
                        && nodes[i].name == Suffixed(acts[i].name, k))
  {
    NodeNameAt(acts, i);
    NamingPrefix(acts, i);
    NamingNames(acts);
    NamingHandlers(acts);
    var pre := acts[..i];
    assert DistinctIds(pre);
    NamingValues(pre);
    NamingOwnNamesPresent(pre);
    var nodes := NameActivities(acts).value.nodes;
    var before := NameActivities(pre).value.nodeMap.Values;
    assert before == NamesOf(nodes[..i]);
    RegisteredNamesPlain(acts[i].name);
    if exists j :: 0 <= j < i && acts[j].name == acts[i].name {
      var j :| 0 <= j < i && acts[j].name == acts[i].name;
      assert pre[j].name == acts[i].name;
    }
  }

  /** With a repeated activity id the earlier entry of the node map is
      overwritten and its name leaves the map's values; a third activity is
      then given that name again, which the graph already holds, and the build
      fails. */
  lemma RepeatedIdFails()
    ensures var acts := [Activity("1", "Start", []), Activity("1", "Start", []), Activity("2", "Start", [])];
      && NameActivities(acts[..2]).Ok?
      && "Start" !in NameActivities(acts[..2]).value.nodeMap.Values
      && "Start" in NamesOf(NameActivities(acts[..2]).value.nodes)
      && NameActivities(acts) == Err(DuplicateNode("Start"))
      && Compile(Workflow(Some(acts), None, None)) == Err(DuplicateNode("Start"))
  {
    var x, y := Activity("1", "Start", []), Activity("2", "Start", []);
    var a1 := [x];
    var a2 := a1 + [x];
    var a3 := a2 + [y];
    var empty: map<string, string> := map[];
    var none: seq<GraphNode> := [];
    var g1 := GraphNode("Start", StartHandler);
    assert a1[..|a1| - 1] == [] && a1[|a1| - 1] == x;
    assert empty.Values == {};
    assert NameActivities(a1[..|a1| - 1]) == Ok(Naming(empty, none));
    assert HandlerFor(x.name) == Some(StartHandler);
    assert UniqueName("Start", empty.Values) == "Start";
    assert NamesOf(none) == {};
    assert none + [g1] == [g1];
    assert NameActivities(a1) == Ok(Naming(empty["1" := "Start"], [g1]));
    assert a2[..|a2| - 1] == a1 && a2[|a2| - 1] == x;
    UpdateFreshKeyValues(empty, "1", "Start");
    assert empty["1" := "Start"].Values == {"Start"};
    var s2 := UniqueName("Start", {"Start"});
    assert s2 != "Start";
    NamesOfAppend(none, g1);
    assert NamesOf([g1]) == {"Start"};
    var g2 := GraphNode(s2, StartHandler);
    assert [g1] + [g2] == [g1, g2];
    assert empty["1" := "Start"]["1" := s2] == empty["1" := s2];
    assert NameActivities(a2) == Ok(Naming(empty["1" := s2], [g1, g2]));
    UpdateFreshKeyValues(empty, "1", s2);
    assert empty["1" := s2].Values == {s2};
    assert [g1, g2][0].name == "Start";
    assert "Start" in NamesOf([g1, g2]);
    assert UniqueName("Start", {s2}) == "Start";
    assert a3[..|a3| - 1] == a2 && a3[|a3| - 1] == y;
    assert a3 == [Activity("1", "Start", []), Activity("1", "Start", []), Activity("2", "Start", [])];
    assert a3[..2] == a2;
  }

  // ---------------------------------------------------------------------------
  // Failure conditions
  // ---------------------------------------------------------------------------

  /** The build fails on the first activity whose name has no handler. */
  lemma CompileFailsOnUnknownHandler(w: Workflow, i: nat)
    requires i < |Activities(w)| && HandlerFor(Activities(w)[i].name).None?
    requires NameActivities(Activities(w)[..i]).Ok?
    ensures Compile(w) == Err(NoHandler(Activities(w)[i].name))
  {
    var acts := Activities(w);
    var p := acts[..i + 1];
    assert p[..|p| - 1] == acts[..i];
    NameErrorPersists(acts, i + 1);
  }

  /** Once every activity has its node, the build fails for the start id
      (default "1") exactly when no activity carries it. */
  lemma CompileStartCheck(w: Workflow)
    requires NameActivities(Activities(w)).Ok?
    ensures Compile(w) == Err(StartNotFound(StartId(w)))
      <==> !exists i :: 0 <= i < |Activities(w)| && Activities(w)[i].id == StartId(w)
  {
    var acts := Activities(w);
    NamingShape(acts);
    var nm := NameActivities(acts).value;
    if exists i :: 0 <= i < |acts| && acts[i].id == StartId(w) {
      var i :| 0 <= i < |acts| && acts[i].id == StartId(w);
      assert StartId(w) in nm.nodeMap.Keys;
      assert nm.nodeMap[StartId(w)] in nm.nodeMap.Values;
    }
  }

  /** Once every activity has its node, the build succeeds exactly when some
      activity carries the start id and, if the router has a conditional edge,
      all three of its route targets are nodes; otherwise `compile()` reports
      the first target of the router's table that is missing. */
  lemma CompileSucceedsIff(w: Workflow)
    requires NameActivities(Activities(w)).Ok?
    ensures var nm := NameActivities(Activities(w)).value;
      Compile(w).Ok? <==>
        (exists i :: 0 <= i < |Activities(w)| && Activities(w)[i].id == StartId(w))
        && ("RouterTask1" in SourceNames(nm.nodeMap, Connections(w)) ==>
              forall k :: 0 <= k < |RouterTargets| ==> RouterTargets[k] in NamesOf(nm.nodes))
    ensures var nm := NameActivities(Activities(w)).value;
      Compile(w).Err? && Compile(w) != Err(StartNotFound(StartId(w))) ==>
        exists k :: 0 <= k < |RouterTargets| && Compile(w) == Err(UnknownTarget("RouterTask1", RouterTargets[k]))
          && RouterTargets[k] !in NamesOf(nm.nodes)
          && forall j :: 0 <= j < k ==> RouterTargets[j] in NamesOf(nm.nodes)
  {
    CompileStartCheck(w);
    WiringBranchKeys(NameActivities(Activities(w)).value.nodeMap, Connections(w));
  }

  /** Every name in the node map is the name of a node, even after a repeated
      id has overwritten an entry. */
  lemma {:induction false} NamingValuesNamed(acts: seq<Activity>)
    requires NameActivities(acts).Ok?
    ensures NameActivities(acts).value.nodeMap.Values <= NamesOf(NameActivities(acts).value.nodes)
  {
    if acts != [] {
      var pre := acts[..|acts| - 1];
      var a := acts[|acts| - 1];
      NamingStep(acts);
      NamingValuesNamed(pre);
      var nmp := NameActivities(pre).value;
      var n := UniqueName(a.name, nmp.nodeMap.Values);
      UpdateValuesBound(nmp.nodeMap, a.id, n);
      NamesOfAppend(nmp.nodes, GraphNode(n, HandlerFor(a.name).value));
    }
  }

  /** The review node's route target is the target of a resolving connection. */
  lemma {:induction false} FirstTargetResolves(nodeMap: map<string, string>, conns: seq<Connection>, src: string)
    requires FirstTarget(nodeMap, conns, src).Some?
    ensures FirstTarget(nodeMap, conns, src).value in nodeMap.Values
  {
    var pre := conns[..|conns| - 1];
    if FirstTarget(nodeMap, pre, src).Some? {
      FirstTargetResolves(nodeMap, pre, src);
    }
  }

  /** What the graph library's `compile()` checks holds of every graph the
      build returns: the entry point, every edge's ends and every route-table
      target are nodes of the graph (or END). */
  lemma CompiledGraphValid(w: Workflow)
    requires Compile(w).Ok?
    ensures var g := Compile(w).value;
      g.entry in NamesOf(g.nodes)
      && (forall e :: e in g.edges ==> e.0 in NamesOf(g.nodes) && (e.1.Node? ==> e.1.name in NamesOf(g.nodes)))
      && (forall src :: src in g.branches ==> src in NamesOf(g.nodes))
      && (forall src, k :: src in g.branches && k in g.branches[src].routes && g.branches[src].routes[k].Node?
            ==> g.branches[src].routes[k].name in NamesOf(g.nodes))
  {
    var nm := NameActivities(Activities(w)).value;
    NamingValuesNamed(Activities(w));
    CompiledEdgesValid(nm, Connections(w));
    CompiledBranchesValid(nm, Connections(w));
  }

  lemma CompiledEdgesValid(nm: Naming, conns: seq<Connection>)
    requires nm.nodeMap.Values <= NamesOf(nm.nodes)
    ensures var wr := WireAll(nm.nodeMap, conns);
      forall e :: e in wr.edges + EndEdges(nm.nodeMap.Values, wr.outgoing) ==>
        e.0 in NamesOf(nm.nodes) && (e.1.Node? ==> e.1.name in NamesOf(nm.nodes))
  {
    WiringEdges(nm.nodeMap, conns);
    forall e | e in ConnectionEdges(nm.nodeMap, conns)
      ensures e.0 in nm.nodeMap.Values && e.1.Node? && e.1.name in nm.nodeMap.Values
    {
      var c :| c in conns && Resolves(nm.nodeMap, c) && nm.nodeMap[c.source] !in ConditionalNames
        && e == (nm.nodeMap[c.source], Node(nm.nodeMap[c.target]));
    }
  }

  lemma CompiledBranchesValid(nm: Naming, conns: seq<Connection>)
    requires nm.nodeMap.Values <= NamesOf(nm.nodes)
    requires "RouterTask1" in WireAll(nm.nodeMap, conns).branches ==>
      FirstMissing(RouterTargets, NamesOf(nm.nodes)).None?
    ensures var wr := WireAll(nm.nodeMap, conns);
      && (forall src :: src in wr.branches ==> src in NamesOf(nm.nodes))
      && (forall src, k :: src in wr.branches && k in wr.branches[src].routes && wr.branches[src].routes[k].Node?
            ==> wr.branches[src].routes[k].name in NamesOf(nm.nodes))
  {
    var wr := WireAll(nm.nodeMap, conns);
    WiringBranches(nm.nodeMap, conns);
    forall src | src in wr.branches ensures src in nm.nodeMap.Values {
      var c :| c in conns && Resolves(nm.nodeMap, c) && nm.nodeMap[c.source] == src;
    }
    if "UserTask2" in wr.branches {
      FirstTargetResolves(nm.nodeMap, conns, "UserTask2");
    }
    if "RouterTask1" in wr.branches {
      assert forall k :: 0 <= k < |RouterTargets| ==> RouterTargets[k] in NamesOf(nm.nodes);
      assert RouterTargets[0] == "RenderTask1" && RouterTargets[1] == "AgentTask1" && RouterTargets[2] == "UserTask2";
    }
  }

  /** A router wired in a graph without AgentTask1 or UserTask2 fails to build:
      its route table names AgentTask1 first among the missing nodes. */
  lemma RouterWithoutTargetsFails(acts: seq<Activity>, conns: seq<Connection>)
    requires acts == [Activity("1", "Start", []), Activity("2", "RouterTask1", []), Activity("3", "RenderTask1", [])]
    requires conns == [Connection("1", "2"), Connection("2", "3")]
    ensures Compile(Workflow(Some(acts), Some(conns), Some("1"))) == Err(UnknownTarget("RouterTask1", "AgentTask1"))
  {
    var w := Workflow(Some(acts), Some(conns), Some("1"));
    RouterExampleNaming(acts);
    var nm := NameActivities(acts).value;
    var wired := WireAll(nm.nodeMap, conns);
    assert Resolves(nm.nodeMap, conns[1]) && nm.nodeMap[conns[1].source] == "RouterTask1";
    assert "RouterTask1" in SourceNames(nm.nodeMap, conns);
    WiringBranchKeys(nm.nodeMap, conns);
    assert "RouterTask1" in wired.branches;
    assert FirstMissing(RouterTargets, NamesOf(nm.nodes)) == Some("AgentTask1") by {
      assert RouterTargets[1..] == ["AgentTask1", "UserTask2"];
    }
  }

  /** The naming pass of the example above: one node per activity, each under
      its own name. */
  lemma RouterExampleNaming(acts: seq<Activity>)
    requires acts == [Activity("1", "Start", []), Activity("2", "RouterTask1", []), Activity("3", "RenderTask1", [])]
    ensures NameActivities(acts).Ok?
    ensures var nm := NameActivities(acts).value;
      && "1" in nm.nodeMap && nm.nodeMap["1"] == "Start"
      && "2" in nm.nodeMap && nm.nodeMap["2"] == "RouterTask1"
      && "3" in nm.nodeMap && nm.nodeMap["3"] == "RenderTask1"
      && NamesOf(nm.nodes) == {"Start", "RouterTask1", "RenderTask1"}
  {
    assert DistinctIds(acts);
    NamingSucceedsIff(acts);
    NameAssignment(acts, 0);
    NameAssignment(acts, 1);
    NameAssignment(acts, 2);
    NamingIdsMapped(acts);
    var nodes := NameActivities(acts).value.nodes;
    assert NamesOf(nodes) == {nodes[0].name, nodes[1].name, nodes[2].name};
  }

  // ---------------------------------------------------------------------------
  // Connections
  // ---------------------------------------------------------------------------

  /** The node names that are the source of some resolving connection. */
  function SourceNames(nodeMap: map<string, string>, conns: seq<Connection>): set<string> {
    set c | c in conns && Resolves(nodeMap, c) :: nodeMap[c.source]
  }

  /** The direct edges the connections ask for: all resolving ones except
      those leaving the two conditional names. */
  function ConnectionEdges(nodeMap: map<string, string>, conns: seq<Connection>): set<(string, Target)> {
    set c | c in conns && Resolves(nodeMap, c) && nodeMap[c.source] !in ConditionalNames
      :: (nodeMap[c.source], Node(nodeMap[c.target]))
  }

  /** The target of the first resolving connection leaving `src`. */
  function FirstTarget(nodeMap: map<string, string>, conns: seq<Connection>, src: string): Option<string> {
    if conns == [] then None
    else
      var earlier := FirstTarget(nodeMap, conns[..|conns| - 1], src);
      var c := conns[|conns| - 1];
      if earlier.Some? then earlier
      else if Resolves(nodeMap, c) && nodeMap[c.source] == src then Some(nodeMap[c.target])
      else None
  }

  lemma SourceNamesStep(nodeMap: map<string, string>, conns: seq<Connection>)
    requires conns != []
    ensures var c := conns[|conns| - 1];
      SourceNames(nodeMap, conns)
      == SourceNames(nodeMap, conns[..|conns| - 1]) + (if Resolves(nodeMap, c) then {nodeMap[c.source]} else {})
  {
    assert conns == conns[..|conns| - 1] + [conns[|conns| - 1]];
  }

  lemma ConnectionEdgesStep(nodeMap: map<string, string>, conns: seq<Connection>)
    requires conns != []
    ensures var c := conns[|conns| - 1];
      ConnectionEdges(nodeMap, conns)
      == ConnectionEdges(nodeMap, conns[..|conns| - 1])
         + (if Resolves(nodeMap, c) && nodeMap[c.source] !in ConditionalNames
            then {(nodeMap[c.source], Node(nodeMap[c.target]))} else {})
  {
    assert conns == conns[..|conns| - 1] + [conns[|conns| - 1]];
  }

  /** The `outgoing` record holds exactly the resolving sources. */
  lemma {:induction false} WiringOutgoing(nodeMap: map<string, string>, conns: seq<Connection>)
    ensures WireAll(nodeMap, conns).outgoing.Keys == SourceNames(nodeMap, conns)
  {
    if conns != [] {
      WiringOutgoing(nodeMap, conns[..|conns| - 1]);
      SourceNamesStep(nodeMap, conns);
    }
  }

  /** The direct edges are exactly the resolving connections from non-conditional names. */
  lemma {:induction false} WiringEdges(nodeMap: map<string, string>, conns: seq<Connection>)
    ensures WireAll(nodeMap, conns).edges == ConnectionEdges(nodeMap, conns)
  {
    if conns != [] {
      WiringEdges(nodeMap, conns[..|conns| - 1]);
      ConnectionEdgesStep(nodeMap, conns);
    }
  }

  /** Each conditional name that is a resolving source gets one conditional
      edge: the router's fixed table, the review node's aimed at the target of
      its first connection. */
  lemma WiringBranches(nodeMap: map<string, string>, conns: seq<Connection>)
    ensures var wr := WireAll(nodeMap, conns);
      && wr.conditional == wr.branches.Keys == SourceNames(nodeMap, conns) * ConditionalNames
      && ("RouterTask1" in wr.branches ==> wr.branches["RouterTask1"] == RouterBranch())
      && (FirstTarget(nodeMap, conns, "UserTask2").Some? <==> "UserTask2" in wr.branches)
      && ("UserTask2" in wr.branches ==>
            wr.branches["UserTask2"] == ReviewBranch(FirstTarget(nodeMap, conns, "UserTask2").value))
  {
    WiringBranchKeys(nodeMap, conns);
    WiringBranchTargets(nodeMap, conns);
  }

  /** The conditional names wired are exactly the conditional resolving sources. */
  lemma {:induction false} WiringBranchKeys(nodeMap: map<string, string>, conns: seq<Connection>)
    ensures var wr := WireAll(nodeMap, conns);
      wr.conditional == wr.branches.Keys == SourceNames(nodeMap, conns) * ConditionalNames
  {
    if conns != [] {
      WiringBranchKeys(nodeMap, conns[..|conns| - 1]);
      SourceNamesStep(nodeMap, conns);
    }
  }

  /** The router's edge is its fixed table; the review node's is aimed at the
      target of its first connection. */
  lemma {:induction false} WiringBranchTargets(nodeMap: map<string, string>, conns: seq<Connection>)
    ensures var wr := WireAll(nodeMap, conns);
      && ("RouterTask1" in wr.branches ==> wr.branches["RouterTask1"] == RouterBranch())
      && (FirstTarget(nodeMap, conns, "UserTask2").Some? <==> "UserTask2" in wr.branches)
      && ("UserTask2" in wr.branches ==>
            wr.branches["UserTask2"] == ReviewBranch(FirstTarget(nodeMap, conns, "UserTask2").value))
  {
    if conns != [] {
      WiringBranchTargets(nodeMap, conns[..|conns| - 1]);
      WiringBranchKeys(nodeMap, conns[..|conns| - 1]);
    }
  }

  /** The connection loop, described by what it builds: the outgoing record
      holds every resolving source, the direct edges are exactly the resolving
      connections from other nodes, and each conditional name that is a source
      gets one conditional edge, the review node's from its first connection. */
  lemma WiringShape(nodeMap: map<string, string>, conns: seq<Connection>)
    ensures var wr := WireAll(nodeMap, conns);
      && wr.outgoing.Keys == SourceNames(nodeMap, conns)
      && wr.edges == ConnectionEdges(nodeMap, conns)
      && wr.conditional == wr.branches.Keys == SourceNames(nodeMap, conns) * ConditionalNames
      && ("RouterTask1" in wr.branches ==> wr.branches["RouterTask1"] == RouterBranch())
      && (FirstTarget(nodeMap, conns, "UserTask2").Some? <==> "UserTask2" in wr.branches)
      && ("UserTask2" in wr.branches ==>
            wr.branches["UserTask2"] == ReviewBranch(FirstTarget(nodeMap, conns, "UserTask2").value))
  {
    WiringOutgoing(nodeMap, conns);
    WiringEdges(nodeMap, conns);
    WiringBranches(nodeMap, conns);
  }

  /** The connections whose both ends resolve, in order. */
  function ResolvingOnly(nodeMap: map<string, string>, conns: seq<Connection>): (r: seq<Connection>)
    ensures forall c :: c in r ==> c in conns && Resolves(nodeMap, c)
  {
    if conns == [] then []
    else
      var c := conns[|conns| - 1];
      ResolvingOnly(nodeMap, conns[..|conns| - 1]) + (if Resolves(nodeMap, c) then [c] else [])
  }

  /** Dangling connections are ignored entirely: dropping them changes nothing
      the connection loop records. */
  lemma {:induction false} DanglingConnectionsIgnored(nodeMap: map<string, string>, conns: seq<Connection>)
    ensures WireAll(nodeMap, conns) == WireAll(nodeMap, ResolvingOnly(nodeMap, conns))
  {
    if conns != [] {
      var pre := conns[..|conns| - 1];
      var c := conns[|conns| - 1];
      DanglingConnectionsIgnored(nodeMap, pre);
      var rp := ResolvingOnly(nodeMap, pre);
      if Resolves(nodeMap, c) {
        assert ResolvingOnly(nodeMap, conns) == rp + [c];
        assert (rp + [c])[..|rp + [c]| - 1] == rp;
      } else {
        assert ResolvingOnly(nodeMap, conns) == rp;
      }
    }
  }

  // ---------------------------------------------------------------------------
  // The compiled graph
  // ---------------------------------------------------------------------------

  /** Exactly the nodes without a resolving outgoing connection get an edge to
      END, and only node names do. */
  lemma SinksRouteToEnd(w: Workflow)
    requires Compile(w).Ok?
    ensures var g := Compile(w).value;
      forall v :: v in g.nodeMap.Values ==>
        ((v, End) in g.edges <==>
          forall c :: c in Connections(w) && Resolves(g.nodeMap, c) ==> g.nodeMap[c.source] != v)
    ensures var g := Compile(w).value;
      forall e :: e in g.edges && e.1 == End ==> e.0 in g.nodeMap.Values
  {
    var g := Compile(w).value;
    WiringShape(g.nodeMap, Connections(w));
    forall v | v in g.nodeMap.Values
      ensures (v, End) in g.edges <==>
        forall c :: c in Connections(w) && Resolves(g.nodeMap, c) ==> g.nodeMap[c.source] != v
    {
      if v in SourceNames(g.nodeMap, Connections(w)) {
        var c :| c in Connections(w) && Resolves(g.nodeMap, c) && g.nodeMap[c.source] == v;
      }
    }
  }

  /** The conditional edges: one for each of `RouterTask1` and `UserTask2` that
      is the source of a resolving connection, the router's with its fixed
      route table and the review node's aimed at its first connection's target;
      those two names get no direct edge other than to END. */
  lemma ConditionalEdges(w: Workflow)
    requires Compile(w).Ok?
    ensures var g := Compile(w).value;
      g.branches.Keys == SourceNames(g.nodeMap, Connections(w)) * ConditionalNames
      && ("RouterTask1" in g.branches ==> g.branches["RouterTask1"] == RouterBranch())
      && ("UserTask2" in g.branches ==>
            FirstTarget(g.nodeMap, Connections(w), "UserTask2").Some?
            && g.branches["UserTask2"] == ReviewBranch(FirstTarget(g.nodeMap, Connections(w), "UserTask2").value))
      && (forall e :: e in g.edges && e.0 in ConditionalNames ==> e.1 == End && e.0 !in g.branches)
  {
    var g := Compile(w).value;
    WiringShape(g.nodeMap, Connections(w));
  }

  /** Whatever the state, the router's conditional edge leads to one of the
      three nodes its route table names, and to the review node exactly when
      the router node saw a pending review. */
  lemma RouterBranchTargets(w: Workflow, s: GraphState)
    requires Compile(w).Ok? && "RouterTask1" in Compile(w).value.branches
    ensures var b := Compile(w).value.branches["RouterTask1"];
      NextStep(b, s) in {Some(Node("RenderTask1")), Some(Node("AgentTask1")), Some(Node("UserTask2"))}
    ensures var b := Compile(w).value.branches["RouterTask1"];
      NextStep(b, RouterTaskNode(s)) == Some(Node("UserTask2")) <==> NeedsReview(s)
  {
    ConditionalEdges(w);
  }

  /** The review node's conditional edge always leads to END: its back edge is never taken. */
  lemma ReviewBranchEnds(w: Workflow, s: GraphState)
    requires Compile(w).Ok? && "UserTask2" in Compile(w).value.branches
    ensures NextStep(Compile(w).value.branches["UserTask2"], s) == Some(End)
  {
    ConditionalEdges(w);
  }
}
