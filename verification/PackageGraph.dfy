/** The dependency graph of the configured packages, and the depth-first search that refuses cycles. */
module PackageGraph {
  import opened Wrappers

  type Graph = map<string, seq<string>>

  predicate Edge(g: Graph, a: string, b: string) {
    a in g && b in g[a]
  }

  predicate Walk(g: Graph, path: seq<string>) {
    path != [] && forall i | 0 <= i < |path| - 1 :: Edge(g, path[i], path[i + 1])
  }

  /** A walk along dependencies that ends where it began. */
  predicate ClosedWalk(g: Graph, path: seq<string>) {
    Walk(g, path) && |path| >= 2 && path[0] == path[|path| - 1]
  }

  ghost predicate Acyclic(g: Graph) {
    forall path :: !ClosedWalk(g, path)
  }

  datatype Color = Visiting | Visited

  ghost function Nodes(g: Graph): set<string> {
    g.Keys + set a, b | a in g && b in g[a] :: b
  }

  /** Every successor of a finished node finished before it. */
  ghost predicate Settled(g: Graph, order: seq<string>) {
    forall i, b | 0 <= i < |order| && Edge(g, order[i], b) :: b in order[..i]
  }

  ghost predicate Distinct(path: seq<string>) {
    forall i, j | 0 <= i < j < |path| :: path[i] != path[j]
  }

  /** A walk from a finished node stays among finished ones, ever earlier. */
  lemma {:induction false} WalkDescends(g: Graph, order: seq<string>, path: seq<string>, i: nat)
    requires Settled(g, order) && Distinct(order) && Walk(g, path) && |path| >= 2
    requires i < |order| && order[i] == path[0]
    ensures path[|path| - 1] in order[..i]
  {
    assert Edge(g, path[0], path[1]);
    var j :| 0 <= j < i && order[..i][j] == path[1];
    if |path| > 2 {
      assert forall k | 0 <= k < |path| - 2 :: Edge(g, path[1..][k], path[1..][k + 1]);
      WalkDescends(g, order, path[1..], j);
      assert path[1..][|path| - 2] == path[|path| - 1];
    }
  }

  lemma SettledIsAcyclic(g: Graph, order: seq<string>)
    requires Settled(g, order) && Distinct(order) && forall n | n in g :: n in order
    ensures Acyclic(g)
  {
    forall path ensures !ClosedWalk(g, path) {
      if ClosedWalk(g, path) {
        assert Edge(g, path[0], path[1]);
        var i :| 0 <= i < |order| && order[i] == path[0];
        WalkDescends(g, order, path, i);
        NotBeforeItself(order, i);
      }
    }
  }

  lemma SettledSnoc(g: Graph, order: seq<string>, name: string)
    requires Settled(g, order) && forall b | Edge(g, name, b) :: b in order
    ensures Settled(g, order + [name])
  {
    assert forall i | 0 <= i <= |order| :: (order + [name])[..i] == order[..i];
  }

  lemma NotBeforeItself(order: seq<string>, i: nat)
    requires Distinct(order) && i < |order|
    ensures order[i] !in order[..i]
  {
  }

  /** The colours, the walk under way, and the finished nodes in the order they finished. */
  ghost predicate Consistent(g: Graph, color: map<string, Color>, stack: seq<string>, order: seq<string>) {
    && (forall n | n in color :: n in Nodes(g))
    && (forall n :: (n in color && color[n].Visiting?) <==> n in stack)
    && (forall n :: (n in color && color[n].Visited?) <==> n in order)
    && Distinct(stack) && Distinct(order) && Settled(g, order)
    && (stack != [] ==> Walk(g, stack))
  }

  class Search {
    const graph: Graph
    var color: map<string, Color>
    var stack: seq<string>
    ghost var order: seq<string>

    ghost predicate Valid()
      reads this
    {
      Consistent(graph, color, stack, order)
    }

    constructor (graph: Graph)
      ensures Valid() && this.graph == graph && stack == [] && order == []
    {
      this.graph, color, stack, order := graph, map[], [], [];
    }

    /** None if nothing reachable from the name lies on a cycle, else the first cycle met. */
    method Visit(name: string) returns (cycle: Option<seq<string>>)
      requires Valid() && name in Nodes(graph)
      requires stack != [] ==> Edge(graph, stack[|stack| - 1], name)
      modifies this
      ensures cycle.Some? ==> ClosedWalk(graph, cycle.value)
      ensures cycle.None? ==>
        && Valid() && stack == old(stack) && old(order) <= order && name in order
        && old(color.Keys) <= color.Keys
      decreases Nodes(graph) - color.Keys, 0
    {
      if name in color {
        if color[name].Visited? {
          return None;
        }
        var walk := CycleTo(name);
        return Some(walk);
      }
      Enter(name);
      hide Consistent;
      cycle := VisitEdges(name);
      if cycle.None? {
        Leave(name);
        assert stack == old(stack);
      }
    }

    /** Visits the successors of the node under way. */
    method VisitEdges(name: string) returns (cycle: Option<seq<string>>)
      requires Valid() && stack != [] && stack[|stack| - 1] == name
      modifies this
      ensures cycle.Some? ==> ClosedWalk(graph, cycle.value)
      ensures cycle.None? ==>
        && Valid() && stack == old(stack) && old(order) <= order && (forall b | Edge(graph, name, b) :: b in order)
        && old(color.Keys) <= color.Keys
      decreases Nodes(graph) - color.Keys, 1
    {
      hide Consistent;
      var edges := if name in graph then graph[name] else [];
      for i := 0 to |edges|
        invariant Valid() && stack == old(stack) && old(order) <= order
        invariant old(color.Keys) <= color.Keys
        invariant forall k | 0 <= k < i :: edges[k] in order
      {
        assert Edge(graph, name, edges[i]);
        cycle := Visit(edges[i]);
        if cycle.Some? {
          return cycle;
        }
      }
      return None;
    }

    method CycleTo(name: string) returns (walk: seq<string>)
      requires Valid() && name in stack && Edge(graph, stack[|stack| - 1], name)
      ensures ClosedWalk(graph, walk)
    {
      var start := 0;
      while stack[start] != name
        invariant start < |stack| && forall i | 0 <= i < start :: stack[i] != name
        decreases |stack| - start
      {
        start := start + 1;
      }
      return stack[start..] + [name];
    }

    method Enter(name: string)
      requires Valid() && name in Nodes(graph) && name !in color
      requires stack != [] ==> Edge(graph, stack[|stack| - 1], name)
      modifies this
      ensures Valid() && stack == old(stack) + [name] && order == old(order) && color.Keys == old(color.Keys) + {name}
    {
      color := color[name := Visiting];
      stack := stack + [name];
    }

    method Leave(name: string)
      requires Valid() && stack != [] && stack[|stack| - 1] == name
      requires forall b | Edge(graph, name, b) :: b in order
      modifies this
      ensures Valid() && stack == old(stack)[..|old(stack)| - 1] && order == old(order) + [name]
      ensures color.Keys == old(color.Keys)
    {
      assert stack[|stack| - 1] in stack;
      SettledSnoc(graph, order, name);
      stack := stack[..|stack| - 1];
      color := color[name := Visited];
      order := order + [name];
    }
  }

  /** Refuses exactly the graphs with a cycle, and reports a real one. */
  method AssertAcyclic(packages: seq<string>, graph: Graph) returns (cycle: Option<seq<string>>)
    requires forall n :: n in graph <==> n in packages
    ensures cycle.None? <==> Acyclic(graph)
    ensures cycle.Some? ==> ClosedWalk(graph, cycle.value)
  {
    var search := new Search(graph);
    for i := 0 to |packages|
      invariant search.Valid() && search.graph == graph && search.stack == []
      invariant forall k | 0 <= k < i :: packages[k] in search.order
    {
      cycle := search.Visit(packages[i]);
      if cycle.Some? {
        return cycle;
      }
    }
    SettledIsAcyclic(graph, search.order);
    return None;
  }

  datatype Package = Package(name: string, dependencies: seq<string>)

  /** How a name reads without surrounding white space and letter case: names that read the same are
      the same to the graph. */
  type Fold = string -> string

  predicate Named(fold: Fold, packages: seq<Package>, key: string) {
    exists i :: 0 <= i < |packages| && fold(packages[i].name) == key
  }

  predicate GoodDependency(fold: Fold, packages: seq<Package>, p: Package, dependency: string) {
    Named(fold, packages, fold(dependency)) && fold(dependency) != fold(p.name)
  }

  /** No name twice, no unknown dependency, and none on oneself. */
  predicate WellFormed(fold: Fold, packages: seq<Package>) {
    && (forall i, j | 0 <= i < j < |packages| :: fold(packages[i].name) != fold(packages[j].name))
    && (forall i, d | 0 <= i < |packages| && d in packages[i].dependencies ::
          GoodDependency(fold, packages, packages[i], d))
  }

  function Edges(fold: Fold, dependencies: seq<string>): seq<string> {
    seq(|dependencies|, i requires 0 <= i < |dependencies| => fold(dependencies[i]))
  }

  method Names(fold: Fold, packages: seq<Package>) returns (names: Option<seq<string>>)
    ensures names.None? <==> exists i, j :: 0 <= i < j < |packages|
                                            && fold(packages[i].name) == fold(packages[j].name)
    ensures names.Some? ==>
      |names.value| == |packages| && forall i | 0 <= i < |packages| :: names.value[i] == fold(packages[i].name)
  {
    var keys: seq<string> := [];
    for i := 0 to |packages|
      invariant |keys| == i && forall k | 0 <= k < i :: keys[k] == fold(packages[k].name)
      invariant forall k, l | 0 <= k < l < i :: fold(packages[k].name) != fold(packages[l].name)
    {
      var key := fold(packages[i].name);
      if key in keys {
        return None;
      }
      keys := keys + [key];
    }
    return Some(keys);
  }

  /** The edges of one package, refused if one of them is unknown or its own. */
  method Resolve(fold: Fold, packages: seq<Package>, names: seq<string>, p: Package)
    returns (edges: Option<seq<string>>)
    requires |names| == |packages| && forall i | 0 <= i < |packages| :: names[i] == fold(packages[i].name)
    ensures edges.Some? <==> forall d | d in p.dependencies :: GoodDependency(fold, packages, p, d)
    ensures edges.Some? ==> edges.value == Edges(fold, p.dependencies)
  {
    var resolved: seq<string> := [];
    for i := 0 to |p.dependencies|
      invariant resolved == Edges(fold, p.dependencies[..i])
      invariant forall k | 0 <= k < i :: GoodDependency(fold, packages, p, p.dependencies[k])
    {
      var key := fold(p.dependencies[i]);
      assert Named(fold, packages, key) <==> key in names;
      if key !in names || key == fold(p.name) {
        assert !GoodDependency(fold, packages, p, p.dependencies[i]);
        return None;
      }
      resolved := resolved + [key];
    }
    assert p.dependencies[..|p.dependencies|] == p.dependencies;
    return Some(resolved);
  }

  /** The graph as configured: for every package, its dependencies under their graph names. */
  ghost function GraphOf(fold: Fold, packages: seq<Package>): Graph
    requires WellFormed(fold, packages)
  {
    map i | 0 <= i < |packages| :: fold(packages[i].name) := Edges(fold, packages[i].dependencies)
  }

  /** The graph built so far holds the edges of the packages so far, all of them good. */
  ghost predicate BuiltFrom(fold: Fold, packages: seq<Package>, names: seq<string>, built: Graph, i: nat)
    requires i <= |packages| == |names|
  {
    && (forall key :: key in built <==> key in names[..i])
    && (forall k | 0 <= k < i :: names[k] in built && built[names[k]] == Edges(fold, packages[k].dependencies))
    && (forall k, d | 0 <= k < i && d in packages[k].dependencies :: GoodDependency(fold, packages, packages[k], d))
  }

  ghost predicate NamesOf(fold: Fold, packages: seq<Package>, names: seq<string>) {
    && |names| == |packages|
    && (forall i | 0 <= i < |packages| :: names[i] == fold(packages[i].name))
    && (forall i, j | 0 <= i < j < |names| :: names[i] != names[j])
  }

  lemma BuildOne(fold: Fold, packages: seq<Package>, names: seq<string>, built: Graph, i: nat)
    requires i < |packages| && NamesOf(fold, packages, names) && BuiltFrom(fold, packages, names, built, i)
    requires forall d | d in packages[i].dependencies :: GoodDependency(fold, packages, packages[i], d)
    ensures BuiltFrom(fold, packages, names, built[names[i] := Edges(fold, packages[i].dependencies)], i + 1)
  {
    hide Edges, GoodDependency;
    assert names[..i + 1] == names[..i] + [names[i]];
  }

  lemma BuiltAll(fold: Fold, packages: seq<Package>, names: seq<string>, built: Graph)
    requires NamesOf(fold, packages, names) && BuiltFrom(fold, packages, names, built, |packages|)
    ensures WellFormed(fold, packages) && built == GraphOf(fold, packages)
    ensures forall n :: n in built <==> n in names
  {
    hide Edges, GoodDependency;
    assert names[..|packages|] == names;
    assert WellFormed(fold, packages);
  }

  /** Accepts a configuration exactly when it names a package, is well formed, and its graph has
      no cycle. */
  method Normalize(fold: Fold, packages: seq<Package>) returns (graph: Option<Graph>)
    ensures graph.Some? <==> packages != [] && WellFormed(fold, packages) && Acyclic(GraphOf(fold, packages))
    ensures graph.Some? ==> graph.value == GraphOf(fold, packages)
  {
    if packages == [] {
      return None;
    }
    hide Edges, Acyclic, GoodDependency;
    var names := Names(fold, packages);
    if names.None? {
      return None;
    }
    assert NamesOf(fold, packages, names.value);
    var built: Graph := map[];
    for i := 0 to |packages|
      invariant BuiltFrom(fold, packages, names.value, built, i)
    {
      hide BuiltFrom, NamesOf;
      var edges := Resolve(fold, packages, names.value, packages[i]);
      if edges.None? {
        return None;
      }
      BuildOne(fold, packages, names.value, built, i);
      built := built[names.value[i] := edges.value];
    }
    BuiltAll(fold, packages, names.value, built);
    hide WellFormed, BuiltFrom;
    var cycle := AssertAcyclic(names.value, built);
    return if cycle.None? then Some(built) else None;
  }
}
