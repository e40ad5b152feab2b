/** Dependency cycles of the schedule: the explicit-stack depth-first search and the edge
    labels it derives. */
module ScheduleCycles {
  import opened SearchForest
  import opened Sorting
  import opened Wrappers

  datatype Direction = Known | Unknown
  datatype CycleState = Member | Acyclic | Undetermined

  datatype Edge = Edge(source: string, target: Option<string>, direction: Direction, state: CycleState)

  ghost predicate OnCycle(g: Graph, v: string) {
    exists w :: Cycle(g, w) && w[0] == v
  }

  ghost predicate AcyclicGraph(g: Graph) {
    forall w :: !Cycle(g, w)
  }

  /** Both ends of the edge are reported. */
  ghost predicate Caught(reported: set<string>, u: string, v: string) { u in reported && v in reported }

  /** Some edge of the walk is caught. */
  ghost predicate Hits(reported: set<string>, w: seq<string>) {
    exists i | 0 <= i < |w| - 1 :: Caught(reported, w[i], w[i + 1])
  }

  ghost predicate HitsEveryCycle(g: Graph, reported: set<string>) {
    forall w :: Cycle(g, w) ==> Hits(reported, w)
  }

  // ---- the graph

  ghost predicate WellTyped(edges: seq<Edge>, ids: set<string>) {
    forall i | 0 <= i < |edges| ::
      edges[i].direction == Known && edges[i].target.Some? ==> edges[i].source in ids && edges[i].target.value in ids
  }

  /** A known edge of the input. */
  ghost predicate KnownEdge(edges: seq<Edge>, u: string, v: string) {
    exists i | 0 <= i < |edges| :: edges[i].direction == Known && edges[i].source == u && edges[i].target == Some(v)
  }

  /** The known targets of one node, in the order of their edges. */
  function Targets(edges: seq<Edge>, u: string): seq<string> {
    if edges == [] then []
    else
      var n := |edges| - 1;
      var e := edges[n];
      Targets(edges[..n], u)
        + (if e.direction == Known && e.source == u && e.target.Some? then [e.target.value] else [])
  }

  ghost function GraphOf(edges: seq<Edge>, ids: set<string>): Graph {
    map u | u in ids :: Targets(edges, u)
  }

  method BuildGraph(edges: seq<Edge>, ids: set<string>) returns (g: Graph)
    requires WellTyped(edges, ids)
    ensures g == GraphOf(edges, ids) && Closed(g)
    ensures forall u, v :: Step(g, u, v) <==> KnownEdge(edges, u, v)
  {
    g := map v | v in ids :: [];
    for i := 0 to |edges|
      invariant g == GraphOf(edges[..i], ids)
    {
      var e := edges[i];
      GraphMore(edges, ids, i);
      if e.direction == Known && e.target.Some? {
        g := g[e.source := g[e.source] + [e.target.value]];
      }
    }
    assert edges[..|edges|] == edges;
    GraphSteps(edges, ids);
  }

  lemma GraphMore(edges: seq<Edge>, ids: set<string>, i: nat)
    requires i < |edges| && WellTyped(edges, ids)
    ensures var e, g := edges[i], GraphOf(edges[..i], ids);
      GraphOf(edges[..i + 1], ids)
        == if e.direction == Known && e.target.Some? then g[e.source := g[e.source] + [e.target.value]] else g
  {
    assert edges[..i + 1][..i] == edges[..i];
    var e, g := edges[i], GraphOf(edges[..i], ids);
    forall u | u in ids
      ensures Targets(edges[..i + 1], u)
           == g[u] + (if e.direction == Known && e.source == u && e.target.Some? then [e.target.value] else [])
    {
    }
    assert forall u | u in ids :: g[u] + [] == g[u];
  }

  lemma {:induction false} TargetsAreKnown(edges: seq<Edge>, u: string, v: string)
    ensures v in Targets(edges, u) <==> KnownEdge(edges, u, v)
  {
    if edges != [] {
      var n := |edges| - 1;
      TargetsAreKnown(edges[..n], u, v);
      KnownMore(edges, n, u, v);
      assert edges[..n + 1] == edges;
    }
  }

  /** The steps of the graph are exactly the known edges. */
  lemma GraphSteps(edges: seq<Edge>, ids: set<string>)
    requires WellTyped(edges, ids)
    ensures Closed(GraphOf(edges, ids))
    ensures forall u, v :: Step(GraphOf(edges, ids), u, v) <==> KnownEdge(edges, u, v)
  {
    var g := GraphOf(edges, ids);
    forall u, v ensures Step(g, u, v) <==> KnownEdge(edges, u, v) { TargetsAreKnown(edges, u, v); }
    forall u, i | u in g && 0 <= i < |g[u]| ensures g[u][i] in g {
      assert Step(g, u, g[u][i]);
    }
  }

  lemma KnownMore(edges: seq<Edge>, i: nat, u: string, v: string)
    requires i < |edges|
    ensures KnownEdge(edges[..i + 1], u, v) <==>
            KnownEdge(edges[..i], u, v)
              || (edges[i].direction == Known && edges[i].source == u && edges[i].target == Some(v))
  {
    var a, b := edges[..i], edges[..i + 1];
    if KnownEdge(a, u, v) {
      var j :| 0 <= j < |a| && a[j].direction == Known && a[j].source == u && a[j].target == Some(v);
      assert b[j] == a[j];
    }
    if edges[i].direction == Known && edges[i].source == u && edges[i].target == Some(v) { assert b[i] == edges[i]; }
    if KnownEdge(b, u, v) {
      var j :| 0 <= j < |b| && b[j].direction == Known && b[j].source == u && b[j].target == Some(v);
      if j < i { assert a[j] == b[j]; }
    }
  }

  // ---- the search

  function Cost(g: Graph, stack: seq<Frame>): nat
    requires InGraph(g, stack)
  {
    if stack == [] then 0
    else
      var f := stack[|stack| - 1];
      Cost(g, stack[..|stack| - 1]) + |g[f.node]| - f.index + 1
  }

  /** The finished nodes in the order they finished: each edge of a finished node leads to a
      node that finished before it, unless the edge was caught closing a cycle. */
  ghost predicate Ranked(g: Graph, done: seq<string>, cyclic: set<string>) {
    && (forall i, j | 0 <= i < j < |done| :: done[i] != done[j])
    && (forall i, k | 0 <= i < |done| && done[i] in g && 0 <= k < |g[done[i]]| ::
          Caught(cyclic, done[i], g[done[i]][k]) || g[done[i]][k] in done[..i])
  }

  /** The stack is a walk; what each frame has examined is finished, caught, or (for the
      last edge examined by a frame below the top) the next frame. */
  ghost predicate Searching(g: Graph, stack: seq<Frame>, done: seq<string>, cyclic: set<string>) {
    && InGraph(g, stack)
    && (forall i | 0 <= i < |stack| :: stack[i].node !in done)
    && (forall i, j | 0 <= i < j < |stack| :: stack[i].node != stack[j].node)
    && (forall i | 0 <= i < |stack| - 1 ::
      stack[i].index >= 1 && g[stack[i].node][stack[i].index - 1] == stack[i + 1].node)
    && (forall i, k | 0 <= i < |stack| && 0 <= k < stack[i].index ::
          Examined(g[stack[i].node][k], stack[i].node, done, cyclic)
          || (i < |stack| - 1 && k == stack[i].index - 1))
  }

  ghost predicate Examined(v: string, u: string, done: seq<string>, cyclic: set<string>) {
    v in done || Caught(cyclic, u, v)
  }

  ghost predicate Sound(g: Graph, cyclic: set<string>) {
    forall v {:trigger OnCycle(g, v)} :: v in cyclic ==> v in g && OnCycle(g, v)
  }

  /** `_cycles`: an explicit-stack depth-first search from the roots in the given order. The
      forest it grows is fixed by the graph and the order, and so is what it reports. */
  method Cycles(g: Graph, order: seq<string>) returns (cyclic: set<string>, ghost forest: Forest)
    requires Closed(g)
    requires forall v :: v in g <==> v in order
    ensures Sound(g, cyclic)
    ensures HitsEveryCycle(g, cyclic)
    ensures cyclic == {} <==> AcyclicGraph(g)
    ensures IsForest(g, order, forest)
    ensures forall v :: v in cyclic <==> Spanned(g, forest, v)
  {
    cyclic := {};
    var visited: set<string> := {};
    ghost var done: seq<string> := [];
    ghost var growth := Growth(map[], {});
    GrowStart(g, order);
    for r := 0 to |order|
      invariant Finished(g, cyclic, visited, done)
      invariant Grown(g, order, r, visited, [], cyclic, growth)
      invariant forall i | 0 <= i < r :: order[i] in visited
    {
      var root := order[r];
      if root !in visited {
        cyclic, visited, done, growth := Search(g, order, r, cyclic, visited, done, growth);
      }
      GrowNext(g, order, r, visited, cyclic, growth);
    }
    forest := growth.forest;
    AllFinished(g, order, cyclic, visited, done, growth);
  }

  lemma AllFinished(g: Graph, order: seq<string>, cyclic: set<string>, visited: set<string>, done: seq<string>,
                    growth: Growth)
    requires Closed(g) && Finished(g, cyclic, visited, done) && Grown(g, order, |order|, visited, [], cyclic, growth)
    requires (forall v :: v in g <==> v in order) && forall i | 0 <= i < |order| :: order[i] in visited
    ensures Sound(g, cyclic) && HitsEveryCycle(g, cyclic) && (cyclic == {} <==> AcyclicGraph(g))
    ensures IsForest(g, order, growth.forest) && forall v :: v in cyclic <==> Spanned(g, growth.forest, v)
  {
    forall v | v in g ensures v in visited && v in done {
      assert v in order;
    }
    assert visited == g.Keys;
    Conclude(g, cyclic, done);
    GrowEnd(g, order, |order|, visited, cyclic, growth);
  }

  lemma Conclude(g: Graph, cyclic: set<string>, done: seq<string>)
    requires Closed(g) && Sound(g, cyclic) && Ranked(g, done, cyclic) && forall v :: v in g ==> v in done
    ensures HitsEveryCycle(g, cyclic)
    ensures cyclic == {} <==> AcyclicGraph(g)
  {
    forall w | Cycle(g, w) ensures Hits(cyclic, w) { CycleCaught(g, done, cyclic, w); }
    EmptyIsAcyclic(g, cyclic);
  }

  /** Given soundness and that every cycle is hit, the set is empty exactly on acyclic graphs. */
  lemma EmptyIsAcyclic(g: Graph, cyclic: set<string>)
    requires Sound(g, cyclic) && HitsEveryCycle(g, cyclic)
    ensures cyclic == {} <==> AcyclicGraph(g)
  {
    if cyclic == {} {
      forall w ensures !Cycle(g, w) { assert !Hits(cyclic, w); }
    } else {
      var v :| v in cyclic;
      assert OnCycle(g, v);
      var w :| Cycle(g, w) && w[0] == v;
    }
  }

  /** The nodes the search has neither finished nor entered. */
  ghost function Untouched(g: Graph, visited: set<string>, stack: seq<Frame>): set<string> {
    g.Keys - visited - (set v | v in Nodes(stack))
  }

  /** The path and its positions, which lag behind the stack by at most the newest frame. */
  ghost predicate Follows(path: seq<string>, positions: map<string, nat>, stack: seq<Frame>) {
    && (path == Nodes(stack) || (stack != [] && path == Nodes(stack)[..|stack| - 1] && stack[|stack| - 1].index == 0))
    && positions.Keys == (set v | v in path)
    && (forall v :: v in positions ==> positions[v] < |path| && path[positions[v]] == v)
  }

  /** The loop invariant of the search. */
  ghost predicate Inside(g: Graph, root: string, cyclic: set<string>, visited: set<string>, done: seq<string>,
                         path: seq<string>, positions: map<string, nat>, stack: seq<Frame>) {
    && Finished(g, cyclic, visited, done)
    && Searching(g, stack, done, cyclic)
    && (if stack != [] then stack[0].node == root else root in visited)
    && Follows(path, positions, stack)
  }

  /** What holds between two roots. */
  ghost predicate Finished(g: Graph, cyclic: set<string>, visited: set<string>, done: seq<string>) {
    && Sound(g, cyclic) && Ranked(g, done, cyclic)
    && visited == (set v | v in done) && visited <= g.Keys
  }

  method Search(g: Graph, order: seq<string>, r: nat, cyclic0: set<string>, visited0: set<string>,
                ghost done0: seq<string>, ghost growth0: Growth)
      returns (cyclic: set<string>, visited: set<string>, ghost done: seq<string>, ghost growth: Growth)
    requires Closed(g) && r < |order| && order[r] in g && order[r] !in visited0
    requires Finished(g, cyclic0, visited0, done0) && Grown(g, order, r, visited0, [], cyclic0, growth0)
    ensures Finished(g, cyclic, visited, done) && Grown(g, order, r, visited, [], cyclic, growth)
    ensures visited0 <= visited && order[r] in visited
  {
    cyclic, visited, done := cyclic0, visited0, done0;
    var root := order[r];
    growth := growth0.(forest := growth0.forest[root := [root]]);
    GrowRoot(g, order, r, visited0, cyclic0, growth0);
    var path: seq<string> := [];
    var positions: map<string, nat> := map[];
    var stack := [Frame(root, 0)];
    while stack != []
      invariant Inside(g, root, cyclic, visited, done, path, positions, stack)
      invariant Grown(g, order, r, visited, stack, cyclic, growth)
      invariant visited0 <= visited
      decreases |Untouched(g, visited, stack)|, Cost(g, stack)
    {
      var n := |stack| - 1;
      var node, index := stack[n].node, stack[n].index;
      path, positions := EnterTop(g, root, cyclic, visited, done, path, positions, stack);
      if index == |g[node]| {
        PopInside(g, root, cyclic, visited, done, path, positions, stack);
        GrowPop(g, order, r, visited, stack, cyclic, growth);
        stack := stack[..n];
        path := path[..|path| - 1];
        positions := positions - {node};
        visited := visited + {node};
        done := done + [node];
      } else {
        ghost var before, had := stack, cyclic;
        cyclic, stack := FollowEdge(g, cyclic, visited, path, positions, stack);
        FollowInside(g, root, had, visited, done, path, positions, before, cyclic, stack);
        FollowGrows(g, order, r, had, visited, path, positions, before, cyclic, stack, growth);
        growth := GrowthAfter(g, visited, before, growth);
      }
    }
  }

  /** The top frame's node joins the path when the search first sees it. */
  method EnterTop(g: Graph, root: string, cyclic: set<string>, visited: set<string>, ghost done: seq<string>,
                  path0: seq<string>, positions0: map<string, nat>, stack: seq<Frame>)
      returns (path: seq<string>, positions: map<string, nat>)
    requires Inside(g, root, cyclic, visited, done, path0, positions0, stack) && stack != []
    ensures Inside(g, root, cyclic, visited, done, path, positions, stack) && path == Nodes(stack)
    ensures stack[|stack| - 1].node in g && stack[|stack| - 1].index <= |g[stack[|stack| - 1].node]|
  {
    var node := stack[|stack| - 1].node;
    path, positions := path0, positions0;
    EnterInside(g, root, cyclic, visited, done, path, positions, stack);
    if node !in positions {
      positions := positions[node := |path|];
      path := path + [node];
    }
  }

  /** The edge examined is recorded, and a new node joins the forest. */
  ghost function GrowthAfter(g: Graph, visited: set<string>, stack: seq<Frame>, growth: Growth): Growth
    requires stack != [] && stack[|stack| - 1].node in g
    requires stack[|stack| - 1].index < |g[stack[|stack| - 1].node]|
  {
    var f := stack[|stack| - 1];
    var target := g[f.node][f.index];
    var seen := growth.seen + {(f.node, target)};
    if target in visited || target in Nodes(stack) then growth.(seen := seen)
    else Growth(growth.forest[target := Nodes(stack) + [target]], seen)
  }

  lemma FollowGrows(g: Graph, order: seq<string>, r: nat, cyclic0: set<string>, visited: set<string>, path: seq<string>,
                    positions: map<string, nat>, stack0: seq<Frame>, cyclic: set<string>, stack: seq<Frame>,
                    growth: Growth)
    requires Closed(g) && Grown(g, order, r, visited, stack0, cyclic0, growth)
    requires stack0 != [] && path == Nodes(stack0) && Follows(path, positions, stack0)
    requires stack0[|stack0| - 1].index < |g[stack0[|stack0| - 1].node]|
    requires Followed(g, cyclic0, visited, path, positions, stack0, cyclic, stack)
    ensures Grown(g, order, r, visited, stack, cyclic, GrowthAfter(g, visited, stack0, growth))
  {
    var f := stack0[|stack0| - 1];
    var target := g[f.node][f.index];
    assert Examines(g, stack0, target);
    if target in positions {
      assert path[positions[target]] == target;
      GrowBack(g, order, r, visited, stack0, cyclic0, growth, target, positions[target]);
    } else if target in visited {
      GrowSkip(g, order, r, visited, stack0, cyclic0, growth, target);
    } else {
      GrowPush(g, order, r, visited, stack0, cyclic0, growth, target);
    }
  }

  /** Nearer the end: fewer untouched nodes, or as many and fewer edges to examine. */
  ghost predicate Nearer(g: Graph, visited: set<string>, stack: seq<Frame>, before: seq<Frame>)
    requires InGraph(g, stack) && InGraph(g, before)
  {
    var left, had := |Untouched(g, visited, stack)|, |Untouched(g, visited, before)|;
    left < had || (left == had && Cost(g, stack) < Cost(g, before))
  }

  /** The search examines the next edge of its top frame. */
  method FollowEdge(g: Graph, cyclic0: set<string>, visited: set<string>, path: seq<string>,
                    positions: map<string, nat>, stack0: seq<Frame>)
      returns (cyclic: set<string>, stack: seq<Frame>)
    requires stack0 != [] && stack0[|stack0| - 1].node in g
    requires stack0[|stack0| - 1].index < |g[stack0[|stack0| - 1].node]|
    requires forall v :: v in positions ==> positions[v] <= |path|
    ensures Followed(g, cyclic0, visited, path, positions, stack0, cyclic, stack)
  {
    cyclic := cyclic0;
    var Frame(node, index) := stack0[|stack0| - 1];
    var target := g[node][index];
    stack := stack0[..|stack0| - 1] + [Frame(node, index + 1)];
    if target in positions {
      cyclic := cyclic + (set v | v in path[positions[target]..]);
    } else if target !in visited {
      stack := stack + [Frame(target, 0)];
    }
  }

  ghost predicate Followed(g: Graph, cyclic0: set<string>, visited: set<string>, path: seq<string>,
                           positions: map<string, nat>, stack0: seq<Frame>, cyclic: set<string>, stack: seq<Frame>)
    requires stack0 != [] && stack0[|stack0| - 1].node in g
    requires stack0[|stack0| - 1].index < |g[stack0[|stack0| - 1].node]|
    requires forall v :: v in positions ==> positions[v] <= |path|
  {
    var f := stack0[|stack0| - 1];
    var target := g[f.node][f.index];
    if target in positions then
      stack == Advance(stack0) && cyclic == cyclic0 + (set v | v in path[positions[target]..])
    else
      cyclic == cyclic0 && stack == if target in visited then Advance(stack0) else Advance(stack0) + [Frame(target, 0)]
  }

  lemma FollowInside(g: Graph, root: string, cyclic0: set<string>, visited: set<string>, done: seq<string>,
                     path: seq<string>,
                     positions: map<string, nat>, stack0: seq<Frame>, cyclic: set<string>, stack: seq<Frame>)
    requires Closed(g) && Inside(g, root, cyclic0, visited, done, path, positions, stack0)
    requires stack0 != [] && path == Nodes(stack0)
    requires stack0[|stack0| - 1].index < |g[stack0[|stack0| - 1].node]|
    requires Followed(g, cyclic0, visited, path, positions, stack0, cyclic, stack)
    ensures Inside(g, root, cyclic, visited, done, path, positions, stack)
    ensures Nearer(g, visited, stack, stack0)
  {
    var f := stack0[|stack0| - 1];
    var target := g[f.node][f.index];
    assert Examines(g, stack0, target);
    if target in positions {
      BackInside(g, root, cyclic0, visited, done, path, positions, stack0, target);
    } else if target in visited {
      SkipInside(g, root, cyclic0, visited, done, path, positions, stack0, target);
    } else {
      PushInside(g, root, cyclic0, visited, done, path, positions, stack0, target);
    }
  }

  lemma EnterInside(g: Graph, root: string, cyclic: set<string>, visited: set<string>, done: seq<string>,
                    path: seq<string>, positions: map<string, nat>, stack: seq<Frame>)
    requires Inside(g, root, cyclic, visited, done, path, positions, stack) && stack != []
    ensures var node := stack[|stack| - 1].node;
      var known := node in positions;
      var path' := if known then path else path + [node];
      var positions' := if known then positions else positions[node := |path|];
      && Inside(g, root, cyclic, visited, done, path', positions', stack) && path' == Nodes(stack)
      && node in g && stack[|stack| - 1].index <= |g[node]|
  {
    EnterFollows(path, positions, stack);
  }

  lemma PopInside(g: Graph, root: string, cyclic: set<string>, visited: set<string>, done: seq<string>,
                  path: seq<string>, positions: map<string, nat>, stack: seq<Frame>)
    requires Inside(g, root, cyclic, visited, done, path, positions, stack) && stack != [] && path == Nodes(stack)
    requires stack[|stack| - 1].index == |g[stack[|stack| - 1].node]|
    ensures var n, node := |stack| - 1, stack[|stack| - 1].node;
      && Inside(g, root, cyclic, visited + {node}, done + [node], path[..|path| - 1], positions - {node}, stack[..n])
      && Untouched(g, visited + {node}, stack[..n]) == Untouched(g, visited, stack)
      && Cost(g, stack[..n]) < Cost(g, stack)
  {
    PopKeeps(g, stack, done, cyclic);
    PopFollows(path, positions, stack);
    PopCosts(g, visited, stack);
  }

  lemma AdvanceFollows(path: seq<string>, positions: map<string, nat>, stack: seq<Frame>)
    requires stack != [] && path == Nodes(stack) && Follows(path, positions, stack)
    ensures Follows(path, positions, Advance(stack)) && Nodes(Advance(stack)) == path
  {
    assert Nodes(Advance(stack)) == path;
  }

  lemma BackInside(g: Graph, root: string, cyclic: set<string>, visited: set<string>, done: seq<string>,
                   path: seq<string>, positions: map<string, nat>, stack: seq<Frame>, target: string)
    requires Closed(g) && Inside(g, root, cyclic, visited, done, path, positions, stack) && stack != []
             && path == Nodes(stack)
    requires Examines(g, stack, target) && target in positions
    ensures positions[target] < |path|
    ensures var more := cyclic + (set v | v in path[positions[target]..]);
      && Inside(g, root, more, visited, done, path, positions, Advance(stack))
      && Untouched(g, visited, Advance(stack)) == Untouched(g, visited, stack)
      && Cost(g, Advance(stack)) < Cost(g, stack)
  {
    AdvanceFollows(path, positions, stack);
    AdvanceCosts(g, visited, stack);
    assert path[positions[target]] == target == stack[positions[target]].node;
    BackKeeps(g, stack, done, cyclic, positions[target]);
  }

  lemma PushInside(g: Graph, root: string, cyclic: set<string>, visited: set<string>, done: seq<string>,
                   path: seq<string>, positions: map<string, nat>, stack: seq<Frame>, target: string)
    requires Closed(g) && Inside(g, root, cyclic, visited, done, path, positions, stack) && stack != []
             && path == Nodes(stack)
    requires Examines(g, stack, target) && target !in positions && target !in visited
    ensures var s := Advance(stack) + [Frame(target, 0)];
      && Inside(g, root, cyclic, visited, done, path, positions, s)
      && |Untouched(g, visited, s)| < |Untouched(g, visited, stack)|
  {
    AdvanceFollows(path, positions, stack);
    AdvanceCosts(g, visited, stack);
    PushKeeps(g, stack, done, cyclic, visited);
    var s := Advance(stack) + [Frame(target, 0)];
    assert Nodes(s)[..|s| - 1] == path;
  }

  lemma SkipInside(g: Graph, root: string, cyclic: set<string>, visited: set<string>, done: seq<string>,
                   path: seq<string>, positions: map<string, nat>, stack: seq<Frame>, target: string)
    requires Inside(g, root, cyclic, visited, done, path, positions, stack) && stack != [] && path == Nodes(stack)
    requires Examines(g, stack, target) && target in visited
    ensures && Inside(g, root, cyclic, visited, done, path, positions, Advance(stack))
            && Untouched(g, visited, Advance(stack)) == Untouched(g, visited, stack)
            && Cost(g, Advance(stack)) < Cost(g, stack)
  {
    AdvanceFollows(path, positions, stack);
    AdvanceCosts(g, visited, stack);
    SkipKeeps(g, stack, done, cyclic);
  }

  lemma EnterFollows(path: seq<string>, positions: map<string, nat>, stack: seq<Frame>)
    requires stack != [] && Follows(path, positions, stack)
    requires forall i, j | 0 <= i < j < |stack| :: stack[i].node != stack[j].node
    ensures var node := stack[|stack| - 1].node;
      if node in positions then path == Nodes(stack)
      else path + [node] == Nodes(stack) && Follows(path + [node], positions[node := |path|], stack)
  {
    var names := Nodes(stack);
    assert names[..|stack| - 1] + [stack[|stack| - 1].node] == names;
    if path == names { assert names[|stack| - 1] in path; }
  }

  lemma PopFollows(path: seq<string>, positions: map<string, nat>, stack: seq<Frame>)
    requires stack != [] && path == Nodes(stack) && Follows(path, positions, stack)
    requires forall i, j | 0 <= i < j < |stack| :: stack[i].node != stack[j].node
    ensures Follows(path[..|path| - 1], positions - {stack[|stack| - 1].node}, stack[..|stack| - 1])
  {
    var n := |stack| - 1;
    assert path[..n] == Nodes(stack[..n]);
    assert path == path[..n] + [stack[n].node];
  }

  lemma PopCosts(g: Graph, visited: set<string>, stack: seq<Frame>)
    requires stack != [] && forall i | 0 <= i < |stack| :: stack[i].node in g && stack[i].index <= |g[stack[i].node]|
    ensures var n := |stack| - 1;
      Untouched(g, visited + {stack[n].node}, stack[..n]) == Untouched(g, visited, stack)
      && Cost(g, stack[..n]) < Cost(g, stack)
  {
    var n := |stack| - 1;
    assert Nodes(stack) == Nodes(stack[..n]) + [stack[n].node];
  }

  lemma AdvanceCosts(g: Graph, visited: set<string>, stack: seq<Frame>)
    requires stack != [] && forall i | 0 <= i < |stack| :: stack[i].node in g && stack[i].index <= |g[stack[i].node]|
    requires stack[|stack| - 1].index < |g[stack[|stack| - 1].node]|
    ensures forall i | 0 <= i < |stack| ::
            Advance(stack)[i].node in g && Advance(stack)[i].index <= |g[Advance(stack)[i].node]|
    ensures Cost(g, Advance(stack)) < Cost(g, stack)
    ensures var target := g[stack[|stack| - 1].node][stack[|stack| - 1].index];
      target in g && target !in visited && target !in Nodes(stack) ==>
        |Untouched(g, visited, Advance(stack) + [Frame(target, 0)])| < |Untouched(g, visited, stack)|
  {
    var n, s := |stack| - 1, Advance(stack);
    assert s[..n] == stack[..n];
    assert Nodes(s) == Nodes(stack);
    var target := g[stack[n].node][stack[n].index];
    assert Nodes(s + [Frame(target, 0)]) == Nodes(stack) + [target];
    if target in g && target !in visited && target !in Nodes(stack) {
      assert Untouched(g, visited, s + [Frame(target, 0)]) == Untouched(g, visited, stack) - {target};
    }
  }

  /** The top frame has examined every edge: its node finishes. */
  lemma PopKeeps(g: Graph, stack: seq<Frame>, done: seq<string>, cyclic: set<string>)
    requires stack != [] && Searching(g, stack, done, cyclic) && Ranked(g, done, cyclic)
    requires stack[|stack| - 1].index == |g[stack[|stack| - 1].node]|
    ensures Ranked(g, done + [stack[|stack| - 1].node], cyclic)
    ensures Searching(g, stack[..|stack| - 1], done + [stack[|stack| - 1].node], cyclic)
  {
    var n := |stack| - 1;
    var node := stack[n].node;
    var after := done + [node];
    forall i, k | 0 <= i < |after| && after[i] in g && 0 <= k < |g[after[i]]|
      ensures Caught(cyclic, after[i], g[after[i]][k]) || g[after[i]][k] in after[..i]
    {
      if i < |done| {
        assert after[i] == done[i] && after[..i] == done[..i];
      } else {
        assert after[..i] == done;
        assert Examined(g[stack[n].node][k], stack[n].node, done, cyclic);
      }
    }
    var rest := stack[..n];
    forall i, k | 0 <= i < |rest| && 0 <= k < rest[i].index
      ensures Examined(g[rest[i].node][k], rest[i].node, after, cyclic) || (i < |rest| - 1 && k == rest[i].index - 1)
    {
      assert rest[i] == stack[i];
      assert Examined(g[stack[i].node][k], stack[i].node, done, cyclic) || k == stack[i].index - 1;
      if i == n - 1 && k == stack[i].index - 1 { assert g[stack[i].node][k] == node; }
    }
  }

  lemma SkipKeeps(g: Graph, stack: seq<Frame>, done: seq<string>, cyclic: set<string>)
    requires stack != [] && Searching(g, stack, done, cyclic)
    requires var f := stack[|stack| - 1]; f.index < |g[f.node]| && Examined(g[f.node][f.index], f.node, done, cyclic)
    ensures Searching(g, Advance(stack), done, cyclic)
  {
    var n, s := |stack| - 1, Advance(stack);
    forall i, k | 0 <= i < |s| && 0 <= k < s[i].index
      ensures Examined(g[s[i].node][k], s[i].node, done, cyclic) || (i < |s| - 1 && k == s[i].index - 1)
    {
      assert i < n ==> s[i] == stack[i];
    }
  }

  /** Descending into a node that is neither finished nor on the stack. */
  lemma PushKeeps(g: Graph, stack: seq<Frame>, done: seq<string>, cyclic: set<string>, visited: set<string>)
    requires Closed(g) && stack != [] && Searching(g, stack, done, cyclic) && visited == (set v | v in done)
    requires var f := stack[|stack| - 1];
      f.index < |g[f.node]| && g[f.node][f.index] !in visited && g[f.node][f.index] !in Nodes(stack)
    ensures var f := stack[|stack| - 1]; Searching(g, Advance(stack) + [Frame(g[f.node][f.index], 0)], done, cyclic)
  {
    var f := stack[|stack| - 1];
    var target := g[f.node][f.index];
    var s := Advance(stack) + [Frame(target, 0)];
    PushedFrames(stack, target, s);
    forall i, k | 0 <= i < |s| && 0 <= k < s[i].index
      ensures Examined(g[s[i].node][k], s[i].node, done, cyclic) || (i < |s| - 1 && k == s[i].index - 1)
    {
      if i < |stack| - 1 { assert s[i] == stack[i]; }
    }
  }

  lemma PushedFrames(stack: seq<Frame>, target: string, s: seq<Frame>)
    requires stack != [] && target !in Nodes(stack) && s == Advance(stack) + [Frame(target, 0)]
    requires forall i, j | 0 <= i < j < |stack| :: stack[i].node != stack[j].node
    ensures forall i, j | 0 <= i < j < |s| :: s[i].node != s[j].node
    ensures forall i | 0 <= i < |stack| - 1 :: s[i] == stack[i]
  {
    var names := Nodes(stack);
    forall i | 0 <= i < |stack| ensures s[i].node == stack[i].node == names[i] && names[i] != target {
      assert names[i] in names;
    }
  }

  /** An edge back to a node on the path closes a cycle through the rest of the path. */
  lemma BackKeeps(g: Graph, stack: seq<Frame>, done: seq<string>, cyclic: set<string>, p: nat)
    requires Closed(g) && stack != [] && Searching(g, stack, done, cyclic) && Ranked(g, done, cyclic)
             && Sound(g, cyclic)
    requires p < |stack| && var f := stack[|stack| - 1]; f.index < |g[f.node]| && g[f.node][f.index] == stack[p].node
    ensures var more := cyclic + (set v | v in Nodes(stack)[p..]);
      Sound(g, more) && Ranked(g, done, more) && Searching(g, Advance(stack), done, more)
  {
    var path := Nodes(stack);
    var loop := path[p..];
    var more := cyclic + (set v | v in loop);
    LoopIsCycle(g, stack, p);
    forall v | v in more ensures v in g && OnCycle(g, v) {
      if v !in loop { assert OnCycle(g, v); }
      if v in loop {
        var i :| 0 <= i < |loop| && loop[i] == v;
        assert loop[i] == stack[p + i].node;
        LoopTurns(g, loop, i);
      }
    }
    var f := stack[|stack| - 1];
    assert f.node == loop[|loop| - 1] && stack[p].node == loop[0];
    SearchingMore(g, stack, done, cyclic, more);
    SkipKeeps(g, stack, done, more);
  }

  lemma SearchingMore(g: Graph, stack: seq<Frame>, done: seq<string>, cyclic: set<string>, more: set<string>)
    requires Searching(g, stack, done, cyclic) && Ranked(g, done, cyclic) && cyclic <= more
    ensures Searching(g, stack, done, more) && Ranked(g, done, more)
  {
    forall i, k | 0 <= i < |stack| && 0 <= k < stack[i].index
      ensures Examined(g[stack[i].node][k], stack[i].node, done, more) || (i < |stack| - 1 && k == stack[i].index - 1)
    {
      assert Examined(g[stack[i].node][k], stack[i].node, done, cyclic) || (i < |stack| - 1 && k == stack[i].index - 1);
    }
    forall i, k | 0 <= i < |done| && done[i] in g && 0 <= k < |g[done[i]]|
      ensures Caught(more, done[i], g[done[i]][k]) || g[done[i]][k] in done[..i]
    {
      assert Caught(cyclic, done[i], g[done[i]][k]) || g[done[i]][k] in done[..i];
    }
  }

  /** The path from position p on, whose last node has an edge back to its first. */
  ghost predicate Loop(g: Graph, loop: seq<string>) {
    loop != [] && Walk(g, loop) && Step(g, loop[|loop| - 1], loop[0])
  }

  lemma LoopIsCycle(g: Graph, stack: seq<Frame>, p: nat)
    requires stack != [] && p < |stack|
    requires forall i | 0 <= i < |stack| :: stack[i].node in g && stack[i].index <= |g[stack[i].node]|
    requires forall i | 0 <= i < |stack| - 1 ::
             stack[i].index >= 1 && g[stack[i].node][stack[i].index - 1] == stack[i + 1].node
    requires var f := stack[|stack| - 1]; f.index < |g[f.node]| && g[f.node][f.index] == stack[p].node
    ensures Loop(g, Nodes(stack)[p..])
  {
    var loop := Nodes(stack)[p..];
    forall i | 0 <= i < |loop| - 1 ensures Step(g, loop[i], loop[i + 1]) {
      assert loop[i] == stack[p + i].node && loop[i + 1] == stack[p + i + 1].node;
      assert g[stack[p + i].node][stack[p + i].index - 1] == stack[p + i + 1].node;
    }
    assert loop[|loop| - 1] == stack[|stack| - 1].node && loop[0] == stack[p].node;
  }

  /** A loop can be entered at any of its nodes. */
  lemma LoopTurns(g: Graph, loop: seq<string>, i: nat)
    requires Loop(g, loop) && i < |loop|
    ensures OnCycle(g, loop[i])
  {
    var w := loop[i..] + loop[..i] + [loop[i]];
    forall j | 0 <= j < |w| - 1 ensures Step(g, w[j], w[j + 1]) {
      if j < |loop| - i - 1 {
        assert w[j] == loop[i + j] && w[j + 1] == loop[i + j + 1];
      } else if j == |loop| - i - 1 {
        assert w[j] == loop[|loop| - 1] && w[j + 1] == loop[0];
      } else {
        var m := j - (|loop| - i);
        assert w[j] == loop[m] && w[j + 1] == loop[m + 1];
      }
    }
    assert Cycle(g, w);
  }

  /** No cycle escapes: along edges that were not caught the finishing rank strictly falls. */
  lemma CycleCaught(g: Graph, done: seq<string>, cyclic: set<string>, w: seq<string>)
    requires Ranked(g, done, cyclic) && Closed(g) && (forall v :: v in g ==> v in done) && Cycle(g, w)
    ensures Hits(cyclic, w)
  {
    if forall i | 0 <= i < |w| - 1 :: !Caught(cyclic, w[i], w[i + 1]) {
      var last := RankFalls(g, done, cyclic, w, |w| - 1);
    }
  }

  lemma {:induction false} RankFalls(g: Graph, done: seq<string>, cyclic: set<string>, w: seq<string>, n: nat)
      returns (r: (nat, nat))
    requires Ranked(g, done, cyclic) && Closed(g) && (forall v :: v in g ==> v in done)
    requires 1 <= n < |w| && Walk(g, w) && forall i | 0 <= i < |w| - 1 :: !Caught(cyclic, w[i], w[i + 1])
    ensures r.1 < r.0 < |done| && done[r.0] == w[0] && done[r.1] == w[n]
  {
    var from := if n == 1 then 0 else n - 1;
    assert Step(g, w[n - 1], w[n]);
    var start: nat, at: nat;
    if n == 1 {
      start :| 0 <= start < |done| && done[start] == w[0];
      at := start;
    } else {
      var p := RankFalls(g, done, cyclic, w, n - 1);
      start, at := p.0, p.1;
    }
    assert done[at] == w[n - 1] && !Caught(cyclic, w[n - 1], w[n]);
    var k :| 0 <= k < |g[done[at]]| && g[done[at]][k] == w[n];
    assert w[n] in done[..at];
    var low :| 0 <= low < at && done[low] == w[n];
    r := (start, low);
  }

  // ---- edge labels

  /** The label one edge gets. */
  function Labelled(e: Edge, cyclic: set<string>): Edge {
    e.(state := if e.source in cyclic && e.target.Some? && e.target.value in cyclic then Member
                else if e.direction == Unknown then Undetermined else Acyclic)
  }

  /** The list `sorted(ids)`. */
  ghost predicate IsSortedList(order: seq<string>, ids: set<string>) {
    SortedBy(order, StringLeq) && multiset(order) == multiset(ids)
  }

  method SortIds(ids: set<string>) returns (order: seq<string>)
    ensures IsSortedList(order, ids)
  {
    var left, listed := ids, [];
    while left != {}
      invariant left <= ids && multiset(listed) == multiset(ids - left)
    {
      var id :| id in left;
      assert ids - (left - {id}) == (ids - left) + {id};
      left, listed := left - {id}, listed + [id];
    }
    assert ids - {} == ids;
    order := SortBy(listed, StringLeq);
    StringOrder();
    SortSorts(listed, StringLeq);
    SortContents(listed, StringLeq);
  }

  /** Which nodes are reported is settled by the edge records alone: the forest of their graph
      with sorted roots says it. */
  ghost predicate ReportsOf(edges: seq<Edge>, ids: set<string>, order: seq<string>, forest: Forest,
                            cyclic: set<string>)
  {
    && IsSortedList(order, ids)
    && IsForest(GraphOf(edges, ids), order, forest)
    && forall v :: v in cyclic <==> Spanned(GraphOf(edges, ids), forest, v)
  }

  lemma SortedListMembers(order: seq<string>, ids: set<string>)
    requires IsSortedList(order, ids)
    ensures forall v :: v in ids <==> v in order
  {
    forall v ensures v in ids <==> v in order {
      assert v in ids <==> v in multiset(ids);
      assert v in order <==> v in multiset(order);
    }
  }

  method LabelEdges(edges: seq<Edge>, cyclic: set<string>) returns (labelled: seq<Edge>)
    ensures |labelled| == |edges| && forall i | 0 <= i < |edges| :: labelled[i] == Labelled(edges[i], cyclic)
  {
    labelled := [];
    for i := 0 to |edges|
      invariant |labelled| == i && forall j | 0 <= j < i :: labelled[j] == Labelled(edges[j], cyclic)
    {
      labelled := labelled + [Labelled(edges[i], cyclic)];
    }
  }

  /** `_cycles` with its labelling loop over the edge records. */
  method MarkCycles(edges: seq<Edge>, ids: set<string>)
      returns (cyclic: set<string>, labelled: seq<Edge>, ghost order: seq<string>, ghost forest: Forest)
    requires WellTyped(edges, ids)
    ensures |labelled| == |edges| && forall i | 0 <= i < |edges| :: labelled[i] == Labelled(edges[i], cyclic)
    ensures forall v {:trigger OnEdgeCycle(edges, v)} :: v in cyclic ==> OnEdgeCycle(edges, v)
    ensures forall w :: EdgeCycle(edges, w) ==> LabelledOn(labelled, w)
    ensures cyclic == {} <==> NoEdgeCycle(edges)
    ensures ReportsOf(edges, ids, order, forest, cyclic)
  {
    var g := BuildGraph(edges, ids);
    var roots := SortIds(ids);
    order := roots;
    SortedListMembers(roots, ids);
    cyclic, forest := Cycles(g, roots);
    labelled := LabelEdges(edges, cyclic);
    LabelsCatch(edges, g, cyclic, labelled);
  }

  lemma SortedListIsUnique(a: seq<string>, b: seq<string>, ids: set<string>)
    requires IsSortedList(a, ids) && IsSortedList(b, ids)
    ensures a == b
  {
    forall x: string, y: string | StringLeq(x, y) && StringLeq(y, x) ensures x == y { StringTotal(x, y); }
    SortedUnique(a, b, StringLeq);
  }

  /** One input, one report. */
  lemma ReportIsDetermined(edges: seq<Edge>, ids: set<string>, order: seq<string>, forest: Forest, cyclic: set<string>,
                           order': seq<string>, forest': Forest, cyclic': set<string>)
    requires ReportsOf(edges, ids, order, forest, cyclic) && ReportsOf(edges, ids, order', forest', cyclic')
    ensures order == order' && forest == forest' && cyclic == cyclic'
  {
    SortedListIsUnique(order, order', ids);
    ForestIsUnique(GraphOf(edges, ids), order, forest, forest');
  }

  /** A node on a cycle that no earlier id reaches is reported. */
  lemma FirstReachedIsReported(edges: seq<Edge>, ids: set<string>, order: seq<string>, forest: Forest,
                               cyclic: set<string>, k: nat)
    requires WellTyped(edges, ids) && ReportsOf(edges, ids, order, forest, cyclic)
    requires k < |order| && OnEdgeCycle(edges, order[k])
    requires forall m | 0 <= m < k :: !Reaches(GraphOf(edges, ids), order[m], order[k], [])
    ensures order[k] in cyclic
  {
    GraphSteps(edges, ids);
    SortedListMembers(order, ids);
    var w :| EdgeCycle(edges, w) && w[0] == order[k];
    SameCycles(edges, GraphOf(edges, ids), w);
    FirstReachedIsSpanned(GraphOf(edges, ids), order, forest, k, w);
  }

  /** A directed cycle over the known edges of the input. */
  ghost predicate EdgeCycle(edges: seq<Edge>, w: seq<string>) {
    |w| >= 2 && w[0] == w[|w| - 1] && forall i | 0 <= i < |w| - 1 :: KnownEdge(edges, w[i], w[i + 1])
  }

  ghost predicate OnEdgeCycle(edges: seq<Edge>, v: string) {
    exists w :: EdgeCycle(edges, w) && w[0] == v
  }

  ghost predicate NoEdgeCycle(edges: seq<Edge>) {
    forall w :: !EdgeCycle(edges, w)
  }

  /** Some edge of the walk is a known edge labelled as a cycle member. */
  ghost predicate LabelledOn(labelled: seq<Edge>, w: seq<string>) {
    exists j | 0 <= j < |w| - 1 :: MemberEdge(labelled, w[j], w[j + 1])
  }

  ghost predicate MemberEdge(labelled: seq<Edge>, u: string, v: string) {
    exists i | 0 <= i < |labelled| :: labelled[i].state == Member && labelled[i].direction == Known
                                   && labelled[i].source == u && labelled[i].target == Some(v)
  }

  lemma SameCycles(edges: seq<Edge>, g: Graph, w: seq<string>)
    requires forall u, v :: Step(g, u, v) <==> KnownEdge(edges, u, v)
    ensures EdgeCycle(edges, w) <==> Cycle(g, w)
  {}

  lemma CaughtIsLabelled(edges: seq<Edge>, cyclic: set<string>, labelled: seq<Edge>, u: string, v: string)
    requires |labelled| == |edges| && forall i | 0 <= i < |edges| :: labelled[i] == Labelled(edges[i], cyclic)
    requires Caught(cyclic, u, v) && KnownEdge(edges, u, v)
    ensures MemberEdge(labelled, u, v)
  {
    var i :| 0 <= i < |edges| && edges[i].direction == Known && edges[i].source == u && edges[i].target == Some(v);
    assert labelled[i] == Labelled(edges[i], cyclic);
  }

  lemma LabelsCatch(edges: seq<Edge>, g: Graph, cyclic: set<string>, labelled: seq<Edge>)
    requires forall u, v :: Step(g, u, v) <==> KnownEdge(edges, u, v)
    requires |labelled| == |edges| && forall i | 0 <= i < |edges| :: labelled[i] == Labelled(edges[i], cyclic)
    requires Sound(g, cyclic) && HitsEveryCycle(g, cyclic) && (cyclic == {} <==> AcyclicGraph(g))
    ensures forall v {:trigger OnEdgeCycle(edges, v)} :: v in cyclic ==> OnEdgeCycle(edges, v)
    ensures forall w :: EdgeCycle(edges, w) ==> LabelledOn(labelled, w)
    ensures cyclic == {} <==> NoEdgeCycle(edges)
  {
    forall w | EdgeCycle(edges, w) ensures LabelledOn(labelled, w) {
      SameCycles(edges, g, w);
      assert Hits(cyclic, w);
      var j :| 0 <= j < |w| - 1 && Caught(cyclic, w[j], w[j + 1]);
      CaughtIsLabelled(edges, cyclic, labelled, w[j], w[j + 1]);
    }
    forall v | v in cyclic ensures OnEdgeCycle(edges, v) {
      assert OnCycle(g, v);
      var w :| Cycle(g, w) && w[0] == v;
      SameCycles(edges, g, w);
    }
    NoCycles(edges, g);
  }

  lemma NoCycles(edges: seq<Edge>, g: Graph)
    requires forall u, v :: Step(g, u, v) <==> KnownEdge(edges, u, v)
    ensures NoEdgeCycle(edges) <==> AcyclicGraph(g)
  {
    if NoEdgeCycle(edges) {
      forall w ensures !Cycle(g, w) { SameCycles(edges, g, w); }
    } else {
      var w :| EdgeCycle(edges, w);
      SameCycles(edges, g, w);
    }
  }

  // ---- what the search does not promise

  function KnownTo(source: string, target: string): Edge {
    Edge(source, Some(target), Known, Undetermined)
  }

  const KITE: seq<Edge> := [KnownTo("a", "b"), KnownTo("b", "a"), KnownTo("a", "c"), KnownTo("c", "b")]
  const KITE_IDS: set<string> := {"a", "b", "c"}
  const KITE_GRAPH: Graph := map["a" := ["b", "c"], "b" := ["a"], "c" := ["b"]]

  lemma KiteGraph()
    ensures GraphOf(KITE, KITE_IDS) == KITE_GRAPH
    ensures WellTyped(KITE, KITE_IDS)
  {
    assert KITE[..3][..2] == KITE[..2] && KITE[..3][..1] == KITE[..1];
    assert KITE[..2][..1] == KITE[..1] && KITE[..1][..0] == [];
    forall u | u in KITE_IDS ensures Targets(KITE, u) == KITE_GRAPH[u] {
      assert Targets(KITE[..1], u) == if u == "a" then ["b"] else [];
      assert Targets(KITE[..2], u) == if u == "a" then ["b"] else if u == "b" then ["a"] else [];
      assert Targets(KITE[..3], u) == if u == "a" then ["b", "c"] else if u == "b" then ["a"] else [];
    }
  }

  lemma KiteOrder(order: seq<string>)
    requires IsSortedList(order, KITE_IDS)
    ensures order == ["a", "b", "c"]
  {
    var abc := ["a", "b", "c"];
    assert multiset(abc) == multiset(KITE_IDS);
    SortedListIsUnique(order, abc, KITE_IDS);
  }

  /** Node c hangs below a, because b leads nowhere but back to a. */
  lemma KitePaths(order: seq<string>)
    requires order == ["a", "b", "c"]
    ensures FirstPath(KITE_GRAPH, order, ["a"])
    ensures FirstPath(KITE_GRAPH, order, ["a", "b"])
    ensures FirstPath(KITE_GRAPH, order, ["a", "c"])
  {
    assert ["a", "b"][..1] == ["a"] && ["a", "c"][..1] == ["a"];
    assert ChosenAt(KITE_GRAPH, order, ["a"], 0, "a", 0);
    assert ChosenAt(KITE_GRAPH, order, ["a", "b"], 0, "b", 0) && ChosenAt(KITE_GRAPH, order, ["a", "b"], 1, "b", 0);
    forall w ensures !Route(KITE_GRAPH, w, "b", "c", ["a"]) {
      if |w| > 1 && w[0] == "b" && Walk(KITE_GRAPH, w) {
        assert Step(KITE_GRAPH, w[0], w[1]);
        assert w[1] in ["a"];
      }
    }
    assert ChosenAt(KITE_GRAPH, order, ["a", "c"], 0, "c", 0) && ChosenAt(KITE_GRAPH, order, ["a", "c"], 1, "c", 1);
  }

  lemma KiteForest(order: seq<string>, forest: Forest)
    requires order == ["a", "b", "c"] && IsForest(KITE_GRAPH, order, forest)
    ensures forest == map["a" := ["a"], "b" := ["a", "b"], "c" := ["a", "c"]]
  {
    KitePaths(order);
    PathIsUnique(KITE_GRAPH, order, forest["a"], ["a"]);
    PathIsUnique(KITE_GRAPH, order, forest["b"], ["a", "b"]);
    PathIsUnique(KITE_GRAPH, order, forest["c"], ["a", "c"]);
  }

  lemma KiteReports(forest: Forest, cyclic: set<string>)
    requires forest == map["a" := ["a"], "b" := ["a", "b"], "c" := ["a", "c"]]
    requires forall v :: v in cyclic <==> Spanned(KITE_GRAPH, forest, v)
    ensures cyclic == {"a", "b"}
  {
    assert Step(KITE_GRAPH, "b", "a") && Spans(forest, "b", "a", "a") && Spans(forest, "b", "a", "b");
  }

  /** What the report on the kite is, from the contract of the search alone. */
  lemma KiteReported(order: seq<string>, forest: Forest, cyclic: set<string>)
    requires ReportsOf(KITE, KITE_IDS, order, forest, cyclic)
    ensures cyclic == {"a", "b"}
  {
    KiteGraph();
    KiteOrder(order);
    KiteForest(order, forest);
    KiteReports(forest, cyclic);
  }

  lemma KiteTurns()
    ensures OnEdgeCycle(KITE, "c") && WellTyped(KITE, KITE_IDS)
  {
    KiteGraph();
    assert KITE[2] == KnownTo("a", "c") && KITE[3] == KnownTo("c", "b") && KITE[1] == KnownTo("b", "a");
    assert EdgeCycle(KITE, ["c", "b", "a", "c"]);
  }

  lemma KiteLabels(labelled: seq<Edge>)
    requires |labelled| == |KITE| && forall i | 0 <= i < |KITE| :: labelled[i] == Labelled(KITE[i], {"a", "b"})
    ensures |labelled| == 4 && labelled[2].state == Acyclic && labelled[3].state == Acyclic
  {
    assert KITE[2] == KnownTo("a", "c") && KITE[3] == KnownTo("c", "b");
  }

  /** Not every node of a cycle is reported. On the edges a to b, b to a, a to c and c to b the
      nodes a and b are reported and c is not, although c, b, a, c is a cycle; its edges at c
      are labelled acyclic. */
  method SomeNodesStayUnreported() returns (cyclic: set<string>, labelled: seq<Edge>)
    ensures cyclic == {"a", "b"} && OnEdgeCycle(KITE, "c")
    ensures |labelled| == 4 && labelled[2].state == Acyclic && labelled[3].state == Acyclic
  {
    KiteTurns();
    ghost var order, forest;
    cyclic, labelled, order, forest := MarkCycles(KITE, KITE_IDS);
    KiteReported(order, forest, cyclic);
    KiteLabels(labelled);
  }
}
