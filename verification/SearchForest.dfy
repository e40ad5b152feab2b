/** Walks of a directed graph, and the forest a depth-first search grows over it.

    The forest is described without the search: the path of a node is the one whose every
    step is the first choice from which the node can still be reached off the path so far. A
    search keeps `Grown` with its stack, and so ends with exactly that forest. */
module SearchForest {

  type Graph = map<string, seq<string>>

  /** Every successor is itself a node. */
  ghost predicate Closed(g: Graph) {
    forall v, i :: v in g && 0 <= i < |g[v]| ==> g[v][i] in g
  }

  ghost predicate Step(g: Graph, u: string, v: string) {
    u in g && v in g[u]
  }

  /** A walk along known edges. */
  ghost predicate Walk(g: Graph, w: seq<string>) {
    forall i | 0 <= i < |w| - 1 :: Step(g, w[i], w[i + 1])
  }

  /** A directed cycle, written as a walk that returns to its start. */
  ghost predicate Cycle(g: Graph, w: seq<string>) {
    |w| >= 2 && w[0] == w[|w| - 1] && Walk(g, w)
  }

  ghost predicate Distinct(p: seq<string>) {
    forall i, j | 0 <= i < j < |p| :: p[i] != p[j]
  }

  ghost predicate Apart(w: seq<string>, avoid: seq<string>) {
    forall i | 0 <= i < |w| :: w[i] !in avoid
  }

  /** A walk between two nodes that stays off a path. */
  ghost predicate Route(g: Graph, w: seq<string>, from: string, to: string, avoid: seq<string>) {
    w != [] && w[0] == from && w[|w| - 1] == to && Walk(g, w) && Apart(w, avoid)
  }

  ghost predicate Reaches(g: Graph, from: string, to: string, avoid: seq<string>) {
    exists w :: Route(g, w, from, to, avoid)
  }

  // ---- the forest

  /** What a path can go on with: the roots in their order, then the successors of its end. */
  ghost function Choices(g: Graph, order: seq<string>, p: seq<string>): seq<string> {
    if p == [] then order
    else if p[|p| - 1] in g then g[p[|p| - 1]]
    else []
  }

  /** Step `i` of the path is the first choice that still leads to `v`. */
  ghost predicate Chosen(g: Graph, order: seq<string>, p: seq<string>, i: nat, v: string)
    requires i < |p|
  {
    exists k: nat :: ChosenAt(g, order, p, i, v, k)
  }

  ghost predicate ChosenAt(g: Graph, order: seq<string>, p: seq<string>, i: nat, v: string, k: nat)
    requires i < |p|
  {
    var choices := Choices(g, order, p[..i]);
    k < |choices| && choices[k] == p[i] && forall m | 0 <= m < k :: !Reaches(g, choices[m], v, p[..i])
  }

  /** The path of its own last node. */
  ghost predicate FirstPath(g: Graph, order: seq<string>, p: seq<string>) {
    p != [] && Distinct(p) && LeadsTo(g, order, p, p[|p| - 1])
  }

  ghost predicate LeadsTo(g: Graph, order: seq<string>, p: seq<string>, v: string) {
    forall i: nat | i < |p| :: Chosen(g, order, p, i, v)
  }

  type Forest = map<string, seq<string>>

  ghost predicate PathsOf(g: Graph, order: seq<string>, forest: Forest) {
    forall v <- forest :: FirstPath(g, order, forest[v]) && forest[v][|forest[v]| - 1] == v
  }

  /** The search forest of a graph whose roots are tried in the given order. */
  ghost predicate IsForest(g: Graph, order: seq<string>, forest: Forest) {
    forest.Keys == g.Keys && PathsOf(g, order, forest)
  }

  /** The edge from `u` to `w` leads back over `v`: `w` is `v` or above it, and `u` is `v` or
      below it. */
  ghost predicate Spans(forest: Forest, u: string, w: string, v: string) {
    u in forest && v in forest && w in forest[v] && v in forest[u]
  }

  ghost predicate Spanned(g: Graph, forest: Forest, v: string) {
    exists u, w :: Step(g, u, w) && Spans(forest, u, w, v)
  }

  lemma PathIsWalk(g: Graph, order: seq<string>, p: seq<string>)
    requires FirstPath(g, order, p)
    ensures Walk(g, p)
  {
    forall i | 0 <= i < |p| - 1 ensures Step(g, p[i], p[i + 1]) {
      assert Chosen(g, order, p, i + 1, p[|p| - 1]);
      assert p[..i + 1][i] == p[i];
    }
  }

  lemma RestIsRoute(g: Graph, order: seq<string>, p: seq<string>, i: nat)
    requires FirstPath(g, order, p) && i < |p|
    ensures Reaches(g, p[i], p[|p| - 1], p[..i])
  {
    PathIsWalk(g, order, p);
    var w := p[i..];
    forall j | 0 <= j < |w| - 1 ensures Step(g, w[j], w[j + 1]) {
      assert Step(g, p[i + j], p[i + j + 1]);
    }
    assert Route(g, w, p[i], p[|p| - 1], p[..i]);
  }

  lemma {:induction false} PathsAgree(g: Graph, order: seq<string>, p: seq<string>, q: seq<string>, i: nat)
    requires FirstPath(g, order, p) && FirstPath(g, order, q) && p[|p| - 1] == q[|q| - 1]
    requires i <= |p| && i <= |q|
    ensures p[..i] == q[..i]
  {
    if i > 0 {
      var n := i - 1;
      PathsAgree(g, order, p, q, n);
      RestIsRoute(g, order, p, n);
      RestIsRoute(g, order, q, n);
      var v := p[|p| - 1];
      assert Chosen(g, order, p, n, v) && Chosen(g, order, q, n, v);
      var k: nat :| ChosenAt(g, order, p, n, v, k);
      var l: nat :| ChosenAt(g, order, q, n, v, l);
      assert k == l;
      assert p[..i] == p[..n] + [p[n]] && q[..i] == q[..n] + [q[n]];
    }
  }

  /** A node has at most one path. */
  lemma PathIsUnique(g: Graph, order: seq<string>, p: seq<string>, q: seq<string>)
    requires FirstPath(g, order, p) && FirstPath(g, order, q) && p[|p| - 1] == q[|q| - 1]
    ensures p == q
  {
    var n := if |p| <= |q| then |p| else |q|;
    PathsAgree(g, order, p, q, n);
    assert p[..n][n - 1] == p[n - 1] && q[..n][n - 1] == q[n - 1];
    assert |p| == |q|;
    assert p == p[..n] && q == q[..n];
  }

  /** A graph and an order of its roots have at most one search forest. */
  lemma ForestIsUnique(g: Graph, order: seq<string>, a: Forest, b: Forest)
    requires IsForest(g, order, a) && IsForest(g, order, b)
    ensures a == b
  {
    forall v | v in a ensures a[v] == b[v] {
      PathIsUnique(g, order, a[v], b[v]);
    }
  }

  /** A node on a cycle that no earlier root reaches is spanned. */
  lemma FirstReachedIsSpanned(g: Graph, order: seq<string>, forest: Forest, k: nat, w: seq<string>)
    requires IsForest(g, order, forest) && k < |order| && Cycle(g, w) && w[0] == order[k] && order[k] in g
    requires forall m | 0 <= m < k :: !Reaches(g, order[m], order[k], [])
    ensures Spanned(g, forest, order[k])
  {
    var v, n := order[k], |w| - 2;
    var u := w[n];
    assert Step(g, w[n], w[n + 1]);
    var p := forest[u];
    PathIsWalk(g, order, p);
    assert Chosen(g, order, p, 0, u);
    var l: nat :| ChosenAt(g, order, p, 0, u, l);
    assert Route(g, w[..n + 1], v, u, p[..0]);
    assert l <= k;
    if l < k {
      assert Route(g, p + [v], order[l], v, []);
    }
    assert Spans(forest, u, v, v);
  }

  // ---- what a search keeps

  datatype Frame = Frame(node: string, index: nat)

  function Nodes(stack: seq<Frame>): seq<string> {
    seq(|stack|, i requires 0 <= i < |stack| => stack[i].node)
  }

  predicate InGraph(g: Graph, stack: seq<Frame>) {
    forall i | 0 <= i < |stack| :: stack[i].node in g && stack[i].index <= |g[stack[i].node]|
  }

  /** Each frame stands on the edge its predecessor examined last. */
  predicate Linked(g: Graph, stack: seq<Frame>)
    requires InGraph(g, stack)
  {
    forall i | 0 <= i < |stack| - 1 :: stack[i].index >= 1 && g[stack[i].node][stack[i].index - 1] == stack[i + 1].node
  }

  /** The stack is a simple path of unfinished nodes. */
  ghost predicate Standing(g: Graph, visited: set<string>, stack: seq<Frame>) {
    && InGraph(g, stack) && Linked(g, stack) && Distinct(Nodes(stack))
    && forall v | v in Nodes(stack) :: v !in visited
  }

  /** Off the path, `x` leads to finished nodes only. */
  ghost predicate Sealed(g: Graph, visited: set<string>, x: string, avoid: seq<string>) {
    forall y :: Reaches(g, x, y, avoid) ==> y in visited
  }

  /** Edges of finished nodes lead to finished nodes or onto the path. */
  ghost predicate Fenced(g: Graph, visited: set<string>, path: seq<string>) {
    forall x, y :: x in visited && Step(g, x, y) ==> y in visited || y in path
  }

  /** How many choices frame `j` has done with: the one the next frame stands on is open. */
  function Tried(stack: seq<Frame>, j: nat): int
    requires j < |stack|
  {
    if j == |stack| - 1 then stack[j].index else stack[j].index - 1
  }

  /** Every choice that was passed over is sealed. */
  ghost predicate PassedRoots(g: Graph, order: seq<string>, r: nat, visited: set<string>) {
    r <= |order| && forall m | 0 <= m < r :: Sealed(g, visited, order[m], [])
  }

  ghost predicate PassedEdges(g: Graph, visited: set<string>, stack: seq<Frame>)
    requires InGraph(g, stack)
  {
    forall j, m | 0 <= j < |stack| && 0 <= m < Tried(stack, j) ::
      Sealed(g, visited, g[stack[j].node][m], Nodes(stack)[..j + 1])
  }

  lemma {:induction false} StaysInside(g: Graph, visited: set<string>, path: seq<string>, w: seq<string>, n: nat)
    requires Fenced(g, visited, path) && Walk(g, w) && Apart(w, path) && n < |w| && w[0] in visited
    ensures w[n] in visited
  {
    if n > 0 {
      StaysInside(g, visited, path, w, n - 1);
      assert Step(g, w[n - 1], w[n]);
    }
  }

  /** A finished node, or one on the path, is sealed behind the path. */
  lemma FencedIsSealed(g: Graph, visited: set<string>, path: seq<string>, x: string)
    requires Fenced(g, visited, path) && (x in visited || x in path)
    ensures Sealed(g, visited, x, path)
  {
    forall y | Reaches(g, x, y, path) ensures y in visited {
      var w :| Route(g, w, x, y, path);
      assert w[0] !in path;
      StaysInside(g, visited, path, w, |w| - 1);
    }
  }

  ghost function Advance(stack: seq<Frame>): seq<Frame>
    requires stack != []
  {
    var f := stack[|stack| - 1];
    stack[..|stack| - 1] + [Frame(f.node, f.index + 1)]
  }

  /** The edge the top frame examines next. */
  ghost predicate Examines(g: Graph, stack: seq<Frame>, target: string) {
    && stack != []
    && stack[|stack| - 1].node in g && stack[|stack| - 1].index < |g[stack[|stack| - 1].node]|
    && g[stack[|stack| - 1].node][stack[|stack| - 1].index] == target
  }

  /** The forest holds the paths of the finished nodes and of the stack, with all their
      beginnings. */
  ghost predicate Planted(g: Graph, order: seq<string>, visited: set<string>, path: seq<string>, forest: Forest) {
    && PathsOf(g, order, forest)
    && (forall v, i | v in forest && 0 <= i < |forest[v]| :: Begins(forest, v, i))
    && forest.Keys == visited + (set v | v in path)
    && (forall j | 0 <= j < |path| :: forest[path[j]] == path[..j + 1])
  }

  ghost predicate Begins(forest: Forest, v: string, i: nat)
    requires v in forest && i < |forest[v]|
  {
    forest[v][i] in forest && forest[forest[v][i]] == forest[v][..i + 1]
  }

  type Edges = set<(string, string)>

  /** The edges examined: all those of finished nodes, and what the frames have examined. */
  ghost predicate Recorded(g: Graph, visited: set<string>, stack: seq<Frame>, seen: Edges)
    requires InGraph(g, stack)
  {
    && (forall e <- seen :: Step(g, e.0, e.1) && (e.0 in visited || e.0 in Nodes(stack)))
    && (forall x, y :: x in visited && Step(g, x, y) ==> (x, y) in seen)
    && (forall j, m | 0 <= j < |stack| && 0 <= m < stack[j].index :: (stack[j].node, g[stack[j].node][m]) in seen)
  }

  ghost predicate SpannedBy(forest: Forest, seen: Edges, v: string) {
    exists e <- seen :: Spans(forest, e.0, e.1, v)
  }

  /** Exactly the nodes spanned by an examined edge are reported. */
  ghost predicate Reported(forest: Forest, seen: Edges, cyclic: set<string>) {
    forall v :: v in cyclic <==> SpannedBy(forest, seen, v)
  }

  /** What has grown so far. */
  datatype Growth = Growth(forest: Forest, seen: Edges)

  /** The search of root `r`, or the rest before it when the stack is empty. */
  ghost predicate Grown(g: Graph, order: seq<string>, r: nat, visited: set<string>, stack: seq<Frame>,
                        cyclic: set<string>, growth: Growth) {
    && Standing(g, visited, stack)
    && (stack != [] ==> r < |order| && stack[0].node == order[r])
    && PassedRoots(g, order, r, visited) && PassedEdges(g, visited, stack)
    && Fenced(g, visited, Nodes(stack))
    && Planted(g, order, visited, Nodes(stack), growth.forest)
    && Recorded(g, visited, stack, growth.seen)
    && Reported(growth.forest, growth.seen, cyclic)
  }

  // ---- finding a new node

  /** The stack with a new node on it, at a choice before which all is sealed, is the path of
      that node. */
  lemma NewPath(g: Graph, order: seq<string>, r: nat, visited: set<string>, stack: seq<Frame>, target: string)
    requires Standing(g, visited, stack) && PassedRoots(g, order, r, visited) && PassedEdges(g, visited, stack)
    requires r < |order| && order[r] == (if stack == [] then target else stack[0].node)
    requires stack != [] ==> Examines(g, stack, target)
    requires target !in visited && target !in Nodes(stack)
    ensures FirstPath(g, order, Nodes(stack) + [target])
  {
    var path := Nodes(stack);
    var p := path + [target];
    forall i: nat | i < |p| ensures Chosen(g, order, p, i, target) {
      assert p[..i] == path[..i];
      if i == 0 {
        assert ChosenAt(g, order, p, i, target, r);
      } else {
        var f := stack[i - 1];
        assert path[..i][i - 1] == f.node;
        assert Choices(g, order, p[..i]) == g[f.node];
        var k := if i == |path| then f.index else f.index - 1;
        assert k == Tried(stack, i - 1);
        assert ChosenAt(g, order, p, i, target, k);
      }
    }
  }

  lemma PlantMore(g: Graph, order: seq<string>, visited: set<string>, path: seq<string>, forest: Forest, target: string)
    requires Planted(g, order, visited, path, forest) && target !in visited && target !in path
    requires FirstPath(g, order, path + [target])
    ensures Planted(g, order, visited, path + [target], forest[target := path + [target]])
  {
    var p, more := path + [target], forest[target := path + [target]];
    assert more.Keys == visited + (set v | v in p);
    forall v, i | v in more && 0 <= i < |more[v]| ensures Begins(more, v, i) {
      if v != target {
        assert Begins(forest, v, i);
      } else if i < |path| {
        assert p[..i + 1] == path[..i + 1];
      } else {
        assert p[..i + 1] == p;
      }
    }
    forall j | 0 <= j < |p| ensures more[p[j]] == p[..j + 1] {
      if j < |path| { assert p[j] == path[j] && p[..j + 1] == path[..j + 1]; } else { assert p[..j + 1] == p; }
    }
  }

  /** A new leaf spans nothing, and is spanned by nothing examined before. */
  lemma LeafSpansNothing(g: Graph, order: seq<string>, visited: set<string>, path: seq<string>, forest: Forest,
                         target: string, e: (string, string), v: string)
    requires Planted(g, order, visited, path, forest) && target !in forest && e.0 in forest
    ensures Spans(forest[target := path + [target]], e.0, e.1, v) <==> Spans(forest, e.0, e.1, v)
  {
    if v in forest[e.0] {
      var i :| 0 <= i < |forest[e.0]| && forest[e.0][i] == v;
      assert Begins(forest, e.0, i);
    }
  }

  lemma LeafReports(g: Graph, order: seq<string>, visited: set<string>, path: seq<string>, forest: Forest,
                    target: string, seen: Edges, cyclic: set<string>)
    requires Planted(g, order, visited, path, forest) && target !in forest
    requires Reported(forest, seen, cyclic) && forall e <- seen :: e.0 in forest
    ensures Reported(forest[target := path + [target]], seen, cyclic)
  {
    var more := forest[target := path + [target]];
    forall v ensures SpannedBy(more, seen, v) <==> SpannedBy(forest, seen, v) {
      forall e <- seen ensures Spans(more, e.0, e.1, v) <==> Spans(forest, e.0, e.1, v) {
        LeafSpansNothing(g, order, visited, path, forest, target, e, v);
      }
    }
  }

  // ---- the edge examined

  /** The edge from the top of the path to a node off it spans nothing. */
  lemma OffPathSpansNothing(g: Graph, order: seq<string>, visited: set<string>, path: seq<string>, forest: Forest,
                            target: string, v: string)
    requires Planted(g, order, visited, path, forest) && path != [] && target !in path
    ensures !Spans(forest, path[|path| - 1], target, v)
  {
    var n := |path| - 1;
    assert forest[path[n]] == path[..n + 1] == path;
    if v in path {
      var i :| 0 <= i < |path| && path[i] == v;
      assert forest[path[i]] == path[..i + 1];
    }
  }

  lemma PathOrder(path: seq<string>, p: nat, i: nat)
    requires Distinct(path) && p < |path| && i < |path|
    ensures path[p] in path[..i + 1] <==> p <= i
    ensures path[i] in path[p..] <==> p <= i
  {
    if p <= i {
      assert path[..i + 1][p] == path[p];
      assert path[p..][i - p] == path[i];
    }
  }

  /** The edge from the top of the path back to position `p` spans the path from there on. */
  lemma BackSpansTheRest(path: seq<string>, forest: Forest, p: nat, v: string)
    requires Distinct(path) && p < |path|
    requires forall j | 0 <= j < |path| :: path[j] in forest && forest[path[j]] == path[..j + 1]
    ensures Spans(forest, path[|path| - 1], path[p], v) <==> v in path[p..]
  {
    var n := |path| - 1;
    assert forest[path[n]] == path[..n + 1] == path;
    if v in path {
      var i :| 0 <= i < |path| && path[i] == v;
      PathOrder(path, p, i);
    } else {
      assert v !in path[p..];
    }
  }

  lemma ReportMore(forest: Forest, seen: Edges, cyclic: set<string>, e: (string, string), more: set<string>)
    requires Reported(forest, seen, cyclic)
    requires forall v :: v in more <==> Spans(forest, e.0, e.1, v)
    ensures Reported(forest, seen + {e}, cyclic + more)
  {
    forall v ensures SpannedBy(forest, seen + {e}, v) <==> SpannedBy(forest, seen, v) || v in more {
      if v in more { assert e in seen + {e}; }
      if SpannedBy(forest, seen, v) {
        var d :| d in seen && Spans(forest, d.0, d.1, v);
        assert d in seen + {e};
      }
    }
  }

  lemma AdvanceStands(g: Graph, visited: set<string>, stack: seq<Frame>, target: string)
    requires Standing(g, visited, stack) && Examines(g, stack, target)
    ensures Standing(g, visited, Advance(stack)) && Nodes(Advance(stack)) == Nodes(stack)
  {
    assert Nodes(Advance(stack)) == Nodes(stack);
  }

  lemma AdvanceRecords(g: Graph, visited: set<string>, stack: seq<Frame>, target: string, seen: Edges)
    requires InGraph(g, stack) && Recorded(g, visited, stack, seen) && Examines(g, stack, target)
    ensures InGraph(g, Advance(stack))
    ensures Recorded(g, visited, Advance(stack), seen + {(stack[|stack| - 1].node, target)})
  {
    var n, s := |stack| - 1, Advance(stack);
    assert Nodes(s) == Nodes(stack);
    assert Nodes(stack)[n] == stack[n].node;
    var more := seen + {(stack[n].node, target)};
    forall j, m | 0 <= j < |s| && 0 <= m < s[j].index ensures (s[j].node, g[s[j].node][m]) in more {
      if j < n { assert s[j] == stack[j]; }
    }
  }

  lemma AdvancePasses(g: Graph, visited: set<string>, stack: seq<Frame>, target: string)
    requires Standing(g, visited, stack) && PassedEdges(g, visited, stack) && Examines(g, stack, target)
    requires Sealed(g, visited, target, Nodes(stack))
    ensures InGraph(g, Advance(stack)) && PassedEdges(g, visited, Advance(stack))
  {
    var n, s := |stack| - 1, Advance(stack);
    assert Nodes(s) == Nodes(stack);
    forall j, m | 0 <= j < |s| && 0 <= m < Tried(s, j) ensures Sealed(g, visited, g[s[j].node][m], Nodes(s)[..j + 1]) {
      if j < n {
        assert s[j] == stack[j] && Tried(s, j) == Tried(stack, j);
      } else {
        assert Nodes(s)[..j + 1] == Nodes(stack);
      }
    }
  }

  /** Examining an edge that leads to no new node: `more` is what it spans. */
  lemma GrowByEdge(g: Graph, order: seq<string>, r: nat, visited: set<string>, stack: seq<Frame>, cyclic: set<string>,
                   growth: Growth, target: string, more: set<string>)
    requires Grown(g, order, r, visited, stack, cyclic, growth) && Examines(g, stack, target)
    requires target in visited || target in Nodes(stack)
    requires forall v :: v in more <==> Spans(growth.forest, stack[|stack| - 1].node, target, v)
    ensures var seen := growth.seen + {(stack[|stack| - 1].node, target)};
      Grown(g, order, r, visited, Advance(stack), cyclic + more, growth.(seen := seen))
  {
    AdvanceStands(g, visited, stack, target);
    FencedIsSealed(g, visited, Nodes(stack), target);
    AdvancePasses(g, visited, stack, target);
    AdvanceRecords(g, visited, stack, target, growth.seen);
    ReportMore(growth.forest, growth.seen, cyclic, (stack[|stack| - 1].node, target), more);
  }

  lemma GrowBack(g: Graph, order: seq<string>, r: nat, visited: set<string>, stack: seq<Frame>, cyclic: set<string>,
                 growth: Growth, target: string, p: nat)
    requires Grown(g, order, r, visited, stack, cyclic, growth) && Examines(g, stack, target)
    requires p < |stack| && Nodes(stack)[p] == target
    ensures var seen := growth.seen + {(stack[|stack| - 1].node, target)};
      Grown(g, order, r, visited, Advance(stack), cyclic + (set v | v in Nodes(stack)[p..]), growth.(seen := seen))
  {
    var path := Nodes(stack);
    var more := set v | v in path[p..];
    assert path[|path| - 1] == stack[|stack| - 1].node;
    forall v ensures v in more <==> Spans(growth.forest, stack[|stack| - 1].node, target, v) {
      BackSpansTheRest(path, growth.forest, p, v);
    }
    GrowByEdge(g, order, r, visited, stack, cyclic, growth, target, more);
  }

  lemma GrowSkip(g: Graph, order: seq<string>, r: nat, visited: set<string>, stack: seq<Frame>, cyclic: set<string>,
                 growth: Growth, target: string)
    requires Grown(g, order, r, visited, stack, cyclic, growth) && Examines(g, stack, target) && target in visited
    ensures var seen := growth.seen + {(stack[|stack| - 1].node, target)};
      Grown(g, order, r, visited, Advance(stack), cyclic, growth.(seen := seen))
  {
    var path, top := Nodes(stack), stack[|stack| - 1].node;
    assert path[|path| - 1] == top;
    forall v ensures !Spans(growth.forest, top, target, v) {
      OffPathSpansNothing(g, order, visited, path, growth.forest, target, v);
    }
    GrowByEdge(g, order, r, visited, stack, cyclic, growth, target, {});
    assert cyclic + {} == cyclic;
  }

  // ---- descending

  lemma PushStands(g: Graph, visited: set<string>, stack: seq<Frame>, target: string)
    requires Standing(g, visited, stack) && target in g && target !in visited && target !in Nodes(stack)
    requires stack != [] ==> var f := stack[|stack| - 1]; f.index >= 1 && g[f.node][f.index - 1] == target
    ensures var s := stack + [Frame(target, 0)];
      Standing(g, visited, s) && Nodes(s) == Nodes(stack) + [target]
  {
    var s := stack + [Frame(target, 0)];
    assert Nodes(s) == Nodes(stack) + [target];
    assert Linked(g, s);
  }

  lemma PushRecords(g: Graph, visited: set<string>, stack: seq<Frame>, target: string, seen: Edges)
    requires InGraph(g, stack) && Recorded(g, visited, stack, seen) && target in g
    ensures InGraph(g, stack + [Frame(target, 0)]) && Recorded(g, visited, stack + [Frame(target, 0)], seen)
  {
    var s := stack + [Frame(target, 0)];
    assert Nodes(s) == Nodes(stack) + [target];
    forall j, m | 0 <= j < |s| && 0 <= m < s[j].index ensures (s[j].node, g[s[j].node][m]) in seen {
      assert s[j] == stack[j];
    }
  }

  /** Descending leaves the choice descended by open. */
  lemma PushPasses(g: Graph, visited: set<string>, stack: seq<Frame>, target: string)
    requires Standing(g, visited, stack) && PassedEdges(g, visited, stack) && Examines(g, stack, target) && target in g
    ensures var s := Advance(stack) + [Frame(target, 0)]; InGraph(g, s) && PassedEdges(g, visited, s)
  {
    var n, s := |stack| - 1, Advance(stack) + [Frame(target, 0)];
    assert Nodes(s) == Nodes(stack) + [target];
    forall j, m | 0 <= j < |s| && 0 <= m < Tried(s, j) ensures Sealed(g, visited, g[s[j].node][m], Nodes(s)[..j + 1]) {
      assert j <= n && s[j].node == stack[j].node && Tried(s, j) == Tried(stack, j);
      assert Nodes(s)[..j + 1] == Nodes(stack)[..j + 1];
    }
  }

  /** The frames after descending. */
  lemma PushFrames(g: Graph, visited: set<string>, stack: seq<Frame>, target: string, seen: Edges)
    requires Standing(g, visited, stack) && PassedEdges(g, visited, stack) && Recorded(g, visited, stack, seen)
    requires Examines(g, stack, target) && target in g && target !in visited && target !in Nodes(stack)
    ensures var s := Advance(stack) + [Frame(target, 0)];
      && Standing(g, visited, s) && Nodes(s) == Nodes(stack) + [target]
      && PassedEdges(g, visited, s) && Recorded(g, visited, s, seen + {(stack[|stack| - 1].node, target)})
  {
    AdvanceStands(g, visited, stack, target);
    PushStands(g, visited, Advance(stack), target);
    PushPasses(g, visited, stack, target);
    AdvanceRecords(g, visited, stack, target, seen);
    PushRecords(g, visited, Advance(stack), target, seen + {(stack[|stack| - 1].node, target)});
  }

  /** Forest and reports after descending. */
  lemma PushReports(g: Graph, order: seq<string>, visited: set<string>, path: seq<string>, forest: Forest, seen: Edges,
                    cyclic: set<string>, target: string)
    requires Planted(g, order, visited, path, forest) && target !in visited && target !in path && path != []
    requires Reported(forest, seen, cyclic) && forall e <- seen :: e.0 in forest
    ensures Reported(forest[target := path + [target]], seen + {(path[|path| - 1], target)}, cyclic)
  {
    var top := path[|path| - 1];
    forall v ensures !Spans(forest, top, target, v) {
      OffPathSpansNothing(g, order, visited, path, forest, target, v);
    }
    ReportMore(forest, seen, cyclic, (top, target), {});
    assert cyclic + {} == cyclic;
    LeafReports(g, order, visited, path, forest, target, seen + {(top, target)}, cyclic);
  }

  lemma GrowPush(g: Graph, order: seq<string>, r: nat, visited: set<string>, stack: seq<Frame>, cyclic: set<string>,
                 growth: Growth, target: string)
    requires Closed(g) && Grown(g, order, r, visited, stack, cyclic, growth) && Examines(g, stack, target)
    requires target !in visited && target !in Nodes(stack)
    ensures var forest := growth.forest[target := Nodes(stack) + [target]];
      var seen := growth.seen + {(stack[|stack| - 1].node, target)};
      Grown(g, order, r, visited, Advance(stack) + [Frame(target, 0)], cyclic, Growth(forest, seen))
  {
    assert Nodes(stack)[|stack| - 1] == stack[|stack| - 1].node;
    PushFrames(g, visited, stack, target, growth.seen);
    NewPath(g, order, r, visited, stack, target);
    PlantMore(g, order, visited, Nodes(stack), growth.forest, target);
    PushReports(g, order, visited, Nodes(stack), growth.forest, growth.seen, cyclic, target);
  }

  lemma GrowRoot(g: Graph, order: seq<string>, r: nat, visited: set<string>, cyclic: set<string>, growth: Growth)
    requires Grown(g, order, r, visited, [], cyclic, growth)
    requires r < |order| && order[r] in g && order[r] !in visited
    ensures Grown(g, order, r, visited, [Frame(order[r], 0)], cyclic,
            growth.(forest := growth.forest[order[r] := [order[r]]]))
  {
    var root := order[r];
    var s: seq<Frame> := [Frame(root, 0)];
    assert [] + s == s && Nodes([]) == [] && [] + [root] == [root];
    PushStands(g, visited, [], root);
    PushRecords(g, visited, [], root, growth.seen);
    NewPath(g, order, r, visited, [], root);
    PlantMore(g, order, visited, [], growth.forest, root);
    LeafReports(g, order, visited, [], growth.forest, root, growth.seen, cyclic);
  }

  // ---- finishing

  lemma PopFences(g: Graph, visited: set<string>, stack: seq<Frame>)
    requires Standing(g, visited, stack) && PassedEdges(g, visited, stack) && Fenced(g, visited, Nodes(stack))
             && stack != []
    requires stack[|stack| - 1].index == |g[stack[|stack| - 1].node]|
    ensures Fenced(g, visited + {stack[|stack| - 1].node}, Nodes(stack[..|stack| - 1]))
  {
    var n, node, path := |stack| - 1, stack[|stack| - 1].node, Nodes(stack);
    assert path == Nodes(stack[..n]) + [node];
    assert path[..n + 1] == path;
    forall y | Step(g, node, y) ensures y in visited || y in path {
      var m :| 0 <= m < |g[node]| && g[node][m] == y;
      assert m < Tried(stack, n);
      if y !in path { assert Route(g, [y], y, y, path); }
    }
  }

  lemma PopPasses(g: Graph, visited: set<string>, stack: seq<Frame>)
    requires Standing(g, visited, stack) && PassedEdges(g, visited, stack) && stack != []
    requires Fenced(g, visited + {stack[|stack| - 1].node}, Nodes(stack[..|stack| - 1]))
    ensures PassedEdges(g, visited + {stack[|stack| - 1].node}, stack[..|stack| - 1])
  {
    var n, node := |stack| - 1, stack[|stack| - 1].node;
    var s, more := stack[..n], visited + {node};
    assert Nodes(stack) == Nodes(s) + [node];
    forall j, m | 0 <= j < |s| && 0 <= m < Tried(s, j) ensures Sealed(g, more, g[s[j].node][m], Nodes(s)[..j + 1]) {
      assert s[j] == stack[j] && Nodes(s)[..j + 1] == Nodes(stack)[..j + 1];
      if m < Tried(stack, j) {
        assert Sealed(g, visited, g[stack[j].node][m], Nodes(stack)[..j + 1]);
      } else {
        assert j == n - 1 && g[s[j].node][m] == node && Nodes(s)[..j + 1] == Nodes(s);
        FencedIsSealed(g, more, Nodes(s), node);
      }
    }
  }

  lemma PopRecords(g: Graph, visited: set<string>, stack: seq<Frame>, seen: Edges)
    requires InGraph(g, stack) && Recorded(g, visited, stack, seen) && stack != []
    requires stack[|stack| - 1].index == |g[stack[|stack| - 1].node]|
    ensures Recorded(g, visited + {stack[|stack| - 1].node}, stack[..|stack| - 1], seen)
  {
    var n, node := |stack| - 1, stack[|stack| - 1].node;
    assert Nodes(stack) == Nodes(stack[..n]) + [node];
  }

  lemma PopStands(g: Graph, visited: set<string>, stack: seq<Frame>)
    requires Standing(g, visited, stack) && stack != []
    ensures Standing(g, visited + {stack[|stack| - 1].node}, stack[..|stack| - 1])
  {
    var n, node, path := |stack| - 1, stack[|stack| - 1].node, Nodes(stack);
    assert Nodes(stack[..n]) == path[..n];
    assert path[n] == node;
  }

  lemma PopPlants(g: Graph, order: seq<string>, visited: set<string>, path: seq<string>, forest: Forest, n: nat)
    requires Planted(g, order, visited, path, forest) && |path| == n + 1
    ensures Planted(g, order, visited + {path[n]}, path[..n], forest)
  {
    assert path == path[..n] + [path[n]];
    forall j | 0 <= j < n ensures forest[path[..n][j]] == path[..n][..j + 1] {
      assert path[..n][..j + 1] == path[..j + 1];
    }
  }

  lemma GrowPop(g: Graph, order: seq<string>, r: nat, visited: set<string>, stack: seq<Frame>, cyclic: set<string>,
                growth: Growth)
    requires Grown(g, order, r, visited, stack, cyclic, growth) && stack != []
    requires stack[|stack| - 1].index == |g[stack[|stack| - 1].node]|
    ensures Grown(g, order, r, visited + {stack[|stack| - 1].node}, stack[..|stack| - 1], cyclic, growth)
  {
    var n := |stack| - 1;
    assert Nodes(stack[..n]) == Nodes(stack)[..n];
    PopStands(g, visited, stack);
    PopFences(g, visited, stack);
    PopPasses(g, visited, stack);
    PopRecords(g, visited, stack, growth.seen);
    PopPlants(g, order, visited, Nodes(stack), growth.forest, n);
  }

  /** On to the next root. */
  lemma GrowNext(g: Graph, order: seq<string>, r: nat, visited: set<string>, cyclic: set<string>, growth: Growth)
    requires Grown(g, order, r, visited, [], cyclic, growth) && r < |order| && order[r] in visited
    ensures Grown(g, order, r + 1, visited, [], cyclic, growth)
  {
    assert Nodes([]) == [];
    FencedIsSealed(g, visited, [], order[r]);
  }

  lemma GrowStart(g: Graph, order: seq<string>)
    ensures Grown(g, order, 0, {}, [], {}, Growth(map[], {}))
  {
    assert Nodes([]) == [];
  }

  /** With every node finished the forest is the one of the graph, and exactly the spanned
      nodes are reported. */
  lemma GrowEnd(g: Graph, order: seq<string>, r: nat, visited: set<string>, cyclic: set<string>, growth: Growth)
    requires Grown(g, order, r, visited, [], cyclic, growth) && visited == g.Keys
    ensures IsForest(g, order, growth.forest)
    ensures forall v :: v in cyclic <==> Spanned(g, growth.forest, v)
  {
    assert Nodes([]) == [];
    forall v ensures Spanned(g, growth.forest, v) <==> SpannedBy(growth.forest, growth.seen, v) {
      if Spanned(g, growth.forest, v) {
        var u, w :| Step(g, u, w) && Spans(growth.forest, u, w, v);
        assert (u, w) in growth.seen;
      }
    }
  }
}
