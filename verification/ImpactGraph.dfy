/** The bounded breadth-first impact graph over reversed CMDB relationships. */
module ImpactGraph {
  import opened Sorting
  import opened Wrappers

  datatype Item = Item(name: string, ciType: string)
  datatype Relationship = Relationship(relType: string, target: string)
  datatype Source = Source(id: string, relationships: seq<Relationship>)

  datatype Dependent = Dependent(id: string, name: string, ciType: string, rel: string, depth: nat)
  datatype Impact = Impact(dependents: seq<Dependent>, cycles: seq<seq<string>>, truncated: bool)

  /** For each configuration item, who depends on it and how. */
  type Reverse = map<string, seq<(string, string)>>

  function Links(reverse: Reverse, t: string): seq<(string, string)> {
    if t in reverse then reverse[t] else []
  }

  predicate LinkLeq(a: (string, string), b: (string, string)) {
    if a.0 == b.0 then StringLeq(a.1, b.1) else StringLeq(a.0, b.0)
  }

  // ---- the reverse map

  predicate Followed(r: Relationship) { r.relType == "depends_on" || r.relType == "runs_on" }

  /** Some source declares the followed relationship `rel` to `t`. */
  ghost predicate Declares(sources: seq<Source>, s: string, rel: string, t: string) {
    exists i, j | 0 <= i < |sources| && 0 <= j < |sources[i].relationships| :: DeclaresAt(sources, i, j, s, rel, t)
  }

  ghost predicate DeclaresAt(sources: seq<Source>, i: nat, j: nat, s: string, rel: string, t: string)
    requires i < |sources| && j < |sources[i].relationships|
  {
    sources[i].id == s && sources[i].relationships[j] == Relationship(rel, t)
    && Followed(sources[i].relationships[j])
  }

  /** The loops that build the reverse map; its links are exactly the declared ones. */
  method BuildReverse(sources: seq<Source>) returns (reverse: Reverse)
    ensures forall s, rel, t :: (s, rel) in Links(reverse, t) <==> Declares(sources, s, rel, t)
  {
    reverse := map[];
    for i := 0 to |sources|
      invariant forall s, rel, t :: (s, rel) in Links(reverse, t) <==> DeclaredBefore(sources, i, 0, s, rel, t)
    {
      for j := 0 to |sources[i].relationships|
        invariant forall s, rel, t :: (s, rel) in Links(reverse, t) <==> DeclaredBefore(sources, i, j, s, rel, t)
      {
        ghost var before := reverse;
        var r := sources[i].relationships[j];
        if Followed(r) {
          reverse := reverse[r.target := Links(reverse, r.target) + [(sources[i].id, r.relType)]];
        }
        forall s, rel, t ensures (s, rel) in Links(reverse, t) <==> DeclaredBefore(sources, i, j + 1, s, rel, t) {
          assert (s, rel) in Links(reverse, t)
            <==> (s, rel) in Links(before, t) || DeclaresAt(sources, i, j, s, rel, t);
        }
      }
    }
  }

  ghost predicate DeclaredBefore(sources: seq<Source>, n: nat, m: nat, s: string, rel: string, t: string) {
    exists i, j | 0 <= i < |sources| && 0 <= j < |sources[i].relationships| ::
      (i < n || (i == n && j < m)) && DeclaresAt(sources, i, j, s, rel, t)
  }

  // ---- distance

  /** `s` depends on `t`. */
  ghost predicate Dep(reverse: Reverse, t: string, s: string) {
    exists rel :: (s, rel) in Links(reverse, t)
  }

  ghost function Dependents(reverse: Reverse, t: string): set<string> {
    set link | link in Links(reverse, t) :: link.0
  }

  ghost function Neighbours(reverse: Reverse, ball: set<string>): set<string> {
    set t, s | t in ball && s in Dependents(reverse, t) :: s
  }

  /** Everything within d reverse edges of the root. */
  ghost function Ball(reverse: Reverse, root: string, d: nat): set<string> {
    if d == 0 then {root} else Ball(reverse, root, d - 1) + Neighbours(reverse, Ball(reverse, root, d - 1))
  }

  /** A popped node at the depth limit still has dependents of its own. */
  ghost predicate CutSeen(reverse: Reverse, limit: nat, level: map<string, nat>, popped: set<string>) {
    exists v :: v in popped && CutAt(reverse, limit, level, v)
  }

  ghost predicate CutAt(reverse: Reverse, limit: nat, level: map<string, nat>, v: string) {
    v in level && level[v] == limit && Links(reverse, v) != []
  }

  ghost predicate AllClose(reverse: Reverse, root: string, cycles: seq<seq<string>>) {
    forall c :: c in cycles ==> Closes(reverse, root, c)
  }

  /** The shortest reverse distance of v is d. */
  ghost predicate At(reverse: Reverse, root: string, v: string, d: nat) {
    v in Ball(reverse, root, d) && (d > 0 ==> v !in Ball(reverse, root, d - 1))
  }

  lemma {:induction false} BallGrows(reverse: Reverse, root: string, d: nat, e: nat)
    requires d <= e
    ensures Ball(reverse, root, d) <= Ball(reverse, root, e)
  {
    if d < e { BallGrows(reverse, root, d, e - 1); }
  }

  // ---- the search

  datatype Entry = Entry(id: string, depth: nat, path: seq<string>)

  /** A walk along reverse edges from the root. */
  ghost predicate Trail(reverse: Reverse, root: string, path: seq<string>) {
    path != [] && path[0] == root && forall i | 0 <= i < |path| - 1 :: Dep(reverse, path[i], path[i + 1])
  }

  /** A trail that ends on a node it has visited before. */
  ghost predicate Closes(reverse: Reverse, root: string, c: seq<string>) {
    Trail(reverse, root, c) && |c| >= 2 && c[|c| - 1] in c[..|c| - 1]
  }

  /** Levels of the seen nodes are their distances. */
  ghost predicate Levels(reverse: Reverse, root: string, limit: nat, level: map<string, nat>) {
    && root in level && level[root] == 0
    && (forall v :: v in level ==> level[v] <= limit)
    && forall v {:trigger Placed(reverse, root, level, v)} :: v in level ==> Placed(reverse, root, level, v)
  }

  ghost predicate Placed(reverse: Reverse, root: string, level: map<string, nat>, v: string) {
    v in level && At(reverse, root, v, level[v])
  }

  /** The queue holds exactly the seen nodes that were not popped, nearest first. */
  ghost predicate Queued(reverse: Reverse, root: string, level: map<string, nat>, popped: set<string>,
                         queue: seq<Entry>, d: nat)
  {
    && (forall i | 0 <= i < |queue| ::
      queue[i].id in level && queue[i].depth == level[queue[i].id] && queue[i].id !in popped)
    && (forall i | 0 <= i < |queue| :: d <= queue[i].depth <= d + 1)
    && (forall i, j | 0 <= i < j < |queue| :: queue[i].depth <= queue[j].depth && queue[i].id != queue[j].id)
    && (forall i {:trigger Reached(reverse, root, level, queue[i])} | 0 <= i < |queue| ::
      Reached(reverse, root, level, queue[i]))
    && (forall v {:trigger Waits(queue, v)} :: v in level && v !in popped ==> Waits(queue, v))
  }

  /** The entry's path is a trail to it through seen nodes. */
  ghost predicate Reached(reverse: Reverse, root: string, level: map<string, nat>, e: Entry) {
    Trail(reverse, root, e.path) && e.path[|e.path| - 1] == e.id && forall x :: x in e.path ==> x in level
  }

  ghost predicate Waits(queue: seq<Entry>, v: string) { exists i | 0 <= i < |queue| :: queue[i].id == v }

  /** Popped nodes lie within d, and all but the active one have all dependents seen unless
      the depth limit stops them. */
  ghost predicate Expanded(reverse: Reverse, limit: nat, level: map<string, nat>, popped: set<string>,
                           active: set<string>, d: nat)
  {
    && popped <= level.Keys
    && (forall v :: v in popped ==> level[v] <= d)
    && (forall v :: v in popped && v !in active && level[v] < limit ==> Dependents(reverse, v) <= level.Keys)
  }

  /** The listed dependents are exactly the seen nodes besides the root. */
  ghost predicate Listed(reverse: Reverse, root: string, cis: map<string, Item>, level: map<string, nat>,
                         nodes: seq<Dependent>)
  {
    && (forall i | 0 <= i < |nodes| ::
      nodes[i].id in level && nodes[i].id != root && nodes[i].depth == level[nodes[i].id])
    && (forall i {:trigger Described(reverse, root, cis, nodes[i])} | 0 <= i < |nodes| ::
      Described(reverse, root, cis, nodes[i]))
    && (forall i, j | 0 <= i < j < |nodes| :: nodes[i].id != nodes[j].id && nodes[i].depth <= nodes[j].depth)
    && (forall v {:trigger Shown(nodes, v)} :: v in level && v != root ==> Shown(nodes, v))
  }

  ghost predicate Shown(nodes: seq<Dependent>, v: string) { exists i | 0 <= i < |nodes| :: nodes[i].id == v }

  /** The record copies the item and names a link to a node one step nearer. */
  ghost predicate Described(reverse: Reverse, root: string, cis: map<string, Item>, n: Dependent) {
    && n.id in cis && n.name == cis[n.id].name && n.ciType == cis[n.id].ciType
    && n.depth >= 1
    && exists t :: At(reverse, root, t, n.depth - 1) && (n.id, n.rel) in Links(reverse, t)
  }

  ghost predicate Search(reverse: Reverse, root: string, cis: map<string, Item>, limit: nat, level: map<string, nat>,
                         popped: set<string>, active: set<string>, queue: seq<Entry>, nodes: seq<Dependent>, d: nat) {
    && Levels(reverse, root, limit, level)
    && Queued(reverse, root, level, popped, queue, d)
    && Expanded(reverse, limit, level, popped, active, d)
    && Ball(reverse, root, d) <= level.Keys
    && Listed(reverse, root, cis, level, nodes)
    && (forall i | 0 <= i < |nodes| :: nodes[i].depth <= d + 1)
  }

  // ---- what the result promises

  /** The transitive dependents within the depth limit. */
  ghost function Within(reverse: Reverse, root: string, limit: nat): set<string> {
    Ball(reverse, root, limit) - {root}
  }

  function Ids(nodes: seq<Dependent>): set<string> { set i | 0 <= i < |nodes| :: nodes[i].id }

  /** A node at the depth limit has dependents of its own. */
  ghost predicate DepthCut(reverse: Reverse, root: string, limit: nat) {
    exists v :: At(reverse, root, v, limit) && Links(reverse, v) != []
  }

  /** The depth is the shortest distance and the record is faithful. */
  ghost predicate Nearest(reverse: Reverse, root: string, cis: map<string, Item>, n: Dependent) {
    At(reverse, root, n.id, n.depth) && Described(reverse, root, cis, n)
  }

  /** Nothing left out lies nearer than something listed. */
  ghost predicate NoneNearer(reverse: Reverse, root: string, nodes: seq<Dependent>, all: set<string>) {
    forall i, v | 0 <= i < |nodes| && v in all && v !in Ids(nodes) :: Beyond(reverse, root, nodes[i].depth, v)
  }

  ghost predicate Beyond(reverse: Reverse, root: string, depth: nat, v: string) {
    depth == 0 || v !in Ball(reverse, root, depth - 1)
  }

  ghost predicate Projects(reverse: Reverse, root: string, cis: map<string, Item>, limit: nat, most: nat, r: Impact) {
    var all := Within(reverse, root, limit);
    // each dependent once, never the root, at most `most`, nearest first, at its shortest distance
    && (forall i | 0 <= i < |r.dependents| :: r.dependents[i].id in all && Nearest(reverse, root, cis, r.dependents[i]))
    && (forall i, j | 0 <= i < j < |r.dependents| ::
          r.dependents[i].id != r.dependents[j].id && r.dependents[i].depth <= r.dependents[j].depth)
    && |r.dependents| <= most
    // all of them when they fit, otherwise as many as fit and none farther than one left out
    && (|all| <= most ==> Ids(r.dependents) == all)
    && (|all| > most ==> |r.dependents| == most)
    && NoneNearer(reverse, root, r.dependents, all)
    // the flag says exactly whether a cut was made
    && (r.truncated <==> |all| > most || DepthCut(reverse, root, limit))
    // every reported cycle is a trail that closes
    && AllClose(reverse, root, r.cycles)
  }

  /** Without truncation the list is the whole transitive set of dependents. */
  lemma UntruncatedIsComplete(reverse: Reverse, root: string, cis: map<string, Item>, limit: nat, most: nat, r: Impact,
                              n: nat)
    requires Projects(reverse, root, cis, limit, most, r) && !r.truncated
    ensures Within(reverse, root, n) <= Ids(r.dependents)
  {
    BallStops(reverse, root, limit, n);
  }

  lemma {:induction false} BallStops(reverse: Reverse, root: string, limit: nat, n: nat)
    requires !DepthCut(reverse, root, limit)
    ensures Ball(reverse, root, n) <= Ball(reverse, root, limit)
  {
    if n <= limit {
      BallGrows(reverse, root, n, limit);
    } else {
      BallStops(reverse, root, limit, n - 1);
      forall t, s | t in Ball(reverse, root, n - 1) && s in Dependents(reverse, t)
        ensures s in Ball(reverse, root, limit)
      {
        assert At(reverse, root, t, limit) || (limit > 0 && t in Ball(reverse, root, limit - 1));
        if limit > 0 && t in Ball(reverse, root, limit - 1) {
          assert s in Neighbours(reverse, Ball(reverse, root, limit - 1));
        }
      }
    }
  }

  // ---- steps of the search

  lemma LevelOf(reverse: Reverse, root: string, limit: nat, level: map<string, nat>, v: string, d: nat)
    requires Levels(reverse, root, limit, level) && v in level && v in Ball(reverse, root, d)
    ensures level[v] <= d
  {
    assert Placed(reverse, root, level, v);
    if level[v] > d { BallGrows(reverse, root, d, level[v] - 1); }
  }

  lemma PopKeeps(reverse: Reverse, root: string, cis: map<string, Item>, limit: nat, level: map<string, nat>,
                 popped: set<string>, queue: seq<Entry>, nodes: seq<Dependent>, d: nat)
    requires Search(reverse, root, cis, limit, level, popped, {}, queue, nodes, d) && queue != [] && queue[0].depth == d
    ensures Search(reverse, root, cis, limit, level, popped + {queue[0].id}, {queue[0].id}, queue[1..], nodes, d)
  {
    var rest, now := queue[1..], popped + {queue[0].id};
    forall v | v in level && v !in now ensures Waits(rest, v) {
      assert Waits(queue, v);
      var i :| 0 <= i < |queue| && queue[i].id == v;
      assert rest[i - 1] == queue[i];
    }
    forall i | 0 <= i < |rest| ensures rest[i] == queue[i + 1] && Reached(reverse, root, level, rest[i]) {
      assert Reached(reverse, root, level, queue[i + 1]);
    }
    assert Queued(reverse, root, level, now, rest, d);
  }

  /** The active node is done: its dependents are all seen, or the limit stops it. */
  lemma CloseKeeps(reverse: Reverse, root: string, cis: map<string, Item>, limit: nat, level: map<string, nat>,
                   popped: set<string>, t: string, queue: seq<Entry>, nodes: seq<Dependent>, d: nat)
    requires Search(reverse, root, cis, limit, level, popped, {t}, queue, nodes, d) && t in level
    requires level[t] >= limit || Dependents(reverse, t) <= level.Keys
    ensures Search(reverse, root, cis, limit, level, popped, {}, queue, nodes, d)
  {}

  lemma NewLevel(reverse: Reverse, root: string, t: string, s: string, d: nat, level: map<string, nat>)
    requires t in Ball(reverse, root, d) && s in Dependents(reverse, t) && s !in level
             && Ball(reverse, root, d) <= level.Keys
    ensures At(reverse, root, s, d + 1)
  {
    assert s in Neighbours(reverse, Ball(reverse, root, d));
  }

  /** A dependent seen for the first time joins the list and the queue one level farther. */
  lemma AddKeeps(reverse: Reverse, root: string, cis: map<string, Item>, limit: nat, level: map<string, nat>,
                 popped: set<string>,
                 t: string, queue: seq<Entry>, nodes: seq<Dependent>, d: nat, path: seq<string>, s: string, rel: string)
    requires Search(reverse, root, cis, limit, level, popped, {t}, queue, nodes, d)
    requires t in level && level[t] == d < limit && (s, rel) in Links(reverse, t) && s !in level && s in cis
    requires Trail(reverse, root, path) && path[|path| - 1] == t && forall x :: x in path ==> x in level
    ensures Search(reverse, root, cis, limit, level[s := d + 1], popped, {t}, queue + [Entry(s, d + 1, path + [s])],
                   nodes + [Dependent(s, cis[s].name, cis[s].ciType, rel, d + 1)], d)
  {
    var e := Entry(s, d + 1, path + [s]);
    var n := Dependent(s, cis[s].name, cis[s].ciType, rel, d + 1);
    assert s in Dependents(reverse, t) by { assert (s, rel).0 == s; }
    assert Placed(reverse, root, level, t);
    NewLevel(reverse, root, t, s, d, level);
    AddLevel(reverse, root, limit, level, s, d + 1);
    TrailGrows(reverse, root, path, t, s, rel);
    AddQueued(reverse, root, level, popped, queue, d, e);
    AddExpanded(reverse, limit, level, popped, t, d, s);
    AddListed(reverse, root, cis, level, nodes, d, n);
  }

  lemma AddLevel(reverse: Reverse, root: string, limit: nat, level: map<string, nat>, s: string, d: nat)
    requires Levels(reverse, root, limit, level) && s !in level && At(reverse, root, s, d) && d <= limit
    ensures Levels(reverse, root, limit, level[s := d])
  {
    var l := level[s := d];
    forall v | v in l ensures Placed(reverse, root, l, v) {
      if v != s { assert Placed(reverse, root, level, v); }
    }
  }

  lemma AddExpanded(reverse: Reverse, limit: nat, level: map<string, nat>, popped: set<string>, t: string, d: nat,
                    s: string)
    requires Expanded(reverse, limit, level, popped, {t}, d) && s !in level
    ensures Expanded(reverse, limit, level[s := d + 1], popped, {t}, d)
  {}

  lemma TrailGrows(reverse: Reverse, root: string, path: seq<string>, t: string, s: string, rel: string)
    requires Trail(reverse, root, path) && path[|path| - 1] == t && (s, rel) in Links(reverse, t)
    ensures Trail(reverse, root, path + [s])
  {
    var p := path + [s];
    forall i | 0 <= i < |p| - 1 ensures Dep(reverse, p[i], p[i + 1]) {
      if i < |path| - 1 { assert Dep(reverse, path[i], path[i + 1]); }
    }
  }

  lemma AddQueued(reverse: Reverse, root: string, level: map<string, nat>, popped: set<string>, queue: seq<Entry>,
                  d: nat, e: Entry)
    requires Queued(reverse, root, level, popped, queue, d) && popped <= level.Keys
    requires e.id !in level && e.depth == d + 1 && Trail(reverse, root, e.path) && e.path[|e.path| - 1] == e.id
    requires forall x :: x in e.path ==> x in level || x == e.id
    ensures Queued(reverse, root, level[e.id := e.depth], popped, queue + [e], d)
  {
    var q, l := queue + [e], level[e.id := e.depth];
    forall v | v in l && v !in popped ensures Waits(q, v) {
      if v == e.id {
        assert q[|queue|].id == v;
      } else {
        assert Waits(queue, v);
        var i :| 0 <= i < |queue| && queue[i].id == v;
        assert q[i].id == v;
      }
    }
    forall i | 0 <= i < |q| ensures Reached(reverse, root, l, q[i]) {
      if i < |queue| { assert Reached(reverse, root, level, queue[i]); }
    }
  }

  lemma AddListed(reverse: Reverse, root: string, cis: map<string, Item>, level: map<string, nat>,
                  nodes: seq<Dependent>, d: nat, n: Dependent)
    requires Listed(reverse, root, cis, level, nodes) && root in level && n.id !in level && n.depth == d + 1
    requires Described(reverse, root, cis, n) && forall i | 0 <= i < |nodes| :: nodes[i].depth <= d + 1
    ensures Listed(reverse, root, cis, level[n.id := n.depth], nodes + [n])
  {
    var more, l := nodes + [n], level[n.id := n.depth];
    forall v | v in l && v != root ensures Shown(more, v) {
      if v == n.id {
        assert more[|nodes|].id == v;
      } else {
        assert Shown(nodes, v);
        var i :| 0 <= i < |nodes| && nodes[i].id == v;
        assert more[i].id == v;
      }
    }
    forall i | 0 <= i < |more| ensures Described(reverse, root, cis, more[i]) {
      if i < |nodes| { assert Described(reverse, root, cis, nodes[i]); }
    }
  }

  /** When everything queued lies one level farther, the ball of that radius is seen. */
  lemma AdvanceKeeps(reverse: Reverse, root: string, cis: map<string, Item>, limit: nat, level: map<string, nat>,
                     popped: set<string>, queue: seq<Entry>, nodes: seq<Dependent>, d: nat)
    requires Search(reverse, root, cis, limit, level, popped, {}, queue, nodes, d) && queue != []
             && queue[0].depth == d + 1
    ensures Search(reverse, root, cis, limit, level, popped, {}, queue, nodes, d + 1)
  {
    assert forall i | 0 <= i < |queue| :: queue[i].depth == d + 1;
    forall v, s | v in Ball(reverse, root, d) && s in Dependents(reverse, v) ensures s in level {
      LevelOf(reverse, root, limit, level, v, d);
      assert v !in popped ==> Waits(queue, v);
    }
    AdvanceQueued(reverse, root, level, popped, queue, d);
  }

  lemma AdvanceQueued(reverse: Reverse, root: string, level: map<string, nat>, popped: set<string>, queue: seq<Entry>,
                      d: nat)
    requires Queued(reverse, root, level, popped, queue, d)
    requires forall i | 0 <= i < |queue| :: queue[i].depth == d + 1
    ensures Queued(reverse, root, level, popped, queue, d + 1)
  {
    forall i | 0 <= i < |queue| ensures Reached(reverse, root, level, queue[i]) {}
  }

  // ---- the end of the search

  lemma {:induction false} Covered(reverse: Reverse, root: string, cis: map<string, Item>, limit: nat,
                                   level: map<string, nat>, popped: set<string>, nodes: seq<Dependent>, d: nat, k: nat)
    requires Search(reverse, root, cis, limit, level, popped, {}, [], nodes, d) && k <= limit
    ensures Ball(reverse, root, k) <= level.Keys
  {
    if k > 0 {
      Covered(reverse, root, cis, limit, level, popped, nodes, d, k - 1);
      forall v, s | v in Ball(reverse, root, k - 1) && s in Dependents(reverse, v) ensures s in level {
        LevelOf(reverse, root, limit, level, v, k - 1);
        assert v !in popped ==> Waits([], v);
      }
    }
  }

  lemma LevelsInside(reverse: Reverse, root: string, limit: nat, level: map<string, nat>)
    requires Levels(reverse, root, limit, level)
    ensures level.Keys <= Ball(reverse, root, limit)
  {
    forall v | v in level ensures v in Ball(reverse, root, limit) {
      assert Placed(reverse, root, level, v);
      BallGrows(reverse, root, level[v], limit);
    }
  }

  lemma ListedIds(reverse: Reverse, root: string, cis: map<string, Item>, level: map<string, nat>,
                  nodes: seq<Dependent>)
    requires Listed(reverse, root, cis, level, nodes) && root in level
    ensures Ids(nodes) == level.Keys - {root} && |Ids(nodes)| == |nodes|
  {
    forall v | v in level && v != root ensures v in Ids(nodes) { assert Shown(nodes, v); }
    IdsCount(nodes);
  }

  lemma ListedNearest(reverse: Reverse, root: string, cis: map<string, Item>, limit: nat, level: map<string, nat>,
                      nodes: seq<Dependent>)
    requires Listed(reverse, root, cis, level, nodes) && Levels(reverse, root, limit, level)
    ensures forall i | 0 <= i < |nodes| ::
            nodes[i].id in Within(reverse, root, limit) && Nearest(reverse, root, cis, nodes[i])
  {
    LevelsInside(reverse, root, limit, level);
    forall i | 0 <= i < |nodes| ensures Nearest(reverse, root, cis, nodes[i]) {
      assert Placed(reverse, root, level, nodes[i].id) && Described(reverse, root, cis, nodes[i]);
    }
  }

  lemma {:induction false} IdsCount(nodes: seq<Dependent>)
    requires forall i, j | 0 <= i < j < |nodes| :: nodes[i].id != nodes[j].id
    ensures |Ids(nodes)| == |nodes|
  {
    if nodes != [] {
      var n := |nodes| - 1;
      IdsCount(nodes[..n]);
      assert Ids(nodes) == Ids(nodes[..n]) + {nodes[n].id};
    }
  }

  lemma CutFires(reverse: Reverse, root: string, limit: nat, level: map<string, nat>, popped: set<string>)
    requires Levels(reverse, root, limit, level) && popped == level.Keys && Ball(reverse, root, limit) == level.Keys
    ensures DepthCut(reverse, root, limit) <==> CutSeen(reverse, limit, level, popped)
  {
    if CutSeen(reverse, limit, level, popped) {
      var v :| v in popped && CutAt(reverse, limit, level, v);
      assert Placed(reverse, root, level, v);
    }
    if DepthCut(reverse, root, limit) {
      var v :| At(reverse, root, v, limit) && Links(reverse, v) != [];
      LevelOf(reverse, root, limit, level, v, limit);
      assert Placed(reverse, root, level, v);
      if level[v] < limit { BallGrows(reverse, root, level[v], limit - 1); }
      assert CutAt(reverse, limit, level, v);
    }
  }

  /** Everything but the cycles, when the queue ran empty. */
  lemma Completed(reverse: Reverse, root: string, cis: map<string, Item>, limit: nat, most: nat,
                  level: map<string, nat>, popped: set<string>, d: nat, r: Impact)
    requires Search(reverse, root, cis, limit, level, popped, {}, [], r.dependents, d) && |r.dependents| <= most
    requires r.truncated <==> CutSeen(reverse, limit, level, popped)
    requires AllClose(reverse, root, r.cycles)
    ensures Projects(reverse, root, cis, limit, most, r)
  {
    Covered(reverse, root, cis, limit, level, popped, r.dependents, d, limit);
    LevelsInside(reverse, root, limit, level);
    ListedIds(reverse, root, cis, level, r.dependents);
    ListedNearest(reverse, root, cis, limit, level, r.dependents);
    forall v | v in level ensures v in popped { assert v !in popped ==> Waits([], v); }
    CutFires(reverse, root, limit, level, popped);
  }

  /** Everything but the cycles, when the node limit cut the search short. */
  lemma CutShort(reverse: Reverse, root: string, cis: map<string, Item>, limit: nat, most: nat, level: map<string, nat>,
                 popped: set<string>, t: string, queue: seq<Entry>, d: nat, s: string, r: Impact)
    requires Search(reverse, root, cis, limit, level, popped, {t}, queue, r.dependents, d) && |r.dependents| == most
    requires t in level && level[t] == d < limit && s in Dependents(reverse, t) && s !in level && r.truncated
    requires AllClose(reverse, root, r.cycles)
    ensures Projects(reverse, root, cis, limit, most, r)
  {
    LevelsInside(reverse, root, limit, level);
    ListedNearest(reverse, root, cis, limit, level, r.dependents);
    ListedIds(reverse, root, cis, level, r.dependents);
    MoreThanFits(reverse, root, limit, level, t, d, s, Ids(r.dependents));
    NearestFirst(reverse, root, cis, level, r.dependents, d, Within(reverse, root, limit));
  }

  lemma MoreThanFits(reverse: Reverse, root: string, limit: nat, level: map<string, nat>, t: string, d: nat, s: string,
                     ids: set<string>)
    requires Levels(reverse, root, limit, level) && Ball(reverse, root, d) <= level.Keys && ids == level.Keys - {root}
    requires t in level && level[t] == d < limit && s in Dependents(reverse, t) && s !in level
    ensures |Within(reverse, root, limit)| > |ids|
  {
    LevelsInside(reverse, root, limit, level);
    assert Placed(reverse, root, level, t);
    NewLevel(reverse, root, t, s, d, level);
    BallGrows(reverse, root, d + 1, limit);
    OneLarger(level.Keys, root, s, ids, Ball(reverse, root, limit));
  }

  lemma OneLarger(known: set<string>, root: string, s: string, ids: set<string>, ball: set<string>)
    requires known <= ball && s in ball && s !in known && root in known && ids == known - {root}
    ensures |ball - {root}| > |ids|
  {
    SubsetSize(ids + {s}, ball - {root});
  }

  lemma NearestFirst(reverse: Reverse, root: string, cis: map<string, Item>, level: map<string, nat>,
                     nodes: seq<Dependent>, d: nat, all: set<string>)
    requires Listed(reverse, root, cis, level, nodes) && root in level && root !in all
    requires Ball(reverse, root, d) <= level.Keys && forall i | 0 <= i < |nodes| :: nodes[i].depth <= d + 1
    ensures NoneNearer(reverse, root, nodes, all)
  {
    ListedIds(reverse, root, cis, level, nodes);
    forall i, v | 0 <= i < |nodes| && v in all && v !in Ids(nodes) ensures Beyond(reverse, root, nodes[i].depth, v) {
      if nodes[i].depth > 0 { BallGrows(reverse, root, nodes[i].depth - 1, d); }
    }
  }

  lemma PopShrinks(ball: set<string>, popped: set<string>, v: string)
    requires v in ball && v !in popped
    ensures |ball - (popped + {v})| < |ball - popped|
  {
    assert ball - popped == (ball - (popped + {v})) + {v};
  }

  /** The loop invariant over one target's sorted links, `done` of them handled. */
  ghost predicate Expanding(reverse: Reverse, root: string, cis: map<string, Item>, limit: nat, level: map<string, nat>,
                            popped: set<string>, e: Entry, queue: seq<Entry>, nodes: seq<Dependent>) {
    && Search(reverse, root, cis, limit, level, popped, {e.id}, queue, nodes, e.depth)
    && e.id in level && level[e.id] == e.depth < limit && Reached(reverse, root, level, e)
  }

  lemma ExpandMore(reverse: Reverse, root: string, cis: map<string, Item>, limit: nat, level: map<string, nat>,
                   popped: set<string>, e: Entry, queue: seq<Entry>, nodes: seq<Dependent>, s: string, rel: string)
    requires Expanding(reverse, root, cis, limit, level, popped, e, queue, nodes)
    requires (s, rel) in Links(reverse, e.id) && s !in level && s in cis && e.id in popped
    ensures Expanding(reverse, root, cis, limit, level[s := e.depth + 1], popped, e,
            queue + [Entry(s, e.depth + 1, e.path + [s])],
                      nodes + [Dependent(s, cis[s].name, cis[s].ciType, rel, e.depth + 1)])
    ensures CutSeen(reverse, limit, level[s := e.depth + 1], popped) <==> CutSeen(reverse, limit, level, popped)
  {
    AddKeeps(reverse, root, cis, limit, level, popped, e.id, queue, nodes, e.depth, e.path, s, rel);
    forall v | v in popped
      ensures CutAt(reverse, limit, level[s := e.depth + 1], v) <==> CutAt(reverse, limit, level, v)
    {
    }
  }

  lemma StopHere(reverse: Reverse, root: string, cis: map<string, Item>, limit: nat, most: nat, level: map<string, nat>,
                 popped: set<string>, e: Entry, queue: seq<Entry>, s: string, rel: string, r: Impact)
    requires Expanding(reverse, root, cis, limit, level, popped, e, queue, r.dependents) && |r.dependents| == most
    requires (s, rel) in Links(reverse, e.id) && s !in level && r.truncated && AllClose(reverse, root, r.cycles)
    ensures Projects(reverse, root, cis, limit, most, r)
  {
    assert s in Dependents(reverse, e.id) by { assert (s, rel).0 == s; }
    CutShort(reverse, root, cis, limit, most, level, popped, e.id, queue, e.depth, s, r);
  }

  lemma DoneExpanding(reverse: Reverse, root: string, cis: map<string, Item>, limit: nat, level: map<string, nat>,
                      popped: set<string>,
                      e: Entry, queue: seq<Entry>, nodes: seq<Dependent>, links: seq<(string, string)>)
    requires Expanding(reverse, root, cis, limit, level, popped, e, queue, nodes)
    requires forall x :: x in links <==> x in Links(reverse, e.id)
    requires forall j | 0 <= j < |links| :: links[j].0 in level
    ensures Search(reverse, root, cis, limit, level, popped, {}, queue, nodes, e.depth)
  {
    forall s | s in Dependents(reverse, e.id) ensures s in level {
      var link :| link in Links(reverse, e.id) && link.0 == s;
      assert link in links;
    }
    CloseKeeps(reverse, root, cis, limit, level, popped, e.id, queue, nodes, e.depth);
  }

  lemma CloseCycle(reverse: Reverse, root: string, level: map<string, nat>, e: Entry, s: string, rel: string,
                   cycles: seq<seq<string>>)
    requires Reached(reverse, root, level, e) && (s, rel) in Links(reverse, e.id) && s in e.path
             && AllClose(reverse, root, cycles)
    ensures AllClose(reverse, root, cycles + [e.path + [s]])
  {
    TrailGrows(reverse, root, e.path, e.id, s, rel);
    assert (e.path + [s])[..|e.path|] == e.path;
  }

  lemma NotDeepest(reverse: Reverse, limit: nat, level: map<string, nat>, popped: set<string>, v: string)
    requires v in level
    ensures CutSeen(reverse, limit, level, popped + {v})
            <==> CutSeen(reverse, limit, level, popped) || CutAt(reverse, limit, level, v)
  {}

  /** The inner loop over one target's links. `cut` says the node limit stopped it. */
  method ExpandTarget(root: string, cis: map<string, Item>, reverse: Reverse, limit: nat, most: nat, e: Entry,
                      queue0: seq<Entry>, seen0: set<string>, nodes0: seq<Dependent>, cycles0: seq<seq<string>>,
                      ghost level0: map<string, nat>, ghost popped: set<string>)
      returns (queue: seq<Entry>, seen: set<string>, nodes: seq<Dependent>, cycles: seq<seq<string>>, cut: bool,
               ghost level: map<string, nat>)
    requires forall t, link :: link in Links(reverse, t) ==> link.0 in cis
    requires Expanding(reverse, root, cis, limit, level0, popped, e, queue0, nodes0) && e.id in popped
    requires seen0 == level0.Keys && |nodes0| <= most && AllClose(reverse, root, cycles0)
    ensures AllClose(reverse, root, cycles) && |nodes| <= most
    ensures cut ==> Projects(reverse, root, cis, limit, most, Impact(nodes, cycles, true))
    ensures !cut ==> Search(reverse, root, cis, limit, level, popped, {}, queue, nodes, e.depth) && seen == level.Keys
    ensures !cut ==> (CutSeen(reverse, limit, level, popped) <==> CutSeen(reverse, limit, level0, popped))
  {
    queue, seen, nodes, cycles, level := queue0, seen0, nodes0, cycles0, level0;
    var links := SortBy(Links(reverse, e.id), LinkLeq);
    SortMembers(Links(reverse, e.id), LinkLeq);
    for i := 0 to |links|
      invariant Expanding(reverse, root, cis, limit, level, popped, e, queue, nodes)
      invariant seen == level.Keys && |nodes| <= most
      invariant CutSeen(reverse, limit, level, popped) <==> CutSeen(reverse, limit, level0, popped)
      invariant AllClose(reverse, root, cycles)
      invariant forall j | 0 <= j < i :: links[j].0 in level
    {
      var (source, rel) := links[i];
      assert (source, rel) in Links(reverse, e.id);
      if source in e.path {
        CloseCycle(reverse, root, level, e, source, rel, cycles);
        cycles := cycles + [e.path + [source]];
      } else if source !in seen {
        if |nodes| >= most {
          cut := true;
          StopHere(reverse, root, cis, limit, most, level, popped, e, queue, source, rel, Impact(nodes, cycles, true));
          return;
        }
        ExpandMore(reverse, root, cis, limit, level, popped, e, queue, nodes, source, rel);
        seen := seen + {source};
        level := level[source := e.depth + 1];
        nodes := nodes + [Dependent(source, cis[source].name, cis[source].ciType, rel, e.depth + 1)];
        queue := queue + [Entry(source, e.depth + 1, e.path + [source])];
      }
    }
    DoneExpanding(reverse, root, cis, limit, level, popped, e, queue, nodes, links);
    cut := false;
  }

  /** `_impact_graph`. The defaults of the source are limit 8 and most 200. */
  method Impacted(root: string, cis: map<string, Item>, reverse: Reverse, limit: nat, most: nat) returns (r: Impact)
    requires forall t, link :: link in Links(reverse, t) ==> link.0 in cis
    ensures Projects(reverse, root, cis, limit, most, r)
  {
    var queue := [Entry(root, 0, [root])];
    var seen := {root};
    var nodes: seq<Dependent> := [];
    var cycles: seq<seq<string>> := [];
    var truncated := false;
    ghost var level: map<string, nat> := map[root := 0];
    ghost var popped: set<string> := {};
    ghost var d: nat := 0;
    Starts(reverse, root, cis, limit);
    while queue != []
      invariant Midway(reverse, root, cis, limit, most, level, popped, queue, seen, nodes, cycles, truncated, d)
      decreases |Ball(reverse, root, limit) - popped|
    {
      var e := queue[0];
      PopMidway(reverse, root, cis, limit, most, level, popped, queue, seen, nodes, cycles, truncated, d);
      queue := queue[1..];
      popped := popped + {e.id};
      if e.depth >= limit {
        truncated := truncated || Links(reverse, e.id) != [];
        CloseKeeps(reverse, root, cis, limit, level, popped, e.id, queue, nodes, d);
      } else {
        var cut;
        queue, seen, nodes, cycles, cut, level :=
          ExpandTarget(root, cis, reverse, limit, most, e, queue, seen, nodes, cycles, level, popped);
        if cut { return Impact(nodes, cycles, true); }
      }
      d := AdvanceMidway(reverse, root, cis, limit, most, level, popped, queue, seen, nodes, cycles, truncated, d);
    }
    r := Impact(nodes, cycles, truncated);
    Completed(reverse, root, cis, limit, most, level, popped, d, r);
  }

  /** What holds between two turns of the search. */
  ghost predicate Midway(reverse: Reverse, root: string, cis: map<string, Item>, limit: nat, most: nat,
                         level: map<string, nat>,
                         popped: set<string>, queue: seq<Entry>, seen: set<string>, nodes: seq<Dependent>,
                         cycles: seq<seq<string>>, truncated: bool, d: nat) {
    && Search(reverse, root, cis, limit, level, popped, {}, queue, nodes, d)
    && (queue != [] ==> queue[0].depth == d)
    && seen == level.Keys && |nodes| <= most
    && (truncated <==> CutSeen(reverse, limit, level, popped))
    && AllClose(reverse, root, cycles)
  }

  lemma PopMidway(reverse: Reverse, root: string, cis: map<string, Item>, limit: nat, most: nat,
                  level: map<string, nat>,
                  popped: set<string>, queue: seq<Entry>, seen: set<string>, nodes: seq<Dependent>,
                  cycles: seq<seq<string>>, truncated: bool, d: nat)
    requires Midway(reverse, root, cis, limit, most, level, popped, queue, seen, nodes, cycles, truncated, d)
             && queue != []
    ensures var e := queue[0]; var now := popped + {e.id};
      && Search(reverse, root, cis, limit, level, now, {e.id}, queue[1..], nodes, d)
      && e.id in level && level[e.id] == d == e.depth <= limit && Reached(reverse, root, level, e)
      && (CutSeen(reverse, limit, level, now) <==> truncated || (d == limit && Links(reverse, e.id) != []))
      && |Ball(reverse, root, limit) - now| < |Ball(reverse, root, limit) - popped|
  {
    PopFirst(reverse, root, cis, limit, level, popped, queue, nodes, d);
  }

  lemma AdvanceMidway(reverse: Reverse, root: string, cis: map<string, Item>, limit: nat, most: nat,
                      level: map<string, nat>,
                      popped: set<string>, queue: seq<Entry>, seen: set<string>, nodes: seq<Dependent>,
                      cycles: seq<seq<string>>, truncated: bool, d0: nat) returns (d: nat)
    requires Search(reverse, root, cis, limit, level, popped, {}, queue, nodes, d0)
    requires seen == level.Keys && |nodes| <= most
    requires truncated <==> CutSeen(reverse, limit, level, popped)
    requires AllClose(reverse, root, cycles)
    ensures Midway(reverse, root, cis, limit, most, level, popped, queue, seen, nodes, cycles, truncated, d)
  {
    d := d0;
    if queue != [] && queue[0].depth == d + 1 {
      AdvanceKeeps(reverse, root, cis, limit, level, popped, queue, nodes, d);
      d := d + 1;
    }
  }

  lemma PopFirst(reverse: Reverse, root: string, cis: map<string, Item>, limit: nat, level: map<string, nat>,
                 popped: set<string>, queue: seq<Entry>, nodes: seq<Dependent>, d: nat)
    requires Search(reverse, root, cis, limit, level, popped, {}, queue, nodes, d) && queue != [] && queue[0].depth == d
    ensures var e := queue[0]; var now := popped + {e.id};
      && Search(reverse, root, cis, limit, level, now, {e.id}, queue[1..], nodes, d)
      && e.id in level && level[e.id] == d <= limit && Reached(reverse, root, level, e)
      && (CutSeen(reverse, limit, level, now)
          <==> CutSeen(reverse, limit, level, popped) || (d == limit && Links(reverse, e.id) != []))
      && |Ball(reverse, root, limit) - now| < |Ball(reverse, root, limit) - popped|
  {
    var e := queue[0];
    assert Reached(reverse, root, level, e);
    LevelsInside(reverse, root, limit, level);
    PopKeeps(reverse, root, cis, limit, level, popped, queue, nodes, d);
    NotDeepest(reverse, limit, level, popped, e.id);
    PopShrinks(Ball(reverse, root, limit), popped, e.id);
  }

  lemma Starts(reverse: Reverse, root: string, cis: map<string, Item>, limit: nat)
    ensures Search(reverse, root, cis, limit, map[root := 0], {}, {}, [Entry(root, 0, [root])], [], 0)
  {
    var level, e := map[root := 0], Entry(root, 0, [root]);
    assert Reached(reverse, root, level, e);
    assert [e][0].id == root;
  }
}
