/** Depth-first cycle detection over type declarations (crates/psrs-kind/src/kind.rs). */
module CycleDetection {

  type Node = nat
  type Span = nat

  datatype Target = Target(node: Node, span: Span)
  datatype Arrow = Arrow(source: Node, target: Node)
  datatype Report = Report(node: Node, span: Span)

  type Graph = map<Node, seq<Target>>

  // ----- Graphs and paths -----

  ghost predicate Edge(edges: Graph, u: Node, v: Node) {
    u in edges && exists i :: 0 <= i < |edges[u]| && edges[u][i].node == v
  }

  /** A path along edges that are not in `cut`. */
  ghost predicate Path(edges: Graph, cut: set<Arrow>, p: seq<Node>) {
    |p| > 0 && forall i :: 0 <= i < |p| - 1 ==> Edge(edges, p[i], p[i + 1]) && Arrow(p[i], p[i + 1]) !in cut
  }

  ghost predicate Reaches(edges: Graph, cut: set<Arrow>, u: Node, v: Node) {
    exists p :: Path(edges, cut, p) && p[0] == u && p[|p| - 1] == v
  }

  ghost predicate Reachable(edges: Graph, roots: set<Node>, v: Node) {
    exists u <- roots :: Reaches(edges, {}, u, v)
  }

  /** No edge that is reachable and not cut lies on a cycle of such edges. */
  ghost predicate Acyclic(edges: Graph, cut: set<Arrow>, roots: set<Node>) {
    forall u, v :: Reachable(edges, roots, u) && Edge(edges, u, v) && Arrow(u, v) !in cut ==> !Reaches(edges, cut, v, u)
  }

  lemma ReachesSelf(edges: Graph, cut: set<Arrow>, u: Node)
    ensures Reaches(edges, cut, u, u)
  {
    assert Path(edges, cut, [u]) && [u][0] == u && [u][|[u]| - 1] == u;
  }

  lemma ReachesStep(edges: Graph, u: Node, v: Node, w: Node)
    requires Reaches(edges, {}, u, v) && Edge(edges, v, w)
    ensures Reaches(edges, {}, u, w)
  {
    var p :| Path(edges, {}, p) && p[0] == u && p[|p| - 1] == v;
    var q := p + [w];
    assert Path(edges, {}, q) && q[0] == u && q[|q| - 1] == w;
  }

  // ----- The detector -----

  ghost predicate Distinct(s: seq<Node>) {
    forall i: nat :: FirstAt(s, i)
  }

  predicate FirstAt(s: seq<Node>, i: nat) {
    i < |s| ==> s[i] !in s[..i]
  }

  ghost predicate Chained(edges: Graph, s: seq<Node>) {
    forall i: nat :: ChainedAt(edges, s, i)
  }

  ghost predicate ChainedAt(edges: Graph, s: seq<Node>, i: nat) {
    i + 1 < |s| ==> Edge(edges, s[i], s[i + 1])
  }

  lemma DistinctWith(s: seq<Node>, x: Node)
    requires Distinct(s) && x !in s
    ensures Distinct(s + [x])
  {
    forall i: nat ensures FirstAt(s + [x], i) {
      assert FirstAt(s, i);
      if i <= |s| { assert (s + [x])[..i] == s[..i]; }
    }
  }

  lemma ChainedWith(edges: Graph, s: seq<Node>, x: Node)
    requires Chained(edges, s) && (s != [] ==> Edge(edges, s[|s| - 1], x))
    ensures Chained(edges, s + [x])
  {
    forall i: nat ensures ChainedAt(edges, s + [x], i) {
      assert ChainedAt(edges, s, i);
    }
  }

  /** The parts of the search state that only grow, and the nodes not visited yet. */
  datatype Progress = Progress(state: map<Node, int>, finished: seq<Node>, reported: set<Arrow>, unvisited: set<Node>)

  /** Nothing visited is forgotten. */
  ghost predicate Later(before: Progress, after: Progress) {
    && before.state.Keys <= after.state.Keys && (forall u <- before.state.Keys :: after.state[u] == before.state[u])
    && |after.finished| >= |before.finished| && after.finished[..|before.finished|] == before.finished
    && before.reported <= after.reported && after.unvisited <= before.unvisited
  }

  lemma LaterTransitive(a: Progress, b: Progress, c: Progress)
    requires Later(a, b) && Later(b, c)
    ensures Later(a, c)
  {
    assert a.finished == b.finished[..|a.finished|] == c.finished[..|b.finished|][..|a.finished|];
  }

  /** What is left of the search before `node` was entered, once it is left again. */
  lemma LaterKeeps(before: Progress, entered: Progress, left: Progress, node: Node)
    requires node !in before.state && Later(entered, left)
    requires entered == Progress(before.state[node := 1], before.finished, before.reported, before.unvisited - {node})
    ensures Later(before, Progress(left.state[node := 2], left.finished + [node], left.reported, left.unvisited))
    ensures node in left.state && left.state[node] == 1
  {
    forall u | u in before.state.Keys ensures u in left.state && left.state[u] == before.state[u] {
      assert u in entered.state && entered.state[u] == before.state[u];
    }
    assert node in entered.state && entered.state[node] == 1;
    assert (left.finished + [node])[..|before.finished|] == left.finished[..|before.finished|];
  }

  lemma Fewer<T>(a: set<T>, b: set<T>)
    requires a <= b
    ensures |a| <= |b|
  {
    assert b == a + (b - a);
  }

  lemma Kept(order: seq<Node>, longer: seq<Node>)
    requires |longer| >= |order| && longer[..|order|] == order
    ensures forall u :: u in order ==> u in longer
  {
    assert forall i :: 0 <= i < |order| ==> longer[i] == order[i];
  }

  /** `reach` is what can be visited: the roots and everything their edges lead to. */
  ghost predicate Covers(edges: Graph, reach: set<Node>) {
    forall u, v :: u in reach && Edge(edges, u, v) ==> v in reach
  }

  ghost predicate InOrder(edges: Graph, order: seq<Node>, reported: set<Arrow>) {
    forall i, v :: 0 <= i < |order| && Edge(edges, order[i], v) ==> v in order[..i] || Arrow(order[i], v) in reported
  }

  lemma InOrderAfter(edges: Graph, order: seq<Node>, reported: set<Arrow>, node: Node)
    requires InOrder(edges, order, reported)
    requires forall v :: Edge(edges, node, v) ==> v in order || Arrow(node, v) in reported
    ensures InOrder(edges, order + [node], reported)
  {
    var longer := order + [node];
    assert longer[..|order|] == order;
    forall i, v | 0 <= i < |longer| && Edge(edges, longer[i], v) ensures v in longer[..i]
        || Arrow(longer[i], v) in reported {
      if i < |order| { assert longer[..i] == order[..i] && longer[i] == order[i]; }
    }
  }

  lemma MoreInOrder(edges: Graph, order: seq<Node>, reported: set<Arrow>, arrow: Arrow)
    requires InOrder(edges, order, reported)
    ensures InOrder(edges, order, reported + {arrow})
  {
  }

  lemma AllTargets(edges: Graph, node: Node, order: seq<Node>, reported: set<Arrow>)
    requires node in edges && forall j :: 0 <= j < |edges[node]| ==>
               edges[node][j].node in order || Arrow(node, edges[node][j].node) in reported
    ensures forall v :: Edge(edges, node, v) ==> v in order || Arrow(node, v) in reported
  {
  }

  lemma WithoutLast(edges: Graph, was: seq<Node>, path: seq<Node>, node: Node)
    requires was == path + [node] && Distinct(was) && Chained(edges, was)
    ensures Distinct(path) && Chained(edges, path) && node !in path && forall u :: u in was <==> u in path || u == node
  {
    assert FirstAt(was, |path|) && was[..|path|] == path;
    forall i: nat ensures FirstAt(path, i) && ChainedAt(edges, path, i) {
      assert FirstAt(was, i) && ChainedAt(edges, was, i);
      if i <= |path| { assert was[..i] == path[..i]; }
    }
  }

  class CycleDetector {
    const edges: Graph
    ghost const reach: set<Node>
    var state: map<Node, int>
    var reported: set<Arrow>
    var cycles: seq<Report>
    ghost var active: seq<Node>
    ghost var finished: seq<Node>
    ghost var arrows: seq<Arrow>
    ghost var unvisited: set<Node>

    constructor (edges: Graph, ghost reach: set<Node>)
      requires Covers(edges, reach)
      ensures Valid() && active == [] && state == map[] && this.edges == edges && this.reach == reach
    {
      this.edges, this.reach := edges, reach;
      state, reported, cycles, arrows, active, finished, unvisited := map[], {}, [], [], [], [], reach;
    }

    /** State 1 marks the current path, state 2 the finished nodes, in order. */
    ghost predicate Marks()
      reads this
    {
      && Distinct(active) && Distinct(finished) && state.Keys <= reach
      && (forall u :: u in state && state[u] == 1 <==> u in active)
      && (forall u :: u in state && state[u] == 2 <==> u in finished)
      && (forall u <- state.Keys :: state[u] == 1 || state[u] == 2)
      && (forall u <- reach :: u in state || u in unvisited)
    }

    ghost predicate OnPath()
      reads this
    {
      Chained(edges, active)
    }

    /** Edges out of finished nodes lead to nodes that finished earlier, unless reported. */
    ghost predicate Ordered()
      reads this
    {
      InOrder(edges, finished, reported)
    }

    /** Every reported edge is a visited edge that closes a cycle, and is reported once. */
    ghost predicate Reports()
      reads this
    {
      && Matched(edges, reported, arrows, cycles)
      && (forall a <- reported :: a.source in state && a.target in state && ClosesCycle(edges, a))
    }

    ghost predicate Valid()
      reads this
    {
      Covers(edges, reach) && Marks() && OnPath() && Ordered() && Reports()
    }

    ghost function Now(): (p: Progress)
      reads this
    {
      Progress(state, finished, reported, unvisited)
    }

    /** An active node reaches the end of the path. */
    lemma ActiveReaches(i: nat)
      requires OnPath() && i < |active|
      ensures Reaches(edges, {}, active[i], active[|active| - 1])
    {
      var p := active[i..];
      forall j | 0 <= j < |p| - 1 ensures Edge(edges, p[j], p[j + 1]) {
        assert ChainedAt(edges, active, i + j);
      }
      assert Path(edges, {}, p);
      assert p[0] == active[i] && p[|p| - 1] == active[|active| - 1];
    }

    method VisitAll(nodes: seq<Node>)
      requires Valid() && active == [] && forall n <- nodes :: n in reach
      modifies this
      ensures Valid() && active == [] && forall n <- nodes :: n in state
    {
      for i := 0 to |nodes|
        invariant Valid() && active == []
        invariant forall j :: 0 <= j < i ==> nodes[j] in state
      {
        Visit(nodes[i]);
      }
    }

    /** `visit_cycle` */
    method Visit(node: Node)
      requires Valid() && node in reach && (active != [] ==> Edge(edges, active[|active| - 1], node))
      modifies this
      ensures Valid() && active == old(active) && Later(old(Now()), Now())
      ensures node in state && (node !in old(state) ==> state[node] == 2)
      decreases |unvisited|, 1
    {
      if node !in state { VisitNew(node); }
    }

    method VisitNew(node: Node)
      requires Valid() && node in reach && node !in state && (active != [] ==> Edge(edges, active[|active| - 1], node))
      modifies this
      ensures Valid() && active == old(active) && Later(old(Now()), Now())
      ensures node in state && state[node] == 2
      decreases |unvisited|, 0
    {
      ghost var path, before := active, Now();
      Enter(node);
      ghost var entered := Now();
      if node in edges { VisitTargets(node); }
      LaterKeeps(before, entered, Now(), node);
      Leave(node, path);
    }

    method VisitTargets(node: Node)
      requires Valid() && active != [] && active[|active| - 1] == node && node in edges
      modifies this
      ensures Valid() && active == old(active) && Later(old(Now()), Now())
      ensures forall v :: Edge(edges, node, v) ==> v in finished || Arrow(node, v) in reported
      decreases |unvisited|, 3
    {
      var targets := edges[node];
      ghost var first := Now();
      for i := 0 to |targets|
        invariant Valid() && active == old(active) && Later(first, Now())
        invariant forall j :: 0 <= j < i ==> targets[j].node in finished || Arrow(node, targets[j].node) in reported
      {
        ghost var before := Now();
        Fewer(unvisited, first.unvisited);
        VisitTarget(node, i);
        LaterTransitive(first, before, Now());
      }
      AllTargets(edges, node, finished, reported);
    }

    method VisitTarget(node: Node, index: nat)
      requires Valid() && active != [] && active[|active| - 1] == node && node in edges && index < |edges[node]|
      modifies this
      ensures Valid() && active == old(active) && Later(old(Now()), Now())
      ensures edges[node][index].node in finished || Arrow(node, edges[node][index].node) in reported
      ensures forall u <- old(finished) :: u in finished
      decreases |unvisited|, 2
    {
      var target := edges[node][index].node;
      assert Edge(edges, node, target) && node in active;
      ghost var before := Now();
      if target in state && state[target] == 1 {
        ReportEdge(node, edges[node][index]);
      } else {
        Visit(target);
      }
      Kept(before.finished, finished);
    }

    method Enter(node: Node)
      requires Valid() && node in reach && node !in state && (active != [] ==> Edge(edges, active[|active| - 1], node))
      modifies this
      ensures Valid() && active == old(active) + [node]
      ensures Now() == old(Progress(state[node := 1], finished, reported, unvisited - {node}))
              && |unvisited| < |old(unvisited)|
    {
      DistinctWith(active, node);
      ChainedWith(edges, active, node);
      state := state[node := 1];
      active := active + [node];
      unvisited := unvisited - {node};
    }

    method Leave(node: Node, ghost path: seq<Node>)
      requires Valid() && active == path + [node] && node in state && state[node] == 1
      requires forall v :: Edge(edges, node, v) ==> v in finished || Arrow(node, v) in reported
      modifies this
      ensures Valid() && active == path
      ensures Now() == old(Progress(state[node := 2], finished + [node], reported, unvisited))
    {
      WithoutLast(edges, active, path, node);
      InOrderAfter(edges, finished, reported, node);
      DistinctWith(finished, node);
      state := state[node := 2];
      active := path;
      finished := finished + [node];
    }

    lemma BackEdge(node: Node, target: Target)
      requires Marks() && OnPath() && active != [] && active[|active| - 1] == node && node in edges
               && target in edges[node]
      requires target.node in state && state[target.node] == 1
      ensures ClosesCycle(edges, Arrow(node, target.node)) && node in state
    {
      assert node in active;
      var at :| 0 <= at < |active| && active[at] == target.node;
      ActiveReaches(at);
      ArrowCloses(edges, node, target);
    }

    /** The edge back to a node of the current path. */
    method ReportEdge(node: Node, target: Target)
      requires Valid() && active != [] && active[|active| - 1] == node && node in edges && target in edges[node]
      requires target.node in state && state[target.node] == 1
      modifies this`reported, this`cycles, this`arrows
      ensures Valid() && reported == old(reported) + {Arrow(node, target.node)} && Later(old(Now()), Now())
    {
      MoreInOrder(edges, finished, reported, Arrow(node, target.node));
      var arrow := Arrow(node, target.node);
      if arrow !in reported {
        BackEdge(node, target);
        MoreReports(edges, reported, arrows, cycles, node, target);
        reported := reported + {arrow};
        arrows := arrows + [arrow];
        cycles := cycles + [Report(node, target.span)];
      }
    }
  }

  ghost predicate ClosesCycle(edges: Graph, a: Arrow) {
    Edge(edges, a.source, a.target) && Reaches(edges, {}, a.target, a.source)
  }

  /** Report `i` has the source and the span of arrow `i`, which is not among the earlier ones. */
  ghost predicate Describes(edges: Graph, arrows: seq<Arrow>, cycles: seq<Report>, i: nat) {
    i < |arrows| && i < |cycles| ==>
      && arrows[i].source == cycles[i].node && cycles[i].node in edges
      && Target(arrows[i].target, cycles[i].span) in edges[cycles[i].node]
      && arrows[i] !in arrows[..i]
  }

  predicate Lists(reported: set<Arrow>, arrows: seq<Arrow>, a: Arrow) {
    a in reported <==> a in arrows
  }

  /** The reports describe the reported edges one by one, without repetition. */
  ghost predicate Matched(edges: Graph, reported: set<Arrow>, arrows: seq<Arrow>, cycles: seq<Report>) {
    && |cycles| == |arrows|
    && (forall i: nat :: Describes(edges, arrows, cycles, i))
    && (forall a: Arrow :: Lists(reported, arrows, a))
  }

  lemma ArrowCloses(edges: Graph, node: Node, target: Target)
    requires node in edges && target in edges[node] && Reaches(edges, {}, target.node, node)
    ensures ClosesCycle(edges, Arrow(node, target.node))
  {
    var i :| 0 <= i < |edges[node]| && edges[node][i] == target;
    assert edges[node][i].node == target.node;
  }

  lemma MoreReports(edges: Graph, reported: set<Arrow>, arrows: seq<Arrow>, cycles: seq<Report>, node: Node,
                    target: Target)
    requires Matched(edges, reported, arrows, cycles) && Arrow(node, target.node) !in reported
    requires node in edges && target in edges[node]
    ensures Matched(edges, reported + {Arrow(node, target.node)}, arrows + [Arrow(node, target.node)],
                    cycles + [Report(node, target.span)])
  {
    var arrow := Arrow(node, target.node);
    var more, longer := arrows + [arrow], cycles + [Report(node, target.span)];
    forall i: nat ensures Describes(edges, more, longer, i) {
      assert Describes(edges, arrows, cycles, i);
      if i <= |arrows| { assert more[..i] == arrows[..i]; }
      assert Lists(reported, arrows, arrow);
      assert target == Target(target.node, target.span);
    }
    forall a: Arrow ensures Lists(reported + {arrow}, more, a) {
      assert Lists(reported, arrows, a);
    }
  }

  // ----- What an exhaustive search shows -----

  lemma PathTail(edges: Graph, cut: set<Arrow>, p: seq<Node>)
    requires Path(edges, cut, p) && |p| > 1
    ensures Path(edges, cut, p[1..])
  {
    var q := p[1..];
    forall k | 0 <= k < |q| - 1 ensures Edge(edges, q[k], q[k + 1]) && Arrow(q[k], q[k + 1]) !in cut {
      assert q[k] == p[k + 1] && q[k + 1] == p[k + 1 + 1];
    }
  }

  /** Unreported edges from finished nodes go to earlier finished nodes, so they close no cycle. */
  lemma {:induction false} PathGoesBack(edges: Graph, cut: set<Arrow>, order: seq<Node>, p: seq<Node>, i: nat)
    requires Path(edges, cut, p) && i < |order| && p[0] == order[i]
    requires InOrder(edges, order, cut)
    ensures p[|p| - 1] in order[..i + 1]
    decreases |p|
  {
    if |p| == 1 {
      assert order[i] in order[..i + 1];
    } else {
      assert Edge(edges, p[0], p[1]);
      var j :| 0 <= j < i && order[j] == p[1];
      PathTail(edges, cut, p);
      PathGoesBack(edges, cut, order, p[1..], j);
      assert order[..j + 1] <= order[..i + 1];
    }
  }

  lemma {:induction false} OrderedAcyclic(edges: Graph, cut: set<Arrow>, roots: set<Node>, order: seq<Node>)
    requires Distinct(order) && forall u :: Reachable(edges, roots, u) ==> u in order
    requires InOrder(edges, order, cut)
    ensures Acyclic(edges, cut, roots)
  {
    forall u, v | Reachable(edges, roots, u) && Edge(edges, u, v)
        && Arrow(u, v) !in cut ensures !Reaches(edges, cut, v, u) {
      var i :| 0 <= i < |order| && order[i] == u;
      var j :| 0 <= j < i && order[j] == v;
      assert FirstAt(order, i) && order[..j + 1] <= order[..i];
      if Reaches(edges, cut, v, u) {
        var p :| Path(edges, cut, p) && p[0] == v && p[|p| - 1] == u;
        PathGoesBack(edges, cut, order, p, j);
      }
    }
  }

  lemma {:induction false} ReachableVisited(edges: Graph, visited: set<Node>, p: seq<Node>)
    requires Path(edges, {}, p) && p[0] in visited && Covers(edges, visited)
    ensures p[|p| - 1] in visited
    decreases |p|
  {
    if |p| > 1 {
      assert Edge(edges, p[0], p[1]);
      PathTail(edges, {}, p);
      ReachableVisited(edges, visited, p[1..]);
    }
  }

  lemma {:induction false} VisitedFinished(edges: Graph, roots: set<Node>, order: seq<Node>, reported: set<Arrow>,
                                           visited: set<Node>)
    requires roots <= visited && forall u :: u in visited <==> u in order
    requires InOrder(edges, order, reported)
    requires forall a <- reported :: a.target in visited
    ensures forall u :: Reachable(edges, roots, u) ==> u in order
  {
    forall x, y | x in visited && Edge(edges, x, y) ensures y in visited {
      var j :| 0 <= j < |order| && order[j] == x;
      assert y in order[..j] || Arrow(x, y) in reported;
    }
    forall u | Reachable(edges, roots, u) ensures u in order {
      var root :| root in roots && Reaches(edges, {}, root, u);
      var p :| Path(edges, {}, p) && p[0] == root && p[|p| - 1] == u;
      ReachableVisited(edges, visited, p);
    }
  }

  /** Once every root has been visited and the path is empty, the reports are exact. */
  lemma {:induction false} Exhausted(edges: Graph, roots: set<Node>, order: seq<Node>, reported: set<Arrow>,
                                     visited: set<Node>)
    requires roots <= visited && (forall u :: u in visited <==> u in order) && Distinct(order)
    requires forall u <- visited :: Reachable(edges, roots, u)
    requires InOrder(edges, order, reported)
    requires forall a <- reported :: a.source in visited && a.target in visited && ClosesCycle(edges, a)
    ensures Acyclic(edges, reported, roots) && (reported == {} <==> Acyclic(edges, {}, roots))
  {
    VisitedFinished(edges, roots, order, reported, visited);
    OrderedAcyclic(edges, reported, roots, order);
    if reported != {} {
      var a :| a in reported;
      assert ClosesCycle(edges, a) && Reachable(edges, roots, a.source);
    }
  }

  ghost function AllNodes(roots: set<Node>, edges: Graph): set<Node> {
    roots + edges.Keys + (set u <- edges.Keys, i | 0 <= i < |edges[u]| :: edges[u][i].node)
  }

  lemma ReachCovers(edges: Graph, roots: set<Node>) returns (reach: set<Node>)
    ensures roots <= reach && Covers(edges, reach) && forall u :: u in reach ==> Reachable(edges, roots, u)
  {
    reach := set u <- AllNodes(roots, edges) | Reachable(edges, roots, u);
    forall u | u in roots ensures u in reach {
      ReachesSelf(edges, {}, u);
      assert Reachable(edges, roots, u);
    }
    forall u, v | u in reach && Edge(edges, u, v) ensures v in reach {
      var root :| root in roots && Reaches(edges, {}, root, u);
      ReachesStep(edges, root, u, v);
      assert Reachable(edges, roots, v);
    }
  }

  /** Report by report, the output names distinct edges that lie on cycles. Without these edges the
      reachable graph is acyclic, and nothing is reported exactly when it was acyclic before. */
  ghost predicate ExactReport(edges: Graph, nodes: seq<Node>, arrows: seq<Arrow>, cycles: seq<Report>) {
    var roots := set n <- nodes :: n;
    && |cycles| == |arrows| && (forall i: nat :: Describes(edges, arrows, cycles, i))
    && (forall a <- arrows :: ClosesCycle(edges, a))
    && Acyclic(edges, set a <- arrows :: a, roots)
    && (cycles == [] <==> Acyclic(edges, {}, roots))
  }

  /** `detect_cycle` */
  method DetectCycle(nodes: seq<Node>, edges: Graph) returns (cycles: seq<Report>)
    ensures exists arrows: seq<Arrow> :: ExactReport(edges, nodes, arrows, cycles)
  {
    ghost var roots := set n <- nodes :: n;
    ghost var reach := ReachCovers(edges, roots);
    var detector := new CycleDetector(edges, reach);
    detector.VisitAll(nodes);
    cycles := detector.cycles;
    Exhausted(edges, roots, detector.finished, detector.reported, detector.state.Keys);
    Summary(edges, nodes, detector.reported, detector.arrows, cycles);
  }

  lemma {:induction false} Summary(edges: Graph, nodes: seq<Node>, reported: set<Arrow>, arrows: seq<Arrow>,
                                   cycles: seq<Report>)
    requires Matched(edges, reported, arrows, cycles) && forall a <- reported :: ClosesCycle(edges, a)
    requires var roots := set n <- nodes :: n;
             Acyclic(edges, reported, roots) && (reported == {} <==> Acyclic(edges, {}, roots))
    ensures ExactReport(edges, nodes, arrows, cycles)
  {
    forall a: Arrow ensures a in reported <==> a in arrows {
      assert Lists(reported, arrows, a);
    }
    assert reported == set a <- arrows :: a;
    if arrows != [] { assert arrows[0] in reported; }
  }
}
