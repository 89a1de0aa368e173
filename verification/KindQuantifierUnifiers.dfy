/** Completeness of unification under quantifiers (crates/psrs-kind/src/solve.rs): whenever an assignment makes both
    sides alike, unification succeeds, and the assignment satisfies what it solves.
 */
module KindQuantifierUnifiers {
  import opened Kinds
  import opened KindSolver
  import opened KindClosed
  import opened KindQuantifiers
  import opened KindQuantifierChecks

  // ----- Assignments of nameless kinds -----

  type Assignment = nat -> Nameless

  /** The nameless form of a kind whose free variables have been assigned. */
  function Assigned(a: Assignment, k: Kind, scope: seq<nat>): Nameless {
    match k
    case Constant(c) => NConstant(c)
    case Variable(x) => if x in scope then NBound(IndexOf(scope, x)) else a(x)
    case ForAll(x, e) => NForAll(Assigned(a, e, [x] + scope))
    case Node(c, l, r) => NNode(c, Assigned(a, l, scope), Assigned(a, r, scope))
  }

  /** No bound variable leads out of the form. */
  predicate LocallyClosed(n: Nameless, depth: nat) {
    match n
    case NBound(i) => i < depth
    case NNode(_, l, r) => LocallyClosed(l, depth) && LocallyClosed(r, depth)
    case NForAll(b) => LocallyClosed(b, depth + 1)
    case _ => true
  }

  function Names(n: Nameless): set<nat> {
    match n
    case NFree(x) => {x}
    case NNode(_, l, r) => Names(l) + Names(r)
    case NForAll(b) => Names(b)
    case _ => {}
  }

  function Weight(n: Nameless): nat {
    match n
    case NNode(_, l, r) => 1 + Weight(l) + Weight(r)
    case NForAll(b) => 1 + Weight(b)
    case _ => 0
  }

  /** Rigid variables stand for themselves, and what the others stand for does not mention any of `binders`. */
  ghost predicate Proper(a: Assignment, binders: set<nat>, rigid: set<nat>) {
    && (forall x <- rigid :: a(x) == NFree(x))
    && forall x: nat :: x !in rigid ==> LocallyClosed(a(x), 0) && Names(a(x)) !! binders
  }

  ghost predicate Satisfies(a: Assignment, s: Subst) {
    forall x <- s :: a(x) == Assigned(a, s[x], [])
  }

  /** All quantifiers in play bind variables of `binders`. */
  ghost predicate BoundIn(binders: set<nat>, s: Subst) {
    forall x <- s :: Binders(s[x]) <= binders
  }

  // ----- Assigning and resolving -----

  lemma {:induction false} NamesAssigned(a: Assignment, k: Kind, scope: seq<nat>, x: nat)
    requires x in FV(k) && x !in scope && a(x) == NFree(x)
    ensures x in Names(Assigned(a, k, scope))
    decreases k
  {
    match k
    case Variable(_) =>
    case Node(_, l, r) => if x in FV(l) { NamesAssigned(a, l, scope, x); } else { NamesAssigned(a, r, scope, x); }
    case ForAll(p, e) => NamesAssigned(a, e, [p] + scope, x);
  }

  /** Outer binders that a kind does not mention make no difference. */
  lemma {:induction false} OuterUnseen(a: Assignment, k: Kind, inner: seq<nat>, outer: seq<nat>)
    requires forall x <- outer :: x in inner || x !in FV(k)
    ensures Assigned(a, k, inner + outer) == Assigned(a, k, inner)
    decreases k
  {
    match k
    case Constant(_) =>
    case Variable(x) => if x in inner { IndexInner(inner, outer, x); }
    case Node(_, l, r) => OuterUnseen(a, l, inner, outer); OuterUnseen(a, r, inner, outer);
    case ForAll(p, e) =>
      OuterUnseen(a, e, [p] + inner, outer);
      assert [p] + inner + outer == [p] + (inner + outer);
  }

  lemma {:induction false} IndexInner(inner: seq<nat>, outer: seq<nat>, x: nat)
    requires x in inner
    ensures IndexOf(inner + outer, x) == IndexOf(inner, x)
  {
    assert (inner + outer)[0] == inner[0];
    if inner[0] != x {
      assert (inner + outer)[1..] == inner[1..] + outer;
      IndexInner(inner[1..], outer, x);
    }
  }

  /** What satisfies the solutions assigns a kind and its resolved form alike. */
  lemma {:induction false} AssignedResolve(a: Assignment, s: Subst, k: Kind, scope: seq<nat>, binders: set<nat>,
                                           rigid: set<nat>)
    requires Final(s, rigid) && Proper(a, binders, rigid) && Satisfies(a, s) && BoundIn(binders, s)
    requires Binders(k) <= binders <= rigid && forall x <- scope :: x in binders
    ensures Assigned(a, Resolve(s, k, {}), scope) == Assigned(a, k, scope)
    decreases Depth(s, k, {}), k
  {
    match k
    case Constant(_) =>
    case Variable(x) =>
      if x in s {
        DepthFollow(s, x, {});
        AssignedResolve(a, s, s[x], scope, binders, rigid);
        forall y | y in scope ensures y !in FV(s[x]) {
          if y in FV(s[x]) { NamesAssigned(a, s[x], [], y); }
        }
        OuterUnseen(a, s[x], [], scope);
        assert [] + scope == scope;
      }
    case Node(_, l, r) =>
      DepthMonotone(s, k, {}, l, {}); DepthMonotone(s, k, {}, r, {});
      AssignedResolve(a, s, l, scope, binders, rigid);
      AssignedResolve(a, s, r, scope, binders, rigid);
    case ForAll(p, e) =>
      DepthMonotone(s, k, {}, e, {});
      ResolveForAll(s, p, e, rigid);
      AssignedResolve(a, s, e, [p] + scope, binders, rigid);
  }

  // ----- Opening both bodies -----

  /** The outermost bound variable becomes the name `x`. */
  function OpenOutermost(n: Nameless, depth: nat, x: nat): Nameless {
    match n
    case NBound(i) => if i == depth then NFree(x) else n
    case NNode(c, l, r) => NNode(c, OpenOutermost(l, depth, x), OpenOutermost(r, depth, x))
    case NForAll(b) => NForAll(OpenOutermost(b, depth + 1, x))
    case _ => n
  }

  lemma {:induction false} OpenClosed(n: Nameless, depth: nat, inner: nat, x: nat)
    requires LocallyClosed(n, inner) && inner <= depth
    ensures OpenOutermost(n, depth, x) == n
  {
    match n
    case NNode(_, l, r) => OpenClosed(l, depth, inner, x); OpenClosed(r, depth, inner, x);
    case NForAll(b) => OpenClosed(b, depth + 1, inner + 1, x);
    case _ =>
  }

  lemma {:induction false} OpenAssigned(a: Assignment, k: Kind, scope: seq<nat>, x: nat, binders: set<nat>,
                                        rigid: set<nat>)
    requires Proper(a, binders, rigid) && x in rigid
    ensures Assigned(a, k, scope) == OpenOutermost(Assigned(a, k, scope + [x]), |scope|, x)
    decreases k
  {
    match k
    case Constant(_) =>
    case Variable(v) =>
      IndexAppend(scope, x, v);
      if v !in scope && v != x { OpenClosed(a(v), |scope|, 0, x); }
    case Node(_, l, r) => OpenAssigned(a, l, scope, x, binders, rigid); OpenAssigned(a, r, scope, x, binders, rigid);
    case ForAll(p, e) =>
      OpenAssigned(a, e, [p] + scope, x, binders, rigid);
      assert [p] + scope + [x] == [p] + (scope + [x]);
  }

  /** The right body may be opened with the left binder: they are the same, or the left one is new to the body and
      replaces the right one without capture. */
  predicate Clean(x: nat, e: Kind, y: nat) {
    x == y || (x !in FV(e) && !Captures(e, y, x))
  }

  lemma {:induction false} AssignedOpened(a: Assignment, k: Kind, scope: seq<nat>, x: nat, y: nat)
    requires x != y && (x in FV(k) ==> x in scope)
    requires y in scope || if x in scope then y !in FV(k) else !Captures(k, y, x)
    ensures Assigned(a, Substitute(k, OpeningMap(x, y, scope)), scope + [x]) == Assigned(a, k, scope + [y])
    decreases k
  {
    match k
    case Constant(_) =>
    case Variable(v) =>
      IndexAppend(scope, x, v);
      IndexAppend(scope, y, v);
      IndexAppend(scope, x, x);
    case Node(_, l, r) => AssignedOpened(a, l, scope, x, y); AssignedOpened(a, r, scope, x, y);
    case ForAll(p, e) =>
      OpeningUnder(p, e, x, y, scope);
      AssignedOpened(a, e, [p] + scope, x, y);
      assert [p] + scope + [x] == [p] + (scope + [x]) && [p] + scope + [y] == [p] + (scope + [y]);
  }

  /** Quantified kinds that are assigned alike have opened bodies that are. */
  lemma {:induction false} BodiesAssigned(a: Assignment, x: nat, e: Kind, y: nat, e': Kind, binders: set<nat>,
                                          rigid: set<nat>)
    requires Proper(a, binders, rigid) && x in rigid && Clean(x, e', y)
    requires Assigned(a, ForAll(x, e), []) == Assigned(a, ForAll(y, e'), [])
    ensures Assigned(a, e, []) == Assigned(a, Substitute(e', map[y := Variable(x)]), [])
  {
    var opened_ := Substitute(e', map[y := Variable(x)]);
    assert [] + [x] == [x] + [] == [x] && [] + [y] == [y] + [] == [y];
    assert OpeningMap(x, y, []) == map[y := Variable(x)];
    if x == y { Renamed(e', x); } else { AssignedOpened(a, e', [], x, y); }
    OpenAssigned(a, e, [], x, binders, rigid);
    OpenAssigned(a, opened_, [], x, binders, rigid);
  }

  // ----- Completeness -----

  lemma {:induction false} WeightGrows(a: Assignment, x: nat, k: Kind, scope: seq<nat>)
    requires x in FV(k) && x !in scope
    ensures Weight(Assigned(a, k, scope)) >= Weight(a(x)) + Size(k)
    decreases k
  {
    match k
    case Variable(_) =>
    case Node(_, l, r) =>
      if x in FV(l) {
        WeightGrows(a, x, l, scope);
        WeightAssigned(a, r, scope);
      } else {
        WeightGrows(a, x, r, scope);
        WeightAssigned(a, l, scope);
      }
    case ForAll(p, e) => WeightGrows(a, x, e, [p] + scope);
  }

  lemma {:induction false} WeightAssigned(a: Assignment, k: Kind, scope: seq<nat>)
    ensures Weight(Assigned(a, k, scope)) >= Size(k)
    decreases k
  {
    match k
    case Node(_, l, r) => WeightAssigned(a, l, scope); WeightAssigned(a, r, scope);
    case ForAll(p, e) => WeightAssigned(a, e, [p] + scope);
    case _ =>
  }

  /** What an assignment keeps along a run: it satisfies the solutions, whose quantifiers bind only `binders`. */
  ghost predicate Fits(a: Assignment, binders: set<nat>, st: State) {
    Proper(a, binders, st.rigid) && binders <= st.rigid && Satisfies(a, st.subst) && BoundIn(binders, st.subst)
  }

  ghost predicate Completes(a: Assignment, binders: set<nat>, o: Outcome) {
    o.Solved? && Fits(a, binders, o.state)
  }

  lemma {:induction false} VariableSolved(a: Assignment, binders: set<nat>, st: State, l: Kind, r: Kind)
    requires WellFormed(st) && (l.Variable? || r.Variable?) && Part(st, l, FV(l)) && Part(st, r, FV(r))
    requires Fits(a, binders, st) && Binders(l) <= binders && Binders(r) <= binders
    requires Assigned(a, l, []) == Assigned(a, r, [])
    ensures Completes(a, binders, UnifyVariable(st, l, r))
  {
    if l != r {
      if l.Variable? && l.id !in st.rigid && l.id in FV(r) {
        WeightGrows(a, l.id, r, []);
      } else if r.Variable? && r.id !in st.rigid && r.id in FV(l) {
        WeightGrows(a, r.id, l, []);
      }
    }
  }

  ghost function CleanCheck(): Check {
    (x: nat, e: Kind, y: nat) => Clean(x, e, y)
  }

  /** `a` makes both sides alike, and quantifiers are opened cleanly along the run. */
  ghost predicate Solvable(a: Assignment, binders: set<nat>, st: State, left: Kind, right: Kind)
    requires WellFormed(st) && BindersRigid(left, st.rigid) && BindersRigid(right, st.rigid)
  {
    && Fits(a, binders, st) && Binders(left) <= binders && Binders(right) <= binders
    && Assigned(a, left, []) == Assigned(a, right, []) && Guarded(CleanCheck(), st, left, right)
  }

  /** Whenever some assignment makes both sides alike, unification succeeds, and that assignment satisfies every
      solution it makes. */
  lemma {:induction false} Complete(a: Assignment, binders: set<nat>, st: State, left: Kind, right: Kind)
    requires WellFormed(st) && BindersRigid(left, st.rigid) && BindersRigid(right, st.rigid)
    requires Solvable(a, binders, st, left, right)
    ensures Completes(a, binders, Unify(st, left, right))
    decreases |Flexible(st, left, right)|, Work(st, left, right), 2
  {
    var l, r := Resolve(st.subst, left, {}), Resolve(st.subst, right, {});
    SidesAssigned(a, binders, st, left, right, l, r);
    if l.Variable? || r.Variable? {
      ResolvedSides(st, left, right);
      VariableSolved(a, binders, st, l, r);
    } else if l.Node? {
      NodesSolved(a, binders, st, left, right, l, r);
    } else if l.ForAll? {
      QuantifiersSolved(a, binders, st, left, right, l, r);
    }
  }

  /** Then the resolved sides have the same shape, and are assigned alike as well. */
  lemma {:induction false} SidesAssigned(a: Assignment, binders: set<nat>, st: State, left: Kind, right: Kind, l: Kind,
                                         r: Kind)
    requires WellFormed(st) && BindersRigid(left, st.rigid) && BindersRigid(right, st.rigid)
    requires Fits(a, binders, st) && Binders(left) <= binders && Binders(right) <= binders
    requires Assigned(a, left, []) == Assigned(a, right, [])
    requires l == Resolve(st.subst, left, {}) && r == Resolve(st.subst, right, {})
    ensures Assigned(a, l, []) == Assigned(a, r, []) && Binders(l) <= binders && Binders(r) <= binders
    ensures !l.Variable? && !r.Variable? ==>
              && (l.Constant? ==> r == l) && (l.Node? ==> r.Node? && l.shape == r.shape) && (l.ForAll? ==> r.ForAll?)
  {
    AssignedResolve(a, st.subst, left, [], binders, st.rigid);
    AssignedResolve(a, st.subst, right, [], binders, st.rigid);
    ResolveBinders(st.subst, left, {}, binders);
    ResolveBinders(st.subst, right, {}, binders);
  }

  lemma {:induction false} NodesSolved(a: Assignment, binders: set<nat>, st: State, left: Kind, right: Kind, l: Kind,
                                       r: Kind)
    requires WellFormed(st) && BindersRigid(left, st.rigid) && BindersRigid(right, st.rigid)
    requires l == Resolve(st.subst, left, {}) && r == Resolve(st.subst, right, {})
    requires l.Node? && r.Node? && l.shape == r.shape && Guarded(CleanCheck(), st, left, right)
    requires Fits(a, binders, st) && Binders(l) <= binders && Binders(r) <= binders
    requires Assigned(a, l, []) == Assigned(a, r, [])
    ensures Completes(a, binders, Unify(st, left, right))
    decreases |Flexible(st, left, right)|, Work(st, left, right), 1
  {
    NodesMeet(st.subst, st, left, right);
    BothSolved(a, binders, st, left, right, l.left, r.left, l.right, r.right);
  }

  lemma {:induction false} BothSolved(a: Assignment, binders: set<nat>, st: State, left: Kind, right: Kind, l1: Kind,
                                      r1: Kind, l2: Kind, r2: Kind)
    requires WellFormed(st) && Components(st, left, right, l1, r1, l2, r2)
    requires GuardedBoth(CleanCheck(), st, left, right, l1, r1, l2, r2) && Fits(a, binders, st)
    requires Binders(l1) <= binders && Binders(r1) <= binders && Binders(l2) <= binders && Binders(r2) <= binders
    requires Assigned(a, l1, []) == Assigned(a, r1, []) && Assigned(a, l2, []) == Assigned(a, r2, [])
    ensures Completes(a, binders, UnifyBoth(st, left, right, l1, r1, l2, r2))
    decreases |Flexible(st, left, right)|, Work(st, left, right), 0
  {
    FirstHalfSmaller(st, left, right, l1, r1, l2, r2);
    var first := Unify(st, l1, r1).state;
    SecondHalfSmaller(st, first, l2, r2, World(st.subst, left, right));
    HalvesMeet(st, left, right, l1, r1, l2, r2);
    Complete(a, binders, st, l1, r1);
    Complete(a, binders, first, l2, r2);
  }

  lemma {:induction false} QuantifiersSolved(a: Assignment, binders: set<nat>, st: State, left: Kind, right: Kind,
                                             l: Kind, r: Kind)
    requires WellFormed(st) && BindersRigid(left, st.rigid) && BindersRigid(right, st.rigid)
    requires l == Resolve(st.subst, left, {}) && r == Resolve(st.subst, right, {})
    requires l.ForAll? && r.ForAll? && Guarded(CleanCheck(), st, left, right)
    requires Fits(a, binders, st) && Binders(l) <= binders && Binders(r) <= binders
    requires Assigned(a, l, []) == Assigned(a, r, [])
    ensures Completes(a, binders, Unify(st, left, right))
    decreases |Flexible(st, left, right)|, Work(st, left, right), 1
  {
    QuantifiersOpen(st.subst, st, left, right, l, r);
    QuantifiersGuarded(CleanCheck(), st, left, right, l, r);
    BodiesAssigned(a, l.binder, l.body, r.binder, r.body, binders, st.rigid);
    BodiesSolved(a, binders, st, left, right, l.binder, l.body, r.binder, r.body);
  }

  lemma {:induction false} BodiesSolved(a: Assignment, binders: set<nat>, st: State, left: Kind, right: Kind, x: nat,
                                        e1: Kind, y: nat, e2: Kind)
    requires WellFormed(st) && Bodies(st, left, right, e1, Substitute(e2, map[y := Variable(x)]))
    requires GuardedBodies(CleanCheck(), st, left, right, x, e1, y, e2) && Fits(a, binders, st)
    requires Binders(e1) <= binders && Binders(e2) <= binders
    requires Assigned(a, e1, []) == Assigned(a, Substitute(e2, map[y := Variable(x)]), [])
    ensures Completes(a, binders, UnifyBodies(st, left, right, e1, Substitute(e2, map[y := Variable(x)])))
    decreases |Flexible(st, left, right)|, Work(st, left, right), 0
  {
    SubstituteBinders(e2, y, x, map[y := Variable(x)]);
    Complete(a, binders, st, e1, Substitute(e2, map[y := Variable(x)]));
  }

  /** So solutions are as general as any assignment that makes the sides alike: it factors through them. */
  lemma {:induction false} FactorsThrough(a: Assignment, binders: set<nat>, st: State, left: Kind, right: Kind, k: Kind)
    requires WellFormed(st) && BindersRigid(left, st.rigid) && BindersRigid(right, st.rigid)
    requires Solvable(a, binders, st, left, right) && Binders(k) <= binders
    ensures Unify(st, left, right).Solved?
    ensures Assigned(a, Resolve(Unify(st, left, right).state.subst, k, {}), []) == Assigned(a, k, [])
  {
    Complete(a, binders, st, left, right);
    AssignedResolve(a, Unify(st, left, right).state.subst, k, [], binders, st.rigid);
  }
}
