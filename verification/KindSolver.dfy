/** The kind solver: one triangular substitution, rigid variables, resolution and unification
    (crates/psrs-kind/src/solve.rs).
 */
module KindSolver {
  import opened Kinds

  type Subst = map<nat, Kind>

  // ----- Acyclic substitutions -----

  ghost predicate RankedBy(s: Subst, rank: nat -> nat) {
    forall v, x :: v in s && x in FV(s[v]) && x in s ==> rank(x) < rank(v)
  }

  ghost predicate Acyclic(s: Subst) {
    exists rank: nat -> nat :: RankedBy(s, rank)
  }

  ghost function Rank(s: Subst): (rank: nat -> nat)
    requires Acyclic(s)
    ensures RankedBy(s, rank)
  {
    var rank: nat -> nat :| RankedBy(s, rank); rank
  }

  ghost function Height(xs: set<nat>, rank: nat -> nat): (h: nat)
    ensures forall x <- xs :: rank(x) < h
    ensures h == 0 || exists x <- xs :: h == rank(x) + 1
  {
    if xs == {} then 0
    else
      var x :| x in xs;
      var rest := Height(xs - {x}, rank);
      if rank(x) < rest then rest else rank(x) + 1
  }

  /** The solved variables that resolving `k` will follow. */
  ghost function Pending(s: Subst, k: Kind, bound: set<nat>): set<nat> {
    FV(k) * s.Keys - bound
  }

  ghost function Depth(s: Subst, k: Kind, bound: set<nat>): nat
    requires Acyclic(s)
  {
    Height(Pending(s, k, bound), Rank(s))
  }

  lemma {:induction false} DepthMonotone(s: Subst, k: Kind, bound: set<nat>, k': Kind, bound': set<nat>)
    requires Acyclic(s) && Pending(s, k', bound') <= Pending(s, k, bound)
    ensures Depth(s, k', bound') <= Depth(s, k, bound)
  {
  }

  lemma {:induction false} DepthFollow(s: Subst, x: nat, bound: set<nat>)
    requires Acyclic(s) && x in s && x !in bound
    ensures Depth(s, s[x], bound) < Depth(s, Variable(x), bound)
  {
    assert x in Pending(s, Variable(x), bound);
  }

  // ----- Resolution -----

  /** Follows a variable chain; lexically bound variables stay untouched. */
  function ResolveHead(s: Subst, k: Kind, bound: set<nat>): Kind
    requires Acyclic(s)
    decreases Depth(s, k, bound)
  {
    if k.Variable? && k.id !in bound && k.id in s then
      DepthFollow(s, k.id, bound);
      ResolveHead(s, s[k.id], bound)
    else k
  }

  /** The meaning of a kind under the current solutions, respecting quantifier scopes. */
  function Resolve(s: Subst, k: Kind, bound: set<nat>): Kind
    requires Acyclic(s)
    decreases Depth(s, k, bound), k
  {
    match k
    case Variable(x) =>
      if x !in bound && x in s then
        DepthFollow(s, x, bound);
        Resolve(s, s[x], bound)
      else k
    case Node(c, a, b) =>
      DepthMonotone(s, k, bound, a, bound); DepthMonotone(s, k, bound, b, bound);
      Node(c, Resolve(s, a, bound), Resolve(s, b, bound))
    case ForAll(x, e) =>
      DepthMonotone(s, k, bound, e, bound + {x});
      ForAll(x, Resolve(s, e, bound + {x}))
    case Constant(_) => k
  }

  lemma {:induction false} ResolveViaHead(s: Subst, k: Kind, bound: set<nat>)
    requires Acyclic(s)
    ensures Resolve(s, ResolveHead(s, k, bound), bound) == Resolve(s, k, bound)
    ensures var h := ResolveHead(s, k, bound); h.Variable? ==> h.id in bound || h.id !in s
    ensures Depth(s, ResolveHead(s, k, bound), bound) <= Depth(s, k, bound)
    decreases Depth(s, k, bound)
  {
    if k.Variable? && k.id !in bound && k.id in s {
      DepthFollow(s, k.id, bound);
      ResolveViaHead(s, s[k.id], bound);
    }
  }

  /** Following a chain either stays put or leaves a variable for something less deep. */
  lemma {:induction false} HeadSmaller(s: Subst, k: Kind, bound: set<nat>)
    requires Acyclic(s)
    ensures ResolveHead(s, k, bound) == k
            || (k.Variable? && Depth(s, ResolveHead(s, k, bound), bound) < Depth(s, k, bound))
    decreases Depth(s, k, bound)
  {
    if k.Variable? && k.id !in bound && k.id in s {
      DepthFollow(s, k.id, bound);
      HeadSmaller(s, s[k.id], bound);
    }
  }

  /** No free variable of `k` is both solved and outside `bound`. */
  ghost predicate Settled(s: Subst, k: Kind, bound: set<nat>) {
    forall x <- FV(k) :: x in bound || x !in s
  }

  /** Resolution leaves no solved variable behind. */
  lemma {:induction false} ResolveSettles(s: Subst, k: Kind, bound: set<nat>)
    requires Acyclic(s)
    ensures Settled(s, Resolve(s, k, bound), bound)
    decreases Depth(s, k, bound), k
  {
    match k
    case Variable(x) =>
      if x !in bound && x in s {
        DepthFollow(s, x, bound);
        ResolveSettles(s, s[x], bound);
      }
    case Node(_, a, b) =>
      DepthMonotone(s, k, bound, a, bound); DepthMonotone(s, k, bound, b, bound);
      ResolveSettles(s, a, bound); ResolveSettles(s, b, bound);
    case ForAll(x, e) =>
      DepthMonotone(s, k, bound, e, bound + {x});
      ResolveSettles(s, e, bound + {x});
    case _ =>
  }

  lemma {:induction false} SettledFixed(s: Subst, k: Kind, bound: set<nat>)
    requires Acyclic(s) && Settled(s, k, bound)
    ensures Resolve(s, k, bound) == k
    decreases k
  {
    match k
    case Node(_, a, b) =>
      SettledFixed(s, a, bound); SettledFixed(s, b, bound);
    case ForAll(x, e) =>
      SettledFixed(s, e, bound + {x});
    case _ =>
  }

  lemma {:induction false} ResolveIdempotent(s: Subst, k: Kind, bound: set<nat>)
    requires Acyclic(s)
    ensures Resolve(s, Resolve(s, k, bound), bound) == Resolve(s, k, bound)
  {
    ResolveSettles(s, k, bound);
    SettledFixed(s, Resolve(s, k, bound), bound);
  }

  /** Free variables of a resolved kind stay inside any set closed under the solutions. */
  lemma {:induction false} ResolveWithin(s: Subst, k: Kind, bound: set<nat>, world: set<nat>)
    requires Acyclic(s)
    requires FV(k) <= world + bound
    requires forall x :: x in s && x in world ==> FV(s[x]) <= world
    ensures FV(Resolve(s, k, bound)) <= world + bound
    decreases Depth(s, k, bound), k
  {
    match k
    case Variable(x) =>
      if x !in bound && x in s {
        DepthFollow(s, x, bound);
        ResolveWithin(s, s[x], bound, world);
      }
    case Node(_, a, b) =>
      DepthMonotone(s, k, bound, a, bound); DepthMonotone(s, k, bound, b, bound);
      ResolveWithin(s, a, bound, world); ResolveWithin(s, b, bound, world);
    case ForAll(x, e) =>
      DepthMonotone(s, k, bound, e, bound + {x});
      assert FV(e) <= FV(k) + {x};
      ResolveWithin(s, e, bound + {x}, world);
    case _ =>
  }

  /** Every quantifier inside binds a rigid variable. */
  ghost predicate BindersRigid(k: Kind, rigid: set<nat>) {
    Binders(k) <= rigid
  }

  lemma {:induction false} ResolveBinders(s: Subst, k: Kind, bound: set<nat>, rigid: set<nat>)
    requires Acyclic(s) && BindersRigid(k, rigid)
    requires forall x <- s :: BindersRigid(s[x], rigid)
    ensures BindersRigid(Resolve(s, k, bound), rigid)
    decreases Depth(s, k, bound), k
  {
    match k
    case Variable(x) =>
      if x !in bound && x in s {
        DepthFollow(s, x, bound);
        ResolveBinders(s, s[x], bound, rigid);
      }
    case Node(_, a, b) =>
      DepthMonotone(s, k, bound, a, bound); DepthMonotone(s, k, bound, b, bound);
      ResolveBinders(s, a, bound, rigid); ResolveBinders(s, b, bound, rigid);
    case ForAll(x, e) =>
      DepthMonotone(s, k, bound, e, bound + {x});
      ResolveBinders(s, e, bound + {x}, rigid);
    case _ =>
  }

  // ----- Solver states -----

  datatype State = State(subst: Subst, next: nat, rigid: set<nat>)

  /** The invariant of every run: solutions are acyclic, rigid variables are never solved, and
      every quantifier inside a solution binds a rigid variable. */
  ghost predicate WellFormed(st: State) {
    && Acyclic(st.subst)
    && st.subst.Keys !! st.rigid
    && forall x <- st.subst :: BindersRigid(st.subst[x], st.rigid)
  }

  /** Earlier solutions stay; new ones solve flexible variables of `world`, and mention only
      those and rigid variables. */
  ghost predicate Extends(s: Subst, s': Subst, world: set<nat>, rigid: set<nat>) {
    && s.Keys <= s'.Keys
    && (forall x <- s :: s'[x] == s[x])
    && (forall x <- s' :: x !in s ==> x in world - rigid && FV(s'[x]) <= world + rigid)
  }

  datatype KindError = KindsDoNotUnify | InfiniteKind

  /** The state after an equation; on an error, bindings made before the error stay. */
  datatype Outcome = Solved(state: State) | Failed(state: State, error: KindError)

  /** What a caller of the mutable solver sees of an outcome. */
  datatype Verdict = Accepted | Rejected(error: KindError)

  function VerdictOf(o: Outcome): Verdict {
    match o
    case Solved(_) => Accepted
    case Failed(_, error) => Rejected(error)
  }

  function Bind(st: State, x: nat, k: Kind): Outcome {
    if Occurs(x, k) then Failed(st, InfiniteKind)
    else Solved(st.(subst := st.subst[x := k]))
  }

  lemma {:induction false} BindKeeps(st: State, x: nat, k: Kind)
    requires WellFormed(st) && x !in st.subst && x !in st.rigid && x !in FV(k)
    requires Settled(st.subst, k, {}) && BindersRigid(k, st.rigid)
    ensures WellFormed(Bind(st, x, k).state)
    ensures Extends(st.subst, st.subst[x := k], FV(k) + {x}, st.rigid)
  {
    var rank := Rank(st.subst);
    var rank' := (y: nat) => if y == x then 0 else rank(y) + 1;
    var s' := st.subst[x := k];
    forall v, y | v in s' && y in FV(s'[v]) && y in s'
      ensures rank'(y) < rank'(v)
    {
      if v != x && y != x {
        assert rank(y) < rank(v);
      }
    }
    assert RankedBy(s', rank');
  }

  ghost function World(s: Subst, left: Kind, right: Kind): set<nat>
    requires Acyclic(s)
  {
    FV(Resolve(s, left, {})) + FV(Resolve(s, right, {}))
  }

  ghost function Flexible(st: State, left: Kind, right: Kind): set<nat>
    requires Acyclic(st.subst)
  {
    World(st.subst, left, right) - st.rigid
  }

  ghost function Work(st: State, left: Kind, right: Kind): nat
    requires Acyclic(st.subst)
  {
    Size(Resolve(st.subst, left, {})) + Size(Resolve(st.subst, right, {}))
  }

  /** Both sides are already resolved parts of the equation `world` belongs to. */
  ghost predicate Part(st: State, k: Kind, world: set<nat>) {
    Settled(st.subst, k, {}) && BindersRigid(k, st.rigid) && FV(k) <= world
  }

  /** The second half of an equation is smaller, whatever the first half solved. */
  lemma {:induction false} SecondHalfSmaller(st: State, st': State, left: Kind, right: Kind, world: set<nat>)
    requires WellFormed(st) && WellFormed(st') && st'.rigid == st.rigid
    requires Extends(st.subst, st'.subst, world, st.rigid)
    requires Part(st, left, world) && Part(st, right, world)
    requires forall x <- world :: x !in st.subst
    ensures World(st'.subst, left, right) <= world + st.rigid
    ensures st' == st.(subst := st'.subst, next := st'.next) && st'.subst == st.subst ==>
              Work(st', left, right) == Size(left) + Size(right)
    ensures st'.subst != st.subst ==> |Flexible(st', left, right)| < |world - st.rigid|
    ensures |Flexible(st', left, right)| <= |world - st.rigid|
  {
    var s' := st'.subst;
    ResolveWithin(s', left, {}, world + st.rigid);
    ResolveWithin(s', right, {}, world + st.rigid);
    SubsetSize(Flexible(st', left, right), world - st.rigid);
    if s' == st.subst {
      SettledFixed(s', left, {});
      SettledFixed(s', right, {});
    } else {
      var x := Grown(st.subst, s');
      ResolveSettles(s', left, {});
      ResolveSettles(s', right, {});
      StrictSubsetSize(Flexible(st', left, right), world - st.rigid, x);
    }
  }

  lemma {:induction false} StrictSubsetSize(a: set<nat>, b: set<nat>, x: nat)
    requires a <= b && x in b && x !in a
    ensures |a| < |b|
  {
    SubsetSize(a, b - {x});
  }

  lemma {:induction false} Grown(s: Subst, s': Subst) returns (x: nat)
    requires s.Keys <= s'.Keys && (forall x <- s :: s'[x] == s[x]) && s' != s
    ensures x in s' && x !in s
  {
    assert s'.Keys != s.Keys;
    x :| x in s' && x !in s;
  }

  lemma {:induction false} SubsetSize(a: set<nat>, b: set<nat>)
    requires a <= b
    ensures |a| <= |b|
  {
    assert b == a + (b - a);
  }

  // ----- Unification -----

  /** Solves `left = right`; the match follows the order of the equation rules. */
  function Unify(st: State, left: Kind, right: Kind): (o: Outcome)
    requires WellFormed(st) && BindersRigid(left, st.rigid) && BindersRigid(right, st.rigid)
    ensures WellFormed(o.state) && o.state.rigid == st.rigid && o.state.next == st.next
    ensures Extends(st.subst, o.state.subst, World(st.subst, left, right), st.rigid)
    decreases |Flexible(st, left, right)|, Work(st, left, right), 1
  {
    var s := st.subst;
    var l := Resolve(s, left, {});
    var r := Resolve(s, right, {});
    ResolvedSides(st, left, right);
    if l.Variable? || r.Variable? then UnifyVariable(st, l, r)
    else
      match (l, r)
      case (Constant(a), Constant(b)) => if a == b then Solved(st) else Failed(st, KindsDoNotUnify)
      case (Node(c, a1, b1), Node(d, a2, b2)) =>
        if c == d then UnifyBoth(st, left, right, a1, a2, b1, b2) else Failed(st, KindsDoNotUnify)
      case (ForAll(x, e1), ForAll(y, e2)) =>
        OpenedBodies(st, left, right);
        UnifyBodies(st, left, right, e1, Substitute(e2, map[y := Variable(x)]))
      case _ => Failed(st, KindsDoNotUnify)
  }

  /** The bodies of two quantifiers, opened with the same binder. */
  function UnifyBodies(st: State, left: Kind, right: Kind, e1: Kind, e2: Kind): (o: Outcome)
    requires WellFormed(st) && Bodies(st, left, right, e1, e2)
    ensures WellFormed(o.state) && o.state.rigid == st.rigid && o.state.next == st.next
    ensures Extends(st.subst, o.state.subst, World(st.subst, left, right), st.rigid)
    decreases |Flexible(st, left, right)|, Work(st, left, right), 0
  {
    Unify(st, e1, e2)
  }

  /** The equations with a variable on at least one side. */
  function UnifyVariable(st: State, l: Kind, r: Kind): (o: Outcome)
    requires WellFormed(st) && (l.Variable? || r.Variable?)
    requires Part(st, l, FV(l)) && Part(st, r, FV(r))
    ensures WellFormed(o.state) && o.state.rigid == st.rigid && o.state.next == st.next
    ensures Extends(st.subst, o.state.subst, FV(l) + FV(r), st.rigid)
  {
    match (l, r)
    case (Variable(a), Variable(b)) =>
      if a == b then Solved(st)
      else if a in st.rigid then
        if b in st.rigid then Failed(st, KindsDoNotUnify) else Bound(st, b, l)
      else Bound(st, a, r)
    case (Variable(a), _) => if a in st.rigid then Failed(st, KindsDoNotUnify) else Bound(st, a, r)
    case (_, Variable(b)) => if b in st.rigid then Failed(st, KindsDoNotUnify) else Bound(st, b, l)
  }

  /** The two components of a matching pair of constructors, left to right. */
  function UnifyBoth(st: State, left: Kind, right: Kind, l1: Kind, r1: Kind, l2: Kind, r2: Kind): (o: Outcome)
    requires WellFormed(st)
    requires Components(st, left, right, l1, r1, l2, r2)
    ensures WellFormed(o.state) && o.state.rigid == st.rigid && o.state.next == st.next
    ensures Extends(st.subst, o.state.subst, World(st.subst, left, right), st.rigid)
    decreases |Flexible(st, left, right)|, Work(st, left, right), 0
  {
    FirstHalfSmaller(st, left, right, l1, r1, l2, r2);
    var first := Unify(st, l1, r1);
    if first.Failed? then first
    else
      var st' := first.state;
      SecondHalfSmaller(st, st', l2, r2, World(st.subst, left, right));
      var second := Unify(st', l2, r2);
      ExtendsTransitive(st.subst, st'.subst, second.state.subst, World(st.subst, left, right), World(st'.subst, l2, r2),
                        st.rigid);
      second
  }

  function Bound(st: State, x: nat, k: Kind): (o: Outcome)
    requires WellFormed(st) && x !in st.subst && x !in st.rigid
    requires Settled(st.subst, k, {}) && BindersRigid(k, st.rigid)
    ensures WellFormed(o.state) && o.state.rigid == st.rigid && o.state.next == st.next
    ensures Extends(st.subst, o.state.subst, FV(k) + {x}, st.rigid)
    ensures o == Bind(st, x, k)
  {
    if x !in FV(k) then BindKeeps(st, x, k); Bind(st, x, k) else Bind(st, x, k)
  }

  ghost predicate Bodies(st: State, left: Kind, right: Kind, e1: Kind, e2: Kind)
    requires WellFormed(st)
  {
    && BindersRigid(e1, st.rigid) && BindersRigid(e2, st.rigid)
    && |Flexible(st, e1, e2)| <= |Flexible(st, left, right)| && Work(st, e1, e2) < Work(st, left, right)
    && World(st.subst, e1, e2) <= World(st.subst, left, right) + st.rigid
  }

  ghost predicate Components(st: State, left: Kind, right: Kind, l1: Kind, r1: Kind, l2: Kind, r2: Kind)
    requires WellFormed(st)
  {
    && Part(st, l1, World(st.subst, left, right)) && Part(st, r1, World(st.subst, left, right))
    && Part(st, l2, World(st.subst, left, right)) && Part(st, r2, World(st.subst, left, right))
    && Size(l1) + Size(r1) < Work(st, left, right)
    && Size(l2) + Size(r2) < Work(st, left, right)
    && World(st.subst, left, right) !! st.subst.Keys
  }

  lemma {:induction false} ResolvedSides(st: State, left: Kind, right: Kind)
    requires WellFormed(st) && BindersRigid(left, st.rigid) && BindersRigid(right, st.rigid)
    ensures var l, r := Resolve(st.subst, left, {}), Resolve(st.subst, right, {});
            && Part(st, l, FV(l)) && Part(st, r, FV(r))
            && World(st.subst, left, right) !! st.subst.Keys
            && (l.Node? && r.Node? ==> Components(st, left, right, l.left, r.left, l.right, r.right))
            && (l.Variable? ==> l.id !in st.subst) && (r.Variable? ==> r.id !in st.subst)
  {
    var s := st.subst;
    var l, r := Resolve(s, left, {}), Resolve(s, right, {});
    ResolveSettles(s, left, {});
    ResolveSettles(s, right, {});
    ResolveBinders(s, left, {}, st.rigid);
    ResolveBinders(s, right, {}, st.rigid);
  }

  lemma {:induction false} FirstHalfSmaller(st: State, left: Kind, right: Kind, l1: Kind, r1: Kind, l2: Kind, r2: Kind)
    requires WellFormed(st) && Components(st, left, right, l1, r1, l2, r2)
    ensures World(st.subst, l1, r1) <= World(st.subst, left, right)
    ensures |Flexible(st, l1, r1)| <= |Flexible(st, left, right)|
    ensures Work(st, l1, r1) < Work(st, left, right)
  {
    SettledFixed(st.subst, l1, {});
    SettledFixed(st.subst, r1, {});
    SubsetSize(Flexible(st, l1, r1), Flexible(st, left, right));
  }

  lemma {:induction false} ExtendsTransitive(s: Subst, s': Subst, s'': Subst, world: set<nat>, world': set<nat>,
                                             rigid: set<nat>)
    requires Extends(s, s', world, rigid) && Extends(s', s'', world', rigid) && world' <= world + rigid
    ensures Extends(s, s'', world, rigid)
  {
  }

  /** Under a quantifier the binder is rigid, so opening it adds no flexible variable. */
  lemma {:induction false} OpenedBodies(st: State, left: Kind, right: Kind)
    requires WellFormed(st) && BindersRigid(left, st.rigid) && BindersRigid(right, st.rigid)
    requires Resolve(st.subst, left, {}).ForAll? && Resolve(st.subst, right, {}).ForAll?
    ensures var l, r := Resolve(st.subst, left, {}), Resolve(st.subst, right, {});
            Bodies(st, left, right, l.body, Substitute(r.body, map[r.binder := Variable(l.binder)]))
  {
    var s := st.subst;
    ResolvedSides(st, left, right);
    var l, r := Resolve(s, left, {}), Resolve(s, right, {});
    var r' := Substitute(r.body, map[r.binder := Variable(l.binder)]);
    RenameShape(r.body, r.binder, l.binder, map[r.binder := Variable(l.binder)]);
    assert l.binder in Binders(l);
    assert Settled(s, l.body, {}) by { assert FV(l.body) <= FV(l) + {l.binder}; }
    assert Settled(s, r', {}) by { assert FV(r') <= FV(r) + {l.binder}; }
    SettledFixed(s, l.body, {});
    SettledFixed(s, r', {});
    SubsetSize(Flexible(st, l.body, r'), Flexible(st, left, right));
  }
}
