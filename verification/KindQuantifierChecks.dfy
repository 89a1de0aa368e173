/** Checks on an equation that rule out that an opened binder escapes
    (crates/psrs-kind/src/solve.rs).
 */
module KindQuantifierChecks {
  import opened Kinds
  import opened KindSolver
  import opened KindClosed
  import opened KindQuantifiers

  // ----- At each pair of quantifiers -----

  /** `y` occurs free below a binder `x`, where replacing it by `x` would bind it. */
  predicate Captures(k: Kind, y: nat, x: nat) {
    match k
    case Node(_, a, b) => Captures(a, y, x) || Captures(b, y, x)
    case ForAll(p, e) => p != y && (if p == x then y in FV(e) else Captures(e, y, x))
    case _ => false
  }

  /** Without flexible variables, confined means that `x` is new to the body and replaces `y` without capture. */
  lemma {:induction false} RigidConfined(f: Subst, k: Kind, x: nat, y: nat, inner: seq<nat>, rigid: set<nat>)
    requires Final(f, rigid) && FV(k) <= rigid && BindersRigid(k, rigid) && Rigid(inner, rigid) && x != y
    ensures Confined(f, k, x, y, inner)
            <==> (x in FV(k) ==> x in inner)
                 && (y in inner || if x in inner then y !in FV(k) else !Captures(k, y, x))
    decreases k
  {
    match k
    case Node(_, a, b) => RigidConfined(f, a, x, y, inner, rigid); RigidConfined(f, b, x, y, inner, rigid);
    case ForAll(p, e) => RigidConfined(f, e, x, y, [p] + inner, rigid);
    case _ =>
  }

  /** The check at a pair of quantifiers, made when they are opened: the binders are the same, or the right body has
      no flexible variable, does not mention the left binder, and captures nothing. */
  ghost predicate Guard(x: nat, e: Kind, y: nat, rigid: set<nat>) {
    x == y || (FV(e) <= rigid - {x} && !Captures(e, y, x))
  }

  /** A check of the left binder, the right body and the right binder. */
  type Check = (nat, Kind, nat) -> bool

  ghost function RigidGuard(rigid: set<nat>): Check {
    (x: nat, e: Kind, y: nat) => Guard(x, e, y, rigid)
  }

  /** Every pair of quantifiers that unification opens passes a check. */
  ghost predicate Guarded(check: Check, st: State, left: Kind, right: Kind)
    requires WellFormed(st) && BindersRigid(left, st.rigid) && BindersRigid(right, st.rigid)
    decreases |Flexible(st, left, right)|, Work(st, left, right), 1
  {
    var l, r := Resolve(st.subst, left, {}), Resolve(st.subst, right, {});
    if l.Node? && r.Node? && l.shape == r.shape then
      ResolvedSides(st, left, right);
      GuardedBoth(check, st, left, right, l.left, r.left, l.right, r.right)
    else if l.ForAll? && r.ForAll? then
      OpenedBodies(st, left, right);
      GuardedBodies(check, st, left, right, l.binder, l.body, r.binder, r.body)
    else true
  }

  ghost predicate GuardedBoth(check: Check, st: State, left: Kind, right: Kind, l1: Kind, r1: Kind, l2: Kind,
                              r2: Kind)
    requires WellFormed(st) && Components(st, left, right, l1, r1, l2, r2)
    decreases |Flexible(st, left, right)|, Work(st, left, right), 0
  {
    FirstHalfSmaller(st, left, right, l1, r1, l2, r2);
    var first := Unify(st, l1, r1);
    SecondHalfSmaller(st, first.state, l2, r2, World(st.subst, left, right));
    Guarded(check, st, l1, r1) && Guarded(check, first.state, l2, r2)
  }

  ghost predicate GuardedBodies(check: Check, st: State, left: Kind, right: Kind, x: nat, e1: Kind, y: nat, e2: Kind)
    requires WellFormed(st) && Bodies(st, left, right, e1, Substitute(e2, map[y := Variable(x)]))
    decreases |Flexible(st, left, right)|, Work(st, left, right), 0
  {
    check(x, e2, y) && Guarded(check, st, e1, Substitute(e2, map[y := Variable(x)]))
  }

  lemma {:induction false} GuardedConfined(f: Subst, st: State, left: Kind, right: Kind)
    requires WellFormed(st) && BindersRigid(left, st.rigid) && BindersRigid(right, st.rigid)
    requires Final(f, st.rigid) && Guarded(RigidGuard(st.rigid), st, left, right)
    ensures NoEscape(f, st, left, right)
    decreases |Flexible(st, left, right)|, Work(st, left, right), 1
  {
    var l, r := Resolve(st.subst, left, {}), Resolve(st.subst, right, {});
    if l.Node? && r.Node? && l.shape == r.shape {
      ResolvedSides(st, left, right);
      GuardedHalves(f, st, left, right, l.left, r.left, l.right, r.right);
    } else if l.ForAll? && r.ForAll? {
      QuantifiersOpen(f, st, left, right, l, r);
      GuardedPair(f, st, left, right, l.binder, l.body, r.binder, r.body);
    }
  }

  lemma {:induction false} GuardedHalves(f: Subst, st: State, left: Kind, right: Kind, l1: Kind, r1: Kind, l2: Kind,
                                         r2: Kind)
    requires WellFormed(st) && Components(st, left, right, l1, r1, l2, r2)
    requires Final(f, st.rigid) && GuardedBoth(RigidGuard(st.rigid), st, left, right, l1, r1, l2, r2)
    ensures NoEscapeBoth(f, st, left, right, l1, r1, l2, r2)
    decreases |Flexible(st, left, right)|, Work(st, left, right), 0
  {
    FirstHalfSmaller(st, left, right, l1, r1, l2, r2);
    var first := Unify(st, l1, r1).state;
    SecondHalfSmaller(st, first, l2, r2, World(st.subst, left, right));
    HalvesConfined(f, st, left, right, l1, r1, l2, r2);
    GuardedConfined(f, st, l1, r1);
    GuardedConfined(f, first, l2, r2);
  }

  lemma {:induction false} GuardedPair(f: Subst, st: State, left: Kind, right: Kind, x: nat, e1: Kind, y: nat, e2: Kind)
    requires WellFormed(st) && Bodies(st, left, right, e1, Substitute(e2, map[y := Variable(x)]))
    requires BindersRigid(ForAll(y, e2), st.rigid)
    requires Final(f, st.rigid) && GuardedBodies(RigidGuard(st.rigid), st, left, right, x, e1, y, e2)
    ensures NoEscapeBodies(f, st, left, right, x, e1, y, e2)
    decreases |Flexible(st, left, right)|, Work(st, left, right), 0
  {
    GuardedConfined(f, st, e1, Substitute(e2, map[y := Variable(x)]));
    if x != y { RigidConfined(f, e2, x, y, [], st.rigid); }
  }

  lemma {:induction false} QuantifiersGuarded(check: Check, st: State, left: Kind, right: Kind, l: Kind, r: Kind)
    requires WellFormed(st) && BindersRigid(left, st.rigid) && BindersRigid(right, st.rigid)
    requires l == Resolve(st.subst, left, {}) && r == Resolve(st.subst, right, {}) && l.ForAll? && r.ForAll?
    ensures Bodies(st, left, right, l.body, Substitute(r.body, map[r.binder := Variable(l.binder)]))
    ensures Guarded(check, st, left, right)
            == GuardedBodies(check, st, left, right, l.binder, l.body, r.binder, r.body)
  {
    OpenedBodies(st, left, right);
  }

  /** If every pair passes, success makes the sides alike, whatever is solved. */
  lemma {:induction false} GuardedAlike(st: State, left: Kind, right: Kind)
    requires WellFormed(st) && BindersRigid(left, st.rigid) && BindersRigid(right, st.rigid)
    requires Unify(st, left, right).Solved? && Guarded(RigidGuard(st.rigid), st, left, right)
    ensures Alike(Unify(st, left, right).state.subst, left, right)
  {
    GuardedConfined(Unify(st, left, right).state.subst, st, left, right);
    UnifySoundUnderQuantifiers(st, left, right);
  }

  /** A variable of the left body is solved with the binder, and the sides are alike all the same. */
  lemma {:induction false} BinderSolved(st: State)
    requires st == State(map[], 4, {1, 2}) && WellFormed(st)
    ensures var o := Unify(st, ForAll(1, Variable(3)), ForAll(2, Variable(2)));
            o == Solved(st.(subst := map[3 := Variable(1)]))
            && Alike(o.state.subst, ForAll(1, Variable(3)), ForAll(2, Variable(2)))
  {
    UnifySolves(st, ForAll(1, Variable(3)), ForAll(2, Variable(2)));
    UnifyGuarded(st, ForAll(1, Variable(3)), ForAll(2, Variable(2)));
    GuardedAlike(st, ForAll(1, Variable(3)), ForAll(2, Variable(2)));
  }

  lemma {:induction false} UnifySolves(st: State, left: Kind, right: Kind)
    requires st == State(map[], 4, {1, 2}) && WellFormed(st) && left == ForAll(1, Variable(3))
             && right == ForAll(2, Variable(2))
    ensures Unify(st, left, right) == Solved(st.(subst := map[3 := Variable(1)]))
  {
    SettledFixed(st.subst, left, {});
    SettledFixed(st.subst, right, {});
    QuantifiersOpen(st.subst, st, left, right, left, right);
    assert Substitute(Variable(2), map[2 := Variable(1)]) == Variable(1);
    BodySolved(st, left, right);
  }

  lemma {:induction false} UnifyGuarded(st: State, left: Kind, right: Kind)
    requires st == State(map[], 4, {1, 2}) && WellFormed(st) && left == ForAll(1, Variable(3))
             && right == ForAll(2, Variable(2))
    ensures Guarded(RigidGuard(st.rigid), st, left, right)
  {
    SettledFixed(st.subst, left, {});
    SettledFixed(st.subst, right, {});
    assert Guard(1, Variable(2), 2, st.rigid);
    assert Substitute(Variable(2), map[2 := Variable(1)]) == Variable(1);
    PairGuarded(st, left, right, Variable(1));
  }

  /** The pair passes, and the left body is an unsolved variable. */
  lemma {:induction false} PairGuarded(st: State, l: Kind, r: Kind, opened_: Kind)
    requires WellFormed(st) && BindersRigid(l, st.rigid) && BindersRigid(r, st.rigid) && l.ForAll? && r.ForAll?
    requires l == Resolve(st.subst, l, {}) && r == Resolve(st.subst, r, {})
    requires Guard(l.binder, r.body, r.binder, st.rigid)
    requires opened_ == Substitute(r.body, map[r.binder := Variable(l.binder)])
    requires l.body.Variable? && l.body.id !in st.subst && BindersRigid(opened_, st.rigid)
    ensures Guarded(RigidGuard(st.rigid), st, l, r)
  {
    OpenedBodies(st, l, r);
    LeafGuarded(st, l.body, opened_);
  }

  lemma {:induction false} LeafGuarded(st: State, left: Kind, right: Kind)
    requires WellFormed(st) && BindersRigid(right, st.rigid) && left.Variable? && left.id !in st.subst
    ensures Guarded(RigidGuard(st.rigid), st, left, right)
  {
  }

  lemma {:induction false} BodySolved(st: State, left: Kind, right: Kind)
    requires st == State(map[], 4, {1, 2}) && WellFormed(st) && Bodies(st, left, right, Variable(3), Variable(1))
    ensures UnifyBodies(st, left, right, Variable(3), Variable(1)) == Solved(st.(subst := map[3 := Variable(1)]))
  {
    assert Resolve(st.subst, Variable(1), {}) == Variable(1) && Resolve(st.subst, Variable(3), {}) == Variable(3);
    assert st.subst[3 := Variable(1)] == map[3 := Variable(1)];
  }

  // ----- Without flexible variables -----

  /** Without flexible variables nothing under a quantifier is ever solved, so the pairs of quantifiers are those
      of the kinds themselves: at each of them the left binder is new to the right body, and replaces the
      right one without capture. */
  predicate Orderly(l: Kind, r: Kind)
    decreases l
  {
    match (l, r)
    case (Node(c, a1, b1), Node(d, a2, b2)) => c == d ==> Orderly(a1, a2) && Orderly(b1, b2)
    case (ForAll(x, e1), ForAll(y, e2)) =>
      (x == y || (x !in FV(e2) && !Captures(e2, y, x))) && Orderly(e1, Substitute(e2, map[y := Variable(x)]))
    case _ => true
  }

  /** A kind without flexible variables. */
  ghost predicate RigidKind(k: Kind, rigid: set<nat>) {
    FV(k) <= rigid && BindersRigid(k, rigid)
  }

  lemma {:induction false} RigidOpened(x: nat, y: nat, e: Kind, rigid: set<nat>)
    requires RigidKind(ForAll(y, e), rigid) && x in rigid
    ensures RigidKind(e, rigid) && RigidKind(Substitute(e, map[y := Variable(x)]), rigid)
  {
    RenameShape(e, y, x, map[y := Variable(x)]);
  }

  /** Then the condition does not depend on the solutions at all. */
  lemma {:induction false} RigidExactly(f: Subst, st: State, l: Kind, r: Kind)
    requires WellFormed(st) && Final(f, st.rigid) && RigidKind(l, st.rigid) && RigidKind(r, st.rigid)
    ensures NoEscape(f, st, l, r) <==> Orderly(l, r)
    decreases l, 1
  {
    SettledFixed(st.subst, l, {});
    SettledFixed(st.subst, r, {});
    if l.Node? && r.Node? && l.shape == r.shape {
      RigidNodes(f, st, l, r);
    } else if l.ForAll? && r.ForAll? {
      RigidBodies(f, st, l, r);
    }
  }

  lemma {:induction false} RigidNodes(f: Subst, st: State, l: Kind, r: Kind)
    requires WellFormed(st) && Final(f, st.rigid) && RigidKind(l, st.rigid) && RigidKind(r, st.rigid)
    requires l.Node? && r.Node? && l.shape == r.shape
    ensures NoEscape(f, st, l, r) <==> Orderly(l, r)
    decreases l, 0
  {
    SettledFixed(st.subst, l, {});
    SettledFixed(st.subst, r, {});
    NodesMeet(f, st, l, r);
    HalvesConfined(f, st, l, r, l.left, r.left, l.right, r.right);
    RigidExactly(f, st, l.left, r.left);
    RigidExactly(f, Unify(st, l.left, r.left).state, l.right, r.right);
  }

  lemma {:induction false} RigidBodies(f: Subst, st: State, l: Kind, r: Kind)
    requires WellFormed(st) && Final(f, st.rigid) && RigidKind(l, st.rigid) && RigidKind(r, st.rigid)
    requires l.ForAll? && r.ForAll?
    ensures NoEscape(f, st, l, r) <==> Orderly(l, r)
    decreases l, 0
  {
    var x, y := l.binder, r.binder;
    SettledFixed(st.subst, l, {});
    SettledFixed(st.subst, r, {});
    QuantifiersOpen(f, st, l, r, l, r);
    RigidOpened(x, x, l.body, st.rigid);
    RigidOpened(x, y, r.body, st.rigid);
    if x != y { RigidConfined(f, r.body, x, y, [], st.rigid); }
    RigidExactly(f, st, l.body, Substitute(r.body, map[y := Variable(x)]));
  }

  /** An orderly equation is solved whenever its sides are alike. */
  lemma {:induction false} OrderlySolved(st: State, l: Kind, r: Kind)
    requires WellFormed(st) && RigidKind(l, st.rigid) && RigidKind(r, st.rigid) && Orderly(l, r)
    requires ToNameless(l, []) == ToNameless(r, [])
    ensures Unify(st, l, r).Solved?
    decreases l, 1
  {
    match l
    case Node(_, _, _) => OrderlyNodes(st, l, r);
    case ForAll(_, _) => OrderlyBodies(st, l, r);
    case _ =>
      SettledFixed(st.subst, l, {});
  }

  lemma {:induction false} OrderlyNodes(st: State, l: Kind, r: Kind)
    requires WellFormed(st) && RigidKind(l, st.rigid) && RigidKind(r, st.rigid) && Orderly(l, r)
    requires ToNameless(l, []) == ToNameless(r, []) && l.Node? && r.Node?
    ensures Unify(st, l, r).Solved?
    decreases l, 0
  {
    SettledFixed(st.subst, l, {});
    SettledFixed(st.subst, r, {});
    NodesMeet(st.subst, st, l, r);
    HalvesMeet(st, l, r, l.left, r.left, l.right, r.right);
    OrderlySolved(st, l.left, r.left);
    OrderlySolved(Unify(st, l.left, r.left).state, l.right, r.right);
  }

  lemma {:induction false} OrderlyBodies(st: State, l: Kind, r: Kind)
    requires WellFormed(st) && RigidKind(l, st.rigid) && RigidKind(r, st.rigid) && Orderly(l, r)
    requires ToNameless(l, []) == ToNameless(r, []) && l.ForAll? && r.ForAll?
    ensures Unify(st, l, r).Solved?
    decreases l, 0
  {
    var opened_ := Substitute(r.body, map[r.binder := Variable(l.binder)]);
    OrderlyOpened(st, l.binder, l.body, r.binder, r.body);
    OrderlySolved(st, l.body, opened_);
    BodiesSolved(st, l, r, opened_);
  }

  lemma {:induction false} BodiesSolved(st: State, l: Kind, r: Kind, opened_: Kind)
    requires WellFormed(st) && RigidKind(l, st.rigid) && RigidKind(r, st.rigid) && l.ForAll? && r.ForAll?
    requires opened_ == Substitute(r.body, map[r.binder := Variable(l.binder)]) && BindersRigid(opened_, st.rigid)
    ensures Unify(st, l, r) == Unify(st, l.body, opened_)
  {
    SettledFixed(st.subst, l, {});
    SettledFixed(st.subst, r, {});
    QuantifiersOpen(st.subst, st, l, r, l, r);
  }

  lemma {:induction false} OrderlyOpened(st: State, x: nat, e: Kind, y: nat, e': Kind)
    requires WellFormed(st) && RigidKind(ForAll(x, e), st.rigid) && RigidKind(ForAll(y, e'), st.rigid)
    requires Orderly(ForAll(x, e), ForAll(y, e')) && ToNameless(ForAll(x, e), []) == ToNameless(ForAll(y, e'), [])
    ensures var opened_ := Substitute(e', map[y := Variable(x)]);
            RigidKind(e, st.rigid) && RigidKind(opened_, st.rigid) && Orderly(e, opened_)
            && ToNameless(e, []) == ToNameless(opened_, [])
  {
    var opened_ := Substitute(e', map[y := Variable(x)]);
    RigidOpened(x, x, e, st.rigid);
    RigidOpened(x, y, e', st.rigid);
    assert [] + [x] == [x] + [] == [x] && [] + [y] == [y] + [] == [y];
    if x == y {
      Renamed(e', x);
    } else {
      RigidConfined(st.subst, e', x, y, [], st.rigid);
      assert OpeningMap(x, y, []) == map[y := Variable(x)];
      OpenedMeans(st.subst, e', [], x, y, st.rigid);
      SettledFixed(st.subst, e', {});
      SettledFixed(st.subst, opened_, {});
    }
    BindInside(e, opened_, [], [], x);
  }

  /** Of solved, alike and orderly, any two imply the third, for equations without flexible variables. */
  lemma {:induction false} RigidDecided(st: State, l: Kind, r: Kind)
    requires WellFormed(st) && RigidKind(l, st.rigid) && RigidKind(r, st.rigid)
    ensures var solved, alike := Unify(st, l, r).Solved?, ToNameless(l, []) == ToNameless(r, []);
            && (solved ==> (alike <==> Orderly(l, r)))
            && (Orderly(l, r) ==> (solved <==> alike))
  {
    if Unify(st, l, r).Solved? {
      var s' := Unify(st, l, r).state.subst;
      UnifySoundUnderQuantifiers(st, l, r);
      RigidExactly(s', st, l, r);
      SettledFixed(s', l, {});
      SettledFixed(s', r, {});
    } else if Orderly(l, r) && ToNameless(l, []) == ToNameless(r, []) {
      OrderlySolved(st, l, r);
    }
  }

  // ----- Flexible variables outside of quantifiers -----

  /** The outermost quantified parts. */
  function Quantified(k: Kind): set<Kind> {
    match k
    case Node(_, a, b) => Quantified(a) + Quantified(b)
    case ForAll(_, _) => {k}
    case _ => {}
  }

  /** No flexible variable occurs under a quantifier, and the quantified parts are orderly pair by pair. */
  ghost predicate Sealed(qs: set<Kind>, rigid: set<nat>) {
    (forall q <- qs :: q.ForAll? && RigidKind(q, rigid)) && forall p, q :: p in qs && q in qs ==> Orderly(p, q)
  }

  ghost predicate NewSealed(s: Subst, s': Subst, qs: set<Kind>) {
    forall x <- s' :: x !in s ==> Quantified(s'[x]) <= qs
  }

  lemma {:induction false} QuantifiedResolved(s: Subst, s': Subst, k: Kind, qs: set<Kind>, rigid: set<nat>)
    requires Final(s', rigid) && Sealed(qs, rigid) && BindersRigid(k, rigid) && NewSealed(s, s', qs)
    requires Quantified(k) <= qs && FV(k) !! s.Keys && forall x <- s' :: x !in s ==> FV(s'[x]) !! s.Keys
    ensures Quantified(Resolve(s', k, {})) <= qs
    decreases Depth(s', k, {}), k
  {
    match k
    case Constant(_) =>
    case Variable(x) =>
      if x in s' {
        DepthFollow(s', x, {});
        QuantifiedResolved(s, s', s'[x], qs, rigid);
      }
    case Node(_, a, b) =>
      DepthMonotone(s', k, {}, a, {}); DepthMonotone(s', k, {}, b, {});
      QuantifiedResolved(s, s', a, qs, rigid);
      QuantifiedResolved(s, s', b, qs, rigid);
    case ForAll(_, _) => SettledFixed(s', k, {});
  }

  lemma {:induction false} SealedUnder(f: Subst, st: State, left: Kind, right: Kind, qs: set<Kind>)
    requires WellFormed(st) && BindersRigid(left, st.rigid) && BindersRigid(right, st.rigid)
    requires Final(f, st.rigid) && Sealed(qs, st.rigid)
    requires Quantified(Resolve(st.subst, left, {})) <= qs && Quantified(Resolve(st.subst, right, {})) <= qs
    ensures NoEscape(f, st, left, right) && NewSealed(st.subst, Unify(st, left, right).state.subst, qs)
    decreases |Flexible(st, left, right)|, Work(st, left, right), 2
  {
    var l, r := Resolve(st.subst, left, {}), Resolve(st.subst, right, {});
    if l.Node? && r.Node? && l.shape == r.shape {
      SealedNodes(f, st, left, right, l, r, qs);
    } else if l.ForAll? && r.ForAll? {
      SealedPair(f, st, left, right, l, r, qs);
    } else {
      SealedLeaf(f, st, left, right, l, r, qs);
    }
  }

  lemma {:induction false} SealedLeaf(f: Subst, st: State, left: Kind, right: Kind, l: Kind, r: Kind, qs: set<Kind>)
    requires WellFormed(st) && BindersRigid(left, st.rigid) && BindersRigid(right, st.rigid) && Acyclic(f)
    requires l == Resolve(st.subst, left, {}) && r == Resolve(st.subst, right, {})
    requires !(l.Node? && r.Node? && l.shape == r.shape) && !(l.ForAll? && r.ForAll?)
    requires Quantified(l) <= qs && Quantified(r) <= qs
    ensures NoEscape(f, st, left, right) && NewSealed(st.subst, Unify(st, left, right).state.subst, qs)
  {
    ResolvedSides(st, left, right);
  }

  lemma {:induction false} SealedNodes(f: Subst, st: State, left: Kind, right: Kind, l: Kind, r: Kind, qs: set<Kind>)
    requires WellFormed(st) && BindersRigid(left, st.rigid) && BindersRigid(right, st.rigid)
    requires Final(f, st.rigid) && Sealed(qs, st.rigid)
    requires l == Resolve(st.subst, left, {}) && r == Resolve(st.subst, right, {})
    requires l.Node? && r.Node? && l.shape == r.shape && Quantified(l) <= qs && Quantified(r) <= qs
    ensures NoEscape(f, st, left, right) && NewSealed(st.subst, Unify(st, left, right).state.subst, qs)
    decreases |Flexible(st, left, right)|, Work(st, left, right), 1
  {
    NodesMeet(f, st, left, right);
    SealedBoth(f, st, left, right, l.left, r.left, l.right, r.right, qs);
  }

  lemma {:induction false} SealedPair(f: Subst, st: State, left: Kind, right: Kind, l: Kind, r: Kind, qs: set<Kind>)
    requires WellFormed(st) && BindersRigid(left, st.rigid) && BindersRigid(right, st.rigid)
    requires Final(f, st.rigid) && Sealed(qs, st.rigid) && l in qs && r in qs
    requires l == Resolve(st.subst, left, {}) && r == Resolve(st.subst, right, {})
    ensures NoEscape(f, st, left, right) && NewSealed(st.subst, Unify(st, left, right).state.subst, qs)
  {
    QuantifiersOpen(f, st, left, right, l, r);
    SettledFixed(st.subst, l, {});
    SettledFixed(st.subst, r, {});
    QuantifiersOpen(f, st, l, r, l, r);
    RigidExactly(f, st, l, r);
  }

  lemma {:induction false} SealedBoth(f: Subst, st: State, left: Kind, right: Kind, l1: Kind, r1: Kind, l2: Kind,
                                      r2: Kind, qs: set<Kind>)
    requires WellFormed(st) && Components(st, left, right, l1, r1, l2, r2)
    requires Final(f, st.rigid) && Sealed(qs, st.rigid)
    requires Quantified(l1) <= qs && Quantified(r1) <= qs && Quantified(l2) <= qs && Quantified(r2) <= qs
    ensures NoEscapeBoth(f, st, left, right, l1, r1, l2, r2)
    ensures NewSealed(st.subst, UnifyBoth(st, left, right, l1, r1, l2, r2).state.subst, qs)
    decreases |Flexible(st, left, right)|, Work(st, left, right), 0
  {
    FirstHalfSmaller(st, left, right, l1, r1, l2, r2);
    var first := Unify(st, l1, r1).state;
    SecondHalfSmaller(st, first, l2, r2, World(st.subst, left, right));
    HalvesMeet(st, left, right, l1, r1, l2, r2);
    HalvesConfined(f, st, left, right, l1, r1, l2, r2);
    SettledFixed(st.subst, l1, {});
    SettledFixed(st.subst, r1, {});
    SealedUnder(f, st, l1, r1, qs);
    QuantifiedResolved(st.subst, first.subst, l2, qs, st.rigid);
    QuantifiedResolved(st.subst, first.subst, r2, qs, st.rigid);
    SealedUnder(f, first, l2, r2, qs);
  }

  /** With such quantifiers, which a caller sees in the resolved sides before the call, success makes
      the sides alike. */
  lemma {:induction false} SealedAlike(st: State, left: Kind, right: Kind)
    requires WellFormed(st) && BindersRigid(left, st.rigid) && BindersRigid(right, st.rigid)
    requires Sealed(Quantified(Resolve(st.subst, left, {})) + Quantified(Resolve(st.subst, right, {})), st.rigid)
    requires Unify(st, left, right).Solved?
    ensures Alike(Unify(st, left, right).state.subst, left, right)
  {
    var s' := Unify(st, left, right).state.subst;
    SealedUnder(s', st, left, right,
                Quantified(Resolve(st.subst, left, {})) + Quantified(Resolve(st.subst, right, {})));
    UnifySoundUnderQuantifiers(st, left, right);
  }
}
