/** Unification under quantifiers (crates/psrs-kind/src/solve.rs): after success both sides are
    alpha-equivalent exactly when no opened binder escapes from the right side.
 */
module KindQuantifiers {
  import opened Kinds
  import opened KindSolver
  import opened KindClosed

  // ----- Final solutions -----

  /** Solutions as a well-formed solver leaves them. */
  ghost predicate Final(f: Subst, rigid: set<nat>) {
    Acyclic(f) && f.Keys !! rigid && forall x <- f :: BindersRigid(f[x], rigid)
  }

  /** With rigid binders the bound variables make no difference to resolution. */
  lemma {:induction false} ScopeIdle(f: Subst, k: Kind, bound: set<nat>, rigid: set<nat>)
    requires Final(f, rigid) && BindersRigid(k, rigid) && bound <= rigid
    ensures Resolve(f, k, bound) == Resolve(f, k, {})
    decreases Depth(f, k, {}), k
  {
    match k
    case Constant(_) =>
    case Variable(x) =>
      if x in f {
        DepthFollow(f, x, {});
        ScopeIdle(f, f[x], bound, rigid);
      }
    case Node(_, a, b) =>
      DepthMonotone(f, k, {}, a, {}); DepthMonotone(f, k, {}, b, {});
      ScopeIdle(f, a, bound, rigid); ScopeIdle(f, b, bound, rigid);
    case ForAll(x, e) =>
      DepthMonotone(f, k, {}, e, {});
      assert {} + {x} == {x};
      ScopeIdle(f, e, bound + {x}, rigid);
      ScopeIdle(f, e, {x}, rigid);
  }

  /** Later solutions resolve a resolved kind to what they resolve the kind itself. */
  lemma {:induction false} ResolveThrough(s: Subst, f: Subst, k: Kind, bound: set<nat>)
    requires Acyclic(s) && Acyclic(f) && s.Keys <= f.Keys && forall x <- s :: f[x] == s[x]
    ensures Resolve(f, Resolve(s, k, bound), bound) == Resolve(f, k, bound)
    decreases Depth(s, k, bound), k
  {
    match k
    case Constant(_) =>
    case Variable(x) =>
      if x in s && x !in bound {
        DepthFollow(s, x, bound);
        ResolveThrough(s, f, s[x], bound);
      }
    case Node(_, a, b) =>
      DepthMonotone(s, k, bound, a, bound); DepthMonotone(s, k, bound, b, bound);
      ResolveThrough(s, f, a, bound); ResolveThrough(s, f, b, bound);
    case ForAll(x, e) =>
      DepthMonotone(s, k, bound, e, bound + {x});
      ResolveThrough(s, f, e, bound + {x});
  }

  // ----- Nameless forms under one more binder -----

  lemma {:induction false} IndexAppend(scope: seq<nat>, x: nat, y: nat)
    ensures y in scope ==> IndexOf(scope + [x], y) == IndexOf(scope, y)
    ensures y !in scope && y == x ==> IndexOf(scope + [x], y) == |scope|
  {
    if scope != [] {
      assert (scope + [x])[0] == scope[0] && (scope + [x])[1..] == scope[1..] + [x];
      if scope[0] != y { IndexAppend(scope[1..], x, y); }
    } else {
      assert [] + [x] == [x];
    }
  }

  /** Equal forms stay equal when a free variable becomes bound outside. */
  lemma {:induction false} BindOutside(a: Kind, b: Kind, scope: seq<nat>, scope': seq<nat>, x: nat)
    requires |scope| == |scope'| && ToNameless(a, scope) == ToNameless(b, scope')
    ensures ToNameless(a, scope + [x]) == ToNameless(b, scope' + [x])
    decreases a
  {
    match a
    case Constant(_) =>
    case Variable(u) =>
      IndexAppend(scope, x, u);
      IndexAppend(scope', x, b.id);
    case Node(_, l, r) =>
      BindOutside(l, b.left, scope, scope', x);
      BindOutside(r, b.right, scope, scope', x);
    case ForAll(p, e) =>
      BindOutside(e, b.body, [p] + scope, [b.binder] + scope', x);
      assert [p] + scope + [x] == [p] + (scope + [x]) && [b.binder] + scope' + [x] == [b.binder] + (scope' + [x]);
  }

  /** And only forms that were equal before become equal. */
  lemma {:induction false} BindInside(a: Kind, b: Kind, scope: seq<nat>, scope': seq<nat>, x: nat)
    requires |scope| == |scope'| && ToNameless(a, scope + [x]) == ToNameless(b, scope' + [x])
    ensures ToNameless(a, scope) == ToNameless(b, scope')
    decreases a
  {
    match a
    case Constant(_) =>
    case Variable(u) =>
      IndexAppend(scope, x, u);
      IndexAppend(scope', x, b.id);
    case Node(_, l, r) =>
      BindInside(l, b.left, scope, scope', x);
      BindInside(r, b.right, scope, scope', x);
    case ForAll(p, e) =>
      assert [p] + scope + [x] == [p] + (scope + [x]) && [b.binder] + scope' + [x] == [b.binder] + (scope' + [x]);
      BindInside(e, b.body, [p] + scope, [b.binder] + scope', x);
  }

  /** The outermost scope entry does not matter to a kind that does not see it. */
  lemma {:induction false} Unseen(k: Kind, scope: seq<nat>, x: nat, y: nat)
    requires x in scope || x !in FV(k)
    requires y in scope || y !in FV(k)
    ensures ToNameless(k, scope + [x]) == ToNameless(k, scope + [y])
    decreases k
  {
    match k
    case Constant(_) =>
    case Variable(u) => IndexAppend(scope, x, u); IndexAppend(scope, y, u);
    case Node(_, l, r) => Unseen(l, scope, x, y); Unseen(r, scope, x, y);
    case ForAll(p, e) =>
      Unseen(e, [p] + scope, x, y);
      assert [p] + scope + [x] == [p] + (scope + [x]) && [p] + scope + [y] == [p] + (scope + [y]);
  }

  // ----- Opening a binder -----

  lemma {:induction false} SubstituteAbsent(k: Kind, mapping: map<nat, Kind>)
    requires FV(k) !! mapping.Keys
    ensures Substitute(k, mapping) == k
  {
    match k
    case Node(_, a, b) => SubstituteAbsent(a, mapping); SubstituteAbsent(b, mapping);
    case ForAll(p, e) => SubstituteAbsent(e, mapping - {p});
    case _ =>
  }

  /** What replacing `y` by `x` does below the binders `inner`. */
  function OpeningMap(x: nat, y: nat, inner: seq<nat>): map<nat, Kind> {
    if y in inner then map[] else map[y := Variable(x)]
  }

  lemma {:induction false} OpeningUnder(p: nat, e: Kind, x: nat, y: nat, inner: seq<nat>)
    ensures Substitute(ForAll(p, e), OpeningMap(x, y, inner)) == ForAll(p, Substitute(e, OpeningMap(x, y, [p] + inner)))
    ensures Binders(Substitute(e, OpeningMap(x, y, inner))) == Binders(e)
  {
    assert OpeningMap(x, y, inner) - {p} == OpeningMap(x, y, [p] + inner);
    SubstituteBinders(e, y, x, OpeningMap(x, y, inner));
  }

  lemma {:induction false} SubstituteBinders(e: Kind, y: nat, x: nat, mapping: map<nat, Kind>)
    requires mapping.Keys <= {y} && forall z <- mapping :: mapping[z] == Variable(x)
    ensures Binders(Substitute(e, mapping)) == Binders(e)
  {
    match e
    case Node(_, a, b) => SubstituteBinders(a, y, x, mapping); SubstituteBinders(b, y, x, mapping);
    case ForAll(p, b) => SubstituteBinders(b, y, x, mapping - {p});
    case _ =>
  }

  /** Neither binder escapes. Below the binders `inner` of the body `k`: no binder `x` stands over an occurrence of
      `y`, and the meaning of any other free variable mentions `x` or `y` only where `inner` binds it. */
  ghost predicate Confined(f: Subst, k: Kind, x: nat, y: nat, inner: seq<nat>)
    requires Acyclic(f)
  {
    match k
    case Constant(_) => true
    case Variable(z) => z in inner || if z == y then x !in inner else Unmentioned(Resolve(f, k, {}), x, y, inner)
    case Node(_, a, b) => Confined(f, a, x, y, inner) && Confined(f, b, x, y, inner)
    case ForAll(p, e) => Confined(f, e, x, y, [p] + inner)
  }

  predicate Unmentioned(k: Kind, x: nat, y: nat, inner: seq<nat>) {
    (x in FV(k) ==> x in inner) && (y in FV(k) ==> y in inner)
  }

  ghost predicate Rigid(xs: seq<nat>, rigid: set<nat>) {
    forall x <- xs :: x in rigid
  }

  lemma {:induction false} OpenedMeans(f: Subst, k: Kind, scope: seq<nat>, x: nat, y: nat, rigid: set<nat>)
    requires Final(f, rigid) && BindersRigid(k, rigid) && Rigid(scope, rigid) && x in rigid && y in rigid
    requires x != y && Confined(f, k, x, y, scope)
    ensures ToNameless(Resolve(f, Substitute(k, OpeningMap(x, y, scope)), {}), scope + [x])
         == ToNameless(Resolve(f, k, {}), scope + [y])
    decreases k
  {
    match k
    case Constant(_) =>
    case Variable(z) =>
      if z in scope {
        IndexAppend(scope, x, z);
        IndexAppend(scope, y, z);
      } else if z == y {
        IndexAppend(scope, x, x);
        IndexAppend(scope, y, y);
      } else {
        Unseen(Resolve(f, k, {}), scope, x, y);
      }
    case Node(_, a, b) =>
      OpenedMeans(f, a, scope, x, y, rigid);
      OpenedMeans(f, b, scope, x, y, rigid);
    case ForAll(p, e) =>
      OpenedMeans(f, e, [p] + scope, x, y, rigid);
      OpeningUnder(p, e, x, y, scope);
      OpeningUnder(p, e, x, y, [p] + scope);
      OpenedJoin(f, p, e, Substitute(e, OpeningMap(x, y, [p] + scope)), scope, x, y, rigid);
  }

  lemma {:induction false} OpenedJoin(f: Subst, p: nat, e: Kind, e': Kind, scope: seq<nat>, x: nat, y: nat,
                                      rigid: set<nat>)
    requires Final(f, rigid) && BindersRigid(ForAll(p, e), rigid) && BindersRigid(e', rigid)
    requires ToNameless(Resolve(f, e', {}), [p] + scope + [x]) == ToNameless(Resolve(f, e, {}), [p] + scope + [y])
    ensures ToNameless(Resolve(f, ForAll(p, e'), {}), scope + [x])
            == ToNameless(Resolve(f, ForAll(p, e), {}), scope + [y])
  {
    ResolveForAll(f, p, e, rigid);
    ResolveForAll(f, p, e', rigid);
    assert [p] + scope + [x] == [p] + (scope + [x]) && [p] + scope + [y] == [p] + (scope + [y]);
  }

  lemma {:induction false} ResolveForAll(f: Subst, p: nat, e: Kind, rigid: set<nat>)
    requires Final(f, rigid) && BindersRigid(ForAll(p, e), rigid)
    ensures Resolve(f, ForAll(p, e), {}) == ForAll(p, Resolve(f, e, {}))
  {
    assert {} + {p} == {p};
    ScopeIdle(f, e, {p}, rigid);
  }

  // ----- What solving an equation leaves -----

  /** `u` is bound at least as far in by `xs` as `v` is by `ys`. */
  predicate Deeper(u: Kind, v: nat, xs: seq<nat>, ys: seq<nat>) {
    u.Variable? && u.id in xs && v in ys && IndexOf(xs, u.id) <= IndexOf(ys, v)
  }

  /** Resolved sides of an equation: leaf by leaf they agree by name, or the left one is bound further in. */
  predicate Inward(a: Kind, b: Kind, xs: seq<nat>, ys: seq<nat>) {
    match b
    case Constant(_) => a == b
    case Variable(v) => a == b || Deeper(a, v, xs, ys)
    case Node(c, l, r) => a.Node? && a.shape == c && Inward(a.left, l, xs, ys) && Inward(a.right, r, xs, ys)
    case ForAll(q, e) => a.ForAll? && Inward(a.body, e, [a.binder] + xs, [q] + ys)
  }

  /** The same for a right side that is still to be resolved, whose own bound variables are never left by name. */
  ghost predicate Met(f: Subst, a: Kind, k: Kind, xs: seq<nat>, ys: seq<nat>)
    requires Acyclic(f)
  {
    match k
    case Constant(_) => a == k
    case Variable(v) => if v in ys then Deeper(a, v, xs, ys) else Inward(a, Resolve(f, k, {}), xs, ys)
    case Node(c, l, r) => a.Node? && a.shape == c && Met(f, a.left, l, xs, ys) && Met(f, a.right, r, xs, ys)
    case ForAll(q, e) => a.ForAll? && Met(f, a.body, e, [a.binder] + xs, [q] + ys)
  }

  lemma {:induction false} InwardSame(a: Kind, xs: seq<nat>, ys: seq<nat>)
    ensures Inward(a, a, xs, ys)
    decreases a
  {
    match a
    case Node(_, l, r) => InwardSame(l, xs, ys); InwardSame(r, xs, ys);
    case ForAll(p, e) => InwardSame(e, [p] + xs, [p] + ys);
    case _ =>
  }

  lemma {:induction false} MetSame(f: Subst, k: Kind, scope: seq<nat>, rigid: set<nat>)
    requires Final(f, rigid) && BindersRigid(k, rigid) && Rigid(scope, rigid)
    ensures Met(f, Resolve(f, k, {}), k, scope, scope)
    decreases k
  {
    match k
    case Constant(_) =>
    case Variable(_) => InwardSame(Resolve(f, k, {}), scope, scope);
    case Node(_, l, r) => MetSame(f, l, scope, rigid); MetSame(f, r, scope, rigid);
    case ForAll(p, e) =>
      ResolveForAll(f, p, e, rigid);
      MetSame(f, e, [p] + scope, rigid);
  }

  lemma {:induction false} MetInward(f: Subst, a: Kind, k: Kind, xs: seq<nat>, ys: seq<nat>, rigid: set<nat>)
    requires Final(f, rigid) && BindersRigid(k, rigid) && Rigid(ys, rigid) && Met(f, a, k, xs, ys)
    ensures Inward(a, Resolve(f, k, {}), xs, ys)
    decreases k
  {
    match k
    case Node(_, l, r) => MetInward(f, a.left, l, xs, ys, rigid); MetInward(f, a.right, r, xs, ys, rigid);
    case ForAll(p, e) =>
      ResolveForAll(f, p, e, rigid);
      MetInward(f, a.body, e, [a.binder] + xs, [p] + ys, rigid);
    case _ =>
  }

  /** What holds of a side resolved under earlier solutions holds of the side itself. */
  lemma {:induction false} MetBefore(s: Subst, f: Subst, a: Kind, k: Kind, xs: seq<nat>, ys: seq<nat>, rigid: set<nat>)
    requires Final(s, rigid) && Final(f, rigid) && Later(s, f) && BindersRigid(k, rigid) && Rigid(ys, rigid)
    requires Met(f, a, Resolve(s, k, {}), xs, ys)
    ensures Met(f, a, k, xs, ys)
    decreases k
  {
    match k
    case Constant(_) =>
    case Variable(_) =>
      ResolveBinders(s, k, {}, rigid);
      MetInward(f, a, Resolve(s, k, {}), xs, ys, rigid);
      ResolveThrough(s, f, k, {});
    case Node(_, l, r) =>
      MetBefore(s, f, a.left, l, xs, ys, rigid);
      MetBefore(s, f, a.right, r, xs, ys, rigid);
    case ForAll(p, e) =>
      ResolveForAll(s, p, e, rigid);
      MetBefore(s, f, a.body, e, [a.binder] + xs, [p] + ys, rigid);
  }

  lemma {:induction false} InwardOutside(a: Kind, b: Kind, xs: seq<nat>, ys: seq<nat>, x: nat, y: nat)
    requires Inward(a, b, xs, ys)
    ensures Inward(a, b, xs + [x], ys + [y])
    decreases b
  {
    match b
    case Constant(_) =>
    case Variable(v) => if a != b { IndexAppend(xs, x, a.id); IndexAppend(ys, y, v); }
    case Node(_, l, r) => InwardOutside(a.left, l, xs, ys, x, y); InwardOutside(a.right, r, xs, ys, x, y);
    case ForAll(q, e) =>
      InwardOutside(a.body, e, [a.binder] + xs, [q] + ys, x, y);
      assert [a.binder] + xs + [x] == [a.binder] + (xs + [x]) && [q] + ys + [y] == [q] + (ys + [y]);
  }

  /** A body that was met once opened is met under its own binder. */
  lemma {:induction false} MetOutside(f: Subst, a: Kind, k: Kind, xs: seq<nat>, ys: seq<nat>, x: nat, y: nat,
                                      rigid: set<nat>)
    requires Final(f, rigid) && x in rigid && |xs| == |ys|
    requires Met(f, a, Substitute(k, OpeningMap(x, y, ys)), xs, ys)
    ensures Met(f, a, k, xs + [x], ys + [y])
    decreases k
  {
    match k
    case Constant(_) =>
    case Variable(v) => MetLeaf(f, a, v, xs, ys, x, y, rigid);
    case Node(_, l, r) =>
      MetOutside(f, a.left, l, xs, ys, x, y, rigid);
      MetOutside(f, a.right, r, xs, ys, x, y, rigid);
    case ForAll(q, e) =>
      OpeningUnder(q, e, x, y, ys);
      MetOutside(f, a.body, e, [a.binder] + xs, [q] + ys, x, y, rigid);
      assert [a.binder] + xs + [x] == [a.binder] + (xs + [x]) && [q] + ys + [y] == [q] + (ys + [y]);
  }

  lemma {:induction false} MetLeaf(f: Subst, a: Kind, v: nat, xs: seq<nat>, ys: seq<nat>, x: nat, y: nat,
                                   rigid: set<nat>)
    requires Final(f, rigid) && x in rigid && |xs| == |ys|
    requires Met(f, a, Substitute(Variable(v), OpeningMap(x, y, ys)), xs, ys)
    ensures Met(f, a, Variable(v), xs + [x], ys + [y])
  {
    IndexAppend(ys, y, v);
    if v in ys || v == y {
      IndexAppend(xs, x, a.id);
    } else {
      InwardOutside(a, Resolve(f, Variable(v), {}), xs, ys, x, y);
    }
  }

  /** If the quantified kinds are alike, then so were the opened bodies, and neither binder escapes. */
  lemma {:induction false} MetInside(f: Subst, a: Kind, k: Kind, xs: seq<nat>, ys: seq<nat>, x: nat, y: nat,
                                     rigid: set<nat>)
    requires Final(f, rigid) && BindersRigid(k, rigid) && Rigid(ys, rigid) && x in rigid && y in rigid
    requires x != y && |xs| == |ys| && Met(f, a, Substitute(k, OpeningMap(x, y, ys)), xs, ys)
    requires ToNameless(a, xs + [x]) == ToNameless(Resolve(f, k, {}), ys + [y])
    ensures ToNameless(a, xs) == ToNameless(Resolve(f, Substitute(k, OpeningMap(x, y, ys)), {}), ys)
    ensures Confined(f, k, x, y, ys)
    decreases k
  {
    match k
    case Constant(_) =>
    case Variable(v) => LeafInside(f, a, v, xs, ys, x, y, rigid);
    case Node(_, l, r) =>
      MetInside(f, a.left, l, xs, ys, x, y, rigid);
      MetInside(f, a.right, r, xs, ys, x, y, rigid);
    case ForAll(q, e) =>
      OpeningUnder(q, e, x, y, ys);
      OpeningUnder(q, e, x, y, [q] + ys);
      ResolveForAll(f, q, e, rigid);
      ResolveForAll(f, q, Substitute(e, OpeningMap(x, y, [q] + ys)), rigid);
      assert [a.binder] + xs + [x] == [a.binder] + (xs + [x]) && [q] + ys + [y] == [q] + (ys + [y]);
      MetInside(f, a.body, e, [a.binder] + xs, [q] + ys, x, y, rigid);
  }

  lemma {:induction false} LeafInside(f: Subst, a: Kind, v: nat, xs: seq<nat>, ys: seq<nat>, x: nat, y: nat,
                                      rigid: set<nat>)
    requires Final(f, rigid) && Rigid(ys, rigid) && x in rigid && y in rigid
    requires x != y && |xs| == |ys| && Met(f, a, Substitute(Variable(v), OpeningMap(x, y, ys)), xs, ys)
    requires ToNameless(a, xs + [x]) == ToNameless(Resolve(f, Variable(v), {}), ys + [y])
    ensures ToNameless(a, xs) == ToNameless(Resolve(f, Substitute(Variable(v), OpeningMap(x, y, ys)), {}), ys)
    ensures Confined(f, Variable(v), x, y, ys)
  {
    IndexAppend(ys, y, v);
    if v in ys || v == y {
      IndexAppend(xs, x, a.id);
    } else {
      InwardInside(a, Resolve(f, Variable(v), {}), xs, ys, x, y);
    }
  }

  lemma {:induction false} InwardInside(a: Kind, b: Kind, xs: seq<nat>, ys: seq<nat>, x: nat, y: nat)
    requires x != y && |xs| == |ys| && Inward(a, b, xs, ys)
    requires ToNameless(a, xs + [x]) == ToNameless(b, ys + [y])
    ensures ToNameless(a, xs) == ToNameless(b, ys) && Unmentioned(b, x, y, ys)
    decreases b
  {
    match b
    case Constant(_) =>
    case Variable(v) => IndexAppend(xs, x, a.id); IndexAppend(ys, y, v);
    case Node(_, l, r) => InwardInside(a.left, l, xs, ys, x, y); InwardInside(a.right, r, xs, ys, x, y);
    case ForAll(q, e) =>
      assert [a.binder] + xs + [x] == [a.binder] + (xs + [x]) && [q] + ys + [y] == [q] + (ys + [y]);
      InwardInside(a.body, e, [a.binder] + xs, [q] + ys, x, y);
  }

  // ----- Soundness -----

  ghost predicate Alike(f: Subst, left: Kind, right: Kind)
    requires Acyclic(f)
  {
    ToNameless(Resolve(f, left, {}), []) == ToNameless(Resolve(f, right, {}), [])
  }

  /** Along the equations that unification solves, every pair of opened binders stays confined under `f`. */
  ghost predicate NoEscape(f: Subst, st: State, left: Kind, right: Kind)
    requires WellFormed(st) && BindersRigid(left, st.rigid) && BindersRigid(right, st.rigid) && Acyclic(f)
    decreases |Flexible(st, left, right)|, Work(st, left, right), 1
  {
    var l, r := Resolve(st.subst, left, {}), Resolve(st.subst, right, {});
    if l.Node? && r.Node? && l.shape == r.shape then
      ResolvedSides(st, left, right);
      NoEscapeBoth(f, st, left, right, l.left, r.left, l.right, r.right)
    else if l.ForAll? && r.ForAll? then
      OpenedBodies(st, left, right);
      NoEscapeBodies(f, st, left, right, l.binder, l.body, r.binder, r.body)
    else true
  }

  ghost predicate NoEscapeBoth(f: Subst, st: State, left: Kind, right: Kind, l1: Kind, r1: Kind, l2: Kind, r2: Kind)
    requires WellFormed(st) && Acyclic(f) && Components(st, left, right, l1, r1, l2, r2)
    decreases |Flexible(st, left, right)|, Work(st, left, right), 0
  {
    FirstHalfSmaller(st, left, right, l1, r1, l2, r2);
    var first := Unify(st, l1, r1);
    SecondHalfSmaller(st, first.state, l2, r2, World(st.subst, left, right));
    NoEscape(f, st, l1, r1) && NoEscape(f, first.state, l2, r2)
  }

  ghost predicate NoEscapeBodies(f: Subst, st: State, left: Kind, right: Kind, x: nat, e1: Kind, y: nat, e2: Kind)
    requires WellFormed(st) && Acyclic(f) && Bodies(st, left, right, e1, Substitute(e2, map[y := Variable(x)]))
    decreases |Flexible(st, left, right)|, Work(st, left, right), 0
  {
    (x == y || Confined(f, e2, x, y, [])) && NoEscape(f, st, e1, Substitute(e2, map[y := Variable(x)]))
  }

  ghost predicate Later(s: Subst, f: Subst) {
    s.Keys <= f.Keys && forall x <- s :: f[x] == s[x]
  }

  lemma {:induction false} Renamed(e: Kind, x: nat)
    ensures Substitute(e, map[x := Variable(x)]) == e && Substitute(e, map[]) == e
  {
    var mapping: map<nat, Kind> := map[x := Variable(x)];
    SubstituteAbsent(e, map[]);
    match e
    case Node(_, a, b) => Renamed(a, x); Renamed(b, x);
    case ForAll(p, b) =>
      Renamed(b, x);
      assert mapping - {p} == if p == x then map[] else mapping;
    case _ =>
  }

  /** Quantified kinds are alike exactly when their bodies are once opened and no binder escapes. */
  lemma {:induction false} BodiesAlike(f: Subst, x: nat, e: Kind, y: nat, e': Kind, rigid: set<nat>)
    requires Final(f, rigid) && BindersRigid(ForAll(x, e), rigid) && BindersRigid(ForAll(y, e'), rigid)
    requires Met(f, Resolve(f, e, {}), Substitute(e', map[y := Variable(x)]), [], [])
    ensures Met(f, Resolve(f, ForAll(x, e), {}), ForAll(y, e'), [], [])
    ensures Alike(f, ForAll(x, e), ForAll(y, e'))
            <==> (x == y || Confined(f, e', x, y, [])) && Alike(f, e, Substitute(e', map[y := Variable(x)]))
  {
    var body, opened_ := Resolve(f, e, {}), Substitute(e', map[y := Variable(x)]);
    assert OpeningMap(x, y, []) == map[y := Variable(x)];
    ResolveForAll(f, x, e, rigid);
    ResolveForAll(f, y, e', rigid);
    assert [] + [x] == [x] + [] == [x] && [] + [y] == [y] + [] == [y];
    MetOutside(f, body, e', [], [], x, y, rigid);
    if x == y { Renamed(e', x); }
    if Alike(f, e, opened_) {
      BindOutside(body, Resolve(f, opened_, {}), [], [], x);
      if x != y && Confined(f, e', x, y, []) { OpenedMeans(f, e', [], x, y, rigid); }
    }
    if Alike(f, ForAll(x, e), ForAll(y, e')) {
      if x == y {
        BindInside(body, Resolve(f, e', {}), [], [], x);
      } else {
        MetInside(f, body, e', [], [], x, y, rigid);
      }
    }
  }

  lemma {:induction false} VariableAlike(f: Subst, st: State, l: Kind, r: Kind)
    requires WellFormed(st) && (l.Variable? || r.Variable?)
    requires Part(st, l, FV(l)) && Part(st, r, FV(r)) && Final(f, st.rigid)
    requires UnifyVariable(st, l, r).Solved? && Later(UnifyVariable(st, l, r).state.subst, f)
    ensures Met(f, Resolve(f, l, {}), r, [], []) && Alike(f, l, r)
  {
    assert Resolve(f, l, {}) == Resolve(f, r, {});
    MetSame(f, r, [], st.rigid);
  }

  /** What a solved equation leaves under any later solutions: the sides meet, and they are alike
      exactly when no opened binder escapes. */
  ghost predicate Exactly(f: Subst, left: Kind, right: Kind, confined: bool)
    requires Acyclic(f)
  {
    Met(f, Resolve(f, left, {}), right, [], []) && (Alike(f, left, right) <==> confined)
  }

  lemma {:induction false} SoundUnder(f: Subst, st: State, left: Kind, right: Kind)
    requires WellFormed(st) && BindersRigid(left, st.rigid) && BindersRigid(right, st.rigid)
    requires Unify(st, left, right).Solved? && Final(f, st.rigid) && Later(Unify(st, left, right).state.subst, f)
    ensures Exactly(f, left, right, NoEscape(f, st, left, right))
    decreases |Flexible(st, left, right)|, Work(st, left, right), 2
  {
    var l, r := Resolve(st.subst, left, {}), Resolve(st.subst, right, {});
    SidesMeet(f, st, left, right);
    if l.Variable? || r.Variable? {
      VariableAlike(f, st, l, r);
    } else if l.Node? {
      NodesSound(f, st, left, right, l, r);
    } else if l.ForAll? {
      QuantifiersOpen(f, st, left, right, l, r);
      BodiesSound(f, st, left, right, l.binder, l.body, r.binder, r.body);
    }
    ResolvedExactly(f, st, left, right, NoEscape(f, st, left, right));
  }

  lemma {:induction false} NodesSound(f: Subst, st: State, left: Kind, right: Kind, l: Kind, r: Kind)
    requires WellFormed(st) && BindersRigid(left, st.rigid) && BindersRigid(right, st.rigid)
    requires Unify(st, left, right).Solved? && Final(f, st.rigid) && Later(Unify(st, left, right).state.subst, f)
    requires l == Resolve(st.subst, left, {}) && r == Resolve(st.subst, right, {})
    requires l.Node? && r.Node? && l.shape == r.shape
    ensures Exactly(f, l, r, NoEscape(f, st, left, right))
    decreases |Flexible(st, left, right)|, Work(st, left, right), 1
  {
    NodesMeet(f, st, left, right);
    BothSound(f, st, left, right, l.left, r.left, l.right, r.right);
  }

  lemma {:induction false} SidesMeet(f: Subst, st: State, left: Kind, right: Kind)
    requires WellFormed(st) && BindersRigid(left, st.rigid) && BindersRigid(right, st.rigid)
    requires Unify(st, left, right).Solved? && Acyclic(f)
    ensures var l, r := Resolve(st.subst, left, {}), Resolve(st.subst, right, {});
            && Part(st, l, FV(l)) && Part(st, r, FV(r))
            && (l.Variable? || r.Variable? ==>
                  Unify(st, left, right) == UnifyVariable(st, l, r) && NoEscape(f, st, left, right))
            && (!l.Variable? && !r.Variable? ==>
                  && (l.Node? ==> r.Node? && l.shape == r.shape) && (l.ForAll? ==> r.ForAll?)
                  && (l.Constant? ==> l == r && NoEscape(f, st, left, right)))
  {
    ResolvedSides(st, left, right);
  }

  lemma {:induction false} NodesMeet(f: Subst, st: State, left: Kind, right: Kind)
    requires WellFormed(st) && BindersRigid(left, st.rigid) && BindersRigid(right, st.rigid) && Acyclic(f)
    requires var l, r := Resolve(st.subst, left, {}), Resolve(st.subst, right, {});
             l.Node? && r.Node? && l.shape == r.shape
    ensures var l, r := Resolve(st.subst, left, {}), Resolve(st.subst, right, {});
            && Components(st, left, right, l.left, r.left, l.right, r.right)
            && Unify(st, left, right) == UnifyBoth(st, left, right, l.left, r.left, l.right, r.right)
            && NoEscape(f, st, left, right) == NoEscapeBoth(f, st, left, right, l.left, r.left, l.right, r.right)
  {
    ResolvedSides(st, left, right);
  }

  lemma {:induction false} QuantifiersOpen(f: Subst, st: State, left: Kind, right: Kind, l: Kind, r: Kind)
    requires WellFormed(st) && BindersRigid(left, st.rigid) && BindersRigid(right, st.rigid) && Acyclic(f)
    requires l == Resolve(st.subst, left, {}) && r == Resolve(st.subst, right, {}) && l.ForAll? && r.ForAll?
    ensures Bodies(st, left, right, l.body, Substitute(r.body, map[r.binder := Variable(l.binder)]))
    ensures Unify(st, left, right)
            == UnifyBodies(st, left, right, l.body, Substitute(r.body, map[r.binder := Variable(l.binder)]))
    ensures NoEscape(f, st, left, right)
            == NoEscapeBodies(f, st, left, right, l.binder, l.body, r.binder, r.body)
    ensures BindersRigid(l, st.rigid) && BindersRigid(r, st.rigid)
  {
    OpenedBodies(st, left, right);
    ResolveBinders(st.subst, left, {}, st.rigid);
    ResolveBinders(st.subst, right, {}, st.rigid);
  }

  /** Resolving both sides beforehand makes no difference. */
  lemma {:induction false} ResolvedExactly(f: Subst, st: State, left: Kind, right: Kind, confined: bool)
    requires WellFormed(st) && BindersRigid(left, st.rigid) && BindersRigid(right, st.rigid)
    requires Final(f, st.rigid) && Later(st.subst, f)
    requires Exactly(f, Resolve(st.subst, left, {}), Resolve(st.subst, right, {}), confined)
    ensures Exactly(f, left, right, confined)
  {
    ResolveThrough(st.subst, f, left, {});
    ResolveThrough(st.subst, f, right, {});
    MetBefore(st.subst, f, Resolve(f, left, {}), right, [], [], st.rigid);
  }

  lemma {:induction false} BothSound(f: Subst, st: State, left: Kind, right: Kind, l1: Kind, r1: Kind, l2: Kind,
                                     r2: Kind)
    requires WellFormed(st) && Components(st, left, right, l1, r1, l2, r2) && Final(f, st.rigid)
    requires UnifyBoth(st, left, right, l1, r1, l2, r2).Solved?
    requires Later(UnifyBoth(st, left, right, l1, r1, l2, r2).state.subst, f)
    ensures Met(f, Resolve(f, l1, {}), r1, [], []) && Met(f, Resolve(f, l2, {}), r2, [], [])
    ensures Alike(f, l1, r1) && Alike(f, l2, r2) <==> NoEscapeBoth(f, st, left, right, l1, r1, l2, r2)
    decreases |Flexible(st, left, right)|, Work(st, left, right), 0
  {
    FirstHalfSmaller(st, left, right, l1, r1, l2, r2);
    var first := Unify(st, l1, r1);
    SecondHalfSmaller(st, first.state, l2, r2, World(st.subst, left, right));
    HalvesMeet(st, left, right, l1, r1, l2, r2);
    HalvesConfined(f, st, left, right, l1, r1, l2, r2);
    SoundUnder(f, first.state, l2, r2);
    SoundUnder(f, st, l1, r1);
  }

  ghost predicate InTurn(st: State, l1: Kind, r1: Kind, l2: Kind, r2: Kind, o: Outcome)
    requires WellFormed(st) && BindersRigid(l1, st.rigid) && BindersRigid(r1, st.rigid)
    requires BindersRigid(l2, st.rigid) && BindersRigid(r2, st.rigid)
  {
    var first := Unify(st, l1, r1);
    o == if first.Failed? then first else Unify(first.state, l2, r2)
  }

  lemma {:induction false} HalvesMeet(st: State, left: Kind, right: Kind, l1: Kind, r1: Kind, l2: Kind, r2: Kind)
    requires WellFormed(st) && Components(st, left, right, l1, r1, l2, r2)
    ensures InTurn(st, l1, r1, l2, r2, UnifyBoth(st, left, right, l1, r1, l2, r2))
  {
  }

  ghost predicate BothConfined(f: Subst, st: State, l1: Kind, r1: Kind, l2: Kind, r2: Kind)
    requires WellFormed(st) && BindersRigid(l1, st.rigid) && BindersRigid(r1, st.rigid)
    requires BindersRigid(l2, st.rigid) && BindersRigid(r2, st.rigid) && Acyclic(f)
  {
    NoEscape(f, st, l1, r1) && NoEscape(f, Unify(st, l1, r1).state, l2, r2)
  }

  lemma {:induction false} HalvesConfined(f: Subst, st: State, left: Kind, right: Kind, l1: Kind, r1: Kind, l2: Kind,
                                          r2: Kind)
    requires WellFormed(st) && Components(st, left, right, l1, r1, l2, r2) && Acyclic(f)
    ensures NoEscapeBoth(f, st, left, right, l1, r1, l2, r2) <==> BothConfined(f, st, l1, r1, l2, r2)
  {
  }

  lemma {:induction false} BodiesSound(f: Subst, st: State, left: Kind, right: Kind, x: nat, e1: Kind, y: nat, e2: Kind)
    requires WellFormed(st) && Bodies(st, left, right, e1, Substitute(e2, map[y := Variable(x)])) && Final(f, st.rigid)
    requires BindersRigid(ForAll(x, e1), st.rigid) && BindersRigid(ForAll(y, e2), st.rigid)
    requires var o := UnifyBodies(st, left, right, e1, Substitute(e2, map[y := Variable(x)]));
             o.Solved? && Later(o.state.subst, f)
    ensures Exactly(f, ForAll(x, e1), ForAll(y, e2), NoEscapeBodies(f, st, left, right, x, e1, y, e2))
    decreases |Flexible(st, left, right)|, Work(st, left, right), 0
  {
    SoundUnder(f, st, e1, Substitute(e2, map[y := Variable(x)]));
    BodiesAlike(f, x, e1, y, e2, st.rigid);
  }

  /** After success both sides resolve to alpha-equivalent kinds exactly when no opened binder escapes. */
  lemma {:induction false} UnifySoundUnderQuantifiers(st: State, left: Kind, right: Kind)
    requires WellFormed(st) && BindersRigid(left, st.rigid) && BindersRigid(right, st.rigid)
    requires Unify(st, left, right).Solved?
    ensures var s' := Unify(st, left, right).state.subst;
            Alike(s', left, right) <==> NoEscape(s', st, left, right)
  {
    SoundUnder(Unify(st, left, right).state.subst, st, left, right);
  }

  // ----- Where a binder escapes -----

  /** The body of the right side is a flexible variable: it is solved with the binder of the left side,
      which the right quantifier does not bind. */
  lemma {:induction false} BinderEscapes(st: State)
    requires st == State(map[], 4, {1, 2}) && WellFormed(st)
    ensures var o := Unify(st, ForAll(1, Variable(1)), ForAll(2, Variable(3)));
            o.Solved? && !Alike(o.state.subst, ForAll(1, Variable(1)), ForAll(2, Variable(3)))
  {
    UnifyEscapes(st, ForAll(1, Variable(1)), ForAll(2, Variable(3)));
    NotAlike(Unify(st, ForAll(1, Variable(1)), ForAll(2, Variable(3))).state.subst);
  }

  lemma {:induction false} UnifyEscapes(st: State, left: Kind, right: Kind)
    requires st == State(map[], 4, {1, 2}) && WellFormed(st) && left == ForAll(1, Variable(1))
             && right == ForAll(2, Variable(3))
    ensures Unify(st, left, right) == Solved(st.(subst := map[3 := Variable(1)]))
  {
    SettledFixed(st.subst, left, {});
    SettledFixed(st.subst, right, {});
    QuantifiersOpen(st.subst, st, left, right, left, right);
    assert Substitute(Variable(3), map[2 := Variable(1)]) == Variable(3);
    BodyEscapes(st, left, right);
  }

  lemma {:induction false} NotAlike(f: Subst)
    requires f == map[3 := Variable(1)] && Acyclic(f)
    ensures !Alike(f, ForAll(1, Variable(1)), ForAll(2, Variable(3)))
  {
    assert {} + {1} == {1} && {} + {2} == {2};
    assert Resolve(f, Variable(1), {1}) == Variable(1);
    assert Resolve(f, Variable(3), {2}) == Variable(1) by { assert Resolve(f, Variable(1), {2}) == Variable(1); }
    assert [1] + [] == [1] && [2] + [] == [2];
    assert ToNameless(Variable(1), [1]) == NBound(0) && ToNameless(Variable(1), [2]) == NFree(1);
  }

  lemma {:induction false} BodyEscapes(st: State, left: Kind, right: Kind)
    requires st == State(map[], 4, {1, 2}) && WellFormed(st) && Bodies(st, left, right, Variable(1), Variable(3))
    ensures UnifyBodies(st, left, right, Variable(1), Variable(3)) == Solved(st.(subst := map[3 := Variable(1)]))
  {
    assert Resolve(st.subst, Variable(1), {}) == Variable(1) && Resolve(st.subst, Variable(3), {}) == Variable(3);
    assert st.subst[3 := Variable(1)] == map[3 := Variable(1)];
  }
}
