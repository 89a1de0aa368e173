/** What unification means: most general unifiers on quantifier-free kinds, and what every run of
    the solver keeps (crates/psrs-kind/src/solve.rs).
 */
module KindTheory {
  import opened Lists
  import opened Kinds
  import opened KindSolver

  // ----- Assignments -----

  /** Simultaneous replacement of every variable. */
  ghost function Apply(a: nat -> Kind, k: Kind): Kind
    requires QuantifierFree(k)
  {
    match k
    case Constant(_) => k
    case Variable(x) => a(x)
    case Node(c, l, r) => Node(c, Apply(a, l), Apply(a, r))
  }

  ghost predicate QuantifierFreeSolutions(s: Subst) {
    forall x <- s :: QuantifierFree(s[x])
  }

  ghost predicate Satisfies(a: nat -> Kind, s: Subst)
    requires QuantifierFreeSolutions(s)
  {
    forall x <- s :: a(x) == Apply(a, s[x])
  }

  ghost predicate FixesRigid(a: nat -> Kind, rigid: set<nat>) {
    forall x <- rigid :: a(x) == Variable(x)
  }

  /** `a` solves the equation under everything `st` has already solved. */
  ghost predicate Unifier(a: nat -> Kind, st: State, left: Kind, right: Kind)
    requires QuantifierFreeSolutions(st.subst) && QuantifierFree(left) && QuantifierFree(right)
  {
    Satisfies(a, st.subst) && FixesRigid(a, st.rigid) && Apply(a, left) == Apply(a, right)
  }

  lemma {:induction false} ApplyResolve(a: nat -> Kind, s: Subst, k: Kind)
    requires Acyclic(s) && QuantifierFreeSolutions(s) && QuantifierFree(k)
    ensures QuantifierFree(Resolve(s, k, {}))
    ensures Satisfies(a, s) ==> Apply(a, Resolve(s, k, {})) == Apply(a, k)
    decreases Depth(s, k, {}), k
  {
    match k
    case Constant(_) =>
    case Variable(x) =>
      if x in s {
        DepthFollow(s, x, {});
        ApplyResolve(a, s, s[x]);
      }
    case Node(_, l, r) =>
      DepthMonotone(s, k, {}, l, {}); DepthMonotone(s, k, {}, r, {});
      ApplyResolve(a, s, l);
      ApplyResolve(a, s, r);
  }

  /** A variable can never equal a larger kind that mentions it. */
  lemma {:induction false} ApplyGrows(a: nat -> Kind, x: nat, k: Kind)
    requires QuantifierFree(k) && x in FV(k)
    ensures Size(Apply(a, k)) >= Size(a(x)) + Size(k)
  {
    match k
    case Node(_, l, r) => if x in FV(l) { ApplyGrows(a, x, l); ApplySize(a, r); } else { ApplyGrows(a, x,
        r); ApplySize(a, l); }
    case _ =>
  }

  lemma {:induction false} ApplySize(a: nat -> Kind, k: Kind)
    requires QuantifierFree(k)
    ensures Size(Apply(a, k)) >= Size(k)
  {
    match k
    case Node(_, l, r) => ApplySize(a, l); ApplySize(a, r);
    case _ =>
  }

  // ----- Completeness and most generality -----

  lemma {:induction false} BoundComplete(a: nat -> Kind, st: State, x: nat, k: Kind)
    requires WellFormed(st) && x !in st.subst && x !in st.rigid
    requires Settled(st.subst, k, {}) && BindersRigid(k, st.rigid)
    requires QuantifierFreeSolutions(st.subst) && QuantifierFree(k) && k != Variable(x)
    ensures QuantifierFreeSolutions(Bound(st, x, k).state.subst)
    ensures Satisfies(a, st.subst) && a(x) == Apply(a, k) ==>
              Bound(st, x, k).Solved? && Satisfies(a, Bound(st, x, k).state.subst)
  {
    if x in FV(k) {
      ApplyGrows(a, x, k);
    }
  }

  lemma {:induction false} VariableComplete(a: nat -> Kind, st: State, l: Kind, r: Kind)
    requires WellFormed(st) && (l.Variable? || r.Variable?)
    requires Part(st, l, FV(l)) && Part(st, r, FV(r))
    requires QuantifierFreeSolutions(st.subst) && QuantifierFree(l) && QuantifierFree(r)
    ensures QuantifierFreeSolutions(UnifyVariable(st, l, r).state.subst)
    ensures Unifier(a, st, l, r) ==>
              UnifyVariable(st, l, r).Solved? && Satisfies(a, UnifyVariable(st, l, r).state.subst)
  {
    if l.Variable? && l.id !in st.rigid && l != r {
      BoundComplete(a, st, l.id, r);
    } else if r.Variable? && r.id !in st.rigid && l != r {
      BoundComplete(a, st, r.id, l);
    }
  }

  /** Whenever some assignment solves the equation, unification succeeds, and that assignment
      satisfies every solution it makes. */
  lemma {:induction false} UnifyComplete(a: nat -> Kind, st: State, left: Kind, right: Kind)
    requires WellFormed(st) && BindersRigid(left, st.rigid) && BindersRigid(right, st.rigid)
    requires QuantifierFreeSolutions(st.subst) && QuantifierFree(left) && QuantifierFree(right)
    ensures QuantifierFreeSolutions(Unify(st, left, right).state.subst)
    ensures Unifier(a, st, left, right) ==>
              Unify(st, left, right).Solved? && Satisfies(a, Unify(st, left, right).state.subst)
    decreases |Flexible(st, left, right)|, Work(st, left, right), 1
  {
    var l, r := Resolve(st.subst, left, {}), Resolve(st.subst, right, {});
    ApplyResolve(a, st.subst, left);
    ApplyResolve(a, st.subst, right);
    ResolvedSides(st, left, right);
    if l.Variable? || r.Variable? {
      VariableComplete(a, st, l, r);
    } else if l.Node? && r.Node? && l.shape == r.shape {
      BothComplete(a, st, left, right, l.left, r.left, l.right, r.right);
    }
  }

  lemma {:induction false} BothComplete(a: nat -> Kind, st: State, left: Kind, right: Kind, l1: Kind, r1: Kind,
                                        l2: Kind, r2: Kind)
    requires WellFormed(st) && Components(st, left, right, l1, r1, l2, r2) && QuantifierFreeSolutions(st.subst)
    requires QuantifierFree(l1) && QuantifierFree(r1) && QuantifierFree(l2) && QuantifierFree(r2)
    ensures QuantifierFreeSolutions(UnifyBoth(st, left, right, l1, r1, l2, r2).state.subst)
    ensures Unifier(a, st, l1, r1) && Unifier(a, st, l2, r2) ==>
              UnifyBoth(st, left, right, l1, r1, l2, r2).Solved?
                  && Satisfies(a, UnifyBoth(st, left, right, l1, r1, l2, r2).state.subst)
    decreases |Flexible(st, left, right)|, Work(st, left, right), 0
  {
    FirstHalfSmaller(st, left, right, l1, r1, l2, r2);
    UnifyComplete(a, st, l1, r1);
    var first := Unify(st, l1, r1);
    if first.Solved? {
      SecondHalfSmaller(st, first.state, l2, r2, World(st.subst, left, right));
      UnifyComplete(a, first.state, l2, r2);
    }
  }

  // ----- Soundness -----

  lemma {:induction false} ResolveThrough(s: Subst, s': Subst, k: Kind)
    requires Acyclic(s) && Acyclic(s') && QuantifierFreeSolutions(s) && QuantifierFree(k)
    requires s.Keys <= s'.Keys && forall x <- s :: s'[x] == s[x]
    ensures Resolve(s', Resolve(s, k, {}), {}) == Resolve(s', k, {})
    decreases Depth(s, k, {}), k
  {
    match k
    case Constant(_) =>
    case Variable(x) =>
      if x in s {
        DepthFollow(s, x, {});
        ResolveThrough(s, s', s[x]);
      }
    case Node(_, l, r) =>
      DepthMonotone(s, k, {}, l, {}); DepthMonotone(s, k, {}, r, {});
      ResolveThrough(s, s', l);
      ResolveThrough(s, s', r);
  }

  /** After success both sides resolve to the same kind. */
  lemma {:induction false} UnifySound(st: State, left: Kind, right: Kind)
    requires WellFormed(st) && BindersRigid(left, st.rigid) && BindersRigid(right, st.rigid)
    requires QuantifierFreeSolutions(st.subst) && QuantifierFree(left) && QuantifierFree(right)
    requires Unify(st, left, right).Solved?
    ensures var s' := Unify(st, left, right).state.subst; Resolve(s', left, {}) == Resolve(s', right, {})
    decreases |Flexible(st, left, right)|, Work(st, left, right)
  {
    var s, s' := st.subst, Unify(st, left, right).state.subst;
    var l, r := Resolve(s, left, {}), Resolve(s, right, {});
    ResolvedSides(st, left, right);
    ApplyResolve(Identity(), s, left);
    ApplyResolve(Identity(), s, right);
    ResolveThrough(s, s', left);
    ResolveThrough(s, s', right);
    if l.Variable? || r.Variable? {
      BoundSound(st, l, r);
    } else if l.Node? {
      FirstHalfSmaller(st, left, right, l.left, r.left, l.right, r.right);
      UnifySound(st, l.left, r.left);
      UnifyComplete(Identity(), st, l.left, r.left);
      var st1 := Unify(st, l.left, r.left).state;
      SecondHalfSmaller(st, st1, l.right, r.right, World(s, left, right));
      UnifySound(st1, l.right, r.right);
      ResolveThrough(st1.subst, s', l.left);
      ResolveThrough(st1.subst, s', r.left);
    }
  }

  ghost function Identity(): nat -> Kind {
    (x: nat) => Variable(x)
  }

  lemma {:induction false} BoundSound(st: State, l: Kind, r: Kind)
    requires WellFormed(st) && (l.Variable? || r.Variable?)
    requires Part(st, l, FV(l)) && Part(st, r, FV(r))
    requires UnifyVariable(st, l, r).Solved?
    ensures var s' := UnifyVariable(st, l, r).state.subst; Resolve(s', l, {}) == Resolve(s', r, {})
  {
  }

  /** The solutions themselves, read as an assignment. */
  ghost function Reading(s: Subst): nat -> Kind
    requires Acyclic(s)
  {
    (x: nat) => Resolve(s, Variable(x), {})
  }

  lemma {:induction false} ReadingIsResolve(s: Subst, k: Kind)
    requires Acyclic(s) && QuantifierFree(k)
    ensures Apply(Reading(s), k) == Resolve(s, k, {})
  {
    match k
    case Node(_, l, r) => ReadingIsResolve(s, l); ReadingIsResolve(s, r);
    case _ =>
  }

  /** Unification decides solvability, and its solutions are most general: every assignment that
      solves the equation factors through them. */
  lemma {:induction false} UnifyMostGeneral(st: State, left: Kind, right: Kind)
    requires WellFormed(st) && BindersRigid(left, st.rigid) && BindersRigid(right, st.rigid)
    requires QuantifierFreeSolutions(st.subst) && QuantifierFree(left) && QuantifierFree(right)
    ensures Unify(st, left, right).Solved? <==> exists a: nat -> Kind :: Unifier(a, st, left, right)
    ensures var o := Unify(st, left, right);
            o.Solved? ==>
              && Unifier(Reading(o.state.subst), st, left, right)
              && forall a: nat -> Kind, k :: Unifier(a, st, left, right) && QuantifierFree(k) ==>
                   QuantifierFree(Resolve(o.state.subst, k, {}))
                       && Apply(a, Resolve(o.state.subst, k, {})) == Apply(a, k)
  {
    var o := Unify(st, left, right);
    UnifyComplete(Identity(), st, left, right);
    if o.Solved? {
      var s' := o.state.subst;
      var a := Reading(s');
      UnifySound(st, left, right);
      ReadingIsResolve(s', left);
      ReadingIsResolve(s', right);
      forall x | x in st.subst
        ensures a(x) == Apply(a, st.subst[x])
      {
        ReadingIsResolve(s', st.subst[x]);
      }
      assert Unifier(a, st, left, right);
      forall a: nat -> Kind, k | Unifier(a, st, left, right) && QuantifierFree(k)
        ensures QuantifierFree(Resolve(s', k, {})) && Apply(a, Resolve(s', k, {})) == Apply(a, k)
      {
        UnifyComplete(a, st, left, right);
        ApplyResolve(a, s', k);
      }
    }
    forall a: nat -> Kind | Unifier(a, st, left, right)
      ensures o.Solved?
    {
      UnifyComplete(a, st, left, right);
    }
  }

  // ----- What a failure reports -----

  datatype Clash = Clash(left: Kind, right: Kind)

  /** The leftmost place where two kinds differ. */
  function FirstClash(l: Kind, r: Kind): Option<Clash> {
    if l.Node? && r.Node? && l.shape == r.shape then
      var first := FirstClash(l.left, r.left);
      if first.Some? then first else FirstClash(l.right, r.right)
    else if l == r then None
    else Some(Clash(l, r))
  }

  lemma {:induction false} NoClash(k: Kind)
    ensures FirstClash(k, k).None?
  {
    if k.Node? {
      NoClash(k.left);
      NoClash(k.right);
    }
  }

  predicate FlexibleVariable(k: Kind, rigid: set<nat>) {
    k.Variable? && k.id !in rigid
  }

  /** A variable that could be solved only with a kind that mentions it is an infinite kind; otherwise the two sides
      have different heads, none of them a variable that could be solved. */
  predicate Reports(c: Clash, rigid: set<nat>, error: KindError) {
    match error
    case InfiniteKind =>
      || (FlexibleVariable(c.left, rigid) && c.left.id in FV(c.right) && c.left != c.right)
      || (FlexibleVariable(c.right, rigid) && c.right.id in FV(c.left) && c.left != c.right)
    case KindsDoNotUnify =>
      && !FlexibleVariable(c.left, rigid) && !FlexibleVariable(c.right, rigid) && c.left != c.right
      && !(c.left.Node? && c.right.Node? && c.left.shape == c.right.shape)
  }

  /** A failing equation has been solved up to the leftmost place where its sides differ, and its error is the one
      of that place. */
  ghost predicate FailsAt(s: Subst, left: Kind, right: Kind, rigid: set<nat>, error: KindError)
    requires Acyclic(s)
  {
    var clash := FirstClash(Resolve(s, left, {}), Resolve(s, right, {}));
    clash.Some? && Reports(clash.value, rigid, error)
  }

  lemma {:induction false} UnifyFails(st: State, left: Kind, right: Kind)
    requires WellFormed(st) && BindersRigid(left, st.rigid) && BindersRigid(right, st.rigid)
    requires QuantifierFreeSolutions(st.subst) && QuantifierFree(left) && QuantifierFree(right)
    requires Unify(st, left, right).Failed?
    ensures var o := Unify(st, left, right); FailsAt(o.state.subst, left, right, st.rigid, o.error)
    decreases |Flexible(st, left, right)|, Work(st, left, right), 1
  {
    var l, r := Resolve(st.subst, left, {}), Resolve(st.subst, right, {});
    ApplyResolve(Identity(), st.subst, left);
    ApplyResolve(Identity(), st.subst, right);
    if l.Node? && r.Node? && l.shape == r.shape {
      NodesUnify(st, left, right, l, r);
      BothFails(st, left, right, l.left, r.left, l.right, r.right);
      NodesFail(st, left, right, l, r, Unify(st, left, right).state.subst, Unify(st, left, right).error);
    } else {
      LeafFails(st, left, right, l, r);
    }
  }

  lemma {:induction false} NodesUnify(st: State, left: Kind, right: Kind, l: Kind, r: Kind)
    requires WellFormed(st) && BindersRigid(left, st.rigid) && BindersRigid(right, st.rigid)
    requires l == Resolve(st.subst, left, {}) && r == Resolve(st.subst, right, {})
    requires l.Node? && r.Node? && l.shape == r.shape
    ensures Components(st, left, right, l.left, r.left, l.right, r.right)
    ensures Unify(st, left, right) == UnifyBoth(st, left, right, l.left, r.left, l.right, r.right)
  {
    ResolvedSides(st, left, right);
  }

  ghost predicate HalfFails(s: Subst, l: Kind, r: Kind, rigid: set<nat>, error: KindError)
    requires Acyclic(s) && l.Node? && r.Node?
  {
    FailsAt(s, l.left, r.left, rigid, error)
    || (Resolve(s, l.left, {}) == Resolve(s, r.left, {}) && FailsAt(s, l.right, r.right, rigid, error))
  }

  lemma {:induction false} NodesFail(st: State, left: Kind, right: Kind, l: Kind, r: Kind, s': Subst, error: KindError)
    requires Acyclic(st.subst) && Acyclic(s') && QuantifierFreeSolutions(st.subst)
    requires QuantifierFree(left) && QuantifierFree(right)
    requires st.subst.Keys <= s'.Keys && forall x <- st.subst :: s'[x] == st.subst[x]
    requires l == Resolve(st.subst, left, {}) && r == Resolve(st.subst, right, {})
    requires l.Node? && r.Node? && l.shape == r.shape && HalfFails(s', l, r, st.rigid, error)
    ensures FailsAt(s', left, right, st.rigid, error)
  {
    ResolveThrough(st.subst, s', left);
    ResolveThrough(st.subst, s', right);
    NoClash(Resolve(s', l.left, {}));
  }

  lemma {:induction false} LeafFails(st: State, left: Kind, right: Kind, l: Kind, r: Kind)
    requires WellFormed(st) && BindersRigid(left, st.rigid) && BindersRigid(right, st.rigid)
    requires l == Resolve(st.subst, left, {}) && r == Resolve(st.subst, right, {})
    requires QuantifierFree(l) && QuantifierFree(r) && !(l.Node? && r.Node? && l.shape == r.shape)
    requires Unify(st, left, right).Failed?
    ensures Unify(st, left, right).state == st && FailsAt(st.subst, left, right, st.rigid, Unify(st, left, right).error)
  {
    ResolvedSides(st, left, right);
  }

  lemma {:induction false} BothFails(st: State, left: Kind, right: Kind, l1: Kind, r1: Kind, l2: Kind, r2: Kind)
    requires WellFormed(st) && Components(st, left, right, l1, r1, l2, r2) && QuantifierFreeSolutions(st.subst)
    requires QuantifierFree(l1) && QuantifierFree(r1) && QuantifierFree(l2) && QuantifierFree(r2)
    requires UnifyBoth(st, left, right, l1, r1, l2, r2).Failed?
    ensures var o := UnifyBoth(st, left, right, l1, r1, l2, r2);
            var s' := o.state.subst;
            FailsAt(s', l1, r1, st.rigid, o.error)
            || (Resolve(s', l1, {}) == Resolve(s', r1, {}) && FailsAt(s', l2, r2, st.rigid, o.error))
    decreases |Flexible(st, left, right)|, Work(st, left, right), 0
  {
    FirstHalfSmaller(st, left, right, l1, r1, l2, r2);
    var first := Unify(st, l1, r1);
    if first.Failed? {
      UnifyFails(st, l1, r1);
    } else {
      SecondHalfSmaller(st, first.state, l2, r2, World(st.subst, left, right));
      UnifyComplete(Identity(), st, l1, r1);
      UnifyFails(first.state, l2, r2);
      UnifySound(st, l1, r1);
      var s' := Unify(first.state, l2, r2).state.subst;
      ResolveThrough(first.state.subst, s', l1);
      ResolveThrough(first.state.subst, s', r1);
    }
  }

  // ----- Every run of the solver -----

  datatype Step = Fresh | MakeRigid(variable: nat) | Equate(left: Kind, right: Kind)

  /** What a client owes: a variable is made rigid before anything solves it, and the quantifiers
      inside an equation bind rigid variables. */
  ghost predicate Allowed(st: State, step: Step) {
    match step
    case Fresh => true
    case MakeRigid(x) => x !in st.subst
    case Equate(l, r) => BindersRigid(l, st.rigid) && BindersRigid(r, st.rigid)
  }

  ghost function After(st: State, step: Step): State
    requires WellFormed(st) && Allowed(st, step)
  {
    match step
    case Fresh => st.(next := st.next + 1)
    case MakeRigid(x) => st.(rigid := st.rigid + {x})
    case Equate(l, r) => Unify(st, l, r).state
  }

  ghost predicate Run(st: State, steps: seq<Step>, end: State)
    decreases |steps|
  {
    if steps == [] then end == st
    else WellFormed(st) && Allowed(st, steps[0]) && Run(After(st, steps[0]), steps[1..], end)
  }

  lemma {:induction false} StepKeeps(st: State, step: Step)
    requires WellFormed(st) && Allowed(st, step)
    ensures WellFormed(After(st, step))
    ensures st.rigid <= After(st, step).rigid && st.next <= After(st, step).next
    ensures st.subst.Keys <= After(st, step).subst.Keys
    ensures forall x <- st.subst :: After(st, step).subst[x] == st.subst[x]
  {
  }

  /** After any run, even one with failing equations: solutions are acyclic, so resolution
      terminates, is idempotent and leaves no solved variable; no variable that was ever rigid is
      solved; and every earlier solution is still there. */
  lemma {:induction false} RunKeeps(st: State, steps: seq<Step>, end: State)
    requires WellFormed(st) && Run(st, steps, end)
    ensures WellFormed(end)
    ensures st.rigid <= end.rigid && end.subst.Keys !! st.rigid && st.next <= end.next
    ensures st.subst.Keys <= end.subst.Keys && forall x <- st.subst :: end.subst[x] == st.subst[x]
    ensures forall k :: Settled(end.subst, Resolve(end.subst, k, {}), {})
                        && Resolve(end.subst, Resolve(end.subst, k, {}), {}) == Resolve(end.subst, k, {})
    decreases |steps|
  {
    if steps == [] {
      forall k
        ensures Settled(end.subst, Resolve(end.subst, k, {}), {})
                && Resolve(end.subst, Resolve(end.subst, k, {}), {}) == Resolve(end.subst, k, {})
      {
        ResolveSettles(end.subst, k, {});
        ResolveIdempotent(end.subst, k, {});
      }
    } else {
      StepKeeps(st, steps[0]);
      RunKeeps(After(st, steps[0]), steps[1..], end);
    }
  }

  /** A solver starts with nothing solved. */
  lemma {:induction false} StartWellFormed(next: nat)
    ensures WellFormed(State(map[], next, {}))
  {
    var rank := (x: nat) => x;
    assert RankedBy(map[], rank);
  }

  /** Every run from a new solver ends well formed, with none of its rigid variables solved. */
  lemma {:induction false} StartKeeps(next: nat, steps: seq<Step>, end: State)
    requires Run(State(map[], next, {}), steps, end)
    ensures WellFormed(end) && end.subst.Keys !! end.rigid && next <= end.next
  {
    StartWellFormed(next);
    RunKeeps(State(map[], next, {}), steps, end);
  }
}
