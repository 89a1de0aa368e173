/** The mutable kind solver (crates/psrs-kind/src/solve.rs), each method proved against the
    functions of `KindSolver`.
 */
module KindStateClass {
  import opened Kinds
  import opened KindSolver
  import opened KindClosed

  class KindState {
    var substitution: Subst
    var nextVariable: nat
    var rigid: set<nat>

    ghost function View(): State
      reads this
    {
      State(substitution, nextVariable, rigid)
    }

    ghost predicate Valid()
      reads this
    {
      WellFormed(View())
    }

    constructor StartingAt(next: nat)
      ensures Valid() && View() == State(map[], next, {})
    {
      substitution, nextVariable, rigid := map[], next, {};
      new;
      var rank := (x: nat) => x;
      assert RankedBy(substitution, rank);
    }

    method Fresh() returns (k: Kind)
      modifies this`nextVariable
      ensures k == Variable(old(nextVariable)) && nextVariable == old(nextVariable) + 1
      ensures old(Valid()) ==> Valid()
    {
      k := Variable(nextVariable);
      nextVariable := nextVariable + 1;
    }

    method MakeRigid(x: nat)
      modifies this`rigid
      ensures rigid == old(rigid) + {x}
      ensures old(Valid()) && x !in substitution ==> Valid()
    {
      rigid := rigid + {x};
    }

    /** Walks the variable chain in place of recursion. */
    method ResolveHeadWith(kind: Kind, bound: set<nat>) returns (r: Kind)
      requires Acyclic(substitution)
      ensures r == ResolveHead(substitution, kind, bound)
    {
      r := kind;
      while r.Variable?
        invariant ResolveHead(substitution, r, bound) == ResolveHead(substitution, kind, bound)
        decreases Depth(substitution, r, bound), r.Variable?
      {
        if r.id in bound || r.id !in substitution {
          return;
        }
        DepthFollow(substitution, r.id, bound);
        r := substitution[r.id];
      }
    }

    method ResolveScoped(kind: Kind, bound: set<nat>) returns (r: Kind)
      requires Acyclic(substitution)
      ensures r == Resolve(substitution, kind, bound)
      decreases Depth(substitution, kind, bound), kind
    {
      ResolveViaHead(substitution, kind, bound);
      var head := ResolveHeadWith(kind, bound);
      match head {
        case Node(c, a, b) =>
          DepthMonotone(substitution, head, bound, a, bound);
          DepthMonotone(substitution, head, bound, b, bound);
          HeadSmaller(substitution, kind, bound);
          var a' := ResolveScoped(a, bound);
          var b' := ResolveScoped(b, bound);
          r := Node(c, a', b');
        case ForAll(x, e) =>
          DepthMonotone(substitution, head, bound, e, bound + {x});
          HeadSmaller(substitution, kind, bound);
          var e' := ResolveScoped(e, bound + {x});
          r := ForAll(x, e');
        case _ =>
          r := head;
      }
    }

    method Unify(left: Kind, right: Kind) returns (v: Verdict)
      requires Valid() && BindersRigid(left, rigid) && BindersRigid(right, rigid)
      modifies this`substitution
      ensures View() == KindSolver.Unify(old(View()), left, right).state && Valid()
      ensures v == VerdictOf(KindSolver.Unify(old(View()), left, right))
      decreases |Flexible(View(), left, right)|, Work(View(), left, right), 1
    {
      ghost var st := View();
      var l := ResolveScoped(left, {});
      var r := ResolveScoped(right, {});
      ResolvedSides(st, left, right);
      if l.Variable? || r.Variable? {
        v := UnifyVariable(l, r);
      } else {
        match (l, r) {
          case (Constant(a), Constant(b)) =>
            v := if a == b then Accepted else Rejected(KindsDoNotUnify);
          case (Node(c, a1, b1), Node(d, a2, b2)) =>
            if c != d {
              v := Rejected(KindsDoNotUnify);
            } else {
              v := UnifyBoth(left, right, a1, a2, b1, b2);
            }
          case (ForAll(x, e1), ForAll(y, e2)) =>
            OpenedBodies(st, left, right);
            v := UnifyBodies(left, right, e1, Substitute(e2, map[y := Variable(x)]));
          case _ =>
            v := Rejected(KindsDoNotUnify);
        }
      }
    }

    /** The rules for an equation with a variable on at least one side. */
    method UnifyVariable(l: Kind, r: Kind) returns (v: Verdict)
      requires Valid() && (l.Variable? || r.Variable?)
      requires Part(View(), l, FV(l)) && Part(View(), r, FV(r))
      modifies this`substitution
      ensures View() == KindSolver.UnifyVariable(old(View()), l, r).state && Valid()
      ensures v == VerdictOf(KindSolver.UnifyVariable(old(View()), l, r))
    {
      match (l, r) {
        case (Variable(a), Variable(b)) =>
          if a == b {
            v := Accepted;
          } else if a in rigid {
            if b in rigid { v := Rejected(KindsDoNotUnify); } else { v := BindKindVariable(b, l); }
          } else {
            v := BindKindVariable(a, r);
          }
        case (Variable(a), _) =>
          if a in rigid { v := Rejected(KindsDoNotUnify); } else { v := BindKindVariable(a, r); }
        case (_, Variable(b)) =>
          if b in rigid { v := Rejected(KindsDoNotUnify); } else { v := BindKindVariable(b, l); }
      }
    }

    /** The bodies of two quantifiers, opened with the same binder. */
    method UnifyBodies(ghost left: Kind, ghost right: Kind, e1: Kind, e2: Kind) returns (v: Verdict)
      requires Valid() && Bodies(View(), left, right, e1, e2)
      modifies this`substitution
      ensures View() == KindSolver.UnifyBodies(old(View()), left, right, e1, e2).state && Valid()
      ensures v == VerdictOf(KindSolver.UnifyBodies(old(View()), left, right, e1, e2))
      decreases |Flexible(View(), left, right)|, Work(View(), left, right), 0
    {
      v := Unify(e1, e2);
    }

    /** The rules for two nodes of one shape: left components, then right ones. */
    method UnifyBoth(ghost left: Kind, ghost right: Kind, l1: Kind, r1: Kind, l2: Kind, r2: Kind) returns (v: Verdict)
      requires Valid() && Components(View(), left, right, l1, r1, l2, r2)
      modifies this`substitution
      ensures View() == KindSolver.UnifyBoth(old(View()), left, right, l1, r1, l2, r2).state && Valid()
      ensures v == VerdictOf(KindSolver.UnifyBoth(old(View()), left, right, l1, r1, l2, r2))
      decreases |Flexible(View(), left, right)|, Work(View(), left, right), 0
    {
      ghost var st := View();
      FirstHalfSmaller(st, left, right, l1, r1, l2, r2);
      v := Unify(l1, r1);
      if v.Accepted? {
        SecondHalfSmaller(st, View(), l2, r2, World(st.subst, left, right));
        v := Unify(l2, r2);
      }
    }

    method BindKindVariable(x: nat, k: Kind) returns (v: Verdict)
      requires Valid() && x !in substitution && x !in rigid
      requires Settled(substitution, k, {}) && BindersRigid(k, rigid)
      modifies this`substitution
      ensures View() == Bound(old(View()), x, k).state && Valid()
      ensures v == VerdictOf(Bound(old(View()), x, k))
    {
      if Occurs(x, k) {
        v := Rejected(InfiniteKind);
      } else {
        v := Accepted;
        BindKeeps(View(), x, k);
        substitution := substitution[x := k];
      }
    }

    /** Resolves and closes a list jointly, sharing parameters across it. */
    method CloseKinds(kinds: seq<Kind>) returns (closed: ClosedKinds)
      requires Valid()
      ensures closed == KindClosed.CloseKinds(substitution, kinds) && Template(closed)
    {
      var renamer := new ClosingRenamer(this);
      var renamed := [];
      var i := 0;
      while i < |kinds|
        invariant 0 <= i <= |kinds| && renamer.solver == this && renamer.bound == map[]
        invariant fresh(renamer) && unchanged(this)
        invariant var rest := CloseAll(substitution, kinds[i..], renamer.parameters, renamer.next);
                  CloseAll(substitution, kinds, map[], 0) == rest.(kinds := renamed + rest.kinds)
      {
        assert kinds[i..][0] == kinds[i] && kinds[i..][1..] == kinds[i + 1..];
        var k := renamer.Rename(kinds[i]);
        renamed := renamed + [k];
        i := i + 1;
      }
      CloseKindsTemplate(substitution, kinds);
      closed := ClosedKinds(Ascending(renamer.parameters.Values, renamer.next), renamed);
    }

    /** Opens one fresh instance; nested quantifiers get fresh rigid binders. */
    method InstantiateClosedKinds(closed: ClosedKinds) returns (kinds: seq<Kind>)
      requires Valid() && Template(closed)
      modifies this`nextVariable, this`rigid
      ensures var instance := KindClosed.InstantiateClosedKinds(closed, old(nextVariable), old(rigid));
              kinds == instance.kinds && nextVariable == instance.next && rigid == instance.rigid
      ensures (forall x <- substitution :: x < old(nextVariable)) ==> Valid()
    {
      var renamer := new OpeningRenamer(this);
      var parameters := AllocateParameters(closed.parameters);
      renamer.parameters := parameters;
      FreshParametersInjective(closed.parameters, old(nextVariable));
      kinds := OpenEach(renamer, closed.kinds);
      OpenAllRenames(closed.kinds, parameters, old(nextVariable) + |closed.parameters|, old(rigid));
      if forall x <- substitution :: x < old(nextVariable) {
        assert forall x <- substitution :: x !in rigid - old(rigid);
        assert forall x <- substitution :: BindersRigid(substitution[x], old(rigid));
      }
    }

    method AllocateParameters(ids: seq<nat>) returns (parameters: map<nat, nat>)
      modifies this`nextVariable
      ensures parameters == FreshParameters(ids, old(nextVariable)) && nextVariable == old(nextVariable) + |ids|
    {
      parameters := map[];
      var i := 0;
      while i < |ids|
        invariant 0 <= i <= |ids| && nextVariable == old(nextVariable) + i
        invariant parameters == FreshParameters(ids[..i], old(nextVariable))
      {
        assert ids[..i + 1][..i] == ids[..i];
        var k := Fresh();
        parameters := parameters[ids[i] := k.id];
        i := i + 1;
      }
      assert ids[..i] == ids;
    }

    method OpenEach(renamer: OpeningRenamer, templates: seq<Kind>) returns (kinds: seq<Kind>)
      requires renamer.solver == this && renamer.bound == map[]
      requires forall i :: 0 <= i < |templates| ==> FV(templates[i]) <= renamer.parameters.Keys
      modifies renamer`bound, this`nextVariable, this`rigid
      ensures OpeningAll(kinds, nextVariable, rigid)
              == OpenAll(templates, renamer.parameters, old(nextVariable), old(rigid))
    {
      kinds := [];
      var i := 0;
      while i < |templates|
        invariant 0 <= i <= |templates| && renamer.bound == map[]
        invariant var rest := OpenAll(templates[i..], renamer.parameters, nextVariable, rigid);
                  OpenAll(templates, renamer.parameters, old(nextVariable), old(rigid))
                      == rest.(kinds := kinds + rest.kinds)
      {
        assert templates[i..][0] == templates[i] && templates[i..][1..] == templates[i + 1..];
        var k := renamer.Rename(templates[i]);
        kinds := kinds + [k];
        i := i + 1;
      }
    }
  }

  /** The traversal as closing instantiates it: it resolves through `solver` and numbers template
      variables itself. */
  class ClosingRenamer {
    const solver: KindState
    var parameters: map<nat, nat>
    var bound: map<nat, nat>
    var next: nat

    constructor (solver: KindState)
      ensures this.solver == solver && parameters == map[] && bound == map[] && next == 0
    {
      this.solver, parameters, bound, next := solver, map[], map[], 0;
    }

    method Rename(kind: Kind) returns (k: Kind)
      requires Acyclic(solver.substitution)
      modifies this
      ensures bound == old(bound)
      ensures Closing(k, parameters, next) == Close(solver.substitution, kind, old(parameters), old(bound), old(next))
      decreases Depth(solver.substitution, kind, bound.Keys), kind
    {
      match kind {
        case Constant(_) =>
          k := kind;
        case Variable(x) =>
          if x in bound {
            k := Variable(bound[x]);
          } else if x in parameters {
            k := Variable(parameters[x]);
          } else {
            var head := solver.ResolveHeadWith(kind, bound.Keys);
            if head != kind {
              HeadSmaller(solver.substitution, kind, bound.Keys);
              k := Rename(head);
            } else {
              parameters := parameters[x := next];
              k := Variable(next);
              next := next + 1;
            }
          }
        case ForAll(x, e) =>
          k := RenameForAll(x, e);
        case Node(c, a, b) =>
          DepthMonotone(solver.substitution, kind, bound.Keys, a, bound.Keys);
          DepthMonotone(solver.substitution, kind, bound.Keys, b, bound.Keys);
          var a' := Rename(a);
          var b' := Rename(b);
          k := Node(c, a', b');
      }
    }

    /** Enters the quantifier's scope in place and restores the shadowed entry afterwards. */
    method RenameForAll(x: nat, e: Kind) returns (k: Kind)
      requires Acyclic(solver.substitution)
      modifies this
      ensures bound == old(bound)
      ensures Closing(k, parameters, next)
              == Close(solver.substitution, ForAll(x, e), old(parameters), old(bound), old(next))
      decreases Depth(solver.substitution, ForAll(x, e), bound.Keys), ForAll(x, e), 0
    {
      DepthMonotone(solver.substitution, ForAll(x, e), bound.Keys, e, bound[x := next].Keys);
      var previous, id := bound, next;
      next := next + 1;
      bound := bound[x := id];
      var body := Rename(e);
      Restored(previous, x, id);
      bound := if x in previous then bound[x := previous[x]] else bound - {x};
      k := ForAll(id, body);
    }
  }

  lemma {:induction false} Restored(previous: map<nat, nat>, x: nat, id: nat)
    ensures var entered := previous[x := id];
            (if x in previous then entered[x := previous[x]] else entered - {x}) == previous
  {
  }

  /** The traversal as opening instantiates it: it allocates from `solver`, and quantifiers bind
      fresh rigid variables. */
  class OpeningRenamer {
    const solver: KindState
    var parameters: map<nat, nat>
    var bound: map<nat, nat>

    constructor (solver: KindState)
      ensures this.solver == solver && parameters == map[] && bound == map[]
    {
      this.solver, parameters, bound := solver, map[], map[];
    }

    method Rename(kind: Kind) returns (k: Kind)
      requires FV(kind) <= bound.Keys + parameters.Keys
      modifies this`bound, solver`nextVariable, solver`rigid
      ensures bound == old(bound)
      ensures Opening(k, solver.nextVariable, solver.rigid)
              == Open(kind, parameters, bound, old(solver.nextVariable), old(solver.rigid))
      decreases kind
    {
      match kind {
        case Constant(_) =>
          k := kind;
        case Variable(x) =>
          k := Variable(if x in bound then bound[x] else parameters[x]);
        case ForAll(x, e) =>
          FreeUnder(kind, parameters, bound, solver.nextVariable);
          var previous := bound;
          var id := solver.Fresh();
          solver.MakeRigid(id.id);
          bound := bound[x := id.id];
          var body := Rename(e);
          bound := if x in previous then bound[x := previous[x]] else bound - {x};
          assert bound == previous;
          k := ForAll(id.id, body);
        case Node(c, a, b) =>
          var a' := Rename(a);
          var b' := Rename(b);
          k := Node(c, a', b');
      }
    }
  }
}
