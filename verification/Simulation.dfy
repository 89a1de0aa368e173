/** A translation means the same as its source: for every fuel and trace the two evaluations have
    related outcomes and the same foreign calls.

    `SimRoots` and `SimFallen` are about the rows of a case, entered from the root case and from a
    fallthrough helper.
 */
module Simulation {
  import opened Lists
  import opened Hir
  import opened Alpha
  import opened Lowering
  import opened Translation
  import opened TranslationRenaming
  import opened HirSemantics
  import opened HirFuel
  import opened ValueRelation

  // ----- Failure continuations read only ids in scope -----

  ghost predicate AllIn(xs: List<Id>, k: set<Id>) {
    match xs
    case Nil => true
    case Cons(x, rest) => x in k && AllIn(rest, k)
  }

  ghost predicate FailureIn(f: Failure, k: set<Id>) {
    f.CallNext? ==> f.helpers.Cons? && AllIn(f.helpers, k)
  }

  lemma {:induction false} AllInMore(xs: List<Id>, k: set<Id>, k': set<Id>)
    requires AllIn(xs, k) && k <= k'
    ensures AllIn(xs, k')
  {
    match xs
    case Nil =>
    case Cons(_, rest) => AllInMore(rest, k, k');
  }

  lemma {:induction false} FailureInMore(f: Failure, k: set<Id>, k': set<Id>)
    requires FailureIn(f, k) && k <= k'
    ensures FailureIn(f, k')
  {
    if f.CallNext? { AllInMore(f.helpers, k, k'); }
  }

  lemma {:induction false} ApplyLocalsStable(q: Program, fuel: nat, e1: Env, e2: Env, f: Expr, xs: List<Id>, k: set<Id>,
                                             t: Trace)
    requires Agree(e1, e2, k) && AllIn(xs, k) && Eval(q, fuel, e1, f, t) == Eval(q, fuel, e2, f, t)
    ensures Eval(q, fuel, e1, ApplyLocals(f, xs), t) == Eval(q, fuel, e2, ApplyLocals(f, xs), t)
    decreases xs
  {
    match xs
    case Nil =>
    case Cons(x, rest) =>
      var r := Eval(q, fuel, e1, f, t);
      assert Eval(q, fuel, e1, Local(x), r.trace) == Eval(q, fuel, e2, Local(x), r.trace);
      assert Eval(q, fuel, e1, Apply(f, Local(x)), t) == Eval(q, fuel, e2, Apply(f, Local(x)), t);
      ApplyLocalsStable(q, fuel, e1, e2, Apply(f, Local(x)), rest, k, t);
  }

  lemma {:induction false} UnitValue(q: Program, fuel: nat, env: Env, t: Trace)
    ensures Eval(q, fuel, env, UNIT, t) == Result(Finished(Data(RecordTag([]), Nil)), t)
    ensures Eval(q, fuel, env, NO_MATCH, t) == Result(MatchFailure, t)
  {
    assert EvalParts(q, fuel, env, Nil, t) == Got(Nil, t);
    assert Eval(q, fuel, env, UNIT, t) == Result(Finished(Data(RecordTag([]), Nil)), t);
  }

  lemma {:induction false} CodeStable(q: Program, fuel: nat, e1: Env, e2: Env, f: Failure, k: set<Id>, t: Trace)
    requires Agree(e1, e2, k) && FailureIn(f, k)
    ensures Eval(q, fuel, e1, Code(f), t) == Eval(q, fuel, e2, Code(f), t)
  {
    match f
    case NoMatch => UnitValue(q, fuel, e1, t); UnitValue(q, fuel, e2, t);
    case CallNext(helpers) =>
      var first := Local(helpers.head);
      assert Eval(q, fuel, e1, first, t) == Eval(q, fuel, e2, first, t);
      ApplyLocalsStable(q, fuel, e1, e2, first, helpers.tail, k, t);
      var r := Eval(q, fuel, e1, ApplyLocals(first, helpers.tail), t);
      UnitValue(q, fuel, e1, r.trace);
      UnitValue(q, fuel, e2, r.trace);
  }

  /** What a right-hand side does: on failure the target continues with `f` in `env'`. */
  ghost predicate RhsRel(q: Program, fuel: nat, env': Env, f: Failure, r: Result, r': Result) {
    if r.outcome.Fell? then r' == Eval(q, fuel, env', Code(f), r.trace) else ResultRel(r, r')
  }

  lemma {:induction false} RhsOutward(q: Program, fuel: nat, env1: Env, env2: Env, f: Failure, k: set<Id>, r: Result,
                                      r': Result)
    requires RhsRel(q, fuel, env2, f, r, r') && Agree(env1, env2, k) && FailureIn(f, k)
    ensures RhsRel(q, fuel, env1, f, r, r')
  {
    CodeStable(q, fuel, env1, env2, f, k, r.trace);
  }

  lemma {:induction false} UnguardedRhs(p: Program, fuel: nat, env: Env, e: Expr, t: Trace)
    requires !IsGuardedRhs(e)
    ensures EvalRhs(p, fuel, env, e, t) == Eval(p, fuel, env, e, t)
    decreases e
  {
    match e
    case Let(bs, b) =>
      var g := EvalBindings(p, fuel, bs, bs, env, t);
      if g.Got? { UnguardedRhs(p, fuel, Scope(bs, g.value), b, g.trace); }
    case _ =>
  }

  // ----- Expressions -----

  lemma {:induction false} SimEval(p: Program, q: Program, fuel: nat, env: Env, env': Env, e: Expr, d: Expr,
                                   r: Renaming, k: set<Id>, t: Trace)
    requires Programs(p, q) && Tr(e, d, r, k) && EnvRel(env, env', r, k)
    ensures ResultRel(Eval(p, fuel, env, e, t), Eval(q, fuel, env', d, t))
    decreases fuel, Size(e), 1, 0
  {
    match e
    case Local(x) => assert SameLookup(env, env', x, r[x]);
    case Global(s) => SimGlobal(p, q, fuel, s, t);
    case Constant(_) =>
    case Compound(_, _) => SimCompound(p, q, fuel, env, env', e, d, r, k, t);
    case Apply(f, a) => SimApply(p, q, fuel, env, env', f, a, d, r, k, t);
    case Operator(_, _, _) => SimOperator(p, q, fuel, env, env', e, d, r, k, t);
    case Negate(f, a) => SimApply(p, q, fuel, env, env', f, a, d, r, k, t);
    case Lambda(_, _) => LambdaRel(e, d, env, env', r, k);
    case Let(_, _) => SimLet(p, q, fuel, env, env', e, d, r, k, t);
    case If(_, _, _) => SimIf(p, q, fuel, env, env', e, d, r, k, t);
    case Case(s, rows) =>
      if AnyGuarded(rows) { SimCase(p, q, fuel, env, env', s, rows, d, r, k, t); }
      else { SimPlainCase(p, q, fuel, env, env', s, rows, d, r, k, t); }
    case Guarded(cs) => SimGuarded(p, q, fuel, env, env', cs, d, r, k, t);
  }

  lemma {:induction false} SimGuarded(p: Program, q: Program, fuel: nat, env: Env, env': Env, cs: List<Clause>, d: Expr,
                                      r: Renaming, k: set<Id>, t: Trace)
    requires Programs(p, q) && TrClauses(cs, d, r, k, NoMatch) && EnvRel(env, env', r, k)
    ensures ResultRel(Eval(p, fuel, env, Guarded(cs), t), Eval(q, fuel, env', d, t))
    decreases fuel, SizeClauses(cs), 1, 0
  {
    SimClauses(p, q, fuel, env, env', cs, d, r, k, NoMatch, t);
    UnitValue(q, fuel, env', EvalClauses(p, fuel, env, cs, t).trace);
  }

  lemma {:induction false} SimApply(p: Program, q: Program, fuel: nat, env: Env, env': Env, f: Expr, a: Expr, d: Expr,
                                    r: Renaming, k: set<Id>, t: Trace)
    requires Programs(p, q) && EnvRel(env, env', r, k)
    requires d.Apply? && Tr(f, d.function_, r, k) && Tr(a, d.argument, r, k)
    ensures ResultRel(EvalCall(p, fuel, env, Eval(p, fuel, env, f, t), a), Eval(q, fuel, env', d, t))
    decreases fuel, Size(f) + Size(a), 5, 0
  {
    SimEval(p, q, fuel, env, env', f, d.function_, r, k, t);
    SimEvalCall(p, q, fuel, env, env', Eval(p, fuel, env, f, t), Eval(q, fuel, env', d.function_, t), a, d.argument,
                r, k);
  }

  lemma {:induction false} LambdaRel(e: Expr, d: Expr, env: Env, env': Env, r: Renaming, k: set<Id>)
    requires e.Lambda? && Tr(e, d, r, k) && EnvRel(env, env', r, k)
    ensures d.Lambda? && ValueRel(Closure(Nil, env, e.parameter, e.body), Closure(Nil, env', d.parameter, d.body))
  {
    var v, w := Closure(Nil, env, e.parameter, e.body), Closure(Nil, env', d.parameter, d.body);
    assert k + BoundIds(Nil) == k;
    assert TrBindings(Nil, Nil, r, k) && FreshGroup(Nil, Nil, r, k);
    assert BindGroup(Nil, Nil, r) == r;
    assert ClosureRel(v, w, r, k);
  }

  lemma {:induction false} SimGlobal(p: Program, q: Program, fuel: nat, s: Symbol, t: Trace)
    requires Programs(p, q)
    ensures ResultRel(EvalGlobal(p, fuel, s, t), EvalGlobal(q, fuel, s, t))
    decreases fuel, 0, 0, 0
  {
    if s in p.definitions {
      if fuel > 0 { SimEval(p, q, fuel - 1, Nil, Nil, p.definitions[s], q.definitions[s], map[], {}, t); }
    } else {
      assert ValuesRel(Nil, Nil);
    }
  }

  lemma {:induction false} SimCall(p: Program, q: Program, fuel: nat, f: Value, g: Value, v: Value, w: Value, t: Trace)
    requires Programs(p, q) && ValueRel(f, g) && ValueRel(v, w)
    ensures ResultRel(Call(p, fuel, f, v, t), Call(q, fuel, g, w, t))
    decreases fuel, 0, 0, 0
  {
    match f
    case Plain(_) =>
    case Data(tag, parts) => AppendRel(parts, g.parts, v, w);
    case Closure(group, base, x, b) =>
      if fuel > 0 {
        var r: Renaming, k: set<Id> :| ClosureRel(f, g, r, k);
        var r', k' := BindGroup(group, g.group, r), k + BoundIds(g.group);
        ScopeRel(group, g.group, base, g.base, r, k);
        ExtendRel(Scope(group, base), Scope(g.group, g.base), r', k', x, g.parameter, v, w);
        SimEval(p, q, fuel - 1, Cons(Entry(x, v), Scope(group, base)),
                Cons(Entry(g.parameter, w), Scope(g.group, g.base)),
                b, g.body, r'[x := g.parameter], k' + {g.parameter}, t);
      }
  }

  lemma {:induction false} SimEvalCall(p: Program, q: Program, fuel: nat, env: Env, env': Env, f: Result, g: Result,
                                       a: Expr, d: Expr, r: Renaming, k: set<Id>)
    requires Programs(p, q) && ResultRel(f, g) && Tr(a, d, r, k) && EnvRel(env, env', r, k)
    ensures ResultRel(EvalCall(p, fuel, env, f, a), EvalCall(q, fuel, env', g, d))
    decreases fuel, Size(a), 2, 0
  {
    if f.outcome.Finished? {
      SimEval(p, q, fuel, env, env', a, d, r, k, f.trace);
      SimCalled(p, q, fuel, f.outcome.value, g.outcome.value, Eval(p, fuel, env, a, f.trace),
                Eval(q, fuel, env', d, f.trace));
    }
    JoinCall(p, q, fuel, env, env', f, g, a, d);
  }

  lemma {:induction false} SimCalled(p: Program, q: Program, fuel: nat, f: Value, g: Value, v: Result, w: Result)
    requires Programs(p, q) && ValueRel(f, g) && ResultRel(v, w)
    ensures ResultRel(Called(p, fuel, f, v), Called(q, fuel, g, w))
    decreases fuel, 0, 0, 1
  {
    if v.outcome.Finished? { SimCall(p, q, fuel, f, g, v.outcome.value, w.outcome.value, v.trace); }
  }

  function Called(p: Program, fuel: nat, f: Value, v: Result): Result {
    if !v.outcome.Finished? then v else Call(p, fuel, f, v.outcome.value, v.trace)
  }

  lemma {:induction false} JoinCall(p: Program, q: Program, fuel: nat, env: Env, env': Env, f: Result, g: Result,
                                    a: Expr, d: Expr)
    requires ResultRel(f, g)
    requires f.outcome.Finished? ==>
               ResultRel(Called(p, fuel, f.outcome.value, Eval(p, fuel, env, a, f.trace)),
                         Called(q, fuel, g.outcome.value, Eval(q, fuel, env', d, f.trace)))
    ensures ResultRel(EvalCall(p, fuel, env, f, a), EvalCall(q, fuel, env', g, d))
  {
  }

  lemma {:induction false} SimOperator(p: Program, q: Program, fuel: nat, env: Env, env': Env, e: Expr, d: Expr,
                                       r: Renaming, k: set<Id>, t: Trace)
    requires e.Operator? && Programs(p, q) && Tr(e, d, r, k) && EnvRel(env, env', r, k)
    ensures ResultRel(Eval(p, fuel, env, e, t), Eval(q, fuel, env', d, t))
    decreases fuel, Size(e), 0, 0
  {
    var partial := d.function_;
    assert Eval(q, fuel, env', Global(e.symbol), t) == EvalGlobal(q, fuel, e.symbol, t);
    assert Eval(q, fuel, env', partial, t)
           == EvalCall(q, fuel, env', EvalGlobal(q, fuel, e.symbol, t), partial.argument);
    SimGlobal(p, q, fuel, e.symbol, t);
    var first, first' := EvalGlobal(p, fuel, e.symbol, t), EvalGlobal(q, fuel, e.symbol, t);
    SimEvalCall(p, q, fuel, env, env', first, first', e.left, partial.argument, r, k);
    SimEvalCall(p, q, fuel, env, env', EvalCall(p, fuel, env, first, e.left),
                EvalCall(q, fuel, env', first', partial.argument),
                e.right, d.argument, r, k);
  }

  lemma {:induction false} SimCompound(p: Program, q: Program, fuel: nat, env: Env, env': Env, e: Expr, d: Expr,
                                       r: Renaming, k: set<Id>, t: Trace)
    requires e.Compound? && Programs(p, q) && Tr(e, d, r, k) && EnvRel(env, env', r, k)
    ensures ResultRel(Eval(p, fuel, env, e, t), Eval(q, fuel, env', d, t))
    decreases fuel, Size(e), 0, 0
  {
    SimParts(p, q, fuel, env, env', e.parts, d.parts, r, k, t);
    var g, g' := EvalParts(p, fuel, env, e.parts, t), EvalParts(q, fuel, env', d.parts, t);
    if g.Got? { CombineRel(e.form, g.value, g'.value); }
  }

  lemma {:induction false} SimParts(p: Program, q: Program, fuel: nat, env: Env, env': Env, es: List<Expr>,
                                    ds: List<Expr>, r: Renaming, k: set<Id>, t: Trace)
    requires Programs(p, q) && TrParts(es, ds, r, k) && EnvRel(env, env', r, k)
    ensures GotValuesRel(EvalParts(p, fuel, env, es, t), EvalParts(q, fuel, env', ds, t))
    decreases fuel, SizeParts(es), 0, 0
  {
    match es
    case Nil => assert ValuesRel(Nil, Nil);
    case Cons(e, rest) =>
      SimEval(p, q, fuel, env, env', e, ds.head, r, k, t);
      var v, w := Eval(p, fuel, env, e, t), Eval(q, fuel, env', ds.head, t);
      if v.outcome.Finished? {
        SimParts(p, q, fuel, env, env', rest, ds.tail, r, k, v.trace);
        var g, g' := EvalParts(p, fuel, env, rest, v.trace), EvalParts(q, fuel, env', ds.tail, v.trace);
        if g.Got? { assert ValuesRel(Cons(v.outcome.value, g.value), Cons(w.outcome.value, g'.value)); }
      }
  }

  lemma {:induction false} SimIf(p: Program, q: Program, fuel: nat, env: Env, env': Env, e: Expr, d: Expr, r: Renaming,
                                 k: set<Id>, t: Trace)
    requires e.If? && Programs(p, q) && Tr(e, d, r, k) && EnvRel(env, env', r, k)
    ensures ResultRel(Eval(p, fuel, env, e, t), Eval(q, fuel, env', d, t))
    decreases fuel, Size(e), 0, 0
  {
    SimEval(p, q, fuel, env, env', e.condition, d.condition, r, k, t);
    var t' := Eval(p, fuel, env, e.condition, t).trace;
    SimEval(p, q, fuel, env, env', e.consequent, d.consequent, r, k, t');
    SimEval(p, q, fuel, env, env', e.alternative, d.alternative, r, k, t');
  }

  // ----- Groups -----

  ghost predicate GotScopeRel(g: Got<Env>, g': Got<Env>, bs: List<Binding>, ds: List<Binding>, env': Env, r: Renaming,
                              k: set<Id>) {
    match g
    case Lost(r) => g'.Lost? && ResultRel(r, g'.result) && !r.outcome.Finished?
    case Got(base, t) =>
      && g'.Got? && g'.trace == t && Agree(env', Scope(ds, g'.value), k)
      && EnvRel(Scope(bs, base), Scope(ds, g'.value), BindGroup(bs, ds, r), k + BoundIds(ds))
  }

  /** Evaluating a group, then entering its scope. */
  lemma {:induction false} SimGroup(p: Program, q: Program, fuel: nat, env: Env, env': Env, bs: List<Binding>,
                                    ds: List<Binding>, r: Renaming, k: set<Id>, t: Trace)
    requires Programs(p, q) && TrGroup(bs, ds, r, k) && EnvRel(env, env', r, k)
    ensures GotScopeRel(EvalBindings(p, fuel, bs, bs, env, t), EvalBindings(q, fuel, ds, ds, env', t), bs, ds, env', r,
                        k)
    decreases fuel, SizeBindings(bs), 1, 0
  {
    OpenGroupRel(bs, ds, env, env', r, k);
    GroupAligned(bs, ds, r, k);
    FreshApart(bs, ds, r, k);
    SimBindings(p, q, fuel, bs, ds, bs, ds, env, env', r, k, t);
    var g, g' := EvalBindings(p, fuel, bs, bs, env, t), EvalBindings(q, fuel, ds, ds, env', t);
    if g.Got? {
      ScopeRel(bs, ds, g.value, g'.value, r, k);
      FunctionsAgree(ds, ds, g'.value, k);
    }
  }

  lemma {:induction false} FreshApart(bs: List<Binding>, ds: List<Binding>, r: Renaming, k: set<Id>)
    requires FreshGroup(bs, ds, r, k)
    ensures BoundIds(ds) !! k
  {
    match bs
    case Nil =>
    case Cons(_, rest) => FreshApart(rest, ds.tail, r, k);
  }

  ghost predicate GotBaseRel(g: Got<Env>, g': Got<Env>, base': Env, r: Renaming, k: set<Id>, outer: set<Id>) {
    match g
    case Lost(r) => g'.Lost? && ResultRel(r, g'.result) && !r.outcome.Finished?
    case Got(base, t) => g'.Got? && g'.trace == t && EnvRel(base, g'.value, r, k) && Agree(base', g'.value, outer)
  }

  lemma {:induction false} SimBindings(p: Program, q: Program, fuel: nat, bs: List<Binding>, ds: List<Binding>,
                                       group: List<Binding>, group': List<Binding>, base: Env, base': Env, r: Renaming,
                                       k: set<Id>, t: Trace)
    requires Programs(p, q) && Grouped(group, group', base, base', r, k) && BoundIds(ds) !! k
    requires Aligned(bs, ds, BindGroup(group, group', r))
             && TrBindings(bs, ds, BindGroup(group, group', r), k + BoundIds(group'))
    ensures GotBaseRel(EvalBindings(p, fuel, bs, group, base, t), EvalBindings(q, fuel, ds, group', base', t), base',
                       BindGroup(group, group', r), k + BoundIds(group'), k)
    decreases fuel, SizeBindings(bs), 0, 0
  {
    if bs.Cons? {
      var r', k' := BindGroup(group, group', r), k + BoundIds(group');
      var b, d := bs.head, ds.head;
      AsLambdaTr(b.value, d.value, r', k');
      if AsLambda(b.value).Some? {
        SimBindings(p, q, fuel, bs.tail, ds.tail, group, group', base, base', r, k, t);
      } else {
        ScopeRel(group, group', base, base', r, k);
        SimEval(p, q, fuel, Scope(group, base), Scope(group', base'), b.value, d.value, r', k', t);
        var v, w := Eval(p, fuel, Scope(group, base), b.value, t), Eval(q, fuel, Scope(group', base'), d.value, t);
        if v.outcome.Finished? {
          FillRel(base, base', r', k', b.id, d.id, v.outcome.value, w.outcome.value);
          SimBindings(p, q, fuel, bs.tail, ds.tail, group, group', Cons(Entry(b.id, v.outcome.value), base),
                      Cons(Entry(d.id, w.outcome.value), base'), r, k, v.trace);
        }
      }
    }
  }

  lemma {:induction false} SimLet(p: Program, q: Program, fuel: nat, env: Env, env': Env, e: Expr, d: Expr, r: Renaming,
                                  k: set<Id>, t: Trace)
    requires e.Let? && Programs(p, q) && Tr(e, d, r, k) && EnvRel(env, env', r, k)
    ensures ResultRel(Eval(p, fuel, env, e, t), Eval(q, fuel, env', d, t))
    decreases fuel, Size(e), 0, 0
  {
    SimGroup(p, q, fuel, env, env', e.bindings, d.bindings, r, k, t);
    var g, g' := EvalBindings(p, fuel, e.bindings, e.bindings, env, t),
        EvalBindings(q, fuel, d.bindings, d.bindings, env', t);
    if g.Got? {
      SimEval(p, q, fuel, Scope(e.bindings, g.value), Scope(d.bindings, g'.value), e.body, d.body,
              BindGroup(e.bindings, d.bindings, r), k + BoundIds(d.bindings), g.trace);
    }
  }

  // ----- Cases without guarded rows -----

  lemma {:induction false} SimPlainCase(p: Program, q: Program, fuel: nat, env: Env, env': Env, s: Expr,
                                        rows: List<Row>, d: Expr, r: Renaming, k: set<Id>, t: Trace)
    requires !AnyGuarded(rows) && Programs(p, q) && Tr(Case(s, rows), d, r, k) && EnvRel(env, env', r, k)
    ensures ResultRel(Eval(p, fuel, env, Case(s, rows), t), Eval(q, fuel, env', d, t))
    decreases fuel, Size(s) + SizeRows(rows), 4, 0
  {
    SimEval(p, q, fuel, env, env', s, d.scrutinee, r, k, t);
    var v, w := Eval(p, fuel, env, s, t), Eval(q, fuel, env', d.scrutinee, t);
    if v.outcome.Finished? {
      SimRows(p, q, fuel, env, env', v.outcome.value, w.outcome.value, rows, d.rows, r, k, v.trace);
    }
  }

  lemma {:induction false} SimRows(p: Program, q: Program, fuel: nat, env: Env, env': Env, v: Value, w: Value,
                                   rows: List<Row>, ds: List<Row>, r: Renaming, k: set<Id>, t: Trace)
    requires !AnyGuarded(rows) && Programs(p, q) && TrRows(rows, ds, r, k) && EnvRel(env, env', r, k) && ValueRel(v, w)
    ensures ResultRel(EvalRows(p, fuel, env, v, rows, t), EvalRows(q, fuel, env', w, ds, t))
    decreases fuel, SizeRows(rows), 0, 0
  {
    match rows
    case Nil =>
    case Cons(row, rest) =>
      var d := ds.head;
      MatchedRel(row.pattern, d.pattern, v, w, env, env', r, k);
      var m, m' := Matched(row.pattern, v, env), Matched(d.pattern, w, env');
      if m.None? {
        SimRows(p, q, fuel, env, env', v, w, rest, ds.tail, r, k, t);
      } else {
        UnguardedRhs(p, fuel, m.value, row.value, t);
        UnguardedRhs(q, fuel, m'.value, d.value, t);
        SimEval(p, q, fuel, m.value, m'.value, row.value, d.value, BindPattern(row.pattern, d.pattern, r),
                k + PatternIds(d.pattern), t);
      }
  }

  // ----- Guarded right-hand sides -----

  lemma {:induction false} SimRhs(p: Program, q: Program, fuel: nat, env: Env, env': Env, e: Expr, d: Expr, r: Renaming,
                                  k: set<Id>, f: Failure, t: Trace)
    requires Programs(p, q) && TrRhs(e, d, r, k, f) && EnvRel(env, env', r, k) && FailureIn(f, k)
    ensures RhsRel(q, fuel, env', f, EvalRhs(p, fuel, env, e, t), Eval(q, fuel, env', d, t))
    decreases fuel, Size(e), 2, 0
  {
    match e
    case Guarded(cs) => SimClauses(p, q, fuel, env, env', cs, d, r, k, f, t);
    case Let(bs, b) =>
      SimGroup(p, q, fuel, env, env', bs, d.bindings, r, k, t);
      var g, g' := EvalBindings(p, fuel, bs, bs, env, t), EvalBindings(q, fuel, d.bindings, d.bindings, env', t);
      if g.Got? {
        var k' := k + BoundIds(d.bindings);
        var inner := Scope(d.bindings, g'.value);
        FailureInMore(f, k, k');
        SimRhs(p, q, fuel, Scope(bs, g.value), inner, b, d.body, BindGroup(bs, d.bindings, r), k', f, g.trace);
        RhsOutward(q, fuel, env', inner, f, k, EvalRhs(p, fuel, Scope(bs, g.value), b, g.trace),
                   Eval(q, fuel, inner, d.body, g.trace));
      }
    case _ => SimEval(p, q, fuel, env, env', e, d, r, k, t);
  }

  lemma {:induction false} SimClauses(p: Program, q: Program, fuel: nat, env: Env, env': Env, cs: List<Clause>, d: Expr,
                                      r: Renaming, k: set<Id>, f: Failure, t: Trace)
    requires Programs(p, q) && TrClauses(cs, d, r, k, f) && EnvRel(env, env', r, k) && FailureIn(f, k)
    ensures RhsRel(q, fuel, env', f, EvalClauses(p, fuel, env, cs, t), Eval(q, fuel, env', d, t))
    decreases fuel, SizeClauses(cs), 0, 0
  {
    match cs
    case Nil =>
    case Cons(c, rest) => SimClause(p, q, fuel, env, env', c, rest, d, r, k, f, t);
  }

  /** The rest of the clauses after a failed guard. */
  function Otherwise(p: Program, fuel: nat, env: Env, r: Result, rest: List<Clause>): Result {
    if r.outcome.Fell? then EvalClauses(p, fuel, env, rest, r.trace) else r
  }

  lemma {:induction false} SimClause(p: Program, q: Program, fuel: nat, env: Env, env': Env, c: Clause,
                                     rest: List<Clause>, d: Expr, r: Renaming, k: set<Id>, f: Failure, t: Trace)
    requires Programs(p, q) && TrClause(c, rest, d, r, k, f) && EnvRel(env, env', r, k) && FailureIn(f, k)
    ensures RhsRel(q, fuel, env', f, EvalClauses(p, fuel, env, Cons(c, rest), t), Eval(q, fuel, env', d, t))
    decreases fuel, SizeBindings(c.wheres) + SizeGuards(c.guards) + Size(c.value) + SizeClauses(rest), 4, 0
  {
    if c.wheres.Nil? {
      assert EvalBindings(p, fuel, c.wheres, c.wheres, env, t) == Got(env, t) && Scope(c.wheres, env) == env;
      SimGuards(p, q, fuel, env, env, env', c.guards, c.value, rest, d, r, r, k, f, t);
    } else {
      SimGroup(p, q, fuel, env, env', c.wheres, d.bindings, r, k, t);
      var g, g' := EvalBindings(p, fuel, c.wheres, c.wheres, env, t),
          EvalBindings(q, fuel, d.bindings, d.bindings, env', t);
      if g.Got? {
        var k' := k + BoundIds(d.bindings);
        var scope, inner := Scope(c.wheres, g.value), Scope(d.bindings, g'.value);
        FailureInMore(f, k, k');
        OuterRel(env, env', inner, r, k, k');
        SimGuards(p, q, fuel, scope, env, inner, c.guards, c.value, rest, d.body, BindGroup(c.wheres, d.bindings, r), r,
                  k', f, g.trace);
        RhsOutward(q, fuel, env', inner, f, k,
                   Otherwise(p, fuel, env, EvalGuards(p, fuel, scope, c.guards, c.value, g.trace), rest),
                   Eval(q, fuel, inner, d.body, g.trace));
      }
    }
  }

  lemma {:induction false} SimGuards(p: Program, q: Program, fuel: nat, env: Env, outerEnv: Env, env': Env,
                                     gs: List<Guard>, value: Expr, rest: List<Clause>, d: Expr, r: Renaming,
                                     outer: Renaming, k: set<Id>, f: Failure, t: Trace)
    requires Programs(p, q) && TrGuards(gs, value, rest, d, r, outer, k, f) && FailureIn(f, k)
    requires EnvRel(env, env', r, k) && EnvRel(outerEnv, env', outer, k)
    ensures RhsRel(q, fuel, env', f, Otherwise(p, fuel, outerEnv, EvalGuards(p, fuel, env, gs, value, t), rest),
                   Eval(q, fuel, env', d, t))
    decreases fuel, SizeGuards(gs) + Size(value) + SizeClauses(rest), 3, 1
  {
    if gs.Nil? {
      SimEval(p, q, fuel, env, env', value, d, r, k, t);
    } else if gs.head.Test? {
      SimTest(p, q, fuel, env, outerEnv, env', gs, value, rest, d, r, outer, k, f, t);
    } else if gs.head.Match? {
      SimPatternGuard(p, q, fuel, env, outerEnv, env', gs, value, rest, d, r, outer, k, f, t);
    } else {
      SimLetGuard(p, q, fuel, env, outerEnv, env', gs, value, rest, d, r, outer, k, f, t);
    }
  }

  lemma {:induction false} SimTest(p: Program, q: Program, fuel: nat, env: Env, outerEnv: Env, env': Env,
                                   gs: List<Guard>, value: Expr, rest: List<Clause>, d: Expr, r: Renaming,
                                   outer: Renaming, k: set<Id>, f: Failure, t: Trace)
    requires gs.Cons? && gs.head.Test?
    requires Programs(p, q) && TrGuards(gs, value, rest, d, r, outer, k, f) && FailureIn(f, k)
    requires EnvRel(env, env', r, k) && EnvRel(outerEnv, env', outer, k)
    ensures RhsRel(q, fuel, env', f, Otherwise(p, fuel, outerEnv, EvalGuards(p, fuel, env, gs, value, t), rest),
                   Eval(q, fuel, env', d, t))
    decreases fuel, SizeGuards(gs) + Size(value) + SizeClauses(rest), 3, 0
  {
    assert SizeGuards(gs) == 1 + SizeGuard(gs.head) + SizeGuards(gs.tail);
    var c := gs.head.condition;
    SimEval(p, q, fuel, env, env', c, d.condition, r, k, t);
    var t' := Eval(p, fuel, env, c, t).trace;
    SimGuards(p, q, fuel, env, outerEnv, env', gs.tail, value, rest, d.consequent, r, outer, k, f, t');
    SimClauses(p, q, fuel, outerEnv, env', rest, d.alternative, outer, k, f, t');
    JoinTest(p, q, fuel, env, outerEnv, env', gs, value, rest, d, f, t);
  }

  lemma {:induction false} JoinTest(p: Program, q: Program, fuel: nat, env: Env, outerEnv: Env, env': Env,
                                    gs: List<Guard>, value: Expr, rest: List<Clause>, d: Expr, f: Failure, t: Trace)
    requires gs.Cons? && gs.head.Test? && d.If?
    requires var v := Eval(p, fuel, env, gs.head.condition, t);
             && ResultRel(v, Eval(q, fuel, env', d.condition, t))
             && RhsRel(q, fuel, env', f,
                       Otherwise(p, fuel, outerEnv, EvalGuards(p, fuel, env, gs.tail, value, v.trace), rest),
                       Eval(q, fuel, env', d.consequent, v.trace))
             && RhsRel(q, fuel, env', f, EvalClauses(p, fuel, outerEnv, rest, v.trace),
                       Eval(q, fuel, env', d.alternative, v.trace))
    ensures RhsRel(q, fuel, env', f, Otherwise(p, fuel, outerEnv, EvalGuards(p, fuel, env, gs, value, t), rest),
                   Eval(q, fuel, env', d, t))
  {
  }

  lemma {:induction false} SimLetGuard(p: Program, q: Program, fuel: nat, env: Env, outerEnv: Env, env': Env,
                                       gs: List<Guard>, value: Expr, rest: List<Clause>, d: Expr, r: Renaming,
                                       outer: Renaming, k: set<Id>, f: Failure, t: Trace)
    requires gs.Cons? && gs.head.Bindings?
    requires Programs(p, q) && TrGuards(gs, value, rest, d, r, outer, k, f) && FailureIn(f, k)
    requires EnvRel(env, env', r, k) && EnvRel(outerEnv, env', outer, k)
    ensures RhsRel(q, fuel, env', f, Otherwise(p, fuel, outerEnv, EvalGuards(p, fuel, env, gs, value, t), rest),
                   Eval(q, fuel, env', d, t))
    decreases fuel, SizeGuards(gs) + Size(value) + SizeClauses(rest), 3, 0
  {
    assert SizeGuards(gs) == 1 + SizeGuard(gs.head) + SizeGuards(gs.tail);
    var bs := gs.head.bindings;
    SimGroup(p, q, fuel, env, env', bs, d.bindings, r, k, t);
    var g, g' := EvalBindings(p, fuel, bs, bs, env, t), EvalBindings(q, fuel, d.bindings, d.bindings, env', t);
    if g.Got? {
      var k' := k + BoundIds(d.bindings);
      var scope, inner := Scope(bs, g.value), Scope(d.bindings, g'.value);
      FailureInMore(f, k, k');
      OuterRel(outerEnv, env', inner, outer, k, k');
      SimGuards(p, q, fuel, scope, outerEnv, inner, gs.tail, value, rest, d.body, BindGroup(bs, d.bindings, r), outer,
                k', f, g.trace);
      RhsOutward(q, fuel, env', inner, f, k,
                 Otherwise(p, fuel, outerEnv, EvalGuards(p, fuel, scope, gs.tail, value, g.trace), rest),
                 Eval(q, fuel, inner, d.body, g.trace));
    }
  }

  // ----- Wrapped scrutinees -----

  function Wrapped(v: Value): Value {
    Data(RecordTag(["_1"]), Cons(v, Nil))
  }

  lemma {:induction false} ProductValue(q: Program, fuel: nat, env: Env, e: Expr, t: Trace)
    ensures var r := Eval(q, fuel, env, e, t);
            Eval(q, fuel, env, Product(e), t)
            == if r.outcome.Finished? then Result(Finished(Wrapped(r.outcome.value)), r.trace) else r
  {
    var r := Eval(q, fuel, env, e, t);
    assert EvalParts(q, fuel, env, Nil, r.trace) == Got(Nil, r.trace);
    assert EvalParts(q, fuel, env, Cons(e, Nil), t)
           == if r.outcome.Finished? then Got(Cons(r.outcome.value, Nil), r.trace) else Lost(r);
  }

  lemma {:induction false} WrappedMatch(p: Pattern, v: Value, env: Env)
    ensures Matched(ProductPattern(p), Wrapped(v), env) == Matched(p, v, env)
  {
    var w := Wrapped(v);
    assert FieldsAt(["_1"], Cons(v, Nil), []) == Some(Nil);
    assert FieldsAt(["_1"], Cons(v, Nil), ["_1"]) == Some(Cons(v, Nil));
    assert Fields(RecordShape(["_1"], true), w) == Some(Cons(v, Nil));
    var m := Matched(p, v, env);
    if m.Some? { assert MatchedAll(Nil, Nil, m.value) == Some(m.value); }
    assert MatchedAll(Cons(p, Nil), Cons(v, Nil), env) == m;
  }

  /** The scrutinee of a case or pattern guard, with the value its patterns are matched against. */
  lemma {:induction false} SimScrutinee(p: Program, q: Program, fuel: nat, env: Env, env': Env, s: Expr, d: Expr,
                                        wrapped: bool, r: Renaming, k: set<Id>, t: Trace)
    requires Programs(p, q) && TrScrutinee(s, d, wrapped, r, k) && EnvRel(env, env', r, k)
    ensures var v, w := Eval(p, fuel, env, s, t), Eval(q, fuel, env', d, t);
            if v.outcome.Finished? then
              w.outcome.Finished? && w.trace == v.trace
              && ValueRel(if wrapped then Wrapped(v.outcome.value) else v.outcome.value, w.outcome.value)
            else ResultRel(v, w)
    decreases fuel, Size(s), 2, 0
  {
    if wrapped {
      SimEval(p, q, fuel, env, env', s, d.parts.head, r, k, t);
      ProductValue(q, fuel, env', d.parts.head, t);
      var v, w := Eval(p, fuel, env, s, t), Eval(q, fuel, env', d.parts.head, t);
      if v.outcome.Finished? {
        assert ValuesRel(Nil, Nil);
        assert ValuesRel(Cons(v.outcome.value, Nil), Cons(w.outcome.value, Nil));
      }
    } else {
      SimEval(p, q, fuel, env, env', s, d, r, k, t);
    }
  }

  /** A lowered row in front of another lowered row. */
  lemma {:induction false} RowEval(q: Program, fuel: nat, env: Env, w: Value, rows: List<Row>, t: Trace)
    requires rows.Cons? && !IsGuardedRhs(rows.head.value)
    ensures var m := Matched(rows.head.pattern, w, env);
            EvalRows(q, fuel, env, w, rows, t)
            == if m.Some? then Eval(q, fuel, m.value, rows.head.value, t) else EvalRows(q, fuel, env, w, rows.tail, t)
  {
    var m := Matched(rows.head.pattern, w, env);
    if m.Some? {
      UnguardedRhs(q, fuel, m.value, rows.head.value, t);
      NeverFell(q, fuel, m.value, rows.head.value, t);
    }
  }

  lemma {:induction false} WildcardEval(q: Program, fuel: nat, env: Env, w: Value, rows: List<Row>, t: Trace)
    requires rows.Cons? && rows.head.pattern.Wildcard? && !IsGuardedRhs(rows.head.value)
    ensures EvalRows(q, fuel, env, w, rows, t) == Eval(q, fuel, env, rows.head.value, t)
  {
    RowEval(q, fuel, env, w, rows, t);
    assert Matched(rows.head.pattern, w, env) == Some(env);
  }

  lemma {:induction false} GuardPattern(p: Pattern, v: Value, env: Env)
    ensures Matched(PatternForScrutinee(p), if IsRecordPattern(p) then v else Wrapped(v), env) == Matched(p, v, env)
  {
    if !IsRecordPattern(p) { WrappedMatch(p, v, env); }
  }

  lemma {:induction false} SimPatternGuard(p: Program, q: Program, fuel: nat, env: Env, outerEnv: Env, env': Env,
                                           gs: List<Guard>, value: Expr, rest: List<Clause>, d: Expr, r: Renaming,
                                           outer: Renaming, k: set<Id>, f: Failure, t: Trace)
    requires gs.Cons? && gs.head.Match?
    requires Programs(p, q) && TrGuards(gs, value, rest, d, r, outer, k, f) && FailureIn(f, k)
    requires EnvRel(env, env', r, k) && EnvRel(outerEnv, env', outer, k)
    ensures RhsRel(q, fuel, env', f, Otherwise(p, fuel, outerEnv, EvalGuards(p, fuel, env, gs, value, t), rest),
                   Eval(q, fuel, env', d, t))
    decreases fuel, SizeGuards(gs) + Size(value) + SizeClauses(rest), 3, 0
  {
    assert SizeGuards(gs) == 1 + SizeGuard(gs.head) + SizeGuards(gs.tail);
    PatternGuardParts(gs, value, rest, d, r, outer, k, f);
    var wrapped := !IsRecordPattern(gs.head.pattern);
    SimScrutinee(p, q, fuel, env, env', gs.head.value, d.scrutinee, wrapped, r, k, t);
    var v, w := Eval(p, fuel, env, gs.head.value, t), Eval(q, fuel, env', d.scrutinee, t);
    if v.outcome.Finished? {
      var inspected := if wrapped then Wrapped(v.outcome.value) else v.outcome.value;
      SimGuardMatched(p, q, fuel, env, outerEnv, env', gs, value, rest, d, r, outer, k, f, v.trace, inspected,
                      w.outcome.value);
    }
    JoinPatternGuard(p, q, fuel, env, outerEnv, env', gs, value, rest, d, f, t, v, w);
  }

  ghost predicate GuardMatched(p: Program, q: Program, fuel: nat, env: Env, outerEnv: Env, env': Env, gs: List<Guard>,
                               value: Expr, rest: List<Clause>, d: Expr, f: Failure, t: Trace, v: Value, w: Value)
    requires gs.Cons? && gs.head.Match? && IsTwoRows(d)
  {
    var m, m' := Matched(PatternForScrutinee(gs.head.pattern), v, env), Matched(d.rows.head.pattern, w, env');
    if m.Some? then m'.Some?
        && RhsRel(q, fuel, env', f, Otherwise(p, fuel, outerEnv, EvalGuards(p, fuel, m.value, gs.tail, value, t), rest),
                                       Eval(q, fuel, m'.value, d.rows.head.value, t))
    else m'.None? && RhsRel(q, fuel, env', f, EvalClauses(p, fuel, outerEnv, rest, t),
                            Eval(q, fuel, env', d.rows.tail.head.value, t))
  }

  lemma {:induction false} JoinPatternGuard(p: Program, q: Program, fuel: nat, env: Env, outerEnv: Env, env': Env,
                                            gs: List<Guard>, value: Expr, rest: List<Clause>, d: Expr, f: Failure,
                                            t: Trace, v: Result, w: Result)
    requires gs.Cons? && gs.head.Match? && IsTwoRows(d)
    requires v == Eval(p, fuel, env, gs.head.value, t) && w == Eval(q, fuel, env', d.scrutinee, t)
    requires if v.outcome.Finished? then
               w.outcome.Finished? && w.trace == v.trace
               && GuardMatched(p, q, fuel, env, outerEnv, env', gs, value, rest, d, f, v.trace,
                               if IsRecordPattern(gs.head.pattern) then v.outcome.value else Wrapped(v.outcome.value),
                                   w.outcome.value)
             else ResultRel(v, w)
    ensures RhsRel(q, fuel, env', f, Otherwise(p, fuel, outerEnv, EvalGuards(p, fuel, env, gs, value, t), rest),
                   Eval(q, fuel, env', d, t))
  {
    if v.outcome.Finished? {
      GuardPattern(gs.head.pattern, v.outcome.value, env);
      RowEval(q, fuel, env', w.outcome.value, d.rows, v.trace);
      WildcardEval(q, fuel, env', w.outcome.value, d.rows.tail, v.trace);
    }
  }

  lemma {:induction false} SimGuardMatched(p: Program, q: Program, fuel: nat, env: Env, outerEnv: Env, env': Env,
                                           gs: List<Guard>, value: Expr, rest: List<Clause>, d: Expr, r: Renaming,
                                           outer: Renaming, k: set<Id>, f: Failure, t: Trace, v: Value, w: Value)
    requires gs.Cons? && gs.head.Match? && ValueRel(v, w)
    requires Programs(p, q) && TrGuards(gs, value, rest, d, r, outer, k, f) && FailureIn(f, k)
    requires EnvRel(env, env', r, k) && EnvRel(outerEnv, env', outer, k)
    ensures IsTwoRows(d) && GuardMatched(p, q, fuel, env, outerEnv, env', gs, value, rest, d, f, t, v, w)
    decreases fuel, SizeGuards(gs.tail) + Size(value) + SizeClauses(rest), 4, 0
  {
    PatternGuardParts(gs, value, rest, d, r, outer, k, f);
    var pattern, target := PatternForScrutinee(gs.head.pattern), d.rows.head.pattern;
    MatchedRel(pattern, target, v, w, env, env', r, k);
    var m, m' := Matched(pattern, v, env), Matched(target, w, env');
    if m.Some? {
      var k' := k + PatternIds(target);
      FailureInMore(f, k, k');
      OuterRel(outerEnv, env', m'.value, outer, k, k');
      SimGuards(p, q, fuel, m.value, outerEnv, m'.value, gs.tail, value, rest, d.rows.head.value,
                BindPattern(pattern, target, r), outer,
                k', f, t);
      RhsOutward(q, fuel, env', m'.value, f, k,
                 Otherwise(p, fuel, outerEnv, EvalGuards(p, fuel, m.value, gs.tail, value, t), rest),
                 Eval(q, fuel, m'.value, d.rows.head.value, t));
    } else {
      SimClauses(p, q, fuel, outerEnv, env', rest, d.rows.tail.head.value, outer, k, f, t);
    }
  }

  // ----- Helpers -----

  /** `ids` are bound to the closures of the group members `hs`. */
  ghost predicate HelpersIn(env: Env, ids: List<Id>, hs: List<Binding>, group: List<Binding>, base: Env) {
    match hs
    case Nil => ids.Nil?
    case Cons(h, rest) =>
      && ids.Cons? && h.value.Lambda?
      && Lookup(env, ids.head) == Some(Closure(group, base, h.value.parameter, h.value.body))
      && HelpersIn(env, ids.tail, rest, group, base)
  }

  lemma {:induction false} HelpersStay(env: Env, env': Env, ids: List<Id>, hs: List<Binding>, group: List<Binding>,
                                       base: Env, k: set<Id>)
    requires HelpersIn(env, ids, hs, group, base) && Agree(env, env', k) && AllIn(ids, k)
    ensures HelpersIn(env', ids, hs, group, base)
  {
    match hs
    case Nil =>
    case Cons(_, rest) => HelpersStay(env, env', ids.tail, rest, group, base, k);
  }

  lemma {:induction false} HelpersBound(env: Env, ids: List<Id>, hs: List<Binding>, group: List<Binding>, base: Env,
                                        k: set<Id>)
    requires HelpersIn(env, ids, hs, group, base) && forall y :: Lookup(env, y).Some? ==> y in k
    ensures AllIn(ids, k)
  {
    match hs
    case Nil =>
    case Cons(_, rest) => HelpersBound(env, ids.tail, rest, group, base, k);
  }

  lemma {:induction false} HelpersAppend(env: Env, ids: List<Id>, hs: List<Binding>, group: List<Binding>, base: Env,
                                         x: Id, h: Binding)
    requires HelpersIn(env, ids, hs, group, base)
    requires h.value.Lambda? && Lookup(env, x) == Some(Closure(group, base, h.value.parameter, h.value.body))
    ensures HelpersIn(env, Append(ids, Cons(x, Nil)), Append(hs, Cons(h, Nil)), group, base)
  {
    match hs
    case Nil =>
      assert HelpersIn(env, Nil, Nil, group, base);
      assert HelpersIn(env, Cons(x, Nil), Cons(h, Nil), group, base);
    case Cons(_, rest) => HelpersAppend(env, ids.tail, rest, group, base, x, h);
  }

  lemma {:induction false} FunctionsDomain(ds: List<Binding>, group: List<Binding>, base: Env, y: Id)
    requires Lookup(Functions(ds, group, base), y).Some?
    ensures y in BoundIds(ds) || Lookup(base, y).Some?
  {
    match ds
    case Nil =>
    case Cons(d, rest) =>
      if AsLambda(d.value).None? || d.id != y { FunctionsDomain(rest, group, base, y); }
  }

  ghost predicate AllLambdas(hs: List<Binding>) {
    match hs
    case Nil => true
    case Cons(h, rest) => h.value.Lambda? && AllLambdas(rest)
  }

  lemma {:induction false} HelpersAreLambdas(later: List<Row>, hs: List<Binding>, temp: Id, r: Renaming, k: set<Id>)
    requires TrHelpers(later, hs, temp, r, k)
    ensures AllLambdas(hs)
    decreases later
  {
    match later
    case Nil => assert AllLambdas(hs.tail);
    case Cons(_, rest) => HelpersAreLambdas(rest, hs.tail, temp, r, k);
  }

  lemma {:induction false} LambdasOnly(q: Program, fuel: nat, hs: List<Binding>, group: List<Binding>, base: Env,
                                       t: Trace)
    requires AllLambdas(hs)
    ensures EvalBindings(q, fuel, hs, group, base, t) == Got(base, t)
  {
    match hs
    case Nil =>
    case Cons(_, rest) => LambdasOnly(q, fuel, rest, group, base, t);
  }

  lemma {:induction false} HelpersEnter(hs: List<Binding>, group: List<Binding>, base: Env, k: set<Id>)
    requires FreshBinders(hs, k) && AllLambdas(hs)
    ensures HelpersIn(Functions(hs, group, base), Binders(hs), hs, group, base) && AllIn(Binders(hs), BoundIds(hs))
  {
    match hs
    case Nil =>
    case Cons(h, rest) =>
      HelpersEnter(rest, group, base, k);
      AllInMore(Binders(rest), BoundIds(rest), BoundIds(hs));
      HelpersStay(Functions(rest, group, base), Functions(hs, group, base), Binders(rest), rest, group, base,
                  BoundIds(rest));
  }

  lemma {:induction false} FreshBindersApart(hs: List<Binding>, k: set<Id>)
    requires FreshBinders(hs, k)
    ensures BoundIds(hs) !! k
  {
    match hs
    case Nil =>
    case Cons(_, rest) => FreshBindersApart(rest, k);
  }

  /** The scope of the helper group, seen from the source environment of the case. */
  ghost predicate Entered(env: Env, group: List<Binding>, base: Env, temp: Id, w: Value, r: Renaming, k: set<Id>) {
    EnvRel(env, Scope(group, base), r, k) && Lookup(Scope(group, base), temp) == Some(w) && temp in k
  }

  // ----- Calling a helper is falling to the rows from there on -----

  lemma {:induction false} ApplyEval(q: Program, fuel: nat, env: Env, f: Expr, a: Expr, c: Value, v: Value, t: Trace)
    requires Eval(q, fuel, env, f, t) == Result(Finished(c), t) && Eval(q, fuel, env, a, t) == Result(Finished(v), t)
             && c.Closure?
    ensures Eval(q, fuel, env, Apply(f, a), t)
         == if fuel == 0 then Result(OutOfFuel, t) else Eval(q, fuel - 1,
                                                             Cons(Entry(c.parameter, v), Scope(c.group, c.base)),
                                                                 c.body, t)
  {
    assert EvalCall(q, fuel, env, Eval(q, fuel, env, f, t), a) == Call(q, fuel, c, v, t);
  }

  lemma {:induction false} NoCall(q: Program, fuel: nat, env: Env, f: Expr, xs: List<Id>, t: Trace)
    requires !Eval(q, fuel, env, f, t).outcome.Finished?
    ensures Eval(q, fuel, env, Apply(ApplyLocals(f, xs), UNIT), t) == Eval(q, fuel, env, f, t)
    decreases xs
  {
    match xs
    case Nil =>
    case Cons(x, rest) =>
      assert Eval(q, fuel, env, Apply(f, Local(x)), t) == Eval(q, fuel, env, f, t);
      NoCall(q, fuel, env, Apply(f, Local(x)), rest, t);
  }

  lemma {:induction false} HelperNoFuel(q: Program, env: Env, ids: List<Id>, hs: List<Binding>, group: List<Binding>,
                                        base: Env, t: Trace)
    requires hs.Cons? && HelpersIn(env, ids, hs, group, base)
    ensures Eval(q, 0, env, CallHelper(ids), t) == Result(OutOfFuel, t)
  {
    var first := Local(ids.head);
    var c := Closure(group, base, hs.head.value.parameter, hs.head.value.body);
    assert Eval(q, 0, env, first, t) == Result(Finished(c), t);
    match ids.tail
    case Nil =>
      assert ApplyLocals(first, Nil) == first;
      UnitValue(q, 0, env, t);
      ApplyEval(q, 0, env, first, UNIT, c, Data(RecordTag([]), Nil), t);
    case Cons(x, rest) =>
      assert HelpersIn(env, ids.tail, hs.tail, group, base);
      var a := Closure(group, base, hs.tail.head.value.parameter, hs.tail.head.value.body);
      assert Eval(q, 0, env, Local(x), t) == Result(Finished(a), t);
      ApplyEval(q, 0, env, first, Local(x), c, a, t);
      NoCall(q, 0, env, Apply(first, Local(x)), rest, t);
  }

  lemma {:induction false} SimFallen(p: Program, q: Program, fuel: nat, env: Env, envH: Env, v: Value, w: Value,
                                     later: List<Row>, hs: List<Binding>, ids: List<Id>, group: List<Binding>,
                                     base: Env, temp: Id, r: Renaming, k: set<Id>, t: Trace)
    requires Programs(p, q) && ValueRel(v, w) && Entered(env, group, base, temp, w, r, k)
    requires TrHelpers(later, hs, temp, r, k) && HelpersIn(envH, ids, hs, group, base)
    ensures ids.Cons? && ResultRel(EvalFallen(p, fuel, env, v, later, t), Eval(q, fuel, envH, CallHelper(ids), t))
    decreases fuel, SizeRows(later), 2, 0
  {
    if fuel == 0 {
      HelperNoFuel(q, envH, ids, hs, group, base, t);
    } else {
      var first := Local(ids.head);
      var c := Closure(group, base, hs.head.value.parameter, hs.head.value.body);
      assert Eval(q, fuel, envH, first, t) == Result(Finished(c), t);
      assert hs.head.value == Lambda(c.parameter, c.body);
      HelpersLength(later, hs, temp, r, k);
      HelpersInLength(envH, ids.tail, hs.tail, group, base);
      assert HelpersIn(Scope(group, base), Nil, Nil, group, base);
      assert Append(Nil, hs.tail) == hs.tail;
      SimHelperCall(p, q, fuel, env, envH, v, w, later, first, ids.tail, c, Nil, Nil, hs.tail, group, base, temp, r, k,
                    k, t);
    }
  }

  lemma {:induction false} HelpersLength(later: List<Row>, hs: List<Binding>, temp: Id, r: Renaming, k: set<Id>)
    requires TrHelpers(later, hs, temp, r, k)
    ensures Length(hs) == Length(later) + 1
    decreases later
  {
    match later
    case Nil => assert Length(hs.tail) == 0;
    case Cons(_, rest) => HelpersLength(rest, hs.tail, temp, r, k);
  }

  lemma {:induction false} HelpersInLength(env: Env, ids: List<Id>, hs: List<Binding>, group: List<Binding>, base: Env)
    requires HelpersIn(env, ids, hs, group, base)
    ensures Length(ids) == Length(hs)
  {
    match hs
    case Nil =>
    case Cons(_, rest) => HelpersInLength(env, ids.tail, rest, group, base);
  }

  lemma {:induction false} AppendOne<T>(xs: List<T>, x: T, ys: List<T>)
    ensures Append(Append(xs, Cons(x, Nil)), ys) == Append(xs, Cons(x, ys))
  {
    match xs
    case Nil => assert Append(Cons(x, Nil), ys) == Cons(x, Append(Nil, ys));
    case Cons(_, rest) => AppendOne(rest, x, ys);
  }

  lemma {:induction false} AppendNone<T>(xs: List<T>)
    ensures Append(xs, Nil) == xs
  {
    match xs
    case Nil =>
    case Cons(_, rest) => AppendNone(rest);
  }

  /** A helper closure that still takes the helpers `rem`, named `xs` by the caller. The ones it
      was given so far are `done`, named `next`. */
  ghost predicate Calling(env: Env, envH: Env, later: List<Row>, xs: List<Id>, c: Value, next: List<Id>,
                          done: List<Binding>, rem: List<Binding>, group: List<Binding>, base: Env, temp: Id, w: Value,
                          r: Renaming, k: set<Id>) {
    && c.Closure? && Entered(env, c.group, c.base, temp, w, r, k)
    && TrHelper(later, Lambda(c.parameter, c.body), Length(xs), next, temp, r, k)
    && HelpersIn(Scope(c.group, c.base), next, done, group, base) && HelpersIn(envH, xs, rem, group, base)
  }

  /** Passing one more helper. */
  lemma {:induction false} PassHelper(q: Program, fuel: nat, env: Env, envH: Env, later: List<Row>, f: Expr,
                                      xs: List<Id>, c: Value, next: List<Id>, done: List<Binding>, rem: List<Binding>,
                                      group: List<Binding>, base: Env, temp: Id, w: Value, r: Renaming, k: set<Id>,
                                      t: Trace)
      returns (c': Value)
    requires fuel > 0 && xs.Cons? && Calling(env, envH, later, xs, c, next, done, rem, group, base, temp, w, r, k)
    requires Eval(q, fuel, envH, f, t) == Result(Finished(c), t)
    ensures rem.Cons? && Eval(q, fuel, envH, Apply(f, Local(xs.head)), t) == Result(Finished(c'), t)
    ensures Calling(env, envH, later, xs.tail, c', Append(next, Cons(c.parameter, Nil)),
                    Append(done, Cons(rem.head, Nil)), rem.tail,
                    group, base, temp, w, r, k + {c.parameter})
  {
    var h := rem.head;
    var a := Closure(group, base, h.value.parameter, h.value.body);
    var scope := Scope(c.group, c.base);
    var inner := Cons(Entry(c.parameter, a), scope);
    assert TrHelper(later, c.body, Length(xs) - 1, Append(next, Cons(c.parameter, Nil)), temp, r, k + {c.parameter});
    c' := Closure(Nil, inner, c.body.parameter, c.body.body);
    assert Scope(Nil, inner) == inner;
    assert Eval(q, fuel, envH, Local(xs.head), t) == Result(Finished(a), t);
    assert Eval(q, fuel - 1, inner, c.body, t) == Result(Finished(c'), t);
    ApplyEval(q, fuel, envH, f, Local(xs.head), c, a, t);
    OuterRel(env, scope, inner, r, k, k + {c.parameter});
    HelpersBound(scope, next, done, group, base, k);
    HelpersStay(scope, inner, next, done, group, base, k);
    HelpersAppend(inner, next, done, group, base, c.parameter, h);
  }

  lemma {:induction false} SimHelperCall(p: Program, q: Program, fuel: nat, env: Env, envH: Env, v: Value, w: Value,
                                         later: List<Row>, f: Expr, xs: List<Id>, c: Value, next: List<Id>,
                                         done: List<Binding>, rem: List<Binding>, group: List<Binding>, base: Env,
                                         temp: Id, r: Renaming, k: set<Id>, kg: set<Id>, t: Trace)
    requires Programs(p, q) && ValueRel(v, w) && fuel > 0 && Entered(env, group, base, temp, w, r, kg)
    requires Calling(env, envH, later, xs, c, next, done, rem, group, base, temp, w, r, k)
    requires Eval(q, fuel, envH, f, t) == Result(Finished(c), t)
    requires later.Cons? ==> TrHelpers(later.tail, Append(done, rem), temp, r, kg)
    ensures ResultRel(EvalFallen(p, fuel, env, v, later, t), Eval(q, fuel, envH, Apply(ApplyLocals(f, xs), UNIT), t))
    decreases fuel, SizeRows(later), 1, Length(xs)
  {
    if xs.Nil? {
      AppendNone(done);
      assert ApplyLocals(f, xs) == f && rem.Nil?;
      SimHelperEntered(p, q, fuel, env, envH, v, w, later, f, c, next, done, group, base, temp, r, k, kg, t);
    } else {
      var c' := PassHelper(q, fuel, env, envH, later, f, xs, c, next, done, rem, group, base, temp, w, r, k, t);
      AppendOne(done, rem.head, rem.tail);
      SimHelperCall(p, q, fuel, env, envH, v, w, later, Apply(f, Local(xs.head)), xs.tail, c',
                    Append(next, Cons(c.parameter, Nil)),
                    Append(done, Cons(rem.head, Nil)), rem.tail, group, base, temp, r, k + {c.parameter}, kg, t);
    }
  }

  /** All helpers are passed: the token enters the body. */
  lemma {:induction false} SimHelperEntered(p: Program, q: Program, fuel: nat, env: Env, envH: Env, v: Value, w: Value,
                                            later: List<Row>, f: Expr, c: Value, next: List<Id>, hs: List<Binding>,
                                            group: List<Binding>, base: Env, temp: Id, r: Renaming, k: set<Id>,
                                            kg: set<Id>, t: Trace)
    requires Programs(p, q) && ValueRel(v, w) && fuel > 0 && Entered(env, group, base, temp, w, r, kg)
    requires Calling(env, envH, later, Nil, c, next, hs, Nil, group, base, temp, w, r, k)
    requires Eval(q, fuel, envH, f, t) == Result(Finished(c), t)
    requires later.Cons? ==> TrHelpers(later.tail, hs, temp, r, kg)
    ensures ResultRel(EvalFallen(p, fuel, env, v, later, t), Eval(q, fuel, envH, Apply(f, UNIT), t))
    decreases fuel, SizeRows(later), 0, 0
  {
    UnitValue(q, fuel, envH, t);
    var scope := Scope(c.group, c.base);
    var inner := Cons(Entry(c.parameter, Data(RecordTag([]), Nil)), scope);
    var k' := k + {c.parameter};
    assert TrHelperBody(later, c.body, next, temp, r, k');
    OuterRel(env, scope, inner, r, k, k');
    HelpersBound(scope, next, hs, group, base, k);
    HelpersStay(scope, inner, next, hs, group, base, k);
    SimHelperBody(p, q, fuel - 1, env, inner, v, w, later, c.body, next, hs, group, base, temp, r, k', kg, t);
    ApplyEval(q, fuel, envH, f, UNIT, c, Data(RecordTag([]), Nil), t);
  }

  lemma {:induction false} SimHelperBody(p: Program, q: Program, fuel: nat, env: Env, env': Env, v: Value, w: Value,
                                         later: List<Row>, d: Expr, next: List<Id>, hs: List<Binding>,
                                         group: List<Binding>, base: Env, temp: Id, r: Renaming, k: set<Id>,
                                         kg: set<Id>, t: Trace)
    requires Programs(p, q) && ValueRel(v, w) && Entered(env, group, base, temp, w, r, kg)
    requires TrHelperBody(later, d, next, temp, r, k) && EnvRel(env, env', r, k) && Lookup(env', temp) == Some(w)
    requires HelpersIn(env', next, hs, group, base) && (later.Cons? ==> TrHelpers(later.tail, hs, temp, r, kg))
    ensures ResultRel(EvalFallen(p, fuel + 1, env, v, later, t), Eval(q, fuel, env', d, t))
    decreases fuel, SizeRows(later), 3, 0
  {
    assert Eval(q, fuel, env', Local(temp), t) == Result(Finished(w), t);
    if later.Cons? {
      var row, first := later.head, d.rows.head;
      MatchedRel(row.pattern, first.pattern, v, w, env, env', r, k);
      var m, m' := Matched(row.pattern, v, env), Matched(first.pattern, w, env');
      RowEval(q, fuel, env', w, d.rows, t);
      if m.None? {
        WildcardEval(q, fuel, env', w, d.rows.tail, t);
        SimFallen(p, q, fuel, env, env', v, w, later.tail, hs, next, group, base, temp, r, kg, t);
      } else {
        SimGuardedRow(p, q, fuel, env, env', m.value, m'.value, v, w, row, first, later.tail, hs, next, group, base,
                      temp, r, k, kg, t);
      }
    }
  }

  /** A matching guarded row, and the helper for the rows after it. */
  lemma {:induction false} SimGuardedRow(p: Program, q: Program, fuel: nat, env: Env, env': Env, m: Env, m': Env,
                                         v: Value, w: Value, row: Row, d: Row, rest: List<Row>, hs: List<Binding>,
                                         ids: List<Id>, group: List<Binding>, base: Env, temp: Id, r: Renaming,
                                         k: set<Id>, kg: set<Id>, t: Trace)
    requires Programs(p, q) && ValueRel(v, w) && Entered(env, group, base, temp, w, r, kg)
    requires HelpersIn(env', ids, hs, group, base) && TrHelpers(rest, hs, temp, r, kg) && EnvRel(env, env', r, k)
    requires EnvRel(m, m', BindPattern(row.pattern, d.pattern, r), k + PatternIds(d.pattern)) && Agree(env', m', k)
    requires TrRhs(row.value, d.value, BindPattern(row.pattern, d.pattern, r), k + PatternIds(d.pattern), CallNext(ids))
    ensures var x := EvalRhs(p, fuel, m, row.value, t);
            ResultRel(if x.outcome.Fell? then EvalFallen(p, fuel, env, v, rest, x.trace) else x,
                      Eval(q, fuel, m', d.value, t))
    decreases fuel, SizeRows(rest) + Size(row.value), 3, 0
  {
    var k' := k + PatternIds(d.pattern);
    HelpersBound(env', ids, hs, group, base, k);
    FailureInMore(CallNext(ids), k, k');
    SimRhs(p, q, fuel, m, m', row.value, d.value, BindPattern(row.pattern, d.pattern, r), k', CallNext(ids), t);
    var x := EvalRhs(p, fuel, m, row.value, t);
    RhsOutward(q, fuel, env', m', CallNext(ids), k, x, Eval(q, fuel, m', d.value, t));
    if x.outcome.Fell? {
      SimFallen(p, q, fuel, env, env', v, w, rest, hs, ids, group, base, temp, r, kg, x.trace);
    }
  }

  // ----- The root case -----

  function Later(rows: List<Row>, seen: bool): List<Row>
    requires rows.Cons? && (seen || AnyGuarded(rows))
  {
    if seen then rows.tail else HelperRows(rows)
  }

  /** Which helpers are left for the rows of the root case. */
  ghost predicate RootHelpers(env': Env, rows: List<Row>, seen: bool, hs: List<Binding>, ids: List<Id>,
                              group: List<Binding>, base: Env, temp: Id, r: Renaming, k: set<Id>) {
    && (seen || AnyGuarded(rows))
    && (rows.Cons? ==> TrHelpers(Later(rows, seen), hs, temp, r, k) && HelpersIn(env', ids, hs, group, base))
  }

  lemma {:induction false} RootHelpersRest(env': Env, rows: List<Row>, seen: bool, hs: List<Binding>, ids: List<Id>,
                                           group: List<Binding>, base: Env, temp: Id, r: Renaming, k: set<Id>)
    requires rows.Cons? && RootHelpers(env', rows, seen, hs, ids, group, base, temp, r, k)
    ensures var seen' := seen || IsGuardedRhs(rows.head.value);
            && hs.Cons? && ids.Cons?
            && RootHelpers(env', rows.tail, seen', if seen' then hs.tail else hs, if seen' then ids.tail else ids,
                           group, base, temp, r, k)
    ensures IsGuardedRhs(rows.head.value) ==> Later(rows, seen) == rows.tail
  {
  }

  lemma {:induction false} SimRoots(p: Program, q: Program, fuel: nat, env: Env, v: Value, w: Value, rows: List<Row>,
                                    ds: List<Row>, seen: bool, hs: List<Binding>, ids: List<Id>, group: List<Binding>,
                                    base: Env, temp: Id, r: Renaming, k: set<Id>, t: Trace)
    requires Programs(p, q) && ValueRel(v, w) && Entered(env, group, base, temp, w, r, k)
    requires TrRoots(rows, ds, ids, seen, r, k)
    requires RootHelpers(Scope(group, base), rows, seen, hs, ids, group, base, temp, r, k)
    ensures ResultRel(EvalRows(p, fuel, env, v, rows, t), EvalRows(q, fuel, Scope(group, base), w, ds, t))
    decreases fuel, SizeRows(rows), 3, 1
  {
    if rows.Cons? {
      var env' := Scope(group, base);
      MatchedRel(rows.head.pattern, ds.head.pattern, v, w, env, env', r, k);
      if Matched(rows.head.pattern, v, env).None? {
        var seen' := seen || IsGuardedRhs(rows.head.value);
        RootHelpersRest(env', rows, seen, hs, ids, group, base, temp, r, k);
        RowEval(q, fuel, env', w, ds, t);
        SimRoots(p, q, fuel, env, v, w, rows.tail, ds.tail, seen', if seen' then hs.tail else hs,
                 if seen' then ids.tail else ids, group, base, temp, r, k, t);
      } else {
        SimRootMatched(p, q, fuel, env, v, w, rows, ds, seen, hs, ids, group, base, temp, r, k, t);
      }
    }
  }

  /** The first row matches. */
  lemma {:induction false} SimRootMatched(p: Program, q: Program, fuel: nat, env: Env, v: Value, w: Value,
                                          rows: List<Row>, ds: List<Row>, seen: bool, hs: List<Binding>, ids: List<Id>,
                                          group: List<Binding>, base: Env, temp: Id, r: Renaming, k: set<Id>, t: Trace)
    requires Programs(p, q) && ValueRel(v, w) && Entered(env, group, base, temp, w, r, k)
    requires rows.Cons? && TrRoots(rows, ds, ids, seen, r, k) && Matched(rows.head.pattern, v, env).Some?
    requires RootHelpers(Scope(group, base), rows, seen, hs, ids, group, base, temp, r, k)
    ensures ResultRel(EvalRows(p, fuel, env, v, rows, t), EvalRows(q, fuel, Scope(group, base), w, ds, t))
    decreases fuel, SizeRows(rows), 3, 0
  {
    var env' := Scope(group, base);
    var row, d := rows.head, ds.head;
    MatchedRel(row.pattern, d.pattern, v, w, env, env', r, k);
    var m, m' := Matched(row.pattern, v, env), Matched(d.pattern, w, env');
    RowEval(q, fuel, env', w, ds, t);
    if IsGuardedRhs(row.value) {
      RootHelpersRest(env', rows, seen, hs, ids, group, base, temp, r, k);
      SimGuardedRow(p, q, fuel, env, env', m.value, m'.value, v, w, row, d, rows.tail, hs, ids, group, base, temp, r, k,
                    k, t);
    } else {
      SimEval(p, q, fuel, m.value, m'.value, row.value, d.value, BindPattern(row.pattern, d.pattern, r),
              k + PatternIds(d.pattern), t);
      UnguardedRhs(p, fuel, m.value, row.value, t);
    }
  }

  lemma {:induction false} SimMatch(p: Program, q: Program, fuel: nat, env: Env, base: Env, v: Value, w: Value,
                                    rows: List<Row>, temp: Id, helpers: List<Binding>, roots: List<Row>, r: Renaming,
                                    k: set<Id>, t: Trace)
    requires AnyGuarded(rows) && TrMatch(rows, temp, helpers, roots, r, k) && Programs(p, q) && ValueRel(v, w)
    requires EnvRel(env, base, r, k) && Lookup(base, temp) == Some(w) && temp in k
    ensures ResultRel(EvalRows(p, fuel, env, v, rows, t), EvalRows(q, fuel, Scope(helpers, base), w, roots, t))
    decreases fuel, SizeRows(rows), 4, 0
  {
    var k' := k + BoundIds(helpers);
    HelpersAreLambdas(HelperRows(rows), helpers, temp, r, k');
    FreshBindersApart(helpers, k);
    FunctionsAgree(helpers, helpers, base, k);
    forall y | Lookup(Scope(helpers, base), y).Some? ensures y in k' { FunctionsDomain(helpers, helpers, base, y); }
    OuterRel(env, base, Scope(helpers, base), r, k, k');
    HelpersEnter(helpers, helpers, base, k);
    SimRoots(p, q, fuel, env, v, w, rows, roots, false, helpers, Binders(helpers), helpers, base, temp, r, k', t);
  }

  // ----- The whole case -----

  /** Wrapping the scrutinee and every pattern changes nothing. */
  lemma {:induction false} WrapRowsEval(p: Program, fuel: nat, env: Env, v: Value, rows: List<Row>, t: Trace)
    ensures EvalRows(p, fuel, env, Wrapped(v), WrapRows(rows), t) == EvalRows(p, fuel, env, v, rows, t)
    ensures EvalFallen(p, fuel, env, Wrapped(v), WrapRows(rows), t) == EvalFallen(p, fuel, env, v, rows, t)
    decreases fuel, rows
  {
    if rows.Cons? {
      var row, rest := rows.head, rows.tail;
      WrappedMatch(row.pattern, v, env);
      var m := Matched(row.pattern, v, env);
      if m.None? {
        WrapRowsEval(p, fuel, env, v, rest, t);
        if fuel > 0 { WrapRowsEval(p, fuel - 1, env, v, rest, t); }
      } else {
        WrapRowsEval(p, fuel, env, v, rest, EvalRhs(p, fuel, m.value, row.value, t).trace);
        if fuel > 0 { WrapRowsEval(p, fuel - 1, env, v, rest, EvalRhs(p, fuel - 1, m.value, row.value, t).trace); }
      }
    }
  }

  /** What the generated lets do: evaluate the scrutinee once, then try the root rows. */
  lemma {:induction false} MatchEval(q: Program, fuel: nat, env: Env, d: Expr, t: Trace)
    requires IsMatch(d) && AsLambda(d.bindings.head.value).None? && AllLambdas(d.body.bindings)
    requires d.bindings.head.id !in BoundIds(d.body.bindings)
    ensures var b, helpers := d.bindings.head, d.body.bindings;
            var w := Eval(q, fuel, env, b.value, t);
            Eval(q, fuel, env, d, t)
            == if !w.outcome.Finished? then w
               else EvalRows(q, fuel, Scope(helpers, Cons(Entry(b.id, w.outcome.value), env)), w.outcome.value,
                             d.body.body.rows, w.trace)
  {
    var b, helpers := d.bindings.head, d.body.bindings;
    var w := Eval(q, fuel, env, b.value, t);
    assert d.bindings == Cons(b, Nil);
    SingleScope(b, env);
    if w.outcome.Finished? {
      var base := Cons(Entry(b.id, w.outcome.value), env);
      SingleScope(b, base);
      assert EvalBindings(q, fuel, Nil, d.bindings, base, w.trace) == Got(base, w.trace);
      assert EvalBindings(q, fuel, d.bindings, d.bindings, env, t) == Got(base, w.trace);
      assert Eval(q, fuel, env, d, t) == Eval(q, fuel, base, d.body, w.trace);
      GroupedCaseEval(q, fuel, base, d.body, b.id, w.outcome.value, w.trace);
    } else {
      assert EvalBindings(q, fuel, d.bindings, d.bindings, env, t) == Lost(w);
    }
  }

  lemma {:induction false} SingleScope(b: Binding, env: Env)
    requires AsLambda(b.value).None?
    ensures Scope(Cons(b, Nil), env) == env
  {
    assert Functions(Nil, Cons(b, Nil), env) == env;
  }

  lemma {:induction false} GroupedCaseEval(q: Program, fuel: nat, base: Env, d: Expr, temp: Id, w: Value, t: Trace)
    requires d.Let? && d.body.Case? && d.body.scrutinee == Local(temp) && AllLambdas(d.bindings)
             && temp !in BoundIds(d.bindings)
    requires Lookup(base, temp) == Some(w)
    ensures Eval(q, fuel, base, d, t) == EvalRows(q, fuel, Scope(d.bindings, base), w, d.body.rows, t)
  {
    LambdasOnly(q, fuel, d.bindings, d.bindings, base, t);
    FunctionsAgree(d.bindings, d.bindings, base, {temp});
    assert Lookup(Scope(d.bindings, base), temp) == Some(w);
    assert Eval(q, fuel, Scope(d.bindings, base), Local(temp), t) == Result(Finished(w), t);
  }

  lemma {:induction false} SimCase(p: Program, q: Program, fuel: nat, env: Env, env': Env, s: Expr, rows: List<Row>,
                                   d: Expr, r: Renaming, k: set<Id>, t: Trace)
    requires AnyGuarded(rows) && Programs(p, q) && TrCase(s, rows, d, r, k) && EnvRel(env, env', r, k)
    ensures ResultRel(Eval(p, fuel, env, Case(s, rows), t), Eval(q, fuel, env', d, t))
    decreases fuel, Size(s) + SizeRows(rows), 5, 0
  {
    var temp, saved, helpers := d.bindings.head.id, d.bindings.head.value, d.body.bindings;
    var k' := k + {temp};
    assert TrMatch(MaybeWrapped(rows), temp, helpers, d.body.body.rows, r, k');
    HelpersAreLambdas(HelperRows(MaybeWrapped(rows)), helpers, temp, r, k' + BoundIds(helpers));
    FreshBindersApart(helpers, k');
    OuterRel(env, env', env', r, k, k');
    if AsLambda(saved).Some? {
      SimFunctionCase(p, q, fuel, env, env', s, rows, d, r, k, t);
    } else {
      SimScrutinee(p, q, fuel, env, env', s, saved, !AllRecordPatterns(rows), r, k', t);
      var v, w := Eval(p, fuel, env, s, t), Eval(q, fuel, env', saved, t);
      if v.outcome.Finished? {
        SimSavedCase(p, q, fuel, env, env', v.outcome.value, w.outcome.value, rows, temp, helpers, d.body.body.rows, r,
                     k, v.trace);
      }
      JoinCase(p, q, fuel, env, env', s, rows, d, t, v, w);
    }
  }

  lemma {:induction false} JoinCase(p: Program, q: Program, fuel: nat, env: Env, env': Env, s: Expr, rows: List<Row>,
                                    d: Expr, t: Trace, v: Result, w: Result)
    requires IsMatch(d) && AsLambda(d.bindings.head.value).None? && AllLambdas(d.body.bindings)
    requires d.bindings.head.id !in BoundIds(d.body.bindings)
    requires v == Eval(p, fuel, env, s, t) && w == Eval(q, fuel, env', d.bindings.head.value, t)
    requires if v.outcome.Finished? then
               && w.outcome.Finished? && w.trace == v.trace
               && ResultRel(EvalRows(p, fuel, env, v.outcome.value, rows, v.trace),
                            EvalRows(q, fuel, Scope(d.body.bindings,
                                                    Cons(Entry(d.bindings.head.id, w.outcome.value), env')),
                                     w.outcome.value, d.body.body.rows, v.trace))
             else ResultRel(v, w)
    ensures ResultRel(Eval(p, fuel, env, Case(s, rows), t), Eval(q, fuel, env', d, t))
  {
    MatchEval(q, fuel, env', d, t);
  }

  lemma {:induction false} SimSavedCase(p: Program, q: Program, fuel: nat, env: Env, env': Env, v: Value, w: Value,
                                        rows: List<Row>, temp: Id, helpers: List<Binding>, roots: List<Row>,
                                        r: Renaming, k: set<Id>, t: Trace)
    requires AnyGuarded(rows) && Programs(p, q) && EnvRel(env, env', r, k) && temp !in k
    requires TrMatch(MaybeWrapped(rows), temp, helpers, roots, r, k + {temp})
    requires ValueRel(if AllRecordPatterns(rows) then v else Wrapped(v), w)
    ensures ResultRel(EvalRows(p, fuel, env, v, rows, t),
                      EvalRows(q, fuel, Scope(helpers, Cons(Entry(temp, w), env')), w, roots, t))
    decreases fuel, SizeRows(rows), 5, 0
  {
    var base := Cons(Entry(temp, w), env');
    OuterRel(env, env', base, r, k, k + {temp});
    WrapRowsEval(p, fuel, env, v, rows, t);
    SimMatch(p, q, fuel, env, base, if AllRecordPatterns(rows) then v else Wrapped(v), w, MaybeWrapped(rows), temp,
             helpers, roots, r,
             k + {temp}, t);
  }

  // ----- A function as the scrutinee of record patterns -----

  lemma {:induction false} AsLambdaEval(p: Program, fuel: nat, env: Env, e: Expr, t: Trace)
    requires AsLambda(e).Some?
    ensures var f := AsLambda(e).value;
            Eval(p, fuel, env, e, t) == Result(Finished(Closure(Nil, env, f.parameter, f.body)), t)
    decreases e
  {
    match e
    case Lambda(_, _) =>
    case Compound(form, parts) =>
      AsLambdaEval(p, fuel, env, parts.head, t);
      var v := Eval(p, fuel, env, parts.head, t).outcome.value;
      assert EvalParts(p, fuel, env, parts.tail, t) == Got(Nil, t);
      assert EvalParts(p, fuel, env, parts, t) == Got(Cons(v, Nil), t);
    case Guarded(cs) =>
      var c := cs.head;
      AsLambdaEval(p, fuel, env, c.value, t);
      assert EvalBindings(p, fuel, c.wheres, c.wheres, env, t) == Got(env, t) && Scope(c.wheres, env) == env;
      assert EvalGuards(p, fuel, env, c.guards, c.value, t) == Eval(p, fuel, env, c.value, t);
  }

  lemma {:induction false} ClosureFits(p: Program, fuel: nat, env: Env, v: Value, rows: List<Row>, t: Trace)
    requires AllRecordPatterns(rows) && v.Closure?
    ensures EvalRows(p, fuel, env, v, rows, t) == Result(MatchFailure, t)
  {
    match rows
    case Nil =>
    case Cons(_, rest) => ClosureFits(p, fuel, env, v, rest, t);
  }

  lemma {:induction false} RootsRecord(rows: List<Row>, ds: List<Row>, ids: List<Id>, seen: bool, r: Renaming,
                                       k: set<Id>)
    requires TrRoots(rows, ds, ids, seen, r, k) && AllRecordPatterns(rows)
    ensures AllRecordPatterns(ds)
    decreases rows
  {
    if rows.Cons? {
      var seen' := seen || IsGuardedRhs(rows.head.value);
      RootsRecord(rows.tail, ds.tail, if seen' then ids.tail else ids, seen', r, k);
    }
  }

  lemma {:induction false} SimFunctionCase(p: Program, q: Program, fuel: nat, env: Env, env': Env, s: Expr,
                                           rows: List<Row>, d: Expr, r: Renaming, k: set<Id>, t: Trace)
    requires AnyGuarded(rows) && TrCase(s, rows, d, r, k) && AsLambda(d.bindings.head.value).Some?
    ensures ResultRel(Eval(p, fuel, env, Case(s, rows), t), Eval(q, fuel, env', d, t))
  {
    FunctionScrutinee(s, rows, d, r, k);
    AsLambdaEval(p, fuel, env, s, t);
    ClosureFits(p, fuel, env, Eval(p, fuel, env, s, t).outcome.value, rows, t);
    FunctionHelpers(s, rows, d, r, k);
    FunctionCaseEval(q, fuel, env', d, t);
  }

  /** A function is only saved unwrapped, for record patterns. */
  lemma {:induction false} FunctionScrutinee(s: Expr, rows: List<Row>, d: Expr, r: Renaming, k: set<Id>)
    requires AnyGuarded(rows) && TrCase(s, rows, d, r, k) && AsLambda(d.bindings.head.value).Some?
    ensures AllRecordPatterns(rows) && AsLambda(s).Some?
  {
    AsLambdaTr(s, d.bindings.head.value, r, k + {d.bindings.head.id});
  }

  lemma {:induction false} FunctionHelpers(s: Expr, rows: List<Row>, d: Expr, r: Renaming, k: set<Id>)
    requires AnyGuarded(rows) && TrCase(s, rows, d, r, k) && AllRecordPatterns(rows)
    ensures AllLambdas(d.body.bindings) && d.bindings.head.id !in BoundIds(d.body.bindings)
    ensures AllRecordPatterns(d.body.body.rows)
  {
    var b, helpers, roots := d.bindings.head, d.body.bindings, d.body.body.rows;
    var k' := k + {b.id};
    assert TrMatch(rows, b.id, helpers, roots, r, k');
    RootsRecord(rows, roots, Binders(helpers), false, r, k' + BoundIds(helpers));
    HelpersAreLambdas(HelperRows(rows), helpers, b.id, r, k' + BoundIds(helpers));
    FreshBindersApart(helpers, k');
  }

  lemma {:induction false} FunctionCaseEval(q: Program, fuel: nat, env: Env, d: Expr, t: Trace)
    requires IsMatch(d) && AsLambda(d.bindings.head.value).Some? && AllLambdas(d.body.bindings)
    requires d.bindings.head.id !in BoundIds(d.body.bindings) && AllRecordPatterns(d.body.body.rows)
    ensures Eval(q, fuel, env, d, t) == Result(MatchFailure, t)
  {
    var b := d.bindings.head;
    var f := AsLambda(b.value).value;
    var c := Closure(d.bindings, env, f.parameter, f.body);
    assert d.bindings == Cons(b, Nil);
    assert Functions(Nil, d.bindings, env) == env;
    assert EvalBindings(q, fuel, Nil, d.bindings, env, t) == Got(env, t);
    assert EvalBindings(q, fuel, d.bindings, d.bindings, env, t) == Got(env, t);
    var base := Scope(d.bindings, env);
    assert Lookup(base, b.id) == Some(c);
    GroupedCaseEval(q, fuel, base, d.body, b.id, c, t);
    ClosureFits(q, fuel, Scope(d.body.bindings, base), c, d.body.body.rows, t);
  }
}
