/** Fuel only decides whether an evaluation finishes: with more of it, a finished evaluation has
    the same outcome and trace, and spending some on fallthrough changes no outcome.
 */
module HirFuel {
  import opened Lists
  import opened Hir
  import opened HirSemantics

  predicate Settles(r: Result, more: Result) {
    !r.outcome.OutOfFuel? ==> more == r
  }

  predicate SettlesGot<T(==)>(r: Got<T>, more: Got<T>) {
    (r.Lost? && r.result.outcome.OutOfFuel?) || more == r
  }

  lemma {:induction false} MoreFuel(p: Program, k: nat, j: nat, env: Env, e: Expr, t: Trace)
    requires k <= j
    ensures Settles(Eval(p, k, env, e, t), Eval(p, j, env, e, t))
    decreases k, Size(e), 1
  {
    match e
    case Global(s) => MoreFuelGlobal(p, k, j, s, t);
    case Compound(_, parts) => MoreFuelParts(p, k, j, env, parts, t);
    case Apply(f, a) => MoreFuelApply(p, k, j, env, f, a, t);
    case Operator(s, l, r) =>
      MoreFuelGlobal(p, k, j, s, t);
      var first := EvalGlobal(p, k, s, t);
      if !first.outcome.OutOfFuel? {
        MoreFuelCall(p, k, j, env, first, l);
        var second := EvalCall(p, k, env, first, l);
        if !second.outcome.OutOfFuel? { MoreFuelCall(p, k, j, env, second, r); }
      }
    case Negate(f, a) => MoreFuelApply(p, k, j, env, f, a, t);
    case Let(bs, b) => MoreFuelLet(p, k, j, env, bs, b, t);
    case If(c, consequent, alternative) => MoreFuelIf(p, k, j, env, c, consequent, alternative, t);
    case Case(s, rows) =>
      MoreFuel(p, k, j, env, s, t);
      var r := Eval(p, k, env, s, t);
      if r.outcome.Finished? { MoreFuelRows(p, k, j, env, r.outcome.value, rows, r.trace); }
    case Guarded(cs) => MoreFuelClauses(p, k, j, env, cs, t);
    case _ =>
  }

  lemma {:induction false} MoreFuelGlobal(p: Program, k: nat, j: nat, s: Symbol, t: Trace)
    requires k <= j
    ensures Settles(EvalGlobal(p, k, s, t), EvalGlobal(p, j, s, t))
    decreases k, 0, 0
  {
    if s in p.definitions && k > 0 { MoreFuel(p, k - 1, j - 1, Nil, p.definitions[s], t); }
  }

  lemma {:induction false} MoreFuelApplied(p: Program, k: nat, j: nat, f: Value, a: Value, t: Trace)
    requires k <= j
    ensures Settles(Call(p, k, f, a, t), Call(p, j, f, a, t))
    decreases k, 0, 0
  {
    if f.Closure? && k > 0 {
      MoreFuel(p, k - 1, j - 1, Cons(Entry(f.parameter, a), Scope(f.group, f.base)), f.body, t);
    }
  }

  lemma {:induction false} MoreFuelCall(p: Program, k: nat, j: nat, env: Env, f: Result, a: Expr)
    requires k <= j
    ensures Settles(EvalCall(p, k, env, f, a), EvalCall(p, j, env, f, a))
    decreases k, Size(a), 2
  {
    if f.outcome.Finished? {
      MoreFuel(p, k, j, env, a, f.trace);
      var v := Eval(p, k, env, a, f.trace);
      if v.outcome.Finished? { MoreFuelApplied(p, k, j, f.outcome.value, v.outcome.value, v.trace); }
    }
  }

  lemma {:induction false} MoreFuelApply(p: Program, k: nat, j: nat, env: Env, f: Expr, a: Expr, t: Trace)
    requires k <= j
    ensures Settles(EvalCall(p, k, env, Eval(p, k, env, f, t), a), EvalCall(p, j, env, Eval(p, j, env, f, t), a))
    decreases k, Size(f) + Size(a), 3
  {
    MoreFuel(p, k, j, env, f, t);
    var r := Eval(p, k, env, f, t);
    if !r.outcome.OutOfFuel? { MoreFuelCall(p, k, j, env, r, a); }
  }

  lemma {:induction false} MoreFuelLet(p: Program, k: nat, j: nat, env: Env, bs: List<Binding>, b: Expr, t: Trace)
    requires k <= j
    ensures Settles(Eval(p, k, env, Let(bs, b), t), Eval(p, j, env, Let(bs, b), t))
    decreases k, SizeBindings(bs) + Size(b), 3
  {
    MoreFuelBindings(p, k, j, bs, bs, env, t);
    var got := EvalBindings(p, k, bs, bs, env, t);
    if got.Got? { MoreFuel(p, k, j, Scope(bs, got.value), b, got.trace); }
  }

  lemma {:induction false} MoreFuelIf(p: Program, k: nat, j: nat, env: Env, c: Expr, a: Expr, b: Expr, t: Trace)
    requires k <= j
    ensures Settles(Eval(p, k, env, If(c, a, b), t), Eval(p, j, env, If(c, a, b), t))
    decreases k, Size(c) + Size(a) + Size(b), 3
  {
    MoreFuel(p, k, j, env, c, t);
    var r := Eval(p, k, env, c, t);
    MoreFuel(p, k, j, env, a, r.trace);
    MoreFuel(p, k, j, env, b, r.trace);
  }

  lemma {:induction false} MoreFuelParts(p: Program, k: nat, j: nat, env: Env, es: List<Expr>, t: Trace)
    requires k <= j
    ensures SettlesGot(EvalParts(p, k, env, es, t), EvalParts(p, j, env, es, t))
    decreases k, SizeParts(es), 0
  {
    match es
    case Nil =>
    case Cons(e, rest) =>
      MoreFuel(p, k, j, env, e, t);
      MoreFuelParts(p, k, j, env, rest, Eval(p, k, env, e, t).trace);
  }

  lemma {:induction false} MoreFuelBindings(p: Program, k: nat, j: nat, bs: List<Binding>, group: List<Binding>,
                                            base: Env, t: Trace)
    requires k <= j
    ensures SettlesGot(EvalBindings(p, k, bs, group, base, t), EvalBindings(p, j, bs, group, base, t))
    decreases k, SizeBindings(bs), 0
  {
    match bs
    case Nil =>
    case Cons(b, rest) =>
      if AsLambda(b.value).Some? {
        MoreFuelBindings(p, k, j, rest, group, base, t);
      } else {
        MoreFuel(p, k, j, Scope(group, base), b.value, t);
        var r := Eval(p, k, Scope(group, base), b.value, t);
        if r.outcome.Finished? {
          MoreFuelBindings(p, k, j, rest, group, Cons(Entry(b.id, r.outcome.value), base), r.trace);
        }
      }
  }

  lemma {:induction false} MoreFuelRows(p: Program, k: nat, j: nat, env: Env, v: Value, rows: List<Row>, t: Trace)
    requires k <= j
    ensures Settles(EvalRows(p, k, env, v, rows, t), EvalRows(p, j, env, v, rows, t))
    decreases k, SizeRows(rows), 0
  {
    match rows
    case Nil =>
    case Cons(row, rest) =>
      match Matched(row.pattern, v, env)
      case None => MoreFuelRows(p, k, j, env, v, rest, t);
      case Some(env') =>
        MoreFuelRhs(p, k, j, env', row.value, t);
        MoreFuelFallen(p, k, j, env, v, rest, EvalRhs(p, k, env', row.value, t).trace);
  }

  lemma {:induction false} MoreFuelFallen(p: Program, k: nat, j: nat, env: Env, v: Value, rows: List<Row>, t: Trace)
    requires k <= j
    ensures Settles(EvalFallen(p, k, env, v, rows, t), EvalFallen(p, j, env, v, rows, t))
    decreases k, SizeRows(rows), 0
  {
    if k > 0 && rows.Cons? {
      match Matched(rows.head.pattern, v, env)
      case None => MoreFuelFallen(p, k - 1, j - 1, env, v, rows.tail, t);
      case Some(env') =>
        MoreFuelRhs(p, k - 1, j - 1, env', rows.head.value, t);
        MoreFuelFallen(p, k - 1, j - 1, env, v, rows.tail, EvalRhs(p, k - 1, env', rows.head.value, t).trace);
    }
  }

  lemma {:induction false} MoreFuelRhs(p: Program, k: nat, j: nat, env: Env, e: Expr, t: Trace)
    requires k <= j
    ensures Settles(EvalRhs(p, k, env, e, t), EvalRhs(p, j, env, e, t))
    decreases k, Size(e), 2
  {
    match e
    case Guarded(cs) => MoreFuelClauses(p, k, j, env, cs, t);
    case Let(bs, b) =>
      MoreFuelBindings(p, k, j, bs, bs, env, t);
      var got := EvalBindings(p, k, bs, bs, env, t);
      if got.Got? { MoreFuelRhs(p, k, j, Scope(bs, got.value), b, got.trace); }
    case _ => MoreFuel(p, k, j, env, e, t);
  }

  lemma {:induction false} MoreFuelClauses(p: Program, k: nat, j: nat, env: Env, cs: List<Clause>, t: Trace)
    requires k <= j
    ensures Settles(EvalClauses(p, k, env, cs, t), EvalClauses(p, j, env, cs, t))
    decreases k, SizeClauses(cs), 0
  {
    match cs
    case Nil =>
    case Cons(c, rest) =>
      MoreFuelBindings(p, k, j, c.wheres, c.wheres, env, t);
      var got := EvalBindings(p, k, c.wheres, c.wheres, env, t);
      if got.Got? {
        MoreFuelGuards(p, k, j, Scope(c.wheres, got.value), c.guards, c.value, got.trace);
        var r := EvalGuards(p, k, Scope(c.wheres, got.value), c.guards, c.value, got.trace);
        MoreFuelClauses(p, k, j, env, rest, r.trace);
      }
  }

  lemma {:induction false} MoreFuelGuards(p: Program, k: nat, j: nat, env: Env, gs: List<Guard>, value: Expr, t: Trace)
    requires k <= j
    ensures Settles(EvalGuards(p, k, env, gs, value, t), EvalGuards(p, j, env, gs, value, t))
    decreases k, SizeGuards(gs) + Size(value), 2
  {
    if gs.Nil? {
      MoreFuel(p, k, j, env, value, t);
    } else {
      var g, rest := gs.head, gs.tail;
      assert SizeGuards(gs) == 1 + SizeGuard(g) + SizeGuards(rest);
      match g
      case Test(c) =>
        MoreFuel(p, k, j, env, c, t);
        MoreFuelGuards(p, k, j, env, rest, value, Eval(p, k, env, c, t).trace);
      case Match(q, e) =>
        MoreFuel(p, k, j, env, e, t);
        var r := Eval(p, k, env, e, t);
        if r.outcome.Finished? {
          var inner := Matched(q, r.outcome.value, env);
          if inner.Some? { MoreFuelGuards(p, k, j, inner.value, rest, value, r.trace); }
        }
      case Bindings(bs) =>
        MoreFuelBindings(p, k, j, bs, bs, env, t);
        var got := EvalBindings(p, k, bs, bs, env, t);
        if got.Got? { MoreFuelGuards(p, k, j, Scope(bs, got.value), rest, value, got.trace); }
    }
  }

  /** The fuel spent on falling through makes no difference to a finished evaluation. */
  lemma {:induction false} FallenAsRows(p: Program, k: nat, env: Env, v: Value, rows: List<Row>, t: Trace)
    ensures Settles(EvalFallen(p, k, env, v, rows, t), EvalRows(p, k, env, v, rows, t))
    decreases k
  {
    if k > 0 && rows.Cons? {
      match Matched(rows.head.pattern, v, env)
      case None =>
        FallenAsRows(p, k - 1, env, v, rows.tail, t);
        MoreFuelRows(p, k - 1, k, env, v, rows.tail, t);
      case Some(env') =>
        MoreFuelRhs(p, k - 1, k, env', rows.head.value, t);
        MoreFuelFallen(p, k - 1, k, env, v, rows.tail, EvalRhs(p, k - 1, env', rows.head.value, t).trace);
    }
  }

  /** With one more unit of fuel for each row, and one for the end, falling through finishes as well. */
  lemma {:induction false} RowsAsFallen(p: Program, k: nat, env: Env, v: Value, rows: List<Row>, t: Trace)
    ensures Settles(EvalRows(p, k, env, v, rows, t), EvalFallen(p, k + 1 + Length(rows), env, v, rows, t))
    decreases rows
  {
    if rows.Cons? {
      var j := k + Length(rows);
      match Matched(rows.head.pattern, v, env)
      case None => RowsAsFallen(p, k, env, v, rows.tail, t);
      case Some(env') =>
        MoreFuelRhs(p, k, j, env', rows.head.value, t);
        MoreFuelFallen(p, k, j, env, v, rows.tail, EvalRhs(p, k, env', rows.head.value, t).trace);
    }
  }

  predicate FallsTo(p: Program, k: nat, env: Env, v: Value, rows: List<Row>, t: Trace, r: Result) {
    EvalFallen(p, k, env, v, rows, t) == r
  }

  predicate RowsTo(p: Program, k: nat, env: Env, v: Value, rows: List<Row>, t: Trace, r: Result) {
    EvalRows(p, k, env, v, rows, t) == r
  }

  /** Falling through to some rows can finish with exactly the results that the rows can. */
  lemma {:induction false} FallenExactlyRows(p: Program, env: Env, v: Value, rows: List<Row>, t: Trace, r: Result)
    requires !r.outcome.OutOfFuel?
    ensures (exists k: nat :: FallsTo(p, k, env, v, rows, t, r))
            <==> exists k: nat :: RowsTo(p, k, env, v, rows, t, r)
  {
    if k: nat :| FallsTo(p, k, env, v, rows, t, r) {
      FallenAsRows(p, k, env, v, rows, t);
      assert RowsTo(p, k, env, v, rows, t, r);
    }
    if k: nat :| RowsTo(p, k, env, v, rows, t, r) {
      RowsAsFallen(p, k, env, v, rows, t);
      assert FallsTo(p, k + 1 + Length(rows), env, v, rows, t, r);
    }
  }

  /** Two finished evaluations agree, whatever their fuel. */
  lemma {:induction false} Deterministic(p: Program, k: nat, j: nat, env: Env, e: Expr, t: Trace)
    requires !Eval(p, k, env, e, t).outcome.OutOfFuel? && !Eval(p, j, env, e, t).outcome.OutOfFuel?
    ensures Eval(p, k, env, e, t) == Eval(p, j, env, e, t)
  {
    if k <= j { MoreFuel(p, k, j, env, e, t); } else { MoreFuel(p, j, k, env, e, t); }
  }

  // ----- Only a guarded right-hand side falls through -----

  lemma {:induction false} NeverFell(p: Program, k: nat, env: Env, e: Expr, t: Trace)
    ensures !Eval(p, k, env, e, t).outcome.Fell?
    decreases k, Size(e), 1
  {
    match e
    case Global(s) => NeverFellGlobal(p, k, s, t);
    case Compound(_, parts) => NeverFellParts(p, k, env, parts, t);
    case Apply(f, a) => NeverFell(p, k, env, f, t); NeverFellCall(p, k, env, Eval(p, k, env, f, t), a);
    case Operator(s, l, r) =>
      NeverFellGlobal(p, k, s, t);
      var first := EvalGlobal(p, k, s, t);
      NeverFellCall(p, k, env, first, l);
      NeverFellCall(p, k, env, EvalCall(p, k, env, first, l), r);
    case Negate(f, a) => NeverFell(p, k, env, f, t); NeverFellCall(p, k, env, Eval(p, k, env, f, t), a);
    case Let(bs, b) =>
      NeverFellBindings(p, k, bs, bs, env, t);
      var got := EvalBindings(p, k, bs, bs, env, t);
      if got.Got? { NeverFell(p, k, Scope(bs, got.value), b, got.trace); }
    case If(c, consequent, alternative) =>
      NeverFell(p, k, env, c, t);
      var t' := Eval(p, k, env, c, t).trace;
      NeverFell(p, k, env, consequent, t');
      NeverFell(p, k, env, alternative, t');
    case Case(s, rows) =>
      NeverFell(p, k, env, s, t);
      var r := Eval(p, k, env, s, t);
      if r.outcome.Finished? { NeverFellRows(p, k, env, r.outcome.value, rows, r.trace); }
    case _ =>
  }

  lemma {:induction false} NeverFellGlobal(p: Program, k: nat, s: Symbol, t: Trace)
    ensures !EvalGlobal(p, k, s, t).outcome.Fell?
    decreases k, 0, 0
  {
    if s in p.definitions && k > 0 { NeverFell(p, k - 1, Nil, p.definitions[s], t); }
  }

  lemma {:induction false} NeverFellCall(p: Program, k: nat, env: Env, f: Result, a: Expr)
    requires !f.outcome.Fell?
    ensures !EvalCall(p, k, env, f, a).outcome.Fell?
    decreases k, Size(a), 2
  {
    if f.outcome.Finished? {
      NeverFell(p, k, env, a, f.trace);
      var v, g := Eval(p, k, env, a, f.trace), f.outcome.value;
      if v.outcome.Finished? && g.Closure? && k > 0 {
        NeverFell(p, k - 1, Cons(Entry(g.parameter, v.outcome.value), Scope(g.group, g.base)), g.body, v.trace);
      }
    }
  }

  lemma {:induction false} NeverFellParts(p: Program, k: nat, env: Env, es: List<Expr>, t: Trace)
    ensures var g := EvalParts(p, k, env, es, t); g.Lost? ==> !g.result.outcome.Fell?
    decreases k, SizeParts(es), 0
  {
    match es
    case Nil =>
    case Cons(e, rest) =>
      NeverFell(p, k, env, e, t);
      NeverFellParts(p, k, env, rest, Eval(p, k, env, e, t).trace);
  }

  lemma {:induction false} NeverFellBindings(p: Program, k: nat, bs: List<Binding>, group: List<Binding>, base: Env,
                                             t: Trace)
    ensures var g := EvalBindings(p, k, bs, group, base, t); g.Lost? ==> !g.result.outcome.Fell?
    decreases k, SizeBindings(bs), 0
  {
    match bs
    case Nil =>
    case Cons(b, rest) =>
      if AsLambda(b.value).Some? {
        NeverFellBindings(p, k, rest, group, base, t);
      } else {
        NeverFell(p, k, Scope(group, base), b.value, t);
        var r := Eval(p, k, Scope(group, base), b.value, t);
        if r.outcome.Finished? { NeverFellBindings(p, k, rest, group, Cons(Entry(b.id, r.outcome.value), base),
                                                   r.trace); }
      }
  }

  lemma {:induction false} NeverFellRows(p: Program, k: nat, env: Env, v: Value, rows: List<Row>, t: Trace)
    ensures !EvalRows(p, k, env, v, rows, t).outcome.Fell?
    decreases k, SizeRows(rows), 0
  {
    match rows
    case Nil =>
    case Cons(row, rest) =>
      var m := Matched(row.pattern, v, env);
      if m.None? { NeverFellRows(p, k, env, v, rest, t); }
      else { NeverFellFallen(p, k, env, v, rest, EvalRhs(p, k, m.value, row.value, t).trace); }
  }

  lemma {:induction false} NeverFellFallen(p: Program, k: nat, env: Env, v: Value, rows: List<Row>, t: Trace)
    ensures !EvalFallen(p, k, env, v, rows, t).outcome.Fell?
    decreases k, SizeRows(rows), 0
  {
    if k > 0 && rows.Cons? {
      var m := Matched(rows.head.pattern, v, env);
      if m.None? { NeverFellFallen(p, k - 1, env, v, rows.tail, t); }
      else { NeverFellFallen(p, k - 1, env, v, rows.tail, EvalRhs(p, k - 1, m.value, rows.head.value, t).trace); }
    }
  }
}
