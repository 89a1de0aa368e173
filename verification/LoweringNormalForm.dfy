/** Lowering reaches a normal form and is the identity on it, allocating nothing
    (crates/psrs-desugar/src/guards.rs, expr.rs; the second pass over lowered parts).
 */
module LoweringNormalForm {
  import opened Lists
  import opened Hir
  import opened Alpha
  import opened Lowering

  lemma {:induction false} GuardedHasSugar(e: Expr)
    requires IsGuardedRhs(e)
    ensures Sugar(e) > 0
  {
    match e
    case Guarded(_) =>
    case Let(_, b) => GuardedHasSugar(b);
  }

  lemma {:induction false} GuardedRowsHaveSugar(rows: List<Row>)
    requires AnyGuarded(rows)
    ensures SugarRows(rows) > 0
  {
    match rows
    case Cons(r, rest) => if IsGuardedRhs(r.value) { GuardedHasSugar(r.value); } else { GuardedRowsHaveSugar(rest); }
  }

  lemma {:induction false} LowerNormal(e: Expr, n: Id)
    requires Sugar(e) == 0
    ensures Lower(e, n) == Out(e, n)
  {
    match e
    case Compound(_, parts) => LowerNormalParts(parts, n);
    case Apply(f, a) => LowerNormal(f, n); LowerNormal(a, n);
    case Lambda(_, b) => LowerNormal(b, n);
    case Let(bs, b) => LowerNormalBindings(bs, n); LowerNormal(b, n);
    case If(c, t, f) => LowerNormal(c, n); LowerNormal(t, n); LowerNormal(f, n);
    case Case(s, rows) =>
      LowerNormal(s, n);
      LowerNormalRows(rows, n);
      if AnyGuarded(rows) { GuardedRowsHaveSugar(rows); }
    case _ =>
  }

  lemma {:induction false} LowerNormalParts(es: List<Expr>, n: Id)
    requires SugarParts(es) == 0
    ensures LowerParts(es, n) == Out(es, n)
  {
    match es
    case Nil =>
    case Cons(e, rest) => LowerNormal(e, n); LowerNormalParts(rest, n);
  }

  lemma {:induction false} LowerNormalBindings(bs: List<Binding>, n: Id)
    requires SugarBindings(bs) == 0
    ensures LowerBindings(bs, n) == Out(bs, n)
  {
    match bs
    case Nil =>
    case Cons(b, rest) => LowerNormal(b.value, n); LowerNormalBindings(rest, n);
  }

  lemma {:induction false} LowerNormalRows(rows: List<Row>, n: Id)
    requires SugarRows(rows) == 0
    ensures LowerRows(rows, n) == Out(rows, n)
  {
    match rows
    case Nil =>
    case Cons(r, rest) => LowerNormal(r.value, n); LowerNormalRows(rest, n);
  }

  // ----- Lowered trees are in normal form -----

  lemma {:induction false} ApplyLocalsNormal(f: Expr, xs: List<Id>)
    requires Sugar(f) == 0
    ensures Sugar(ApplyLocals(f, xs)) == 0
    decreases xs
  {
    match xs
    case Nil =>
    case Cons(x, rest) =>
      var argument := Local(x);
      assert Sugar(argument) == 0;
      ApplyLocalsNormal(Apply(f, argument), rest);
  }

  lemma {:induction false} CallHelperNormal(helpers: List<Id>)
    requires helpers.Cons?
    ensures Sugar(CallHelper(helpers)) == 0
  {
    var first := Local(helpers.head);
    assert Sugar(first) == 0;
    ApplyLocalsNormal(first, helpers.tail);
    assert SugarParts(Nil) == 0;
    assert Sugar(UNIT) == 0;
  }

  lemma {:induction false} WrapLambdasNormal(parameters: List<Id>, body: Expr)
    requires Sugar(body) == 0
    ensures Sugar(WrapLambdas(parameters, body)) == 0
  {
    match parameters
    case Nil =>
    case Cons(_, rest) => WrapLambdasNormal(rest, body);
  }

  lemma {:induction false} HelperFunctionNormal(next: List<Id>, token: Id, body: Expr)
    requires Sugar(body) == 0
    ensures Sugar(HelperFunction(next, token, body)) == 0
  {
    WrapLambdasNormal(next, Lambda(token, body));
  }

  lemma {:induction false} ScrutineeNormal(v: Expr, p: Pattern)
    requires Sugar(v) == 0
    ensures Sugar(Product(v)) == 0 && Sugar(PatternScrutinee(v, p)) == 0
  {
    assert SugarParts(Nil) == 0;
    assert SugarParts(Cons(v, Nil)) == 0;
  }

  lemma {:induction false} BoundNormal(ids: List<Id>, values: List<Expr>)
    requires Length(ids) == Length(values) && SugarParts(values) == 0
    ensures SugarBindings(Bound(ids, values)) == 0
  {
    match ids
    case Nil =>
    case Cons(_, rest) => BoundNormal(rest, values.tail);
  }

  lemma {:induction false} TwoRowsNormal(scrutinee: Expr, p: Pattern, value: Expr, other: Expr)
    requires Sugar(scrutinee) == 0 && Sugar(value) == 0 && Sugar(other) == 0
    ensures Sugar(Case(scrutinee, Cons(Row(p, value), Cons(Row(Wildcard, other), Nil)))) == 0
  {
    assert SugarRows(Nil) == 0;
    assert SugarRows(Cons(Row(Wildcard, other), Nil)) == 0;
  }

  lemma {:induction false} CloneNormal(e: Expr, n: Id)
    ensures Sugar(CloneExpression(e, n).value) == Sugar(e)
  {
    RenameSizes(e, Allocate(Ids(e), n).value);
  }

  /** No operator, negation or guarded right-hand side is left. */
  lemma {:induction false} LoweredNormal(e: Expr, n: Id)
    ensures Sugar(Lower(e, n).value) == 0
    decreases Size(e), 1
  {
    match e
    case Compound(_, parts) => LoweredNormalParts(parts, n);
    case Apply(f, a) => LoweredNormal(f, n); LoweredNormal(a, Lower(f, n).next);
    case Operator(s, l, r) =>
      LoweredNormal(l, n); LoweredNormal(r, Lower(l, n).next);
      var operator := Global(s);
      assert Sugar(operator) == 0;
      assert Sugar(Apply(operator, Lower(l, n).value)) == 0;
    case Negate(f, a) => LoweredNormal(f, n); LoweredNormal(a, Lower(f, n).next);
    case Lambda(_, b) => LoweredNormal(b, n);
    case Let(bs, b) => LoweredNormalBindings(bs, n); LoweredNormal(b, LowerBindings(bs, n).next);
    case If(c, t, f) =>
      var c' := Lower(c, n);
      LoweredNormal(c, n); LoweredNormal(t, c'.next); LoweredNormal(f, Lower(t, c'.next).next);
    case Case(s, rows) => LoweredNormalCase(s, rows, n);
    case Guarded(cs) =>
      NoMatchNormal();
      LoweredNormalClauses(cs, NO_MATCH, n);
    case _ =>
  }

  lemma {:induction false} NoMatchNormal()
    ensures Sugar(NO_MATCH) == 0
  {
    assert SugarParts(Nil) == 0 && SugarRows(Nil) == 0;
    assert Sugar(UNIT) == 0;
  }

  lemma {:induction false} LoweredNormalParts(es: List<Expr>, n: Id)
    ensures SugarParts(LowerParts(es, n).value) == 0
    decreases SizeParts(es), 0
  {
    match es
    case Nil =>
    case Cons(e, rest) => LoweredNormal(e, n); LoweredNormalParts(rest, Lower(e, n).next);
  }

  lemma {:induction false} LoweredNormalBindings(bs: List<Binding>, n: Id)
    ensures SugarBindings(LowerBindings(bs, n).value) == 0
    decreases SizeBindings(bs), 0
  {
    match bs
    case Nil =>
    case Cons(b, rest) => LoweredNormal(b.value, n); LoweredNormalBindings(rest, Lower(b.value, n).next);
  }

  lemma {:induction false} LoweredNormalRows(rows: List<Row>, n: Id)
    ensures SugarRows(LowerRows(rows, n).value) == 0
    decreases SizeRows(rows), 0
  {
    match rows
    case Nil =>
    case Cons(r, rest) => LoweredNormal(r.value, n); LoweredNormalRows(rest, Lower(r.value, n).next);
  }

  lemma {:induction false} LoweredNormalCase(s: Expr, rows: List<Row>, n: Id)
    ensures Sugar(LowerCase(s, rows, n).value) == 0
    decreases 1 + Size(s) + SizeRows(rows), 0
  {
    LoweredNormal(s, n);
    var s' := Lower(s, n);
    if !AnyGuarded(rows) {
      LoweredNormalRows(rows, s'.next);
    } else {
      ScrutineeNormal(s'.value, Wildcard);
      var wrap := !AllRecordPatterns(rows);
      LoweredNormalMatch(if wrap then Product(s'.value) else s'.value, if wrap then WrapRows(rows) else rows, s'.next);
    }
  }

  lemma {:induction false} LoweredNormalMatch(saved: Expr, rows: List<Row>, n: Id)
    requires AnyGuarded(rows) && Sugar(saved) == 0
    ensures Sugar(LowerMatch(saved, rows, n).value) == 0
    decreases 1 + SizeRows(rows), 0
  {
    var later := HelperRows(rows);
    var count := Length(later) + 1;
    var helpers := FreshIds(n + 1, count);
    LoweredNormalHelpers(later, n, n + 1 + count);
    var values := LowerHelpers(later, n, n + 1 + count);
    LoweredNormalRoots(rows, helpers, false, values.next);
    var roots := LowerRoots(rows, helpers, false, values.next);
    MatchNormal(saved, n, helpers, values.value, roots.value);
  }

  lemma {:induction false} MatchNormal(saved: Expr, temp: Id, helpers: List<Id>, values: List<Expr>, roots: List<Row>)
    requires Length(helpers) == Length(values) && Sugar(saved) == 0 && SugarParts(values) == 0 && SugarRows(roots) == 0
    ensures Sugar(Let(Cons(Binding(temp, saved), Nil), Let(Bound(helpers, values), Case(Local(temp), roots)))) == 0
  {
    BoundNormal(helpers, values);
    var t := Local(temp);
    assert Sugar(t) == 0;
    assert Sugar(Case(t, roots)) == 0;
    assert SugarBindings(Nil) == 0;
    assert SugarBindings(Cons(Binding(temp, saved), Nil)) == 0;
  }

  ghost predicate NormalHelpers(later: List<Row>, temp: Id, n: Id) {
    SugarParts(LowerHelpers(later, temp, n).value) == 0
  }

  lemma {:induction false} LoweredNormalHelpers(later: List<Row>, temp: Id, n: Id)
    ensures NormalHelpers(later, temp, n)
    decreases SizeRows(later), 0
  {
    if later.Nil? {
      LastHelperNormal(temp, n);
    } else {
      var next, token := FreshIds(n, Length(later)), n + Length(later);
      LoweredNormalHelperRow(later.head, next, temp, token + 1);
      var body := LowerHelperRow(later.head, next, temp, token + 1);
      LoweredNormalHelpers(later.tail, temp, body.next);
      HelperFunctionNormal(next, token, body.value);
      HelpersUnfold(later, temp, n);
      JoinNormal(HelperFunction(next, token, body.value), LowerHelpers(later.tail, temp, body.next).value);
    }
  }

  lemma {:induction false} JoinNormal(e: Expr, rest: List<Expr>)
    requires Sugar(e) == 0 && SugarParts(rest) == 0
    ensures SugarParts(Cons(e, rest)) == 0
  {
  }

  lemma {:induction false} LastHelperNormal(temp: Id, n: Id)
    ensures SugarParts(LowerHelpers(Nil, temp, n).value) == 0
  {
    var t := Local(temp);
    assert Sugar(t) == 0 && SugarRows(Nil) == 0 && SugarParts(Nil) == 0;
    HelperFunctionNormal(Nil, n, Case(t, Nil));
  }

  lemma {:induction false} LoweredNormalHelperRow(row: Row, next: List<Id>, temp: Id, n: Id)
    requires next.Cons?
    ensures Sugar(LowerHelperRow(row, next, temp, n).value) == 0
    decreases Size(row.value), 3
  {
    var source := CloneRow(row, n);
    var failure := CallHelper(next);
    CallHelperNormal(next);
    CloneNormal(failure, source.next);
    var guardFailure := CloneExpression(failure, source.next);
    LoweredNormalRhs(source.value.value, guardFailure.value, guardFailure.next);
    var value := LowerRhs(source.value.value, guardFailure.value, guardFailure.next);
    CloneNormal(failure, value.next);
    var t := Local(temp);
    assert Sugar(t) == 0;
    TwoRowsNormal(t, source.value.pattern, value.value, CloneExpression(failure, value.next).value);
  }

  lemma {:induction false} LoweredNormalRoots(rows: List<Row>, helpers: List<Id>, seen: bool, n: Id)
    requires if seen then Length(helpers) == Length(rows)
             else AnyGuarded(rows) && Length(helpers) == Length(HelperRows(rows)) + 1
    ensures SugarRows(LowerRoots(rows, helpers, seen, n).value) == 0
    decreases SizeRows(rows), 0
  {
    match rows
    case Nil =>
    case Cons(r, rest) =>
      var guarded := IsGuardedRhs(r.value);
      if guarded {
        CallHelperNormal(helpers);
        LoweredNormalRhs(r.value, CallHelper(helpers), n);
      } else {
        LoweredNormal(r.value, n);
      }
      var v := if guarded then LowerRhs(r.value, CallHelper(helpers), n) else Lower(r.value, n);
      var seen' := seen || guarded;
      LoweredNormalRoots(rest, if seen' then helpers.tail else helpers, seen', v.next);
  }

  lemma {:induction false} LoweredNormalRhs(e: Expr, failure: Expr, n: Id)
    requires Sugar(failure) == 0
    ensures Sugar(LowerRhs(e, failure, n).value) == 0
    decreases Size(e), 2
  {
    match e
    case Guarded(cs) => LoweredNormalClauses(cs, failure, n);
    case Let(bs, b) => LoweredNormalBindings(bs, n); LoweredNormalRhs(b, failure, LowerBindings(bs, n).next);
    case _ => LoweredNormal(e, n);
  }

  lemma {:induction false} LoweredNormalClauses(cs: List<Clause>, failure: Expr, n: Id)
    requires Sugar(failure) == 0
    ensures Sugar(LowerClauses(cs, failure, n).value) == 0
    decreases SizeClauses(cs), 0
  {
    match cs
    case Nil =>
    case Cons(c, rest) =>
      LoweredNormalClauses(rest, failure, n);
      var next := LowerClauses(rest, failure, n);
      LoweredNormalClause(c, next.value, next.next);
  }

  lemma {:induction false} LoweredNormalClause(c: Clause, failure: Expr, n: Id)
    requires Sugar(failure) == 0
    ensures Sugar(LowerClause(c, failure, n).value) == 0
    decreases SizeBindings(c.wheres) + SizeGuards(c.guards) + Size(c.value), 3
  {
    LoweredNormal(c.value, n);
    var v := Lower(c.value, n);
    LoweredNormalGuards(c.guards, v.value, failure, v.next);
    LoweredNormalBindings(c.wheres, LowerGuards(c.guards, v.value, failure, v.next).next);
  }

  lemma {:induction false} LoweredNormalGuards(gs: List<Guard>, success: Expr, failure: Expr, n: Id)
    requires Sugar(success) == 0 && Sugar(failure) == 0
    ensures Sugar(LowerGuards(gs, success, failure, n).value) == 0
    decreases SizeGuards(gs), 0
  {
    match gs
    case Nil =>
    case Cons(g, rest) =>
      LoweredNormalGuards(rest, success, failure, n);
      var next := LowerGuards(rest, success, failure, n);
      LoweredNormalGuard(g, next.value, failure, next.next);
  }

  lemma {:induction false} LoweredNormalGuard(g: Guard, success: Expr, failure: Expr, n: Id)
    requires Sugar(success) == 0 && Sugar(failure) == 0
    ensures Sugar(LowerGuard(g, success, failure, n).value) == 0
    decreases SizeGuard(g), 2
  {
    match g
    case Test(c) =>
      LoweredNormal(c, n);
      CloneNormal(failure, Lower(c, n).next);
    case Match(p, v) =>
      CloneNormal(failure, n);
      var copy := CloneExpression(failure, n);
      LoweredNormal(v, copy.next);
      var v' := Lower(v, copy.next);
      ScrutineeNormal(v'.value, p);
      TwoRowsNormal(PatternScrutinee(v'.value, p), PatternForScrutinee(p), success, copy.value);
    case Bindings(bs) => LoweredNormalBindings(bs, n);
  }

  // ----- Idempotence -----

  /** A second pass changes nothing and allocates no id. */
  lemma {:induction false} LowerIdempotent(e: Expr, n: Id, m: Id)
    ensures Lower(Lower(e, n).value, m) == Out(Lower(e, n).value, m)
  {
    LoweredNormal(e, n);
    LowerNormal(Lower(e, n).value, m);
  }

  /** A tree is a fixed point exactly when it is in normal form. */
  lemma {:induction false} FixedIffNormal(e: Expr, n: Id)
    ensures Lower(e, n) == Out(e, n) <==> Sugar(e) == 0
  {
    LoweredNormal(e, n);
    if Sugar(e) == 0 {
      LowerNormal(e, n);
    }
  }

  /** The case built for a pattern guard is lowered once more from lowered parts: the second pass
      leaves it alone. */
  lemma {:induction false} PatternGuardSecondPass(p: Pattern, v: Expr, success: Expr, failure: Expr, n: Id, m: Id)
    requires Sugar(success) == 0 && Sugar(failure) == 0
    ensures var built := LowerGuard(Match(p, v), success, failure, n).value;
            built.Case? && Lower(built, m) == Out(built, m)
  {
    LoweredNormalGuard(Match(p, v), success, failure, n);
    LowerNormal(LowerGuard(Match(p, v), success, failure, n).value, m);
  }
}
