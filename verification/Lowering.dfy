/** Guard and case lowering as functions that thread the local-id counter
    (crates/psrs-desugar/src/expr.rs, guards.rs, case_helpers.rs).
 */
module Lowering {
  import opened Lists
  import opened Hir
  import opened Alpha

  // ----- Small builders -----

  const UNIT: Expr := Compound(RecordForm([]), Nil)

  /** The continuation of a guarded expression with no later row: a case without rows. */
  const NO_MATCH: Expr := Case(UNIT, Nil)

  function ApplyLocals(f: Expr, xs: List<Id>): Expr
    decreases xs
  {
    match xs
    case Nil => f
    case Cons(x, rest) => ApplyLocals(Apply(f, Local(x)), rest)
  }

  /** Calls the first helper with the later ones and an empty token. */
  function CallHelper(helpers: List<Id>): Expr
    requires helpers.Cons?
  {
    Apply(ApplyLocals(Local(helpers.head), helpers.tail), UNIT)
  }

  function WrapLambdas(parameters: List<Id>, body: Expr): Expr {
    match parameters
    case Nil => body
    case Cons(x, rest) => Lambda(x, WrapLambdas(rest, body))
  }

  /** A helper: the later helpers as parameters, then the token that keeps it lazy. */
  function HelperFunction(next: List<Id>, token: Id, body: Expr): Expr {
    WrapLambdas(next, Lambda(token, body))
  }

  function Product(e: Expr): Expr {
    Compound(ProductForm(["_1"]), Cons(e, Nil))
  }

  function ProductPattern(p: Pattern): Pattern {
    Shaped(RecordShape(["_1"], true), Cons(p, Nil))
  }

  predicate IsRecordPattern(p: Pattern) {
    p.Shaped? && p.shape.RecordShape?
  }

  function PatternScrutinee(v: Expr, p: Pattern): Expr {
    if IsRecordPattern(p) then v else Product(v)
  }

  function PatternForScrutinee(p: Pattern): Pattern {
    if IsRecordPattern(p) then p else ProductPattern(p)
  }

  predicate AllRecordPatterns(rows: List<Row>) {
    match rows
    case Nil => true
    case Cons(r, rest) => IsRecordPattern(r.pattern) && AllRecordPatterns(rest)
  }

  function WrapRows(rows: List<Row>): (r: List<Row>)
    ensures SizeRows(r) == SizeRows(rows) && AnyGuarded(r) == AnyGuarded(rows)
    ensures Length(r) == Length(rows)
  {
    match rows
    case Nil => Nil
    case Cons(r, rest) => Cons(Row(ProductPattern(r.pattern), r.value), WrapRows(rest))
  }

  predicate IsGuardedRhs(e: Expr) {
    match e
    case Guarded(_) => true
    case Let(_, b) => IsGuardedRhs(b)
    case _ => false
  }

  predicate AnyGuarded(rows: List<Row>) {
    match rows
    case Nil => false
    case Cons(r, rest) => IsGuardedRhs(r.value) || AnyGuarded(rest)
  }

  /** The rows a fallthrough helper can be entered for: those after the first guarded one. */
  function HelperRows(rows: List<Row>): (r: List<Row>)
    requires AnyGuarded(rows)
    ensures SizeRows(r) < SizeRows(rows) && Length(r) < Length(rows)
  {
    if IsGuardedRhs(rows.head.value) then rows.tail else HelperRows(rows.tail)
  }

  function FreshIds(n: Id, count: nat): (r: List<Id>)
    ensures Length(r) == count
    decreases count
  {
    if count == 0 then Nil else Cons(n, FreshIds(n + 1, count - 1))
  }

  function Bound(ids: List<Id>, values: List<Expr>): List<Binding>
    requires Length(ids) == Length(values)
  {
    match ids
    case Nil => Nil
    case Cons(x, rest) => Cons(Binding(x, values.head), Bound(rest, values.tail))
  }

  // ----- Lowering -----

  /** Replaces operators, negations and guarded right-hand sides; `n` is the next unused id. */
  function Lower(e: Expr, n: Id): (r: Out<Expr>)
    ensures r.next >= n
    decreases Size(e), 1
  {
    match e
    case Local(_) => Out(e, n)
    case Global(_) => Out(e, n)
    case Constant(_) => Out(e, n)
    case Compound(c, parts) =>
      var ps := LowerParts(parts, n);
      Out(Compound(c, ps.value), ps.next)
    case Apply(f, a) =>
      var f' := Lower(f, n);
      var a' := Lower(a, f'.next);
      Out(Apply(f'.value, a'.value), a'.next)
    case Operator(s, l, r) =>
      var l' := Lower(l, n);
      var r' := Lower(r, l'.next);
      Out(Apply(Apply(Global(s), l'.value), r'.value), r'.next)
    case Negate(f, a) =>
      var f' := Lower(f, n);
      var a' := Lower(a, f'.next);
      Out(Apply(f'.value, a'.value), a'.next)
    case Lambda(x, b) =>
      var b' := Lower(b, n);
      Out(Lambda(x, b'.value), b'.next)
    case Let(bs, b) =>
      var bs' := LowerBindings(bs, n);
      var b' := Lower(b, bs'.next);
      Out(Let(bs'.value, b'.value), b'.next)
    case If(c, t, f) =>
      var c' := Lower(c, n);
      var t' := Lower(t, c'.next);
      var f' := Lower(f, t'.next);
      Out(If(c'.value, t'.value, f'.value), f'.next)
    case Case(s, rows) => LowerCase(s, rows, n)
    case Guarded(cs) => LowerClauses(cs, NO_MATCH, n)
  }

  function LowerParts(es: List<Expr>, n: Id): (r: Out<List<Expr>>)
    ensures r.next >= n
    decreases SizeParts(es), 0
  {
    match es
    case Nil => Out(Nil, n)
    case Cons(e, rest) =>
      var e' := Lower(e, n);
      var rest' := LowerParts(rest, e'.next);
      Out(Cons(e'.value, rest'.value), rest'.next)
  }

  function LowerBindings(bs: List<Binding>, n: Id): (r: Out<List<Binding>>)
    ensures r.next >= n
    decreases SizeBindings(bs), 0
  {
    match bs
    case Nil => Out(Nil, n)
    case Cons(b, rest) =>
      var v := Lower(b.value, n);
      var rest' := LowerBindings(rest, v.next);
      Out(Cons(Binding(b.id, v.value), rest'.value), rest'.next)
  }

  function LowerRows(rows: List<Row>, n: Id): (r: Out<List<Row>>)
    ensures r.next >= n
    decreases SizeRows(rows), 0
  {
    match rows
    case Nil => Out(Nil, n)
    case Cons(r, rest) =>
      var v := Lower(r.value, n);
      var rest' := LowerRows(rest, v.next);
      Out(Cons(Row(r.pattern, v.value), rest'.value), rest'.next)
  }

  /** Without a guarded row the case stays a case. Otherwise the scrutinee is saved once, the rows
      after the first guarded one become helpers, and failing guards call the next helper. */
  function LowerCase(s: Expr, rows: List<Row>, n: Id): (r: Out<Expr>)
    ensures r.next >= n
    decreases 1 + Size(s) + SizeRows(rows), 0
  {
    var s' := Lower(s, n);
    if !AnyGuarded(rows) then
      var rows' := LowerRows(rows, s'.next);
      Out(Case(s'.value, rows'.value), rows'.next)
    else
      var wrap := !AllRecordPatterns(rows);
      LowerMatch(if wrap then Product(s'.value) else s'.value, if wrap then WrapRows(rows) else rows, s'.next)
  }

  function LowerMatch(saved: Expr, rows: List<Row>, n: Id): (r: Out<Expr>)
    requires AnyGuarded(rows)
    ensures r.next >= n
    decreases 1 + SizeRows(rows), 0
  {
    var later := HelperRows(rows);
    var count := Length(later) + 1;
    var temp := n;
    var helpers := FreshIds(n + 1, count);
    var values := LowerHelpers(later, temp, n + 1 + count);
    var roots := LowerRoots(rows, helpers, false, values.next);
    Out(Let(Cons(Binding(temp, saved), Nil), Let(Bound(helpers, values.value), Case(Local(temp), roots.value))),
        roots.next)
  }

  /** One helper per row in `later`, and a last one that fails. Each takes the helpers after it
      and a token. */
  function LowerHelpers(later: List<Row>, temp: Id, n: Id): (r: Out<List<Expr>>)
    ensures r.next >= n && Length(r.value) == Length(later) + 1
    decreases SizeRows(later), 0
  {
    match later
    case Nil =>
      Out(Cons(HelperFunction(Nil, n, Case(Local(temp), Nil)), Nil), n + 1)
    case Cons(row, rest) =>
      var next := FreshIds(n, Length(later));
      var token := n + Length(later);
      var body := LowerHelperRow(row, next, temp, token + 1);
      var values := LowerHelpers(rest, temp, body.next);
      Out(Cons(HelperFunction(next, token, body.value), values.value), values.next)
  }

  /** A copy of the row before a wildcard row that continues with the next helper. */
  function LowerHelperRow(row: Row, next: List<Id>, temp: Id, n: Id): (r: Out<Expr>)
    requires next.Cons?
    ensures r.next >= n
    decreases Size(row.value), 3
  {
    var source := CloneRow(row, n);
    var failure := CallHelper(next);
    var guardFailure := CloneExpression(failure, source.next);
    var value := LowerRhs(source.value.value, guardFailure.value, guardFailure.next);
    var wildcard := CloneExpression(failure, value.next);
    var rows := Cons(Row(source.value.pattern, value.value), Cons(Row(Wildcard, wildcard.value), Nil));
    Out(Case(Local(temp), rows), wildcard.next)
  }

  /** The rows of the case itself. `helpers` starts at the helper for the row after this one once
      a guarded row has been seen. */
  function LowerRoots(rows: List<Row>, helpers: List<Id>, seen: bool, n: Id): (r: Out<List<Row>>)
    requires if seen then Length(helpers) == Length(rows)
             else AnyGuarded(rows) && Length(helpers) == Length(HelperRows(rows)) + 1
    ensures r.next >= n
    decreases SizeRows(rows), 0
  {
    match rows
    case Nil => Out(Nil, n)
    case Cons(r, rest) =>
      var guarded := IsGuardedRhs(r.value);
      var v := if guarded then LowerRhs(r.value, CallHelper(helpers), n) else Lower(r.value, n);
      var seen' := seen || guarded;
      var rest' := LowerRoots(rest, if seen' then helpers.tail else helpers, seen', v.next);
      Out(Cons(Row(r.pattern, v.value), rest'.value), rest'.next)
  }

  /** A right-hand side whose guards continue with `failure` when they all fail. */
  function LowerRhs(e: Expr, failure: Expr, n: Id): (r: Out<Expr>)
    ensures r.next >= n
    decreases Size(e), 2
  {
    match e
    case Guarded(cs) => LowerClauses(cs, failure, n)
    case Let(bs, b) =>
      var bs' := LowerBindings(bs, n);
      var b' := LowerRhs(b, failure, bs'.next);
      Out(Let(bs'.value, b'.value), b'.next)
    case _ => Lower(e, n)
  }

  /** The clauses, last one first; each one's failure is everything built so far. */
  function LowerClauses(cs: List<Clause>, failure: Expr, n: Id): (r: Out<Expr>)
    ensures r.next >= n
    decreases SizeClauses(cs), 0
  {
    match cs
    case Nil => Out(failure, n)
    case Cons(c, rest) =>
      var next := LowerClauses(rest, failure, n);
      LowerClause(c, next.value, next.next)
  }

  function LowerClause(c: Clause, failure: Expr, n: Id): (r: Out<Expr>)
    ensures r.next >= n
    decreases SizeBindings(c.wheres) + SizeGuards(c.guards) + Size(c.value), 3
  {
    var v := Lower(c.value, n);
    var g := LowerGuards(c.guards, v.value, failure, v.next);
    if c.wheres.Nil? then g
    else
      var bs := LowerBindings(c.wheres, g.next);
      Out(Let(bs.value, g.value), bs.next)
  }

  /** The guards of one clause, last one first; every failing guard gets its own copy. */
  function LowerGuards(gs: List<Guard>, success: Expr, failure: Expr, n: Id): (r: Out<Expr>)
    ensures r.next >= n
    decreases SizeGuards(gs), 0
  {
    match gs
    case Nil => Out(success, n)
    case Cons(g, rest) =>
      var next := LowerGuards(rest, success, failure, n);
      LowerGuard(g, next.value, failure, next.next)
  }

  function LowerGuard(g: Guard, success: Expr, failure: Expr, n: Id): (r: Out<Expr>)
    ensures r.next >= n
    decreases SizeGuard(g), 2
  {
    match g
    case Test(c) =>
      var c' := Lower(c, n);
      var copy := CloneExpression(failure, c'.next);
      Out(If(c'.value, success, copy.value), copy.next)
    case Match(p, v) =>
      var copy := CloneExpression(failure, n);
      var v' := Lower(v, copy.next);
      var rows := Cons(Row(PatternForScrutinee(p), success), Cons(Row(Wildcard, copy.value), Nil));
      Out(Case(PatternScrutinee(v'.value, p), rows), v'.next)
    case Bindings(bs) =>
      var bs' := LowerBindings(bs, n);
      Out(Let(bs'.value, success), bs'.next)
  }

  lemma {:induction false} HelpersUnfold(later: List<Row>, temp: Id, n: Id)
    requires later.Cons?
    ensures var next := FreshIds(n, Length(later));
            var body := LowerHelperRow(later.head, next, temp, n + Length(later) + 1);
            var values := LowerHelpers(later.tail, temp, body.next);
            LowerHelpers(later, temp, n)
            == Out(Cons(HelperFunction(next, n + Length(later), body.value), values.value), values.next)
  {
  }
}
