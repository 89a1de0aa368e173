/** What it means for code to be a translation of a source expression, whatever ids it uses.

    `r` maps the source ids in scope to target ids; `k` holds every target id in scope, so that no
    binder may reuse one. A failing right-hand side continues with a `Failure`.
 */
module Translation {
  import opened Lists
  import opened Hir
  import opened Alpha
  import opened Lowering

  datatype Failure = NoMatch | CallNext(helpers: List<Id>)

  function Code(f: Failure): Expr {
    match f
    case NoMatch => NO_MATCH
    case CallNext(helpers) => if helpers.Cons? then CallHelper(helpers) else NO_MATCH
  }

  // ----- Patterns and groups -----

  predicate TrPattern(p: Pattern, d: Pattern, k: set<Id>) {
    match p
    case Wildcard => d.Wildcard?
    case Bind(_) => d.Bind? && d.id !in k
    case Named(_, q) => d.Named? && d.id !in k && TrPattern(q, d.inner, k + {d.id})
    case Shaped(s, parts) => d.Shaped? && d.shape == s && TrPatterns(parts, d.parts, k)
  }

  predicate TrPatterns(ps: List<Pattern>, ds: List<Pattern>, k: set<Id>) {
    match ps
    case Nil => ds.Nil?
    case Cons(p, rest) => ds.Cons? && TrPattern(p, ds.head, k) && TrPatterns(rest, ds.tail, k + PatternIds(ds.head))
  }

  function BindPattern(p: Pattern, d: Pattern, r: Renaming): Renaming {
    match p
    case Wildcard => r
    case Bind(x) => if d.Bind? then r[x := d.id] else r
    case Named(x, q) => if d.Named? then BindPattern(q, d.inner, r[x := d.id]) else r
    case Shaped(_, parts) => if d.Shaped? then BindPatterns(parts, d.parts, r) else r
  }

  function BindPatterns(ps: List<Pattern>, ds: List<Pattern>, r: Renaming): Renaming {
    match ps
    case Nil => r
    case Cons(p, rest) => if ds.Cons? then BindPatterns(rest, ds.tail, BindPattern(p, ds.head, r)) else r
  }

  /** The ids of a group are new and distinct on both sides. */
  predicate FreshGroup(bs: List<Binding>, ds: List<Binding>, r: Renaming, k: set<Id>) {
    match bs
    case Nil => ds.Nil?
    case Cons(b, rest) =>
      && ds.Cons? && b.id !in r && b.id !in BoundIds(rest)
      && ds.head.id !in k && ds.head.id !in BoundIds(ds.tail)
      && FreshGroup(rest, ds.tail, r, k)
  }

  function BindGroup(bs: List<Binding>, ds: List<Binding>, r: Renaming): Renaming {
    match bs
    case Nil => r
    case Cons(b, rest) => if ds.Cons? then BindGroup(rest, ds.tail, r[b.id := ds.head.id]) else r
  }

  predicate FreshBinders(ds: List<Binding>, k: set<Id>) {
    match ds
    case Nil => true
    case Cons(d, rest) => d.id !in k && d.id !in BoundIds(rest) && FreshBinders(rest, k)
  }

  function Binders(ds: List<Binding>): List<Id> {
    match ds
    case Nil => Nil
    case Cons(d, rest) => Cons(d.id, Binders(rest))
  }

  // ----- Expressions -----

  ghost predicate Tr(e: Expr, d: Expr, r: Renaming, k: set<Id>)
    decreases Size(e), 1, 0
  {
    match e
    case Local(x) => x in r && d == Local(r[x])
    case Global(_) => d == e
    case Constant(_) => d == e
    case Compound(form, parts) => d.Compound? && d.form == form && TrParts(parts, d.parts, r, k)
    case Apply(f, a) => d.Apply? && Tr(f, d.function_, r, k) && Tr(a, d.argument, r, k)
    case Operator(s, left, right) =>
      && d.Apply? && d.function_.Apply? && d.function_.function_ == Global(s)
      && Tr(left, d.function_.argument, r, k) && Tr(right, d.argument, r, k)
    case Negate(f, a) => d.Apply? && Tr(f, d.function_, r, k) && Tr(a, d.argument, r, k)
    case Lambda(x, b) => d.Lambda? && d.parameter !in k && Tr(b, d.body, r[x := d.parameter], k + {d.parameter})
    case Let(bs, b) =>
      && d.Let? && TrGroup(bs, d.bindings, r, k)
      && Tr(b, d.body, BindGroup(bs, d.bindings, r), k + BoundIds(d.bindings))
    case If(c, t, f) =>
      d.If? && Tr(c, d.condition, r, k) && Tr(t, d.consequent, r, k) && Tr(f, d.alternative, r, k)
    case Case(s, rows) =>
      if AnyGuarded(rows) then TrCase(s, rows, d, r, k)
      else d.Case? && Tr(s, d.scrutinee, r, k) && TrRows(rows, d.rows, r, k)
    case Guarded(cs) => TrClauses(cs, d, r, k, NoMatch)
  }

  ghost predicate TrParts(es: List<Expr>, ds: List<Expr>, r: Renaming, k: set<Id>)
    decreases SizeParts(es), 0, 0
  {
    match es
    case Nil => ds.Nil?
    case Cons(e, rest) => ds.Cons? && Tr(e, ds.head, r, k) && TrParts(rest, ds.tail, r, k)
  }

  ghost predicate TrGroup(bs: List<Binding>, ds: List<Binding>, r: Renaming, k: set<Id>)
    decreases SizeBindings(bs), 1, 0
  {
    FreshGroup(bs, ds, r, k) && TrBindings(bs, ds, BindGroup(bs, ds, r), k + BoundIds(ds))
  }

  ghost predicate TrBindings(bs: List<Binding>, ds: List<Binding>, r: Renaming, k: set<Id>)
    decreases SizeBindings(bs), 0, 0
  {
    match bs
    case Nil => ds.Nil?
    case Cons(b, rest) => ds.Cons? && Tr(b.value, ds.head.value, r, k) && TrBindings(rest, ds.tail, r, k)
  }

  ghost predicate TrRows(rows: List<Row>, ds: List<Row>, r: Renaming, k: set<Id>)
    decreases SizeRows(rows), 0, 0
  {
    match rows
    case Nil => ds.Nil?
    case Cons(row, rest) =>
      && ds.Cons? && TrPattern(row.pattern, ds.head.pattern, k) && !IsGuardedRhs(ds.head.value)
      && Tr(row.value, ds.head.value, BindPattern(row.pattern, ds.head.pattern, r), k + PatternIds(ds.head.pattern))
      && TrRows(rest, ds.tail, r, k)
  }

  // ----- Cases with guarded rows -----

  predicate IsProduct(d: Expr) {
    d.Compound? && d.parts.Cons? && d == Product(d.parts.head)
  }

  /** The value a case or a pattern guard inspects, wrapped or not. */
  ghost predicate TrScrutinee(s: Expr, d: Expr, wrapped: bool, r: Renaming, k: set<Id>)
    decreases Size(s), 2, 0
  {
    if wrapped then IsProduct(d) && Tr(s, d.parts.head, r, k) else Tr(s, d, r, k)
  }

  function MaybeWrapped(rows: List<Row>): (w: List<Row>)
    ensures SizeRows(w) == SizeRows(rows) && AnyGuarded(w) == AnyGuarded(rows)
  {
    if AllRecordPatterns(rows) then rows else WrapRows(rows)
  }

  /** The shape of a case with helpers: the saved scrutinee, the helpers, the root case. */
  predicate IsMatch(d: Expr) {
    && d.Let? && d.bindings.Cons? && d.bindings.tail.Nil?
    && d.body.Let? && d.body.body.Case? && d.body.body.scrutinee == Local(d.bindings.head.id)
  }

  ghost predicate TrCase(s: Expr, rows: List<Row>, d: Expr, r: Renaming, k: set<Id>)
    requires AnyGuarded(rows)
    decreases Size(s) + SizeRows(rows), 3, 0
  {
    && IsMatch(d) && d.bindings.head.id !in k
    && TrScrutinee(s, d.bindings.head.value, !AllRecordPatterns(rows), r, k + {d.bindings.head.id})
    && TrMatch(MaybeWrapped(rows), d.bindings.head.id, d.body.bindings, d.body.body.rows, r, k + {d.bindings.head.id})
  }

  ghost predicate TrMatch(rows: List<Row>, temp: Id, helpers: List<Binding>, roots: List<Row>, r: Renaming, k: set<Id>)
    requires AnyGuarded(rows)
    decreases SizeRows(rows), 2, 0
  {
    && FreshBinders(helpers, k)
    && TrHelpers(HelperRows(rows), helpers, temp, r, k + BoundIds(helpers))
    && TrRoots(rows, roots, Binders(helpers), false, r, k + BoundIds(helpers))
  }

  ghost predicate TrRoots(rows: List<Row>, ds: List<Row>, helpers: List<Id>, seen: bool, r: Renaming, k: set<Id>)
    decreases SizeRows(rows), 0, 0
  {
    match rows
    case Nil => ds.Nil?
    case Cons(row, rest) =>
      && ds.Cons? && TrPattern(row.pattern, ds.head.pattern, k) && !IsGuardedRhs(ds.head.value)
      && (var inner, k' := BindPattern(row.pattern, ds.head.pattern, r), k + PatternIds(ds.head.pattern);
          if IsGuardedRhs(row.value) then helpers.Cons? && TrRhs(row.value, ds.head.value, inner, k', CallNext(helpers))
          else Tr(row.value, ds.head.value, inner, k'))
      && (var seen' := seen || IsGuardedRhs(row.value);
          (seen' ==> helpers.Cons?) && TrRoots(rest, ds.tail, if seen' then helpers.tail else helpers, seen', r, k))
  }

  ghost predicate TrHelpers(later: List<Row>, helpers: List<Binding>, temp: Id, r: Renaming, k: set<Id>)
    decreases SizeRows(later), 1, Length(later)
  {
    && helpers.Cons? && TrHelper(later, helpers.head.value, Length(later), Nil, temp, r, k)
    && match later
       case Nil => helpers.tail.Nil?
       case Cons(_, rest) => TrHelpers(rest, helpers.tail, temp, r, k)
  }

  /** A helper takes `count` more later helpers after those in `next`, and a token. */
  ghost predicate TrHelper(later: List<Row>, d: Expr, count: nat, next: List<Id>, temp: Id, r: Renaming, k: set<Id>)
    decreases SizeRows(later), 0, count + 1
  {
    && d.Lambda? && d.parameter !in k
    && if count == 0 then TrHelperBody(later, d.body, next, temp, r, k + {d.parameter})
       else TrHelper(later, d.body, count - 1, Append(next, Cons(d.parameter, Nil)), temp, r, k + {d.parameter})
  }

  ghost predicate TrHelperBody(later: List<Row>, d: Expr, next: List<Id>, temp: Id, r: Renaming, k: set<Id>)
    decreases SizeRows(later), 0, 0
  {
    && d.Case? && d.scrutinee == Local(temp)
    && match later
       case Nil => d.rows.Nil?
       case Cons(row, _) =>
         && next.Cons? && d.rows.Cons? && d.rows.tail == Cons(Row(Wildcard, CallHelper(next)), Nil)
         && TrPattern(row.pattern, d.rows.head.pattern, k) && !IsGuardedRhs(d.rows.head.value)
         && TrRhs(row.value, d.rows.head.value, BindPattern(row.pattern, d.rows.head.pattern, r),
                  k + PatternIds(d.rows.head.pattern), CallNext(next))
  }

  // ----- Guarded right-hand sides -----

  ghost predicate TrRhs(e: Expr, d: Expr, r: Renaming, k: set<Id>, fail: Failure)
    decreases Size(e), 2, 0
  {
    match e
    case Guarded(cs) => TrClauses(cs, d, r, k, fail)
    case Let(bs, b) =>
      && d.Let? && TrGroup(bs, d.bindings, r, k)
      && TrRhs(b, d.body, BindGroup(bs, d.bindings, r), k + BoundIds(d.bindings), fail)
    case _ => Tr(e, d, r, k)
  }

  ghost predicate TrClauses(cs: List<Clause>, d: Expr, r: Renaming, k: set<Id>, fail: Failure)
    decreases SizeClauses(cs), 0, 0
  {
    match cs
    case Nil => d == Code(fail)
    case Cons(c, rest) => TrClause(c, rest, d, r, k, fail)
  }

  ghost predicate TrClause(c: Clause, rest: List<Clause>, d: Expr, r: Renaming, k: set<Id>, fail: Failure)
    decreases SizeBindings(c.wheres) + SizeGuards(c.guards) + Size(c.value) + SizeClauses(rest), 4, 0
  {
    if c.wheres.Nil? then TrGuards(c.guards, c.value, rest, d, r, r, k, fail)
    else
      && d.Let? && TrGroup(c.wheres, d.bindings, r, k)
      && TrGuards(c.guards, c.value, rest, d.body, BindGroup(c.wheres, d.bindings, r), r, k + BoundIds(d.bindings),
                  fail)
  }

  predicate IsTwoRows(d: Expr) {
    && d.Case? && d.rows.Cons? && d.rows.tail.Cons? && d.rows.tail.tail.Nil? && d.rows.tail.head.pattern.Wildcard?
    && !IsGuardedRhs(d.rows.head.value) && !IsGuardedRhs(d.rows.tail.head.value)
  }

  /** The guards of one clause; `outer` is the scope in which the later clauses `rest` are read. */
  ghost predicate TrGuards(gs: List<Guard>, value: Expr, rest: List<Clause>, d: Expr, r: Renaming, outer: Renaming,
                           k: set<Id>, fail: Failure)
    decreases SizeGuards(gs) + Size(value) + SizeClauses(rest), 3, 0
  {
    match gs
    case Nil => Tr(value, d, r, k)
    case Cons(g, gs') =>
      assert SizeGuards(gs) == 1 + SizeGuard(g) + SizeGuards(gs');
      match g
      case Test(c) =>
        && d.If? && Tr(c, d.condition, r, k)
        && TrGuards(gs', value, rest, d.consequent, r, outer, k, fail)
        && TrClauses(rest, d.alternative, outer, k, fail)
      case Match(p, v) =>
        && IsTwoRows(d) && TrScrutinee(v, d.scrutinee, !IsRecordPattern(p), r, k)
        && TrPattern(PatternForScrutinee(p), d.rows.head.pattern, k)
        && TrGuards(gs', value, rest, d.rows.head.value, BindPattern(PatternForScrutinee(p), d.rows.head.pattern, r),
                    outer,
                    k + PatternIds(d.rows.head.pattern), fail)
        && TrClauses(rest, d.rows.tail.head.value, outer, k, fail)
      case Bindings(bs) =>
        && d.Let? && TrGroup(bs, d.bindings, r, k)
        && TrGuards(gs', value, rest, d.body, BindGroup(bs, d.bindings, r), outer, k + BoundIds(d.bindings), fail)
  }
}
