/** Lowering keeps every id bound at most once and every reference in scope, although rows and
    failure continuations are duplicated (crates/psrs-desugar/src/expr.rs, guards.rs, alpha.rs).

    `Good` is what a lowering step promises for its result: unique binders, each of them a binder of the
    input or drawn from the counter during the step, and references in the scope of the input. A `Plain`
    failure continuation binds nothing, so that its copies are harmless.
 */
module LoweringScope {
  import opened Lists
  import opened Hir
  import opened Alpha
  import opened Lowering

  ghost predicate Below(xs: set<Id>, n: Id) {
    forall x <- xs :: x < n
  }

  /** Every id of `out` is an old one or was allocated between the two counters. */
  ghost predicate Drawn(out: set<Id>, from: set<Id>, n: Id, next: Id) {
    forall x <- out :: x in from || n <= x < next
  }

  lemma {:induction false} DrawnApart(a: set<Id>, fromA: set<Id>, n: Id, m: Id, b: set<Id>, fromB: set<Id>, next: Id)
    requires Drawn(a, fromA, n, m) && Drawn(b, fromB, m, next) && n <= m <= next
    requires fromA !! fromB && Below(fromA, n) && Below(fromB, n)
    ensures a !! b && Drawn(a + b, fromA + fromB, n, next)
  {
  }

  // ----- Larger scopes -----

  lemma {:induction false} ScopedMore(e: Expr, scope: set<Id>, more: set<Id>)
    requires Scoped(e, scope) && scope <= more
    ensures Scoped(e, more)
    decreases Size(e), 0
  {
    match e
    case Compound(_, parts) => ScopedMoreParts(parts, scope, more);
    case Apply(f, a) => ScopedMore(f, scope, more); ScopedMore(a, scope, more);
    case Operator(_, l, r) => ScopedMore(l, scope, more); ScopedMore(r, scope, more);
    case Negate(f, a) => ScopedMore(f, scope, more); ScopedMore(a, scope, more);
    case Lambda(x, b) => ScopedMore(b, scope + {x}, more + {x});
    case Let(bs, b) =>
      ScopedMoreBindings(bs, scope + BoundIds(bs), more + BoundIds(bs));
      ScopedMore(b, scope + BoundIds(bs), more + BoundIds(bs));
    case If(c, t, f) => ScopedMore(c, scope, more); ScopedMore(t, scope, more); ScopedMore(f, scope, more);
    case Case(s, rows) => ScopedMore(s, scope, more); ScopedMoreRows(rows, scope, more);
    case Guarded(cs) => ScopedMoreClauses(cs, scope, more);
    case _ =>
  }

  lemma {:induction false} ScopedMoreParts(es: List<Expr>, scope: set<Id>, more: set<Id>)
    requires ScopedParts(es, scope) && scope <= more
    ensures ScopedParts(es, more)
    decreases SizeParts(es), 0
  {
    match es
    case Nil =>
    case Cons(e, rest) => ScopedMore(e, scope, more); ScopedMoreParts(rest, scope, more);
  }

  lemma {:induction false} ScopedMoreBindings(bs: List<Binding>, scope: set<Id>, more: set<Id>)
    requires ScopedBindings(bs, scope) && scope <= more
    ensures ScopedBindings(bs, more)
    decreases SizeBindings(bs), 0
  {
    match bs
    case Nil =>
    case Cons(b, rest) => ScopedMore(b.value, scope, more); ScopedMoreBindings(rest, scope, more);
  }

  lemma {:induction false} ScopedMoreRow(r: Row, scope: set<Id>, more: set<Id>)
    requires ScopedRow(r, scope) && scope <= more
    ensures ScopedRow(r, more)
    decreases Size(r.value), 1
  {
    ScopedMore(r.value, scope + PatternIds(r.pattern), more + PatternIds(r.pattern));
  }

  lemma {:induction false} ScopedMoreRows(rows: List<Row>, scope: set<Id>, more: set<Id>)
    requires ScopedRows(rows, scope) && scope <= more
    ensures ScopedRows(rows, more)
    decreases SizeRows(rows), 0
  {
    match rows
    case Nil =>
    case Cons(r, rest) => ScopedMoreRow(r, scope, more); ScopedMoreRows(rest, scope, more);
  }

  lemma {:induction false} ScopedMoreClauses(cs: List<Clause>, scope: set<Id>, more: set<Id>)
    requires ScopedClauses(cs, scope) && scope <= more
    ensures ScopedClauses(cs, more)
    decreases SizeClauses(cs), 0
  {
    match cs
    case Nil =>
    case Cons(c, rest) =>
      var inner, inner' := scope + BoundIds(c.wheres), more + BoundIds(c.wheres);
      ScopedMoreBindings(c.wheres, inner, inner');
      ScopedMoreGuards(c.guards, inner, inner');
      GuardScopeMore(c.guards, inner, inner');
      ScopedMore(c.value, GuardScope(c.guards, inner), GuardScope(c.guards, inner'));
      ScopedMoreClauses(rest, scope, more);
  }

  lemma {:induction false} ScopedMoreGuards(gs: List<Guard>, scope: set<Id>, more: set<Id>)
    requires ScopedGuards(gs, scope) && scope <= more
    ensures ScopedGuards(gs, more)
    decreases SizeGuards(gs), 0
  {
    match gs
    case Nil =>
    case Cons(g, rest) =>
      ScopedMoreGuard(g, scope, more);
      ScopedMoreGuards(rest, scope + GuardIds(g), more + GuardIds(g));
  }

  lemma {:induction false} GuardScopeMore(gs: List<Guard>, scope: set<Id>, more: set<Id>)
    requires scope <= more
    ensures GuardScope(gs, scope) <= GuardScope(gs, more)
  {
    match gs
    case Nil =>
    case Cons(g, rest) => GuardScopeMore(rest, scope + GuardIds(g), more + GuardIds(g));
  }

  lemma {:induction false} ScopedMoreGuard(g: Guard, scope: set<Id>, more: set<Id>)
    requires ScopedGuard(g, scope) && scope <= more
    ensures ScopedGuard(g, more)
    decreases SizeGuard(g), 1
  {
    match g
    case Test(c) => ScopedMore(c, scope, more);
    case Match(_, v) => ScopedMore(v, scope, more);
    case Bindings(bs) => ScopedMoreBindings(bs, scope + BoundIds(bs), more + BoundIds(bs));
  }

  // ----- What lowering expects and keeps -----

  /** Unique, in scope, and with every id below the counter. */
  ghost predicate Fit(e: Expr, scope: set<Id>, n: Id) {
    Unique(e) && Scoped(e, scope) && Ids(e) !! scope && Below(Ids(e), n) && Below(scope, n)
  }

  ghost predicate Good(r: Out<Expr>, from: set<Id>, scope: set<Id>, n: Id) {
    Unique(r.value) && Scoped(r.value, scope) && Drawn(Ids(r.value), from, n, r.next)
  }

  /** The ids bound inside the values of a group. */
  function InnerIds(bs: List<Binding>): set<Id> {
    match bs
    case Nil => {}
    case Cons(b, rest) => Ids(b.value) + InnerIds(rest)
  }

  lemma {:induction false} SplitIds(bs: List<Binding>)
    ensures IdsBindings(bs) == BoundIds(bs) + InnerIds(bs)
    ensures UniqueBindings(bs) ==> BoundIds(bs) !! InnerIds(bs)
  {
    match bs
    case Nil =>
    case Cons(_, rest) => SplitIds(rest);
  }

  /** A binding group whose own ids are already part of the scope. */
  ghost predicate FitBindings(bs: List<Binding>, scope: set<Id>, n: Id) {
    && UniqueBindings(bs) && ScopedBindings(bs, scope) && InnerIds(bs) !! scope
    && Below(IdsBindings(bs), n) && Below(scope, n)
  }

  ghost predicate GoodBindings(r: Out<List<Binding>>, bs: List<Binding>, scope: set<Id>, n: Id) {
    && UniqueBindings(r.value) && ScopedBindings(r.value, scope)
    && BoundIds(r.value) == BoundIds(bs) && Drawn(InnerIds(r.value), InnerIds(bs), n, r.next)
  }

  ghost predicate FitRows(rows: List<Row>, scope: set<Id>, n: Id) {
    UniqueRows(rows) && ScopedRows(rows, scope) && IdsRows(rows) !! scope && Below(IdsRows(rows), n) && Below(scope, n)
  }

  ghost predicate GoodRows(r: Out<List<Row>>, from: set<Id>, scope: set<Id>, n: Id) {
    UniqueRows(r.value) && ScopedRows(r.value, scope) && Drawn(IdsRows(r.value), from, n, r.next)
  }

  ghost predicate FitParts(es: List<Expr>, scope: set<Id>, n: Id) {
    UniqueParts(es) && ScopedParts(es, scope) && IdsParts(es) !! scope && Below(IdsParts(es), n) && Below(scope, n)
  }

  ghost predicate GoodParts(r: Out<List<Expr>>, from: set<Id>, scope: set<Id>, n: Id) {
    UniqueParts(r.value) && ScopedParts(r.value, scope) && Drawn(IdsParts(r.value), from, n, r.next)
  }

  ghost predicate FitClauses(cs: List<Clause>, scope: set<Id>, n: Id) {
    && UniqueClauses(cs) && ScopedClauses(cs, scope) && IdsClauses(cs) !! scope
    && Below(IdsClauses(cs), n) && Below(scope, n)
  }

  /** A failure continuation that binds nothing, so all its copies are equal. */
  ghost predicate Plain(failure: Expr, scope: set<Id>) {
    Unique(failure) && Ids(failure) == {} && Scoped(failure, scope)
  }

  lemma {:induction false} NoMatchPlain(scope: set<Id>)
    ensures Plain(NO_MATCH, scope)
  {
  }

  ghost function ListIds(xs: List<Id>): set<Id> {
    match xs
    case Nil => {}
    case Cons(x, rest) => {x} + ListIds(rest)
  }

  lemma {:induction false} ApplyLocalsPlain(f: Expr, xs: List<Id>, scope: set<Id>)
    requires Plain(f, scope) && ListIds(xs) <= scope
    ensures Plain(ApplyLocals(f, xs), scope)
    decreases xs
  {
    match xs
    case Nil =>
    case Cons(x, rest) => ApplyLocalsPlain(Apply(f, Local(x)), rest, scope);
  }

  lemma {:induction false} CallHelperPlain(helpers: List<Id>, scope: set<Id>)
    requires helpers.Cons? && ListIds(helpers) <= scope
    ensures Plain(CallHelper(helpers), scope)
  {
    ApplyLocalsPlain(Local(helpers.head), helpers.tail, scope);
  }

  /** Copying a plain continuation yields the same expression and allocates nothing. */
  lemma {:induction false} PlainClone(failure: Expr, scope: set<Id>, n: Id)
    requires Plain(failure, scope)
    ensures CloneExpression(failure, n) == Out(failure, n)
  {
    AllocateCount(Ids(failure), n);
    RenameNothing(failure, Allocate(Ids(failure), n).value);
  }

  lemma {:induction false} ImageFixed(m: Renaming, xs: set<Id>)
    requires m.Keys !! xs
    ensures Image(m, xs) == xs
  {
    assert forall x <- xs :: At(m, x) == x;
    forall x <- xs ensures x in Image(m, xs) { assert At(m, x) == x; }
  }

  /** A copy has only new ids, and still reads the same scope. */
  lemma {:induction false} CloneGood(e: Expr, scope: set<Id>, n: Id)
    requires Unique(e) && Scoped(e, scope) && Ids(e) !! scope
    ensures Good(CloneExpression(e, n), {}, scope, n)
  {
    var m := Allocate(Ids(e), n).value;
    InjectiveOneToOne(m, Ids(e));
    RenameUnique(e, m);
    RenameIds(e, m);
    RenameScoped(e, m, scope);
    ImageFixed(m, scope);
  }

  lemma {:induction false} CloneRowGood(r: Row, scope: set<Id>, n: Id)
    requires UniqueRow(r) && ScopedRow(r, scope) && IdsRow(r) !! scope
    ensures var c := CloneRow(r, n);
            UniqueRow(c.value) && ScopedRow(c.value, scope) && Drawn(IdsRow(c.value), {}, n, c.next)
  {
    var m := Allocate(IdsRow(r), n).value;
    InjectiveOneToOne(m, IdsRow(r));
    RenameUniqueRow(r, m);
    RenameIdsRow(r, m);
    RenameScopedRow(r, m, scope);
    ImageFixed(m, scope);
  }

  lemma {:induction false} RowUnfolds(r: Row, scope: set<Id>)
    ensures IdsRow(r) == PatternIds(r.pattern) + Ids(r.value)
    ensures UniqueRow(r) <==> UniquePattern(r.pattern) && Unique(r.value) && PatternIds(r.pattern) !! Ids(r.value)
    ensures ScopedRow(r, scope) <==> Scoped(r.value, scope + PatternIds(r.pattern))
  {
  }

  /** A case of two rows, the second one a wildcard. */
  lemma {:induction false} TwoRows(scrutinee: Expr, p: Pattern, value: Expr, other: Expr, scope: set<Id>)
    requires Unique(scrutinee) && Scoped(scrutinee, scope) && UniquePattern(p) && Unique(value) && Unique(other)
    requires Scoped(value, scope + PatternIds(p)) && Scoped(other, scope)
    requires PatternIds(p) !! Ids(value) && PatternIds(p) + Ids(value) !! Ids(other)
    requires Ids(scrutinee) !! PatternIds(p) + Ids(value) + Ids(other)
    ensures var e := Case(scrutinee, Cons(Row(p, value), Cons(Row(Wildcard, other), Nil)));
            Unique(e) && Scoped(e, scope) && Ids(e) == Ids(scrutinee) + PatternIds(p) + Ids(value) + Ids(other)
  {
    var first, second := Row(p, value), Row(Wildcard, other);
    ScopedMore(other, scope, scope + PatternIds(Wildcard));
    RowUnfolds(first, scope);
    RowUnfolds(second, scope);
    var one, two := Cons(second, Nil), Cons(first, Cons(second, Nil));
    assert IdsRows(Nil) == {} && UniqueRows(Nil) && ScopedRows(Nil, scope);
    assert IdsRows(one) == Ids(other) && UniqueRows(one) && ScopedRows(one, scope);
    assert IdsRows(two) == PatternIds(p) + Ids(value) + Ids(other) && UniqueRows(two) && ScopedRows(two, scope);
  }

  // ----- Lowering an expression -----

  lemma {:induction false} LowerGood(e: Expr, scope: set<Id>, n: Id)
    requires Fit(e, scope, n)
    ensures Good(Lower(e, n), Ids(e), scope, n)
    decreases Size(e), 1
  {
    match e
    case Compound(_, parts) => LowerGoodParts(parts, scope, n);
    case Apply(f, a) => LowerGoodPair(f, a, scope, n);
    case Operator(symbol, l, r) =>
      LowerGoodPair(l, r, scope, n);
      CallKeeps(symbol, Lower(l, n).value, Lower(r, Lower(l, n).next).value, scope);
    case Negate(f, a) => LowerGoodPair(f, a, scope, n);
    case Lambda(x, b) => LowerGood(b, scope + {x}, n);
    case Let(bs, b) => LowerGoodLet(bs, b, scope, n);
    case If(c, t, f) => LowerGoodIf(c, t, f, scope, n);
    case Case(s, rows) => LowerGoodCase(s, rows, scope, n);
    case Guarded(cs) =>
      NoMatchPlain(scope);
      LowerGoodClauses(cs, NO_MATCH, scope, n);
    case _ =>
  }

  lemma {:induction false} CallKeeps(symbol: Symbol, l: Expr, r: Expr, scope: set<Id>)
    requires Unique(l) && Unique(r) && Ids(l) !! Ids(r) && Scoped(l, scope) && Scoped(r, scope)
    ensures var e := Apply(Apply(Global(symbol), l), r);
            Unique(e) && Scoped(e, scope) && Ids(e) == Ids(l) + Ids(r)
  {
    var f := Global(symbol);
    assert Unique(f) && Ids(f) == {} && Scoped(f, scope);
    var partial := Apply(f, l);
    assert Unique(partial) && Ids(partial) == Ids(l) && Scoped(partial, scope);
  }

  lemma {:induction false} LowerGoodPair(a: Expr, b: Expr, scope: set<Id>, n: Id)
    requires Fit(a, scope, n) && Fit(b, scope, n) && Ids(a) !! Ids(b)
    ensures var a' := Lower(a, n);
            var b' := Lower(b, a'.next);
            && Good(a', Ids(a), scope, n) && Good(b', Ids(b), scope, a'.next)
            && Ids(a'.value) !! Ids(b'.value)
            && Drawn(Ids(a'.value) + Ids(b'.value), Ids(a) + Ids(b), n, b'.next)
    decreases Size(a) + Size(b), 2
  {
    LowerGood(a, scope, n);
    var a' := Lower(a, n);
    LowerGood(b, scope, a'.next);
    var b' := Lower(b, a'.next);
    DrawnApart(Ids(a'.value), Ids(a), n, a'.next, Ids(b'.value), Ids(b), b'.next);
  }

  lemma {:induction false} LowerGoodIf(c: Expr, t: Expr, f: Expr, scope: set<Id>, n: Id)
    requires Fit(If(c, t, f), scope, n)
    ensures Good(Lower(If(c, t, f), n), Ids(If(c, t, f)), scope, n)
    decreases Size(If(c, t, f)), 0
  {
    LowerGoodPair(c, t, scope, n);
    var c' := Lower(c, n);
    var t' := Lower(t, c'.next);
    LowerGood(f, scope, t'.next);
    var f' := Lower(f, t'.next);
    DrawnApart(Ids(c'.value) + Ids(t'.value), Ids(c) + Ids(t), n, t'.next, Ids(f'.value), Ids(f), f'.next);
  }

  lemma {:induction false} LowerGoodLet(bs: List<Binding>, b: Expr, scope: set<Id>, n: Id)
    requires Fit(Let(bs, b), scope, n)
    ensures Good(Lower(Let(bs, b), n), Ids(Let(bs, b)), scope, n)
    decreases Size(Let(bs, b)), 0
  {
    SplitIds(bs);
    var inner := scope + BoundIds(bs);
    LowerGoodBindings(bs, inner, n);
    var bs' := LowerBindings(bs, n);
    LowerGood(b, inner, bs'.next);
    GoodLet(bs, bs', Ids(b), Lower(b, bs'.next), scope, n);
  }

  /** A lowered group around a lowered body. */
  lemma {:induction false} GoodLet(bs: List<Binding>, bs': Out<List<Binding>>, from: set<Id>, b': Out<Expr>,
                                   scope: set<Id>, n: Id)
    requires GoodBindings(bs', bs, scope + BoundIds(bs), n) && Good(b', from, scope + BoundIds(bs), bs'.next)
    requires n <= bs'.next <= b'.next
    requires UniqueBindings(bs) && Below(IdsBindings(bs), n) && Below(from, n) && IdsBindings(bs) !! from
    ensures Good(Out(Let(bs'.value, b'.value), b'.next), IdsBindings(bs) + from, scope, n)
  {
    SplitIds(bs);
    SplitIds(bs'.value);
    DrawnApart(IdsBindings(bs'.value), IdsBindings(bs), n, bs'.next, Ids(b'.value), from, b'.next);
  }

  lemma {:induction false} LowerGoodParts(es: List<Expr>, scope: set<Id>, n: Id)
    requires FitParts(es, scope, n)
    ensures GoodParts(LowerParts(es, n), IdsParts(es), scope, n)
    decreases SizeParts(es), 0
  {
    match es
    case Nil =>
    case Cons(e, rest) =>
      LowerGood(e, scope, n);
      var e' := Lower(e, n);
      LowerGoodParts(rest, scope, e'.next);
      var rest' := LowerParts(rest, e'.next);
      DrawnApart(Ids(e'.value), Ids(e), n, e'.next, IdsParts(rest'.value), IdsParts(rest), rest'.next);
  }

  lemma {:induction false} LowerGoodBindings(bs: List<Binding>, scope: set<Id>, n: Id)
    requires FitBindings(bs, scope, n)
    ensures GoodBindings(LowerBindings(bs, n), bs, scope, n)
    decreases SizeBindings(bs), 0
  {
    match bs
    case Nil =>
    case Cons(b, rest) =>
      SplitIds(rest);
      LowerGood(b.value, scope, n);
      var v := Lower(b.value, n);
      LowerGoodBindings(rest, scope, v.next);
      GoodBinding(b, v, rest, LowerBindings(rest, v.next), scope, n);
  }

  lemma {:induction false} GoodBinding(b: Binding, v: Out<Expr>, rest: List<Binding>, rest': Out<List<Binding>>,
                                       scope: set<Id>, n: Id)
    requires UniqueBindings(Cons(b, rest)) && Below(IdsBindings(Cons(b, rest)), n)
    requires Good(v, Ids(b.value), scope, n) && GoodBindings(rest', rest, scope, v.next) && n <= v.next <= rest'.next
    ensures GoodBindings(Out(Cons(Binding(b.id, v.value), rest'.value), rest'.next), Cons(b, rest), scope, n)
  {
    SplitIds(rest);
    SplitIds(rest'.value);
    DrawnApart(Ids(v.value), Ids(b.value), n, v.next, InnerIds(rest'.value), InnerIds(rest), rest'.next);
  }

  lemma {:induction false} LowerGoodRows(rows: List<Row>, scope: set<Id>, n: Id)
    requires FitRows(rows, scope, n)
    ensures GoodRows(LowerRows(rows, n), IdsRows(rows), scope, n)
    decreases SizeRows(rows), 0
  {
    match rows
    case Nil =>
    case Cons(r, rest) =>
      RowUnfolds(r, scope);
      LowerGood(r.value, scope + PatternIds(r.pattern), n);
      var v := Lower(r.value, n);
      LowerGoodRows(rest, scope, v.next);
      GoodRow(r, v, rest, LowerRows(rest, v.next), scope, n);
  }

  lemma {:induction false} GoodRow(r: Row, v: Out<Expr>, rest: List<Row>, rest': Out<List<Row>>, scope: set<Id>, n: Id)
    requires UniqueRows(Cons(r, rest)) && Below(IdsRows(Cons(r, rest)), n) && n <= v.next <= rest'.next
    requires Good(v, Ids(r.value), scope + PatternIds(r.pattern), n) && GoodRows(rest', IdsRows(rest), scope, v.next)
    ensures GoodRows(Out(Cons(Row(r.pattern, v.value), rest'.value), rest'.next), IdsRows(Cons(r, rest)), scope, n)
  {
    RowUnfolds(r, scope);
    RowUnfolds(Row(r.pattern, v.value), scope);
    DrawnApart(PatternIds(r.pattern) + Ids(v.value), IdsRow(r), n, v.next, IdsRows(rest'.value), IdsRows(rest),
               rest'.next);
  }

  // ----- Clauses and guards -----

  lemma {:induction false} LowerGoodRhs(e: Expr, failure: Expr, scope: set<Id>, n: Id)
    requires Fit(e, scope, n) && Plain(failure, scope)
    ensures Good(LowerRhs(e, failure, n), Ids(e), scope, n)
    decreases Size(e), 2
  {
    match e
    case Guarded(cs) => LowerGoodClauses(cs, failure, scope, n);
    case Let(bs, b) =>
      SplitIds(bs);
      var inner := scope + BoundIds(bs);
      LowerGoodBindings(bs, inner, n);
      var bs' := LowerBindings(bs, n);
      ScopedMore(failure, scope, inner);
      LowerGoodRhs(b, failure, inner, bs'.next);
      GoodLet(bs, bs', Ids(b), LowerRhs(b, failure, bs'.next), scope, n);
    case _ => LowerGood(e, scope, n);
  }

  lemma {:induction false} LowerGoodClauses(cs: List<Clause>, failure: Expr, scope: set<Id>, n: Id)
    requires FitClauses(cs, scope, n) && Plain(failure, scope)
    ensures Good(LowerClauses(cs, failure, n), IdsClauses(cs), scope, n)
    decreases SizeClauses(cs), 0
  {
    match cs
    case Nil =>
    case Cons(c, rest) =>
      LowerGoodClauses(rest, failure, scope, n);
      var next := LowerClauses(rest, failure, n);
      LowerGoodClause(c, next.value, scope, next.next);
  }

  ghost function ClauseIds(c: Clause): set<Id> {
    IdsBindings(c.wheres) + IdsGuards(c.guards) + Ids(c.value)
  }

  ghost predicate FitClause(c: Clause, scope: set<Id>, n: Id) {
    && UniqueClauses(Cons(c, Nil)) && ScopedClauses(Cons(c, Nil), scope)
    && ClauseIds(c) !! scope && Below(ClauseIds(c), n) && Below(scope, n)
  }

  lemma {:induction false} LowerGoodClause(c: Clause, failure: Expr, scope: set<Id>, n: Id)
    requires FitClause(c, scope, n)
    requires Unique(failure) && Scoped(failure, scope) && Ids(failure) !! scope
    ensures Good(LowerClause(c, failure, n), ClauseIds(c), scope, n)
    decreases SizeBindings(c.wheres) + SizeGuards(c.guards) + Size(c.value), 3
  {
    var inner := scope + BoundIds(c.wheres);
    SplitIds(c.wheres);
    ClauseValueFit(c, scope, n);
    LowerGood(c.value, GuardScope(c.guards, inner), n);
    var v := Lower(c.value, n);
    LowerGoodGuards(c.guards, v.value, failure, scope, inner, v.next);
    var g := LowerGuards(c.guards, v.value, failure, v.next);
    assert Drawn(Ids(g.value), IdsGuards(c.guards) + Ids(c.value), n, g.next);
    if c.wheres.Cons? {
      LowerGoodBindings(c.wheres, inner, g.next);
      GoodWheres(c, LowerBindings(c.wheres, g.next), g, scope, n);
    } else {
      assert inner == scope;
    }
  }

  lemma {:induction false} GoodWheres(c: Clause, bs: Out<List<Binding>>, g: Out<Expr>, scope: set<Id>, n: Id)
    requires FitClause(c, scope, n) && n <= g.next <= bs.next
    requires Unique(g.value) && Scoped(g.value, scope + BoundIds(c.wheres))
    requires Drawn(Ids(g.value), IdsGuards(c.guards) + Ids(c.value), n, g.next)
    requires GoodBindings(bs, c.wheres, scope + BoundIds(c.wheres), g.next)
    ensures Good(Out(Let(bs.value, g.value), bs.next), ClauseIds(c), scope, n)
  {
    SplitIds(c.wheres);
    SplitIds(bs.value);
    DrawnApart(Ids(g.value), IdsGuards(c.guards) + Ids(c.value), n, g.next, IdsBindings(bs.value),
               IdsBindings(c.wheres), bs.next);
  }

  lemma {:induction false} GuardScopeIds(gs: List<Guard>, scope: set<Id>)
    ensures GuardScope(gs, scope) <= scope + IdsGuards(gs)
  {
    match gs
    case Nil =>
    case Cons(g, rest) =>
      GuardIdsBound(g);
      GuardScopeIds(rest, scope + GuardIds(g));
  }

  lemma {:induction false} GuardIdsBound(g: Guard)
    ensures GuardIds(g) <= IdsGuard(g)
  {
    if g.Bindings? { SplitIds(g.bindings); }
  }

  lemma {:induction false} ClauseValueFit(c: Clause, scope: set<Id>, n: Id)
    requires FitClause(c, scope, n)
    ensures Fit(c.value, GuardScope(c.guards, scope + BoundIds(c.wheres)), n)
  {
    SplitIds(c.wheres);
    GuardScopeIds(c.guards, scope + BoundIds(c.wheres));
  }

  /** `failure` reads `outer`, the scope the clause started in; `success` the scope after `gs`. */
  lemma {:induction false} LowerGoodGuards(gs: List<Guard>, success: Expr, failure: Expr, outer: set<Id>,
                                           scope: set<Id>, n: Id)
    requires UniqueGuards(gs) && ScopedGuards(gs, scope) && IdsGuards(gs) !! scope
    requires Below(IdsGuards(gs), n) && Below(scope, n) && Below(Ids(success), n)
    requires Unique(success) && Scoped(success, GuardScope(gs, scope))
    requires Ids(success) !! scope + IdsGuards(gs)
    requires Unique(failure) && Scoped(failure, outer) && Ids(failure) !! outer && outer <= scope
    ensures Good(LowerGuards(gs, success, failure, n), IdsGuards(gs) + Ids(success), scope, n)
    decreases SizeGuards(gs), 0
  {
    match gs
    case Nil =>
    case Cons(g, rest) =>
      GuardIdsBound(g);
      LowerGoodGuards(rest, success, failure, outer, scope + GuardIds(g), n);
      var next := LowerGuards(rest, success, failure, n);
      LowerGoodGuard(g, next.value, failure, outer, scope, next.next);
  }

  /** What one guard needs: its own parts are fit, the success code is in the scope it makes,
      and the failure code in the scope of the whole clause. */
  ghost predicate FitGuard(g: Guard, success: Expr, failure: Expr, outer: set<Id>, scope: set<Id>, n: Id) {
    && UniqueGuard(g) && ScopedGuard(g, scope) && IdsGuard(g) !! scope
    && Below(IdsGuard(g), n) && Below(scope, n) && Below(Ids(success), n)
    && Unique(success) && Scoped(success, scope + GuardIds(g))
    && Ids(success) !! scope + IdsGuard(g)
    && Unique(failure) && Scoped(failure, outer) && Ids(failure) !! outer && outer <= scope
  }

  lemma {:induction false} LowerGoodGuard(g: Guard, success: Expr, failure: Expr, outer: set<Id>, scope: set<Id>, n: Id)
    requires FitGuard(g, success, failure, outer, scope, n)
    ensures Good(LowerGuard(g, success, failure, n), IdsGuard(g) + Ids(success), scope, n)
    decreases SizeGuard(g), 3
  {
    match g
    case Test(c) => LowerGoodTest(c, success, failure, outer, scope, n);
    case Match(p, v) => LowerGoodPatternGuard(p, v, success, failure, outer, scope, n);
    case Bindings(bs) =>
      SplitIds(bs);
      LowerGoodBindings(bs, scope + BoundIds(bs), n);
      GoodLetGuard(bs, LowerBindings(bs, n), success, scope, n);
  }

  lemma {:induction false} LowerGoodTest(c: Expr, success: Expr, failure: Expr, outer: set<Id>, scope: set<Id>, n: Id)
    requires FitGuard(Test(c), success, failure, outer, scope, n)
    ensures Good(LowerGuard(Test(c), success, failure, n), Ids(c) + Ids(success), scope, n)
    decreases Size(c), 2
  {
    assert scope + GuardIds(Test(c)) == scope;
    LowerGood(c, scope, n);
    var c' := Lower(c, n);
    CloneGood(failure, outer, c'.next);
    GoodTest(c, c', success, CloneExpression(failure, c'.next), outer, scope, n);
  }

  lemma {:induction false} LowerGoodPatternGuard(p: Pattern, v: Expr, success: Expr, failure: Expr, outer: set<Id>,
                                                 scope: set<Id>, n: Id)
    requires FitGuard(Match(p, v), success, failure, outer, scope, n)
    ensures Good(LowerGuard(Match(p, v), success, failure, n), PatternIds(p) + Ids(v) + Ids(success), scope, n)
    decreases Size(v), 2
  {
    CloneGood(failure, outer, n);
    var copy := CloneExpression(failure, n);
    LowerGood(v, scope, copy.next);
    GoodMatch(p, v, Lower(v, copy.next), success, copy, outer, scope, n);
  }

  lemma {:induction false} GoodTest(c: Expr, c': Out<Expr>, success: Expr, copy: Out<Expr>, outer: set<Id>,
                                    scope: set<Id>, n: Id)
    requires Below(Ids(c), n) && Good(c', Ids(c), scope, n) && Good(copy, {}, outer, c'.next) && outer <= scope
    requires Unique(success) && Scoped(success, scope) && Below(Ids(success), n) && Ids(success) !! Ids(c)
    requires n <= c'.next <= copy.next
    ensures Good(Out(If(c'.value, success, copy.value), copy.next), Ids(c) + Ids(success), scope, n)
  {
    ScopedMore(copy.value, outer, scope);
  }

  lemma {:induction false} GoodLetGuard(bs: List<Binding>, bs': Out<List<Binding>>, success: Expr, scope: set<Id>,
                                        n: Id)
    requires GoodBindings(bs', bs, scope + BoundIds(bs), n) && n <= bs'.next
    requires UniqueBindings(bs) && Below(IdsBindings(bs), n) && Below(Ids(success), n)
             && IdsBindings(bs) !! Ids(success)
    requires Unique(success) && Scoped(success, scope + BoundIds(bs))
    ensures Good(Out(Let(bs'.value, success), bs'.next), IdsBindings(bs) + Ids(success), scope, n)
  {
    SplitIds(bs);
    SplitIds(bs'.value);
  }

  lemma {:induction false} GoodMatch(p: Pattern, v: Expr, v': Out<Expr>, success: Expr, copy: Out<Expr>, outer: set<Id>,
                                     scope: set<Id>, n: Id)
    requires UniquePattern(p) && PatternIds(p) !! Ids(v) && Below(PatternIds(p), n) && Below(Ids(v), n)
             && Below(Ids(success), n)
    requires Unique(success) && Scoped(success, scope + PatternIds(p)) && Ids(success) !! PatternIds(p) + Ids(v)
    requires Good(copy, {}, outer, n) && outer <= scope
    requires Good(v', Ids(v), scope, copy.next) && n <= copy.next <= v'.next
    ensures Good(Out(Case(PatternScrutinee(v'.value, p),
                          Cons(Row(PatternForScrutinee(p), success), Cons(Row(Wildcard, copy.value), Nil))), v'.next),
                 PatternIds(p) + Ids(v) + Ids(success), scope, n)
  {
    ScrutineeKeeps(v'.value, p, scope);
    ScopedMore(copy.value, outer, scope);
    TwoRows(PatternScrutinee(v'.value, p), PatternForScrutinee(p), success, copy.value, scope);
  }

  lemma {:induction false} ScrutineeKeeps(v: Expr, p: Pattern, scope: set<Id>)
    ensures Unique(PatternScrutinee(v, p)) == Unique(v) && Scoped(PatternScrutinee(v, p), scope) == Scoped(v, scope)
    ensures Ids(PatternScrutinee(v, p)) == Ids(v)
    ensures PatternIds(PatternForScrutinee(p)) == PatternIds(p)
            && UniquePattern(PatternForScrutinee(p)) == UniquePattern(p)
  {
    ProductKeeps(v, scope);
    ProductPatternKeeps(p);
  }

  lemma {:induction false} ProductKeeps(v: Expr, scope: set<Id>)
    ensures Unique(Product(v)) == Unique(v) && Scoped(Product(v), scope) == Scoped(v, scope)
            && Ids(Product(v)) == Ids(v)
  {
    assert IdsParts(Nil) == {} && UniqueParts(Nil) && ScopedParts(Nil, scope);
    assert IdsParts(Cons(v, Nil)) == Ids(v);
    assert UniqueParts(Cons(v, Nil)) == Unique(v);
    assert ScopedParts(Cons(v, Nil), scope) == Scoped(v, scope);
  }

  lemma {:induction false} ProductPatternKeeps(p: Pattern)
    ensures PatternIds(ProductPattern(p)) == PatternIds(p) && UniquePattern(ProductPattern(p)) == UniquePattern(p)
  {
    assert PatternIdsAll(Nil) == {} && UniquePatterns(Nil);
    assert PatternIdsAll(Cons(p, Nil)) == PatternIds(p);
    assert UniquePatterns(Cons(p, Nil)) == UniquePattern(p);
  }

  // ----- Cases -----

  lemma {:induction false} WrapRowsKeeps(rows: List<Row>, scope: set<Id>)
    ensures IdsRows(WrapRows(rows)) == IdsRows(rows) && UniqueRows(WrapRows(rows)) == UniqueRows(rows)
    ensures ScopedRows(WrapRows(rows), scope) == ScopedRows(rows, scope)
  {
    match rows
    case Nil =>
    case Cons(r, rest) =>
      ProductPatternKeeps(r.pattern);
      RowUnfolds(r, scope);
      RowUnfolds(Row(ProductPattern(r.pattern), r.value), scope);
      WrapRowsKeeps(rest, scope);
  }

  lemma {:induction false} LowerGoodCase(s: Expr, rows: List<Row>, scope: set<Id>, n: Id)
    requires Fit(Case(s, rows), scope, n)
    ensures Good(LowerCase(s, rows, n), Ids(Case(s, rows)), scope, n)
    decreases 1 + Size(s) + SizeRows(rows), 0
  {
    LowerGood(s, scope, n);
    var s' := Lower(s, n);
    if !AnyGuarded(rows) {
      LowerGoodRows(rows, scope, s'.next);
      var rows' := LowerRows(rows, s'.next);
      DrawnApart(Ids(s'.value), Ids(s), n, s'.next, IdsRows(rows'.value), IdsRows(rows), rows'.next);
    } else {
      ProductKeeps(s'.value, scope);
      WrapRowsKeeps(rows, scope);
      var wrap := !AllRecordPatterns(rows);
      var rows' := if wrap then WrapRows(rows) else rows;
      LowerGoodMatch(if wrap then Product(s'.value) else s'.value, rows', scope, s'.next);
    }
  }

  lemma {:induction false} LowerGoodMatch(saved: Expr, rows: List<Row>, scope: set<Id>, n: Id)
    requires AnyGuarded(rows) && FitRows(rows, scope, n)
    requires Unique(saved) && Scoped(saved, scope) && Below(Ids(saved), n) && Ids(saved) !! IdsRows(rows)
    ensures Good(LowerMatch(saved, rows, n), Ids(saved) + IdsRows(rows), scope, n)
    decreases 1 + SizeRows(rows), 0
  {
    var count := Length(HelperRows(rows)) + 1;
    var values := LowerGoodMatchHelpers(rows, scope, n);
    var roots := LowerGoodMatchRoots(rows, scope, n, count, values.next);
    GoodMatchLet(saved, rows, values, roots, scope, n, count);
    MatchUnfolds(saved, rows, n);
  }

  lemma {:induction false} MatchUnfolds(saved: Expr, rows: List<Row>, n: Id)
    requires AnyGuarded(rows)
    ensures var count := Length(HelperRows(rows)) + 1;
            var helpers := FreshIds(n + 1, count);
            var values := LowerHelpers(HelperRows(rows), n, n + 1 + count);
            var roots := LowerRoots(rows, helpers, false, values.next);
            LowerMatch(saved, rows, n)
            == Out(Let(Cons(Binding(n, saved), Nil), Let(Bound(helpers, values.value), Case(Local(n), roots.value))),
                   roots.next)
  {
  }

  lemma {:induction false} LowerGoodMatchHelpers(rows: List<Row>, scope: set<Id>,
                                                 n: Id) returns (values: Out<List<Expr>>)
    requires AnyGuarded(rows) && FitRows(rows, scope, n)
    ensures var later := HelperRows(rows); values == LowerHelpers(later, n, n + 1 + (Length(later) + 1))
    ensures GoodParts(values, {}, scope + {n}, n + 1 + (Length(HelperRows(rows)) + 1))
    decreases SizeRows(rows), 1
  {
    var later := HelperRows(rows);
    HelperRowsFit(rows, scope);
    LowerGoodHelpers(later, n, scope, n + 1 + (Length(later) + 1));
    values := LowerHelpers(later, n, n + 1 + (Length(later) + 1));
  }

  lemma {:induction false} LowerGoodMatchRoots(rows: List<Row>, scope: set<Id>, n: Id, count: nat,
                                               next: Id) returns (roots: Out<List<Row>>)
    requires AnyGuarded(rows) && FitRows(rows, scope, n) && count == Length(HelperRows(rows)) + 1
             && n + 1 + count <= next
    ensures roots == LowerRoots(rows, FreshIds(n + 1, count), false, next)
    ensures GoodRows(roots, IdsRows(rows), scope + {n} + ListIds(FreshIds(n + 1, count)), next)
    decreases SizeRows(rows), 1
  {
    RowsFitInside(rows, scope, n, count, next);
    LowerGoodRoots(rows, FreshIds(n + 1, count), false, scope + {n} + ListIds(FreshIds(n + 1, count)), next);
    roots := LowerRoots(rows, FreshIds(n + 1, count), false, next);
  }

  lemma {:induction false} RowsFitInside(rows: List<Row>, scope: set<Id>, n: Id, count: nat, next: Id)
    requires FitRows(rows, scope, n) && n + 1 + count <= next
    ensures FitRows(rows, scope + {n} + ListIds(FreshIds(n + 1, count)), next)
  {
    FreshIdsAre(n + 1, count);
    ScopedMoreRows(rows, scope, scope + {n} + ListIds(FreshIds(n + 1, count)));
  }

  lemma {:induction false} HelperRowsFit(rows: List<Row>, scope: set<Id>)
    requires AnyGuarded(rows)
    ensures UniqueRows(rows) ==> UniqueRows(HelperRows(rows))
    ensures ScopedRows(rows, scope) ==> ScopedRows(HelperRows(rows), scope)
    ensures IdsRows(HelperRows(rows)) <= IdsRows(rows)
  {
    if !IsGuardedRhs(rows.head.value) { HelperRowsFit(rows.tail, scope); }
  }

  lemma {:induction false} FreshIdsAre(n: Id, count: nat)
    ensures forall x :: x in ListIds(FreshIds(n, count)) <==> n <= x < n + count
    decreases count
  {
    if count > 0 { FreshIdsAre(n + 1, count - 1); }
  }

  lemma {:induction false} BoundKeeps(n: Id, count: nat, values: List<Expr>, scope: set<Id>)
    requires Length(values) == count && UniqueParts(values) && ScopedParts(values, scope)
    requires forall x <- IdsParts(values) :: x >= n + count
    ensures var bs := Bound(FreshIds(n, count), values);
            && UniqueBindings(bs) && ScopedBindings(bs, scope)
            && BoundIds(bs) == ListIds(FreshIds(n, count)) && InnerIds(bs) == IdsParts(values)
    decreases count
  {
    FreshIdsAre(n, count);
    match values
    case Nil =>
    case Cons(v, rest) =>
      assert IdsParts(values) == Ids(v) + IdsParts(rest);
      BoundKeeps(n + 1, count - 1, rest, scope);
      FreshIdsAre(n + 1, count - 1);
      SplitIds(Bound(FreshIds(n + 1, count - 1), rest));
  }

  lemma {:induction false} GoodMatchLet(saved: Expr, rows: List<Row>, values: Out<List<Expr>>, roots: Out<List<Row>>,
                                        scope: set<Id>, n: Id, count: nat)
    requires FitRows(rows, scope, n) && Unique(saved) && Scoped(saved, scope) && Below(Ids(saved), n)
    requires Ids(saved) !! IdsRows(rows) && Length(values.value) == count && n + 1 + count <= values.next <= roots.next
    requires GoodParts(values, {}, scope + {n}, n + 1 + count)
    requires var helpers := FreshIds(n + 1, count); GoodRows(roots, IdsRows(rows), scope + {n} + ListIds(helpers),
                                                             values.next)
    ensures var helpers := FreshIds(n + 1, count);
            Good(Out(Let(Cons(Binding(n, saved), Nil), Let(Bound(helpers, values.value), Case(Local(n), roots.value))),
                     roots.next),
                 Ids(saved) + IdsRows(rows), scope, n)
  {
    var helpers := FreshIds(n + 1, count);
    FreshIdsAre(n + 1, count);
    var inner := scope + {n} + ListIds(helpers);
    ScopedMoreParts(values.value, scope + {n}, inner);
    BoundKeeps(n + 1, count, values.value, inner);
    var bs := Bound(helpers, values.value);
    SplitIds(bs);
    CaseOnLocal(n, roots.value, inner);
    GroupAround(bs, Case(Local(n), roots.value), scope + {n});
    SavedLet(n, saved, Let(bs, Case(Local(n), roots.value)), scope);
  }

  lemma {:induction false} CaseOnLocal(temp: Id, rows: List<Row>, scope: set<Id>)
    requires UniqueRows(rows) && ScopedRows(rows, scope) && temp in scope
    ensures var e := Case(Local(temp), rows); Unique(e) && Scoped(e, scope) && Ids(e) == IdsRows(rows)
  {
    var t := Local(temp);
    assert Unique(t) && Ids(t) == {};
    assert Scoped(t, scope);
  }

  lemma {:induction false} GroupAround(bs: List<Binding>, body: Expr, scope: set<Id>)
    requires UniqueBindings(bs) && ScopedBindings(bs, scope + BoundIds(bs))
    requires Unique(body) && Scoped(body, scope + BoundIds(bs)) && IdsBindings(bs) !! Ids(body)
    ensures Unique(Let(bs, body)) && Scoped(Let(bs, body), scope) && Ids(Let(bs, body)) == IdsBindings(bs) + Ids(body)
  {
  }

  lemma {:induction false} SavedLet(temp: Id, saved: Expr, body: Expr, scope: set<Id>)
    requires Unique(saved) && Scoped(saved, scope) && Unique(body) && Scoped(body, scope + {temp})
    requires temp !in Ids(saved) && ({temp} + Ids(saved)) !! Ids(body)
    ensures var e := Let(Cons(Binding(temp, saved), Nil), body);
            Unique(e) && Scoped(e, scope) && Ids(e) == {temp} + Ids(saved) + Ids(body)
  {
    var bs := Cons(Binding(temp, saved), Nil);
    assert BoundIds(Nil) == {} && IdsBindings(Nil) == {};
    assert BoundIds(bs) == {temp} && IdsBindings(bs) == {temp} + Ids(saved);
    ScopedMore(saved, scope, scope + {temp});
    assert ScopedBindings(bs, scope + {temp}) && UniqueBindings(bs);
  }

  // ----- Helpers and root rows -----

  ghost predicate FitHelpers(later: List<Row>, temp: Id, scope: set<Id>, n: Id) {
    && UniqueRows(later) && ScopedRows(later, scope) && IdsRows(later) !! scope + {temp}
    && Below(IdsRows(later), n) && Below(scope, n) && temp < n
  }

  /** Every helper binds new ids only: its row was copied before it was lowered. */
  lemma {:induction false} LowerGoodHelpers(later: List<Row>, temp: Id, scope: set<Id>, n: Id)
    requires FitHelpers(later, temp, scope, n)
    ensures GoodParts(LowerHelpers(later, temp, n), {}, scope + {temp}, n)
    decreases SizeRows(later), 0
  {
    if later.Nil? {
      GoodLastHelper(temp, scope, n);
    } else {
      var next := FreshIds(n, Length(later));
      FitHelpersParts(later.head, later.tail, temp, scope, n);
      LowerGoodHelperRow(later.head, next, temp, scope, n);
      var body := LowerHelperRow(later.head, next, temp, n + Length(next) + 1);
      LowerGoodHelpers(later.tail, temp, scope, body.next);
      GoodHelperThen(next, body, LowerHelpers(later.tail, temp, body.next), temp, scope, n);
      HelpersUnfold(later, temp, n);
    }
  }

  lemma {:induction false} FitHelpersParts(row: Row, rest: List<Row>, temp: Id, scope: set<Id>, n: Id)
    requires FitHelpers(Cons(row, rest), temp, scope, n)
    ensures UniqueRow(row) && ScopedRow(row, scope) && IdsRow(row) !! scope && Below(scope, n) && temp < n
    ensures forall next :: next >= n ==> FitHelpers(rest, temp, scope, next)
  {
  }

  lemma {:induction false} GoodLastHelper(temp: Id, scope: set<Id>, n: Id)
    ensures GoodParts(LowerHelpers(Nil, temp, n), {}, scope + {temp}, n)
  {
    var body := Case(Local(temp), Nil);
    CaseOnLocal(temp, Nil, scope + {temp} + ListIds(FreshIds(n, 0)) + {n});
    HelperFunctionKeeps(n, 0, body, scope + {temp});
    assert IdsParts(Nil) == {} && UniqueParts(Nil);
  }

  lemma {:induction false} GoodHelperThen(next: List<Id>, body: Out<Expr>, values: Out<List<Expr>>, temp: Id,
                                          scope: set<Id>, n: Id)
    requires next == FreshIds(n, Length(next)) && body.next <= values.next
    requires GoodHelper(body, next, temp, scope, n)
    requires GoodParts(values, {}, scope + {temp}, body.next)
    ensures GoodParts(Out(Cons(HelperFunction(next, n + Length(next), body.value), values.value), values.next), {},
                      scope + {temp}, n)
  {
    FreshIdsAre(n, Length(next));
    HelperFunctionKeeps(n, Length(next), body.value, scope + {temp});
    var h := HelperFunction(next, n + Length(next), body.value);
    DrawnApart(Ids(h), {}, n, body.next, IdsParts(values.value), {}, values.next);
  }

  lemma {:induction false} HelperFunctionKeeps(n: Id, count: nat, body: Expr, scope: set<Id>)
    requires Unique(body) && (forall x <- Ids(body) :: x > n + count)
    requires Scoped(body, scope + ListIds(FreshIds(n, count)) + {n + count})
    ensures var h := HelperFunction(FreshIds(n, count), n + count, body);
            Unique(h) && Scoped(h, scope) && Ids(h) == ListIds(FreshIds(n, count)) + {n + count} + Ids(body)
    decreases count
  {
    FreshIdsAre(n, count);
    var token := n + count;
    if count == 0 {
      assert scope + ListIds(Nil) + {token} == scope + {token};
    } else {
      assert scope + ListIds(FreshIds(n, count)) + {token}
             == (scope + {n}) + ListIds(FreshIds(n + 1, count - 1)) + {token};
      HelperFunctionKeeps(n + 1, count - 1, body, scope + {n});
      FreshIdsAre(n + 1, count - 1);
    }
  }

  ghost predicate GoodHelper(body: Out<Expr>, next: List<Id>, temp: Id, scope: set<Id>, n: Id) {
    && n + Length(next) < body.next
    && Unique(body.value) && Drawn(Ids(body.value), {}, n + Length(next) + 1, body.next)
    && Scoped(body.value, scope + {temp} + ListIds(next) + {n + Length(next)})
  }

  lemma {:induction false} LowerGoodHelperRow(row: Row, next: List<Id>, temp: Id, scope: set<Id>, n: Id)
    requires next.Cons? && next == FreshIds(n, Length(next))
    requires UniqueRow(row) && ScopedRow(row, scope) && IdsRow(row) !! scope && Below(scope, n) && temp < n
    ensures GoodHelper(LowerHelperRow(row, next, temp, n + Length(next) + 1), next, temp, scope, n)
    decreases Size(row.value), 4
  {
    var start := n + Length(next) + 1;
    var inner := scope + {temp} + ListIds(next) + {n + Length(next)};
    HelperScope(next, temp, scope, n);
    CloneRowGood(row, scope, start);
    var value := LowerGoodHelperValue(CloneRow(row, start), next, scope, inner, start);
    HelperRowGood(row, value, next, temp, inner, start);
  }

  lemma {:induction false} HelperRowGood(row: Row, value: Out<Expr>, next: List<Id>, temp: Id, inner: set<Id>,
                                         start: Id)
    requires next.Cons? && ListIds(next) <= inner && temp in inner
    requires var source := CloneRow(row, start);
             && UniqueRow(source.value) && Drawn(IdsRow(source.value), {}, start, source.next)
             && Good(value, Ids(source.value.value), inner + PatternIds(source.value.pattern), source.next)
             && value == LowerRhs(source.value.value, CallHelper(next), source.next)
    ensures var body := LowerHelperRow(row, next, temp, start);
            Unique(body.value) && Scoped(body.value, inner) && Drawn(Ids(body.value), {}, start, body.next)
  {
    CallHelperPlain(next, inner);
    HelperBodyIs(row, next, temp, inner, start);
    HelperBodyGood(CloneRow(row, start), value, next, temp, inner, start);
  }

  lemma {:induction false} HelperScope(next: List<Id>, temp: Id, scope: set<Id>, n: Id)
    requires next == FreshIds(n, Length(next)) && Below(scope, n) && temp < n
    ensures var inner := scope + {temp} + ListIds(next) + {n + Length(next)};
            Below(inner, n + Length(next) + 1) && scope <= inner && ListIds(next) <= inner
  {
    FreshIdsAre(n, Length(next));
  }

  lemma {:induction false} LowerGoodHelperValue(source: Out<Row>, next: List<Id>, scope: set<Id>, inner: set<Id>,
                                                start: Id)
      returns (value: Out<Expr>)
    requires next.Cons? && ListIds(next) <= inner && scope <= inner && Below(inner, start) && start <= source.next
    requires UniqueRow(source.value) && ScopedRow(source.value, scope)
             && Drawn(IdsRow(source.value), {}, start, source.next)
    ensures value == LowerRhs(source.value.value, CallHelper(next), source.next)
    ensures Good(value, Ids(source.value.value), inner + PatternIds(source.value.pattern), source.next)
    decreases Size(source.value.value), 3
  {
    HelperRowFits(source, next, scope, inner, start);
    LowerGoodRhs(source.value.value, CallHelper(next), inner + PatternIds(source.value.pattern), source.next);
    value := LowerRhs(source.value.value, CallHelper(next), source.next);
  }

  /** The calls of the next helper bind nothing, so their copies are the calls themselves. */
  lemma {:induction false} HelperBodyIs(row: Row, next: List<Id>, temp: Id, inner: set<Id>, start: Id)
    requires next.Cons? && Plain(CallHelper(next), inner)
    ensures var source := CloneRow(row, start);
            var value := LowerRhs(source.value.value, CallHelper(next), source.next);
            LowerHelperRow(row, next, temp, start)
            == Out(Case(Local(temp),
                        Cons(Row(source.value.pattern, value.value), Cons(Row(Wildcard, CallHelper(next)), Nil))),
                            value.next)
  {
    var source := CloneRow(row, start);
    PlainClone(CallHelper(next), inner, source.next);
    PlainClone(CallHelper(next), inner, LowerRhs(source.value.value, CallHelper(next), source.next).next);
  }

  lemma {:induction false} HelperRowFits(source: Out<Row>, next: List<Id>, scope: set<Id>, inner: set<Id>, start: Id)
    requires next.Cons? && ListIds(next) <= inner && scope <= inner && Below(inner, start) && start <= source.next
    requires UniqueRow(source.value) && ScopedRow(source.value, scope)
             && Drawn(IdsRow(source.value), {}, start, source.next)
    ensures Fit(source.value.value, inner + PatternIds(source.value.pattern), source.next)
    ensures Plain(CallHelper(next), inner) && Plain(CallHelper(next), inner + PatternIds(source.value.pattern))
  {
    var within := inner + PatternIds(source.value.pattern);
    CallHelperPlain(next, inner);
    CallHelperPlain(next, within);
    RowUnfolds(source.value, scope);
    ScopedMore(source.value.value, scope + PatternIds(source.value.pattern), within);
  }

  lemma {:induction false} HelperBodyGood(source: Out<Row>, value: Out<Expr>, next: List<Id>, temp: Id, inner: set<Id>,
                                          start: Id)
    requires next.Cons? && Plain(CallHelper(next), inner) && temp in inner && start <= source.next <= value.next
    requires UniqueRow(source.value) && Drawn(IdsRow(source.value), {}, start, source.next)
    requires Good(value, Ids(source.value.value), inner + PatternIds(source.value.pattern), source.next)
    ensures var body := Case(Local(temp),
                             Cons(Row(source.value.pattern, value.value), Cons(Row(Wildcard, CallHelper(next)), Nil)));
            Unique(body) && Scoped(body, inner) && Drawn(Ids(body), {}, start, value.next)
  {
    RowUnfolds(source.value, inner);
    var t := Local(temp);
    assert Unique(t) && Ids(t) == {} && Scoped(t, inner);
    TwoRows(t, source.value.pattern, value.value, CallHelper(next), inner);
  }

  lemma {:induction false} LowerGoodRoots(rows: List<Row>, helpers: List<Id>, seen: bool, scope: set<Id>, n: Id)
    requires if seen then Length(helpers) == Length(rows)
             else AnyGuarded(rows) && Length(helpers) == Length(HelperRows(rows)) + 1
    requires FitRows(rows, scope, n) && ListIds(helpers) <= scope
    ensures GoodRows(LowerRoots(rows, helpers, seen, n), IdsRows(rows), scope, n)
    decreases SizeRows(rows), 0
  {
    match rows
    case Nil =>
    case Cons(r, rest) =>
      var guarded := IsGuardedRhs(r.value);
      var inner := scope + PatternIds(r.pattern);
      RowUnfolds(r, scope);
      if guarded {
        CallHelperPlain(helpers, inner);
        LowerGoodRhs(r.value, CallHelper(helpers), inner, n);
      } else {
        LowerGood(r.value, inner, n);
      }
      var v := if guarded then LowerRhs(r.value, CallHelper(helpers), n) else Lower(r.value, n);
      var seen' := seen || guarded;
      var helpers' := if seen' then helpers.tail else helpers;
      LowerGoodRoots(rest, helpers', seen', scope, v.next);
      GoodRow(r, v, rest, LowerRoots(rest, helpers', seen', v.next), scope, n);
  }
}
