/** Lowering produces a translation: the code for a source expression under any renaming of its
    ids (crates/psrs-desugar/src/expr.rs, guards.rs).

    The renaming is there because helpers lower renamed copies of rows: the induction goes over the
    original row, and the code is obtained by lowering its copy. `Ready` collects what the induction needs
    of renaming, scope and counter. Continuations are described by `Continues`: a failure expression and
    every fresh copy of it stand for the remaining clauses.
 */
module TranslationLowering {
  import opened Lists
  import opened Hir
  import opened Alpha
  import opened Lowering
  import opened LoweringNormalForm
  import opened LoweringScope
  import opened Translation
  import opened TranslationRenaming

  /** The renaming restricted to the ids in scope. */
  ghost function With(m: Renaming, s: set<Id>): Renaming {
    map x | x in s :: At(m, x)
  }

  ghost predicate Room(ids: set<Id>, k: set<Id>, n: Id) {
    ids !! k && Below(ids, n) && Below(k, n)
  }

  /** `s` is the source scope, `k` the target ids in scope, `n` the counter. */
  ghost predicate Ready(e: Expr, m: Renaming, s: set<Id>, k: set<Id>, n: Id) {
    Scoped(e, s) && Image(m, s) <= k && Unique(Rename(e, m)) && Room(Ids(Rename(e, m)), k, n)
  }

  ghost predicate ReadyParts(es: List<Expr>, m: Renaming, s: set<Id>, k: set<Id>, n: Id) {
    ScopedParts(es, s) && Image(m, s) <= k && UniqueParts(RenameParts(es, m))
        && Room(IdsParts(RenameParts(es, m)), k, n)
  }

  ghost predicate ReadyGroup(bs: List<Binding>, m: Renaming, s: set<Id>, k: set<Id>, n: Id) {
    && ScopedBindings(bs, s + BoundIds(bs)) && Image(m, s) <= k
    && UniqueBindings(RenameBindings(bs, m)) && Room(IdsBindings(RenameBindings(bs, m)), k, n)
  }

  /** The bindings of a group whose own ids are already in scope. */
  ghost predicate ReadyBindings(bs: List<Binding>, m: Renaming, s: set<Id>, k: set<Id>, n: Id) {
    ScopedBindings(bs, s) && Image(m, s) <= k && EachApart(RenameBindings(bs, m), k) && Below(k, n)
    && Below(IdsBindings(RenameBindings(bs, m)), n)
  }

  ghost predicate ReadyRow(row: Row, m: Renaming, s: set<Id>, k: set<Id>, n: Id) {
    ScopedRow(row, s) && Image(m, s) <= k && UniqueRow(RenameRow(row, m)) && Room(IdsRow(RenameRow(row, m)), k, n)
  }

  ghost predicate ReadyRows(rows: List<Row>, m: Renaming, s: set<Id>, k: set<Id>, n: Id) {
    ScopedRows(rows, s) && Image(m, s) <= k && UniqueRows(RenameRows(rows, m))
        && Room(IdsRows(RenameRows(rows, m)), k, n)
  }

  ghost predicate ReadyClauses(cs: List<Clause>, m: Renaming, s: set<Id>, k: set<Id>, n: Id) {
    && ScopedClauses(cs, s) && Image(m, s) <= k
    && UniqueClauses(RenameClauses(cs, m)) && Room(IdsClauses(RenameClauses(cs, m)), k, n)
  }

  ghost predicate ReadyGuards(gs: List<Guard>, m: Renaming, s: set<Id>, k: set<Id>, n: Id) {
    ScopedGuards(gs, s) && Image(m, s) <= k && UniqueGuards(RenameGuards(gs, m))
        && Room(IdsGuards(RenameGuards(gs, m)), k, n)
  }

  ghost predicate FailureFits(f: Failure, k: set<Id>) {
    f.CallNext? ==> f.helpers.Cons? && ListIds(f.helpers) <= k
  }

  lemma {:induction false} CodePlain(f: Failure, k: set<Id>)
    requires FailureFits(f, k)
    ensures LoweringScope.Plain(Code(f), k) && Sugar(Code(f)) == 0
  {
    NoMatchPlain(k);
    NoMatchNormal();
    if f.CallNext? { CallHelperPlain(f.helpers, k); CallHelperNormal(f.helpers); }
  }

  lemma {:induction false} ReadyFits(e: Expr, m: Renaming, s: set<Id>, k: set<Id>, n: Id)
    requires Ready(e, m, s, k, n)
    ensures Fit(Rename(e, m), k, n)
  {
    RenameScoped(e, m, s);
    ScopedMore(Rename(e, m), Image(m, s), k);
  }

  lemma {:induction false} WithOne(m: Renaming, s: set<Id>, x: Id)
    ensures With(m, s)[x := At(m, x)] == With(m, s + {x})
    ensures Image(m, s + {x}) == Image(m, s) + {At(m, x)}
  {
  }

  /** More ids may be in scope around finished code. */
  lemma {:induction false} TrMore(e: Expr, d: Expr, r: Renaming, k: set<Id>, k': set<Id>)
    requires Tr(e, d, r, k) && Apart(d, k')
    ensures Tr(e, d, r, k')
  {
    RenameNothing(d, map[]);
    TrRename(e, d, r, k, map[], k');
    assert Mapped(r, map[]) == r;
  }

  // ----- Patterns and groups -----

  lemma {:induction false} LowerTrPattern(p: Pattern, m: Renaming, s: set<Id>, k: set<Id>)
    requires UniquePattern(RenamePattern(p, m)) && PatternIds(RenamePattern(p, m)) !! k
    ensures TrPattern(p, RenamePattern(p, m), k)
    ensures BindPattern(p, RenamePattern(p, m), With(m, s)) == With(m, s + PatternIds(p))
    decreases p
  {
    match p
    case Wildcard => assert s + PatternIds(p) == s;
    case Bind(x) => WithOne(m, s, x);
    case Named(x, q) =>
      WithOne(m, s, x);
      LowerTrPattern(q, m, s + {x}, k + {At(m, x)});
      assert s + {x} + PatternIds(q) == s + PatternIds(p);
    case Shaped(_, parts) => LowerTrPatterns(parts, m, s, k);
  }

  lemma {:induction false} LowerTrPatterns(ps: List<Pattern>, m: Renaming, s: set<Id>, k: set<Id>)
    requires UniquePatterns(RenamePatterns(ps, m)) && PatternIdsAll(RenamePatterns(ps, m)) !! k
    ensures TrPatterns(ps, RenamePatterns(ps, m), k)
    ensures BindPatterns(ps, RenamePatterns(ps, m), With(m, s)) == With(m, s + PatternIdsAll(ps))
    decreases ps
  {
    match ps
    case Nil => assert s + PatternIdsAll(ps) == s;
    case Cons(p, rest) =>
      LowerTrPattern(p, m, s, k);
      LowerTrPatterns(rest, m, s + PatternIds(p), k + PatternIds(RenamePattern(p, m)));
      assert s + PatternIds(p) + PatternIdsAll(rest) == s + PatternIdsAll(ps);
  }

  lemma {:induction false} LowerKeepsIds(bs: List<Binding>, n: Id)
    ensures Binders(LowerBindings(bs, n).value) == Binders(bs) && BoundIds(LowerBindings(bs, n).value) == BoundIds(bs)
  {
    match bs
    case Nil =>
    case Cons(b, rest) => LowerKeepsIds(rest, Lower(b.value, n).next);
  }

  lemma {:induction false} SameBinders(bs: List<Binding>, ds: List<Binding>, ds': List<Binding>, r: Renaming,
                                       k: set<Id>)
    requires Binders(ds) == Binders(ds')
    ensures FreshGroup(bs, ds, r, k) == FreshGroup(bs, ds', r, k) && BindGroup(bs, ds, r) == BindGroup(bs, ds', r)
    ensures BoundIds(ds) == BoundIds(ds')
    decreases ds
  {
    match bs
    case Nil =>
      if ds.Cons? { SameBinders(Nil, ds.tail, ds'.tail, r, k); }
    case Cons(b, rest) =>
      if ds.Cons? {
        SameBinders(rest, ds.tail, ds'.tail, r, k);
        SameBinders(rest, ds.tail, ds'.tail, r[b.id := ds.head.id], k);
      }
  }

  lemma {:induction false} RenamedGroupFresh(bs: List<Binding>, m: Renaming, s: set<Id>, k: set<Id>)
    requires UniqueBindings(RenameBindings(bs, m)) && IdsBindings(RenameBindings(bs, m)) !! k && Image(m, s) <= k
    ensures FreshGroup(bs, RenameBindings(bs, m), With(m, s), k)
  {
    match bs
    case Nil =>
    case Cons(b, rest) =>
      RenamedGroupFresh(rest, m, s, k);
      RenameBoundIds(rest, m);
      BoundWithin(RenameBindings(rest, m));
      assert forall x :: x in s ==> At(m, x) in Image(m, s);
      assert forall x :: x in BoundIds(rest) ==> At(m, x) in Image(m, BoundIds(rest));
  }

  lemma {:induction false} RenamedGroupBinds(bs: List<Binding>, m: Renaming, s: set<Id>)
    ensures BindGroup(bs, RenameBindings(bs, m), With(m, s)) == With(m, s + BoundIds(bs))
  {
    match bs
    case Nil => assert s + BoundIds(bs) == s;
    case Cons(b, rest) =>
      WithOne(m, s, b.id);
      RenamedGroupBinds(rest, m, s + {b.id});
      assert s + {b.id} + BoundIds(rest) == s + BoundIds(bs);
  }

  // ----- Expressions -----

  lemma {:induction false} LowerTr(e: Expr, m: Renaming, s: set<Id>, k: set<Id>, n: Id)
    requires Ready(e, m, s, k, n)
    ensures Tr(e, Lower(Rename(e, m), n).value, With(m, s), k)
    decreases Size(e), 1
  {
    match e
    case Local(x) =>
    case Global(_) =>
    case Constant(_) =>
    case Compound(_, parts) => LowerTrParts(parts, m, s, k, n);
    case Apply(f, a) => LowerTr(f, m, s, k, n); LowerTr(a, m, s, k, Lower(Rename(f, m), n).next);
    case Operator(_, left, right) => LowerTr(left, m, s, k, n); LowerTr(right, m, s, k, Lower(Rename(left, m), n).next);
    case Negate(f, a) => LowerTr(f, m, s, k, n); LowerTr(a, m, s, k, Lower(Rename(f, m), n).next);
    case Lambda(x, b) =>
      WithOne(m, s, x);
      LowerTr(b, m, s + {x}, k + {At(m, x)}, n);
    case Let(bs, b) => LowerTrLet(bs, b, m, s, k, n);
    case If(c, t, f) => LowerTrIf(c, t, f, m, s, k, n);
    case Case(scrutinee, rows) => LowerTrCase(scrutinee, rows, m, s, k, n);
    case Guarded(cs) => LowerTrClauses(cs, m, NoMatch, s, k, n);
  }

  lemma {:induction false} LowerTrIf(c: Expr, t: Expr, f: Expr, m: Renaming, s: set<Id>, k: set<Id>, n: Id)
    requires Ready(If(c, t, f), m, s, k, n)
    ensures Tr(If(c, t, f), Lower(Rename(If(c, t, f), m), n).value, With(m, s), k)
    decreases Size(c) + Size(t) + Size(f), 3
  {
    var c' := Lower(Rename(c, m), n);
    var t' := Lower(Rename(t, m), c'.next);
    LowerTr(c, m, s, k, n);
    LowerTr(t, m, s, k, c'.next);
    LowerTr(f, m, s, k, t'.next);
  }

  lemma {:induction false} LowerTrParts(es: List<Expr>, m: Renaming, s: set<Id>, k: set<Id>, n: Id)
    requires ReadyParts(es, m, s, k, n)
    ensures TrParts(es, LowerParts(RenameParts(es, m), n).value, With(m, s), k)
    decreases SizeParts(es), 0
  {
    match es
    case Nil =>
    case Cons(e, rest) => LowerTr(e, m, s, k, n); LowerTrParts(rest, m, s, k, Lower(Rename(e, m), n).next);
  }

  lemma {:induction false} LowerTrGroup(bs: List<Binding>, m: Renaming, s: set<Id>, k: set<Id>, n: Id)
    requires ReadyGroup(bs, m, s, k, n)
    ensures var ds := LowerBindings(RenameBindings(bs, m), n).value;
            && TrGroup(bs, ds, With(m, s), k) && BindGroup(bs, ds, With(m, s)) == With(m, s + BoundIds(bs))
            && BoundIds(ds) == BoundIds(RenameBindings(bs, m))
    decreases SizeBindings(bs), 1
  {
    var renamed := RenameBindings(bs, m);
    var ds := LowerBindings(renamed, n).value;
    LowerKeepsIds(renamed, n);
    SameBinders(bs, ds, renamed, With(m, s), k);
    RenamedGroupFresh(bs, m, s, k);
    RenamedGroupBinds(bs, m, s);
    GroupReady(bs, m, s, k, n);
    LowerTrBindings(bs, m, s + BoundIds(bs), k + BoundIds(renamed), n);
  }

  lemma {:induction false} GroupReady(bs: List<Binding>, m: Renaming, s: set<Id>, k: set<Id>, n: Id)
    requires ReadyGroup(bs, m, s, k, n)
    ensures ReadyBindings(bs, m, s + BoundIds(bs), k + BoundIds(RenameBindings(bs, m)), n)
    ensures Image(m, s + BoundIds(bs)) <= k + BoundIds(RenameBindings(bs, m))
  {
    RenameBoundIds(bs, m);
    ImageUnion(m, s, BoundIds(bs));
    ValuesApart(RenameBindings(bs, m), k);
    BoundWithin(RenameBindings(bs, m));
  }

  lemma {:induction false} LowerTrBindings(bs: List<Binding>, m: Renaming, s: set<Id>, k: set<Id>, n: Id)
    requires ReadyBindings(bs, m, s, k, n)
    ensures TrBindings(bs, LowerBindings(RenameBindings(bs, m), n).value, With(m, s), k)
    decreases SizeBindings(bs), 0
  {
    match bs
    case Nil =>
    case Cons(b, rest) =>
      LowerTr(b.value, m, s, k, n);
      LowerTrBindings(rest, m, s, k, Lower(Rename(b.value, m), n).next);
  }

  lemma {:induction false} LetReady(bs: List<Binding>, b: Expr, m: Renaming, s: set<Id>, k: set<Id>, n: Id)
    requires Ready(Let(bs, b), m, s, k, n)
    ensures ReadyGroup(bs, m, s, k, n) && Ready(b, m, s + BoundIds(bs), k + BoundIds(RenameBindings(bs, m)), n)
  {
    RenameBoundIds(bs, m);
    ImageUnion(m, s, BoundIds(bs));
    BoundWithin(RenameBindings(bs, m));
  }

  lemma {:induction false} LowerTrLet(bs: List<Binding>, b: Expr, m: Renaming, s: set<Id>, k: set<Id>, n: Id)
    requires Ready(Let(bs, b), m, s, k, n)
    ensures Tr(Let(bs, b), Lower(Rename(Let(bs, b), m), n).value, With(m, s), k)
    decreases SizeBindings(bs) + Size(b), 3
  {
    LetReady(bs, b, m, s, k, n);
    LowerTrGroup(bs, m, s, k, n);
    LowerTr(b, m, s + BoundIds(bs), k + BoundIds(RenameBindings(bs, m)), LowerBindings(RenameBindings(bs, m), n).next);
  }

  // ----- Rows -----

  lemma {:induction false} RowReady(row: Row, m: Renaming, s: set<Id>, k: set<Id>, n: Id)
    requires ReadyRow(row, m, s, k, n)
    ensures UniquePattern(RenamePattern(row.pattern, m)) && PatternIds(RenamePattern(row.pattern, m)) !! k
    ensures Ready(row.value, m, s + PatternIds(row.pattern), k + PatternIds(RenamePattern(row.pattern, m)), n)
  {
    RenameIdsPattern(row.pattern, m);
    ImageUnion(m, s, PatternIds(row.pattern));
    RowUnfolds(RenameRow(row, m), {});
    RowUnfolds(row, s);
  }

  lemma {:induction false} RowsReady(row: Row, rest: List<Row>, m: Renaming, s: set<Id>, k: set<Id>, n: Id)
    requires ReadyRows(Cons(row, rest), m, s, k, n)
    ensures ReadyRow(row, m, s, k, n)
    ensures forall n' :: n' >= n ==> ReadyRows(rest, m, s, k, n')
  {
  }

  lemma {:induction false} NormalUnguarded(e: Expr)
    requires Sugar(e) == 0
    ensures !IsGuardedRhs(e)
  {
    if IsGuardedRhs(e) { GuardedHasSugar(e); }
  }

  lemma {:induction false} LowerTrRows(rows: List<Row>, m: Renaming, s: set<Id>, k: set<Id>, n: Id)
    requires ReadyRows(rows, m, s, k, n)
    ensures TrRows(rows, LowerRows(RenameRows(rows, m), n).value, With(m, s), k)
    decreases SizeRows(rows), 0
  {
    match rows
    case Nil =>
    case Cons(row, rest) =>
      RowsReady(row, rest, m, s, k, n);
      RowReady(row, m, s, k, n);
      LowerTrPattern(row.pattern, m, s, k);
      LowerTr(row.value, m, s + PatternIds(row.pattern), k + PatternIds(RenamePattern(row.pattern, m)), n);
      LoweredNormal(Rename(row.value, m), n);
      NormalUnguarded(Lower(Rename(row.value, m), n).value);
      LowerTrRows(rest, m, s, k, Lower(Rename(row.value, m), n).next);
  }

  // ----- Clauses and guards -----

  /** Finished failure code, read in the scope `s`, `k` of the clause. */
  ghost predicate Continues(rest: List<Clause>, failure: Expr, m: Renaming, s: set<Id>, k: set<Id>, n: Id,
                            fail: Failure) {
    && TrClauses(rest, failure, With(m, s), k, fail) && FailureFits(fail, k) && Image(m, s) <= k
    && Unique(failure) && Scoped(failure, k) && Ids(failure) !! k && Below(Ids(failure), n) && Below(k, n)
    && Sugar(failure) == 0
  }

  lemma {:induction false} RenameListFixed(xs: List<Id>, m: Renaming)
    requires ListIds(xs) !! m.Keys
    ensures RenameList(xs, m) == xs
  {
    match xs
    case Nil =>
    case Cons(_, rest) => RenameListFixed(rest, m);
  }

  /** Copies of the failure code are translations in every larger scope. */
  lemma {:induction false} CopyContinues(rest: List<Clause>, failure: Expr, m: Renaming, s: set<Id>, outer: set<Id>,
                                         k: set<Id>, n: Id, fail: Failure)
    requires Continues(rest, failure, m, s, outer, n, fail) && Below(k, n)
    ensures TrClauses(rest, CloneExpression(failure, n).value, With(m, s), k, fail)
    ensures Sugar(CloneExpression(failure, n).value) == 0
  {
    var m' := Allocate(Ids(failure), n).value;
    CloneGood(failure, outer, n);
    CloneNormal(failure, n);
    TrRenameClauses(rest, failure, With(m, s), outer, fail, m', k);
    forall x | x in s ensures At(m', At(m, x)) == At(m, x) { assert At(m, x) in Image(m, s); }
    assert Mapped(With(m, s), m') == With(m, s);
    if fail.CallNext? { RenameListFixed(fail.helpers, m'); }
  }

  lemma {:induction false} LowerTrRhs(e: Expr, m: Renaming, fail: Failure, s: set<Id>, k: set<Id>, n: Id)
    requires Ready(e, m, s, k, n) && FailureFits(fail, k)
    ensures TrRhs(e, LowerRhs(Rename(e, m), Code(fail), n).value, With(m, s), k, fail)
    decreases Size(e), 2
  {
    match e
    case Guarded(cs) => LowerTrClauses(cs, m, fail, s, k, n);
    case Let(bs, b) =>
      LetReady(bs, b, m, s, k, n);
      LowerTrGroup(bs, m, s, k, n);
      LowerTrRhs(b, m, fail, s + BoundIds(bs), k + BoundIds(RenameBindings(bs, m)),
                 LowerBindings(RenameBindings(bs, m), n).next);
    case _ => LowerTr(e, m, s, k, n);
  }

  function RenameClause(c: Clause, m: Renaming): Clause {
    Clause(RenameBindings(c.wheres, m), RenameGuards(c.guards, m), Rename(c.value, m))
  }

  lemma {:induction false} LowerTrClauses(cs: List<Clause>, m: Renaming, fail: Failure, s: set<Id>, k: set<Id>, n: Id)
    requires ReadyClauses(cs, m, s, k, n) && FailureFits(fail, k)
    ensures TrClauses(cs, LowerClauses(RenameClauses(cs, m), Code(fail), n).value, With(m, s), k, fail)
    decreases SizeClauses(cs), 0
  {
    match cs
    case Nil =>
    case Cons(c, rest) =>
      LowerTrClauses(rest, m, fail, s, k, n);
      LaterClauses(c, rest, m, fail, s, k, n);
      var next := LowerClauses(RenameClauses(rest, m), Code(fail), n);
      LowerTrClause(c, rest, m, next.value, fail, s, k, next.next);
      assert RenameClauses(cs, m) == Cons(RenameClause(c, m), RenameClauses(rest, m));
  }

  ghost predicate ReadyClause(c: Clause, m: Renaming, s: set<Id>, k: set<Id>, n: Id) {
    ReadyClauses(Cons(c, Nil), m, s, k, n)
  }

  lemma {:induction false} LaterClauses(c: Clause, rest: List<Clause>, m: Renaming, fail: Failure, s: set<Id>,
                                        k: set<Id>, n: Id)
    requires ReadyClauses(Cons(c, rest), m, s, k, n) && FailureFits(fail, k)
    requires TrClauses(rest, LowerClauses(RenameClauses(rest, m), Code(fail), n).value, With(m, s), k, fail)
    ensures var next := LowerClauses(RenameClauses(rest, m), Code(fail), n);
            Continues(rest, next.value, m, s, k, next.next, fail) && ReadyClause(c, m, s, k, next.next)
  {
    CodePlain(fail, k);
    RestFits(c, rest, m, s, k, n);
    LowerGoodClauses(RenameClauses(rest, m), Code(fail), k, n);
    LoweredNormalClauses(RenameClauses(rest, m), Code(fail), n);
    OneClauseReady(c, rest, m, s, k, n, LowerClauses(RenameClauses(rest, m), Code(fail), n).next);
  }

  lemma {:induction false} RestFits(c: Clause, rest: List<Clause>, m: Renaming, s: set<Id>, k: set<Id>, n: Id)
    requires ReadyClauses(Cons(c, rest), m, s, k, n)
    ensures ReadyClauses(rest, m, s, k, n) && FitClauses(RenameClauses(rest, m), k, n)
  {
    RenameScopedClauses(rest, m, s);
    ScopedMoreClauses(RenameClauses(rest, m), Image(m, s), k);
  }

  lemma {:induction false} OneClauseReady(c: Clause, rest: List<Clause>, m: Renaming, s: set<Id>, k: set<Id>, n: Id,
                                          n': Id)
    requires ReadyClauses(Cons(c, rest), m, s, k, n) && n' >= n
    ensures ReadyClause(c, m, s, k, n')
  {
    assert RenameClauses(Cons(c, rest), m) == Cons(RenameClause(c, m), RenameClauses(rest, m));
    assert RenameClauses(Nil, m) == Nil;
    assert RenameClauses(Cons(c, Nil), m) == Cons(RenameClause(c, m), Nil);
    assert IdsClauses(Nil) == {};
  }

  lemma {:induction false} ClauseReady(c: Clause, m: Renaming, s: set<Id>, k: set<Id>, n: Id)
    requires ReadyClause(c, m, s, k, n)
    ensures ReadyGroup(c.wheres, m, s, k, n)
    ensures var s', k' := s + BoundIds(c.wheres), k + BoundIds(RenameBindings(c.wheres, m));
            && ReadyGuards(c.guards, m, s', k', n)
            && Scoped(c.value, GuardScope(c.guards, s')) && Unique(Rename(c.value, m))
            && Room(Ids(Rename(c.value, m)), GuardScope(RenameGuards(c.guards, m), k'), n)
            && Image(m, GuardScope(c.guards, s')) <= GuardScope(RenameGuards(c.guards, m), k')
  {
    var s', k' := s + BoundIds(c.wheres), k + BoundIds(RenameBindings(c.wheres, m));
    assert RenameClauses(Nil, m) == Nil;
    assert RenameClauses(Cons(c, Nil), m) == Cons(RenameClause(c, m), Nil);
    assert IdsClauses(Nil) == {} && ScopedClauses(Nil, s);
    RenameBoundIds(c.wheres, m);
    ImageUnion(m, s, BoundIds(c.wheres));
    BoundWithin(RenameBindings(c.wheres, m));
    GuardScopeIds(RenameGuards(c.guards, m), k');
    RenameGuardScope(c.guards, m, s');
    GuardScopeMore(RenameGuards(c.guards, m), Image(m, s'), k');
  }

  lemma {:induction false} LowerTrClause(c: Clause, rest: List<Clause>, m: Renaming, failure: Expr, fail: Failure,
                                         s: set<Id>, k: set<Id>, n: Id)
    requires ReadyClause(c, m, s, k, n) && Continues(rest, failure, m, s, k, n, fail)
    ensures TrClause(c, rest, LowerClause(RenameClause(c, m), failure, n).value, With(m, s), k, fail)
    decreases SizeBindings(c.wheres) + SizeGuards(c.guards) + Size(c.value), 5
  {
    var s', k' := s + BoundIds(c.wheres), k + BoundIds(RenameBindings(c.wheres, m));
    var v := LowerTrClauseValue(c, m, s, k, s', k', n);
    FailureLater(rest, failure, m, s, k, n, v.next, fail);
    LowerTrGuards(c.guards, c.value, rest, m, v.value, failure, fail, s', s, k', k, v.next);
    var g := LowerGuards(RenameGuards(c.guards, m), v.value, failure, v.next);
    LowerTrWheres(c, rest, m, g.value, fail, s, k, n, g.next);
    ClauseUnfolds(RenameClause(c, m), failure, n);
  }

  lemma {:induction false} FailureLater(rest: List<Clause>, failure: Expr, m: Renaming, s: set<Id>, k: set<Id>, n: Id,
                                        n': Id, fail: Failure)
    requires Continues(rest, failure, m, s, k, n, fail) && n <= n'
    ensures Continues(rest, failure, m, s, k, n', fail)
  {
  }

  lemma {:induction false} LowerTrClauseValue(c: Clause, m: Renaming, s: set<Id>, k: set<Id>, s': set<Id>, k': set<Id>,
                                              n: Id)
      returns (v: Out<Expr>)
    requires ReadyClause(c, m, s, k, n) && s' == s + BoundIds(c.wheres)
             && k' == k + BoundIds(RenameBindings(c.wheres, m))
    ensures v == Lower(Rename(c.value, m), n) && Sugar(v.value) == 0 && k <= k'
    ensures Tr(c.value, v.value, With(m, GuardScope(c.guards, s')), GuardScope(RenameGuards(c.guards, m), k'))
    ensures ReadyGuards(c.guards, m, s', k', v.next) && ReadyGroup(c.wheres, m, s, k, n)
    decreases Size(c.value), 4
  {
    ClauseReady(c, m, s, k, n);
    LowerTr(c.value, m, GuardScope(c.guards, s'), GuardScope(RenameGuards(c.guards, m), k'), n);
    v := Lower(Rename(c.value, m), n);
    LoweredNormal(Rename(c.value, m), n);
  }

  lemma {:induction false} ClauseUnfolds(c: Clause, failure: Expr, n: Id)
    ensures var v := Lower(c.value, n);
            var g := LowerGuards(c.guards, v.value, failure, v.next);
            LowerClause(c, failure, n).value
                == if c.wheres.Nil? then g.value else Let(LowerBindings(c.wheres, g.next).value, g.value)
  {
  }

  /** The `where` group around the lowered guards. */
  lemma {:induction false} LowerTrWheres(c: Clause, rest: List<Clause>, m: Renaming, g: Expr, fail: Failure, s: set<Id>,
                                         k: set<Id>, n: Id, n': Id)
    requires ReadyGroup(c.wheres, m, s, k, n) && n <= n'
    requires TrGuards(c.guards, c.value, rest, g, With(m, s + BoundIds(c.wheres)), With(m, s),
                      k + BoundIds(RenameBindings(c.wheres, m)), fail)
    ensures TrClause(c, rest, if c.wheres.Nil? then g else Let(LowerBindings(RenameBindings(c.wheres, m), n').value, g),
                     With(m, s), k, fail)
    decreases SizeBindings(c.wheres), 4
  {
    if c.wheres.Nil? {
      assert s + BoundIds(c.wheres) == s && k + BoundIds(RenameBindings(c.wheres, m)) == k;
    } else {
      LowerTrGroup(c.wheres, m, s, k, n');
    }
  }

  lemma {:induction false} GuardReady(g: Guard, gs: List<Guard>, m: Renaming, s: set<Id>, k: set<Id>, n: Id)
    requires ReadyGuards(Cons(g, gs), m, s, k, n)
    ensures var g' := RenameGuard(g, m);
            && ReadyGuards(gs, m, s + GuardIds(g), k + GuardIds(g'), n)
            && ScopedGuard(g, s) && UniqueGuard(g') && Room(IdsGuard(g'), k, n)
  {
    RenameGuardIds(g, m);
    ImageUnion(m, s, GuardIds(g));
    GuardIdsBound(RenameGuard(g, m));
  }

  lemma {:induction false} LowerTrGuards(gs: List<Guard>, value: Expr, rest: List<Clause>, m: Renaming, success: Expr,
                                         failure: Expr, fail: Failure, s: set<Id>, outerS: set<Id>, k: set<Id>,
                                         outerK: set<Id>, n: Id)
    requires ReadyGuards(gs, m, s, k, n) && outerK <= k
    requires Tr(value, success, With(m, GuardScope(gs, s)), GuardScope(RenameGuards(gs, m), k)) && Sugar(success) == 0
    requires Continues(rest, failure, m, outerS, outerK, n, fail)
    ensures TrGuards(gs, value, rest, LowerGuards(RenameGuards(gs, m), success, failure, n).value, With(m, s),
                     With(m, outerS), k, fail)
    decreases SizeGuards(gs), 1
  {
    if gs.Cons? {
      var g, gs' := gs.head, gs.tail;
      assert SizeGuards(gs) == 1 + SizeGuard(g) + SizeGuards(gs');
      GuardReady(g, gs', m, s, k, n);
      LowerTrGuards(gs', value, rest, m, success, failure, fail, s + GuardIds(g), outerS,
                    k + GuardIds(RenameGuard(g, m)), outerK, n);
      LowerTrFirstGuard(gs, value, rest, m, success, failure, fail, s, outerS, k, outerK, n);
    }
  }

  /** The first guard, in front of the lowered later ones. */
  lemma {:induction false} LowerTrFirstGuard(gs: List<Guard>, value: Expr, rest: List<Clause>, m: Renaming,
                                             success: Expr, failure: Expr, fail: Failure, s: set<Id>, outerS: set<Id>,
                                             k: set<Id>, outerK: set<Id>, n: Id)
    requires gs.Cons? && ReadyGuards(gs, m, s, k, n) && outerK <= k && Sugar(success) == 0 && Sugar(failure) == 0
    requires Continues(rest, failure, m, outerS, outerK, n, fail)
    requires TrGuards(gs.tail, value, rest, LowerGuards(RenameGuards(gs.tail, m), success, failure, n).value,
                      With(m, s + GuardIds(gs.head)), With(m, outerS), k + GuardIds(RenameGuard(gs.head, m)), fail)
    ensures TrGuards(gs, value, rest, LowerGuards(RenameGuards(gs, m), success, failure, n).value, With(m, s),
                     With(m, outerS), k, fail)
    decreases SizeGuards(gs), 0
  {
    var g, gs' := gs.head, gs.tail;
    assert SizeGuards(gs) == 1 + SizeGuard(g) + SizeGuards(gs');
    var next := LowerGuards(RenameGuards(gs', m), success, failure, n);
    LoweredNormalGuards(RenameGuards(gs', m), success, failure, n);
    StepReady(gs, value, rest, m, next.value, failure, fail, s, outerS, k, outerK, n, next.next);
    LowerTrGuard(g, gs', value, rest, m, next.value, failure, fail, s, outerS, k, outerK, next.next);
    GuardsUnfold(gs, m, success, failure, n);
  }

  lemma {:induction false} StepReady(gs: List<Guard>, value: Expr, rest: List<Clause>, m: Renaming, success: Expr,
                                     failure: Expr, fail: Failure, s: set<Id>, outerS: set<Id>, k: set<Id>,
                                     outerK: set<Id>, n: Id, n': Id)
    requires gs.Cons? && ReadyGuards(gs, m, s, k, n) && outerK <= k && n <= n' && Sugar(success) == 0
    requires Continues(rest, failure, m, outerS, outerK, n, fail)
    requires TrGuards(gs.tail, value, rest, success, With(m, s + GuardIds(gs.head)), With(m, outerS),
                      k + GuardIds(RenameGuard(gs.head, m)), fail)
    ensures GuardStep(gs.head, gs.tail, value, rest, m, success, failure, fail, s, outerS, k, outerK, n')
  {
    GuardReady(gs.head, gs.tail, m, s, k, n);
  }

  lemma {:induction false} GuardsUnfold(gs: List<Guard>, m: Renaming, success: Expr, failure: Expr, n: Id)
    requires gs.Cons?
    ensures var next := LowerGuards(RenameGuards(gs.tail, m), success, failure, n);
            LowerGuards(RenameGuards(gs, m), success, failure, n)
                == LowerGuard(RenameGuard(gs.head, m), next.value, failure, next.next)
    ensures gs == Cons(gs.head, gs.tail)
  {
  }

  /** What one guard is lowered from: the code `success` for everything after it. */
  ghost predicate GuardStep(g: Guard, gs: List<Guard>, value: Expr, rest: List<Clause>, m: Renaming, success: Expr,
                            failure: Expr, fail: Failure, s: set<Id>, outerS: set<Id>, k: set<Id>, outerK: set<Id>,
                            n: Id) {
    var g' := RenameGuard(g, m);
    && ScopedGuard(g, s) && Image(m, s) <= k && UniqueGuard(g') && Room(IdsGuard(g'), k, n) && outerK <= k
    && TrGuards(gs, value, rest, success, With(m, s + GuardIds(g)), With(m, outerS), k + GuardIds(g'), fail)
    && Sugar(success) == 0
    && Continues(rest, failure, m, outerS, outerK, n, fail)
  }

  lemma {:induction false} LowerTrGuard(g: Guard, gs: List<Guard>, value: Expr, rest: List<Clause>, m: Renaming,
                                        success: Expr, failure: Expr, fail: Failure, s: set<Id>, outerS: set<Id>,
                                        k: set<Id>, outerK: set<Id>, n: Id)
    requires GuardStep(g, gs, value, rest, m, success, failure, fail, s, outerS, k, outerK, n)
    ensures TrGuards(Cons(g, gs), value, rest, LowerGuard(RenameGuard(g, m), success, failure, n).value,
                     With(m, s), With(m, outerS), k, fail)
    decreases SizeGuard(g), 4
  {
    match g
    case Test(c) => LowerTrTest(c, gs, value, rest, m, success, failure, fail, s, outerS, k, outerK, n);
    case Match(p, v) => LowerTrPatternGuard(p, v, gs, value, rest, m, success, failure, fail, s, outerS, k, outerK, n);
    case Bindings(bs) => LowerTrLetGuard(bs, gs, value, rest, m, success, failure, fail, s, outerS, k, outerK, n);
  }

  lemma {:induction false} LowerTrTest(c: Expr, gs: List<Guard>, value: Expr, rest: List<Clause>, m: Renaming,
                                       success: Expr, failure: Expr, fail: Failure, s: set<Id>, outerS: set<Id>,
                                       k: set<Id>, outerK: set<Id>, n: Id)
    requires GuardStep(Test(c), gs, value, rest, m, success, failure, fail, s, outerS, k, outerK, n)
    ensures TrGuards(Cons(Test(c), gs), value, rest, LowerGuard(RenameGuard(Test(c), m), success, failure, n).value,
                     With(m, s), With(m, outerS), k, fail)
    decreases Size(c), 3
  {
    assert s + GuardIds(Test(c)) == s && k + GuardIds(RenameGuard(Test(c), m)) == k;
    var c' := Lower(Rename(c, m), n);
    LowerTrCondition(c, rest, m, failure, fail, s, outerS, k, outerK, n);
    TestIntro(c, gs, value, rest, c'.value, success, CloneExpression(failure, c'.next).value, With(m, s),
              With(m, outerS), k, fail);
    LowerTestUnfolds(c, m, success, failure, n);
  }

  lemma {:induction false} LowerTrCondition(c: Expr, rest: List<Clause>, m: Renaming, failure: Expr, fail: Failure,
                                            s: set<Id>, outerS: set<Id>, k: set<Id>, outerK: set<Id>, n: Id)
    requires Ready(c, m, s, k, n) && Below(k, n) && outerK <= k && Continues(rest, failure, m, outerS, outerK, n, fail)
    ensures var c' := Lower(Rename(c, m), n);
            && Tr(c, c'.value, With(m, s), k)
            && TrClauses(rest, CloneExpression(failure, c'.next).value, With(m, outerS), k, fail)
    decreases Size(c), 2
  {
    LowerTr(c, m, s, k, n);
    CopyContinues(rest, failure, m, outerS, outerK, k, Lower(Rename(c, m), n).next, fail);
  }

  lemma {:induction false} LowerTestUnfolds(c: Expr, m: Renaming, success: Expr, failure: Expr, n: Id)
    ensures var c' := Lower(Rename(c, m), n);
            LowerGuard(RenameGuard(Test(c), m), success, failure, n).value
            == If(c'.value, success, CloneExpression(failure, c'.next).value)
  {
  }

  lemma {:induction false} TestIntro(c: Expr, gs: List<Guard>, value: Expr, rest: List<Clause>, c': Expr, success: Expr,
                                     failure: Expr, r: Renaming, outer: Renaming, k: set<Id>, fail: Failure)
    requires Tr(c, c', r, k) && TrGuards(gs, value, rest, success, r, outer, k, fail)
             && TrClauses(rest, failure, outer, k, fail)
    ensures TrGuards(Cons(Test(c), gs), value, rest, If(c', success, failure), r, outer, k, fail)
  {
  }

  lemma {:induction false} LowerTrPatternGuard(p: Pattern, v: Expr, gs: List<Guard>, value: Expr, rest: List<Clause>,
                                               m: Renaming, success: Expr, failure: Expr, fail: Failure, s: set<Id>,
                                               outerS: set<Id>, k: set<Id>, outerK: set<Id>, n: Id)
    requires GuardStep(Match(p, v), gs, value, rest, m, success, failure, fail, s, outerS, k, outerK, n)
    ensures TrGuards(Cons(Match(p, v), gs), value, rest,
                     LowerGuard(RenameGuard(Match(p, v), m), success, failure, n).value,
                     With(m, s), With(m, outerS), k, fail)
    decreases Size(v), 3
  {
    CopyContinues(rest, failure, m, outerS, outerK, k, n, fail);
    var copy := CloneExpression(failure, n);
    LowerTr(v, m, s, k, copy.next);
    var v' := Lower(Rename(v, m), copy.next);
    WrappedPattern(p, m, s, k);
    var d := LowerGuard(RenameGuard(Match(p, v), m), success, failure, n).value;
    assert d == Case(PatternScrutinee(v'.value, RenamePattern(p, m)),
                     Cons(Row(PatternForScrutinee(RenamePattern(p, m)), success),
                          Cons(Row(Wildcard, copy.value), Nil)));
    NormalUnguarded(success);
    NormalUnguarded(copy.value);
    PatternGuardParts(Cons(Match(p, v), gs), value, rest, d, With(m, s), With(m, outerS), k, fail);
  }

  lemma {:induction false} WrappedPattern(p: Pattern, m: Renaming, s: set<Id>, k: set<Id>)
    requires UniquePattern(RenamePattern(p, m)) && PatternIds(RenamePattern(p, m)) !! k
    ensures var q, d := PatternForScrutinee(p), PatternForScrutinee(RenamePattern(p, m));
            && IsRecordPattern(RenamePattern(p, m)) == IsRecordPattern(p) && d == RenamePattern(q, m)
            && TrPattern(q, d, k)
            && BindPattern(q, d, With(m, s)) == With(m, s + PatternIds(p))
            && PatternIds(d) == PatternIds(RenamePattern(p, m))
  {
    var q := PatternForScrutinee(p);
    assert RenamePatterns(Nil, m) == Nil;
    assert RenamePatterns(Cons(p, Nil), m) == Cons(RenamePattern(p, m), Nil);
    ProductPatternKeeps(p);
    ProductPatternKeeps(RenamePattern(p, m));
    LowerTrPattern(q, m, s, k);
  }

  lemma {:induction false} LowerTrLetGuard(bs: List<Binding>, gs: List<Guard>, value: Expr, rest: List<Clause>,
                                           m: Renaming, success: Expr, failure: Expr, fail: Failure, s: set<Id>,
                                           outerS: set<Id>, k: set<Id>, outerK: set<Id>, n: Id)
    requires GuardStep(Bindings(bs), gs, value, rest, m, success, failure, fail, s, outerS, k, outerK, n)
    ensures TrGuards(Cons(Bindings(bs), gs), value, rest,
                     LowerGuard(RenameGuard(Bindings(bs), m), success, failure, n).value,
                     With(m, s), With(m, outerS), k, fail)
    decreases SizeBindings(bs), 3
  {
    LowerTrGroup(bs, m, s, k, n);
  }

  // ----- Cases with guarded rows -----

  lemma {:induction false} RenameRowFacts(rows: List<Row>, m: Renaming)
    ensures AnyGuarded(RenameRows(rows, m)) == AnyGuarded(rows)
            && AllRecordPatterns(RenameRows(rows, m)) == AllRecordPatterns(rows)
    ensures WrapRows(RenameRows(rows, m)) == RenameRows(WrapRows(rows), m)
            && Length(RenameRows(rows, m)) == Length(rows)
  {
    match rows
    case Nil =>
    case Cons(row, rest) =>
      RenameRowFacts(rest, m);
      RenameGuardedRhs(row.value, m);
      assert RenamePatterns(Nil, m) == Nil;
      assert RenamePatterns(Cons(row.pattern, Nil), m) == Cons(RenamePattern(row.pattern, m), Nil);
  }

  lemma {:induction false} RenameHelperRows(rows: List<Row>, m: Renaming)
    requires AnyGuarded(rows)
    ensures AnyGuarded(RenameRows(rows, m)) && HelperRows(RenameRows(rows, m)) == RenameRows(HelperRows(rows), m)
  {
    RenameRowFacts(rows, m);
    RenameGuardedRhs(rows.head.value, m);
    if !IsGuardedRhs(rows.head.value) { RenameHelperRows(rows.tail, m); }
  }

  lemma {:induction false} WrappedRowsReady(rows: List<Row>, m: Renaming, s: set<Id>, k: set<Id>, n: Id)
    requires ReadyRows(rows, m, s, k, n)
    ensures ReadyRows(MaybeWrapped(rows), m, s, k, n)
    ensures MaybeWrapped(RenameRows(rows, m)) == RenameRows(MaybeWrapped(rows), m)
  {
    RenameRowFacts(rows, m);
    WrapRowsKeeps(rows, s);
    WrapRowsKeeps(RenameRows(rows, m), s);
  }

  lemma {:induction false} LowerTrCase(e: Expr, rows: List<Row>, m: Renaming, s: set<Id>, k: set<Id>, n: Id)
    requires Ready(Case(e, rows), m, s, k, n)
    ensures Tr(Case(e, rows), LowerCase(Rename(e, m), RenameRows(rows, m), n).value, With(m, s), k)
    decreases Size(e) + SizeRows(rows), 3
  {
    CaseReady(e, rows, m, s, k, n);
    RenameRowFacts(rows, m);
    if !AnyGuarded(rows) {
      LowerTr(e, m, s, k, n);
      LowerTrRows(rows, m, s, k, Lower(Rename(e, m), n).next);
    } else {
      ScrutineeLowered(e, m, s, k, n);
      LowerTrGuardedCase(e, rows, m, s, k, n, Lower(Rename(e, m), n));
    }
  }

  lemma {:induction false} ScrutineeLowered(e: Expr, m: Renaming, s: set<Id>, k: set<Id>, n: Id)
    requires Ready(e, m, s, k, n)
    ensures var e' := Lower(Rename(e, m), n); Tr(e, e'.value, With(m, s), k + {e'.next})
    decreases Size(e), 2
  {
    LowerTr(e, m, s, k, n);
    var e' := Lower(Rename(e, m), n);
    ReadyFits(e, m, s, k, n);
    LowerGood(Rename(e, m), k, n);
    TrMore(e, e'.value, With(m, s), k, k + {e'.next});
  }

  lemma {:induction false} LowerTrGuardedCase(e: Expr, rows: List<Row>, m: Renaming, s: set<Id>, k: set<Id>, n: Id,
                                              e': Out<Expr>)
    requires e' == Lower(Rename(e, m), n) && Tr(e, e'.value, With(m, s), k + {e'.next})
    requires ReadyRows(rows, m, s, k, e'.next)
    requires AnyGuarded(rows) && AnyGuarded(RenameRows(rows, m))
    requires AllRecordPatterns(RenameRows(rows, m)) == AllRecordPatterns(rows)
    ensures Tr(Case(e, rows), LowerCase(Rename(e, m), RenameRows(rows, m), n).value, With(m, s), k)
    decreases Size(e) + SizeRows(rows), 2
  {
    var saved := if !AllRecordPatterns(rows) then Product(e'.value) else e'.value;
    WrappedRowsReady(rows, m, s, k, e'.next);
    LowerTrMatch(MaybeWrapped(rows), saved, m, s, k, e'.next);
  }

  lemma {:induction false} CaseReady(e: Expr, rows: List<Row>, m: Renaming, s: set<Id>, k: set<Id>, n: Id)
    requires Ready(Case(e, rows), m, s, k, n)
    ensures Ready(e, m, s, k, n)
    ensures forall n' :: n' >= n ==> ReadyRows(rows, m, s, k, n')
  {
  }

  lemma {:induction false} LowerTrMatch(rows: List<Row>, saved: Expr, m: Renaming, s: set<Id>, k: set<Id>, n: Id)
    requires AnyGuarded(rows) && ReadyRows(rows, m, s, k, n)
    requires AnyGuarded(RenameRows(rows, m))
    ensures var d := LowerMatch(saved, RenameRows(rows, m), n).value;
            && IsMatch(d) && d.bindings.head == Binding(n, saved)
            && TrMatch(rows, n, d.body.bindings, d.body.body.rows, With(m, s), k + {n})
    decreases SizeRows(rows), 2
  {
    var count := Length(HelperRows(rows)) + 1;
    var values := LowerTrMatchHelpers(rows, m, s, k, n, count);
    var roots := LowerTrMatchRoots(rows, m, s, k, n, count, values.next);
    MatchLowered(rows, saved, RenameRows(rows, m), With(m, s), k, n, count, values, roots);
  }

  lemma {:induction false} MatchLowered(rows: List<Row>, saved: Expr, rows': List<Row>, r: Renaming, k: set<Id>, n: Id,
                                        count: nat, values: Out<List<Expr>>, roots: Out<List<Row>>)
    requires AnyGuarded(rows) && AnyGuarded(rows') && count == Length(HelperRows(rows')) + 1 && Below(k, n)
    requires values == LowerHelpers(HelperRows(rows'), n, n + 1 + count)
    requires roots == LowerRoots(rows', FreshIds(n + 1, count), false, values.next)
    requires var ids := FreshIds(n + 1, count);
             && TrHelpers(HelperRows(rows), Bound(ids, values.value), n, r, k + {n} + ListIds(ids))
             && TrRoots(rows, roots.value, ids, false, r, k + {n} + ListIds(ids))
    ensures var d := LowerMatch(saved, rows', n).value;
            && IsMatch(d) && d.bindings.head == Binding(n, saved)
            && TrMatch(rows, n, d.body.bindings, d.body.body.rows, r, k + {n})
  {
    var ids := FreshIds(n + 1, count);
    MatchUnfolds(saved, rows', n);
    HelperIdsFresh(n + 1, count, values.value, k + {n});
    MatchIntro(rows, n, saved, Bound(ids, values.value), roots.value, r, k + {n}, ids);
  }

  lemma {:induction false} MatchIntro(rows: List<Row>, temp: Id, saved: Expr, helpers: List<Binding>, roots: List<Row>,
                                      r: Renaming, k: set<Id>, ids: List<Id>)
    requires AnyGuarded(rows) && FreshBinders(helpers, k) && Binders(helpers) == ids
             && BoundIds(helpers) == ListIds(ids)
    requires TrHelpers(HelperRows(rows), helpers, temp, r, k + ListIds(ids))
    requires TrRoots(rows, roots, ids, false, r, k + ListIds(ids))
    ensures var d := Let(Cons(Binding(temp, saved), Nil), Let(helpers, Case(Local(temp), roots)));
            IsMatch(d) && d.bindings.head == Binding(temp, saved)
                && TrMatch(rows, temp, d.body.bindings, d.body.body.rows, r, k)
  {
  }

  lemma {:induction false} LowerTrMatchHelpers(rows: List<Row>, m: Renaming, s: set<Id>, k: set<Id>, n: Id, count: nat)
      returns (values: Out<List<Expr>>)
    requires AnyGuarded(rows) && ReadyRows(rows, m, s, k, n) && count == Length(HelperRows(rows)) + 1
    ensures AnyGuarded(RenameRows(rows, m)) && values == LowerHelpers(HelperRows(RenameRows(rows, m)), n, n + 1 + count)
    ensures Length(values.value) == count && values.next > n + count
    ensures var ids := FreshIds(n + 1, count);
            TrHelpers(HelperRows(rows), Bound(ids, values.value), n, With(m, s), k + {n} + ListIds(ids))
    decreases SizeRows(rows), 1
  {
    var ids := FreshIds(n + 1, count);
    HelperScopeReady(rows, m, s, k, n, count);
    RenameHelperRows(rows, m);
    LowerTrHelpers(HelperRows(rows), ids, m, n, s, k + {n} + ListIds(ids), n + 1 + count);
    values := LowerHelpers(HelperRows(RenameRows(rows, m)), n, n + 1 + count);
  }

  lemma {:induction false} HelperScopeReady(rows: List<Row>, m: Renaming, s: set<Id>, k: set<Id>, n: Id, count: nat)
    requires AnyGuarded(rows) && ReadyRows(rows, m, s, k, n)
    ensures ReadyRows(HelperRows(rows), m, s, k + {n} + ListIds(FreshIds(n + 1, count)), n + 1 + count)
  {
    HelperRowsReady(rows, m, s, k, n);
    FreshIdsAre(n + 1, count);
    RowsReadyMore(HelperRows(rows), m, s, k, k + {n} + ListIds(FreshIds(n + 1, count)), n, n + 1 + count);
  }

  lemma {:induction false} LowerTrMatchRoots(rows: List<Row>, m: Renaming, s: set<Id>, k: set<Id>, n: Id, count: nat,
                                             next: Id)
      returns (roots: Out<List<Row>>)
    requires AnyGuarded(rows) && ReadyRows(rows, m, s, k, n) && count == Length(HelperRows(rows)) + 1
             && next > n + count
    ensures AnyGuarded(RenameRows(rows, m)) && Length(HelperRows(RenameRows(rows, m))) + 1 == count
    ensures roots == LowerRoots(RenameRows(rows, m), FreshIds(n + 1, count), false, next)
    ensures var ids := FreshIds(n + 1, count);
            TrRoots(rows, roots.value, ids, false, With(m, s), k + {n} + ListIds(ids))
    decreases SizeRows(rows), 1
  {
    var ids := FreshIds(n + 1, count);
    RenameHelperRows(rows, m);
    RenameRowFacts(HelperRows(rows), m);
    FreshIdsAre(n + 1, count);
    RowsReadyMore(rows, m, s, k, k + {n} + ListIds(ids), n, next);
    LowerTrRoots(rows, m, ids, false, s, k + {n} + ListIds(ids), next);
    roots := LowerRoots(RenameRows(rows, m), ids, false, next);
  }

  lemma {:induction false} HelperIdsFresh(n: Id, count: nat, values: List<Expr>, k: set<Id>)
    requires Length(values) == count && Below(k, n)
    ensures var ds := Bound(FreshIds(n, count), values);
            FreshBinders(ds, k) && Binders(ds) == FreshIds(n, count) && BoundIds(ds) == ListIds(FreshIds(n, count))
    decreases count
  {
    if count > 0 {
      HelperIdsFresh(n + 1, count - 1, values.tail, k);
      FreshIdsAre(n + 1, count - 1);
    }
  }

  lemma {:induction false} HelperRowsReady(rows: List<Row>, m: Renaming, s: set<Id>, k: set<Id>, n: Id)
    requires AnyGuarded(rows) && ReadyRows(rows, m, s, k, n)
    ensures ReadyRows(HelperRows(rows), m, s, k, n)
  {
    RenameHelperRows(rows, m);
    HelperRowsFit(rows, s);
    HelperRowsFit(RenameRows(rows, m), s);
  }

  lemma {:induction false} RowsReadyMore(rows: List<Row>, m: Renaming, s: set<Id>, k: set<Id>, k': set<Id>, n: Id,
                                         n': Id)
    requires ReadyRows(rows, m, s, k, n) && k <= k' && Below(k', n') && n <= n'
    requires forall x <- k' :: x in k || n <= x
    ensures ReadyRows(rows, m, s, k', n')
  {
  }

  lemma {:induction false} LowerTrRoots(rows: List<Row>, m: Renaming, helpers: List<Id>, seen: bool, s: set<Id>,
                                        k: set<Id>, n: Id)
    requires if seen then Length(helpers) == Length(rows)
             else AnyGuarded(rows) && Length(helpers) == Length(HelperRows(rows)) + 1
    requires ReadyRows(rows, m, s, k, n) && ListIds(helpers) <= k
    ensures var rows' := RenameRows(rows, m);
            && (if seen then Length(helpers) == Length(rows')
                else AnyGuarded(rows') && Length(helpers) == Length(HelperRows(rows')) + 1)
            && TrRoots(rows, LowerRoots(rows', helpers, seen, n).value, helpers, seen, With(m, s), k)
    decreases SizeRows(rows), 0
  {
    RenameRowFacts(rows, m);
    if !seen { RenameHelperRows(rows, m); RenameRowFacts(HelperRows(rows), m); }
    if rows.Cons? {
      var row, rest := rows.head, rows.tail;
      RowsReady(row, rest, m, s, k, n);
      RowReady(row, m, s, k, n);
      LowerTrPattern(row.pattern, m, s, k);
      RenameGuardedRhs(row.value, m);
      var v := LowerTrRoot(row, m, helpers, s, k, n);
      var seen' := seen || IsGuardedRhs(row.value);
      LowerTrRoots(rest, m, if seen' then helpers.tail else helpers, seen', s, k, v.next);
    }
  }

  lemma {:induction false} LowerTrRoot(row: Row, m: Renaming, helpers: List<Id>, s: set<Id>, k: set<Id>, n: Id)
      returns (v: Out<Expr>)
    requires ReadyRow(row, m, s, k, n) && ListIds(helpers) <= k && (IsGuardedRhs(row.value) ==> helpers.Cons?)
    ensures v == if IsGuardedRhs(row.value) then LowerRhs(Rename(row.value, m), CallHelper(helpers),
                                                          n) else Lower(Rename(row.value, m), n)
    ensures v.next >= n && !IsGuardedRhs(v.value)
    ensures var s', k' := s + PatternIds(row.pattern), k + PatternIds(RenamePattern(row.pattern, m));
            if IsGuardedRhs(row.value) then TrRhs(row.value, v.value, With(m, s'), k', CallNext(helpers))
            else Tr(row.value, v.value, With(m, s'), k')
    decreases Size(row.value), 4
  {
    var s', k' := s + PatternIds(row.pattern), k + PatternIds(RenamePattern(row.pattern, m));
    RowReady(row, m, s, k, n);
    if IsGuardedRhs(row.value) {
      LowerTrRhs(row.value, m, CallNext(helpers), s', k', n);
      CallHelperNormal(helpers);
      LoweredNormalRhs(Rename(row.value, m), CallHelper(helpers), n);
      v := LowerRhs(Rename(row.value, m), CallHelper(helpers), n);
    } else {
      LowerTr(row.value, m, s', k', n);
      LoweredNormal(Rename(row.value, m), n);
      v := Lower(Rename(row.value, m), n);
    }
    NormalUnguarded(v.value);
  }

  /** What is to be shown of all lowered helpers. */
  ghost predicate HelpersLowered(later: List<Row>, ids: List<Id>, m: Renaming, temp: Id, s: set<Id>, k: set<Id>, n: Id)
    requires Length(ids) == Length(RenameRows(later, m)) + 1
  {
    TrHelpers(later, Bound(ids, LowerHelpers(RenameRows(later, m), temp, n).value), temp, With(m, s), k)
  }

  lemma {:induction false} LowerTrHelpers(later: List<Row>, ids: List<Id>, m: Renaming, temp: Id, s: set<Id>,
                                          k: set<Id>, n: Id)
    requires ReadyRows(later, m, s, k, n) && Length(ids) == Length(later) + 1
    ensures Length(ids) == Length(RenameRows(later, m)) + 1 && HelpersLowered(later, ids, m, temp, s, k, n)
    decreases SizeRows(later), 0
  {
    RenameRowFacts(later, m);
    if later.Nil? {
      LastHelper(ids, temp, With(m, s), k, n);
    } else {
      var row, rest := later.head, later.tail;
      var later' := RenameRows(later, m);
      var count := Length(later);
      RowsReady(row, rest, m, s, k, n);
      LowerTrHelper(later, count, m, temp, s, k, n);
      var body := LowerHelperRow(later'.head, FreshIds(n, count), temp, n + count + 1);
      RowsReadyMore(rest, m, s, k, k, n, body.next);
      LowerTrHelpers(rest, ids.tail, m, temp, s, k, body.next);
      HelpersUnfold(later', temp, n);
      JoinHelpers(later, ids, HelperFunction(FreshIds(n, count), n + count, body.value),
                  LowerHelpers(later'.tail, temp, body.next).value, temp, With(m, s), k);
    }
  }

  lemma {:induction false} JoinHelpers(later: List<Row>, ids: List<Id>, f: Expr, values: List<Expr>, temp: Id,
                                       r: Renaming, k: set<Id>)
    requires later.Cons? && ids.Cons? && Length(ids.tail) == Length(values)
    requires TrHelper(later, f, Length(later), Nil, temp, r, k)
    requires TrHelpers(later.tail, Bound(ids.tail, values), temp, r, k)
    ensures Length(ids) == Length(Cons(f, values)) && TrHelpers(later, Bound(ids, Cons(f, values)), temp, r, k)
  {
  }

  lemma {:induction false} LastHelper(ids: List<Id>, temp: Id, r: Renaming, k: set<Id>, n: Id)
    requires Length(ids) == 1 && Below(k, n)
    ensures TrHelpers(Nil, Bound(ids, LowerHelpers(Nil, temp, n).value), temp, r, k)
  {
    assert LowerHelpers(Nil, temp, n).value == Cons(HelperFunction(Nil, n, Case(Local(temp), Nil)), Nil);
    assert ids == Cons(ids.head, Nil);
    assert HelperFunction(Nil, n, Case(Local(temp), Nil)) == Lambda(n, Case(Local(temp), Nil));
    assert TrHelperBody(Nil, Case(Local(temp), Nil), Nil, temp, r, k + {n});
    assert TrHelper(Nil, Lambda(n, Case(Local(temp), Nil)), 0, Nil, temp, r, k);
    var values := Cons(Lambda(n, Case(Local(temp), Nil)), Nil);
    assert Bound(ids.tail, values.tail) == Nil;
    assert Bound(ids, values) == Cons(Binding(ids.head, values.head), Nil);
  }

  lemma {:induction false} AppendAssociative(xs: List<Id>, x: Id, ys: List<Id>)
    ensures Append(Append(xs, Cons(x, Nil)), ys) == Append(xs, Cons(x, ys))
  {
    match xs
    case Nil => assert Append(Cons(x, Nil), ys) == Cons(x, Append(Nil, ys));
    case Cons(_, rest) => AppendAssociative(rest, x, ys);
  }

  lemma {:induction false} AppendNothing(xs: List<Id>)
    ensures Append(xs, Nil) == xs
  {
    match xs
    case Nil =>
    case Cons(_, rest) => AppendNothing(rest);
  }

  /** The lambdas around a helper body name the later helpers in order, then the token. */
  lemma {:induction false} HelperIntro(later: List<Row>, body: Expr, before: List<Id>, n: Id, count: nat, temp: Id,
                                       r: Renaming, k: set<Id>)
    requires Below(k, n)
    requires TrHelperBody(later, body, Append(before, FreshIds(n, count)), temp, r,
                          k + ListIds(FreshIds(n, count)) + {n + count})
    ensures TrHelper(later, HelperFunction(FreshIds(n, count), n + count, body), count, before, temp, r, k)
    decreases count
  {
    if count == 0 {
      AppendNothing(before);
      assert k + ListIds(FreshIds(n, 0)) + {n} == k + {n};
    } else {
      AppendAssociative(before, n, FreshIds(n + 1, count - 1));
      assert k + ListIds(FreshIds(n, count)) + {n + count}
             == k + {n} + ListIds(FreshIds(n + 1, count - 1)) + {n + count};
      HelperIntro(later, body, Append(before, Cons(n, Nil)), n + 1, count - 1, temp, r, k + {n});
    }
  }

  /** The helper for the first of the later rows, with its lambdas. */
  /** What is to be shown of one lowered helper. */
  ghost predicate HelperLowered(later: List<Row>, count: nat, m: Renaming, temp: Id, s: set<Id>, k: set<Id>, n: Id)
    requires later.Cons? && count > 0
  {
    var body := LowerHelperRow(RenameRow(later.head, m), FreshIds(n, count), temp, n + count + 1).value;
    TrHelper(later, HelperFunction(FreshIds(n, count), n + count, body), count, Nil, temp, With(m, s), k)
  }

  lemma {:induction false} LowerTrHelper(later: List<Row>, count: nat, m: Renaming, temp: Id, s: set<Id>, k: set<Id>,
                                         n: Id)
    requires later.Cons? && count == Length(later) && ReadyRow(later.head, m, s, k, n)
    ensures HelperLowered(later, count, m, temp, s, k, n)
    decreases Size(later.head.value), 5
  {
    var next := FreshIds(n, count);
    ReadyBelow(later.head, m, s, k, n);
    var inner := HelperScopeOf(k, next, n, count);
    LowerTrHelperRow(later, m, next, temp, s, k, inner, n, n + count + 1);
    HelperIntroIn(later, LowerHelperRow(RenameRow(later.head, m), next, temp, n + count + 1).value, n, count, temp,
                  With(m, s), k, inner);
  }

  lemma {:induction false} ReadyBelow(row: Row, m: Renaming, s: set<Id>, k: set<Id>, n: Id)
    requires ReadyRow(row, m, s, k, n)
    ensures Below(k, n)
  {
  }

  /** The scope inside a helper: the later helpers and the token. */
  lemma {:induction false} HelperScopeOf(k: set<Id>, next: List<Id>, n: Id, count: nat) returns (inner: set<Id>)
    requires next == FreshIds(n, count) && Below(k, n)
    ensures inner == HelperInner(k, n, count) && k <= inner && ListIds(next) <= inner && Below(inner, n + count + 1)
  {
    FreshIdsAre(n, count);
    inner := HelperInner(k, n, count);
  }

  ghost function HelperInner(k: set<Id>, n: Id, count: nat): set<Id> {
    k + ListIds(FreshIds(n, count)) + {n + count}
  }

  lemma {:induction false} HelperIntroIn(later: List<Row>, body: Expr, n: Id, count: nat, temp: Id, r: Renaming,
                                         k: set<Id>, inner: set<Id>)
    requires Below(k, n) && inner == HelperInner(k, n, count)
    requires TrHelperBody(later, body, FreshIds(n, count), temp, r, inner)
    ensures TrHelper(later, HelperFunction(FreshIds(n, count), n + count, body), count, Nil, temp, r, k)
  {
    assert Append(Nil, FreshIds(n, count)) == FreshIds(n, count);
    HelperIntro(later, body, Nil, n, count, temp, r, k);
  }

  lemma {:induction false} LowerTrHelperRow(later: List<Row>, m: Renaming, next: List<Id>, temp: Id, s: set<Id>,
                                            k: set<Id>, inner: set<Id>, n: Id, start: Id)
    requires later.Cons? && ReadyRow(later.head, m, s, k, n) && next.Cons?
    requires k <= inner && ListIds(next) <= inner && Below(inner, start) && n <= start
    ensures TrHelperBody(later, LowerHelperRow(RenameRow(later.head, m), next, temp, start).value, next, temp,
                         With(m, s), inner)
    decreases Size(later.head.value), 4
  {
    var row := later.head;
    var m' := CopiedRowReady(row, m, s, k, inner, n, start);
    var after := CloneRow(RenameRow(row, m), start).next;
    var value := LowerTrHelperValue(row, m', next, s, inner, after);
    HelperRowIs(row, m, m', next, temp, inner, start, value);
    CopiedPattern(row, m', s, inner, after);
    HelperBodyIntro(later, row, RenamePattern(row.pattern, m'), value, next, temp, With(m', s), inner);
  }

  lemma {:induction false} CopiedPattern(row: Row, m: Renaming, s: set<Id>, k: set<Id>, n: Id)
    requires ReadyRow(row, m, s, k, n)
    ensures TrPattern(row.pattern, RenamePattern(row.pattern, m), k)
    ensures BindPattern(row.pattern, RenamePattern(row.pattern, m), With(m, s)) == With(m, s + PatternIds(row.pattern))
  {
    RowReady(row, m, s, k, n);
    LowerTrPattern(row.pattern, m, s, k);
  }

  lemma {:induction false} HelperRowIs(row: Row, m: Renaming, m': Renaming, next: List<Id>, temp: Id, inner: set<Id>,
                                       start: Id, value: Expr)
    requires next.Cons? && ListIds(next) <= inner
    requires CloneRow(RenameRow(row, m), start).value == RenameRow(row, m')
    requires value == LowerRhs(Rename(row.value, m'), CallHelper(next), CloneRow(RenameRow(row, m), start).next).value
    ensures LowerHelperRow(RenameRow(row, m), next, temp, start).value
         == Case(Local(temp), Cons(Row(RenamePattern(row.pattern, m'), value),
                                   Cons(Row(Wildcard, CallHelper(next)), Nil)))
  {
    CallHelperPlain(next, inner);
    HelperBodyIs(RenameRow(row, m), next, temp, inner, start);
  }

  lemma {:induction false} HelperBodyIntro(later: List<Row>, row: Row, p: Pattern, value: Expr, next: List<Id>,
                                           temp: Id, r: Renaming, k: set<Id>)
    requires later.Cons? && later.head == row && next.Cons? && TrPattern(row.pattern, p, k) && !IsGuardedRhs(value)
    requires TrRhs(row.value, value, BindPattern(row.pattern, p, r), k + PatternIds(p), CallNext(next))
    ensures TrHelperBody(later, Case(Local(temp), Cons(Row(p, value), Cons(Row(Wildcard, CallHelper(next)), Nil))),
                         next, temp, r, k)
  {
  }

  /** The copied row is the source row under the composed renaming, with new ids only. */
  lemma {:induction false} CopiedRowReady(row: Row, m: Renaming, s: set<Id>, k: set<Id>, inner: set<Id>, n: Id,
                                          start: Id)
      returns (m': Renaming)
    requires ReadyRow(row, m, s, k, n) && k <= inner && Below(inner, start) && n <= start
    ensures CloneRow(RenameRow(row, m), start).value == RenameRow(row, m') && With(m', s) == With(m, s)
    ensures ReadyRow(row, m', s, inner, CloneRow(RenameRow(row, m), start).next)
  {
    var renamed := RenameRow(row, m);
    var copies := Allocate(IdsRow(renamed), start).value;
    m' := Compose(copies, m);
    RenameTwiceRow(row, m, copies);
    FreshCopy(row, m, s, k, n, start);
    SameScope(m, copies, s, k);
  }

  lemma {:induction false} FreshCopy(row: Row, m: Renaming, s: set<Id>, k: set<Id>, n: Id, start: Id)
    requires ReadyRow(row, m, s, k, n)
    ensures var c := CloneRow(RenameRow(row, m), start); UniqueRow(c.value) && Drawn(IdsRow(c.value), {}, start, c.next)
  {
    RenameScopedRow(row, m, s);
    ScopedMoreRow(RenameRow(row, m), Image(m, s), k);
    CloneRowGood(RenameRow(row, m), k, start);
  }

  lemma {:induction false} SameScope(m: Renaming, copies: Renaming, s: set<Id>, k: set<Id>)
    requires Image(m, s) <= k && copies.Keys !! k
    ensures With(Compose(copies, m), s) == With(m, s) && Image(Compose(copies, m), s) == Image(m, s)
  {
    forall x | x in s ensures At(Compose(copies, m), x) == At(m, x) { assert At(m, x) in Image(m, s); }
  }

  lemma {:induction false} LowerTrHelperValue(row: Row, m: Renaming, next: List<Id>, s: set<Id>, k: set<Id>, n: Id)
      returns (value: Expr)
    requires ReadyRow(row, m, s, k, n) && next.Cons? && ListIds(next) <= k
    ensures value == LowerRhs(Rename(row.value, m), CallHelper(next), n).value && !IsGuardedRhs(value)
    ensures TrRhs(row.value, value, With(m, s + PatternIds(row.pattern)), k + PatternIds(RenamePattern(row.pattern, m)),
                  CallNext(next))
    decreases Size(row.value), 3
  {
    RowReady(row, m, s, k, n);
    LowerTrRhs(row.value, m, CallNext(next), s + PatternIds(row.pattern), k + PatternIds(RenamePattern(row.pattern, m)),
               n);
    CallHelperNormal(next);
    LoweredNormalRhs(Rename(row.value, m), CallHelper(next), n);
    value := LowerRhs(Rename(row.value, m), CallHelper(next), n).value;
    NormalUnguarded(value);
  }
}
