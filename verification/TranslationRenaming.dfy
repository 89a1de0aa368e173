/** A copy of translated code with new binder ids is still a translation, and stays one in a larger
    target scope (crates/psrs-desugar/src/alpha.rs).

    Every case is the same argument: the renaming commutes with the way the code is built, the ids it
    binds are renamed to ids outside the new scope, and the renaming of source ids is composed with it.
    The lemmas named `...Apart` say that the renamed binders of one part stay out of the scope of the
    others. Helpers are copied with all their parameters.
 */
module TranslationRenaming {
  import opened Lists
  import opened Hir
  import opened Alpha
  import opened Lowering
  import opened Translation

  ghost function Mapped(r: Renaming, m: Renaming): Renaming {
    map x | x in r :: At(m, r[x])
  }

  lemma {:induction false} MappedWith(r: Renaming, m: Renaming, x: Id, y: Id)
    ensures Mapped(r[x := y], m) == Mapped(r, m)[x := At(m, y)]
  {
  }

  function RenameList(xs: List<Id>, m: Renaming): List<Id> {
    match xs
    case Nil => Nil
    case Cons(x, rest) => Cons(At(m, x), RenameList(rest, m))
  }

  function RenameFailure(f: Failure, m: Renaming): Failure {
    match f
    case NoMatch => NoMatch
    case CallNext(helpers) => CallNext(RenameList(helpers, m))
  }

  lemma {:induction false} RenameApplyLocals(f: Expr, xs: List<Id>, m: Renaming)
    ensures Rename(ApplyLocals(f, xs), m) == ApplyLocals(Rename(f, m), RenameList(xs, m))
    decreases xs
  {
    match xs
    case Nil =>
    case Cons(x, rest) =>
      RenameApplyLocals(Apply(f, Local(x)), rest, m);
      assert Rename(Local(x), m) == Local(At(m, x));
      assert Rename(Apply(f, Local(x)), m) == Apply(Rename(f, m), Local(At(m, x)));
  }

  lemma {:induction false} RenameUnit(m: Renaming)
    ensures Rename(UNIT, m) == UNIT && Rename(NO_MATCH, m) == NO_MATCH
  {
    assert RenameParts(Nil, m) == Nil && RenameRows(Nil, m) == Nil;
    assert Rename(UNIT, m) == UNIT;
  }

  lemma {:induction false} RenameCallHelper(helpers: List<Id>, m: Renaming)
    requires helpers.Cons?
    ensures Rename(CallHelper(helpers), m) == CallHelper(RenameList(helpers, m))
  {
    RenameUnit(m);
    RenameApplyLocals(Local(helpers.head), helpers.tail, m);
    assert Rename(Local(helpers.head), m) == Local(At(m, helpers.head));
  }

  lemma {:induction false} RenameCode(f: Failure, m: Renaming)
    ensures Rename(Code(f), m) == Code(RenameFailure(f, m))
  {
    RenameUnit(m);
    if f.CallNext? && f.helpers.Cons? { RenameCallHelper(f.helpers, m); }
  }

  lemma {:induction false} RenameGuardedRhs(e: Expr, m: Renaming)
    ensures IsGuardedRhs(Rename(e, m)) == IsGuardedRhs(e)
  {
    match e
    case Let(_, b) => RenameGuardedRhs(b, m);
    case _ =>
  }

  lemma {:induction false} RenameBinders(ds: List<Binding>, m: Renaming)
    ensures Binders(RenameBindings(ds, m)) == RenameList(Binders(ds), m)
  {
    match ds
    case Nil =>
    case Cons(_, rest) => RenameBinders(rest, m);
  }

  // ----- Patterns and groups -----

  lemma {:induction false} TrRenamePattern(p: Pattern, d: Pattern, r: Renaming, k: set<Id>, m: Renaming, k': set<Id>)
    requires TrPattern(p, d, k)
    requires UniquePattern(RenamePattern(d, m)) && PatternIds(RenamePattern(d, m)) !! k'
    ensures TrPattern(p, RenamePattern(d, m), k')
    ensures BindPattern(p, RenamePattern(d, m), Mapped(r, m)) == Mapped(BindPattern(p, d, r), m)
    decreases p
  {
    match p
    case Wildcard =>
    case Bind(x) => MappedWith(r, m, x, d.id);
    case Named(x, q) =>
      MappedWith(r, m, x, d.id);
      TrRenamePattern(q, d.inner, r[x := d.id], k + {d.id}, m, k' + {At(m, d.id)});
    case Shaped(_, parts) => TrRenamePatterns(parts, d.parts, r, k, m, k');
  }

  lemma {:induction false} TrRenamePatterns(ps: List<Pattern>, ds: List<Pattern>, r: Renaming, k: set<Id>, m: Renaming,
                                            k': set<Id>)
    requires TrPatterns(ps, ds, k)
    requires UniquePatterns(RenamePatterns(ds, m)) && PatternIdsAll(RenamePatterns(ds, m)) !! k'
    ensures TrPatterns(ps, RenamePatterns(ds, m), k')
    ensures BindPatterns(ps, RenamePatterns(ds, m), Mapped(r, m)) == Mapped(BindPatterns(ps, ds, r), m)
    decreases ps
  {
    match ps
    case Nil =>
    case Cons(p, rest) =>
      TrRenamePattern(p, ds.head, r, k, m, k');
      TrRenamePatterns(rest, ds.tail, BindPattern(p, ds.head, r), k + PatternIds(ds.head), m,
                       k' + PatternIds(RenamePattern(ds.head, m)));
  }

  lemma {:induction false} BoundWithin(ds: List<Binding>)
    ensures BoundIds(ds) <= IdsBindings(ds)
  {
    match ds
    case Nil =>
    case Cons(_, rest) => BoundWithin(rest);
  }

  lemma {:induction false} TrRenameGroupIds(bs: List<Binding>, ds: List<Binding>, r: Renaming, k: set<Id>, m: Renaming,
                                            k': set<Id>)
    requires FreshGroup(bs, ds, r, k)
    requires UniqueBindings(RenameBindings(ds, m)) && IdsBindings(RenameBindings(ds, m)) !! k'
    ensures FreshGroup(bs, RenameBindings(ds, m), Mapped(r, m), k')
  {
    match bs
    case Nil =>
    case Cons(_, rest) =>
      TrRenameGroupIds(rest, ds.tail, r, k, m, k');
      BoundWithin(RenameBindings(ds.tail, m));
  }

  lemma {:induction false} TrRenameBind(bs: List<Binding>, ds: List<Binding>, r: Renaming, m: Renaming)
    ensures BindGroup(bs, RenameBindings(ds, m), Mapped(r, m)) == Mapped(BindGroup(bs, ds, r), m)
  {
    match bs
    case Nil =>
    case Cons(b, rest) =>
      if ds.Cons? {
        MappedWith(r, m, b.id, ds.head.id);
        TrRenameBind(rest, ds.tail, r[b.id := ds.head.id], m);
      }
  }

  lemma {:induction false} TrRenameFreshBinders(ds: List<Binding>, k: set<Id>, m: Renaming, k': set<Id>)
    requires UniqueBindings(RenameBindings(ds, m)) && IdsBindings(RenameBindings(ds, m)) !! k'
    ensures FreshBinders(RenameBindings(ds, m), k')
  {
    match ds
    case Nil =>
    case Cons(_, rest) =>
      TrRenameFreshBinders(rest, k, m, k');
      BoundWithin(RenameBindings(rest, m));
  }

  // ----- Expressions -----

  ghost predicate Apart(d: Expr, k: set<Id>) {
    Unique(d) && Ids(d) !! k
  }

  lemma {:induction false} TrRename(e: Expr, d: Expr, r: Renaming, k: set<Id>, m: Renaming, k': set<Id>)
    requires Tr(e, d, r, k) && Apart(Rename(d, m), k')
    ensures Tr(e, Rename(d, m), Mapped(r, m), k')
    decreases Size(e), 1, 0
  {
    match e
    case Local(_) =>
    case Global(_) =>
    case Constant(_) =>
    case Compound(_, parts) => TrRenameParts(parts, d.parts, r, k, m, k');
    case Apply(f, a) => TrRename(f, d.function_, r, k, m, k'); TrRename(a, d.argument, r, k, m, k');
    case Operator(_, left, right) => TrRenameOperator(left, right, e, d, r, k, m, k');
    case Negate(f, a) => TrRename(f, d.function_, r, k, m, k'); TrRename(a, d.argument, r, k, m, k');
    case Lambda(x, b) =>
      MappedWith(r, m, x, d.parameter);
      TrRename(b, d.body, r[x := d.parameter], k + {d.parameter}, m, k' + {At(m, d.parameter)});
    case Let(bs, b) => TrRenameLet(bs, b, d, r, k, m, k');
    case If(c, t, f) =>
      TrRename(c, d.condition, r, k, m, k');
      TrRename(t, d.consequent, r, k, m, k');
      TrRename(f, d.alternative, r, k, m, k');
    case Case(s, rows) =>
      if AnyGuarded(rows) {
        TrRenameCase(s, rows, d, r, k, m, k');
      } else {
        TrRename(s, d.scrutinee, r, k, m, k');
        TrRenameRows(rows, d.rows, r, k, m, k');
      }
    case Guarded(cs) => TrRenameClauses(cs, d, r, k, NoMatch, m, k');
  }

  lemma {:induction false} TrRenameOperator(left: Expr, right: Expr, e: Expr, d: Expr, r: Renaming, k: set<Id>,
                                            m: Renaming, k': set<Id>)
    requires e.Operator? && left == e.left && right == e.right
    requires Tr(e, d, r, k) && Apart(Rename(d, m), k')
    ensures Tr(e, Rename(d, m), Mapped(r, m), k')
    decreases Size(left) + Size(right), 3, 0
  {
    var partial := d.function_;
    assert Rename(partial, m) == Apply(Rename(partial.function_, m), Rename(partial.argument, m));
    assert Rename(Global(e.symbol), m) == Global(e.symbol);
    assert Unique(Rename(partial, m)) && Ids(Rename(partial, m)) !! k';
    TrRename(left, partial.argument, r, k, m, k');
    TrRename(right, d.argument, r, k, m, k');
  }

  lemma {:induction false} TrRenameParts(es: List<Expr>, ds: List<Expr>, r: Renaming, k: set<Id>, m: Renaming,
                                         k': set<Id>)
    requires TrParts(es, ds, r, k) && UniqueParts(RenameParts(ds, m)) && IdsParts(RenameParts(ds, m)) !! k'
    ensures TrParts(es, RenameParts(ds, m), Mapped(r, m), k')
    decreases SizeParts(es), 0, 0
  {
    match es
    case Nil =>
    case Cons(e, rest) => TrRename(e, ds.head, r, k, m, k'); TrRenameParts(rest, ds.tail, r, k, m, k');
  }

  /** A group and the scope it opens. */
  lemma {:induction false} TrRenameGroup(bs: List<Binding>, ds: List<Binding>, r: Renaming, k: set<Id>, m: Renaming,
                                         k': set<Id>)
    requires TrGroup(bs, ds, r, k) && UniqueBindings(RenameBindings(ds, m)) && IdsBindings(RenameBindings(ds, m)) !! k'
    ensures TrGroup(bs, RenameBindings(ds, m), Mapped(r, m), k')
    ensures BindGroup(bs, RenameBindings(ds, m), Mapped(r, m)) == Mapped(BindGroup(bs, ds, r), m)
    decreases SizeBindings(bs), 1, 0
  {
    TrRenameGroupIds(bs, ds, r, k, m, k');
    TrRenameBind(bs, ds, r, m);
    ValuesApart(RenameBindings(ds, m), k');
    TrRenameBindings(bs, ds, BindGroup(bs, ds, r), k + BoundIds(ds), m, k' + BoundIds(RenameBindings(ds, m)));
  }

  ghost predicate EachApart(ds: List<Binding>, k: set<Id>) {
    match ds
    case Nil => true
    case Cons(d, rest) => Apart(d.value, k) && EachApart(rest, k)
  }

  lemma {:induction false} ValuesApart(ds: List<Binding>, k: set<Id>)
    requires UniqueBindings(ds) && IdsBindings(ds) !! k
    ensures EachApart(ds, k + BoundIds(ds))
  {
    match ds
    case Nil =>
    case Cons(d, rest) =>
      ValuesApart(rest, k + {d.id});
      assert k + {d.id} + BoundIds(rest) == k + BoundIds(ds);
      BoundWithin(rest);
  }

  lemma {:induction false} TrRenameBindings(bs: List<Binding>, ds: List<Binding>, r: Renaming, k: set<Id>, m: Renaming,
                                            k': set<Id>)
    requires TrBindings(bs, ds, r, k) && EachApart(RenameBindings(ds, m), k')
    ensures TrBindings(bs, RenameBindings(ds, m), Mapped(r, m), k')
    decreases SizeBindings(bs), 0, 0
  {
    match bs
    case Nil =>
    case Cons(b, rest) =>
      TrRename(b.value, ds.head.value, r, k, m, k');
      TrRenameBindings(rest, ds.tail, r, k, m, k');
  }

  lemma {:induction false} LetApart(d: Expr, k: set<Id>)
    requires d.Let? && Apart(d, k)
    ensures UniqueBindings(d.bindings) && IdsBindings(d.bindings) !! k && Apart(d.body, k + BoundIds(d.bindings))
  {
    BoundWithin(d.bindings);
  }

  lemma {:induction false} TrRenameLet(bs: List<Binding>, b: Expr, d: Expr, r: Renaming, k: set<Id>, m: Renaming,
                                       k': set<Id>)
    requires Tr(Let(bs, b), d, r, k) && Apart(Rename(d, m), k')
    ensures Tr(Let(bs, b), Rename(d, m), Mapped(r, m), k')
    decreases SizeBindings(bs) + Size(b), 3, 0
  {
    LetApart(Rename(d, m), k');
    TrRenameGroup(bs, d.bindings, r, k, m, k');
    TrRename(b, d.body, BindGroup(bs, d.bindings, r), k + BoundIds(d.bindings), m,
             k' + BoundIds(RenameBindings(d.bindings, m)));
  }

  lemma {:induction false} TrRenameRows(rows: List<Row>, ds: List<Row>, r: Renaming, k: set<Id>, m: Renaming,
                                        k': set<Id>)
    requires TrRows(rows, ds, r, k) && UniqueRows(RenameRows(ds, m)) && IdsRows(RenameRows(ds, m)) !! k'
    ensures TrRows(rows, RenameRows(ds, m), Mapped(r, m), k')
    decreases SizeRows(rows), 0, 0
  {
    match rows
    case Nil =>
    case Cons(row, rest) =>
      var d := ds.head;
      RowApart(RenameRow(d, m), k');
      TrRenamePattern(row.pattern, d.pattern, r, k, m, k');
      RenameGuardedRhs(d.value, m);
      TrRename(row.value, d.value, BindPattern(row.pattern, d.pattern, r), k + PatternIds(d.pattern), m,
               k' + PatternIds(RenamePattern(d.pattern, m)));
      TrRenameRows(rest, ds.tail, r, k, m, k');
  }

  lemma {:induction false} RowApart(d: Row, k: set<Id>)
    requires UniqueRow(d) && IdsRow(d) !! k
    ensures UniquePattern(d.pattern) && PatternIds(d.pattern) !! k && Apart(d.value, k + PatternIds(d.pattern))
  {
  }

  lemma {:induction false} CaseApart(d: Expr, k: set<Id>)
    requires d.Case? && Apart(d, k)
    ensures Apart(d.scrutinee, k) && UniqueRows(d.rows) && IdsRows(d.rows) !! k
  {
  }

  lemma {:induction false} RowsApart(rows: List<Row>, k: set<Id>)
    requires rows.Cons? && UniqueRows(rows) && IdsRows(rows) !! k
    ensures UniquePattern(rows.head.pattern) && PatternIds(rows.head.pattern) !! k
    ensures Apart(rows.head.value, k + PatternIds(rows.head.pattern))
    ensures UniqueRows(rows.tail) && IdsRows(rows.tail) !! k
  {
    RowApart(rows.head, k);
  }

  // ----- Cases with guarded rows -----

  lemma {:induction false} RenameProduct(d: Expr, m: Renaming)
    ensures Rename(Product(d), m) == Product(Rename(d, m))
    ensures Unique(Product(d)) == Unique(d) && Ids(Product(d)) == Ids(d)
  {
    assert RenameParts(Nil, m) == Nil && UniqueParts(Nil) && IdsParts(Nil) == {};
    assert RenameParts(Cons(d, Nil), m) == Cons(Rename(d, m), Nil);
    assert UniqueParts(Cons(d, Nil)) == Unique(d) && IdsParts(Cons(d, Nil)) == Ids(d);
  }

  lemma {:induction false} TrRenameScrutinee(s: Expr, d: Expr, wrapped: bool, r: Renaming, k: set<Id>, m: Renaming,
                                             k': set<Id>)
    requires TrScrutinee(s, d, wrapped, r, k) && Apart(Rename(d, m), k')
    ensures TrScrutinee(s, Rename(d, m), wrapped, Mapped(r, m), k')
    decreases Size(s), 2, 0
  {
    if wrapped {
      RenameProduct(d.parts.head, m);
      RenameProduct(Rename(d.parts.head, m), m);
      TrRename(s, d.parts.head, r, k, m, k');
    } else {
      TrRename(s, d, r, k, m, k');
    }
  }

  lemma {:induction false} RenameMatch(d: Expr, m: Renaming, k: set<Id>)
    requires IsMatch(d) && Apart(Rename(d, m), k)
    ensures var d' := Rename(d, m);
            && IsMatch(d') && d'.bindings.head == Binding(At(m, d.bindings.head.id), Rename(d.bindings.head.value, m))
            && d'.body.bindings == RenameBindings(d.body.bindings, m)
            && d'.body.body.rows == RenameRows(d.body.body.rows, m)
            && d'.bindings.head.id !in k && Apart(d'.bindings.head.value, k + {d'.bindings.head.id})
            && Apart(d'.body, k + {d'.bindings.head.id})
  {
    var d' := Rename(d, m);
    var b := d.bindings.head;
    assert RenameBindings(Nil, m) == Nil && IdsBindings(Nil) == {};
    assert d.bindings == Cons(b, Nil);
    assert RenameBindings(Cons(b, Nil), m) == Cons(Binding(At(m, b.id), Rename(b.value, m)), RenameBindings(Nil, m));
    assert d'.bindings == Cons(Binding(At(m, b.id), Rename(b.value, m)), Nil);
    SavedApart(d', k);
    assert d'.body == Rename(d.body, m);
    assert d'.body.body == Rename(d.body.body, m);
    assert Rename(d.body.body.scrutinee, m) == Local(At(m, b.id));
  }

  lemma {:induction false} SavedApart(d: Expr, k: set<Id>)
    requires d.Let? && d.bindings.Cons? && d.bindings.tail.Nil? && Apart(d, k)
    ensures var b := d.bindings.head; b.id !in k && Apart(b.value, k + {b.id}) && Apart(d.body, k + {b.id})
  {
    var b := d.bindings.head;
    assert Ids(d) == IdsBindings(d.bindings) + Ids(d.body);
    assert UniqueBindings(d.bindings) && Unique(d.body) && IdsBindings(d.bindings) !! Ids(d.body);
    assert IdsBindings(d.bindings.tail) == {};
    assert IdsBindings(d.bindings) == {b.id} + Ids(b.value);
    assert b.id !in Ids(b.value) && Unique(b.value);
  }

  lemma {:induction false} TrRenameCase(s: Expr, rows: List<Row>, d: Expr, r: Renaming, k: set<Id>, m: Renaming,
                                        k': set<Id>)
    requires AnyGuarded(rows) && TrCase(s, rows, d, r, k) && Apart(Rename(d, m), k')
    ensures TrCase(s, rows, Rename(d, m), Mapped(r, m), k')
    decreases Size(s) + SizeRows(rows), 3, 0
  {
    RenameMatch(d, m, k');
    var temp := d.bindings.head.id;
    TrRenameScrutinee(s, d.bindings.head.value, !AllRecordPatterns(rows), r, k + {temp}, m, k' + {At(m, temp)});
    GroupedCaseApart(Rename(d, m).body, k' + {At(m, temp)});
    TrRenameMatch(MaybeWrapped(rows), temp, d.body.bindings, d.body.body.rows, r, k + {temp}, m, k' + {At(m, temp)});
  }

  lemma {:induction false} GroupedCaseApart(d: Expr, k: set<Id>)
    requires d.Let? && d.body.Case? && Apart(d, k)
    ensures UniqueBindings(d.bindings) && IdsBindings(d.bindings) !! k
    ensures UniqueRows(d.body.rows) && IdsRows(d.body.rows) !! k + IdsBindings(d.bindings)
  {
    CaseApart(d.body, k + IdsBindings(d.bindings));
  }

  lemma {:induction false} TrRenameMatch(rows: List<Row>, temp: Id, helpers: List<Binding>, roots: List<Row>,
                                         r: Renaming, k: set<Id>, m: Renaming, k': set<Id>)
    requires AnyGuarded(rows) && TrMatch(rows, temp, helpers, roots, r, k)
    requires UniqueBindings(RenameBindings(helpers, m)) && IdsBindings(RenameBindings(helpers, m)) !! k'
    requires UniqueRows(RenameRows(roots, m))
             && IdsRows(RenameRows(roots, m)) !! k' + IdsBindings(RenameBindings(helpers, m))
    ensures TrMatch(rows, At(m, temp), RenameBindings(helpers, m), RenameRows(roots, m), Mapped(r, m), k')
    decreases SizeRows(rows), 2, 0
  {
    var helpers' := RenameBindings(helpers, m);
    TrRenameFreshBinders(helpers, k, m, k');
    ValuesApart(helpers', k');
    BoundWithin(helpers');
    TrRenameHelpers(HelperRows(rows), helpers, temp, r, k + BoundIds(helpers), m, k' + BoundIds(helpers'));
    RenameBinders(helpers, m);
    TrRenameRoots(rows, roots, Binders(helpers), false, r, k + BoundIds(helpers), m, k' + BoundIds(helpers'));
  }

  lemma {:induction false} TrRenameRoots(rows: List<Row>, ds: List<Row>, helpers: List<Id>, seen: bool, r: Renaming,
                                         k: set<Id>, m: Renaming, k': set<Id>)
    requires TrRoots(rows, ds, helpers, seen, r, k) && UniqueRows(RenameRows(ds, m)) && IdsRows(RenameRows(ds, m)) !! k'
    ensures TrRoots(rows, RenameRows(ds, m), RenameList(helpers, m), seen, Mapped(r, m), k')
    decreases SizeRows(rows), 0, 0
  {
    match rows
    case Nil =>
    case Cons(row, rest) =>
      var d := ds.head;
      RowApart(RenameRow(d, m), k');
      TrRenamePattern(row.pattern, d.pattern, r, k, m, k');
      RenameGuardedRhs(d.value, m);
      var inner, k2, k2' := BindPattern(row.pattern, d.pattern, r), k + PatternIds(d.pattern),
          k' + PatternIds(RenamePattern(d.pattern, m));
      if IsGuardedRhs(row.value) {
        TrRenameRhs(row.value, d.value, inner, k2, CallNext(helpers), m, k2');
      } else {
        TrRename(row.value, d.value, inner, k2, m, k2');
      }
      var seen' := seen || IsGuardedRhs(row.value);
      TrRenameRoots(rest, ds.tail, if seen' then helpers.tail else helpers, seen', r, k, m, k');
  }

  lemma {:induction false} TrRenameHelpers(later: List<Row>, helpers: List<Binding>, temp: Id, r: Renaming, k: set<Id>,
                                           m: Renaming, k': set<Id>)
    requires TrHelpers(later, helpers, temp, r, k) && EachApart(RenameBindings(helpers, m), k')
    ensures TrHelpers(later, RenameBindings(helpers, m), At(m, temp), Mapped(r, m), k')
    decreases SizeRows(later), 1, Length(later)
  {
    TrRenameHelper(later, helpers.head.value, Length(later), Nil, temp, r, k, m, k');
    match later
    case Nil =>
    case Cons(_, rest) => TrRenameHelpers(rest, helpers.tail, temp, r, k, m, k');
  }

  lemma {:induction false} RenameAppend(xs: List<Id>, x: Id, m: Renaming)
    ensures RenameList(Append(xs, Cons(x, Nil)), m) == Append(RenameList(xs, m), Cons(At(m, x), Nil))
  {
    match xs
    case Nil => assert RenameList(Nil, m) == Nil;
    case Cons(_, rest) => RenameAppend(rest, x, m);
  }

  lemma {:induction false} TrRenameHelper(later: List<Row>, d: Expr, count: nat, next: List<Id>, temp: Id, r: Renaming,
                                          k: set<Id>, m: Renaming, k': set<Id>)
    requires TrHelper(later, d, count, next, temp, r, k) && Apart(Rename(d, m), k')
    ensures TrHelper(later, Rename(d, m), count, RenameList(next, m), At(m, temp), Mapped(r, m), k')
    decreases SizeRows(later), 0, count + 1
  {
    var x := d.parameter;
    if count == 0 {
      TrRenameHelperBody(later, d.body, next, temp, r, k + {x}, m, k' + {At(m, x)});
    } else {
      RenameAppend(next, x, m);
      TrRenameHelper(later, d.body, count - 1, Append(next, Cons(x, Nil)), temp, r, k + {x}, m, k' + {At(m, x)});
    }
  }

  lemma {:induction false} TrRenameHelperBody(later: List<Row>, d: Expr, next: List<Id>, temp: Id, r: Renaming,
                                              k: set<Id>, m: Renaming, k': set<Id>)
    requires TrHelperBody(later, d, next, temp, r, k) && Apart(Rename(d, m), k')
    ensures TrHelperBody(later, Rename(d, m), RenameList(next, m), At(m, temp), Mapped(r, m), k')
    decreases SizeRows(later), 0, 0
  {
    assert Rename(Local(temp), m) == Local(At(m, temp));
    match later
    case Nil =>
    case Cons(row, _) =>
      var first := d.rows.head;
      HelperRowsApart(d, next, m, k');
      TrRenamePattern(row.pattern, first.pattern, r, k, m, k');
      RenameGuardedRhs(first.value, m);
      TrRenameRhs(row.value, first.value, BindPattern(row.pattern, first.pattern, r), k + PatternIds(first.pattern),
                  CallNext(next), m, k' + PatternIds(RenamePattern(first.pattern, m)));
  }

  lemma {:induction false} HelperRowsApart(d: Expr, next: List<Id>, m: Renaming, k: set<Id>)
    requires d.Case? && d.rows.Cons? && next.Cons? && d.rows.tail == Cons(Row(Wildcard, CallHelper(next)), Nil)
    requires Apart(Rename(d, m), k)
    ensures var d' := Rename(d, m);
            && d'.rows == Cons(RenameRow(d.rows.head, m), Cons(Row(Wildcard, CallHelper(RenameList(next, m))), Nil))
    ensures var first := RenameRow(d.rows.head, m);
            && UniquePattern(first.pattern) && PatternIds(first.pattern) !! k
            && Apart(first.value, k + PatternIds(first.pattern))
  {
    RenameCallHelper(next, m);
    var second := Row(Wildcard, CallHelper(next));
    assert RenameRows(Nil, m) == Nil;
    assert RenameRow(second, m) == Row(Wildcard, CallHelper(RenameList(next, m)));
    assert RenameRows(Cons(second, Nil), m) == Cons(RenameRow(second, m), Nil);
    CaseApart(Rename(d, m), k);
    RowsApart(RenameRows(d.rows, m), k);
  }

  // ----- Guarded right-hand sides -----

  lemma {:induction false} TrRenameRhs(e: Expr, d: Expr, r: Renaming, k: set<Id>, fail: Failure, m: Renaming,
                                       k': set<Id>)
    requires TrRhs(e, d, r, k, fail) && Apart(Rename(d, m), k')
    ensures TrRhs(e, Rename(d, m), Mapped(r, m), k', RenameFailure(fail, m))
    decreases Size(e), 2, 0
  {
    match e
    case Guarded(cs) => TrRenameClauses(cs, d, r, k, fail, m, k');
    case Let(bs, b) =>
      LetApart(Rename(d, m), k');
      TrRenameGroup(bs, d.bindings, r, k, m, k');
      TrRenameRhs(b, d.body, BindGroup(bs, d.bindings, r), k + BoundIds(d.bindings), fail, m,
                  k' + BoundIds(RenameBindings(d.bindings, m)));
    case _ => TrRename(e, d, r, k, m, k');
  }

  lemma {:induction false} TrRenameClauses(cs: List<Clause>, d: Expr, r: Renaming, k: set<Id>, fail: Failure,
                                           m: Renaming, k': set<Id>)
    requires TrClauses(cs, d, r, k, fail) && Apart(Rename(d, m), k')
    ensures TrClauses(cs, Rename(d, m), Mapped(r, m), k', RenameFailure(fail, m))
    decreases SizeClauses(cs), 0, 0
  {
    match cs
    case Nil => RenameCode(fail, m);
    case Cons(c, rest) => TrRenameClause(c, rest, d, r, k, fail, m, k');
  }

  lemma {:induction false} TrRenameClause(c: Clause, rest: List<Clause>, d: Expr, r: Renaming, k: set<Id>,
                                          fail: Failure, m: Renaming, k': set<Id>)
    requires TrClause(c, rest, d, r, k, fail) && Apart(Rename(d, m), k')
    ensures TrClause(c, rest, Rename(d, m), Mapped(r, m), k', RenameFailure(fail, m))
    decreases SizeBindings(c.wheres) + SizeGuards(c.guards) + Size(c.value) + SizeClauses(rest), 4, 0
  {
    if c.wheres.Nil? {
      TrRenameGuards(c.guards, c.value, rest, d, r, r, k, fail, m, k');
    } else {
      LetApart(Rename(d, m), k');
      TrRenameGroup(c.wheres, d.bindings, r, k, m, k');
      TrRenameGuards(c.guards, c.value, rest, d.body, BindGroup(c.wheres, d.bindings, r), r, k + BoundIds(d.bindings),
                     fail, m,
                     k' + BoundIds(RenameBindings(d.bindings, m)));
    }
  }

  lemma {:induction false} TrRenameGuards(gs: List<Guard>, value: Expr, rest: List<Clause>, d: Expr, r: Renaming,
                                          outer: Renaming, k: set<Id>, fail: Failure, m: Renaming, k': set<Id>)
    requires TrGuards(gs, value, rest, d, r, outer, k, fail) && Apart(Rename(d, m), k')
    ensures TrGuards(gs, value, rest, Rename(d, m), Mapped(r, m), Mapped(outer, m), k', RenameFailure(fail, m))
    decreases SizeGuards(gs) + Size(value) + SizeClauses(rest), 3, 1
  {
    if gs.Nil? {
      TrRename(value, d, r, k, m, k');
    } else if gs.head.Test? {
      TrRenameTest(gs, value, rest, d, r, outer, k, fail, m, k');
    } else if gs.head.Match? {
      TrRenamePatternGuard(gs, value, rest, d, r, outer, k, fail, m, k');
    } else {
      TrRenameBindingsGuard(gs, value, rest, d, r, outer, k, fail, m, k');
    }
  }

  lemma {:induction false} TrRenameTest(gs: List<Guard>, value: Expr, rest: List<Clause>, d: Expr, r: Renaming,
                                        outer: Renaming, k: set<Id>, fail: Failure, m: Renaming, k': set<Id>)
    requires gs.Cons? && gs.head.Test? && TrGuards(gs, value, rest, d, r, outer, k, fail) && Apart(Rename(d, m), k')
    ensures TrGuards(gs, value, rest, Rename(d, m), Mapped(r, m), Mapped(outer, m), k', RenameFailure(fail, m))
    decreases SizeGuards(gs) + Size(value) + SizeClauses(rest), 3, 0
  {
    assert SizeGuards(gs) == 1 + SizeGuard(gs.head) + SizeGuards(gs.tail);
    TrRename(gs.head.condition, d.condition, r, k, m, k');
    TrRenameGuards(gs.tail, value, rest, d.consequent, r, outer, k, fail, m, k');
    TrRenameClauses(rest, d.alternative, outer, k, fail, m, k');
  }

  lemma {:induction false} TrRenameBindingsGuard(gs: List<Guard>, value: Expr, rest: List<Clause>, d: Expr, r: Renaming,
                                                 outer: Renaming, k: set<Id>, fail: Failure, m: Renaming, k': set<Id>)
    requires gs.Cons? && gs.head.Bindings? && TrGuards(gs, value, rest, d, r, outer, k, fail) && Apart(Rename(d, m), k')
    ensures TrGuards(gs, value, rest, Rename(d, m), Mapped(r, m), Mapped(outer, m), k', RenameFailure(fail, m))
    decreases SizeGuards(gs) + Size(value) + SizeClauses(rest), 3, 0
  {
    assert SizeGuards(gs) == 1 + SizeGuard(gs.head) + SizeGuards(gs.tail);
    var bs := gs.head.bindings;
    LetApart(Rename(d, m), k');
    TrRenameGroup(bs, d.bindings, r, k, m, k');
    TrRenameGuards(gs.tail, value, rest, d.body, BindGroup(bs, d.bindings, r), outer, k + BoundIds(d.bindings), fail, m,
                   k' + BoundIds(RenameBindings(d.bindings, m)));
  }

  lemma {:induction false} TwoRowsApart(d: Expr, m: Renaming, k: set<Id>)
    requires IsTwoRows(d) && Apart(Rename(d, m), k)
    ensures var d' := Rename(d, m);
            && IsTwoRows(d') && d'.scrutinee == Rename(d.scrutinee, m) && d'.rows.head == RenameRow(d.rows.head, m)
            && d'.rows.tail.head.value == Rename(d.rows.tail.head.value, m)
            && Apart(d'.scrutinee, k) && Apart(d'.rows.tail.head.value, k)
            && UniquePattern(d'.rows.head.pattern) && PatternIds(d'.rows.head.pattern) !! k
            && Apart(d'.rows.head.value, k + PatternIds(d'.rows.head.pattern))
  {
    var second := d.rows.tail.head;
    assert d.rows == Cons(d.rows.head, Cons(second, Nil));
    assert RenameRows(Nil, m) == Nil && IdsRows(Nil) == {};
    assert RenameRows(Cons(second, Nil), m) == Cons(RenameRow(second, m), Nil);
    RenameGuardedRhs(d.rows.head.value, m);
    RenameGuardedRhs(second.value, m);
    CaseApart(Rename(d, m), k);
    RowsApart(RenameRows(d.rows, m), k);
    RowsApart(RenameRows(d.rows.tail, m), k);
    assert Rename(d, m).rows == Cons(RenameRow(d.rows.head, m), Cons(RenameRow(second, m), Nil));
    assert PatternIds(Wildcard) == {};
    assert k + PatternIds(Wildcard) == k;
  }

  lemma {:induction false} TrRenamePatternGuard(gs: List<Guard>, value: Expr, rest: List<Clause>, d: Expr, r: Renaming,
                                                outer: Renaming, k: set<Id>, fail: Failure, m: Renaming, k': set<Id>)
    requires gs.Cons? && gs.head.Match? && TrGuards(gs, value, rest, d, r, outer, k, fail) && Apart(Rename(d, m), k')
    ensures TrGuards(gs, value, rest, Rename(d, m), Mapped(r, m), Mapped(outer, m), k', RenameFailure(fail, m))
    decreases SizeGuards(gs) + Size(value) + SizeClauses(rest), 3, 0
  {
    PatternGuardParts(gs, value, rest, d, r, outer, k, fail);
    TrRenamePatternParts(gs, value, rest, d, r, outer, k, fail, m, k');
    PatternGuardParts(gs, value, rest, Rename(d, m), Mapped(r, m), Mapped(outer, m), k', RenameFailure(fail, m));
  }

  lemma {:induction false} TrRenamePatternParts(gs: List<Guard>, value: Expr, rest: List<Clause>, d: Expr, r: Renaming,
                                                outer: Renaming, k: set<Id>, fail: Failure, m: Renaming, k': set<Id>)
    requires gs.Cons? && gs.head.Match?
    requires PatternParts(gs, value, rest, d, r, outer, k, fail) && Apart(Rename(d, m), k')
    ensures PatternParts(gs, value, rest, Rename(d, m), Mapped(r, m), Mapped(outer, m), k', RenameFailure(fail, m))
    decreases SizeGuards(gs) + Size(value) + SizeClauses(rest), 2, 0
  {
    var q, first := PatternForScrutinee(gs.head.pattern), d.rows.head;
    TwoRowsApart(d, m, k');
    TrRenameMatched(gs, d, r, k, m, k');
    TrRenameSuccess(gs, value, rest, first, BindPattern(q, first.pattern, r), outer, k, fail, m, k');
    TrRenameClauses(rest, d.rows.tail.head.value, outer, k, fail, m, k');
  }

  /** The scrutinee and the pattern. */
  lemma {:induction false} TrRenameMatched(gs: List<Guard>, d: Expr, r: Renaming, k: set<Id>, m: Renaming, k': set<Id>)
    requires gs.Cons? && gs.head.Match? && IsTwoRows(d) && Apart(Rename(d, m), k')
    requires TrScrutinee(gs.head.value, d.scrutinee, !IsRecordPattern(gs.head.pattern), r, k)
    requires TrPattern(PatternForScrutinee(gs.head.pattern), d.rows.head.pattern, k)
    ensures var q := PatternForScrutinee(gs.head.pattern);
            var p, p' := d.rows.head.pattern, RenamePattern(d.rows.head.pattern, m);
            && TrScrutinee(gs.head.value, Rename(d.scrutinee, m), !IsRecordPattern(gs.head.pattern), Mapped(r, m), k')
            && TrPattern(q, p', k') && BindPattern(q, p', Mapped(r, m)) == Mapped(BindPattern(q, p, r), m)
    decreases SizeGuards(gs), 1, 0
  {
    assert SizeGuards(gs) == 1 + SizeGuard(gs.head) + SizeGuards(gs.tail);
    TwoRowsApart(d, m, k');
    TrRenameScrutinee(gs.head.value, d.scrutinee, !IsRecordPattern(gs.head.pattern), r, k, m, k');
    TrRenamePattern(PatternForScrutinee(gs.head.pattern), d.rows.head.pattern, r, k, m, k');
  }

  /** The later guards, under what the pattern binds. */
  lemma {:induction false} TrRenameSuccess(gs: List<Guard>, value: Expr, rest: List<Clause>, first: Row,
                                           inner: Renaming, outer: Renaming, k: set<Id>, fail: Failure, m: Renaming,
                                           k': set<Id>)
    requires gs.Cons?
    requires TrGuards(gs.tail, value, rest, first.value, inner, outer, k + PatternIds(first.pattern), fail)
    requires Apart(Rename(first.value, m), k' + PatternIds(RenamePattern(first.pattern, m)))
    ensures TrGuards(gs.tail, value, rest, Rename(first.value, m), Mapped(inner, m), Mapped(outer, m),
                     k' + PatternIds(RenamePattern(first.pattern, m)), RenameFailure(fail, m))
    decreases SizeGuards(gs) + Size(value) + SizeClauses(rest), 1, 0
  {
    assert SizeGuards(gs) == 1 + SizeGuard(gs.head) + SizeGuards(gs.tail);
    TrRenameGuards(gs.tail, value, rest, first.value, inner, outer, k + PatternIds(first.pattern), fail, m,
                   k' + PatternIds(RenamePattern(first.pattern, m)));
  }

  /** The parts of a translated pattern guard: scrutinee, pattern, success and failure. */
  ghost predicate PatternParts(gs: List<Guard>, value: Expr, rest: List<Clause>, d: Expr, r: Renaming, outer: Renaming,
                               k: set<Id>, fail: Failure)
    requires gs.Cons? && gs.head.Match?
  {
    && IsTwoRows(d) && TrScrutinee(gs.head.value, d.scrutinee, !IsRecordPattern(gs.head.pattern), r, k)
    && TrPattern(PatternForScrutinee(gs.head.pattern), d.rows.head.pattern, k)
    && TrGuards(gs.tail, value, rest, d.rows.head.value,
                BindPattern(PatternForScrutinee(gs.head.pattern), d.rows.head.pattern, r), outer,
                k + PatternIds(d.rows.head.pattern), fail)
    && TrClauses(rest, d.rows.tail.head.value, outer, k, fail)
  }

  lemma {:induction false} PatternGuardParts(gs: List<Guard>, value: Expr, rest: List<Clause>, d: Expr, r: Renaming,
                                             outer: Renaming, k: set<Id>, fail: Failure)
    requires gs.Cons? && gs.head.Match?
    ensures TrGuards(gs, value, rest, d, r, outer, k, fail) <==> PatternParts(gs, value, rest, d, r, outer, k, fail)
  {
  }
}
