/** Alpha-renaming of duplicated code with ids from one counter
    (crates/psrs-desugar/src/alpha.rs).

    A clone collects the ids that the expression binds, draws a new id for each of them and renames
    binders and references alike; ids that are not bound inside stay. The lemmas say what renaming
    does to the properties the lowering relies on: size, bound ids, unique binders, scope. They hold for
    any renaming, and are applied to the injective ones that `Allocate` returns.
 */
module Alpha {
  import opened Lists
  import opened Hir

  type Renaming = map<Id, Id>

  function At(m: Renaming, x: Id): Id {
    if x in m then m[x] else x
  }

  ghost function Image(m: Renaming, xs: set<Id>): set<Id> {
    set x | x in xs :: At(m, x)
  }

  // ----- Renaming every id, bound or referenced -----

  function RenamePattern(p: Pattern, m: Renaming): Pattern {
    match p
    case Wildcard => p
    case Bind(x) => Bind(At(m, x))
    case Named(x, q) => Named(At(m, x), RenamePattern(q, m))
    case Shaped(c, parts) => Shaped(c, RenamePatterns(parts, m))
  }

  function RenamePatterns(ps: List<Pattern>, m: Renaming): List<Pattern> {
    match ps
    case Nil => Nil
    case Cons(p, rest) => Cons(RenamePattern(p, m), RenamePatterns(rest, m))
  }

  function Rename(e: Expr, m: Renaming): Expr {
    match e
    case Local(x) => Local(At(m, x))
    case Global(_) => e
    case Constant(_) => e
    case Compound(c, parts) => Compound(c, RenameParts(parts, m))
    case Apply(f, a) => Apply(Rename(f, m), Rename(a, m))
    case Operator(s, l, r) => Operator(s, Rename(l, m), Rename(r, m))
    case Negate(f, a) => Negate(Rename(f, m), Rename(a, m))
    case Lambda(x, b) => Lambda(At(m, x), Rename(b, m))
    case Let(bs, b) => Let(RenameBindings(bs, m), Rename(b, m))
    case If(c, t, f) => If(Rename(c, m), Rename(t, m), Rename(f, m))
    case Case(s, rows) => Case(Rename(s, m), RenameRows(rows, m))
    case Guarded(cs) => Guarded(RenameClauses(cs, m))
  }

  function RenameParts(es: List<Expr>, m: Renaming): List<Expr> {
    match es
    case Nil => Nil
    case Cons(e, rest) => Cons(Rename(e, m), RenameParts(rest, m))
  }

  function RenameBindings(bs: List<Binding>, m: Renaming): List<Binding> {
    match bs
    case Nil => Nil
    case Cons(b, rest) => Cons(Binding(At(m, b.id), Rename(b.value, m)), RenameBindings(rest, m))
  }

  function RenameRow(r: Row, m: Renaming): Row {
    Row(RenamePattern(r.pattern, m), Rename(r.value, m))
  }

  function RenameRows(rows: List<Row>, m: Renaming): List<Row> {
    match rows
    case Nil => Nil
    case Cons(r, rest) => Cons(RenameRow(r, m), RenameRows(rest, m))
  }

  function RenameClauses(cs: List<Clause>, m: Renaming): List<Clause> {
    match cs
    case Nil => Nil
    case Cons(c, rest) =>
      Cons(Clause(RenameBindings(c.wheres, m), RenameGuards(c.guards, m), Rename(c.value, m)), RenameClauses(rest, m))
  }

  function RenameGuards(gs: List<Guard>, m: Renaming): List<Guard> {
    match gs
    case Nil => Nil
    case Cons(g, rest) => Cons(RenameGuard(g, m), RenameGuards(rest, m))
  }

  function RenameGuard(g: Guard, m: Renaming): Guard {
    match g
    case Test(c) => Test(Rename(c, m))
    case Match(p, v) => Match(RenamePattern(p, m), Rename(v, m))
    case Bindings(bs) => Bindings(RenameBindings(bs, m))
  }

  /** Renaming changes no shape. */
  lemma {:induction false} RenameSizes(e: Expr, m: Renaming)
    ensures Size(Rename(e, m)) == Size(e) && Sugar(Rename(e, m)) == Sugar(e)
    decreases e, 1
  {
    match e
    case Compound(_, parts) => RenameSizesParts(parts, m);
    case Apply(f, a) => RenameSizes(f, m); RenameSizes(a, m);
    case Operator(_, l, r) => RenameSizes(l, m); RenameSizes(r, m);
    case Negate(f, a) => RenameSizes(f, m); RenameSizes(a, m);
    case Lambda(_, b) => RenameSizes(b, m);
    case Guarded(cs) => RenameSizesClauses(cs, m);
    case _ => RenameSizesBlock(e, m);
  }

  lemma {:induction false} RenameSizesBlock(e: Expr, m: Renaming)
    requires e.Let? || e.If? || e.Case? || e.Local? || e.Global? || e.Constant?
    ensures Size(Rename(e, m)) == Size(e) && Sugar(Rename(e, m)) == Sugar(e)
    decreases e, 0
  {
    match e
    case Let(bs, b) => RenameSizesBindings(bs, m); RenameSizes(b, m);
    case If(c, t, f) => RenameSizes(c, m); RenameSizes(t, m); RenameSizes(f, m);
    case Case(s, rows) => RenameSizes(s, m); RenameSizesRows(rows, m);
    case _ =>
  }

  lemma {:induction false} RenameSizesParts(es: List<Expr>, m: Renaming)
    ensures SizeParts(RenameParts(es, m)) == SizeParts(es) && SugarParts(RenameParts(es, m)) == SugarParts(es)
  {
    match es
    case Nil =>
    case Cons(e, rest) => RenameSizes(e, m); RenameSizesParts(rest, m);
  }

  lemma {:induction false} RenameSizesBindings(bs: List<Binding>, m: Renaming)
    ensures SizeBindings(RenameBindings(bs, m)) == SizeBindings(bs)
            && SugarBindings(RenameBindings(bs, m)) == SugarBindings(bs)
  {
    match bs
    case Nil =>
    case Cons(b, rest) => RenameSizes(b.value, m); RenameSizesBindings(rest, m);
  }

  lemma {:induction false} RenameSizesRows(rows: List<Row>, m: Renaming)
    ensures SizeRows(RenameRows(rows, m)) == SizeRows(rows) && SugarRows(RenameRows(rows, m)) == SugarRows(rows)
  {
    match rows
    case Nil =>
    case Cons(r, rest) => RenameSizes(r.value, m); RenameSizesRows(rest, m);
  }

  lemma {:induction false} RenameSizesClauses(cs: List<Clause>, m: Renaming)
    ensures SizeClauses(RenameClauses(cs, m)) == SizeClauses(cs)
            && SugarClauses(RenameClauses(cs, m)) == SugarClauses(cs)
  {
    match cs
    case Nil =>
    case Cons(c, rest) =>
      RenameSizesBindings(c.wheres, m); RenameSizesGuards(c.guards, m);
      RenameSizes(c.value, m); RenameSizesClauses(rest, m);
  }

  lemma {:induction false} RenameSizesGuards(gs: List<Guard>, m: Renaming)
    ensures SizeGuards(RenameGuards(gs, m)) == SizeGuards(gs) && SugarGuards(RenameGuards(gs, m)) == SugarGuards(gs)
  {
    match gs
    case Nil =>
    case Cons(g, rest) => RenameSizesGuard(g, m); RenameSizesGuards(rest, m);
  }

  lemma {:induction false} RenameSizesGuard(g: Guard, m: Renaming)
    ensures SizeGuard(RenameGuard(g, m)) == SizeGuard(g) && SugarGuard(RenameGuard(g, m)) == SugarGuard(g)
  {
    match g
    case Test(c) => RenameSizes(c, m);
    case Match(_, v) => RenameSizes(v, m);
    case Bindings(bs) => RenameSizesBindings(bs, m);
  }

  // ----- Fresh ids -----

  function SmallestFrom(xs: set<Id>, i: Id, ghost witness_: Id): (x: Id)
    requires witness_ in xs && i <= witness_ && forall y <- xs :: i <= y
    ensures x in xs && forall y <- xs :: x <= y
    decreases witness_ - i
  {
    if i in xs then i else SmallestFrom(xs, i + 1, witness_)
  }

  function Smallest(xs: set<Id>): (x: Id)
    requires xs != {}
    ensures x in xs && forall y <- xs :: x <= y
  {
    ghost var w :| w in xs;
    SmallestFrom(xs, 0, w)
  }

  ghost predicate Injective(m: Renaming) {
    forall x: Id :: Alone(m, x)
  }

  /** No other id is renamed to what `x` is renamed to. */
  ghost predicate Alone(m: Renaming, x: Id) {
    x in m ==> forall y <- m :: m[y] == m[x] ==> y == x
  }

  /** A lowered piece and the counter after it. */
  datatype Out<T> = Out(value: T, next: Id)

  /** Numbers the ids in ascending order from `n` on. */
  function Allocate(ids: set<Id>, n: Id): (r: Out<Renaming>)
    ensures r.next >= n && r.value.Keys == ids && Injective(r.value)
    ensures forall x <- r.value :: n <= r.value[x] < r.next
    decreases |ids|, 1
  {
    AllocateNext(ids, n)
  }

  function AllocateNext(ids: set<Id>, n: Id): (r: Out<Renaming>)
    ensures r.next >= n && r.value.Keys == ids && Injective(r.value)
    ensures forall x <- r.value :: n <= r.value[x] < r.next
    decreases |ids|, 0
  {
    if ids == {} then Out(map[], n)
    else
      var x := Smallest(ids);
      var rest := Allocate(ids - {x}, n + 1);
      AloneWith(rest.value, x, n);
      Out(rest.value[x := n], rest.next)
  }

  lemma {:induction false} AloneWith(m: Renaming, x: Id, n: Id)
    requires Injective(m) && x !in m && forall y <- m :: n < m[y]
    ensures Injective(m[x := n])
  {
    var longer := m[x := n];
    forall y: Id ensures Alone(longer, y) {
      assert Alone(m, y);
    }
  }

  /** One id is used up per binder, and none when there is no binder. */
  lemma {:induction false} AllocateCount(ids: set<Id>, n: Id)
    ensures Allocate(ids, n).next == n + |ids|
    decreases |ids|
  {
    if ids != {} {
      var x := Smallest(ids);
      AllocateCount(ids - {x}, n + 1);
      assert AllocateNext(ids, n).next == Allocate(ids - {x}, n + 1).next;
    } else {
      assert AllocateNext(ids, n).next == n;
    }
  }

  function CloneExpression(e: Expr, n: Id): (r: Out<Expr>)
    ensures r.next >= n
  {
    var renaming := Allocate(Ids(e), n);
    Out(Rename(e, renaming.value), renaming.next)
  }

  function CloneRow(r: Row, n: Id): (c: Out<Row>)
    ensures Size(c.value.value) == Size(r.value) && c.next >= n
  {
    var renaming := Allocate(IdsRow(r), n);
    RenameSizes(r.value, renaming.value);
    Out(RenameRow(r, renaming.value), renaming.next)
  }

  // ----- Renaming with the empty map -----

  lemma {:induction false} RenameNothingPattern(p: Pattern, m: Renaming)
    requires m == map[]
    ensures RenamePattern(p, m) == p
  {
    match p
    case Wildcard =>
    case Bind(_) =>
    case Named(_, q) => RenameNothingPattern(q, m);
    case Shaped(_, parts) => RenameNothingPatterns(parts, m);
  }

  lemma {:induction false} RenameNothingPatterns(ps: List<Pattern>, m: Renaming)
    requires m == map[]
    ensures RenamePatterns(ps, m) == ps
  {
    match ps
    case Nil =>
    case Cons(p, rest) => RenameNothingPattern(p, m); RenameNothingPatterns(rest, m);
  }

  /** Renaming nothing changes nothing. */
  lemma {:induction false} RenameNothing(e: Expr, m: Renaming)
    requires m == map[]
    ensures Rename(e, m) == e
  {
    match e
    case Compound(_, parts) => RenameNothingParts(parts, m);
    case Apply(f, a) => RenameNothing(f, m); RenameNothing(a, m);
    case Operator(_, l, r) => RenameNothing(l, m); RenameNothing(r, m);
    case Negate(f, a) => RenameNothing(f, m); RenameNothing(a, m);
    case Lambda(_, b) => RenameNothing(b, m);
    case Let(bs, b) => RenameNothingBindings(bs, m); RenameNothing(b, m);
    case If(c, t, f) => RenameNothing(c, m); RenameNothing(t, m); RenameNothing(f, m);
    case Case(s, rows) => RenameNothing(s, m); RenameNothingRows(rows, m);
    case Guarded(cs) => RenameNothingClauses(cs, m);
    case _ =>
  }

  lemma {:induction false} RenameNothingParts(es: List<Expr>, m: Renaming)
    requires m == map[]
    ensures RenameParts(es, m) == es
  {
    match es
    case Nil =>
    case Cons(e, rest) => RenameNothing(e, m); RenameNothingParts(rest, m);
  }

  lemma {:induction false} RenameNothingBindings(bs: List<Binding>, m: Renaming)
    requires m == map[]
    ensures RenameBindings(bs, m) == bs
  {
    match bs
    case Nil =>
    case Cons(b, rest) => RenameNothing(b.value, m); RenameNothingBindings(rest, m);
  }

  lemma {:induction false} RenameNothingRow(r: Row, m: Renaming)
    requires m == map[]
    ensures RenameRow(r, m) == r
  {
    RenameNothingPattern(r.pattern, m);
    RenameNothing(r.value, m);
  }

  lemma {:induction false} RenameNothingRows(rows: List<Row>, m: Renaming)
    requires m == map[]
    ensures RenameRows(rows, m) == rows
  {
    match rows
    case Nil =>
    case Cons(r, rest) => RenameNothingRow(r, m); RenameNothingRows(rest, m);
  }

  lemma {:induction false} RenameNothingClauses(cs: List<Clause>, m: Renaming)
    requires m == map[]
    ensures RenameClauses(cs, m) == cs
  {
    match cs
    case Nil =>
    case Cons(c, rest) =>
      RenameNothingBindings(c.wheres, m); RenameNothingGuards(c.guards, m);
      RenameNothing(c.value, m); RenameNothingClauses(rest, m);
  }

  lemma {:induction false} RenameNothingGuards(gs: List<Guard>, m: Renaming)
    requires m == map[]
    ensures RenameGuards(gs, m) == gs
  {
    match gs
    case Nil =>
    case Cons(g, rest) => RenameNothingGuard(g, m); RenameNothingGuards(rest, m);
  }

  lemma {:induction false} RenameNothingGuard(g: Guard, m: Renaming)
    requires m == map[]
    ensures RenameGuard(g, m) == g
  {
    match g
    case Test(c) => RenameNothing(c, m);
    case Match(p, v) => RenameNothingPattern(p, m); RenameNothing(v, m);
    case Bindings(bs) => RenameNothingBindings(bs, m);
  }

  // ----- Composition -----

  function Compose(outer: Renaming, inner: Renaming): (m: Renaming)
    ensures forall x :: At(m, x) == At(outer, At(inner, x))
  {
    map x | x in inner.Keys + outer.Keys :: At(outer, At(inner, x))
  }

  lemma {:induction false} RenameTwicePattern(p: Pattern, m: Renaming, n: Renaming)
    ensures RenamePattern(RenamePattern(p, m), n) == RenamePattern(p, Compose(n, m))
  {
    match p
    case Wildcard =>
    case Bind(_) =>
    case Named(_, q) => RenameTwicePattern(q, m, n);
    case Shaped(_, parts) => RenameTwicePatterns(parts, m, n);
  }

  lemma {:induction false} RenameTwicePatterns(ps: List<Pattern>, m: Renaming, n: Renaming)
    ensures RenamePatterns(RenamePatterns(ps, m), n) == RenamePatterns(ps, Compose(n, m))
  {
    match ps
    case Nil =>
    case Cons(p, rest) => RenameTwicePattern(p, m, n); RenameTwicePatterns(rest, m, n);
  }

  /** Renaming twice is renaming once with the composition. */
  lemma {:induction false} RenameTwice(e: Expr, m: Renaming, n: Renaming)
    ensures Rename(Rename(e, m), n) == Rename(e, Compose(n, m))
    decreases e, 1
  {
    match e
    case Compound(_, parts) => RenameTwiceParts(parts, m, n);
    case Apply(f, a) => RenameTwice(f, m, n); RenameTwice(a, m, n);
    case Operator(_, l, r) => RenameTwice(l, m, n); RenameTwice(r, m, n);
    case Negate(f, a) => RenameTwice(f, m, n); RenameTwice(a, m, n);
    case Lambda(_, b) => RenameTwice(b, m, n);
    case Guarded(cs) => RenameTwiceClauses(cs, m, n);
    case _ => RenameTwiceBlock(e, m, n);
  }

  lemma {:induction false} RenameTwiceBlock(e: Expr, m: Renaming, n: Renaming)
    requires e.Let? || e.If? || e.Case? || e.Local? || e.Global? || e.Constant?
    ensures Rename(Rename(e, m), n) == Rename(e, Compose(n, m))
    decreases e, 0
  {
    match e
    case Let(bs, b) => RenameTwiceBindings(bs, m, n); RenameTwice(b, m, n);
    case If(c, t, f) => RenameTwice(c, m, n); RenameTwice(t, m, n); RenameTwice(f, m, n);
    case Case(s, rows) => RenameTwice(s, m, n); RenameTwiceRows(rows, m, n);
    case _ =>
  }

  lemma {:induction false} RenameTwiceParts(es: List<Expr>, m: Renaming, n: Renaming)
    ensures RenameParts(RenameParts(es, m), n) == RenameParts(es, Compose(n, m))
  {
    match es
    case Nil =>
    case Cons(e, rest) => RenameTwice(e, m, n); RenameTwiceParts(rest, m, n);
  }

  lemma {:induction false} RenameTwiceBindings(bs: List<Binding>, m: Renaming, n: Renaming)
    ensures RenameBindings(RenameBindings(bs, m), n) == RenameBindings(bs, Compose(n, m))
  {
    match bs
    case Nil =>
    case Cons(b, rest) => RenameTwice(b.value, m, n); RenameTwiceBindings(rest, m, n);
  }

  lemma {:induction false} RenameTwiceRow(r: Row, m: Renaming, n: Renaming)
    ensures RenameRow(RenameRow(r, m), n) == RenameRow(r, Compose(n, m))
  {
    RenameTwicePattern(r.pattern, m, n);
    RenameTwice(r.value, m, n);
  }

  lemma {:induction false} RenameTwiceRows(rows: List<Row>, m: Renaming, n: Renaming)
    ensures RenameRows(RenameRows(rows, m), n) == RenameRows(rows, Compose(n, m))
  {
    match rows
    case Nil =>
    case Cons(r, rest) => RenameTwiceRow(r, m, n); RenameTwiceRows(rest, m, n);
  }

  lemma {:induction false} RenameTwiceClauses(cs: List<Clause>, m: Renaming, n: Renaming)
    ensures RenameClauses(RenameClauses(cs, m), n) == RenameClauses(cs, Compose(n, m))
  {
    match cs
    case Nil =>
    case Cons(c, rest) =>
      RenameTwiceBindings(c.wheres, m, n); RenameTwiceGuards(c.guards, m, n);
      RenameTwice(c.value, m, n); RenameTwiceClauses(rest, m, n);
  }

  lemma {:induction false} RenameTwiceGuards(gs: List<Guard>, m: Renaming, n: Renaming)
    ensures RenameGuards(RenameGuards(gs, m), n) == RenameGuards(gs, Compose(n, m))
  {
    match gs
    case Nil =>
    case Cons(g, rest) => RenameTwiceGuard(g, m, n); RenameTwiceGuards(rest, m, n);
  }

  lemma {:induction false} RenameTwiceGuard(g: Guard, m: Renaming, n: Renaming)
    ensures RenameGuard(RenameGuard(g, m), n) == RenameGuard(g, Compose(n, m))
  {
    match g
    case Test(c) => RenameTwice(c, m, n);
    case Match(p, v) => RenameTwicePattern(p, m, n); RenameTwice(v, m, n);
    case Bindings(bs) => RenameTwiceBindings(bs, m, n);
  }

  // ----- Bound ids of a renamed tree -----

  lemma {:induction false} RenameIdsPattern(p: Pattern, m: Renaming)
    ensures PatternIds(RenamePattern(p, m)) == Image(m, PatternIds(p))
  {
    match p
    case Wildcard =>
    case Bind(_) =>
    case Named(_, q) => RenameIdsPattern(q, m);
    case Shaped(_, parts) => RenameIdsPatterns(parts, m);
  }

  lemma {:induction false} RenameIdsPatterns(ps: List<Pattern>, m: Renaming)
    ensures PatternIdsAll(RenamePatterns(ps, m)) == Image(m, PatternIdsAll(ps))
  {
    match ps
    case Nil =>
    case Cons(p, rest) => RenameIdsPattern(p, m); RenameIdsPatterns(rest, m);
  }

  /** The binders of a renamed tree are the renamed binders. */
  lemma {:induction false} RenameIds(e: Expr, m: Renaming)
    ensures Ids(Rename(e, m)) == Image(m, Ids(e))
  {
    match e
    case Compound(_, parts) => RenameIdsParts(parts, m);
    case Apply(f, a) => RenameIds(f, m); RenameIds(a, m);
    case Operator(_, l, r) => RenameIds(l, m); RenameIds(r, m);
    case Negate(f, a) => RenameIds(f, m); RenameIds(a, m);
    case Lambda(_, b) => RenameIds(b, m);
    case Let(bs, b) => RenameIdsBindings(bs, m); RenameIds(b, m);
    case If(c, t, f) => RenameIds(c, m); RenameIds(t, m); RenameIds(f, m);
    case Case(s, rows) => RenameIds(s, m); RenameIdsRows(rows, m);
    case Guarded(cs) => RenameIdsClauses(cs, m);
    case _ =>
  }

  lemma {:induction false} RenameIdsParts(es: List<Expr>, m: Renaming)
    ensures IdsParts(RenameParts(es, m)) == Image(m, IdsParts(es))
  {
    match es
    case Nil =>
    case Cons(e, rest) => RenameIds(e, m); RenameIdsParts(rest, m);
  }

  lemma {:induction false} RenameIdsBindings(bs: List<Binding>, m: Renaming)
    ensures IdsBindings(RenameBindings(bs, m)) == Image(m, IdsBindings(bs))
  {
    match bs
    case Nil =>
    case Cons(b, rest) => RenameIds(b.value, m); RenameIdsBindings(rest, m);
  }

  lemma {:induction false} RenameIdsRow(r: Row, m: Renaming)
    ensures IdsRow(RenameRow(r, m)) == Image(m, IdsRow(r))
  {
    RenameIdsPattern(r.pattern, m);
    RenameIds(r.value, m);
  }

  lemma {:induction false} RenameIdsRows(rows: List<Row>, m: Renaming)
    ensures IdsRows(RenameRows(rows, m)) == Image(m, IdsRows(rows))
  {
    match rows
    case Nil =>
    case Cons(r, rest) => RenameIdsRow(r, m); RenameIdsRows(rest, m);
  }

  lemma {:induction false} RenameIdsClauses(cs: List<Clause>, m: Renaming)
    ensures IdsClauses(RenameClauses(cs, m)) == Image(m, IdsClauses(cs))
  {
    match cs
    case Nil =>
    case Cons(c, rest) =>
      RenameIdsBindings(c.wheres, m); RenameIdsGuards(c.guards, m);
      RenameIds(c.value, m); RenameIdsClauses(rest, m);
  }

  lemma {:induction false} RenameIdsGuards(gs: List<Guard>, m: Renaming)
    ensures IdsGuards(RenameGuards(gs, m)) == Image(m, IdsGuards(gs))
  {
    match gs
    case Nil =>
    case Cons(g, rest) => RenameIdsGuard(g, m); RenameIdsGuards(rest, m);
  }

  lemma {:induction false} RenameIdsGuard(g: Guard, m: Renaming)
    ensures IdsGuard(RenameGuard(g, m)) == Image(m, IdsGuard(g))
  {
    match g
    case Test(c) => RenameIds(c, m);
    case Match(p, v) => RenameIdsPattern(p, m); RenameIds(v, m);
    case Bindings(bs) => RenameIdsBindings(bs, m);
  }

  // ----- A one-to-one renaming keeps binders unique -----

  ghost predicate OneToOne(m: Renaming, xs: set<Id>) {
    forall x, y :: x in xs && y in xs && At(m, x) == At(m, y) ==> x == y
  }

  lemma {:induction false} InjectiveOneToOne(m: Renaming, xs: set<Id>)
    requires Injective(m) && xs <= m.Keys
    ensures OneToOne(m, xs)
  {
    forall x, y | x in xs && y in xs && At(m, x) == At(m, y) ensures x == y {
      assert Alone(m, x);
    }
  }

  lemma {:induction false} ImageDisjoint(m: Renaming, xs: set<Id>, ys: set<Id>)
    requires OneToOne(m, xs + ys) && xs !! ys
    ensures Image(m, xs) !! Image(m, ys)
  {
  }

  lemma {:induction false} RenameUniquePattern(p: Pattern, m: Renaming)
    requires UniquePattern(p) && OneToOne(m, PatternIds(p))
    ensures UniquePattern(RenamePattern(p, m))
    decreases p
  {
    match p
    case Wildcard =>
    case Bind(_) =>
    case Named(x, q) => RenameUniquePattern(q, m); RenameIdsPattern(q, m);
    case Shaped(_, parts) => RenameUniquePatterns(parts, m); RenameIdsPatterns(parts, m);
  }

  lemma {:induction false} RenameUniquePatterns(ps: List<Pattern>, m: Renaming)
    requires UniquePatterns(ps) && OneToOne(m, PatternIdsAll(ps))
    ensures UniquePatterns(RenamePatterns(ps, m))
    decreases ps
  {
    match ps
    case Nil =>
    case Cons(p, rest) =>
      RenameUniquePattern(p, m); RenameIdsPattern(p, m);
      RenameUniquePatterns(rest, m); RenameIdsPatterns(rest, m);
      ImageDisjoint(m, PatternIds(p), PatternIdsAll(rest));
  }

  /** A renaming that keeps the binders apart keeps them unique. */
  lemma {:induction false} RenameUnique(e: Expr, m: Renaming)
    requires Unique(e) && OneToOne(m, Ids(e))
    ensures Unique(Rename(e, m))
    decreases Size(e), 1
  {
    match e
    case Compound(_, parts) => RenameUniqueParts(parts, m); RenameIdsParts(parts, m);
    case Apply(f, a) => RenameUniquePair(f, a, m);
    case Operator(_, l, r) => RenameUniquePair(l, r, m);
    case Negate(f, a) => RenameUniquePair(f, a, m);
    case Guarded(cs) => RenameUniqueClauses(cs, m); RenameIdsClauses(cs, m);
    case _ => RenameUniqueBlock(e, m);
  }

  lemma {:induction false} RenameUniqueBlock(e: Expr, m: Renaming)
    requires e.Lambda? || e.Let? || e.If? || e.Case? || e.Local? || e.Global? || e.Constant?
    requires Unique(e) && OneToOne(m, Ids(e))
    ensures Unique(Rename(e, m))
    decreases Size(e), 0
  {
    match e
    case Lambda(x, b) =>
      RenameUnique(b, m); RenameIds(b, m);
      ImageDisjoint(m, {x}, Ids(b));
    case Let(bs, b) =>
      RenameUniqueBindings(bs, m); RenameIdsBindings(bs, m);
      RenameUnique(b, m); RenameIds(b, m);
      ImageDisjoint(m, IdsBindings(bs), Ids(b));
    case If(c, t, f) => RenameUniquePair(c, t, m); RenameUniquePair(c, f, m); RenameUniquePair(t, f, m);
    case Case(s, rows) =>
      RenameUnique(s, m); RenameIds(s, m);
      RenameUniqueRows(rows, m); RenameIdsRows(rows, m);
      ImageDisjoint(m, Ids(s), IdsRows(rows));
    case _ =>
  }

  lemma {:induction false} RenameUniqueParts(es: List<Expr>, m: Renaming)
    requires UniqueParts(es) && OneToOne(m, IdsParts(es))
    ensures UniqueParts(RenameParts(es, m))
    decreases SizeParts(es), 0
  {
    match es
    case Nil =>
    case Cons(e, rest) =>
      RenameUnique(e, m); RenameIds(e, m);
      RenameUniqueParts(rest, m); RenameIdsParts(rest, m);
      ImageDisjoint(m, Ids(e), IdsParts(rest));
  }

  lemma {:induction false} RenameUniqueBindings(bs: List<Binding>, m: Renaming)
    requires UniqueBindings(bs) && OneToOne(m, IdsBindings(bs))
    ensures UniqueBindings(RenameBindings(bs, m))
    decreases SizeBindings(bs), 0
  {
    match bs
    case Nil =>
    case Cons(b, rest) =>
      RenameUnique(b.value, m); RenameIds(b.value, m);
      RenameUniqueBindings(rest, m); RenameIdsBindings(rest, m);
      ImageDisjoint(m, {b.id}, Ids(b.value));
      ImageDisjoint(m, {b.id} + Ids(b.value), IdsBindings(rest));
  }

  lemma {:induction false} RenameUniqueRow(r: Row, m: Renaming)
    requires UniqueRow(r) && OneToOne(m, IdsRow(r))
    ensures UniqueRow(RenameRow(r, m))
    decreases Size(r.value), 2
  {
    RenameUniquePattern(r.pattern, m); RenameIdsPattern(r.pattern, m);
    RenameUnique(r.value, m); RenameIds(r.value, m);
    ImageDisjoint(m, PatternIds(r.pattern), Ids(r.value));
  }

  lemma {:induction false} RenameUniqueRows(rows: List<Row>, m: Renaming)
    requires UniqueRows(rows) && OneToOne(m, IdsRows(rows))
    ensures UniqueRows(RenameRows(rows, m))
    decreases SizeRows(rows), 0
  {
    match rows
    case Nil =>
    case Cons(r, rest) =>
      RenameUniqueRow(r, m); RenameIdsRow(r, m);
      RenameUniqueRows(rest, m); RenameIdsRows(rest, m);
      ImageDisjoint(m, IdsRow(r), IdsRows(rest));
  }

  lemma {:induction false} RenameUniqueClauses(cs: List<Clause>, m: Renaming)
    requires UniqueClauses(cs) && OneToOne(m, IdsClauses(cs))
    ensures UniqueClauses(RenameClauses(cs, m))
    decreases SizeClauses(cs), 0
  {
    match cs
    case Nil =>
    case Cons(c, rest) =>
      RenameUniqueClause(c, m);
      RenameUniqueClauses(rest, m); RenameIdsClauses(rest, m);
      ImageDisjoint(m, IdsBindings(c.wheres) + IdsGuards(c.guards) + Ids(c.value), IdsClauses(rest));
  }

  lemma {:induction false} RenameUniqueClause(c: Clause, m: Renaming)
    requires UniqueBindings(c.wheres) && UniqueGuards(c.guards) && Unique(c.value)
    requires IdsBindings(c.wheres) !! IdsGuards(c.guards) && IdsBindings(c.wheres) + IdsGuards(c.guards) !! Ids(c.value)
    requires OneToOne(m, IdsBindings(c.wheres) + IdsGuards(c.guards) + Ids(c.value))
    ensures var c' := RenameClauses(Cons(c, Nil), m).head;
            && UniqueBindings(c'.wheres) && UniqueGuards(c'.guards) && Unique(c'.value)
            && IdsBindings(c'.wheres) !! IdsGuards(c'.guards)
            && IdsBindings(c'.wheres) + IdsGuards(c'.guards) !! Ids(c'.value)
            && IdsBindings(c'.wheres) + IdsGuards(c'.guards) + Ids(c'.value)
            == Image(m, IdsBindings(c.wheres) + IdsGuards(c.guards) + Ids(c.value))
    decreases SizeBindings(c.wheres) + SizeGuards(c.guards) + Size(c.value), 2
  {
    RenameUniqueBindings(c.wheres, m); RenameIdsBindings(c.wheres, m);
    RenameUniqueGuards(c.guards, m); RenameIdsGuards(c.guards, m);
    RenameUnique(c.value, m); RenameIds(c.value, m);
    ImageDisjoint(m, IdsBindings(c.wheres), IdsGuards(c.guards));
    ImageDisjoint(m, IdsBindings(c.wheres) + IdsGuards(c.guards), Ids(c.value));
  }

  lemma {:induction false} RenameUniqueGuards(gs: List<Guard>, m: Renaming)
    requires UniqueGuards(gs) && OneToOne(m, IdsGuards(gs))
    ensures UniqueGuards(RenameGuards(gs, m))
    decreases SizeGuards(gs), 0
  {
    match gs
    case Nil =>
    case Cons(g, rest) =>
      RenameUniqueGuard(g, m); RenameIdsGuard(g, m);
      RenameUniqueGuards(rest, m); RenameIdsGuards(rest, m);
      ImageDisjoint(m, IdsGuard(g), IdsGuards(rest));
  }

  lemma {:induction false} RenameUniqueGuard(g: Guard, m: Renaming)
    requires UniqueGuard(g) && OneToOne(m, IdsGuard(g))
    ensures UniqueGuard(RenameGuard(g, m))
    decreases SizeGuard(g), 2
  {
    match g
    case Test(c) => RenameUnique(c, m); RenameIds(c, m);
    case Match(p, v) =>
      RenameUniquePattern(p, m); RenameIdsPattern(p, m);
      RenameUnique(v, m); RenameIds(v, m);
      ImageDisjoint(m, PatternIds(p), Ids(v));
    case Bindings(bs) => RenameUniqueBindings(bs, m); RenameIdsBindings(bs, m);
  }

  lemma {:induction false} RenameUniquePair(a: Expr, b: Expr, m: Renaming)
    requires Unique(a) && Unique(b) && Ids(a) !! Ids(b) && OneToOne(m, Ids(a) + Ids(b))
    ensures Unique(Rename(a, m)) && Unique(Rename(b, m)) && Ids(Rename(a, m)) !! Ids(Rename(b, m))
    decreases Size(a) + Size(b)
  {
    RenameUnique(a, m);
    RenameUnique(b, m);
    RenameIds(a, m);
    RenameIds(b, m);
    ImageDisjoint(m, Ids(a), Ids(b));
  }

  // ----- A renamed tree is in the renamed scope -----

  lemma {:induction false} ImageUnion(m: Renaming, xs: set<Id>, ys: set<Id>)
    ensures Image(m, xs + ys) == Image(m, xs) + Image(m, ys)
  {
  }

  lemma {:induction false} RenameBoundIds(bs: List<Binding>, m: Renaming)
    ensures BoundIds(RenameBindings(bs, m)) == Image(m, BoundIds(bs))
  {
    match bs
    case Nil =>
    case Cons(b, rest) => RenameBoundIds(rest, m);
  }

  lemma {:induction false} RenameScoped(e: Expr, m: Renaming, scope: set<Id>)
    requires Scoped(e, scope)
    ensures Scoped(Rename(e, m), Image(m, scope))
    decreases Size(e), 0
  {
    match e
    case Compound(_, parts) => RenameScopedParts(parts, m, scope);
    case Apply(f, a) => RenameScoped(f, m, scope); RenameScoped(a, m, scope);
    case Operator(_, l, r) => RenameScoped(l, m, scope); RenameScoped(r, m, scope);
    case Negate(f, a) => RenameScoped(f, m, scope); RenameScoped(a, m, scope);
    case Lambda(x, b) =>
      RenameScoped(b, m, scope + {x});
      ImageUnion(m, scope, {x});
      assert Image(m, {x}) == {At(m, x)};
    case Let(bs, b) =>
      RenameScopedBindings(bs, m, scope + BoundIds(bs));
      RenameScoped(b, m, scope + BoundIds(bs));
      RenameBoundIds(bs, m);
      ImageUnion(m, scope, BoundIds(bs));
    case If(c, t, f) => RenameScoped(c, m, scope); RenameScoped(t, m, scope); RenameScoped(f, m, scope);
    case Case(s, rows) => RenameScoped(s, m, scope); RenameScopedRows(rows, m, scope);
    case Guarded(cs) => RenameScopedClauses(cs, m, scope);
    case _ =>
  }

  lemma {:induction false} RenameScopedParts(es: List<Expr>, m: Renaming, scope: set<Id>)
    requires ScopedParts(es, scope)
    ensures ScopedParts(RenameParts(es, m), Image(m, scope))
    decreases SizeParts(es), 0
  {
    match es
    case Nil =>
    case Cons(e, rest) => RenameScoped(e, m, scope); RenameScopedParts(rest, m, scope);
  }

  lemma {:induction false} RenameScopedBindings(bs: List<Binding>, m: Renaming, scope: set<Id>)
    requires ScopedBindings(bs, scope)
    ensures ScopedBindings(RenameBindings(bs, m), Image(m, scope))
    decreases SizeBindings(bs), 0
  {
    match bs
    case Nil =>
    case Cons(b, rest) => RenameScoped(b.value, m, scope); RenameScopedBindings(rest, m, scope);
  }

  lemma {:induction false} RenameScopedRow(r: Row, m: Renaming, scope: set<Id>)
    requires ScopedRow(r, scope)
    ensures ScopedRow(RenameRow(r, m), Image(m, scope))
    decreases Size(r.value), 1
  {
    RenameScoped(r.value, m, scope + PatternIds(r.pattern));
    RenameIdsPattern(r.pattern, m);
    ImageUnion(m, scope, PatternIds(r.pattern));
  }

  lemma {:induction false} RenameScopedRows(rows: List<Row>, m: Renaming, scope: set<Id>)
    requires ScopedRows(rows, scope)
    ensures ScopedRows(RenameRows(rows, m), Image(m, scope))
    decreases SizeRows(rows), 0
  {
    match rows
    case Nil =>
    case Cons(r, rest) => RenameScopedRow(r, m, scope); RenameScopedRows(rest, m, scope);
  }

  lemma {:induction false} RenameScopedClauses(cs: List<Clause>, m: Renaming, scope: set<Id>)
    requires ScopedClauses(cs, scope)
    ensures ScopedClauses(RenameClauses(cs, m), Image(m, scope))
    decreases SizeClauses(cs), 0
  {
    match cs
    case Nil =>
    case Cons(c, rest) =>
      var inner := scope + BoundIds(c.wheres);
      RenameScopedBindings(c.wheres, m, inner);
      RenameScopedGuards(c.guards, m, inner);
      RenameScoped(c.value, m, GuardScope(c.guards, inner));
      RenameGuardScope(c.guards, m, inner);
      RenameScopedClauses(rest, m, scope);
      RenameBoundIds(c.wheres, m);
      ImageUnion(m, scope, BoundIds(c.wheres));
  }

  lemma {:induction false} RenameScopedGuards(gs: List<Guard>, m: Renaming, scope: set<Id>)
    requires ScopedGuards(gs, scope)
    ensures ScopedGuards(RenameGuards(gs, m), Image(m, scope))
    decreases SizeGuards(gs), 0
  {
    match gs
    case Nil =>
    case Cons(g, rest) =>
      RenameScopedGuard(g, m, scope);
      RenameScopedGuards(rest, m, scope + GuardIds(g));
      RenameGuardIds(g, m);
      ImageUnion(m, scope, GuardIds(g));
  }

  lemma {:induction false} RenameGuardScope(gs: List<Guard>, m: Renaming, scope: set<Id>)
    ensures GuardScope(RenameGuards(gs, m), Image(m, scope)) == Image(m, GuardScope(gs, scope))
  {
    match gs
    case Nil =>
    case Cons(g, rest) =>
      RenameGuardIds(g, m);
      ImageUnion(m, scope, GuardIds(g));
      RenameGuardScope(rest, m, scope + GuardIds(g));
  }

  lemma {:induction false} RenameGuardIds(g: Guard, m: Renaming)
    ensures GuardIds(RenameGuard(g, m)) == Image(m, GuardIds(g))
  {
    match g
    case Test(_) =>
    case Match(p, _) => RenameIdsPattern(p, m);
    case Bindings(bs) => RenameBoundIds(bs, m);
  }

  lemma {:induction false} RenameScopedGuard(g: Guard, m: Renaming, scope: set<Id>)
    requires ScopedGuard(g, scope)
    ensures ScopedGuard(RenameGuard(g, m), Image(m, scope))
    decreases SizeGuard(g), 1
  {
    match g
    case Test(c) => RenameScoped(c, m, scope);
    case Match(_, v) => RenameScoped(v, m, scope);
    case Bindings(bs) =>
      RenameScopedBindings(bs, m, scope + BoundIds(bs));
      RenameBoundIds(bs, m);
      ImageUnion(m, scope, BoundIds(bs));
  }
}
