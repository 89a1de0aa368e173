/** The resolved expression tree that guard and case lowering works on
    (crates/psrs-hir/src/expr.rs), with the traversals of crates/psrs-desugar/src/alpha.rs.
 */
module Hir {
  import opened Lists

  type Id = nat
  type Symbol = nat

  datatype Literal = Boolean(value: bool) | Text(text: string)

  /** `PatternKind` variants whose parts are only matched part by part. */
  datatype Shape =
    | ConstructorShape(symbol: Symbol)
    | RecordShape(labels: seq<string>, exact: bool)
    | ArrayShape
    | TypedShape(ty: nat)
    | LiteralShape(literal: Literal)

  datatype Pattern =
    | Wildcard
    | Bind(id: Id)
    | Named(id: Id, inner: Pattern)
    | Shaped(shape: Shape, parts: List<Pattern>)

  /** `ExprKind` variants whose children are evaluated in order and then combined. */
  datatype Form =
    | ArrayForm
    | RecordForm(labels: seq<string>)
    | ProductForm(labels: seq<string>)
    | UpdateForm(labels: seq<string>)
    | FieldForm(field: string)
    | TypedForm(ty: nat)
    | TypeApplicationForm(ty: nat)

  datatype Expr =
    | Local(id: Id)
    | Global(symbol: Symbol)
    | Constant(literal: Literal)
    | Compound(form: Form, parts: List<Expr>)
    | Apply(function_: Expr, argument: Expr)
    | Operator(symbol: Symbol, left: Expr, right: Expr)
    | Negate(negation: Expr, operand: Expr)
    | Lambda(parameter: Id, body: Expr)
    | Let(bindings: List<Binding>, body: Expr)
    | If(condition: Expr, consequent: Expr, alternative: Expr)
    | Case(scrutinee: Expr, rows: List<Row>)
    | Guarded(clauses: List<Clause>)

  datatype Binding = Binding(id: Id, value: Expr)
  datatype Row = Row(pattern: Pattern, value: Expr)
  datatype Clause = Clause(wheres: List<Binding>, guards: List<Guard>, value: Expr)
  datatype Guard =
    | Test(condition: Expr)
    | Match(pattern: Pattern, value: Expr)
    | Bindings(bindings: List<Binding>)

  // ----- Sizes -----

  function Size(e: Expr): nat {
    match e
    case Compound(_, parts) => 1 + SizeParts(parts)
    case Apply(f, a) => 1 + Size(f) + Size(a)
    case Operator(_, l, r) => 1 + Size(l) + Size(r)
    case Negate(f, a) => 1 + Size(f) + Size(a)
    case Lambda(_, b) => 1 + Size(b)
    case Let(bs, b) => 1 + SizeBindings(bs) + Size(b)
    case If(c, t, f) => 1 + Size(c) + Size(t) + Size(f)
    case Case(s, rows) => 1 + Size(s) + SizeRows(rows)
    case Guarded(cs) => 1 + SizeClauses(cs)
    case _ => 1
  }

  function SizeParts(es: List<Expr>): nat {
    match es
    case Nil => 0
    case Cons(e, rest) => 1 + Size(e) + SizeParts(rest)
  }

  function SizeBindings(bs: List<Binding>): nat {
    match bs
    case Nil => 0
    case Cons(b, rest) => 1 + Size(b.value) + SizeBindings(rest)
  }

  function SizeRows(rows: List<Row>): nat {
    match rows
    case Nil => 0
    case Cons(r, rest) => 1 + Size(r.value) + SizeRows(rest)
  }

  function SizeClauses(cs: List<Clause>): nat {
    match cs
    case Nil => 0
    case Cons(c, rest) => 1 + SizeBindings(c.wheres) + SizeGuards(c.guards) + Size(c.value) + SizeClauses(rest)
  }

  function SizeGuards(gs: List<Guard>): nat {
    match gs
    case Nil => 0
    case Cons(g, rest) => 1 + SizeGuard(g) + SizeGuards(rest)
  }

  function SizeGuard(g: Guard): nat {
    match g
    case Test(c) => Size(c)
    case Match(_, v) => Size(v)
    case Bindings(bs) => SizeBindings(bs)
  }

  // ----- Surface forms that lowering eliminates -----

  /** The number of operators, negations and guarded right-hand sides. */
  function Sugar(e: Expr): nat {
    match e
    case Compound(_, parts) => SugarParts(parts)
    case Apply(f, a) => Sugar(f) + Sugar(a)
    case Operator(_, l, r) => 1 + Sugar(l) + Sugar(r)
    case Negate(f, a) => 1 + Sugar(f) + Sugar(a)
    case Lambda(_, b) => Sugar(b)
    case Let(bs, b) => SugarBindings(bs) + Sugar(b)
    case If(c, t, f) => Sugar(c) + Sugar(t) + Sugar(f)
    case Case(s, rows) => Sugar(s) + SugarRows(rows)
    case Guarded(cs) => 1 + SugarClauses(cs)
    case _ => 0
  }

  function SugarParts(es: List<Expr>): nat {
    match es
    case Nil => 0
    case Cons(e, rest) => Sugar(e) + SugarParts(rest)
  }

  function SugarBindings(bs: List<Binding>): nat {
    match bs
    case Nil => 0
    case Cons(b, rest) => Sugar(b.value) + SugarBindings(rest)
  }

  function SugarRows(rows: List<Row>): nat {
    match rows
    case Nil => 0
    case Cons(r, rest) => Sugar(r.value) + SugarRows(rest)
  }

  function SugarClauses(cs: List<Clause>): nat {
    match cs
    case Nil => 0
    case Cons(c, rest) => SugarBindings(c.wheres) + SugarGuards(c.guards) + Sugar(c.value) + SugarClauses(rest)
  }

  function SugarGuards(gs: List<Guard>): nat {
    match gs
    case Nil => 0
    case Cons(g, rest) => SugarGuard(g) + SugarGuards(rest)
  }

  function SugarGuard(g: Guard): nat {
    match g
    case Test(c) => Sugar(c)
    case Match(_, v) => Sugar(v)
    case Bindings(bs) => SugarBindings(bs)
  }

  // ----- Binder ids -----

  function PatternIds(p: Pattern): set<Id> {
    match p
    case Wildcard => {}
    case Bind(x) => {x}
    case Named(x, q) => {x} + PatternIds(q)
    case Shaped(_, parts) => PatternIdsAll(parts)
  }

  function PatternIdsAll(ps: List<Pattern>): set<Id> {
    match ps
    case Nil => {}
    case Cons(p, rest) => PatternIds(p) + PatternIdsAll(rest)
  }

  /** Every id bound anywhere inside (`collect_expr_ids`). */
  function Ids(e: Expr): set<Id> {
    match e
    case Compound(_, parts) => IdsParts(parts)
    case Apply(f, a) => Ids(f) + Ids(a)
    case Operator(_, l, r) => Ids(l) + Ids(r)
    case Negate(f, a) => Ids(f) + Ids(a)
    case Lambda(x, b) => {x} + Ids(b)
    case Let(bs, b) => IdsBindings(bs) + Ids(b)
    case If(c, t, f) => Ids(c) + Ids(t) + Ids(f)
    case Case(s, rows) => Ids(s) + IdsRows(rows)
    case Guarded(cs) => IdsClauses(cs)
    case _ => {}
  }

  function IdsParts(es: List<Expr>): set<Id> {
    match es
    case Nil => {}
    case Cons(e, rest) => Ids(e) + IdsParts(rest)
  }

  function IdsBindings(bs: List<Binding>): set<Id> {
    match bs
    case Nil => {}
    case Cons(b, rest) => {b.id} + Ids(b.value) + IdsBindings(rest)
  }

  function IdsRow(r: Row): set<Id> {
    PatternIds(r.pattern) + Ids(r.value)
  }

  function IdsRows(rows: List<Row>): set<Id> {
    match rows
    case Nil => {}
    case Cons(r, rest) => IdsRow(r) + IdsRows(rest)
  }

  function IdsClauses(cs: List<Clause>): set<Id> {
    match cs
    case Nil => {}
    case Cons(c, rest) => IdsBindings(c.wheres) + IdsGuards(c.guards) + Ids(c.value) + IdsClauses(rest)
  }

  function IdsGuards(gs: List<Guard>): set<Id> {
    match gs
    case Nil => {}
    case Cons(g, rest) => IdsGuard(g) + IdsGuards(rest)
  }

  function IdsGuard(g: Guard): set<Id> {
    match g
    case Test(c) => Ids(c)
    case Match(p, v) => PatternIds(p) + Ids(v)
    case Bindings(bs) => IdsBindings(bs)
  }

  /** The ids a binding group puts in scope. */
  function BoundIds(bs: List<Binding>): set<Id> {
    match bs
    case Nil => {}
    case Cons(b, rest) => {b.id} + BoundIds(rest)
  }

  function GuardIds(g: Guard): set<Id> {
    match g
    case Test(_) => {}
    case Match(p, _) => PatternIds(p)
    case Bindings(bs) => BoundIds(bs)
  }

  // ----- No id is bound twice -----

  predicate UniquePattern(p: Pattern) {
    match p
    case Wildcard => true
    case Bind(_) => true
    case Named(x, q) => x !in PatternIds(q) && UniquePattern(q)
    case Shaped(_, parts) => UniquePatterns(parts)
  }

  predicate UniquePatterns(ps: List<Pattern>) {
    match ps
    case Nil => true
    case Cons(p, rest) => UniquePattern(p) && UniquePatterns(rest) && PatternIds(p) !! PatternIdsAll(rest)
  }

  predicate Unique(e: Expr) {
    match e
    case Compound(_, parts) => UniqueParts(parts)
    case Apply(f, a) => Unique(f) && Unique(a) && Ids(f) !! Ids(a)
    case Operator(_, l, r) => Unique(l) && Unique(r) && Ids(l) !! Ids(r)
    case Negate(f, a) => Unique(f) && Unique(a) && Ids(f) !! Ids(a)
    case Lambda(x, b) => x !in Ids(b) && Unique(b)
    case Let(bs, b) => UniqueBindings(bs) && Unique(b) && IdsBindings(bs) !! Ids(b)
    case If(c, t, f) => Unique(c) && Unique(t) && Unique(f) && Ids(c) !! Ids(t) && Ids(c) !! Ids(f) && Ids(t) !! Ids(f)
    case Case(s, rows) => Unique(s) && UniqueRows(rows) && Ids(s) !! IdsRows(rows)
    case Guarded(cs) => UniqueClauses(cs)
    case _ => true
  }

  predicate UniqueParts(es: List<Expr>) {
    match es
    case Nil => true
    case Cons(e, rest) => Unique(e) && UniqueParts(rest) && Ids(e) !! IdsParts(rest)
  }

  predicate UniqueBindings(bs: List<Binding>) {
    match bs
    case Nil => true
    case Cons(b, rest) =>
      b.id !in Ids(b.value) && Unique(b.value) && UniqueBindings(rest) && ({b.id} + Ids(b.value)) !! IdsBindings(rest)
  }

  predicate UniqueRow(r: Row) {
    UniquePattern(r.pattern) && Unique(r.value) && PatternIds(r.pattern) !! Ids(r.value)
  }

  predicate UniqueRows(rows: List<Row>) {
    match rows
    case Nil => true
    case Cons(r, rest) => UniqueRow(r) && UniqueRows(rest) && IdsRow(r) !! IdsRows(rest)
  }

  predicate UniqueClauses(cs: List<Clause>) {
    match cs
    case Nil => true
    case Cons(c, rest) =>
      && UniqueBindings(c.wheres) && UniqueGuards(c.guards) && Unique(c.value) && UniqueClauses(rest)
      && IdsBindings(c.wheres) !! IdsGuards(c.guards)
      && (IdsBindings(c.wheres) + IdsGuards(c.guards)) !! Ids(c.value)
      && (IdsBindings(c.wheres) + IdsGuards(c.guards) + Ids(c.value)) !! IdsClauses(rest)
  }

  predicate UniqueGuards(gs: List<Guard>) {
    match gs
    case Nil => true
    case Cons(g, rest) => UniqueGuard(g) && UniqueGuards(rest) && IdsGuard(g) !! IdsGuards(rest)
  }

  predicate UniqueGuard(g: Guard) {
    match g
    case Test(c) => Unique(c)
    case Match(p, v) => UniquePattern(p) && Unique(v) && PatternIds(p) !! Ids(v)
    case Bindings(bs) => UniqueBindings(bs)
  }

  // ----- Every reference is in scope -----

  predicate Scoped(e: Expr, scope: set<Id>)
    decreases Size(e), 0
  {
    match e
    case Local(x) => x in scope
    case Global(_) => true
    case Constant(_) => true
    case Compound(_, parts) => ScopedParts(parts, scope)
    case Apply(f, a) => Scoped(f, scope) && Scoped(a, scope)
    case Operator(_, l, r) => Scoped(l, scope) && Scoped(r, scope)
    case Negate(f, a) => Scoped(f, scope) && Scoped(a, scope)
    case Lambda(x, b) => Scoped(b, scope + {x})
    case Let(bs, b) => ScopedBindings(bs, scope + BoundIds(bs)) && Scoped(b, scope + BoundIds(bs))
    case If(c, t, f) => Scoped(c, scope) && Scoped(t, scope) && Scoped(f, scope)
    case Case(s, rows) => Scoped(s, scope) && ScopedRows(rows, scope)
    case Guarded(cs) => ScopedClauses(cs, scope)
  }

  predicate ScopedParts(es: List<Expr>, scope: set<Id>)
    decreases SizeParts(es), 0
  {
    match es
    case Nil => true
    case Cons(e, rest) => Scoped(e, scope) && ScopedParts(rest, scope)
  }

  predicate ScopedBindings(bs: List<Binding>, scope: set<Id>)
    decreases SizeBindings(bs), 0
  {
    match bs
    case Nil => true
    case Cons(b, rest) => Scoped(b.value, scope) && ScopedBindings(rest, scope)
  }

  predicate ScopedRow(r: Row, scope: set<Id>)
    decreases Size(r.value), 1
  {
    Scoped(r.value, scope + PatternIds(r.pattern))
  }

  predicate ScopedRows(rows: List<Row>, scope: set<Id>)
    decreases SizeRows(rows), 0
  {
    match rows
    case Nil => true
    case Cons(r, rest) => ScopedRow(r, scope) && ScopedRows(rest, scope)
  }

  predicate ScopedClauses(cs: List<Clause>, scope: set<Id>)
    decreases SizeClauses(cs), 0
  {
    match cs
    case Nil => true
    case Cons(c, rest) =>
      && ScopedBindings(c.wheres, scope + BoundIds(c.wheres))
      && ScopedGuards(c.guards, scope + BoundIds(c.wheres))
      && Scoped(c.value, GuardScope(c.guards, scope + BoundIds(c.wheres)))
      && ScopedClauses(rest, scope)
  }

  /** Guards scope over the later guards. */
  predicate ScopedGuards(gs: List<Guard>, scope: set<Id>)
    decreases SizeGuards(gs), 0
  {
    match gs
    case Nil => true
    case Cons(g, rest) => ScopedGuard(g, scope) && ScopedGuards(rest, scope + GuardIds(g))
  }

  /** The scope after all guards of a clause. */
  function GuardScope(gs: List<Guard>, scope: set<Id>): (r: set<Id>)
    ensures scope <= r
  {
    match gs
    case Nil => scope
    case Cons(g, rest) => GuardScope(rest, scope + GuardIds(g))
  }

  predicate ScopedGuard(g: Guard, scope: set<Id>)
    decreases SizeGuard(g), 1
  {
    match g
    case Test(c) => Scoped(c, scope)
    case Match(_, v) => Scoped(v, scope)
    case Bindings(bs) => ScopedBindings(bs, scope + BoundIds(bs))
  }
}
