/** Lowering whole modules (crates/psrs-desugar/src/lib.rs, alpha.rs): in each of them one counter
    is threaded through all declarations, starting after every id in use.
 */
module LoweringMeaning {
  import opened Lists
  import opened Hir
  import opened Alpha
  import opened Lowering
  import opened LoweringNormalForm
  import opened TranslationLowering
  import opened Translation
  import opened HirSemantics
  import opened ValueRelation
  import opened Simulation
  import LoweringScope

  function Largest(ids: set<Id>): (x: Id)
    requires ids != {}
    ensures x in ids && forall y <- ids :: y <= x
  {
    LargestExists(ids);
    var x :| x in ids && forall y <- ids :: y <= x;
    x
  }

  lemma {:induction false} LargestExists(ids: set<Id>)
    requires ids != {}
    ensures exists x :: x in ids && forall y <- ids :: y <= x
    decreases |ids|
  {
    var x :| x in ids;
    var rest := ids - {x};
    if rest != {} {
      LargestExists(rest);
      var m :| m in rest && forall y <- rest :: y <= m;
      LargestWith(ids, rest, x, m);
    } else {
      assert ids == {x};
    }
  }

  lemma {:induction false} LargestWith(ids: set<Id>, rest: set<Id>, x: Id, m: Id)
    requires ids == rest + {x} && m in rest && forall y <- rest :: y <= m
    ensures exists z :: z in ids && forall y <- ids :: y <= z
  {
    var z := if x > m then x else m;
    assert z in ids && forall y <- ids :: y <= z;
  }

  /** The first id no declaration uses. */
  function AfterModule(bodies: List<Expr>): (n: Id)
    ensures forall x <- IdsParts(bodies) :: x < n
  {
    if IdsParts(bodies) == {} then 0 else Largest(IdsParts(bodies)) + 1
  }

  function LowerModule(bodies: List<Expr>): List<Expr> {
    LowerParts(bodies, AfterModule(bodies)).value
  }

  /** The definitions of a module: the values of its symbols. */
  function Definitions(symbols: List<Symbol>, bodies: List<Expr>): map<Symbol, Expr> {
    if symbols.Nil? || bodies.Nil? then map[] else Definitions(symbols.tail, bodies.tail)[symbols.head := bodies.head]
  }

  /** Every id is bound at most once in the module and every reference is in scope. */
  ghost predicate WellFormed(bodies: List<Expr>) {
    UniqueParts(bodies) && ScopedParts(bodies, {})
  }

  /** Both invariants hold again after lowering, and no surface form is left. */
  lemma {:induction false} LowerModuleWellFormed(bodies: List<Expr>)
    requires WellFormed(bodies)
    ensures WellFormed(LowerModule(bodies)) && SugarParts(LowerModule(bodies)) == 0
  {
    var n := AfterModule(bodies);
    LoweringScope.LowerGoodParts(bodies, {}, n);
    LoweredNormalParts(bodies, n);
  }

  lemma {:induction false} DefinitionsTr(symbols: List<Symbol>, es: List<Expr>, ds: List<Expr>)
    requires TrParts(es, ds, map[], {})
    ensures var from, to := Definitions(symbols, es), Definitions(symbols, ds);
            from.Keys == to.Keys && forall s <- from.Keys :: Tr(from[s], to[s], map[], {})
    decreases symbols
  {
    if symbols.Cons? && es.Cons? { DefinitionsTr(symbols.tail, es.tail, ds.tail); }
  }

  /** The values of a module's declarations and instance members, with their symbols. */
  datatype Module = Module(symbols: List<Symbol>, bodies: List<Expr>)

  /** The definitions of several modules together. */
  function Linked(modules: List<Module>): map<Symbol, Expr> {
    match modules
    case Nil => map[]
    case Cons(m, rest) => Linked(rest) + Definitions(m.symbols, m.bodies)
  }

  /** Every module lowered with its own counter. */
  function LowerModules(modules: List<Module>): List<Module> {
    match modules
    case Nil => Nil
    case Cons(m, rest) => Cons(Module(m.symbols, LowerModule(m.bodies)), LowerModules(rest))
  }

  ghost predicate AllWellFormed(modules: List<Module>) {
    match modules
    case Nil => true
    case Cons(m, rest) => WellFormed(m.bodies) && AllWellFormed(rest)
  }

  /** Replaces the definitions of a program by the lowered ones. */
  function Lowered(p: Program, modules: List<Module>): Program {
    p.(definitions := Linked(LowerModules(modules)))
  }

  lemma {:induction false} ModuleTr(m: Module)
    requires WellFormed(m.bodies)
    ensures var from, to := Definitions(m.symbols, m.bodies), Definitions(m.symbols, LowerModule(m.bodies));
            from.Keys == to.Keys && forall s <- from.Keys :: Tr(from[s], to[s], map[], {})
  {
    RenameNothingParts(m.bodies, map[]);
    LowerTrParts(m.bodies, map[], {}, {}, AfterModule(m.bodies));
    assert With(map[], {}) == map[];
    DefinitionsTr(m.symbols, m.bodies, LowerModule(m.bodies));
  }

  lemma {:induction false} LinkedTr(modules: List<Module>)
    requires AllWellFormed(modules)
    ensures var from, to := Linked(modules), Linked(LowerModules(modules));
            from.Keys == to.Keys && forall s <- from.Keys :: Tr(from[s], to[s], map[], {})
  {
    match modules
    case Nil =>
    case Cons(m, rest) =>
      ModuleTr(m);
      LinkedTr(rest);
  }

  ghost predicate FirstOrder(v: Value)
    decreases v
  {
    match v
    case Plain(_) => true
    case Data(_, parts) => FirstOrderAll(parts)
    case Closure(_, _, _, _) => false
  }

  ghost predicate FirstOrderAll(vs: List<Value>)
    decreases vs
  {
    match vs
    case Nil => true
    case Cons(v, rest) => FirstOrder(v) && FirstOrderAll(rest)
  }

  lemma {:induction false} FirstOrderSame(v: Value, w: Value)
    requires ValueRel(v, w) && FirstOrder(v)
    ensures w == v
    decreases v
  {
    if v.Data? { FirstOrderAllSame(v.parts, w.parts); }
  }

  lemma {:induction false} FirstOrderAllSame(vs: List<Value>, ws: List<Value>)
    requires ValuesRel(vs, ws) && FirstOrderAll(vs)
    ensures ws == vs
    decreases vs
  {
    match vs
    case Nil =>
    case Cons(v, rest) => FirstOrderSame(v, ws.head); FirstOrderAllSame(rest, ws.tail);
  }

  /** Lowering the modules of a program preserves the meaning of every symbol: with any fuel, from any
      history of foreign calls, both programs make the same calls and end in the same way; a result
      without functions inside is the same value. */
  lemma {:induction false} LoweringPreservesMeaning(p: Program, modules: List<Module>, s: Symbol, fuel: nat, t: Trace)
    requires AllWellFormed(modules) && p.definitions == Linked(modules)
    ensures var r, r' := EvalGlobal(p, fuel, s, t), EvalGlobal(Lowered(p, modules), fuel, s, t);
            && r'.trace == r.trace
            && (r.outcome.Finished? <==> r'.outcome.Finished?) && (!r.outcome.Finished? ==> r'.outcome == r.outcome)
            && (r.outcome.Finished? ==> ValueRel(r.outcome.value, r'.outcome.value))
            && (r.outcome.Finished? && FirstOrder(r.outcome.value) ==> r' == r)
  {
    var q := Lowered(p, modules);
    LinkedTr(modules);
    SimGlobal(p, q, fuel, s, t);
    var r, r' := EvalGlobal(p, fuel, s, t), EvalGlobal(q, fuel, s, t);
    if r.outcome.Finished? && FirstOrder(r.outcome.value) { FirstOrderSame(r.outcome.value, r'.outcome.value); }
  }
}
