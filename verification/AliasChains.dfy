/** Which symbols the truth analysis finds (crates/psrs-desugar/src/constant_truth.rs): those whose definitions lead,
    alias by alias, to an external bound to true.
 */
module AliasChains {
  import opened Lists
  import opened Hir
  import opened ConstantTruth

  predicate DeclaresTrue(modules: seq<Module>, s: Symbol) {
    exists m <- modules :: s in m.trues
  }

  predicate Declares(modules: seq<Module>, d: Declaration) {
    exists m <- modules :: d in m.declarations
  }

  predicate BoundAt(scope: seq<List<Binding>>, i: nat, b: Binding) {
    i < |scope| && b in ToSeq(scope[i])
  }

  /** From an expression, going through annotations and into the bodies of lets, and from a name to what it is defined
      as, `n` names lead to a true external. `scope` holds the binding groups around the expression, the outermost
      one first; a bound value sees its own group and those around it. */
  ghost predicate Leads(modules: seq<Module>, e: Expr, scope: seq<List<Binding>>, n: nat)
    decreases n, e
  {
    match e
    case Global(s) =>
      DeclaresTrue(modules, s)
      || (n > 0 && exists d: Declaration ::
            Declares(modules, d) && d.symbol == s && Leads(modules, d.value, [], n - 1))
    case Local(x) =>
      n > 0 && exists i: nat, b: Binding ::
        BoundAt(scope, i, b) && b.id == x && Leads(modules, b.value, scope[..i + 1], n - 1)
    case Compound(_, parts) => IsTyped(e) && Leads(modules, parts.head, scope, n)
    case Let(bs, body) => Leads(modules, body, scope + [bs], n)
    case _ => false
  }

  ghost predicate LeadsToTrue(modules: seq<Module>, e: Expr, scope: seq<List<Binding>>) {
    exists n: nat :: Leads(modules, e, scope, n)
  }

  // ----- Whatever leads there is held true -----

  /** `levels` are the local truths within each group of the scope. */
  ghost predicate Levels(scope: seq<List<Binding>>, known: set<Symbol>, levels: seq<set<Id>>) {
    && |levels| == |scope|
    && (forall i :: 0 <= i < |scope| ==> Justified(scope[i], known, levels[i]))
    && forall i, j :: 0 <= i <= j < |levels| ==> levels[i] <= levels[j]
  }

  function Innermost(levels: seq<set<Id>>): set<Id> {
    if levels == [] then {} else levels[|levels| - 1]
  }

  lemma {:induction false} LeadsHolds(modules: seq<Module>, known: set<Symbol>, e: Expr, scope: seq<List<Binding>>,
                                      n: nat, levels: seq<set<Id>>)
    requires Closed(modules, known) && Levels(scope, known, levels) && Leads(modules, e, scope, n)
    ensures Holds(e, known, Innermost(levels))
    decreases n, e
  {
    match e
    case Global(s) =>
      if DeclaresTrue(modules, s) {
        var m :| m in modules && s in m.trues;
      } else {
        var d: Declaration :| Declares(modules, d) && d.symbol == s && Leads(modules, d.value, [], n - 1);
        LeadsHolds(modules, known, d.value, [], n - 1, []);
      }
    case Local(x) =>
      var i: nat, b: Binding :| BoundAt(scope, i, b) && b.id == x && Leads(modules, b.value, scope[..i + 1], n - 1);
      LeadsHolds(modules, known, b.value, scope[..i + 1], n - 1, levels[..i + 1]);
      var k :| 0 <= k < |ToSeq(scope[i])| && ToSeq(scope[i])[k] == b;
      JustifiedAt(scope[i], known, levels[i], k);
    case Compound(_, parts) => LeadsHolds(modules, known, parts.head, scope, n, levels);
    case Let(bs, body) =>
      forall s: set<Id> | Innermost(levels) <= s && Justified(bs, known, s)
        ensures Holds(body, known, s)
      {
        LeadsHolds(modules, known, body, scope + [bs], n, levels + [s]);
      }
  }

  // ----- Whatever is held true leads there -----

  lemma {:induction false} WiderScope(modules: seq<Module>, x: Id, scope: seq<List<Binding>>, bs: List<Binding>)
    requires LeadsToTrue(modules, Local(x), scope)
    ensures LeadsToTrue(modules, Local(x), scope + [bs])
  {
    var n: nat :| Leads(modules, Local(x), scope, n);
    var i: nat, b: Binding :| BoundAt(scope, i, b) && b.id == x && Leads(modules, b.value, scope[..i + 1], n - 1);
    assert (scope + [bs])[..i + 1] == scope[..i + 1] && BoundAt(scope + [bs], i, b);
    assert Leads(modules, Local(x), scope + [bs], n);
  }

  lemma {:induction false} HoldsLeads(modules: seq<Module>, known: set<Symbol>, e: Expr, scope: seq<List<Binding>>,
                                      locals: set<Id>)
    requires forall s <- known :: LeadsToTrue(modules, Global(s), [])
    requires forall x <- locals :: LeadsToTrue(modules, Local(x), scope)
    requires Holds(e, known, locals)
    ensures LeadsToTrue(modules, e, scope)
    decreases Size(e), 0
  {
    match e
    case Global(s) =>
      var n: nat :| Leads(modules, Global(s), [], n);
      assert Leads(modules, e, scope, n);
    case Local(_) =>
    case Compound(_, parts) =>
      assert SizeParts(parts) >= Size(parts.head);
      HoldsLeads(modules, known, parts.head, scope, locals);
      var n: nat :| Leads(modules, parts.head, scope, n);
      assert Leads(modules, e, scope, n);
    case Let(bs, body) =>
      var inner := scope + [bs];
      var s := locals + set x | x in BoundIds(bs) && LeadsToTrue(modules, Local(x), inner);
      forall x | x in s ensures LeadsToTrue(modules, Local(x), inner) {
        if x in locals { WiderScope(modules, x, scope, bs); }
      }
      forall b | b in ToSeq(bs) && Holds(b.value, known, s)
        ensures b.id in s
      {
        BindingLeads(modules, known, bs, b, scope, s);
      }
      JustifiedAll(bs, known, s);
      HoldsLeads(modules, known, body, inner, s);
      var n: nat :| Leads(modules, body, inner, n);
      assert Leads(modules, e, scope, n);
  }

  lemma {:induction false} BindingLeads(modules: seq<Module>, known: set<Symbol>, bs: List<Binding>, b: Binding,
                                        scope: seq<List<Binding>>, s: set<Id>)
    requires b in ToSeq(bs) && Holds(b.value, known, s)
    requires forall t <- known :: LeadsToTrue(modules, Global(t), [])
    requires forall x <- s :: LeadsToTrue(modules, Local(x), scope + [bs])
    ensures b.id in BoundIds(bs) && LeadsToTrue(modules, Local(b.id), scope + [bs])
    decreases SizeBindings(bs), 1
  {
    var inner := scope + [bs];
    var i :| 0 <= i < |ToSeq(bs)| && ToSeq(bs)[i] == b;
    ConstantTruth.BoundAt(bs, i);
    SmallerBinding(bs, i);
    HoldsLeads(modules, known, b.value, inner, s);
    var n: nat :| Leads(modules, b.value, inner, n);
    assert BoundAt(inner, |scope|, b) && inner[..|scope| + 1] == inner;
    assert Leads(modules, Local(b.id), inner, n + 1);
  }

  /** The analysis finds a symbol if and only if following definitions from it leads to a true external. */
  lemma {:induction false} FindsExactly(modules: seq<Module>, known: set<Symbol>)
    requires Least(modules, known)
    ensures forall s: Symbol :: s in known <==> LeadsToTrue(modules, Global(s), [])
  {
    forall s: Symbol | LeadsToTrue(modules, Global(s), [])
      ensures s in known
    {
      var n: nat :| Leads(modules, Global(s), [], n);
      LeadsHolds(modules, known, Global(s), [], n, []);
    }
    var found := set s | s in known && LeadsToTrue(modules, Global(s), []);
    forall m, s | m in modules && s in m.trues
      ensures s in found
    {
      assert Leads(modules, Global(s), [], 0);
    }
    forall m, d | m in modules && d in m.declarations && Holds(d.value, found, {})
      ensures d.symbol in found
    {
      DeclarationLeads(modules, found, d);
      HoldsMore(d.value, found, known, {}, {});
    }
    assert Closed(modules, found);
  }

  lemma {:induction false} DeclarationLeads(modules: seq<Module>, found: set<Symbol>, d: Declaration)
    requires Declares(modules, d) && Holds(d.value, found, {})
    requires forall s <- found :: LeadsToTrue(modules, Global(s), [])
    ensures LeadsToTrue(modules, Global(d.symbol), [])
  {
    HoldsLeads(modules, found, d.value, [], {});
    var n: nat :| Leads(modules, d.value, [], n);
    assert Leads(modules, Global(d.symbol), [], n + 1);
  }
}
