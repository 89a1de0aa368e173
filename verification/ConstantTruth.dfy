/** Which symbols are transparent aliases of Boolean true
    (crates/psrs-desugar/src/constant_truth.rs): nested loops that run until nothing changes compute
    a least fixpoint.
 */
module ConstantTruth {
  import opened Lists
  import opened Hir

  datatype Declaration = Declaration(symbol: Symbol, value: Expr)

  /** `trues` are the externals bound to the intrinsic true. */
  datatype Module = Module(trues: set<Symbol>, declarations: seq<Declaration>)

  predicate IsTyped(e: Expr) {
    e.Compound? && e.form.TypedForm? && e.parts.Cons? && e.parts.tail.Nil?
  }

  // ----- What it means -----

  /** A let is true when its body is true under every set of local truths that the group justifies. */
  ghost predicate Holds(e: Expr, known: set<Symbol>, locals: set<Id>)
    decreases e, 0
  {
    match e
    case Global(s) => s in known
    case Local(x) => x in locals
    case Compound(_, parts) => IsTyped(e) && Holds(parts.head, known, locals)
    case Let(bs, b) => forall s: set<Id> :: locals <= s && Justified(bs, known, s) ==> Holds(b, known, s)
    case _ => false
  }

  /** `s` holds every binding that is true given `s`. */
  ghost predicate Justified(bs: List<Binding>, known: set<Symbol>, s: set<Id>)
    decreases bs, 1
  {
    match bs
    case Nil => true
    case Cons(b, rest) => (Holds(b.value, known, s) ==> b.id in s) && Justified(rest, known, s)
  }

  /** `known` contains the true externals and every declaration that is true given `known`. */
  ghost predicate Closed(modules: seq<Module>, known: set<Symbol>) {
    && (forall m <- modules :: m.trues <= known)
    && (forall m <- modules :: forall d <- m.declarations :: Holds(d.value, known, {}) ==> d.symbol in known)
  }

  ghost predicate Least(modules: seq<Module>, known: set<Symbol>) {
    Closed(modules, known) && forall s: set<Symbol> :: Closed(modules, s) ==> known <= s
  }

  // ----- More truths make more expressions true -----

  lemma {:induction false} HoldsMore(e: Expr, known: set<Symbol>, known': set<Symbol>, locals: set<Id>,
                                     locals': set<Id>)
    requires Holds(e, known, locals) && known <= known' && locals <= locals'
    ensures Holds(e, known', locals')
    decreases e, 0
  {
    match e
    case Compound(_, parts) => HoldsMore(parts.head, known, known', locals, locals');
    case Let(bs, b) =>
      forall s: set<Id> | locals' <= s && Justified(bs, known', s) ensures Holds(b, known', s) {
        JustifiedFewer(bs, known, known', s);
        assert locals <= s;
        HoldsMore(b, known, known', s, s);
      }
    case _ =>
  }

  lemma {:induction false} JustifiedFewer(bs: List<Binding>, known: set<Symbol>, known': set<Symbol>, s: set<Id>)
    requires Justified(bs, known', s) && known <= known'
    ensures Justified(bs, known, s)
    decreases bs, 1
  {
    match bs
    case Nil =>
    case Cons(b, rest) =>
      if Holds(b.value, known, s) { HoldsMore(b.value, known, known', s, s); }
      JustifiedFewer(rest, known, known', s);
  }

  /** The least justified set decides the let. */
  lemma {:induction false} LetByLeast(bs: List<Binding>, b: Expr, known: set<Symbol>, locals: set<Id>, s: set<Id>)
    requires locals <= s && Justified(bs, known, s)
    requires forall s': set<Id> :: locals <= s' && Justified(bs, known, s') ==> s <= s'
    ensures Holds(Let(bs, b), known, locals) == Holds(b, known, s)
  {
    if Holds(b, known, s) {
      forall s': set<Id> | locals <= s' && Justified(bs, known, s') ensures Holds(b, known, s') {
        HoldsMore(b, known, known, s, s');
      }
    }
  }

  lemma {:induction false} JustifiedAt(bs: List<Binding>, known: set<Symbol>, s: set<Id>, i: nat)
    requires Justified(bs, known, s) && i < Length(bs)
    ensures var b := ToSeq(bs)[i]; Holds(b.value, known, s) ==> b.id in s
  {
    if i > 0 { JustifiedAt(bs.tail, known, s, i - 1); }
  }

  lemma {:induction false} JustifiedAll(bs: List<Binding>, known: set<Symbol>, s: set<Id>)
    requires forall b <- ToSeq(bs) :: Holds(b.value, known, s) ==> b.id in s
    ensures Justified(bs, known, s)
  {
    match bs
    case Nil =>
    case Cons(b, rest) =>
      assert ToSeq(bs)[0] == b;
      forall c | c in ToSeq(rest) ensures Holds(c.value, known, s) ==> c.id in s {
        assert c in ToSeq(bs);
      }
      JustifiedAll(rest, known, s);
  }

  lemma {:induction false} BoundAt(bs: List<Binding>, i: nat)
    requires i < Length(bs)
    ensures ToSeq(bs)[i].id in BoundIds(bs)
  {
    if i > 0 { BoundAt(bs.tail, i - 1); }
  }

  lemma {:induction false} SmallerBinding(bs: List<Binding>, i: nat)
    requires i < Length(bs)
    ensures Size(ToSeq(bs)[i].value) < SizeBindings(bs)
  {
    if i > 0 { SmallerBinding(bs.tail, i - 1); }
  }

  // ----- The loops -----

  /** `evaluates_to_true` */
  method EvaluatesToTrue(e: Expr, known: set<Symbol>, locals: set<Id>) returns (r: bool)
    ensures r == Holds(e, known, locals)
    decreases Size(e), 0
  {
    match e
    case Global(s) => r := s in known;
    case Local(x) => r := x in locals;
    case Compound(_, parts) =>
      if IsTyped(e) {
        assert SizeParts(parts) == 1 + Size(parts.head) + SizeParts(parts.tail);
        r := EvaluatesToTrue(parts.head, known, locals);
      } else {
        r := false;
      }
    case Let(bs, b) =>
      var localTrue := LocalTruths(bs, known, locals);
      LetByLeast(bs, b, known, locals, localTrue);
      r := EvaluatesToTrue(b, known, localTrue);
    case _ => r := false;
  }

  /** The inner loop: bindings are added until a round adds none. */
  method LocalTruths(bs: List<Binding>, known: set<Symbol>, locals: set<Id>) returns (localTrue: set<Id>)
    ensures locals <= localTrue && Justified(bs, known, localTrue)
    ensures forall s: set<Id> :: locals <= s && Justified(bs, known, s) ==> localTrue <= s
    decreases SizeBindings(bs), 1
  {
    var bindings := ToSeq(bs);
    localTrue := locals;
    var changed := true;
    while changed
      invariant locals <= localTrue <= locals + BoundIds(bs)
      invariant forall s: set<Id> :: locals <= s && Justified(bs, known, s) ==> localTrue <= s
      invariant !changed ==> forall b <- bindings :: Holds(b.value, known, localTrue) ==> b.id in localTrue
      decreases |locals + BoundIds(bs)| - |localTrue|, changed
    {
      changed := false;
      ghost var before := localTrue;
      for i := 0 to |bindings|
        invariant before <= localTrue <= locals + BoundIds(bs) && (changed <==> localTrue != before)
        invariant forall s: set<Id> :: locals <= s && Justified(bs, known, s) ==> localTrue <= s
        invariant !changed ==> forall j :: 0 <= j < i ==>
                    (Holds(bindings[j].value, known, localTrue) ==> bindings[j].id in localTrue)
      {
        SmallerBinding(bs, i);
        var holds := EvaluatesToTrue(bindings[i].value, known, localTrue);
        if holds {
          forall s: set<Id> | locals <= s && Justified(bs, known, s) ensures bindings[i].id in s {
            HoldsMore(bindings[i].value, known, known, localTrue, s);
            JustifiedAt(bs, known, s, i);
          }
          BoundAt(bs, i);
          if bindings[i].id !in localTrue {
            changed := true;
            localTrue := localTrue + {bindings[i].id};
          }
        }
      }
      if changed { Grows(before, localTrue, locals + BoundIds(bs)); }
    }
    JustifiedAll(bs, known, localTrue);
  }

  lemma {:induction false} Grows<T>(before: set<T>, after: set<T>, bound: set<T>)
    requires before <= after <= bound && before != after
    ensures |bound| - |after| < |bound| - |before| && |after| <= |bound|
  {
    var added := after - before;
    assert after == before + added && added != {};
    assert bound == after + (bound - after);
  }

  ghost function Universe(modules: seq<Module>): set<Symbol> {
    if modules == [] then {}
    else modules[0].trues + (set d <- modules[0].declarations :: d.symbol) + Universe(modules[1..])
  }

  lemma {:induction false} UniverseHolds(modules: seq<Module>, i: nat)
    requires i < |modules|
    ensures modules[i].trues <= Universe(modules)
            && forall d <- modules[i].declarations :: d.symbol in Universe(modules)
  {
    if i > 0 { UniverseHolds(modules[1..], i - 1); }
  }

  /** `true_symbols` */
  method TrueSymbols(modules: seq<Module>) returns (known: set<Symbol>)
    ensures Least(modules, known)
  {
    known := {};
    for i := 0 to |modules|
      invariant known <= Universe(modules) && forall j :: 0 <= j < i ==> modules[j].trues <= known
      invariant forall s: set<Symbol> :: Closed(modules, s) ==> known <= s
    {
      UniverseHolds(modules, i);
      assert modules[i] in modules;
      known := known + modules[i].trues;
    }
    var changed := true;
    while changed
      invariant known <= Universe(modules) && forall m <- modules :: m.trues <= known
      invariant forall s: set<Symbol> :: Closed(modules, s) ==> known <= s
      invariant !changed ==> forall i, j :: 0 <= i < |modules| && 0 <= j < |modules[i].declarations| ==>
                  (Holds(modules[i].declarations[j].value, known, {}) ==> modules[i].declarations[j].symbol in known)
      decreases |Universe(modules)| - |known|, changed
    {
      ghost var before := known;
      known, changed := Round(modules, known);
      if changed { Grows(before, known, Universe(modules)); }
    }
  }

  /** One pass of the outer loop over every declaration. */
  method Round(modules: seq<Module>, start: set<Symbol>) returns (known: set<Symbol>, changed: bool)
    requires start <= Universe(modules) && forall s: set<Symbol> :: Closed(modules, s) ==> start <= s
    ensures start <= known <= Universe(modules) && (changed <==> known != start)
    ensures forall s: set<Symbol> :: Closed(modules, s) ==> known <= s
    ensures !changed ==> forall i, j :: 0 <= i < |modules| && 0 <= j < |modules[i].declarations| ==>
              (Holds(modules[i].declarations[j].value, known, {}) ==> modules[i].declarations[j].symbol in known)
  {
    known, changed := start, false;
    for i := 0 to |modules|
      invariant start <= known <= Universe(modules) && (changed <==> known != start)
      invariant forall s: set<Symbol> :: Closed(modules, s) ==> known <= s
      invariant !changed ==> forall k, j :: 0 <= k < i && 0 <= j < |modules[k].declarations| ==>
                  (Holds(modules[k].declarations[j].value, known, {}) ==> modules[k].declarations[j].symbol in known)
    {
      UniverseHolds(modules, i);
      var declarations := modules[i].declarations;
      for j := 0 to |declarations|
        invariant start <= known <= Universe(modules) && (changed <==> known != start)
        invariant forall s: set<Symbol> :: Closed(modules, s) ==> known <= s
        invariant !changed ==> forall k, l :: 0 <= k < i && 0 <= l < |modules[k].declarations| ==>
                    (Holds(modules[k].declarations[l].value, known, {}) ==> modules[k].declarations[l].symbol in known)
        invariant !changed ==> forall l :: 0 <= l < j ==>
                    (Holds(declarations[l].value, known, {}) ==> declarations[l].symbol in known)
      {
        var d := declarations[j];
        assert modules[i] in modules && d in modules[i].declarations;
        var holds := EvaluatesToTrue(d.value, known, {});
        if holds {
          forall s: set<Symbol> | Closed(modules, s) ensures d.symbol in s { HoldsMore(d.value, known, s, {}, {}); }
          if d.symbol !in known {
            changed := true;
            known := known + {d.symbol};
          }
        }
      }
    }
  }

  // ----- Consequences -----

  ghost function AllTrues(modules: seq<Module>): set<Symbol> {
    set m <- modules, s <- m.trues :: s
  }

  ghost function AllDeclarations(modules: seq<Module>): set<Declaration> {
    set m <- modules, d <- m.declarations :: d
  }

  lemma {:induction false} ClosedByContents(modules: seq<Module>, known: set<Symbol>)
    ensures Closed(modules, known)
        <==> (AllTrues(modules) <= known
              && forall d <- AllDeclarations(modules) :: Holds(d.value, known, {}) ==> d.symbol in known)
  {
    if AllTrues(modules) <= known
        && forall d <- AllDeclarations(modules) :: Holds(d.value, known, {}) ==> d.symbol in known {
      forall m | m in modules ensures m.trues <= known {
        forall s | s in m.trues ensures s in known { assert s in AllTrues(modules); }
      }
      forall m, d | m in modules && d in m.declarations ensures Holds(d.value, known, {}) ==> d.symbol in known {
        assert d in AllDeclarations(modules);
      }
    }
  }

  /** The order of modules, and of declarations in them, makes no difference. */
  lemma {:induction false} OrderIndependent(modules: seq<Module>, others: seq<Module>, known: set<Symbol>,
                                            known': set<Symbol>)
    requires AllTrues(modules) == AllTrues(others) && AllDeclarations(modules) == AllDeclarations(others)
    requires Least(modules, known) && Least(others, known')
    ensures known == known'
  {
    ClosedByContents(modules, known);
    ClosedByContents(modules, known');
    ClosedByContents(others, known);
    ClosedByContents(others, known');
  }

  /** Symbols that could only justify each other are left out, so cycles of aliases are. */
  lemma {:induction false} UnfoundedExcluded(modules: seq<Module>, known: set<Symbol>, cycle: set<Symbol>)
    requires Least(modules, known) && AllTrues(modules) !! cycle
    requires forall d <- AllDeclarations(modules) :: d.symbol in cycle ==> !Holds(d.value, known - cycle, {})
    ensures known !! cycle
  {
    var rest := known - cycle;
    ClosedByContents(modules, known);
    forall d | d in AllDeclarations(modules) && Holds(d.value, rest, {}) ensures d.symbol in rest {
      HoldsMore(d.value, rest, known, {}, {});
    }
    ClosedByContents(modules, rest);
  }

  predicate Alias(e: Expr, targets: set<Symbol>) {
    match e
    case Global(s) => s in targets
    case Compound(_, parts) => IsTyped(e) && Alias(parts.head, targets)
    case _ => false
  }

  lemma {:induction false} AliasHolds(e: Expr, targets: set<Symbol>, known: set<Symbol>)
    requires Alias(e, targets) && known !! targets
    ensures !Holds(e, known, {})
    decreases e
  {
    if e.Compound? { AliasHolds(e.parts.head, targets, known); }
  }

  lemma AliasCycleExcluded(modules: seq<Module>, known: set<Symbol>, cycle: set<Symbol>)
    requires Least(modules, known) && AllTrues(modules) !! cycle
    requires forall d <- AllDeclarations(modules) :: d.symbol in cycle ==> Alias(d.value, cycle)
    ensures known !! cycle
  {
    forall d | d in AllDeclarations(modules) && d.symbol in cycle ensures !Holds(d.value, known - cycle, {}) {
      AliasHolds(d.value, cycle, known - cycle);
    }
    UnfoundedExcluded(modules, known, cycle);
  }
}
