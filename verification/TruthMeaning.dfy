/** What the truth analysis is for (crates/psrs-desugar/src/constant_truth.rs, case_helpers.rs): a
    symbol it finds never evaluates to anything but true, so guards it proves exhaustive never fall
    through.
 */
module TruthMeaning {
  import opened Lists
  import opened Hir
  import opened HirSemantics
  import opened HirFuel
  import opened ConstantTruth

  const TRUE: Value := Plain(Boolean(true))

  /** The program defines what the modules declare, and interprets the true externals. */
  ghost predicate Realises(p: Program, modules: seq<Module>) {
    && (forall s <- AllTrues(modules) ::
          s !in p.definitions && s !in p.foreign && s in p.booleans && p.booleans[s])
    && (forall d <- AllDeclarations(modules) ::
          d.symbol in p.definitions && p.definitions[d.symbol] == d.value && Unique(d.value))
  }

  ghost predicate Justifies(modules: seq<Module>, known: set<Symbol>, s: Symbol) {
    s in AllTrues(modules) || exists d <- AllDeclarations(modules) :: d.symbol == s && Holds(d.value, known, {})
  }

  /** Everything in the least set is there for a reason. */
  lemma {:induction false} Founded(modules: seq<Module>, known: set<Symbol>, s: Symbol)
    requires Least(modules, known) && s in known
    ensures Justifies(modules, known, s)
  {
    var kept := set x <- known | Justifies(modules, known, x);
    ClosedByContents(modules, known);
    forall d | d in AllDeclarations(modules) && Holds(d.value, kept, {}) ensures d.symbol in kept {
      HoldsMore(d.value, kept, known, {}, {});
      assert Justifies(modules, known, d.symbol);
    }
    forall x | x in AllTrues(modules) ensures x in kept { assert Justifies(modules, known, x); }
    ClosedByContents(modules, kept);
  }

  ghost predicate TrueOrUnbound(env: Env, x: Id) {
    Lookup(env, x).None? || Lookup(env, x).value == TRUE
  }

  ghost predicate TrueLocals(env: Env, locals: set<Id>) {
    forall x <- locals :: TrueOrUnbound(env, x)
  }

  ghost predicate Unbound(env: Env, ids: set<Id>) {
    forall x <- ids :: Lookup(env, x).None?
  }

  /** A finished evaluation ends in true. */
  ghost predicate OnlyTrue(r: Result) {
    r.outcome.Finished? ==> r.outcome.value == TRUE
  }

  lemma {:induction false} LambdaNotTrue(e: Expr, known: set<Symbol>, locals: set<Id>)
    requires AsLambda(e).Some?
    ensures !Holds(e, known, locals)
    decreases e
  {
    if e.Compound? && IsTyped(e) { LambdaNotTrue(e.parts.head, known, locals); }
  }

  // ----- Lookups in the scope of a group -----

  predicate IsFunction(bs: List<Binding>, x: Id) {
    match bs
    case Nil => false
    case Cons(b, rest) => (b.id == x && AsLambda(b.value).Some?) || IsFunction(rest, x)
  }

  lemma {:induction false} LookupInScope(bs: List<Binding>, group: List<Binding>, base: Env, x: Id)
    ensures !IsFunction(bs, x) ==> Lookup(Functions(bs, group, base), x) == Lookup(base, x)
    ensures IsFunction(bs, x) ==> var v := Lookup(Functions(bs, group, base), x); v.Some? && v.value.Closure?
  {
    match bs
    case Nil =>
    case Cons(_, rest) => LookupInScope(rest, group, base, x);
  }

  lemma {:induction false} FunctionBound(bs: List<Binding>, x: Id)
    requires IsFunction(bs, x)
    ensures x in BoundIds(bs)
  {
    match bs
    case Cons(b, rest) => if !(b.id == x && AsLambda(b.value).Some?) { FunctionBound(rest, x); }
  }

  lemma {:induction false} BoundWithin(bs: List<Binding>)
    ensures BoundIds(bs) <= IdsBindings(bs)
  {
    match bs
    case Nil =>
    case Cons(_, rest) => BoundWithin(rest);
  }

  /** A failed group has not finished, and a finished one only binds its own ids. */
  lemma {:induction false} GroupResult(p: Program, fuel: nat, bs: List<Binding>, group: List<Binding>, base: Env,
                                       t: Trace, x: Id)
    ensures var g := EvalBindings(p, fuel, bs, group, base, t);
            && (g.Lost? ==> !g.result.outcome.Finished?)
            && (g.Got? && x !in BoundIds(bs) ==> Lookup(g.value, x) == Lookup(base, x))
    decreases bs
  {
    match bs
    case Nil =>
    case Cons(b, rest) =>
      if AsLambda(b.value).Some? {
        GroupResult(p, fuel, rest, group, base, t, x);
      } else {
        var r := Eval(p, fuel, Scope(group, base), b.value, t);
        if r.outcome.Finished? { GroupResult(p, fuel, rest, group, Cons(Entry(b.id, r.outcome.value), base), r.trace,
                                             x); }
      }
  }

  // ----- Soundness -----

  lemma {:induction false} TruthGlobal(p: Program, modules: seq<Module>, known: set<Symbol>, fuel: nat, s: Symbol,
                                       t: Trace)
    requires Realises(p, modules) && Least(modules, known) && s in known
    ensures OnlyTrue(EvalGlobal(p, fuel, s, t))
    decreases fuel, 0, 0
  {
    Founded(modules, known, s);
    if s !in AllTrues(modules) && fuel > 0 {
      var d :| d in AllDeclarations(modules) && d.symbol == s && Holds(d.value, known, {});
      TruthEval(p, modules, known, fuel - 1, Nil, d.value, {}, t);
    }
  }

  lemma {:induction false} TruthEval(p: Program, modules: seq<Module>, known: set<Symbol>, fuel: nat, env: Env, e: Expr,
                                     locals: set<Id>, t: Trace)
    requires Realises(p, modules) && Least(modules, known) && Holds(e, known, locals)
    requires Unique(e) && Ids(e) !! locals && TrueLocals(env, locals) && Unbound(env, Ids(e))
    ensures OnlyTrue(Eval(p, fuel, env, e, t))
    decreases fuel, Size(e), 1
  {
    match e
    case Global(s) => TruthGlobal(p, modules, known, fuel, s, t);
    case Local(x) => assert TrueOrUnbound(env, x);
    case Compound(form, parts) =>
      assert UniqueParts(parts) && Ids(e) == IdsParts(parts) && IdsParts(parts.tail) == {};
      assert SizeParts(parts) == 1 + Size(parts.head) + SizeParts(parts.tail);
      TruthEval(p, modules, known, fuel, env, parts.head, locals, t);
      var r := Eval(p, fuel, env, parts.head, t);
      if r.outcome.Finished? {
        assert EvalParts(p, fuel, env, parts.tail, r.trace) == Got(Nil, r.trace);
        assert EvalParts(p, fuel, env, parts, t) == Got(Cons(r.outcome.value, Nil), r.trace);
      } else {
        assert EvalParts(p, fuel, env, parts, t) == Lost(r);
      }
    case Let(bs, b) => TruthLet(p, modules, known, fuel, env, bs, b, locals, t);
  }

  /** The local truths of an evaluated group: what was true outside, and what is now. */
  ghost function Truths(bs: List<Binding>, env: Env, locals: set<Id>): set<Id> {
    locals + set x <- BoundIds(bs) | TrueOrUnbound(env, x)
  }

  lemma {:induction false} TruthLet(p: Program, modules: seq<Module>, known: set<Symbol>, fuel: nat, env: Env,
                                    bs: List<Binding>, b: Expr, locals: set<Id>, t: Trace)
    requires Realises(p, modules) && Least(modules, known) && Holds(Let(bs, b), known, locals)
    requires Unique(Let(bs, b)) && Ids(Let(bs, b)) !! locals && TrueLocals(env, locals) && Unbound(env, Ids(Let(bs, b)))
    ensures OnlyTrue(Eval(p, fuel, env, Let(bs, b), t))
    decreases fuel, SizeBindings(bs) + Size(b), 2
  {
    var g := EvalBindings(p, fuel, bs, bs, env, t);
    GroupResult(p, fuel, bs, bs, env, t, 0);
    if g.Got? {
      var inner := Scope(bs, g.value);
      var s := Truths(bs, inner, locals);
      BoundWithin(bs);
      ScopeOutside(p, fuel, bs, env, t);
      assert TrueLocals(inner,
                        locals) by { forall x | x in locals ensures TrueOrUnbound(inner,
                                                                                  x) { assert TrueOrUnbound(env, x); } }
      GroupTruths(p, modules, known, fuel, bs, bs, env, t, s, inner, locals);
      assert Holds(b, known, s);
      TruthEval(p, modules, known, fuel, inner, b, s, g.trace);
    }
  }

  /** Ids that are not of the group keep their value. */
  lemma {:induction false} ScopeOutside(p: Program, fuel: nat, bs: List<Binding>, env: Env, t: Trace)
    requires EvalBindings(p, fuel, bs, bs, env, t).Got?
    ensures var inner := Scope(bs, EvalBindings(p, fuel, bs, bs, env, t).value);
            forall x :: x !in BoundIds(bs) ==> Lookup(inner, x) == Lookup(env, x)
  {
    var base := EvalBindings(p, fuel, bs, bs, env, t).value;
    forall x | x !in BoundIds(bs) ensures Lookup(Scope(bs, base), x) == Lookup(env, x) {
      GroupResult(p, fuel, bs, bs, env, t, x);
      LookupInScope(bs, bs, base, x);
      if IsFunction(bs, x) { FunctionBound(bs, x); }
    }
  }

  /** No binding of `bs` has an id twice, and none is bound in `base` yet. */
  ghost predicate ToBind(bs: List<Binding>, group: List<Binding>, base: Env) {
    match bs
    case Nil => true
    case Cons(b, rest) =>
      && b.id !in BoundIds(rest) && Lookup(base, b.id).None? && (IsFunction(group, b.id) <==> AsLambda(b.value).Some?)
      && b.id in BoundIds(group) && ToBind(rest, group, base)
  }

  lemma {:induction false} ToBindAfter(bs: List<Binding>, group: List<Binding>, base: Env, x: Id, v: Value)
    requires ToBind(bs, group, base) && x !in BoundIds(bs)
    ensures ToBind(bs, group, Cons(Entry(x, v), base))
  {
    match bs
    case Nil =>
    case Cons(_, rest) => ToBindAfter(rest, group, base, x, v);
  }

  lemma {:induction false} UniqueToBind(bs: List<Binding>, group: List<Binding>, base: Env)
    requires UniqueBindings(bs) && Unbound(base, BoundIds(bs)) && BoundIds(bs) <= BoundIds(group)
    requires forall x <- BoundIds(bs) :: IsFunction(group, x) == IsFunction(bs, x)
    ensures ToBind(bs, group, base)
  {
    match bs
    case Nil =>
    case Cons(b, rest) =>
      BoundWithin(rest);
      if IsFunction(rest, b.id) { FunctionBound(rest, b.id); }
      UniqueToBind(rest, group, base);
  }

  ghost predicate ValuesApart(bs: List<Binding>, s: set<Id>, env: Env, group: List<Binding>) {
    match bs
    case Nil => true
    case Cons(b, rest) =>
      && Unique(b.value) && Ids(b.value) !! s && Ids(b.value) !! BoundIds(group) && Unbound(env, Ids(b.value))
      && ValuesApart(rest, s, env, group)
  }

  lemma {:induction false} UniqueValuesApart(bs: List<Binding>, s: set<Id>, env: Env, group: List<Binding>,
                                             bound: set<Id>)
    requires UniqueBindings(bs) && Unbound(env, IdsBindings(bs)) && s !! IdsBindings(bs) - BoundIds(bs)
    requires BoundIds(group) !! IdsBindings(bs) - BoundIds(bs)
    ensures ValuesApart(bs, s, env, group)
  {
    match bs
    case Nil =>
    case Cons(b, rest) =>
      BoundWithin(rest);
      assert Ids(b.value) !! BoundIds(rest);
      assert Ids(b.value) <= IdsBindings(bs) - BoundIds(bs);
      assert IdsBindings(rest) - BoundIds(rest) <= IdsBindings(bs) - BoundIds(bs);
      UniqueValuesApart(rest, s, env, group, bound);
  }

  /** The truths of the final scope justify every binding of the group. */
  lemma {:induction false} GroupTruths(p: Program, modules: seq<Module>, known: set<Symbol>, fuel: nat,
                                       bs: List<Binding>, group: List<Binding>, env: Env, t: Trace, s: set<Id>,
                                       inner: Env, locals: set<Id>)
    requires Realises(p, modules) && Least(modules, known) && bs == group && UniqueBindings(bs)
             && IdsBindings(bs) !! locals
    requires Unbound(env, IdsBindings(bs)) && TrueLocals(env, locals)
    requires EvalBindings(p, fuel, bs, group, env, t).Got?
             && inner == Scope(group, EvalBindings(p, fuel, bs, group, env, t).value)
    requires s == Truths(group, inner, locals)
    ensures Justified(bs, known, s)
    decreases fuel, SizeBindings(bs), 1
  {
    BoundWithin(bs);
    UniqueInner(bs);
    UniqueToBind(bs, group, env);
    UniqueValuesApart(bs, s, env, group, {});
    EachTruth(p, modules, known, fuel, bs, group, env, env, t, s, inner, locals);
  }

  lemma {:induction false} UniqueInner(bs: List<Binding>)
    requires UniqueBindings(bs)
    ensures BoundIds(bs) <= IdsBindings(bs)
  {
    BoundWithin(bs);
  }

  lemma {:induction false} EachTruth(p: Program, modules: seq<Module>, known: set<Symbol>, fuel: nat, bs: List<Binding>,
                                     group: List<Binding>, env: Env, base: Env, t: Trace, s: set<Id>, inner: Env,
                                     locals: set<Id>)
    requires Realises(p, modules) && Least(modules, known) && ToBind(bs, group, base) && ValuesApart(bs, s, env, group)
    requires TrueLocals(env, locals) && locals !! BoundIds(group)
    requires forall x :: x !in BoundIds(group) ==> Lookup(base, x) == Lookup(env, x)
    requires EvalBindings(p, fuel, bs, group, base, t).Got?
             && inner == Scope(group, EvalBindings(p, fuel, bs, group, base, t).value)
    requires s == Truths(group, inner, locals)
    ensures Justified(bs, known, s)
    decreases fuel, SizeBindings(bs), 0
  {
    if bs.Cons? {
      var b, rest := bs.head, bs.tail;
      if AsLambda(b.value).Some? {
        LambdaNotTrue(b.value, known, s);
        EachTruth(p, modules, known, fuel, rest, group, env, base, t, s, inner, locals);
      } else {
        var r := Eval(p, fuel, Scope(group, base), b.value, t);
        var base' := Cons(Entry(b.id, r.outcome.value), base);
        if Holds(b.value, known, s) {
          ScopeTruths(p, fuel, bs, group, env, base, t, s, inner, locals);
          TruthEval(p, modules, known, fuel, Scope(group, base), b.value, s, t);
          GroupResult(p, fuel, rest, group, base', r.trace, b.id);
          LookupInScope(group, group, EvalBindings(p, fuel, rest, group, base', r.trace).value, b.id);
          assert TrueOrUnbound(inner, b.id);
        }
        ToBindAfter(rest, group, base, b.id, r.outcome.value);
        EachTruth(p, modules, known, fuel, rest, group, env, base', r.trace, s, inner, locals);
      }
    }
  }

  /** While the group is being evaluated, an id that ends up true is true or not bound yet. */
  lemma {:induction false} ScopeTruths(p: Program, fuel: nat, bs: List<Binding>, group: List<Binding>, env: Env,
                                       base: Env, t: Trace, s: set<Id>, inner: Env, locals: set<Id>)
    requires ToBind(bs, group, base) && bs.Cons? && ValuesApart(bs, s, env, group) && TrueLocals(env, locals)
             && locals !! BoundIds(group)
    requires forall x :: x !in BoundIds(group) ==> Lookup(base, x) == Lookup(env, x)
    requires EvalBindings(p, fuel, bs, group, base, t).Got?
             && inner == Scope(group, EvalBindings(p, fuel, bs, group, base, t).value)
    requires s == Truths(group, inner, locals)
    ensures TrueLocals(Scope(group, base), s) && Unbound(Scope(group, base), Ids(bs.head.value))
  {
    var final := EvalBindings(p, fuel, bs, group, base, t).value;
    forall x | x in s ensures TrueOrUnbound(Scope(group, base), x) {
      LookupInScope(group, group, base, x);
      LookupInScope(group, group, final, x);
      if IsFunction(group, x) { FunctionBound(group, x); }
      if x in BoundIds(group) {
        assert TrueOrUnbound(inner, x);
        if x in BoundIds(bs) { NotYetBound(bs, group, base, x); } else { GroupResult(p, fuel, bs, group, base, t, x); }
      } else {
        assert TrueOrUnbound(env, x);
      }
    }
    forall x | x in Ids(bs.head.value) ensures Lookup(Scope(group, base), x).None? {
      LookupInScope(group, group, base, x);
      if IsFunction(group, x) { FunctionBound(group, x); }
    }
  }

  lemma {:induction false} NotYetBound(bs: List<Binding>, group: List<Binding>, base: Env, x: Id)
    requires ToBind(bs, group, base) && x in BoundIds(bs)
    ensures Lookup(base, x).None?
  {
    if bs.head.id != x { NotYetBound(bs.tail, group, base, x); }
  }

  /** A symbol the analysis finds evaluates to true, whenever it finishes. */
  lemma TrueSymbolsMeanTrue(p: Program, modules: seq<Module>, known: set<Symbol>, s: Symbol, fuel: nat, t: Trace)
    requires Realises(p, modules) && Least(modules, known) && s in known
    ensures var r := EvalGlobal(p, fuel, s, t); r.outcome.Finished? ==> r.outcome.value == Plain(Boolean(true))
  {
    TruthGlobal(p, modules, known, fuel, s, t);
  }

  // ----- Exhaustive right-hand sides -----

  /** The analysis takes an expression for true: a known symbol, under type annotations. */
  predicate IsTrue(e: Expr, known: set<Symbol>) {
    match e
    case Global(s) => s in known
    case Compound(_, parts) => IsTyped(e) && IsTrue(parts.head, known)
    case _ => false
  }

  /** `pattern_is_irrefutable`: names, annotations, and records of such patterns. */
  predicate Irrefutable(q: Pattern)
    decreases q
  {
    match q
    case Wildcard => true
    case Bind(_) => true
    case Named(_, inner) => Irrefutable(inner)
    case Shaped(shape, parts) =>
      if shape.TypedShape? then parts.Cons? && parts.tail.Nil? && Irrefutable(parts.head)
      else shape.RecordShape? && AllIrrefutable(parts)
  }

  predicate AllIrrefutable(ps: List<Pattern>)
    decreases ps
  {
    match ps
    case Nil => true
    case Cons(q, rest) => Irrefutable(q) && AllIrrefutable(rest)
  }

  /** The value has the fields that record patterns name, as every value of the pattern's type does. */
  predicate HasFields(q: Pattern, v: Value)
    decreases q
  {
    match q
    case Named(_, inner) => HasFields(inner, v)
    case Shaped(TypedShape(_), parts) => parts.Cons? ==> HasFields(parts.head, v)
    case Shaped(RecordShape(labels, exact), parts) =>
      v.Data? && v.tag.RecordTag? && (exact ==> |v.tag.labels| == |labels|) && EachField(labels, parts, v)
    case _ => true
  }

  predicate EachField(labels: seq<string>, ps: List<Pattern>, v: Value)
    requires v.Data? && v.tag.RecordTag?
    decreases ps
  {
    match ps
    case Nil => labels == []
    case Cons(q, rest) =>
      labels != []
      && (match FieldAt(v.tag.labels, v.parts, labels[0])
          case None => false
          case Some(field) => HasFields(q, field))
      && EachField(labels[1..], rest, v)
  }

  predicate Passes(g: Guard, known: set<Symbol>) {
    match g
    case Test(c) => IsTrue(c, known)
    case Match(q, _) => Irrefutable(q)
    case Bindings(_) => true
  }

  predicate AllPass(gs: List<Guard>, known: set<Symbol>) {
    match gs
    case Nil => true
    case Cons(g, rest) => Passes(g, known) && AllPass(rest, known)
  }

  predicate AnyPasses(cs: List<Clause>, known: set<Symbol>) {
    match cs
    case Nil => false
    case Cons(c, rest) => AllPass(c.guards, known) || AnyPasses(rest, known)
  }

  /** `guarded_rhs_exhaustive` */
  predicate Exhaustive(e: Expr, known: set<Symbol>) {
    match e
    case Guarded(cs) => AnyPasses(cs, known)
    case Let(_, b) => Exhaustive(b, known)
    case _ => false
  }

  lemma {:induction false} TrueCondition(p: Program, modules: seq<Module>, known: set<Symbol>, fuel: nat, env: Env,
                                         e: Expr, t: Trace)
    requires Realises(p, modules) && Least(modules, known) && IsTrue(e, known)
    ensures OnlyTrue(Eval(p, fuel, env, e, t))
    decreases e
  {
    match e
    case Global(s) => TruthGlobal(p, modules, known, fuel, s, t);
    case Compound(form, parts) =>
      TrueCondition(p, modules, known, fuel, env, parts.head, t);
      var r := Eval(p, fuel, env, parts.head, t);
      if r.outcome.Finished? {
        assert EvalParts(p, fuel, env, parts.tail, r.trace) == Got(Nil, r.trace);
        assert EvalParts(p, fuel, env, parts, t) == Got(Cons(r.outcome.value, Nil), r.trace);
      } else {
        assert EvalParts(p, fuel, env, parts, t) == Lost(r);
      }
  }

  lemma {:induction false} AlwaysMatches(q: Pattern, v: Value, env: Env)
    requires Irrefutable(q) && HasFields(q, v)
    ensures Matched(q, v, env).Some?
    decreases q
  {
    match q
    case Wildcard =>
    case Bind(_) =>
    case Named(x, inner) => AlwaysMatches(inner, v, Cons(Entry(x, v), env));
    case Shaped(shape, parts) =>
      if shape.TypedShape? {
        AlwaysMatches(parts.head, v, env);
        assert Fields(shape, v) == Some(Cons(v, Nil));
        var env' := Matched(parts.head, v, env).value;
        assert MatchedAll(parts.tail, Nil, env') == Some(env');
      } else {
        FieldsMatch(shape.labels, parts, v, env);
      }
  }

  lemma {:induction false} FieldsMatch(labels: seq<string>, ps: List<Pattern>, v: Value, env: Env)
    requires AllIrrefutable(ps) && v.Data? && v.tag.RecordTag? && EachField(labels, ps, v)
    ensures var fields := FieldsAt(v.tag.labels, v.parts, labels);
            fields.Some? && MatchedAll(ps, fields.value, env).Some?
    decreases ps
  {
    match ps
    case Nil =>
    case Cons(q, rest) =>
      var field := FieldAt(v.tag.labels, v.parts, labels[0]).value;
      AlwaysMatches(q, field, env);
      FieldsMatch(labels[1..], rest, v, Matched(q, field, env).value);
  }

  // ----- Evaluations in which record patterns meet records -----

  /** Whenever the evaluation of the guards comes to a pattern, the value has the pattern's fields. */
  predicate GuardsTyped(p: Program, fuel: nat, env: Env, gs: List<Guard>, t: Trace)
    decreases gs
  {
    match gs
    case Nil => true
    case Cons(g, rest) =>
      match g
      case Test(c) => GuardsTyped(p, fuel, env, rest, Eval(p, fuel, env, c, t).trace)
      case Match(q, e) =>
        var r := Eval(p, fuel, env, e, t);
        r.outcome.Finished? ==>
          && HasFields(q, r.outcome.value)
          && var inner := Matched(q, r.outcome.value, env);
             inner.Some? ==> GuardsTyped(p, fuel, inner.value, rest, r.trace)
      case Bindings(bs) =>
        var b := EvalBindings(p, fuel, bs, bs, env, t);
        b.Got? ==> GuardsTyped(p, fuel, Scope(bs, b.value), rest, b.trace)
  }

  predicate ClausesTyped(p: Program, fuel: nat, env: Env, cs: List<Clause>, t: Trace)
    decreases cs
  {
    match cs
    case Nil => true
    case Cons(c, rest) =>
      var b := EvalBindings(p, fuel, c.wheres, c.wheres, env, t);
      b.Got? ==>
        && GuardsTyped(p, fuel, Scope(c.wheres, b.value), c.guards, b.trace)
        && var r := EvalGuards(p, fuel, Scope(c.wheres, b.value), c.guards, c.value, b.trace);
           r.outcome.Fell? ==> ClausesTyped(p, fuel, env, rest, r.trace)
  }

  predicate Typed(p: Program, fuel: nat, env: Env, e: Expr, t: Trace)
    decreases e
  {
    match e
    case Guarded(cs) => ClausesTyped(p, fuel, env, cs, t)
    case Let(bs, b) =>
      var g := EvalBindings(p, fuel, bs, bs, env, t);
      g.Got? ==> Typed(p, fuel, Scope(bs, g.value), b, g.trace)
    case _ => true
  }

  lemma {:induction false} PassingGuards(p: Program, modules: seq<Module>, known: set<Symbol>, fuel: nat, env: Env,
                                         gs: List<Guard>, value: Expr, t: Trace)
    requires Realises(p, modules) && Least(modules, known) && AllPass(gs, known) && GuardsTyped(p, fuel, env, gs, t)
    ensures !EvalGuards(p, fuel, env, gs, value, t).outcome.Fell?
    decreases gs
  {
    match gs
    case Nil => NeverFell(p, fuel, env, value, t);
    case Cons(g, rest) =>
      match g
      case Test(c) =>
        TrueCondition(p, modules, known, fuel, env, c, t);
        NeverFell(p, fuel, env, c, t);
        PassingGuards(p, modules, known, fuel, env, rest, value, Eval(p, fuel, env, c, t).trace);
      case Match(q, e) =>
        NeverFell(p, fuel, env, e, t);
        var r := Eval(p, fuel, env, e, t);
        if r.outcome.Finished? {
          AlwaysMatches(q, r.outcome.value, env);
          PassingGuards(p, modules, known, fuel, Matched(q, r.outcome.value, env).value, rest, value, r.trace);
        }
      case Bindings(bs) =>
        NeverFellBindings(p, fuel, bs, bs, env, t);
        var b := EvalBindings(p, fuel, bs, bs, env, t);
        if b.Got? { PassingGuards(p, modules, known, fuel, Scope(bs, b.value), rest, value, b.trace); }
  }

  lemma {:induction false} PassingClause(p: Program, modules: seq<Module>, known: set<Symbol>, fuel: nat, env: Env,
                                         cs: List<Clause>, t: Trace)
    requires Realises(p, modules) && Least(modules, known) && AnyPasses(cs, known) && ClausesTyped(p, fuel, env, cs, t)
    ensures !EvalClauses(p, fuel, env, cs, t).outcome.Fell?
    decreases cs
  {
    var c, rest := cs.head, cs.tail;
    NeverFellBindings(p, fuel, c.wheres, c.wheres, env, t);
    var b := EvalBindings(p, fuel, c.wheres, c.wheres, env, t);
    if b.Got? {
      var r := EvalGuards(p, fuel, Scope(c.wheres, b.value), c.guards, c.value, b.trace);
      if AllPass(c.guards, known) {
        PassingGuards(p, modules, known, fuel, Scope(c.wheres, b.value), c.guards, c.value, b.trace);
      } else if r.outcome.Fell? {
        PassingClause(p, modules, known, fuel, env, rest, r.trace);
      }
    }
  }

  /** A right-hand side found exhaustive never falls through to the next row, in an evaluation in which record
      patterns only meet records with their fields. */
  lemma {:induction false} ExhaustiveNeverFalls(p: Program, modules: seq<Module>, known: set<Symbol>, fuel: nat,
                                                env: Env, e: Expr, t: Trace)
    requires Realises(p, modules) && Least(modules, known) && Exhaustive(e, known) && Typed(p, fuel, env, e, t)
    ensures !EvalRhs(p, fuel, env, e, t).outcome.Fell?
    decreases e
  {
    match e
    case Guarded(cs) => PassingClause(p, modules, known, fuel, env, cs, t);
    case Let(bs, b) =>
      NeverFellBindings(p, fuel, bs, bs, env, t);
      var g := EvalBindings(p, fuel, bs, bs, env, t);
      if g.Got? { ExhaustiveNeverFalls(p, modules, known, fuel, Scope(bs, g.value), b, g.trace); }
  }

  // ----- Without record patterns every evaluation is such -----

  predicate RecordFree(q: Pattern) {
    match q
    case Named(_, inner) => RecordFree(inner)
    case Shaped(shape, parts) => !shape.RecordShape? && (shape.TypedShape? && parts.Cons? ==> RecordFree(parts.head))
    case _ => true
  }

  predicate RecordFreeGuards(gs: List<Guard>) {
    match gs
    case Nil => true
    case Cons(g, rest) => (g.Match? ==> RecordFree(g.pattern)) && RecordFreeGuards(rest)
  }

  predicate RecordFreeClauses(cs: List<Clause>) {
    match cs
    case Nil => true
    case Cons(c, rest) => RecordFreeGuards(c.guards) && RecordFreeClauses(rest)
  }

  predicate RecordFreeRhs(e: Expr) {
    match e
    case Guarded(cs) => RecordFreeClauses(cs)
    case Let(_, b) => RecordFreeRhs(b)
    case _ => true
  }

  lemma {:induction false} RecordFreeFields(q: Pattern, v: Value)
    requires RecordFree(q)
    ensures HasFields(q, v)
  {
    match q
    case Named(_, inner) => RecordFreeFields(inner, v);
    case Shaped(shape, parts) => if shape.TypedShape? && parts.Cons? { RecordFreeFields(parts.head, v); }
    case _ =>
  }

  lemma {:induction false} RecordFreeGuardsTyped(p: Program, fuel: nat, env: Env, gs: List<Guard>, t: Trace)
    requires RecordFreeGuards(gs)
    ensures GuardsTyped(p, fuel, env, gs, t)
    decreases gs
  {
    match gs
    case Nil =>
    case Cons(g, rest) =>
      match g
      case Test(c) => RecordFreeGuardsTyped(p, fuel, env, rest, Eval(p, fuel, env, c, t).trace);
      case Match(q, e) =>
        var r := Eval(p, fuel, env, e, t);
        if r.outcome.Finished? {
          RecordFreeFields(q, r.outcome.value);
          var inner := Matched(q, r.outcome.value, env);
          if inner.Some? { RecordFreeGuardsTyped(p, fuel, inner.value, rest, r.trace); }
        }
      case Bindings(bs) =>
        var b := EvalBindings(p, fuel, bs, bs, env, t);
        if b.Got? { RecordFreeGuardsTyped(p, fuel, Scope(bs, b.value), rest, b.trace); }
  }

  lemma {:induction false} RecordFreeClausesTyped(p: Program, fuel: nat, env: Env, cs: List<Clause>, t: Trace)
    requires RecordFreeClauses(cs)
    ensures ClausesTyped(p, fuel, env, cs, t)
    decreases cs
  {
    match cs
    case Nil =>
    case Cons(c, rest) =>
      var b := EvalBindings(p, fuel, c.wheres, c.wheres, env, t);
      if b.Got? {
        RecordFreeGuardsTyped(p, fuel, Scope(c.wheres, b.value), c.guards, b.trace);
        var r := EvalGuards(p, fuel, Scope(c.wheres, b.value), c.guards, c.value, b.trace);
        RecordFreeClausesTyped(p, fuel, env, rest, r.trace);
      }
  }

  lemma {:induction false} RecordFreeTyped(p: Program, fuel: nat, env: Env, e: Expr, t: Trace)
    requires RecordFreeRhs(e)
    ensures Typed(p, fuel, env, e, t)
    decreases e
  {
    match e
    case Guarded(cs) => RecordFreeClausesTyped(p, fuel, env, cs, t);
    case Let(bs, b) =>
      var g := EvalBindings(p, fuel, bs, bs, env, t);
      if g.Got? { RecordFreeTyped(p, fuel, Scope(bs, g.value), b, g.trace); }
    case _ =>
  }
}
