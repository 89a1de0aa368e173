/** What expressions mean before and after the operator pass (crates/psrs-desugar/src/lib.rs,
    `desugar_expr`), in every model of calls and functions.
 */
module OperatorMeaning {
  import opened Lists
  import opened OperatorPass
  import Fixity

  type Scope<V> = map<Id, V>

  /** A model gives values `V` and computations `C`. `call` evaluates a function and its argument in an order of
      its own; `form` may evaluate its parts any number of times, each with further variables in scope. */
  datatype Model<!V, !C> = Model(
    value: V -> C,
    unbound: Id -> C,
    global: nat -> C,
    call: (C, C) -> C,
    abstraction: (V -> C) -> C,
    form: (nat, seq<Scope<V> -> C>) -> C)

  /** Functions that agree everywhere are the same to the model. */
  ghost predicate Extensional<V(!new), C(!new)>(m: Model<V, C>) {
    OneAbstraction(m) && OneForm(m)
  }

  ghost predicate OneAbstraction<V(!new), C(!new)>(m: Model<V, C>) {
    forall f: V -> C, g: V -> C :: (forall v :: f(v) == g(v)) ==> m.abstraction(f) == m.abstraction(g)
  }

  ghost predicate OneForm<V(!new), C(!new)>(m: Model<V, C>) {
    forall form: nat, fs: seq<Scope<V> -> C>, gs: seq<Scope<V> -> C> ::
      SameParts(fs, gs) ==> m.form(form, fs) == m.form(form, gs)
  }

  ghost predicate SameParts<V(!new), C(!new)>(fs: seq<Scope<V> -> C>, gs: seq<Scope<V> -> C>) {
    |fs| == |gs| && forall i, more :: 0 <= i < |fs| ==> fs[i](more) == gs[i](more)
  }

  function Extend<V>(env: Scope<V>, x: Id, v: V): Scope<V> {
    env[x := v]
  }

  function Variable<V, C>(m: Model<V, C>, env: Scope<V>, x: Id): C {
    if x in env then m.value(env[x]) else m.unbound(x)
  }

  function Callee<V(!new), C(!new)>(m: Model<V, C>, env: Scope<V>, head: Head): C {
    match head
    case GlobalHead(s) => m.global(s)
    case LocalHead(x) => Variable(m, env, x)
  }

  /** A call of an operator: of the operator on the left operand, and of that on the right one. */
  function Infix<V(!new), C(!new)>(m: Model<V, C>, operator: C, left: C, right: C): C {
    m.call(m.call(operator, left), right)
  }

  /** The calls of a tree over operands that are computed already. */
  function Calls<V(!new), C(!new)>(m: Model<V, C>, env: Scope<V>, heads: seq<Operator>, t: Fixity.Tree<C>): C
    requires forall op <- Fixity.Operators(t) :: op.symbol < |heads|
  {
    match t
    case Leaf(c) => c
    case Branch(op, l, r) =>
      assert op in Fixity.Operators(t);
      assert forall o <- Fixity.Operators(l) :: o in Fixity.Operators(t);
      assert forall o <- Fixity.Operators(r) :: o in Fixity.Operators(t);
      Infix(m, Callee(m, env, heads[op.symbol].head), Calls(m, env, heads, l), Calls(m, env, heads, r))
  }

  lemma {:induction false} FixitiesInside(heads: seq<Operator>)
    ensures forall op <- Fixities(heads) :: op.symbol < |heads|
  {
  }

  /** The operators of a chain in their order, each with its own precedence and associativity. */
  predicate InOrder(ops: seq<Fixity.Operator>, heads: seq<Operator>) {
    |ops| == |heads| && forall i :: 0 <= i < |ops| ==>
                          ops[i].symbol == i && ops[i].assoc == heads[i].assoc && ops[i].prec == heads[i].prec
  }

  lemma {:induction false} OrderIs(ops: seq<Fixity.Operator>, heads: seq<Operator>)
    ensures InOrder(ops, heads) <==> ops == Fixities(heads)
  {
  }

  function OperatorsOf(links: List<Link>): (r: seq<Operator>)
    ensures |r| == Length(links)
  {
    match links
    case Nil => []
    case Cons(link, rest) => [link.operator] + OperatorsOf(rest)
  }

  lemma {:induction false} OperatorsAre(links: List<Link>)
    ensures OperatorsOf(links) == Heads(links)
  {
    if links.Cons? { OperatorsAre(links.tail); }
  }

  /** A chain means the calls of its precedence-correct tree, a section the function of its missing operand, which
      its operand does not see, and a negation the call of its function. */
  ghost function Meaning<V(!new), C(!new)>(m: Model<V, C>, env: Scope<V>, e: Expr): C
    decreases e, 1
  {
    match e
    case Local(x) => Variable(m, env, x)
    case Global(s) => m.global(s)
    case Compound(form, parts) => m.form(form, Parts(m, env, parts))
    case Apply(f, a) => m.call(Meaning(m, env, f), Meaning(m, env, a))
    case Binary(s, l, r) => Infix(m, m.global(s), Meaning(m, env, l), Meaning(m, env, r))
    case Negate(f, a) => m.call(Meaning(m, env, f), Meaning(m, env, a))
    case Lambda(x, b) => m.abstraction(v => Meaning(m, Extend(env, x, v), b))
    case Section(operator, operand, _, OnLeft) =>
      m.abstraction(v => Infix(m, Callee(m, env, operator.head), Meaning(m, env, operand), m.value(v)))
    case Section(operator, operand, _, OnRight) =>
      m.abstraction(v => Infix(m, Callee(m, env, operator.head), m.value(v), Meaning(m, env, operand)))
    case Chain(first, links) =>
      Chained(m, env, OperatorsOf(links), [Meaning(m, env, first)] + Operands(m, env, links))
  }

  /** The calls of the one precedence-correct tree that reads as the chain. */
  ghost function Chained<V(!new), C(!new)>(m: Model<V, C>, env: Scope<V>, heads: seq<Operator>,
                                           operands: seq<C>): (r: C)
    requires |operands| == |heads| + 1
    ensures exists t :: ReadsAs(m, env, heads, operands, t, r)
  {
    Fixity.ReassociatedReads(operands, Fixities(heads));
    FixitiesInside(heads);
    var t :| Fixity.Reads(t, operands, Fixities(heads));
    OrderIs(Fixity.Operators(t), heads);
    assert ReadsAs(m, env, heads, operands, t, Calls(m, env, heads, t));
    Calls(m, env, heads, t)
  }

  ghost predicate ReadsAs<V(!new), C(!new)>(m: Model<V, C>, env: Scope<V>, heads: seq<Operator>, operands: seq<C>,
                                            t: Fixity.Tree<C>, r: C) {
    && Fixity.Correct(t) && Fixity.Operands(t) == operands && InOrder(Fixity.Operators(t), heads)
    && (forall op <- Fixity.Operators(t) :: op.symbol < |heads|) && r == Calls(m, env, heads, t)
  }

  ghost function Operands<V(!new), C(!new)>(m: Model<V, C>, env: Scope<V>, links: List<Link>): (r: seq<C>)
    ensures |r| == Length(links)
    decreases links, 0
  {
    match links
    case Nil => []
    case Cons(link, rest) => [Meaning(m, env, link.operand)] + Operands(m, env, rest)
  }

  ghost function Parts<V(!new), C(!new)>(m: Model<V, C>, env: Scope<V>, parts: List<Expr>): seq<Scope<V> -> C>
    decreases parts, 0
  {
    match parts
    case Nil => []
    case Cons(e, rest) => [(more: Scope<V>) => Meaning(m, env + more, e)] + Parts(m, env, rest)
  }

  lemma {:induction false} ChainedIs<V(!new), C(!new)>(m: Model<V, C>, env: Scope<V>, heads: seq<Operator>,
                                                       operands: seq<C>, t: Fixity.Tree<C>)
    requires |operands| == |heads| + 1 && Fixity.Reads(t, operands, Fixities(heads))
    ensures (forall op <- Fixity.Operators(t) :: op.symbol < |heads|)
            && Chained(m, env, heads, operands) == Calls(m, env, heads, t)
  {
    FixitiesInside(heads);
    var c := Chained(m, env, heads, operands);
    var u :| ReadsAs(m, env, heads, operands, u, c);
    OrderIs(Fixity.Operators(u), heads);
    Fixity.ReadingUnique(t, u);
  }

  // ----- Variables that an expression does not use -----

  predicate Uses(e: Expr, x: Id) {
    match e
    case Local(y) => x == y
    case Global(_) => false
    case Compound(_, parts) => AnyUses(parts, x)
    case Apply(f, a) => Uses(f, x) || Uses(a, x)
    case Binary(_, l, r) => Uses(l, x) || Uses(r, x)
    case Negate(f, a) => Uses(f, x) || Uses(a, x)
    case Lambda(y, b) => x != y && Uses(b, x)
    case Section(operator, operand, _, _) => operator.head == LocalHead(x) || Uses(operand, x)
    case Chain(first, links) => Uses(first, x) || LinksUse(links, x)
  }

  predicate AnyUses(es: List<Expr>, x: Id) {
    match es
    case Nil => false
    case Cons(e, rest) => Uses(e, x) || AnyUses(rest, x)
  }

  predicate LinksUse(links: List<Link>, x: Id) {
    match links
    case Nil => false
    case Cons(link, rest) => link.operator.head == LocalHead(x) || Uses(link.operand, x) || LinksUse(rest, x)
  }

  lemma {:induction false} Unused<V(!new), C(!new)>(m: Model<V, C>, env: Scope<V>, e: Expr, x: Id, v: V)
    requires Extensional(m) && !Uses(e, x)
    ensures Meaning(m, Extend(env, x, v), e) == Meaning(m, env, e)
    decreases e, 1
  {
    match e
    case Local(_) =>
    case Global(_) =>
    case Compound(_, parts) => UnusedParts(m, env, parts, x, v);
    case Apply(f, a) => Unused(m, env, f, x, v); Unused(m, env, a, x, v);
    case Binary(_, l, r) => Unused(m, env, l, x, v); Unused(m, env, r, x, v);
    case Negate(f, a) => Unused(m, env, f, x, v); Unused(m, env, a, x, v);
    case Lambda(y, b) => UnusedInside(m, env, y, b, x, v);
    case Section(operator, operand, _, side) =>
      Unused(m, env, operand, x, v);
      assert Callee(m, Extend(env, x, v), operator.head) == Callee(m, env, operator.head);
    case Chain(first, links) =>
      Unused(m, env, first, x, v);
      UnusedOperands(m, env, links, x, v);
      UnusedChained(m, env, links, [Meaning(m, env, first)] + Operands(m, env, links), x, v);
  }

  lemma {:induction false} UnusedInside<V(!new), C(!new)>(m: Model<V, C>, env: Scope<V>, y: Id, b: Expr, x: Id, v: V)
    requires Extensional(m) && !Uses(Lambda(y, b), x)
    ensures Meaning(m, Extend(env, x, v), Lambda(y, b)) == Meaning(m, env, Lambda(y, b))
    decreases b, 2
  {
    forall w
      ensures Meaning(m, Extend(Extend(env, x, v), y, w), b) == Meaning(m, Extend(env, y, w), b)
    {
      if x == y {
        assert Extend(Extend(env, x, v), y, w) == Extend(env, y, w);
      } else {
        Unused(m, Extend(env, y, w), b, x, v);
        assert Extend(Extend(env, x, v), y, w) == Extend(Extend(env, y, w), x, v);
      }
    }
  }

  lemma {:induction false} UnusedParts<V(!new), C(!new)>(m: Model<V, C>, env: Scope<V>, parts: List<Expr>, x: Id, v: V)
    requires Extensional(m) && !AnyUses(parts, x)
    ensures SameParts(Parts(m, Extend(env, x, v), parts), Parts(m, env, parts))
    decreases parts, 0
  {
    match parts
    case Nil =>
    case Cons(e, rest) =>
      UnusedParts(m, env, rest, x, v);
      forall more: Scope<V>
        ensures Meaning(m, Extend(env, x, v) + more, e) == Meaning(m, env + more, e)
      {
        if x in more {
          assert Extend(env, x, v) + more == env + more;
        } else {
          assert Extend(env, x, v) + more == Extend(env + more, x, v);
          Unused(m, env + more, e, x, v);
        }
      }
  }

  lemma {:induction false} UnusedOperands<V(!new), C(!new)>(m: Model<V, C>, env: Scope<V>, links: List<Link>, x: Id,
                                                            v: V)
    requires Extensional(m) && !LinksUse(links, x)
    ensures Operands(m, Extend(env, x, v), links) == Operands(m, env, links)
    decreases links, 0
  {
    match links
    case Nil =>
    case Cons(link, rest) => Unused(m, env, link.operand, x, v); UnusedOperands(m, env, rest, x, v);
  }

  lemma {:induction false} UnusedChained<V(!new), C(!new)>(m: Model<V, C>, env: Scope<V>, links: List<Link>,
                                                           operands: seq<C>, x: Id, v: V)
    requires !LinksUse(links, x) && |operands| == Length(links) + 1
    ensures Chained(m, Extend(env, x, v), OperatorsOf(links), operands)
         == Chained(m, env, OperatorsOf(links), operands)
  {
    var heads := Heads(links);
    OperatorsAre(links);
    var t := Fixity.Reassociated(operands, Fixities(heads));
    Fixity.ReassociatedReads(operands, Fixities(heads));
    ChainedIs(m, env, heads, operands, t);
    ChainedIs(m, Extend(env, x, v), heads, operands, t);
    UnusedHeads(links, x);
    UnusedCalls(m, env, heads, t, x, v);
  }

  lemma {:induction false} UnusedHeads(links: List<Link>, x: Id)
    requires !LinksUse(links, x)
    ensures forall operator <- Heads(links) :: operator.head != LocalHead(x)
  {
    if links.Cons? { UnusedHeads(links.tail, x); }
  }

  lemma {:induction false} UnusedCalls<V(!new), C(!new)>(m: Model<V, C>, env: Scope<V>, heads: seq<Operator>,
                                                         t: Fixity.Tree<C>, x: Id, v: V)
    requires forall op <- Fixity.Operators(t) :: op.symbol < |heads|
    requires forall operator <- heads :: operator.head != LocalHead(x)
    ensures Calls(m, Extend(env, x, v), heads, t) == Calls(m, env, heads, t)
  {
    match t
    case Leaf(_) =>
    case Branch(op, l, r) =>
      assert op in Fixity.Operators(t);
      assert forall o <- Fixity.Operators(l) :: o in Fixity.Operators(t);
      assert forall o <- Fixity.Operators(r) :: o in Fixity.Operators(t);
      UnusedCalls(m, env, heads, l, x, v);
      UnusedCalls(m, env, heads, r, x, v);
      assert heads[op.symbol] in heads;
  }

  // ----- The pass keeps the meaning -----

  /** The binder of a section is new: neither its operator nor its operand uses it. */
  predicate SectionsFresh(e: Expr) {
    match e
    case Compound(_, parts) => AllFresh(parts)
    case Apply(f, a) => SectionsFresh(f) && SectionsFresh(a)
    case Binary(_, l, r) => SectionsFresh(l) && SectionsFresh(r)
    case Negate(f, a) => SectionsFresh(f) && SectionsFresh(a)
    case Lambda(_, b) => SectionsFresh(b)
    case Section(operator, operand, binder, _) =>
      operator.head != LocalHead(binder) && !Uses(operand, binder) && SectionsFresh(operand)
    case Chain(first, links) => SectionsFresh(first) && LinksFresh(links)
    case _ => true
  }

  predicate AllFresh(es: List<Expr>) {
    match es
    case Nil => true
    case Cons(e, rest) => SectionsFresh(e) && AllFresh(rest)
  }

  predicate LinksFresh(links: List<Link>) {
    match links
    case Nil => true
    case Cons(link, rest) => SectionsFresh(link.operand) && LinksFresh(rest)
  }

  /** The operator pass keeps the meaning of every expression, in every model. */
  lemma {:induction false} DesugarMeans<V(!new), C(!new)>(m: Model<V, C>, env: Scope<V>, e: Expr)
    requires Extensional(m) && SectionsFresh(e)
    ensures Meaning(m, env, Desugar(e)) == Meaning(m, env, e)
    decreases e, 1
  {
    match e
    case Local(_) =>
    case Global(_) =>
    case Compound(form, parts) =>
      DesugarPartsMean(m, env, parts);
      assert Desugar(e) == Compound(form, DesugarAll(parts));
    case Apply(f, a) => DesugarMeans(m, env, f); DesugarMeans(m, env, a); CallMeans(m, env, f, a);
    case Binary(s, l, r) =>
      DesugarMeans(m, env, l);
      DesugarMeans(m, env, r);
      BinaryMeans(m, env, s, l, r);
    case Negate(f, a) => DesugarMeans(m, env, f); DesugarMeans(m, env, a); CallMeans(m, env, f, a);
    case Lambda(x, b) => FunctionMeans(m, env, x, b);
    case Section(operator, operand, binder, side) => SectionMeans(m, env, operator, operand, binder, side);
    case Chain(first, links) =>
      DesugarMeans(m, env, first);
      DesugarLinksMean(m, env, links);
      ChainMeans(m, env, first, links);
  }

  lemma {:induction false} CallMeans<V(!new), C(!new)>(m: Model<V, C>, env: Scope<V>, f: Expr, a: Expr)
    requires Meaning(m, env, Desugar(f)) == Meaning(m, env, f) && Meaning(m, env, Desugar(a)) == Meaning(m, env, a)
    ensures Meaning(m, env, Desugar(Apply(f, a))) == Meaning(m, env, Apply(f, a))
    ensures Meaning(m, env, Desugar(Negate(f, a))) == Meaning(m, env, Negate(f, a))
  {
    assert Desugar(Negate(f, a)) == Desugar(Apply(f, a)) == Apply(Desugar(f), Desugar(a));
  }

  lemma {:induction false} FunctionMeans<V(!new), C(!new)>(m: Model<V, C>, env: Scope<V>, x: Id, b: Expr)
    requires Extensional(m) && SectionsFresh(b)
    ensures Meaning(m, env, Lambda(x, Desugar(b))) == Meaning(m, env, Lambda(x, b))
    decreases Lambda(x, b), 0
  {
    forall v
      ensures Meaning(m, Extend(env, x, v), Desugar(b)) == Meaning(m, Extend(env, x, v), b)
    {
      DesugarMeans(m, Extend(env, x, v), b);
    }
    SameFunction(m, env, x, Desugar(b), b);
  }

  lemma {:induction false} SameFunction<V(!new), C(!new)>(m: Model<V, C>, env: Scope<V>, x: Id, a: Expr, b: Expr)
    requires OneAbstraction(m) && forall v :: Meaning(m, Extend(env, x, v), a) == Meaning(m, Extend(env, x, v), b)
    ensures Meaning(m, env, Lambda(x, a)) == Meaning(m, env, Lambda(x, b))
  {
  }

  lemma {:induction false} BinaryMeans<V(!new), C(!new)>(m: Model<V, C>, env: Scope<V>, s: nat, l: Expr, r: Expr)
    requires Meaning(m, env, Desugar(l)) == Meaning(m, env, l) && Meaning(m, env, Desugar(r)) == Meaning(m, env, r)
    ensures Meaning(m, env, Desugar(Binary(s, l, r))) == Meaning(m, env, Binary(s, l, r))
  {
    InfixMeans(m, env, Global(s), Desugar(l), Desugar(r));
    BinaryPassed(s, l, r);
  }

  lemma {:induction false} InfixMeans<V(!new), C(!new)>(m: Model<V, C>, env: Scope<V>, f: Expr, l: Expr, r: Expr)
    ensures Meaning(m, env, Apply(Apply(f, l), r))
            == Infix(m, Meaning(m, env, f), Meaning(m, env, l), Meaning(m, env, r))
  {
    assert Meaning(m, env, Apply(f, l)) == m.call(Meaning(m, env, f), Meaning(m, env, l));
  }

  lemma {:induction false} HeadMeans<V(!new), C(!new)>(m: Model<V, C>, env: Scope<V>, head: Head)
    ensures Meaning(m, env, HeadExpr(head)) == Callee(m, env, head)
  {
  }

  /** The operand is computed outside of the function's binder, which it does not use. */
  lemma {:induction false} SectionMeans<V(!new), C(!new)>(m: Model<V, C>, env: Scope<V>, operator: Operator,
                                                          operand: Expr, binder: Id, side: Side)
    requires Extensional(m) && SectionsFresh(Section(operator, operand, binder, side))
    ensures Meaning(m, env, Desugar(Section(operator, operand, binder, side)))
         == Meaning(m, env, Section(operator, operand, binder, side))
    decreases operand, 2
  {
    var f, x, hole := HeadExpr(operator.head), Desugar(operand), Local(binder);
    forall v
      ensures Meaning(m, Extend(env, binder, v), Apply(Apply(f, x), hole))
           == Infix(m, Callee(m, env, operator.head), Meaning(m, env, operand), m.value(v))
      ensures Meaning(m, Extend(env, binder, v), Apply(Apply(f, hole), x))
           == Infix(m, Callee(m, env, operator.head), m.value(v), Meaning(m, env, operand))
    {
      InfixMeans(m, Extend(env, binder, v), f, x, hole);
      InfixMeans(m, Extend(env, binder, v), f, hole, x);
      HeadMeans(m, Extend(env, binder, v), operator.head);
      DesugarMeans(m, Extend(env, binder, v), operand);
      Unused(m, env, operand, binder, v);
      assert Callee(m, Extend(env, binder, v), operator.head) == Callee(m, env, operator.head);
    }
  }

  lemma {:induction false} DesugarPartsMean<V(!new), C(!new)>(m: Model<V, C>, env: Scope<V>, parts: List<Expr>)
    requires Extensional(m) && AllFresh(parts)
    ensures SameParts(Parts(m, env, DesugarAll(parts)), Parts(m, env, parts))
    decreases parts, 0
  {
    match parts
    case Nil =>
    case Cons(e, rest) =>
      DesugarPartsMean(m, env, rest);
      forall more: Scope<V>
        ensures Meaning(m, env + more, Desugar(e)) == Meaning(m, env + more, e)
      {
        DesugarMeans(m, env + more, e);
      }
  }

  ghost function Meanings<V(!new), C(!new)>(m: Model<V, C>, env: Scope<V>, es: seq<Expr>): seq<C> {
    seq(|es|, i requires 0 <= i < |es| => Meaning(m, env, es[i]))
  }

  lemma {:induction false} DesugarLinksMean<V(!new), C(!new)>(m: Model<V, C>, env: Scope<V>, links: List<Link>)
    requires Extensional(m) && LinksFresh(links)
    ensures Meanings(m, env, DesugarLinks(links)) == Operands(m, env, links)
    decreases links, 0
  {
    match links
    case Nil =>
    case Cons(link, rest) =>
      DesugarMeans(m, env, link.operand);
      DesugarLinksMean(m, env, rest);
  }

  /** The tree with the operands computed. */
  ghost function Computed<V(!new), C(!new)>(m: Model<V, C>, env: Scope<V>, t: Fixity.Tree<Expr>): (r: Fixity.Tree<C>)
    ensures Fixity.Operators(r) == Fixity.Operators(t) && (Fixity.Correct(t) ==> Fixity.Correct(r))
    ensures Fixity.Operands(r) == Meanings(m, env, Fixity.Operands(t))
    ensures r.Branch? == t.Branch? && (r.Branch? ==> r.op == t.op)
  {
    match t
    case Leaf(x) => Fixity.Leaf(Meaning(m, env, x))
    case Branch(op, l, r) => Fixity.Branch(op, Computed(m, env, l), Computed(m, env, r))
  }

  lemma {:induction false} BuiltMeans<V(!new), C(!new)>(m: Model<V, C>, env: Scope<V>, heads: seq<Operator>,
                                                        t: Fixity.Tree<Expr>)
    requires forall op <- Fixity.Operators(t) :: op.symbol < |heads|
    ensures Meaning(m, env, Fixity.Build(Application(heads), t)) == Calls(m, env, heads, Computed(m, env, t))
  {
    match t
    case Leaf(_) =>
    case Branch(op, l, r) =>
      assert op in Fixity.Operators(t);
      assert forall o <- Fixity.Operators(l) :: o in Fixity.Operators(t);
      assert forall o <- Fixity.Operators(r) :: o in Fixity.Operators(t);
      BuiltMeans(m, env, heads, l);
      BuiltMeans(m, env, heads, r);
      var left, right := Fixity.Build(Application(heads), l), Fixity.Build(Application(heads), r);
      var f := HeadExpr(heads[op.symbol].head);
      assert Fixity.Build(Application(heads), t) == Apply(Apply(f, left), right);
      InfixMeans(m, env, f, left, right);
      HeadMeans(m, env, heads[op.symbol].head);
  }

  lemma {:induction false} ChainMeans<V(!new), C(!new)>(m: Model<V, C>, env: Scope<V>, first: Expr, links: List<Link>)
    requires Meaning(m, env, Desugar(first)) == Meaning(m, env, first)
    requires Meanings(m, env, DesugarLinks(links)) == Operands(m, env, links)
    ensures Meaning(m, env, Desugar(Chain(first, links))) == Meaning(m, env, Chain(first, links))
  {
    var operands := [Desugar(first)] + DesugarLinks(links);
    var computed := [Meaning(m, env, first)] + Operands(m, env, links);
    OperatorsAre(links);
    assert Meanings(m, env, operands) == computed;
    TreeMeans(m, env, first, links, operands, computed);
  }

  lemma {:induction false} TreeMeans<V(!new), C(!new)>(m: Model<V, C>, env: Scope<V>, first: Expr, links: List<Link>,
                                                       operands: seq<Expr>, computed: seq<C>)
    requires operands == [Desugar(first)] + DesugarLinks(links) && Meanings(m, env, operands) == computed
    ensures |computed| == |Heads(links)| + 1
    ensures Meaning(m, env, Desugar(Chain(first, links))) == Chained(m, env, Heads(links), computed)
  {
    var heads := Heads(links);
    var t := Fixity.Reassociated(operands, Fixities(heads));
    ChainDenotes(first, links);
    FixitiesInside(heads);
    BuiltMeans(m, env, heads, t);
    ChainedIs(m, env, heads, computed, Computed(m, env, t));
  }
}
