/** The operator pass on patterns (crates/psrs-desugar/src/lib.rs, `desugar_pattern`).
 */
module PatternPass {
  import opened Lists
  import Fixity

  /** A constructor operator of a pattern chain. */
  datatype Operator = Operator(constructor_: nat, assoc: Fixity.Associativity, prec: nat)

  /** `Leaf` binds or compares one value, `Compound` is an array, named, typed or record pattern. */
  datatype Pattern =
    | Leaf(code: nat)
    | Constructor(symbol: nat, arguments: List<Pattern>)
    | Compound(form: nat, parts: List<Pattern>)
    | Chain(first: Pattern, links: List<Link>)

  datatype Link = Link(operator: Operator, operand: Pattern)

  /** No operator chain. */
  predicate Normal(p: Pattern) {
    match p
    case Leaf(_) => true
    case Constructor(_, arguments) => NormalAll(arguments)
    case Compound(_, parts) => NormalAll(parts)
    case Chain(_, _) => false
  }

  predicate NormalAll(ps: List<Pattern>) {
    match ps
    case Nil => true
    case Cons(p, rest) => Normal(p) && NormalAll(rest)
  }

  function Heads(links: List<Link>): seq<Operator> {
    match links
    case Nil => []
    case Cons(link, rest) => [link.operator] + Heads(rest)
  }

  /** The operators of a chain, identified by their position, with their fixities. */
  function Fixities(heads: seq<Operator>): (ops: seq<Fixity.Operator>)
    ensures |ops| == |heads|
  {
    seq(|heads|, i requires 0 <= i < |heads| => Fixity.Operator(i, heads[i].assoc, heads[i].prec))
  }

  /** `reduce_pattern`: the operator's constructor on the two sides. */
  function Node(heads: seq<Operator>): (Fixity.Operator, Pattern, Pattern) -> Pattern {
    (op: Fixity.Operator, l, r) =>
      if op.symbol < |heads| then Constructor(heads[op.symbol].constructor_, Cons(l, Cons(r, Nil))) else l
  }

  function Reassociate(operands: seq<Pattern>, heads: seq<Operator>): Pattern
    requires |operands| == |heads| + 1
  {
    Fixity.Build(Node(heads), Fixity.Reassociated(operands, Fixities(heads)))
  }

  function Desugar(p: Pattern): Pattern {
    match p
    case Leaf(_) => p
    case Constructor(symbol, arguments) => Constructor(symbol, DesugarAll(arguments))
    case Compound(form, parts) => Compound(form, DesugarAll(parts))
    case Chain(first, links) => Reassociate([Desugar(first)] + DesugarLinks(links), Heads(links))
  }

  function DesugarAll(ps: List<Pattern>): List<Pattern> {
    match ps
    case Nil => Nil
    case Cons(p, rest) => Cons(Desugar(p), DesugarAll(rest))
  }

  function DesugarLinks(links: List<Link>): (r: seq<Pattern>)
    ensures |r| == |Heads(links)|
  {
    match links
    case Nil => []
    case Cons(link, rest) => [Desugar(link.operand)] + DesugarLinks(rest)
  }

  lemma {:induction false} BuiltNormal(heads: seq<Operator>, t: Fixity.Tree<Pattern>)
    requires forall x <- Fixity.Operands(t) :: Normal(x)
    ensures Normal(Fixity.Build(Node(heads), t))
  {
    match t
    case Leaf(x) => assert x in Fixity.Operands(t);
    case Branch(op, l, r) =>
      assert forall x <- Fixity.Operands(l) :: x in Fixity.Operands(t);
      assert forall x <- Fixity.Operands(r) :: x in Fixity.Operands(t);
      BuiltNormal(heads, l);
      BuiltNormal(heads, r);
      var right := Fixity.Build(Node(heads), r);
      assert NormalAll(Cons(right, Nil));
  }

  /** No chain is left, although a chain is rebuilt from passed operands and not passed again. */
  lemma {:induction false} DesugarNormal(p: Pattern)
    ensures Normal(Desugar(p))
  {
    match p
    case Leaf(_) =>
    case Constructor(_, arguments) => DesugarNormalAll(arguments);
    case Compound(_, parts) => DesugarNormalAll(parts);
    case Chain(first, links) =>
      DesugarNormal(first);
      DesugarNormalLinks(links);
      var operands := [Desugar(first)] + DesugarLinks(links);
      Fixity.ReassociatedReads(operands, Fixities(Heads(links)));
      BuiltNormal(Heads(links), Fixity.Reassociated(operands, Fixities(Heads(links))));
  }

  lemma {:induction false} DesugarNormalAll(ps: List<Pattern>)
    ensures NormalAll(DesugarAll(ps))
  {
    match ps
    case Nil =>
    case Cons(p, rest) => DesugarNormal(p); DesugarNormalAll(rest);
  }

  lemma {:induction false} DesugarNormalLinks(links: List<Link>)
    ensures forall x <- DesugarLinks(links) :: Normal(x)
  {
    match links
    case Nil =>
    case Cons(link, rest) => DesugarNormal(link.operand); DesugarNormalLinks(rest);
  }

  lemma {:induction false} NormalFixed(p: Pattern)
    requires Normal(p)
    ensures Desugar(p) == p
  {
    match p
    case Leaf(_) =>
    case Constructor(_, arguments) => NormalFixedAll(arguments);
    case Compound(_, parts) => NormalFixedAll(parts);
  }

  lemma {:induction false} NormalFixedAll(ps: List<Pattern>)
    requires NormalAll(ps)
    ensures DesugarAll(ps) == ps
  {
    match ps
    case Nil =>
    case Cons(p, rest) => NormalFixed(p); NormalFixedAll(rest);
  }

  /** The pass reaches a normal form, is the identity there, and only there. */
  lemma {:induction false} DesugarIdempotent(p: Pattern)
    ensures Desugar(Desugar(p)) == Desugar(p)
    ensures Desugar(p) == p <==> Normal(p)
  {
    DesugarNormal(p);
    NormalFixed(Desugar(p));
    if Normal(p) { NormalFixed(p); }
  }

  lemma {:induction false} ChainUnfolds(first: Pattern, links: List<Link>)
    ensures Desugar(Chain(first, links)) == Reassociate([Desugar(first)] + DesugarLinks(links), Heads(links))
  {
  }

  lemma {:induction false} ReadsAlike(operands: seq<Pattern>, ops: seq<Fixity.Operator>, t: Fixity.Tree<Pattern>)
    requires |operands| == |ops| + 1 && Fixity.Reads(t, operands, ops)
    ensures t == Fixity.Reassociated(operands, ops)
  {
    Fixity.ReassociatedReads(operands, ops);
    Fixity.ReadingUnique(t, Fixity.Reassociated(operands, ops));
  }

  /** A chain becomes the constructors of its one precedence-correct tree over the passed operands. */
  lemma {:induction false} ChainDenotes(first: Pattern, links: List<Link>, t: Fixity.Tree<Pattern>)
    requires Fixity.Reads(t, [Desugar(first)] + DesugarLinks(links), Fixities(Heads(links)))
    ensures Desugar(Chain(first, links)) == Fixity.Build(Node(Heads(links)), t)
  {
    ChainUnfolds(first, links);
    ReadsAlike([Desugar(first)] + DesugarLinks(links), Fixities(Heads(links)), t);
  }

  // ----- What a pattern means -----

  /** A model says what each form of pattern makes of the meanings of its parts. */
  datatype Model<!D> = Model(leaf: nat -> D, constructed: (nat, seq<D>) -> D, form: (nat, seq<D>) -> D)

  /** The operators of a chain in their order, each with its own precedence and associativity. */
  predicate InOrder(ops: seq<Fixity.Operator>, heads: seq<Operator>) {
    |ops| == |heads| && forall i :: 0 <= i < |ops| ==>
                          ops[i].symbol == i && ops[i].assoc == heads[i].assoc && ops[i].prec == heads[i].prec
  }

  lemma {:induction false} OrderIs(ops: seq<Fixity.Operator>, heads: seq<Operator>)
    ensures InOrder(ops, heads) <==> ops == Fixities(heads)
  {
  }

  function OperatorsOf(links: List<Link>): (r: seq<Operator>)
    ensures |r| == Length(links)
  {
    match links
    case Nil => []
    case Cons(link, rest) => [link.operator] + OperatorsOf(rest)
  }

  lemma {:induction false} OperatorsAre(links: List<Link>)
    ensures OperatorsOf(links) == Heads(links)
  {
    if links.Cons? { OperatorsAre(links.tail); }
  }

  /** A chain means the constructor patterns of its precedence-correct tree: each operator's constructor, with the
      left operand as its first argument and the right one as its second. */
  ghost function Meaning<D(!new)>(m: Model<D>, p: Pattern): D
    decreases p, 1
  {
    match p
    case Leaf(code) => m.leaf(code)
    case Constructor(symbol, arguments) => m.constructed(symbol, MeaningAll(m, arguments))
    case Compound(form, parts) => m.form(form, MeaningAll(m, parts))
    case Chain(first, links) => Chained(m, OperatorsOf(links), [Meaning(m, first)] + MeaningLinks(m, links))
  }

  ghost function MeaningAll<D(!new)>(m: Model<D>, ps: List<Pattern>): seq<D>
    decreases ps, 0
  {
    match ps
    case Nil => []
    case Cons(p, rest) => [Meaning(m, p)] + MeaningAll(m, rest)
  }

  ghost function MeaningLinks<D(!new)>(m: Model<D>, links: List<Link>): (r: seq<D>)
    ensures |r| == Length(links)
    decreases links, 0
  {
    match links
    case Nil => []
    case Cons(link, rest) => [Meaning(m, link.operand)] + MeaningLinks(m, rest)
  }

  ghost function Constructed<D(!new)>(m: Model<D>, heads: seq<Operator>, t: Fixity.Tree<D>): D
    requires forall op <- Fixity.Operators(t) :: op.symbol < |heads|
  {
    match t
    case Leaf(d) => d
    case Branch(op, l, r) =>
      assert op in Fixity.Operators(t);
      assert forall o <- Fixity.Operators(l) :: o in Fixity.Operators(t);
      assert forall o <- Fixity.Operators(r) :: o in Fixity.Operators(t);
      m.constructed(heads[op.symbol].constructor_, [Constructed(m, heads, l), Constructed(m, heads, r)])
  }

  ghost predicate ReadsAs<D(!new)>(m: Model<D>, heads: seq<Operator>, operands: seq<D>, t: Fixity.Tree<D>, d: D) {
    && Fixity.Correct(t) && Fixity.Operands(t) == operands && InOrder(Fixity.Operators(t), heads)
    && (forall op <- Fixity.Operators(t) :: op.symbol < |heads|) && d == Constructed(m, heads, t)
  }

  ghost function Chained<D(!new)>(m: Model<D>, heads: seq<Operator>, operands: seq<D>): (d: D)
    requires |operands| == |heads| + 1
    ensures exists t :: ReadsAs(m, heads, operands, t, d)
  {
    Fixity.ReassociatedReads(operands, Fixities(heads));
    var t :| Fixity.Reads(t, operands, Fixities(heads));
    OrderIs(Fixity.Operators(t), heads);
    assert forall op <- Fixities(heads) :: op.symbol < |heads|;
    assert ReadsAs(m, heads, operands, t, Constructed(m, heads, t));
    Constructed(m, heads, t)
  }

  lemma {:induction false} ChainedIs<D(!new)>(m: Model<D>, heads: seq<Operator>, operands: seq<D>, t: Fixity.Tree<D>)
    requires |operands| == |heads| + 1 && Fixity.Reads(t, operands, Fixities(heads))
    ensures ReadsAs(m, heads, operands, t, Chained(m, heads, operands))
  {
    var d := Chained(m, heads, operands);
    var u :| ReadsAs(m, heads, operands, u, d);
    OrderIs(Fixity.Operators(t), heads);
    OrderIs(Fixity.Operators(u), heads);
    Fixity.ReadingUnique(t, u);
  }

  /** The pass keeps the meaning of every pattern, in every model. */
  lemma {:induction false} DesugarMeans<D(!new)>(m: Model<D>, p: Pattern)
    ensures Meaning(m, Desugar(p)) == Meaning(m, p)
    decreases p, 1
  {
    match p
    case Leaf(_) =>
    case Constructor(_, arguments) => DesugarAllMeans(m, arguments);
    case Compound(_, parts) => DesugarAllMeans(m, parts);
    case Chain(first, links) =>
      DesugarMeans(m, first);
      DesugarLinksMean(m, links);
      ChainMeans(m, first, links);
  }

  lemma {:induction false} DesugarAllMeans<D(!new)>(m: Model<D>, ps: List<Pattern>)
    ensures MeaningAll(m, DesugarAll(ps)) == MeaningAll(m, ps)
    decreases ps, 0
  {
    match ps
    case Nil =>
    case Cons(p, rest) => DesugarMeans(m, p); DesugarAllMeans(m, rest);
  }

  ghost function Meanings<D(!new)>(m: Model<D>, ps: seq<Pattern>): seq<D> {
    seq(|ps|, i requires 0 <= i < |ps| => Meaning(m, ps[i]))
  }

  lemma {:induction false} DesugarLinksMean<D(!new)>(m: Model<D>, links: List<Link>)
    ensures Meanings(m, DesugarLinks(links)) == MeaningLinks(m, links)
    decreases links, 0
  {
    match links
    case Nil =>
    case Cons(link, rest) => DesugarMeans(m, link.operand); DesugarLinksMean(m, rest);
  }

  /** The tree with the operands' meanings. */
  ghost function Interpreted<D(!new)>(m: Model<D>, t: Fixity.Tree<Pattern>): (r: Fixity.Tree<D>)
    ensures Fixity.Operators(r) == Fixity.Operators(t) && (Fixity.Correct(t) ==> Fixity.Correct(r))
    ensures Fixity.Operands(r) == Meanings(m, Fixity.Operands(t))
    ensures r.Branch? == t.Branch? && (r.Branch? ==> r.op == t.op)
  {
    match t
    case Leaf(x) => Fixity.Leaf(Meaning(m, x))
    case Branch(op, l, r) => Fixity.Branch(op, Interpreted(m, l), Interpreted(m, r))
  }

  lemma {:induction false} BuiltMeans<D(!new)>(m: Model<D>, heads: seq<Operator>, t: Fixity.Tree<Pattern>)
    requires forall op <- Fixity.Operators(t) :: op.symbol < |heads|
    ensures Meaning(m, Fixity.Build(Node(heads), t)) == Constructed(m, heads, Interpreted(m, t))
  {
    match t
    case Leaf(_) =>
    case Branch(op, l, r) =>
      assert op in Fixity.Operators(t);
      assert forall o <- Fixity.Operators(l) :: o in Fixity.Operators(t);
      assert forall o <- Fixity.Operators(r) :: o in Fixity.Operators(t);
      BuiltMeans(m, heads, l);
      BuiltMeans(m, heads, r);
      PairMeans(m, Fixity.Build(Node(heads), l), Fixity.Build(Node(heads), r));
  }

  lemma {:induction false} PairMeans<D(!new)>(m: Model<D>, l: Pattern, r: Pattern)
    ensures MeaningAll(m, Cons(l, Cons(r, Nil))) == [Meaning(m, l), Meaning(m, r)]
  {
    assert MeaningAll(m, Cons(r, Nil)) == [Meaning(m, r)] + MeaningAll(m, Nil);
  }

  lemma {:induction false} ChainMeans<D(!new)>(m: Model<D>, first: Pattern, links: List<Link>)
    requires Meaning(m, Desugar(first)) == Meaning(m, first)
    requires Meanings(m, DesugarLinks(links)) == MeaningLinks(m, links)
    ensures Meaning(m, Desugar(Chain(first, links))) == Meaning(m, Chain(first, links))
  {
    var operands := [Desugar(first)] + DesugarLinks(links);
    var meanings := [Meaning(m, first)] + MeaningLinks(m, links);
    OperatorsAre(links);
    assert Meanings(m, operands) == meanings;
    TreeMeans(m, operands, Heads(links), meanings);
    ChainUnfolds(first, links);
  }

  lemma {:induction false} TreeMeans<D(!new)>(m: Model<D>, operands: seq<Pattern>, heads: seq<Operator>,
                                              meanings: seq<D>)
    requires |operands| == |heads| + 1 && meanings == Meanings(m, operands)
    ensures Meaning(m, Reassociate(operands, heads)) == Chained(m, heads, meanings)
  {
    var t := Fixity.Reassociated(operands, Fixities(heads));
    Fixity.ReassociatedReads(operands, Fixities(heads));
    BuiltMeans(m, heads, t);
    ChainedIs(m, heads, meanings, Interpreted(m, t));
  }
}
