/** The operator pass (crates/psrs-desugar/src/lib.rs, `desugar_expr`): chains, sections, operators
    and negations become applications. A chain is reassociated and the rebuilt tree is passed again.
 */
module OperatorPass {
  import opened Lists
  import Fixity

  type Id = nat

  /** An operator names a global symbol or a local value. */
  datatype Head = GlobalHead(symbol: nat) | LocalHead(id: Id)

  datatype Operator = Operator(head: Head, assoc: Fixity.Associativity, prec: nat)

  datatype Side = OnLeft | OnRight

  /** `Compound` is any expression whose children are passed one by one. */
  datatype Expr =
    | Local(id: Id)
    | Global(symbol: nat)
    | Compound(form: nat, parts: List<Expr>)
    | Apply(function_: Expr, argument: Expr)
    | Binary(symbol: nat, left: Expr, right: Expr)
    | Negate(negation: Expr, operand: Expr)
    | Lambda(binder: Id, body: Expr)
    | Section(operator: Operator, operand: Expr, binder: Id, side: Side)
    | Chain(first: Expr, links: List<Link>)

  datatype Link = Link(operator: Operator, operand: Expr)

  // ----- Measures -----

  function Size(e: Expr): nat {
    match e
    case Compound(_, parts) => 1 + SizeAll(parts)
    case Apply(f, a) => 1 + Size(f) + Size(a)
    case Binary(_, l, r) => 1 + Size(l) + Size(r)
    case Negate(f, a) => 1 + Size(f) + Size(a)
    case Lambda(_, b) => 1 + Size(b)
    case Section(_, operand, _, _) => 1 + Size(operand)
    case Chain(first, links) => 1 + Size(first) + SizeLinks(links)
    case _ => 1
  }

  function SizeAll(es: List<Expr>): nat {
    match es
    case Nil => 0
    case Cons(e, rest) => 1 + Size(e) + SizeAll(rest)
  }

  function SizeLinks(links: List<Link>): nat {
    match links
    case Nil => 0
    case Cons(link, rest) => 1 + Size(link.operand) + SizeLinks(rest)
  }

  /** The chains still to be reassociated. */
  function Chains(e: Expr): nat {
    match e
    case Compound(_, parts) => ChainsAll(parts)
    case Apply(f, a) => Chains(f) + Chains(a)
    case Binary(_, l, r) => Chains(l) + Chains(r)
    case Negate(f, a) => Chains(f) + Chains(a)
    case Lambda(_, b) => Chains(b)
    case Section(_, operand, _, _) => Chains(operand)
    case Chain(first, links) => 1 + Chains(first) + ChainsLinks(links)
    case _ => 0
  }

  function ChainsAll(es: List<Expr>): nat {
    match es
    case Nil => 0
    case Cons(e, rest) => Chains(e) + ChainsAll(rest)
  }

  function ChainsLinks(links: List<Link>): nat {
    match links
    case Nil => 0
    case Cons(link, rest) => Chains(link.operand) + ChainsLinks(rest)
  }

  /** No chain, section, operator or negation. */
  predicate Normal(e: Expr) {
    match e
    case Compound(_, parts) => NormalAll(parts)
    case Apply(f, a) => Normal(f) && Normal(a)
    case Lambda(_, b) => Normal(b)
    case Local(_) => true
    case Global(_) => true
    case _ => false
  }

  predicate NormalAll(es: List<Expr>) {
    match es
    case Nil => true
    case Cons(e, rest) => Normal(e) && NormalAll(rest)
  }

  lemma {:induction false} NormalHasNoChain(e: Expr)
    requires Normal(e)
    ensures Chains(e) == 0
  {
    match e
    case Compound(_, parts) => NormalAllHaveNoChain(parts);
    case Apply(f, a) => NormalHasNoChain(f); NormalHasNoChain(a);
    case Lambda(_, b) => NormalHasNoChain(b);
    case _ =>
  }

  lemma {:induction false} NormalAllHaveNoChain(es: List<Expr>)
    requires NormalAll(es)
    ensures ChainsAll(es) == 0
  {
    match es
    case Nil =>
    case Cons(e, rest) => NormalHasNoChain(e); NormalAllHaveNoChain(rest);
  }

  // ----- Chains as operand and operator sequences -----

  function HeadExpr(h: Head): Expr {
    match h
    case GlobalHead(s) => Global(s)
    case LocalHead(x) => Local(x)
  }

  function Applied(f: Expr, l: Expr, r: Expr): Expr {
    Apply(Apply(f, l), r)
  }

  /** The operators of a chain, identified by their position, with their fixities. */
  function Fixities(heads: seq<Operator>): (ops: seq<Fixity.Operator>)
    ensures |ops| == |heads|
  {
    seq(|heads|, i requires 0 <= i < |heads| => Fixity.Operator(i, heads[i].assoc, heads[i].prec))
  }

  /** What `reduce` builds: an application for a local operator, an operator node otherwise. */
  function Node(heads: seq<Operator>): (Fixity.Operator, Expr, Expr) -> Expr {
    (op: Fixity.Operator, l, r) =>
      if op.symbol < |heads| && heads[op.symbol].head.GlobalHead? then Binary(heads[op.symbol].head.symbol, l, r)
      else if op.symbol < |heads| then Applied(HeadExpr(heads[op.symbol].head), l, r)
      else l
  }

  /** What a chain finally denotes at an operator. */
  function Application(heads: seq<Operator>): (Fixity.Operator, Expr, Expr) -> Expr {
    (op: Fixity.Operator, l, r) => if op.symbol < |heads| then Applied(HeadExpr(heads[op.symbol].head), l, r) else l
  }

  function Reassociate(operands: seq<Expr>, heads: seq<Operator>): Expr
    requires |operands| == |heads| + 1
  {
    Fixity.Build(Node(heads), Fixity.Reassociated(operands, Fixities(heads)))
  }

  function Heads(links: List<Link>): seq<Operator> {
    match links
    case Nil => []
    case Cons(link, rest) => [link.operator] + Heads(rest)
  }

  // ----- The pass -----

  lemma {:induction false} BuiltHasNoChain(heads: seq<Operator>, t: Fixity.Tree<Expr>)
    requires forall x <- Fixity.Operands(t) :: Normal(x)
    ensures Chains(Fixity.Build(Node(heads), t)) == 0
  {
    match t
    case Leaf(x) =>
      assert x in Fixity.Operands(t);
      NormalHasNoChain(x);
    case Branch(op, l, r) =>
      assert forall x <- Fixity.Operands(l) :: x in Fixity.Operands(t);
      assert forall x <- Fixity.Operands(r) :: x in Fixity.Operands(t);
      BuiltHasNoChain(heads, l);
      BuiltHasNoChain(heads, r);
      var left, right := Fixity.Build(Node(heads), l), Fixity.Build(Node(heads), r);
      assert Fixity.Build(Node(heads), t) == Node(heads)(op, left, right);
      if op.symbol < |heads| && heads[op.symbol].head.LocalHead? {
        assert Chains(Apply(HeadExpr(heads[op.symbol].head), left)) == 0;
      }
  }

  function Desugar(e: Expr): (r: Expr)
    ensures Normal(r)
    decreases Chains(e), Size(e), 1
  {
    match e
    case Local(_) => e
    case Global(_) => e
    case Compound(form, parts) => Compound(form, DesugarAll(parts))
    case Apply(f, a) => Apply(Desugar(f), Desugar(a))
    case Binary(s, l, r) =>
      var l', r' := Desugar(l), Desugar(r);
      assert Normal(Apply(Global(s), l'));
      Applied(Global(s), l', r')
    case Negate(f, a) => Apply(Desugar(f), Desugar(a))
    case Lambda(x, b) => Lambda(x, Desugar(b))
    case Section(operator, operand, binder, side) =>
      var operand', hole, f := Desugar(operand), Local(binder), HeadExpr(operator.head);
      assert Normal(hole) && Normal(f);
      var l, r := if side.OnLeft? then operand' else hole, if side.OnLeft? then hole else operand';
      assert Normal(Apply(f, l));
      Lambda(binder, Applied(f, l, r))
    case Chain(first, links) =>
      var first' := Desugar(first);
      var operands := [first'] + DesugarLinks(links);
      ChainBuilds(operands, Heads(links));
      Desugar(Reassociate(operands, Heads(links)))
  }

  lemma {:induction false} ChainBuilds(operands: seq<Expr>, heads: seq<Operator>)
    requires |operands| == |heads| + 1 && forall x <- operands :: Normal(x)
    ensures Chains(Reassociate(operands, heads)) == 0
  {
    Fixity.ReassociatedReads(operands, Fixities(heads));
    BuiltHasNoChain(heads, Fixity.Reassociated(operands, Fixities(heads)));
  }

  function DesugarAll(es: List<Expr>): (r: List<Expr>)
    ensures NormalAll(r)
    decreases ChainsAll(es), SizeAll(es), 0
  {
    match es
    case Nil => Nil
    case Cons(e, rest) => Cons(Desugar(e), DesugarAll(rest))
  }

  function DesugarLinks(links: List<Link>): (r: seq<Expr>)
    ensures |r| == |Heads(links)| && forall x <- r :: Normal(x)
    decreases ChainsLinks(links), SizeLinks(links), 0
  {
    match links
    case Nil => []
    case Cons(link, rest) => [Desugar(link.operand)] + DesugarLinks(rest)
  }

  // ----- Normal forms are fixed -----

  lemma {:induction false} DesugarNormal(e: Expr)
    requires Normal(e)
    ensures Desugar(e) == e
    decreases e
  {
    match e
    case Compound(_, parts) => DesugarNormalAll(parts);
    case Apply(f, a) => DesugarNormal(f); DesugarNormal(a);
    case Lambda(_, b) => DesugarNormal(b);
    case _ =>
  }

  lemma {:induction false} DesugarNormalAll(es: List<Expr>)
    requires NormalAll(es)
    ensures DesugarAll(es) == es
    decreases es
  {
    match es
    case Nil =>
    case Cons(e, rest) => DesugarNormal(e); DesugarNormalAll(rest);
  }

  /** The pass reaches a normal form, is the identity there, and only there. */
  lemma {:induction false} DesugarIdempotent(e: Expr)
    ensures Desugar(Desugar(e)) == Desugar(e)
    ensures Desugar(e) == e <==> Normal(e)
  {
    DesugarNormal(Desugar(e));
    if Normal(e) { DesugarNormal(e); }
  }

  // ----- What a chain becomes -----

  lemma {:induction false} BuiltPassedAgain(heads: seq<Operator>, t: Fixity.Tree<Expr>)
    requires forall x <- Fixity.Operands(t) :: Normal(x)
    requires forall op <- Fixity.Operators(t) :: op.symbol < |heads|
    ensures Desugar(Fixity.Build(Node(heads), t)) == Fixity.Build(Application(heads), t)
  {
    match t
    case Leaf(x) =>
      assert x in Fixity.Operands(t);
      DesugarNormal(x);
    case Branch(op, l, r) =>
      assert forall x <- Fixity.Operands(l) :: x in Fixity.Operands(t);
      assert forall x <- Fixity.Operands(r) :: x in Fixity.Operands(t);
      assert op in Fixity.Operators(t);
      assert forall o <- Fixity.Operators(l) :: o in Fixity.Operators(t);
      assert forall o <- Fixity.Operators(r) :: o in Fixity.Operators(t);
      BuiltPassedAgain(heads, l);
      BuiltPassedAgain(heads, r);
      var left, right := Fixity.Build(Node(heads), l), Fixity.Build(Node(heads), r);
      NodePassedAgain(heads, op, left, right);
  }

  lemma {:induction false} NodePassedAgain(heads: seq<Operator>, op: Fixity.Operator, l: Expr, r: Expr)
    requires op.symbol < |heads|
    ensures Desugar(Node(heads)(op, l, r)) == Application(heads)(op, Desugar(l), Desugar(r))
  {
    var head := heads[op.symbol].head;
    var node := Node(heads)(op, l, r);
    assert Application(heads)(op, Desugar(l), Desugar(r)) == Applied(HeadExpr(head), Desugar(l), Desugar(r));
    if head.GlobalHead? {
      assert node == Binary(head.symbol, l, r);
      BinaryPassed(head.symbol, l, r);
    } else {
      assert node == Applied(Local(head.id), l, r);
      assert Desugar(Local(head.id)) == Local(head.id);
      assert Desugar(Apply(Local(head.id), l)) == Apply(Local(head.id), Desugar(l));
    }
  }

  lemma {:induction false} BinaryPassed(s: nat, l: Expr, r: Expr)
    ensures Desugar(Binary(s, l, r)) == Applied(Global(s), Desugar(l), Desugar(r))
  {
  }

  /** A chain becomes the applications of its one precedence-correct tree over the passed operands. */
  lemma {:induction false} ChainDenotes(first: Expr, links: List<Link>)
    ensures var operands := [Desugar(first)] + DesugarLinks(links);
            var t := Fixity.Reassociated(operands, Fixities(Heads(links)));
            && Fixity.Reads(t, operands, Fixities(Heads(links)))
            && Desugar(Chain(first, links)) == Fixity.Build(Application(Heads(links)), t)
  {
    var operands := [Desugar(first)] + DesugarLinks(links);
    var ops := Fixities(Heads(links));
    var t := Fixity.Reassociated(operands, ops);
    Fixity.ReassociatedReads(operands, ops);
    ChainUnfolds(first, links);
    BuiltPassedAgain(Heads(links), t);
  }

  lemma {:induction false} ChainUnfolds(first: Expr, links: List<Link>)
    ensures Desugar(Chain(first, links)) == Desugar(Reassociate([Desugar(first)] + DesugarLinks(links), Heads(links)))
  {
  }

  /** The same expression results whatever correct tree over the same operands is flattened. */
  lemma {:induction false} ChainDenotesAnyReading(first: Expr, links: List<Link>, t: Fixity.Tree<Expr>)
    requires Fixity.Reads(t, [Desugar(first)] + DesugarLinks(links), Fixities(Heads(links)))
    ensures Desugar(Chain(first, links)) == Fixity.Build(Application(Heads(links)), t)
  {
    ChainDenotes(first, links);
    Fixity.ReadingUnique(t, Fixity.Reassociated([Desugar(first)] + DesugarLinks(links), Fixities(Heads(links))));
  }
}
