/** Operator chains: flattening, two-stack reassociation and the fixity validator
    (crates/psrs-desugar/src/fixity.rs, crates/psrs-ast/src/expr/chain.rs).
 */
module Fixity {

  datatype Associativity = NonAssoc | LeftAssoc | RightAssoc

  /** A resolved operator: its identity, and the fixity that name resolution attached. */
  datatype Operator = Operator(symbol: nat, assoc: Associativity, prec: nat)

  datatype Tree<T> = Leaf(value: T) | Branch(op: Operator, left: Tree<T>, right: Tree<T>)

  function Operands<T>(t: Tree<T>): (r: seq<T>)
    ensures |r| == |Operators(t)| + 1
  {
    match t
    case Leaf(x) => [x]
    case Branch(_, l, r) => Operands(l) + Operands(r)
  }

  function Operators<T>(t: Tree<T>): seq<Operator> {
    match t
    case Leaf(_) => []
    case Branch(op, l, r) => Operators(l) + [op] + Operators(r)
  }

  /** What the expression, pattern or type builder makes of a tree. The three copies of the
      reassociation loop differ only in that, so the loop below has `build` as a parameter. */
  function Build<T>(build: (Operator, T, T) -> T, t: Tree<T>): T {
    match t
    case Leaf(x) => x
    case Branch(op, l, r) => build(op, Build(build, l), Build(build, r))
  }

  // ----- Precedence-correct trees -----

  /** `earlier` is closed before `later` is shifted. */
  predicate Closes(earlier: Operator, later: Operator) {
    earlier.prec > later.prec || (earlier.prec == later.prec && later.assoc != RightAssoc)
  }

  /** Every left child binds tighter, or equally under a parent that is not right-associative;
      every right child binds tighter, or is a right-associative equal. */
  predicate Correct<T>(t: Tree<T>) {
    match t
    case Leaf(_) => true
    case Branch(op, l, r) =>
      && Correct(l) && Correct(r)
      && (l.Branch? ==> l.op.prec > op.prec || (l.op.prec == op.prec && op.assoc != RightAssoc))
      && (r.Branch? ==> r.op.prec > op.prec || (r.op.prec == op.prec && r.op.assoc == RightAssoc))
  }

  /** `t` is a precedence-correct tree whose in-order reading is the chain. */
  ghost predicate Reads<T>(t: Tree<T>, operands: seq<T>, operators: seq<Operator>) {
    Correct(t) && Operands(t) == operands && Operators(t) == operators
  }

  /** The local conditions of `Correct` hold between the root and every operator below it. */
  lemma {:induction false} RootDominates<T>(t: Tree<T>)
    requires Correct(t) && t.Branch?
    ensures forall q <- Operators(t.left) :: Closes(q, t.op)
    ensures forall q <- Operators(t.right) :: !Closes(t.op, q)
  {
    if t.left.Branch? { RootDominates(t.left); }
    if t.right.Branch? { RootDominates(t.right); }
  }

  /** A chain has at most one reading. */
  lemma {:induction false} ReadingUnique<T>(s: Tree<T>, t: Tree<T>)
    requires Correct(s) && Correct(t)
    requires Operands(s) == Operands(t) && Operators(s) == Operators(t)
    ensures s == t
  {
    if s.Leaf? {
      assert Operators(t) == [];
    } else {
      assert t.Branch? by { assert Operators(s) != []; }
      RootsCoincide(s, t);
      var i := |Operators(s.left)|;
      assert Operators(s)[..i] == Operators(s.left) && Operators(t)[..i] == Operators(t.left);
      assert Operators(s)[i + 1..] == Operators(s.right) && Operators(t)[i + 1..] == Operators(t.right);
      assert Operands(s)[..i + 1] == Operands(s.left) && Operands(t)[..i + 1] == Operands(t.left);
      assert Operands(s)[i + 1..] == Operands(s.right) && Operands(t)[i + 1..] == Operands(t.right);
      assert s.op == Operators(s)[i] == t.op;
      ReadingUnique(s.left, t.left);
      ReadingUnique(s.right, t.right);
    }
  }

  /** Where each side of the root appears in the in-order reading. */
  lemma {:induction false} Position<T>(t: Tree<T>, i: int)
    requires t.Branch? && 0 <= i < |Operators(t)|
    ensures i < |Operators(t.left)| ==> Operators(t)[i] in Operators(t.left)
    ensures i == |Operators(t.left)| ==> Operators(t)[i] == t.op
    ensures i > |Operators(t.left)| ==> Operators(t)[i] in Operators(t.right)
  {
    var k := |Operators(t.left)|;
    if i < k {
      assert Operators(t)[i] == Operators(t.left)[i];
    } else if i > k {
      assert Operators(t)[i] == Operators(t.right)[i - k - 1];
    }
  }

  lemma {:induction false} RootsCoincide<T>(s: Tree<T>, t: Tree<T>)
    requires Correct(s) && Correct(t) && s.Branch? && t.Branch?
    requires Operators(s) == Operators(t)
    ensures |Operators(s.left)| == |Operators(t.left)|
  {
    RootDominates(s);
    RootDominates(t);
    var i, j := |Operators(s.left)|, |Operators(t.left)|;
    if i != j {
      Position(s, i);
      Position(s, j);
      Position(t, i);
      Position(t, j);
    }
  }

  // ----- Reassociation as insertion on the right spine -----

  /** Shifts one operator and operand: whatever `op` closes becomes its left operand. */
  function Insert<T>(t: Tree<T>, op: Operator, x: T): (r: Tree<T>)
    ensures Operands(r) == Operands(t) + [x]
    ensures Operators(r) == Operators(t) + [op]
  {
    if t.Leaf? || Closes(t.op, op) then Branch(op, t, Leaf(x))
    else
      assert Operators(t) + [op] == Operators(t.left) + [t.op] + (Operators(t.right) + [op]);
      Branch(t.op, t.left, Insert(t.right, op, x))
  }

  function Reassociated<T>(operands: seq<T>, operators: seq<Operator>): Tree<T>
    requires |operands| == |operators| + 1
  {
    if operators == [] then Leaf(operands[0])
    else
      var n := |operators| - 1;
      Insert(Reassociated(operands[..n + 1], operators[..n]), operators[n], operands[n + 1])
  }

  lemma {:induction false} InsertKeepsCorrect<T>(t: Tree<T>, op: Operator, x: T)
    requires Correct(t)
    ensures Correct(Insert(t, op, x))
  {
    if t.Branch? && !Closes(t.op, op) {
      InsertKeepsCorrect(t.right, op, x);
    }
  }

  /** Every chain has a reading: the reassociated tree. */
  lemma {:induction false} ReassociatedReads<T>(operands: seq<T>, operators: seq<Operator>)
    requires |operands| == |operators| + 1
    ensures Reads(Reassociated(operands, operators), operands, operators)
  {
    if operators == [] {
      assert operands == [operands[0]];
    } else {
      var n := |operators| - 1;
      ReassociatedReads(operands[..n + 1], operators[..n]);
      InsertKeepsCorrect(Reassociated(operands[..n + 1], operators[..n]), operators[n], operands[n + 1]);
      assert operands == operands[..n + 1] + [operands[n + 1]];
      assert operators == operators[..n] + [operators[n]];
    }
  }

  /** Reassociation inverts flattening on exactly the precedence-correct trees. */
  lemma {:induction false} RoundTrip<T>(t: Tree<T>)
    ensures Reassociated(Operands(t), Operators(t)) == t <==> Correct(t)
  {
    ReassociatedReads(Operands(t), Operators(t));
    if Correct(t) {
      ReadingUnique(Reassociated(Operands(t), Operators(t)), t);
    }
  }

  // ----- The two-stack loop -----

  /** The tree that a value stack and an operator stack stand for. */
  ghost function Spine<T>(values: seq<Tree<T>>, pending: seq<Operator>): Tree<T>
    requires |values| == |pending| + 1
  {
    if pending == [] then values[0]
    else Branch(pending[0], values[0], Spine(values[1..], pending[1..]))
  }

  lemma {:induction false} SpineReduce<T>(values: seq<Tree<T>>, pending: seq<Operator>)
    requires |values| == |pending| + 1 && pending != []
    ensures var m := |pending| - 1;
            Spine(values[..m] + [Branch(pending[m], values[m], values[m + 1])], pending[..m]) == Spine(values, pending)
  {
    var m := |pending| - 1;
    var top := Branch(pending[m], values[m], values[m + 1]);
    if m == 0 {
      assert values[1..] == [values[1]] && pending[1..] == [];
    } else {
      SpineReduce(values[1..], pending[1..]);
      assert (values[..m] + [top])[1..] == values[1..][..m - 1] + [top];
      assert pending[..m][1..] == pending[1..][..m - 1];
    }
  }

  lemma {:induction false} SpineShift<T>(values: seq<Tree<T>>, pending: seq<Operator>, op: Operator, x: T)
    requires |values| == |pending| + 1
    requires forall p <- pending :: !Closes(p, op)
    requires var top := values[|pending|]; top.Leaf? || Closes(top.op, op)
    ensures Spine(values + [Leaf(x)], pending + [op]) == Insert(Spine(values, pending), op, x)
  {
    if pending == [] {
      assert (values + [Leaf(x)])[1..] == [Leaf(x)] && (pending + [op])[1..] == [];
    } else {
      SpineShift(values[1..], pending[1..], op, x);
      assert (values + [Leaf(x)])[1..] == values[1..] + [Leaf(x)];
      assert (pending + [op])[1..] == pending[1..] + [op];
    }
  }

  /** What the pending operators keep: each stays open under the next one. */
  ghost predicate OpenStack(pending: seq<Operator>) {
    forall i, j :: 0 <= i < j < |pending| ==> !Closes(pending[i], pending[j])
  }

  ghost predicate Built<T>(build: (Operator, T, T) -> T, values: seq<T>, trees: seq<Tree<T>>) {
    |values| == |trees| && forall i :: 0 <= i < |values| ==> values[i] == Build(build, trees[i])
  }

  method Reduce<T>(build: (Operator, T, T) -> T, values: seq<T>, pending: seq<Operator>, ghost trees: seq<Tree<T>>)
    returns (values': seq<T>, pending': seq<Operator>, ghost trees': seq<Tree<T>>)
    requires |values| == |pending| + 1 && pending != [] && Built(build, values, trees)
    ensures |values'| == |pending'| + 1 && Built(build, values', trees')
    ensures pending' == pending[..|pending| - 1]
    ensures trees' == trees[..|pending'|] + [Branch(pending[|pending'|], trees[|pending'|], trees[|pending'| + 1])]
    ensures values' == values[..|pending'|] + [build(pending[|pending'|], values[|pending'|], values[|pending'| + 1])]
  {
    var m := |pending| - 1;
    var op, right, left := pending[m], values[m + 1], values[m];
    values', pending' := values[..m] + [build(op, left, right)], pending[..m];
    trees' := trees[..m] + [Branch(op, trees[m], trees[m + 1])];
  }

  /** Reduces while the operator on top is closed by the next one. */
  method ReduceClosed<T>(build: (Operator, T, T) -> T, values: seq<T>, pending: seq<Operator>,
                         ghost trees: seq<Tree<T>>, op: Operator)
    returns (values': seq<T>, pending': seq<Operator>, ghost trees': seq<Tree<T>>)
    requires |values| == |pending| + 1 && Built(build, values, trees) && OpenStack(pending) && trees[|pending|].Leaf?
    ensures |values'| == |pending'| + 1 && Built(build, values', trees')
    ensures OpenStack(pending') && forall p <- pending' :: !Closes(p, op)
    ensures trees'[|pending'|].Leaf? || Closes(trees'[|pending'|].op, op)
    ensures Spine(trees', pending') == Spine(trees, pending)
  {
    values', pending', trees' := values, pending, trees;
    while pending' != [] && Closes(pending'[|pending'| - 1], op)
      invariant |values'| == |pending'| + 1 && Built(build, values', trees') && OpenStack(pending')
      invariant trees'[|pending'|].Leaf? || Closes(trees'[|pending'|].op, op)
      invariant Spine(trees', pending') == Spine(trees, pending)
      decreases |pending'|
    {
      SpineReduce(trees', pending');
      values', pending', trees' := Reduce(build, values', pending', trees');
    }
    AllOpen(pending', op);
  }

  /** The last pending operator decides for all of them. */
  lemma {:induction false} AllOpen(pending: seq<Operator>, op: Operator)
    requires OpenStack(pending) && (pending != [] ==> !Closes(pending[|pending| - 1], op))
    ensures forall p <- pending :: !Closes(p, op)
  {
    forall i | 0 <= i < |pending| ensures !Closes(pending[i], op) {
      if i < |pending| - 1 { assert !Closes(pending[i], pending[|pending| - 1]); }
    }
  }

  lemma {:induction false} OpenPushed(pending: seq<Operator>, op: Operator)
    requires OpenStack(pending) && forall p <- pending :: !Closes(p, op)
    ensures OpenStack(pending + [op])
  {
  }

  method ReduceAll<T>(build: (Operator, T, T) -> T, values: seq<T>, pending: seq<Operator>,
                      ghost trees: seq<Tree<T>>) returns (r: T)
    requires |values| == |pending| + 1 && Built(build, values, trees)
    ensures r == Build(build, Spine(trees, pending))
  {
    var values', pending' := values, pending;
    ghost var trees' := trees;
    while pending' != []
      invariant |values'| == |pending'| + 1 && Built(build, values', trees')
      invariant Spine(trees', pending') == Spine(trees, pending)
      decreases |pending'|
    {
      SpineReduce(trees', pending');
      values', pending', trees' := Reduce(build, values', pending', trees');
    }
    r := values'[0];
  }

  method Reassociate<T>(build: (Operator, T, T) -> T, operands: seq<T>, operators: seq<Operator>) returns (r: T)
    requires |operands| == |operators| + 1
    ensures r == Build(build, Reassociated(operands, operators))
  {
    var values, pending := [operands[0]], [];
    ghost var trees := [Leaf(operands[0])];
    for n := 0 to |operators|
      invariant |values| == |pending| + 1 && Built(build, values, trees)
      invariant OpenStack(pending) && trees[|pending|].Leaf?
      invariant Spine(trees, pending) == Reassociated(operands[..n + 1], operators[..n])
    {
      var op, x := operators[n], operands[n + 1];
      values, pending, trees := ReduceClosed(build, values, pending, trees, op);
      SpineShift(trees, pending, op, x);
      OpenPushed(pending, op);
      assert operands[..n + 2][..n + 1] == operands[..n + 1] && operators[..n + 1][..n] == operators[..n];
      pending, values, trees := pending + [op], values + [x], trees + [Leaf(x)];
    }
    assert operands[..|operators| + 1] == operands && operators[..|operators|] == operators;
    r := ReduceAll(build, values, pending, trees);
  }

  // ----- Flattening a parsed operator tree -----

  /** The shared output lists of the chain collector. */
  class ChainCollector<T> {
    var operands: seq<T>
    var operators: seq<Operator>

    constructor ()
      ensures operands == [] && operators == []
    {
      operands, operators := [], [];
    }

    method Collect(t: Tree<T>)
      modifies this
      ensures operands == old(operands) + Operands(t)
      ensures operators == old(operators) + Operators(t)
      decreases t
    {
      match t
      case Leaf(x) =>
        operands := operands + [x];
      case Branch(op, l, r) =>
        Collect(l);
        operators := operators + [op];
        Collect(r);
    }
  }

  /** Collecting a precedence-correct tree and reassociating rebuilds exactly what it denotes. */
  method CollectThenReassociate<T>(build: (Operator, T, T) -> T, t: Tree<T>) returns (r: T)
    ensures Correct(t) ==> r == Build(build, t)
    ensures exists u :: Reads(u, Operands(t), Operators(t)) && r == Build(build, u)
  {
    var chain := new ChainCollector<T>();
    chain.Collect(t);
    r := Reassociate(build, chain.operands, chain.operators);
    assert chain.operands == Operands(t) && chain.operators == Operators(t);
    RoundTrip(t);
    ReassociatedReads(Operands(t), Operators(t));
    assert Reads(Reassociated(Operands(t), Operators(t)), Operands(t), Operators(t));
  }

  // ----- The validator -----

  datatype Problem = MixedAssociativity | ChainedNonAssociative
  datatype FixityError = FixityError(at: nat, problem: Problem)

  /** Positions i < j hold equal precedences with only tighter operators between them. */
  ghost predicate Neighbours(ops: seq<Operator>, i: int, j: int) {
    && 0 <= i < j < |ops|
    && ops[i].prec == ops[j].prec
    && forall k :: i < k < j ==> ops[k].prec > ops[j].prec
  }

  predicate Clash(a: Operator, b: Operator) {
    a.assoc != b.assoc || b.assoc == NonAssoc
  }

  /** Equal precedences with no looser operator between them. */
  ghost predicate SameLevel(ops: seq<Operator>, i: int, j: int) {
    && 0 <= i < j < |ops|
    && ops[i].prec == ops[j].prec
    && forall k :: i < k < j ==> ops[k].prec >= ops[j].prec
  }

  ghost predicate Unambiguous(ops: seq<Operator>) {
    forall i, j :: SameLevel(ops, i, j) ==> ops[i].assoc == ops[j].assoc != NonAssoc
  }

  /** The error names the later operator of a clashing pair of neighbours. */
  ghost predicate Justified(ops: seq<Operator>, error: FixityError) {
    exists i :: Neighbours(ops, i, error.at) && Clash(ops[i], ops[error.at])
                && (error.problem.MixedAssociativity? <==> ops[i].assoc != ops[error.at].assoc)
  }

  ghost predicate Reported(errors: seq<FixityError>, j: int) {
    exists e :: 0 <= e < |errors| && errors[e].at == j
  }

  /** The errors are justified, in source order, and name every clash before position `n`. */
  ghost predicate ReportsExactly(ops: seq<Operator>, n: int, errors: seq<FixityError>) {
    && (forall e :: 0 <= e < |errors| ==> Justified(ops, errors[e]) && errors[e].at < n)
    && (forall i, j :: Neighbours(ops, i, j) && j < n && Clash(ops[i], ops[j]) ==> Reported(errors, j))
    && (forall d, e :: 0 <= d < e < |errors| ==> errors[d].at < errors[e].at)
  }

  lemma {:induction false} ReportsNothing(ops: seq<Operator>, n: int, errors: seq<FixityError>)
    requires ReportsExactly(ops, n, errors)
    requires forall i :: Neighbours(ops, i, n) ==> !Clash(ops[i], ops[n])
    ensures ReportsExactly(ops, n + 1, errors)
  {
  }

  lemma {:induction false} ReportsOne(ops: seq<Operator>, n: int, errors: seq<FixityError>, error: FixityError)
    requires ReportsExactly(ops, n, errors)
    requires error.at == n && Justified(ops, error)
    ensures ReportsExactly(ops, n + 1, errors + [error])
  {
    var errors' := errors + [error];
    forall i, j | Neighbours(ops, i, j) && j < n + 1 && Clash(ops[i], ops[j])
      ensures Reported(errors', j)
    {
      if j < n {
        assert Reported(errors, j);
        var e :| 0 <= e < |errors| && errors[e].at == j;
        assert errors'[e].at == j;
      } else {
        assert errors'[|errors|].at == n;
      }
    }
  }

  /** Positions still on the stack: increasing, and never loosening. */
  ghost predicate Rising(ops: seq<Operator>, n: int, stack: seq<int>) {
    && 0 <= n <= |ops|
    && (forall s :: 0 <= s < |stack| ==> 0 <= stack[s] < n)
    && (forall r, s :: 0 <= r < s < |stack| ==> stack[r] < stack[s])
  }

  /** A later operator that binds no tighter hides position `i` from everything after it. */
  ghost predicate Shadowed(ops: seq<Operator>, n: int, i: int)
    requires 0 <= i < n <= |ops|
  {
    exists k :: i < k < n && ops[k].prec <= ops[i].prec
  }

  ghost predicate AllShadowed(ops: seq<Operator>, n: int, stack: seq<int>)
    requires 0 <= n <= |ops|
  {
    forall i :: 0 <= i < n && i !in stack ==> Shadowed(ops, n, i)
  }

  /** While popping: a position off the stack is shadowed or binds tighter than `bound`. */
  ghost predicate Accounted(ops: seq<Operator>, n: int, stack: seq<int>, bound: int)
    requires 0 <= n <= |ops|
  {
    forall i :: 0 <= i < n && i !in stack ==> ops[i].prec > bound || Shadowed(ops, n, i)
  }

  /** With everything tighter than `ops[n]` popped, only the top can be its left neighbour. */
  lemma {:induction false} TopIsNeighbour(ops: seq<Operator>, n: int, stack: seq<int>)
    requires n < |ops| && Rising(ops, n, stack)
    requires Accounted(ops, n, stack, ops[n].prec)
    requires stack == [] || ops[stack[|stack| - 1]].prec <= ops[n].prec
    ensures forall i :: Neighbours(ops, i, n) ==> stack != [] && i == stack[|stack| - 1]
    ensures stack != [] && ops[stack[|stack| - 1]].prec == ops[n].prec ==> Neighbours(ops, stack[|stack| - 1], n)
  {
    var low := if stack == [] then -1 else stack[|stack| - 1];
    forall i | low < i < n
      ensures ops[i].prec > ops[n].prec
    {
      AboveTopIsTighter(ops, n, stack, low, i);
    }
  }

  lemma {:induction false} AboveTopIsTighter(ops: seq<Operator>, n: int, stack: seq<int>, low: int, i: int)
    requires 0 <= n < |ops| && Accounted(ops, n, stack, ops[n].prec)
    requires forall s :: 0 <= s < |stack| ==> stack[s] <= low
    requires -1 <= low < i < n
    ensures ops[i].prec > ops[n].prec
    decreases n - i
  {
    if ops[i].prec <= ops[n].prec {
      assert Shadowed(ops, n, i);
      var k :| i < k < n && ops[k].prec <= ops[i].prec;
      AboveTopIsTighter(ops, n, stack, low, k);
    }
  }

  /** Popping a position that binds tighter than `bound` leaves every other one accounted for. */
  lemma {:induction false} PopAccounted(ops: seq<Operator>, n: int, stack: seq<int>, bound: int)
    requires Rising(ops, n, stack) && stack != [] && Accounted(ops, n, stack, bound)
    requires ops[stack[|stack| - 1]].prec > bound
    ensures Rising(ops, n, stack[..|stack| - 1]) && Accounted(ops, n, stack[..|stack| - 1], bound)
  {
    var top := |stack| - 1;
    forall i | 0 <= i < n && i !in stack[..top]
      ensures ops[i].prec > bound || Shadowed(ops, n, i)
    {
      assert i in stack ==> i == stack[top];
    }
  }

  /** Pushing position `n`, after dropping at most one equal on top, shadows whatever was dropped. */
  lemma {:induction false} PushAccounted(ops: seq<Operator>, n: int, stack: seq<int>, kept: seq<int>)
    requires n < |ops| && Rising(ops, n, stack) && Accounted(ops, n, stack, ops[n].prec)
    requires kept == stack
             || (stack != [] && kept == stack[..|stack| - 1] && ops[stack[|stack| - 1]].prec == ops[n].prec)
    ensures Rising(ops, n + 1, kept + [n])
    ensures AllShadowed(ops, n + 1, kept + [n])
  {
    forall i | 0 <= i < n + 1 && i !in kept + [n]
      ensures Shadowed(ops, n + 1, i)
    {
      assert (kept + [n])[|kept|] == n;
      assert forall j :: j in kept ==> j in kept + [n];
      if i in stack {
        assert i == stack[|stack| - 1];
      } else if ops[i].prec <= ops[n].prec {
        assert Shadowed(ops, n, i);
      }
    }
  }

  method ValidateFixityGroup(ops: seq<Operator>) returns (errors: seq<FixityError>)
    ensures ReportsExactly(ops, |ops|, errors)
  {
    var stack: seq<int> := [];
    errors := [];
    var n := 0;
    while n < |ops|
      invariant Rising(ops, n, stack)
      invariant AllShadowed(ops, n, stack)
      invariant ReportsExactly(ops, n, errors)
    {
      while stack != [] && ops[stack[|stack| - 1]].prec > ops[n].prec
        invariant Rising(ops, n, stack) && Accounted(ops, n, stack, ops[n].prec)
        decreases |stack|
      {
        PopAccounted(ops, n, stack, ops[n].prec);
        stack := stack[..|stack| - 1];
      }
      TopIsNeighbour(ops, n, stack);
      var kept := stack;
      if stack != [] && ops[stack[|stack| - 1]].prec == ops[n].prec {
        var top := stack[|stack| - 1];
        var conflict := ops[top].assoc != ops[n].assoc || ops[n].assoc == NonAssoc;
        if ops[top].assoc != ops[n].assoc {
          ReportsOne(ops, n, errors, FixityError(n, MixedAssociativity));
          errors := errors + [FixityError(n, MixedAssociativity)];
        } else if ops[n].assoc == NonAssoc {
          ReportsOne(ops, n, errors, FixityError(n, ChainedNonAssociative));
          errors := errors + [FixityError(n, ChainedNonAssociative)];
        } else {
          ReportsNothing(ops, n, errors);
        }
        if conflict || ops[n].assoc != RightAssoc {
          kept := stack[..|stack| - 1];
        }
      } else {
        ReportsNothing(ops, n, errors);
      }
      PushAccounted(ops, n, stack, kept);
      stack := kept + [n];
      n := n + 1;
    }
  }

  /** The validator accepts exactly the unambiguous chains. */
  lemma {:induction false} AcceptsExactly(ops: seq<Operator>, errors: seq<FixityError>)
    requires ReportsExactly(ops, |ops|, errors)
    ensures errors == [] <==> Unambiguous(ops)
  {
    if errors == [] {
      forall i, j | SameLevel(ops, i, j)
        ensures ops[i].assoc == ops[j].assoc != NonAssoc
      {
        LevelAgrees(ops, i, j);
      }
    } else {
      assert Justified(ops, errors[0]);
      var i :| Neighbours(ops, i, errors[0].at) && Clash(ops[i], ops[errors[0].at]);
      assert SameLevel(ops, i, errors[0].at);
    }
  }

  lemma {:induction false} LevelAgrees(ops: seq<Operator>, i: int, j: int)
    requires SameLevel(ops, i, j)
    requires forall a, b :: Neighbours(ops, a, b) ==> !Clash(ops[a], ops[b])
    ensures ops[i].assoc == ops[j].assoc != NonAssoc
    decreases j - i
  {
    if k :| i < k < j && ops[k].prec == ops[j].prec {
      LevelAgrees(ops, i, k);
      LevelAgrees(ops, k, j);
    } else {
      assert Neighbours(ops, i, j);
    }
  }

  ghost function ClashingPairs(ops: seq<Operator>): set<(int, int)> {
    set i, j | 0 <= i < |ops| && 0 <= j < |ops| && Neighbours(ops, i, j) && Clash(ops[i], ops[j]) :: (i, j)
  }

  ghost predicate Paired(pairs: set<(int, int)>, j: int) {
    exists i :: (i, j) in pairs
  }

  /** One error per clashing pair of neighbours. */
  lemma {:induction false} ErrorCount(ops: seq<Operator>, errors: seq<FixityError>)
    requires ReportsExactly(ops, |ops|, errors)
    ensures |errors| == |ClashingPairs(ops)|
  {
    forall e | 0 <= e < |errors|
      ensures Paired(ClashingPairs(ops), errors[e].at)
    {
      assert Justified(ops, errors[e]);
      var i :| Neighbours(ops, i, errors[e].at) && Clash(ops[i], ops[errors[e].at]);
      assert (i, errors[e].at) in ClashingPairs(ops);
    }
    ErrorCountFrom(ops, errors, ClashingPairs(ops));
  }

  lemma {:induction false} ErrorCountFrom(ops: seq<Operator>, errors: seq<FixityError>, pairs: set<(int, int)>)
    requires forall e :: 0 <= e < |errors| ==> Paired(pairs, errors[e].at)
    requires forall p <- pairs :: Neighbours(ops, p.0, p.1) && Reported(errors, p.1)
    requires forall d, e :: 0 <= d < e < |errors| ==> errors[d].at < errors[e].at
    ensures |errors| == |pairs|
    decreases |errors|
  {
    if errors == [] {
      assert pairs == {};
    } else {
      var m := |errors| - 1;
      assert Paired(pairs, errors[m].at);
      var i :| (i, errors[m].at) in pairs;
      var rest := pairs - {(i, errors[m].at)};
      forall p <- rest
        ensures Reported(errors[..m], p.1)
      {
        var e :| 0 <= e < |errors| && errors[e].at == p.1;
        assert p.1 == errors[m].at ==> p.0 == i;
        assert errors[..m][e].at == p.1;
      }
      forall e | 0 <= e < m
        ensures Paired(rest, errors[..m][e].at)
      {
        assert Paired(pairs, errors[e].at);
        var i' :| (i', errors[e].at) in pairs;
        assert (i', errors[..m][e].at) in rest;
      }
      ErrorCountFrom(ops, errors[..m], rest);
    }
  }

  // ----- Accepted chains have an unambiguous tree -----

  /** No operator shares its precedence with a child unless both associate the same way. */
  ghost predicate Harmonious<T>(t: Tree<T>) {
    match t
    case Leaf(_) => true
    case Branch(op, l, r) =>
      && Harmonious(l) && Harmonious(r)
      && (l.Branch? && l.op.prec == op.prec ==> l.op.assoc == op.assoc == LeftAssoc)
      && (r.Branch? && r.op.prec == op.prec ==> r.op.assoc == op.assoc == RightAssoc)
  }

  lemma {:induction false} AcceptedTreeHarmonious<T>(t: Tree<T>)
    requires Correct(t) && Unambiguous(Operators(t))
    ensures Harmonious(t)
  {
    match t
    case Leaf(_) =>
    case Branch(op, l, r) =>
      var ops := Operators(t);
      var i := |Operators(l)|;
      assert ops[i] == op;
      RootDominates(t);
      UnambiguousPart(ops, 0, i);
      UnambiguousPart(ops, i + 1, |ops|);
      assert ops[0..i] == Operators(l) && ops[i + 1..|ops|] == Operators(r);
      AcceptedTreeHarmonious(l);
      AcceptedTreeHarmonious(r);
      if l.Branch? && l.op.prec == op.prec {
        LeftChildLevel(t);
      }
      if r.Branch? && r.op.prec == op.prec {
        RightChildLevel(t);
      }
  }

  lemma {:induction false} LeftChildLevel<T>(t: Tree<T>)
    requires t.Branch? && t.left.Branch? && Correct(t) && t.left.op.prec == t.op.prec
    ensures SameLevel(Operators(t), |Operators(t.left.left)|, |Operators(t.left)|)
    ensures Operators(t)[|Operators(t.left.left)|] == t.left.op && Operators(t)[|Operators(t.left)|] == t.op
  {
    var ops, k, i := Operators(t), |Operators(t.left.left)|, |Operators(t.left)|;
    assert ops[k] == Operators(t.left)[k];
    RootDominates(t);
    forall m | k < m < i
      ensures ops[m].prec >= t.op.prec
    {
      Position(t, m);
    }
  }

  lemma {:induction false} RightChildLevel<T>(t: Tree<T>)
    requires t.Branch? && t.right.Branch? && Correct(t) && t.right.op.prec == t.op.prec
    ensures var i := |Operators(t.left)|;
            var k := i + 1 + |Operators(t.right.left)|;
            SameLevel(Operators(t), i, k) && Operators(t)[i] == t.op && Operators(t)[k] == t.right.op
  {
    var ops, i := Operators(t), |Operators(t.left)|;
    var k := i + 1 + |Operators(t.right.left)|;
    assert Operators(t.right) == Operators(t.right.left) + [t.right.op] + Operators(t.right.right);
    assert ops[k] == Operators(t.right)[k - i - 1];
    RootDominates(t);
    forall m | i < m < k
      ensures ops[m].prec >= t.op.prec
    {
      Position(t, m);
    }
  }

  lemma {:induction false} UnambiguousPart(ops: seq<Operator>, lo: int, hi: int)
    requires 0 <= lo <= hi <= |ops| && Unambiguous(ops)
    ensures Unambiguous(ops[lo..hi])
  {
    forall i, j | SameLevel(ops[lo..hi], i, j)
      ensures ops[lo..hi][i].assoc == ops[lo..hi][j].assoc != NonAssoc
    {
      forall k | lo + i < k < lo + j ensures ops[k].prec >= ops[lo + j].prec { assert ops[k] == ops[lo..hi][k - lo]; }
      assert SameLevel(ops, lo + i, lo + j);
    }
  }

  /** A chain the validator accepts is read by a tree that no associativity choice can change. */
  lemma {:induction false} AcceptedChain<T>(operands: seq<T>, operators: seq<Operator>, errors: seq<FixityError>)
    requires |operands| == |operators| + 1
    requires ReportsExactly(operators, |operators|, errors) && errors == []
    ensures Harmonious(Reassociated(operands, operators))
  {
    AcceptsExactly(operators, errors);
    ReassociatedReads(operands, operators);
    AcceptedTreeHarmonious(Reassociated(operands, operators));
  }
}
