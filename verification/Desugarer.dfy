/** The lowering pass as the stateful object it is: one counter, loops over rows, clauses and guards
    (crates/psrs-desugar/src/alpha.rs, expr.rs, guards.rs, lib.rs). Every method computes the
    function of module Lowering from the counter it starts with.
 */
module DesugarerClass {
  import opened Lists
  import opened Hir
  import opened Alpha
  import opened Lowering
  import opened LoweringNormalForm
  import opened LoweringMeaning

  // ----- Sequences and lists -----

  lemma {:induction false} FromSeqHead<T>(s: seq<T>)
    requires s != []
    ensures FromSeq(s) == Cons(s[0], FromSeq(s[1..]))
  {
  }

  lemma {:induction false} FromSeqLength<T>(s: seq<T>)
    ensures Length(FromSeq(s)) == |s|
  {
    if s != [] { FromSeqLength(s[1..]); }
  }

  lemma {:induction false} AppendSnoc<T>(s: seq<T>, x: T, xs: List<T>)
    ensures Append(FromSeq(s + [x]), xs) == Append(FromSeq(s), Cons(x, xs))
  {
    if s == [] {
      assert [x][1..] == [];
      assert FromSeq([x]) == Cons(x, Nil);
      assert Append(Cons(x, Nil), xs) == Cons(x, Append(Nil, xs));
    } else {
      assert (s + [x])[1..] == s[1..] + [x];
      AppendSnoc(s[1..], x, xs);
    }
  }

  lemma {:induction false} AppendToNil<T>(s: seq<T>)
    ensures Append(FromSeq(s), Nil) == FromSeq(s)
  {
    if s != [] { AppendToNil(s[1..]); }
  }

  lemma {:induction false} FromSeqDrop<T>(s: seq<T>, i: nat)
    requires i < |s|
    ensures FromSeq(s[i..]) == Cons(s[i], FromSeq(s[i + 1..]))
  {
    assert s[i..][1..] == s[i + 1..];
  }

  lemma {:induction false} FreshIdsSeq(n: Id, ids: seq<Id>)
    requires forall i :: 0 <= i < |ids| ==> ids[i] == n + i
    ensures FromSeq(ids) == FreshIds(n, |ids|)
    decreases |ids|
  {
    if ids != [] { FreshIdsSeq(n + 1, ids[1..]); }
  }

  // ----- Positions in a row list -----

  lemma {:induction false} RowWithin(rows: seq<Row>, i: nat)
    requires i < |rows|
    ensures Sugar(rows[i].value) <= SugarRows(FromSeq(rows)) && Size(rows[i].value) < SizeRows(FromSeq(rows))
  {
    FromSeqHead(rows);
    if i > 0 { RowWithin(rows[1..], i - 1); }
  }

  lemma {:induction false} NoneGuarded(rows: seq<Row>)
    ensures AnyGuarded(FromSeq(rows)) <==> exists i :: 0 <= i < |rows| && IsGuardedRhs(rows[i].value)
  {
    if rows != [] {
      FromSeqHead(rows);
      NoneGuarded(rows[1..]);
      if i :| 0 <= i < |rows| && IsGuardedRhs(rows[i].value) {
        if i > 0 { assert IsGuardedRhs(rows[1..][i - 1].value); }
      }
      if i :| 0 <= i < |rows[1..]| && IsGuardedRhs(rows[1..][i].value) { assert IsGuardedRhs(rows[i + 1].value); }
    }
  }

  /** `first` is the position of the first guarded row. */
  ghost predicate FirstAt(rows: seq<Row>, first: nat) {
    first < |rows| && IsGuardedRhs(rows[first].value) && forall i :: 0 <= i < first ==> !IsGuardedRhs(rows[i].value)
  }

  lemma {:induction false} HelperRowsAt(rows: seq<Row>, first: nat)
    requires FirstAt(rows, first)
    ensures AnyGuarded(FromSeq(rows)) && HelperRows(FromSeq(rows)) == FromSeq(rows[first + 1..])
  {
    FromSeqHead(rows);
    if first > 0 {
      HelperRowsAt(rows[1..], first - 1);
      assert rows[1..][first..] == rows[first + 1..];
    }
  }

  lemma {:induction false} WrapRowsAt(rows: seq<Row>, wrapped: seq<Row>)
    requires |wrapped| == |rows|
    requires forall i :: 0 <= i < |rows| ==> wrapped[i] == Row(ProductPattern(rows[i].pattern), rows[i].value)
    ensures FromSeq(wrapped) == WrapRows(FromSeq(rows))
  {
    if rows != [] { WrapRowsAt(rows[1..], wrapped[1..]); }
  }

  lemma {:induction false} AllRecordAt(rows: seq<Row>)
    ensures AllRecordPatterns(FromSeq(rows)) <==> forall i :: 0 <= i < |rows| ==> IsRecordPattern(rows[i].pattern)
  {
    if rows != [] {
      FromSeqHead(rows);
      AllRecordAt(rows[1..]);
      if forall i :: 0 <= i < |rows[1..]| ==> IsRecordPattern(rows[1..][i].pattern) {
        forall i | 1 <= i < |rows| ensures IsRecordPattern(rows[1..][i - 1].pattern)
            == IsRecordPattern(rows[i].pattern) {}
      }
    }
  }

  lemma {:induction false} ClauseWithin(cs: seq<Clause>, i: nat)
    requires i < |cs|
    ensures var c, all := cs[i], FromSeq(cs);
            && SugarBindings(c.wheres) + SugarGuards(c.guards) + Sugar(c.value) <= SugarClauses(all)
            && SizeBindings(c.wheres) + SizeGuards(c.guards) + Size(c.value) < SizeClauses(all)
  {
    FromSeqHead(cs);
    if i > 0 { ClauseWithin(cs[1..], i - 1); }
  }

  lemma {:induction false} GuardWithin(gs: seq<Guard>, i: nat)
    requires i < |gs|
    ensures SugarGuard(gs[i]) <= SugarGuards(FromSeq(gs)) && SizeGuard(gs[i]) < SizeGuards(FromSeq(gs))
  {
    FromSeqHead(gs);
    if i > 0 { GuardWithin(gs[1..], i - 1); }
  }

  lemma {:induction false} WrapRowsSugar(rows: List<Row>)
    ensures SugarRows(WrapRows(rows)) == SugarRows(rows)
  {
    match rows
    case Nil =>
    case Cons(_, rest) => WrapRowsSugar(rest);
  }

  // ----- Numbering ids one by one -----

  ghost function Numbered(mapping: Renaming, rest: set<Id>, n: Id): Out<Renaming>
    decreases |rest|
  {
    if rest == {} then Out(mapping, n) else Numbered(mapping[Smallest(rest) := n], rest - {Smallest(rest)}, n + 1)
  }

  lemma {:induction false} NumberedAllocates(mapping: Renaming, rest: set<Id>, n: Id)
    requires mapping.Keys !! rest
    ensures Numbered(mapping, rest, n) == Out(mapping + Allocate(rest, n).value, Allocate(rest, n).next)
    decreases |rest|
  {
    if rest == {} {
      assert Allocate(rest, n) == AllocateNext(rest, n);
      assert mapping + map[] == mapping;
    } else {
      var x := Smallest(rest);
      NumberedAllocates(mapping[x := n], rest - {x}, n + 1);
      AllocateFirst(mapping, rest, n);
    }
  }

  lemma {:induction false} AllocateFirst(mapping: Renaming, rest: set<Id>, n: Id)
    requires rest != {} && mapping.Keys !! rest
    ensures var x := Smallest(rest);
            var later := Allocate(rest - {x}, n + 1);
            mapping + Allocate(rest, n).value == mapping[x := n] + later.value && Allocate(rest, n).next == later.next
  {
    var x := Smallest(rest);
    var later := Allocate(rest - {x}, n + 1).value;
    assert Allocate(rest, n) == AllocateNext(rest, n);
    MapMoves(mapping, later, x, n);
  }

  lemma {:induction false} MapMoves(mapping: Renaming, later: Renaming, x: Id, n: Id)
    requires x !in later
    ensures mapping + later[x := n] == mapping[x := n] + later
  {
  }

  lemma {:induction false} NumberedFromNothing(ids: set<Id>, n: Id)
    ensures Numbered(map[], ids, n) == Allocate(ids, n)
  {
    NumberedAllocates(map[], ids, n);
    var all := Allocate(ids, n).value;
    assert map[] + all == all;
  }

  // ----- The pass -----

  class Desugarer {
    var next: Id

    constructor (bodies: List<Expr>)
      ensures next == AfterModule(bodies)
    {
      next := AfterModule(bodies);
    }

    method Alloc() returns (id: Id)
      modifies this
      ensures id == old(next) && next == old(next) + 1
    {
      id := next;
      next := next + 1;
    }

    method AllocMany(count: nat) returns (ids: seq<Id>)
      modifies this
      ensures |ids| == count && FromSeq(ids) == FreshIds(old(next), count) && next == old(next) + count
    {
      ids := [];
      for i := 0 to count
        invariant |ids| == i && next == old(next) + i && forall j :: 0 <= j < i ==> ids[j] == old(next) + j
      {
        var id := Alloc();
        ids := ids + [id];
      }
      FreshIdsSeq(old(next), ids);
    }

    /** Maps the collected ids to new ones, smallest first. */
    method FreshMapping(ids: set<Id>) returns (mapping: Renaming)
      modifies this
      ensures Out(mapping, next) == Allocate(ids, old(next))
    {
      mapping := map[];
      var rest := ids;
      ghost var all := Numbered(mapping, ids, next);
      while rest != {}
        invariant Numbered(mapping, rest, next) == all
        decreases |rest|
      {
        var x := Smallest(rest);
        var id := Alloc();
        mapping := mapping[x := id];
        rest := rest - {x};
      }
      NumberedFromNothing(ids, old(next));
    }

    method CloneBranch(row: Row) returns (copy: Row)
      modifies this
      ensures Out(copy, next) == CloneRow(row, old(next))
    {
      var mapping := FreshMapping(IdsRow(row));
      copy := RenameRow(row, mapping);
    }

    method CloneExpr(e: Expr) returns (copy: Expr)
      modifies this
      ensures Out(copy, next) == CloneExpression(e, old(next))
    {
      var mapping := FreshMapping(Ids(e));
      copy := Rename(e, mapping);
    }

    method LowerExpr(e: Expr) returns (r: Expr)
      modifies this
      ensures Out(r, next) == Lower(e, old(next))
      decreases Sugar(e), Size(e), 1
    {
      match e
      case Local(_) => r := e;
      case Global(_) => r := e;
      case Constant(_) => r := e;
      case Compound(form, parts) =>
        var parts' := LowerAll(parts);
        r := Compound(form, parts');
      case Apply(f, a) =>
        var f' := LowerExpr(f);
        var a' := LowerExpr(a);
        r := Apply(f', a');
      case Operator(s, left, right) =>
        var left' := LowerExpr(left);
        var right' := LowerExpr(right);
        r := Apply(Apply(Global(s), left'), right');
      case Negate(f, a) =>
        var f' := LowerExpr(f);
        var a' := LowerExpr(a);
        r := Apply(f', a');
      case Lambda(x, b) =>
        var b' := LowerExpr(b);
        r := Lambda(x, b');
      case Let(bs, b) =>
        var bs' := LowerGroup(bs);
        var b' := LowerExpr(b);
        r := Let(bs', b');
      case If(c, t, f) =>
        var c' := LowerExpr(c);
        var t' := LowerExpr(t);
        var f' := LowerExpr(f);
        r := If(c', t', f');
      case Case(s, rows) => r := LowerBranches(s, rows);
      case Guarded(cs) =>
        NoMatchNormal();
        r := LowerAlternatives(cs, NO_MATCH);
    }

    method LowerAll(es: List<Expr>) returns (r: List<Expr>)
      modifies this
      ensures Out(r, next) == LowerParts(es, old(next))
      decreases SugarParts(es), SizeParts(es), 0
    {
      match es
      case Nil => r := Nil;
      case Cons(e, rest) =>
        var e' := LowerExpr(e);
        var rest' := LowerAll(rest);
        r := Cons(e', rest');
    }

    method LowerGroup(bs: List<Binding>) returns (r: List<Binding>)
      modifies this
      ensures Out(r, next) == LowerBindings(bs, old(next))
      decreases SugarBindings(bs), SizeBindings(bs), 0
    {
      match bs
      case Nil => r := Nil;
      case Cons(b, rest) =>
        var v := LowerExpr(b.value);
        var rest' := LowerGroup(rest);
        r := Cons(Binding(b.id, v), rest');
    }

    method LowerValues(rows: List<Row>) returns (r: List<Row>)
      modifies this
      ensures Out(r, next) == LowerRows(rows, old(next))
      decreases SugarRows(rows), SizeRows(rows), 0
    {
      match rows
      case Nil => r := Nil;
      case Cons(row, rest) =>
        var v := LowerExpr(row.value);
        var rest' := LowerValues(rest);
        r := Cons(Row(row.pattern, v), rest');
    }

    /** `branch_value` */
    method LowerBranchValue(e: Expr, failure: Expr) returns (r: Expr)
      requires Sugar(failure) == 0
      modifies this
      ensures Out(r, next) == LowerRhs(e, failure, old(next))
      decreases Sugar(e), Size(e), 2
    {
      match e
      case Guarded(cs) => r := LowerAlternatives(cs, failure);
      case Let(bs, b) =>
        var bs' := LowerGroup(bs);
        var b' := LowerBranchValue(b, failure);
        r := Let(bs', b');
      case _ => r := LowerExpr(e);
    }

    /** `clauses`, from the last one */
    method LowerAlternatives(cs: List<Clause>, failure: Expr) returns (value: Expr)
      requires Sugar(failure) == 0
      modifies this
      ensures Out(value, next) == LowerClauses(cs, failure, old(next))
      decreases 1 + SugarClauses(cs), SizeClauses(cs), 0
    {
      var clauses := ToSeq(cs);
      FromToSeq(cs);
      value := failure;
      for i := |clauses| downto 0
        invariant Out(value, next) == LowerClauses(FromSeq(clauses[i..]), failure, old(next))
      {
        ghost var later, n := FromSeq(clauses[i + 1..]), next;
        LoweredNormalClauses(later, failure, old(next));
        FromSeqDrop(clauses, i);
        ClauseWithin(clauses, i);
        value := LowerAlternative(clauses[i], value);
      }
      assert clauses[0..] == clauses;
    }

    method LowerAlternative(c: Clause, failure: Expr) returns (value: Expr)
      requires Sugar(failure) == 0
      modifies this
      ensures Out(value, next) == LowerClause(c, failure, old(next))
      decreases 1 + SugarBindings(c.wheres) + SugarGuards(c.guards) + Sugar(c.value),
                SizeBindings(c.wheres) + SizeGuards(c.guards) + Size(c.value), 0
    {
      LoweredNormal(c.value, next);
      value := LowerExpr(c.value);
      value := LowerGuardList(c.guards, value, failure);
      if c.wheres.Cons? {
        var wheres := LowerGroup(c.wheres);
        value := Let(wheres, value);
      }
    }

    /** `guards`, from the last one */
    method LowerGuardList(gs: List<Guard>, success: Expr, failure: Expr) returns (value: Expr)
      requires Sugar(success) == 0 && Sugar(failure) == 0
      modifies this
      ensures Out(value, next) == LowerGuards(gs, success, failure, old(next))
      decreases 1 + SugarGuards(gs), SizeGuards(gs), 0
    {
      var guards := ToSeq(gs);
      FromToSeq(gs);
      value := success;
      for i := |guards| downto 0
        invariant Out(value, next) == LowerGuards(FromSeq(guards[i..]), success, failure, old(next))
      {
        LoweredNormalGuards(FromSeq(guards[i + 1..]), success, failure, old(next));
        FromSeqDrop(guards, i);
        GuardWithin(guards, i);
        match guards[i]
        case Test(c) =>
          var c' := LowerExpr(c);
          var copy := CloneExpr(failure);
          value := If(c', value, copy);
        case Match(p, v) =>
          var copy := CloneExpr(failure);
          CloneIsNormal(failure, copy);
          value := LowerPatternGuard(p, v, value, copy);
        case Bindings(bs) =>
          var bs' := LowerGroup(bs);
          value := Let(bs', value);
      }
      assert guards[0..] == guards;
    }

    /** `pattern_guard`: builds a case from lowered parts and lowers it again. */
    method LowerPatternGuard(p: Pattern, v: Expr, success: Expr, failure: Expr) returns (value: Expr)
      requires Sugar(success) == 0 && Sugar(failure) == 0
      modifies this
      ensures var v' := Lower(v, old(next));
              Out(value, next) == Out(Case(PatternScrutinee(v'.value, p),
                                           Cons(Row(PatternForScrutinee(p), success),
                                                Cons(Row(Wildcard, failure), Nil))), v'.next)
      decreases 1 + Sugar(v), Size(v), 0
    {
      LoweredNormal(v, next);
      var v' := LowerExpr(v);
      ScrutineeNormal(v', p);
      TwoRowsNormal(PatternScrutinee(v', p), PatternForScrutinee(p), success, failure);
      var built := Case(PatternScrutinee(v', p),
                        Cons(Row(PatternForScrutinee(p), success), Cons(Row(Wildcard, failure), Nil)));
      LowerNormal(built, next);
      value := LowerExpr(built);
    }

    /** The position of the first guarded row, if there is one. */
    static method FirstGuard(rows: seq<Row>) returns (first: Option<nat>)
      ensures first.None? <==> forall i :: 0 <= i < |rows| ==> !IsGuardedRhs(rows[i].value)
      ensures first.Some? ==> FirstAt(rows, first.value)
    {
      first := None;
      for i := 0 to |rows|
        invariant forall j :: 0 <= j < i ==> !IsGuardedRhs(rows[j].value)
      {
        if IsGuardedRhs(rows[i].value) { return Some(i); }
      }
    }

    /** Wraps every pattern unless all of them are record patterns already. */
    static method WrapPatterns(rows: seq<Row>) returns (wrapped: seq<Row>, wrap: bool)
      ensures wrap == !AllRecordPatterns(FromSeq(rows))
      ensures FromSeq(wrapped) == if wrap then WrapRows(FromSeq(rows)) else FromSeq(rows)
      ensures |wrapped| == |rows| && forall i :: 0 <= i < |rows| ==> wrapped[i].value == rows[i].value
    {
      AllRecordAt(rows);
      wrap := exists i :: 0 <= i < |rows| && !IsRecordPattern(rows[i].pattern);
      wrapped := rows;
      if wrap {
        for i := 0 to |rows|
          invariant |wrapped| == |rows|
          invariant forall j :: 0 <= j < i ==> wrapped[j] == Row(ProductPattern(rows[j].pattern), rows[j].value)
          invariant forall j :: i <= j < |rows| ==> wrapped[j] == rows[j]
        {
          wrapped := wrapped[i := Row(ProductPattern(wrapped[i].pattern), wrapped[i].value)];
        }
        WrapRowsAt(rows, wrapped);
      }
    }

    /** `case` */
    method LowerBranches(scrutinee: Expr, rows: List<Row>) returns (r: Expr)
      modifies this
      ensures Out(r, next) == LowerCase(scrutinee, rows, old(next))
      decreases Sugar(scrutinee) + SugarRows(rows), 1 + Size(scrutinee) + SizeRows(rows), 0
    {
      var saved := LowerExpr(scrutinee);
      var branches := ToSeq(rows);
      FromToSeq(rows);
      NoneGuarded(branches);
      var first := FirstGuard(branches);
      match first
      case None =>
        var rows' := LowerValues(rows);
        r := Case(saved, rows');
      case Some(firstGuard) =>
        var wrapped, wrap := WrapPatterns(branches);
        if wrap { saved := Product(saved); }
        WrapRowsSugar(rows);
        r := LowerGuardedBranches(saved, wrapped, firstGuard);
    }

    method LowerGuardedBranches(saved: Expr, branches: seq<Row>, firstGuard: nat) returns (r: Expr)
      requires FirstAt(branches, firstGuard)
      modifies this
      ensures AnyGuarded(FromSeq(branches)) && Out(r, next) == LowerMatch(saved, FromSeq(branches), old(next))
      decreases SugarRows(FromSeq(branches)), SizeRows(FromSeq(branches)), 6
    {
      HelperRowsAt(branches, firstGuard);
      FromSeqLength(branches[firstGuard + 1..]);
      var temp := Alloc();
      var binders := AllocMany(|branches| - firstGuard);
      var values := LowerFallthrough(branches, firstGuard + 1, temp);
      var roots := LowerRootBranches(branches, firstGuard, binders);
      r := Let(Cons(Binding(temp, saved), Nil), Let(Bound(FromSeq(binders), values), Case(Local(temp), roots)));
    }

    /** One helper per row from `start` on, then the one that fails. */
    method LowerFallthrough(branches: seq<Row>, start: nat, temp: Id) returns (values: List<Expr>)
      requires start <= |branches|
      modifies this
      ensures Out(values, next) == LowerHelpers(FromSeq(branches[start..]), temp, old(next))
      decreases SugarRows(FromSeq(branches)), SizeRows(FromSeq(branches)), 3
    {
      var built: seq<Expr> := [];
      ghost var all := LowerHelpers(FromSeq(branches[start..]), temp, next);
      for i := start to |branches|
        invariant var rest := LowerHelpers(FromSeq(branches[i..]), temp, next);
                  all.value == Append(FromSeq(built), rest.value) && all.next == rest.next
      {
        var helper := LowerHelper(branches, i, temp);
        AppendSnoc(built, helper, LowerHelpers(FromSeq(branches[i + 1..]), temp, next).value);
        built := built + [helper];
      }
      var token := Alloc();
      var last := HelperFunction(Nil, token, Case(Local(temp), Nil));
      AppendSnoc(built, last, Nil);
      AppendToNil(built + [last]);
      values := FromSeq(built + [last]);
    }

    method LowerHelper(branches: seq<Row>, i: nat, temp: Id) returns (helper: Expr)
      requires i < |branches|
      modifies this
      ensures FirstHelper(branches, i, temp, helper, old(next), next)
      decreases SugarRows(FromSeq(branches)), SizeRows(FromSeq(branches)), 2
    {
      ghost var n := next;
      RowWithin(branches, i);
      var nextFunctions := AllocMany(|branches| - i);
      var token := Alloc();
      var body := LowerFallthroughRow(branches[i], FromSeq(nextFunctions), temp);
      helper := HelperFunction(FromSeq(nextFunctions), token, body);
      HelperBuilt(branches, i, temp, FromSeq(nextFunctions), Out(body, next), n);
    }

    method LowerFallthroughRow(row: Row, nextFunctions: List<Id>, temp: Id) returns (body: Expr)
      requires nextFunctions.Cons?
      modifies this
      ensures Out(body, next) == LowerHelperRow(row, nextFunctions, temp, old(next))
      decreases Sugar(row.value), Size(row.value), 3
    {
      RenameSizes(row.value, Allocate(IdsRow(row), next).value);
      var source := CloneBranch(row);
      var failure := CallHelper(nextFunctions);
      CallHelperNormal(nextFunctions);
      var guardFailure := CloneExpr(failure);
      CloneIsNormal(failure, guardFailure);
      var value := LowerBranchValue(source.value, guardFailure);
      var wildcard := CloneExpr(failure);
      body := Case(Local(temp), Cons(Row(source.pattern, value), Cons(Row(Wildcard, wildcard), Nil)));
    }

    /** The rows of the case itself. */
    method LowerRootBranches(branches: seq<Row>, firstGuard: nat, binders: seq<Id>) returns (roots: List<Row>)
      requires FirstAt(branches, firstGuard)
      requires |binders| == |branches| - firstGuard
      modifies this
      ensures AnyGuarded(FromSeq(branches)) && Length(FromSeq(binders)) == Length(HelperRows(FromSeq(branches))) + 1
      ensures Out(roots, next) == LowerRoots(FromSeq(branches), FromSeq(binders), false, old(next))
      decreases SugarRows(FromSeq(branches)), SizeRows(FromSeq(branches)), 5
    {
      RootsReady(branches, 0, firstGuard, binders);
      RootsStart(branches, firstGuard, binders, next);
      roots := CollectRoots(branches, firstGuard, binders);
    }

    method CollectRoots(branches: seq<Row>, firstGuard: nat, binders: seq<Id>) returns (roots: List<Row>)
      requires FirstAt(branches, firstGuard) && |binders| == |branches| - firstGuard
      requires RootsReadyAt(branches, 0, firstGuard, binders)
      modifies this
      ensures Out(roots, next) == RootsAt(branches, 0, firstGuard, binders, old(next))
      decreases SugarRows(FromSeq(branches)), SizeRows(FromSeq(branches)), 4
    {
      var built: seq<Row> := [];
      ghost var all := RootsAt(branches, 0, firstGuard, binders, next);
      for i := 0 to |branches|
        invariant RootsGathered(all, built, branches, i, firstGuard, binders, next)
      {
        built := CollectRoot(branches, i, firstGuard, binders, built, all);
      }
      roots := FromSeq(built);
      GatheredEnd(all, branches, firstGuard, binders, built, next);
    }

    /** One turn of the loop over the rows. */
    method CollectRoot(branches: seq<Row>, i: nat, firstGuard: nat, binders: seq<Id>, built: seq<Row>,
                       ghost all: Out<List<Row>>)
        returns (longer: seq<Row>)
      requires FirstAt(branches, firstGuard) && |binders| == |branches| - firstGuard && i < |branches|
      requires RootsGathered(all, built, branches, i, firstGuard, binders, next)
      modifies this
      ensures RootsGathered(all, longer, branches, i + 1, firstGuard, binders, next)
      decreases SugarRows(FromSeq(branches)), SizeRows(FromSeq(branches)), 3
    {
      RootsReady(branches, i + 1, firstGuard, binders);
      ghost var before := RootsAt(branches, i, firstGuard, binders, next);
      var root := LowerRoot(branches, i, firstGuard, binders);
      Collected(all, built, root, before, RootsAt(branches, i + 1, firstGuard, binders, next));
      longer := built + [root];
    }

    method LowerRoot(branches: seq<Row>, i: nat, firstGuard: nat, binders: seq<Id>) returns (root: Row)
      requires i < |branches| && RootsReadyAt(branches, i, firstGuard, binders)
               && RootsReadyAt(branches, i + 1, firstGuard, binders)
      requires FirstAt(branches, firstGuard) && |binders| == |branches| - firstGuard
      modifies this
      ensures FirstRoot(branches, i, firstGuard, binders, root, old(next), next)
      decreases SugarRows(FromSeq(branches)), SizeRows(FromSeq(branches)), 2
    {
      ghost var n := next;
      RowWithin(branches, i);
      if i >= firstGuard { FromSeqDrop(binders, i - firstGuard); }
      var value: Expr;
      if IsGuardedRhs(branches[i].value) {
        var nextHelper := i - firstGuard;
        CallHelperNormal(FromSeq(binders[nextHelper..]));
        value := LowerBranchValue(branches[i].value, CallHelper(FromSeq(binders[nextHelper..])));
      } else {
        value := LowerExpr(branches[i].value);
      }
      root := Row(branches[i].pattern, value);
      RootStep(branches, i, firstGuard, binders, n);
    }

    /** Lowers the declarations of a module in place, in order. */
    method LowerDeclarations(declarations: array<Expr>)
      modifies this, declarations
      ensures Out(FromSeq(declarations[..]), next) == LowerParts(FromSeq(old(declarations[..])), old(next))
    {
      ghost var source := declarations[..];
      ghost var all := LowerParts(FromSeq(source), next);
      for i := 0 to declarations.Length
        invariant declarations[i..] == source[i..]
        invariant var rest := LowerParts(FromSeq(source[i..]), next);
                  all.value == Append(FromSeq(declarations[..i]), rest.value) && all.next == rest.next
      {
        FromSeqDrop(source, i);
        ghost var done := declarations[..i];
        assert declarations[i] == declarations[i..][0];
        var value := LowerExpr(declarations[i]);
        declarations[i] := value;
        assert declarations[..i + 1] == done + [value];
        AppendSnoc(done, value, LowerParts(FromSeq(source[i + 1..]), next).value);
      }
      assert source[declarations.Length..] == [] && declarations[..declarations.Length] == declarations[..];
      AppendToNil(declarations[..]);
    }
  }

  lemma {:induction false} CloneIsNormal(e: Expr, copy: Expr)
    requires Sugar(e) == 0 && exists n :: copy == CloneExpression(e, n).value
    ensures Sugar(copy) == 0
  {
    var n :| copy == CloneExpression(e, n).value;
    CloneNormal(e, n);
  }

  /** The helpers from row `i` on are `helper`, then those from row `i + 1` on. */
  ghost predicate FirstHelper(branches: seq<Row>, i: nat, temp: Id, helper: Expr, n: Id, n': Id)
    requires i < |branches|
  {
    var rest := LowerHelpers(FromSeq(branches[i + 1..]), temp, n');
    LowerHelpers(FromSeq(branches[i..]), temp, n) == Out(Cons(helper, rest.value), rest.next)
  }

  lemma {:induction false} HelperBuilt(branches: seq<Row>, i: nat, temp: Id, next: List<Id>, body: Out<Expr>, n: Id)
    requires i < |branches| && next == FreshIds(n, |branches| - i)
    requires body == LowerHelperRow(branches[i], next, temp, n + |branches| - i + 1)
    ensures FirstHelper(branches, i, temp, HelperFunction(next, n + |branches| - i, body.value), n, body.next)
  {
    FromSeqDrop(branches, i);
    FromSeqLength(branches[i..]);
    HelperFirst(FromSeq(branches[i..]), branches[i], FromSeq(branches[i + 1..]), |branches| - i, temp, next, body, n);
  }

  lemma {:induction false} HelperFirst(later: List<Row>, row: Row, rest: List<Row>, count: nat, temp: Id,
                                       next: List<Id>, body: Out<Expr>, n: Id)
    requires later == Cons(row, rest) && count == Length(later) && next == FreshIds(n, count)
    requires body == LowerHelperRow(row, next, temp, n + count + 1)
    ensures var values := LowerHelpers(rest, temp, body.next);
            LowerHelpers(later, temp, n)
            == Out(Cons(HelperFunction(next, n + count, body.value), values.value), values.next)
  {
    HelpersUnfold(later, temp, n);
  }

  /** What is built so far, followed by the rest, is everything. */
  ghost predicate Gathered<T>(all: Out<List<T>>, built: seq<T>, rest: Out<List<T>>) {
    all == Out(Append(FromSeq(built), rest.value), rest.next)
  }

  lemma {:induction false} Collected<T>(all: Out<List<T>>, built: seq<T>, x: T, before: Out<List<T>>,
                                        after: Out<List<T>>)
    requires Gathered(all, built, before) && before == Out(Cons(x, after.value), after.next)
    ensures Gathered(all, built + [x], after)
  {
    AppendSnoc(built, x, after.value);
  }

  lemma {:induction false} GatheredEnd(all: Out<List<Row>>, branches: seq<Row>, firstGuard: nat, binders: seq<Id>,
                                       built: seq<Row>, n: Id)
    requires RootsGathered(all, built, branches, |branches|, firstGuard, binders, n)
    ensures all == Out(FromSeq(built), n)
  {
    RootsEnd(branches, firstGuard, binders, n);
    AppendToNil(built);
  }

  /** The position of the helper for the row after row `i`. */
  function LaterHelper(i: nat, firstGuard: nat): nat {
    if i <= firstGuard then 0 else i - firstGuard
  }

  ghost predicate RootsReadyAt(branches: seq<Row>, i: nat, firstGuard: nat, binders: seq<Id>) {
    && i <= |branches| && LaterHelper(i, firstGuard) <= |binders|
    && var rows, helpers := FromSeq(branches[i..]), FromSeq(binders[LaterHelper(i, firstGuard)..]);
       if i > firstGuard then Length(helpers) == Length(rows)
       else AnyGuarded(rows) && Length(helpers) == Length(HelperRows(rows)) + 1
  }

  lemma {:induction false} RootsReady(branches: seq<Row>, i: nat, firstGuard: nat, binders: seq<Id>)
    requires FirstAt(branches, firstGuard) && |binders| == |branches| - firstGuard && i <= |branches|
    ensures RootsReadyAt(branches, i, firstGuard, binders)
  {
    FromSeqLength(branches[i..]);
    FromSeqLength(binders[LaterHelper(i, firstGuard)..]);
    if i <= firstGuard {
      var rest := branches[i..];
      HelperRowsAt(rest, firstGuard - i);
      FromSeqLength(rest[firstGuard - i + 1..]);
    }
  }

  ghost function RootsAt(branches: seq<Row>, i: nat, firstGuard: nat, binders: seq<Id>, n: Id): Out<List<Row>>
    requires RootsReadyAt(branches, i, firstGuard, binders)
  {
    LowerRoots(FromSeq(branches[i..]), FromSeq(binders[LaterHelper(i, firstGuard)..]), i > firstGuard, n)
  }

  lemma {:induction false} RootsStart(branches: seq<Row>, firstGuard: nat, binders: seq<Id>, n: Id)
    requires RootsReadyAt(branches, 0, firstGuard, binders)
    ensures AnyGuarded(FromSeq(branches)) && Length(FromSeq(binders)) == Length(HelperRows(FromSeq(branches))) + 1
    ensures RootsAt(branches, 0, firstGuard, binders, n) == LowerRoots(FromSeq(branches), FromSeq(binders), false, n)
  {
    assert branches[0..] == branches && binders[0..] == binders;
  }

  lemma {:induction false} RootsEnd(branches: seq<Row>, firstGuard: nat, binders: seq<Id>, n: Id)
    requires RootsReadyAt(branches, |branches|, firstGuard, binders)
    ensures RootsAt(branches, |branches|, firstGuard, binders, n) == Out(Nil, n)
  {
    assert branches[|branches|..] == [];
  }

  /** The rows built so far, followed by the roots from row `i` on, are everything. */
  ghost predicate RootsGathered(all: Out<List<Row>>, built: seq<Row>, branches: seq<Row>, i: nat, firstGuard: nat,
                                binders: seq<Id>, n: Id) {
    RootsReadyAt(branches, i, firstGuard, binders) && Gathered(all, built, RootsAt(branches, i, firstGuard, binders, n))
  }

  /** The roots from row `i` on are `root`, then those from row `i + 1` on. */
  ghost predicate FirstRoot(branches: seq<Row>, i: nat, firstGuard: nat, binders: seq<Id>, root: Row, n: Id, n': Id)
    requires RootsReadyAt(branches, i, firstGuard, binders) && RootsReadyAt(branches, i + 1, firstGuard, binders)
  {
    var rest := RootsAt(branches, i + 1, firstGuard, binders, n');
    RootsAt(branches, i, firstGuard, binders, n) == Out(Cons(root, rest.value), rest.next)
  }

  lemma {:induction false} RootStep(branches: seq<Row>, i: nat, firstGuard: nat, binders: seq<Id>, n: Id)
    requires i < |branches| && RootsReadyAt(branches, i, firstGuard, binders)
    requires RootsReadyAt(branches, i + 1, firstGuard, binders)
    requires FirstAt(branches, firstGuard) && |binders| == |branches| - firstGuard
    ensures var row, helpers := branches[i], FromSeq(binders[LaterHelper(i, firstGuard)..]);
            && (IsGuardedRhs(row.value) ==> helpers.Cons?)
            && var v := if IsGuardedRhs(row.value) then LowerRhs(row.value, CallHelper(helpers), n)
                        else Lower(row.value, n);
               FirstRoot(branches, i, firstGuard, binders, Row(row.pattern, v.value), n, v.next)
  {
    FromSeqDrop(branches, i);
    if i >= firstGuard { FromSeqDrop(binders, i - firstGuard); }
  }
}
