/** Kind templates: joint closing and fresh instantiation (crates/psrs-kind/src/closed.rs).
 */
module KindClosed {
  import opened Kinds
  import opened KindSolver

  // ----- The renaming traversals as functions -----

  datatype Closing = Closing(kind: Kind, parameters: map<nat, nat>, next: nat)

  /** Renames while resolving: bound variables by scope, unsolved ones by a shared parameter map. */
  function Close(s: Subst, k: Kind, parameters: map<nat, nat>, bound: map<nat, nat>, next: nat): Closing
    requires Acyclic(s)
    decreases Depth(s, k, bound.Keys), k
  {
    match k
    case Constant(_) => Closing(k, parameters, next)
    case Variable(x) =>
      if x in bound then Closing(Variable(bound[x]), parameters, next)
      else if x in parameters then Closing(Variable(parameters[x]), parameters, next)
      else
        var head := ResolveHead(s, k, bound.Keys);
        HeadSmaller(s, k, bound.Keys);
        if head != k then Close(s, head, parameters, bound, next)
        else Closing(Variable(next), parameters[x := next], next + 1)
    case ForAll(x, e) =>
      DepthMonotone(s, k, bound.Keys, e, bound[x := next].Keys);
      var body := Close(s, e, parameters, bound[x := next], next + 1);
      body.(kind := ForAll(next, body.kind))
    case Node(c, a, b) =>
      DepthMonotone(s, k, bound.Keys, a, bound.Keys); DepthMonotone(s, k, bound.Keys, b, bound.Keys);
      var left := Close(s, a, parameters, bound, next);
      var right := Close(s, b, left.parameters, bound, left.next);
      right.(kind := Node(c, left.kind, right.kind))
  }

  datatype ClosingAll = ClosingAll(kinds: seq<Kind>, parameters: map<nat, nat>, next: nat)

  function CloseAll(s: Subst, ks: seq<Kind>, parameters: map<nat, nat>, next: nat): (r: ClosingAll)
    requires Acyclic(s)
    ensures |r.kinds| == |ks|
  {
    if ks == [] then ClosingAll([], parameters, next)
    else
      var first := Close(s, ks[0], parameters, map[], next);
      var rest := CloseAll(s, ks[1..], first.parameters, first.next);
      rest.(kinds := [first.kind] + rest.kinds)
  }

  datatype Opening = Opening(kind: Kind, next: nat, rigid: set<nat>)

  /** Renames a template; quantifiers get fresh rigid binders. Every free variable must be a
      template parameter: that is the assertion inside the traversal. */
  function Open(k: Kind, parameters: map<nat, nat>, bound: map<nat, nat>, next: nat, rigid: set<nat>): Opening
    requires FV(k) <= bound.Keys + parameters.Keys
  {
    match k
    case Constant(_) => Opening(k, next, rigid)
    case Variable(x) => Opening(Variable(if x in bound then bound[x] else parameters[x]), next, rigid)
    case ForAll(x, e) =>
      FreeUnder(k, parameters, bound, next);
      var body := Open(e, parameters, bound[x := next], next + 1, rigid + {next});
      body.(kind := ForAll(next, body.kind))
    case Node(c, a, b) =>
      var left := Open(a, parameters, bound, next, rigid);
      var right := Open(b, parameters, bound, left.next, left.rigid);
      right.(kind := Node(c, left.kind, right.kind))
  }

  lemma {:induction false} FreeUnder(k: Kind, parameters: map<nat, nat>, bound: map<nat, nat>, y: nat)
    requires k.ForAll? && FV(k) <= bound.Keys + parameters.Keys
    ensures FV(k.body) <= bound[k.binder := y].Keys + parameters.Keys
  {
    assert FV(k.body) <= FV(k) + {k.binder};
  }

  // ----- Alpha-equivalence under a renaming of free variables -----

  /** `k'` is `k` with free variables renamed by `free` and bound ones by scope. */
  predicate Renames(k: Kind, k': Kind, free: map<nat, nat>, bound: map<nat, nat>) {
    match k
    case Constant(_) => k' == k
    case Variable(x) =>
      if x in bound then k' == Variable(bound[x]) else x in free && k' == Variable(free[x])
    case ForAll(x, e) =>
      && k'.ForAll? && k'.binder !in bound.Values
      && Renames(e, k'.body, free, bound[x := k'.binder])
    case Node(c, a, b) =>
      k'.Node? && k'.shape == c && Renames(a, k'.left, free, bound) && Renames(b, k'.right, free, bound)
  }

  /** The reference form: bound variables are indices, so alpha-equivalence is equality. */
  datatype Nameless =
    | NConstant(atom: Atom)
    | NFree(id: nat)
    | NBound(index: nat)
    | NNode(shape: Shape, left: Nameless, right: Nameless)
    | NForAll(body: Nameless)

  function IndexOf(xs: seq<nat>, x: nat): (i: nat)
    ensures i <= |xs|
    ensures i < |xs| <==> x in xs
    ensures i < |xs| ==> xs[i] == x && x !in xs[..i]
  {
    if xs == [] then 0 else if xs[0] == x then 0 else 1 + IndexOf(xs[1..], x)
  }

  function ToNameless(k: Kind, scope: seq<nat>): Nameless {
    match k
    case Constant(a) => NConstant(a)
    case Variable(x) => if x in scope then NBound(IndexOf(scope, x)) else NFree(x)
    case ForAll(x, e) => NForAll(ToNameless(e, [x] + scope))
    case Node(c, a, b) => NNode(c, ToNameless(a, scope), ToNameless(b, scope))
  }

  function RenameFree(n: Nameless, free: map<nat, nat>): Nameless {
    match n
    case NFree(x) => if x in free then NFree(free[x]) else n
    case NNode(c, a, b) => NNode(c, RenameFree(a, free), RenameFree(b, free))
    case NForAll(e) => NForAll(RenameFree(e, free))
    case _ => n
  }

  /** `Renames` is alpha-equivalence: the nameless forms differ by the free renaming alone. */
  lemma {:induction false} RenamesIsAlpha(k: Kind, k': Kind, free: map<nat, nat>, bound: map<nat, nat>, scope: seq<nat>,
                                          scope': seq<nat>)
    requires Renames(k, k', free, bound)
    requires |scope| == |scope'| && (forall x :: x in bound <==> x in scope)
    requires forall x <- bound :: bound[x] in scope' && IndexOf(scope', bound[x]) == IndexOf(scope, x)
    requires (forall y <- scope' :: y !in free.Values) && Binders(k') !! free.Values
    requires forall y <- scope' :: y !in Binders(k')
    requires DistinctBinders(k')
    ensures ToNameless(k', scope') == RenameFree(ToNameless(k, scope), free)
    decreases k
  {
    match k
    case Constant(_) =>
    case Variable(x) =>
    case ForAll(x, e) =>
      var y := k'.binder;
      assert y in Binders(k');
      forall z <- bound[x := y]
        ensures bound[x := y][z] in [y] + scope'
        ensures IndexOf([y] + scope', bound[x := y][z]) == IndexOf([x] + scope, z)
      {
        if z != x {
          assert bound[z] in scope' && bound[z] != y;
          assert ([y] + scope')[1..] == scope' && ([x] + scope)[1..] == scope;
        }
      }
      RenamesIsAlpha(e, k'.body, free, bound[x := y], [x] + scope, [y] + scope');
    case Node(_, a, b) =>
      RenamesIsAlpha(a, k'.left, free, bound, scope, scope');
      RenamesIsAlpha(b, k'.right, free, bound, scope, scope');
  }

  /** No quantifier rebinds a variable that an enclosing one binds. */
  predicate DistinctBinders(k: Kind) {
    match k
    case Node(_, a, b) => DistinctBinders(a) && DistinctBinders(b)
    case ForAll(x, e) => x !in Binders(e) && DistinctBinders(e)
    case _ => true
  }

  lemma {:induction false} RenamesMore(k: Kind, k': Kind, free: map<nat, nat>, free': map<nat, nat>,
                                       bound: map<nat, nat>)
    requires Renames(k, k', free, bound)
    requires free.Keys <= free'.Keys && forall x <- free :: free'[x] == free[x]
    ensures Renames(k, k', free', bound)
  {
    match k
    case ForAll(x, e) => RenamesMore(e, k'.body, free, free', bound[x := k'.binder]);
    case Node(_, a, b) =>
      RenamesMore(a, k'.left, free, free', bound);
      RenamesMore(b, k'.right, free, free', bound);
    case _ =>
  }

  function Compose(outer: map<nat, nat>, inner: map<nat, nat>): map<nat, nat>
    requires inner.Values <= outer.Keys
  {
    map x | x in inner :: outer[inner[x]]
  }

  lemma {:induction false} RenamesCompose(k: Kind, t: Kind, u: Kind, f: map<nat, nat>, g: map<nat, nat>,
                                          b: map<nat, nat>, c: map<nat, nat>)
    requires Renames(k, t, f, b) && Renames(t, u, g, c)
    requires f.Values <= g.Keys && b.Values <= c.Keys
    requires f.Values !! c.Keys && f.Values !! Binders(t)
    ensures Renames(k, u, Compose(g, f), Compose(c, b))
    decreases k
  {
    match k
    case Constant(_) =>
    case Variable(x) =>
      if x in b { assert b[x] in b.Values; } else { assert f[x] in f.Values; }
    case ForAll(x, e) =>
      var b', c' := b[x := t.binder], c[t.binder := u.binder];
      assert t.binder in Binders(t);
      RenamesCompose(e, t.body, u.body, f, g, b', c');
      assert forall y :: y in b && y != x ==> b[y] in b.Values;
      assert Compose(c', b') == Compose(c, b)[x := u.binder];
    case Node(_, a, d) =>
      RenamesCompose(a, t.left, u.left, f, g, b, c);
      RenamesCompose(d, t.right, u.right, f, g, b, c);
  }

  // ----- Closing -----

  ghost predicate Injective(m: map<nat, nat>) {
    forall x, y :: x in m && y in m && m[x] == m[y] ==> x == y
  }

  ghost predicate Below(xs: set<nat>, n: nat) {
    forall x <- xs :: x < n
  }

  ghost predicate Within(xs: set<nat>, lo: nat, hi: nat) {
    forall x <- xs :: lo <= x < hi
  }

  /** Template ids are handed out once, to unsolved variables only. */
  ghost predicate TemplateState(s: Subst, parameters: map<nat, nat>, bound: map<nat, nat>, next: nat) {
    && Injective(parameters) && parameters.Keys !! s.Keys
    && Below(parameters.Values, next) && Below(bound.Values, next)
    && parameters.Values !! bound.Values
  }

  ghost predicate Grows(parameters: map<nat, nat>, parameters': map<nat, nat>, next: nat, next': nat) {
    && next <= next'
    && parameters.Keys <= parameters'.Keys
    && (forall x <- parameters :: parameters'[x] == parameters[x])
    && (forall x <- parameters' :: x !in parameters ==> next <= parameters'[x] < next')
  }

  lemma {:induction false} GrowsValues(parameters: map<nat, nat>, parameters': map<nat, nat>, next: nat, next': nat,
                                       ids: set<nat>)
    requires Grows(parameters, parameters', next, next') && parameters.Values !! ids && Below(ids, next)
    ensures parameters'.Values !! ids
  {
    forall y <- parameters'.Values
      ensures y !in ids
    {
      var x :| x in parameters' && parameters'[x] == y;
      if x in parameters { assert parameters[x] in parameters.Values; }
    }
  }

  /** Everything one closing step keeps; `r` is the resolved kind. */
  ghost predicate Closes(s: Subst, r: Kind, parameters: map<nat, nat>, bound: map<nat, nat>, next: nat, c: Closing) {
    && Grows(parameters, c.parameters, next, c.next)
    && TemplateState(s, c.parameters, bound, c.next)
    && c.parameters.Keys == parameters.Keys + (FV(r) - bound.Keys)
    && Renames(r, c.kind, c.parameters, bound)
    && Within(Binders(c.kind), next, c.next) && Binders(c.kind) !! c.parameters.Values
    && DistinctBinders(c.kind)
  }

  lemma {:induction false} CloseRenames(s: Subst, k: Kind, parameters: map<nat, nat>, bound: map<nat, nat>, next: nat)
    requires Acyclic(s) && TemplateState(s, parameters, bound, next)
    ensures Closes(s, Resolve(s, k, bound.Keys), parameters, bound, next, Close(s, k, parameters, bound, next))
    decreases Depth(s, k, bound.Keys), k, 1
  {
    match k
    case Constant(_) =>
    case Variable(x) => CloseVariable(s, x, parameters, bound, next);
    case ForAll(x, e) =>
      var bound' := bound[x := next];
      DepthMonotone(s, k, bound.Keys, e, bound'.Keys);
      assert bound'.Keys == bound.Keys + {x};
      assert bound'.Values <= bound.Values + {next};
      CloseRenames(s, e, parameters, bound', next + 1);
      CloseForAll(s, x, Resolve(s, e, bound'.Keys), parameters, bound, next, Close(s, e, parameters, bound', next + 1));
    case Node(c, a, b) => CloseBoth(s, c, a, b, parameters, bound, next);
  }

  lemma {:induction false} CloseVariable(s: Subst, x: nat, parameters: map<nat, nat>, bound: map<nat, nat>, next: nat)
    requires Acyclic(s) && TemplateState(s, parameters, bound, next)
    ensures Closes(s, Resolve(s, Variable(x), bound.Keys), parameters, bound, next,
                   Close(s, Variable(x), parameters, bound, next))
    decreases Depth(s, Variable(x), bound.Keys), Variable(x), 0
  {
    if x !in bound && x !in parameters {
      var head := ResolveHead(s, Variable(x), bound.Keys);
      HeadSmaller(s, Variable(x), bound.Keys);
      ResolveViaHead(s, Variable(x), bound.Keys);
      if head != Variable(x) {
        CloseRenames(s, head, parameters, bound, next);
      } else {
        FreshParameter(s, parameters, bound, next, x);
      }
    }
  }

  lemma {:induction false} CloseBoth(s: Subst, c: Shape, a: Kind, b: Kind, parameters: map<nat, nat>,
                                     bound: map<nat, nat>, next: nat)
    requires Acyclic(s) && TemplateState(s, parameters, bound, next)
    ensures Closes(s, Resolve(s, Node(c, a, b), bound.Keys), parameters, bound, next,
                   Close(s, Node(c, a, b), parameters, bound, next))
    decreases Depth(s, Node(c, a, b), bound.Keys), Node(c, a, b), 0
  {
    var k := Node(c, a, b);
    DepthMonotone(s, k, bound.Keys, a, bound.Keys); DepthMonotone(s, k, bound.Keys, b, bound.Keys);
    CloseRenames(s, a, parameters, bound, next);
    var left := Close(s, a, parameters, bound, next);
    CloseRenames(s, b, left.parameters, bound, left.next);
    var right := Close(s, b, left.parameters, bound, left.next);
    CloseNode(s, c, Resolve(s, a, bound.Keys), Resolve(s, b, bound.Keys), parameters, bound, next, left, right);
  }

  lemma {:induction false} CloseForAll(s: Subst, x: nat, r: Kind, parameters: map<nat, nat>, bound: map<nat, nat>,
                                       next: nat, c: Closing)
    requires TemplateState(s, parameters, bound, next)
    requires Closes(s, r, parameters, bound[x := next], next + 1, c)
    ensures Closes(s, ForAll(x, r), parameters, bound, next, c.(kind := ForAll(next, c.kind)))
  {
    GrowsValues(parameters, c.parameters, next + 1, c.next, bound.Values + {next});
  }

  lemma {:induction false} CloseNode(s: Subst, shape: Shape, ra: Kind, rb: Kind, parameters: map<nat, nat>,
                                     bound: map<nat, nat>, next: nat, left: Closing, right: Closing)
    requires Closes(s, ra, parameters, bound, next, left)
    requires Closes(s, rb, left.parameters, bound, left.next, right)
    ensures Closes(s, Node(shape, ra, rb), parameters, bound, next, right.(kind := Node(shape, left.kind, right.kind)))
  {
    GrowsTwice(parameters, left.parameters, right.parameters, next, left.next, right.next);
    RenamesMore(ra, left.kind, left.parameters, right.parameters, bound);
    GrowsValues(left.parameters, right.parameters, left.next, right.next, Binders(left.kind));
    WithinJoin(left.kind, right.kind, shape, next, left.next, right.next);
    var c := right.(kind := Node(shape, left.kind, right.kind));
    assert c.parameters.Keys == parameters.Keys + (FV(Node(shape, ra, rb)) - bound.Keys);
    assert Renames(Node(shape, ra, rb), c.kind, c.parameters, bound);
  }

  lemma {:induction false} GrowsTwice(a: map<nat, nat>, b: map<nat, nat>, c: map<nat, nat>, i: nat, j: nat, k: nat)
    requires Grows(a, b, i, j) && Grows(b, c, j, k)
    ensures Grows(a, c, i, k)
  {
  }

  lemma {:induction false} WithinJoin(l: Kind, r: Kind, shape: Shape, i: nat, j: nat, k: nat)
    requires Within(Binders(l), i, j) && Within(Binders(r), j, k) && i <= j <= k && DistinctBinders(l)
             && DistinctBinders(r)
    ensures Within(Binders(Node(shape, l, r)), i, k) && DistinctBinders(Node(shape, l, r))
    ensures Binders(Node(shape, l, r)) == Binders(l) + Binders(r)
  {
  }

  lemma {:induction false} FreshParameter(s: Subst, parameters: map<nat, nat>, bound: map<nat, nat>, next: nat, x: nat)
    requires TemplateState(s, parameters, bound, next) && x !in parameters && x !in s
    ensures TemplateState(s, parameters[x := next], bound, next + 1)
    ensures Grows(parameters, parameters[x := next], next, next + 1)
  {
    var p := parameters[x := next];
    assert p.Values <= parameters.Values + {next};
    forall y, z | y in p && z in p && p[y] == p[z]
      ensures y == z
    {
      assert y in parameters ==> parameters[y] in parameters.Values;
      assert z in parameters ==> parameters[z] in parameters.Values;
    }
  }

  /** The resolved forms of a list, with the variables they share. */
  ghost function FreeOf(s: Subst, ks: seq<Kind>): set<nat>
    requires Acyclic(s)
  {
    if ks == [] then {} else FV(Resolve(s, ks[0], {})) + FreeOf(s, ks[1..])
  }

  /** `t` is the template of the resolved kind `r`. */
  ghost predicate ClosedAs(r: Kind, t: Kind, parameters: map<nat, nat>) {
    Renames(r, t, parameters, map[]) && Binders(t) !! parameters.Values && DistinctBinders(t)
  }

  ghost predicate ClosesAll(s: Subst, ks: seq<Kind>, parameters: map<nat, nat>, next: nat, c: ClosingAll)
    requires Acyclic(s) && |c.kinds| == |ks|
  {
    && Grows(parameters, c.parameters, next, c.next)
    && TemplateState(s, c.parameters, map[], c.next)
    && c.parameters.Keys == parameters.Keys + FreeOf(s, ks)
    && forall i :: 0 <= i < |ks| ==>
         ClosedAs(Resolve(s, ks[i], {}), c.kinds[i], c.parameters) && Within(Binders(c.kinds[i]), next, c.next)
  }

  lemma {:induction false} CloseAllRenames(s: Subst, ks: seq<Kind>, parameters: map<nat, nat>, next: nat)
    requires Acyclic(s) && TemplateState(s, parameters, map[], next)
    ensures ClosesAll(s, ks, parameters, next, CloseAll(s, ks, parameters, next))
  {
    if ks != [] {
      var bound: map<nat, nat> := map[];
      assert bound.Keys == {};
      CloseRenames(s, ks[0], parameters, bound, next);
      var first := Close(s, ks[0], parameters, map[], next);
      CloseAllRenames(s, ks[1..], first.parameters, first.next);
      CloseAllCons(s, ks, parameters, next, first, CloseAll(s, ks[1..], first.parameters, first.next));
    }
  }

  lemma {:induction false} CloseAllCons(s: Subst, ks: seq<Kind>, parameters: map<nat, nat>, next: nat, first: Closing,
                                        rest: ClosingAll)
    requires Acyclic(s) && ks != [] && |rest.kinds| == |ks| - 1
    requires Closes(s, Resolve(s, ks[0], {}), parameters, map[], next, first)
    requires ClosesAll(s, ks[1..], first.parameters, first.next, rest)
    ensures ClosesAll(s, ks, parameters, next, rest.(kinds := [first.kind] + rest.kinds))
  {
    RenamesMore(Resolve(s, ks[0], {}), first.kind, first.parameters, rest.parameters, map[]);
    GrowsValues(first.parameters, rest.parameters, first.next, rest.next, Binders(first.kind));
    var kinds := [first.kind] + rest.kinds;
    forall i | 0 <= i < |ks|
      ensures ClosedAs(Resolve(s, ks[i], {}), kinds[i], rest.parameters) && Within(Binders(kinds[i]), next, rest.next)
    {
      if i > 0 {
        assert ks[i] == ks[1..][i - 1];
      }
    }
  }

  // ----- Instantiating -----

  lemma {:induction false} OpenRenames(k: Kind, parameters: map<nat, nat>, bound: map<nat, nat>, next: nat,
                                       rigid: set<nat>)
    requires FV(k) <= bound.Keys + parameters.Keys && Below(bound.Values, next)
    ensures var o := Open(k, parameters, bound, next, rigid);
            && next <= o.next
            && Renames(k, o.kind, parameters, bound)
            && Within(Binders(o.kind), next, o.next) && DistinctBinders(o.kind)
            && o.rigid == rigid + Binders(o.kind)
            && FV(o.kind) <= parameters.Values + bound.Values
  {
    match k
    case Constant(_) =>
    case Variable(x) =>
    case ForAll(x, e) =>
      FreeUnder(k, parameters, bound, next);
      assert bound[x := next].Values <= bound.Values + {next};
      OpenRenames(e, parameters, bound[x := next], next + 1, rigid + {next});
    case Node(_, a, b) =>
      OpenRenames(a, parameters, bound, next, rigid);
      var left := Open(a, parameters, bound, next, rigid);
      OpenRenames(b, parameters, bound, left.next, left.rigid);
  }

  datatype OpeningAll = OpeningAll(kinds: seq<Kind>, next: nat, rigid: set<nat>)

  function OpenAll(ks: seq<Kind>, parameters: map<nat, nat>, next: nat, rigid: set<nat>): (r: OpeningAll)
    requires forall i :: 0 <= i < |ks| ==> FV(ks[i]) <= parameters.Keys
    ensures |r.kinds| == |ks|
  {
    if ks == [] then OpeningAll([], next, rigid)
    else
      var first := Open(ks[0], parameters, map[], next, rigid);
      var rest := OpenAll(ks[1..], parameters, first.next, first.rigid);
      rest.(kinds := [first.kind] + rest.kinds)
  }

  lemma {:induction false} OpenAllRenames(ks: seq<Kind>, parameters: map<nat, nat>, next: nat, rigid: set<nat>)
    requires forall i :: 0 <= i < |ks| ==> FV(ks[i]) <= parameters.Keys
    ensures var o := OpenAll(ks, parameters, next, rigid);
            && next <= o.next && rigid <= o.rigid && Within(o.rigid - rigid, next, o.next)
            && (forall i :: 0 <= i < |ks| ==>
                  && Renames(ks[i], o.kinds[i], parameters, map[])
                  && Within(Binders(o.kinds[i]), next, o.next) && Binders(o.kinds[i]) <= o.rigid
                  && DistinctBinders(o.kinds[i]) && FV(o.kinds[i]) <= parameters.Values)
  {
    if ks != [] {
      var bound: map<nat, nat> := map[];
      assert bound.Keys == {} && bound.Values == {};
      OpenRenames(ks[0], parameters, bound, next, rigid);
      var first := Open(ks[0], parameters, map[], next, rigid);
      OpenAllRenames(ks[1..], parameters, first.next, first.rigid);
      var rest := OpenAll(ks[1..], parameters, first.next, first.rigid);
      assert rest.rigid - rigid <= (rest.rigid - first.rigid) + Binders(first.kind);
    }
  }

  // ----- Jointly closed kinds -----

  datatype ClosedKinds = ClosedKinds(parameters: seq<nat>, kinds: seq<Kind>)

  function Ascending(ids: set<nat>, n: nat): seq<nat> {
    if n == 0 then [] else Ascending(ids, n - 1) + (if n - 1 in ids then [n - 1] else [])
  }

  lemma {:induction false} AscendingLists(ids: set<nat>, n: nat)
    ensures forall x :: x in Ascending(ids, n) <==> x in ids && x < n
    ensures forall i, j :: 0 <= i < j < |Ascending(ids, n)| ==> Ascending(ids, n)[i] < Ascending(ids, n)[j]
  {
    if n > 0 {
      AscendingLists(ids, n - 1);
      var before := Ascending(ids, n - 1);
      forall i | 0 <= i < |before|
        ensures before[i] < n - 1
      {
        assert before[i] in before;
      }
    }
  }

  function CloseKinds(s: Subst, ks: seq<Kind>): ClosedKinds
    requires Acyclic(s)
  {
    var c := CloseAll(s, ks, map[], 0);
    ClosedKinds(Ascending(c.parameters.Values, c.next), c.kinds)
  }

  /** What closing guarantees and instantiation relies on: no template variable is unbound. */
  ghost predicate Template(closed: ClosedKinds) {
    && (forall i, j :: 0 <= i < j < |closed.parameters| ==> closed.parameters[i] != closed.parameters[j])
    && (forall i, x :: 0 <= i < |closed.kinds| && x in FV(closed.kinds[i]) ==> x in closed.parameters)
  }

  /** The i-th parameter becomes the i-th fresh variable. */
  function FreshParameters(parameters: seq<nat>, next: nat): map<nat, nat> {
    if parameters == [] then map[]
    else
      var n := |parameters| - 1;
      FreshParameters(parameters[..n], next)[parameters[n] := next + n]
  }

  function InstantiateClosedKinds(closed: ClosedKinds, next: nat, rigid: set<nat>): OpeningAll
    requires Template(closed)
  {
    FreshParametersInjective(closed.parameters, next);
    OpenAll(closed.kinds, FreshParameters(closed.parameters, next), next + |closed.parameters|, rigid)
  }

  lemma {:induction false} RenamedFree(k: Kind, k': Kind, free: map<nat, nat>, bound: map<nat, nat>)
    requires Renames(k, k', free, bound)
    ensures FV(k') <= free.Values + bound.Values
    decreases k
  {
    match k
    case ForAll(x, e) =>
      assert bound[x := k'.binder].Values <= bound.Values + {k'.binder};
      RenamedFree(e, k'.body, free, bound[x := k'.binder]);
    case Node(_, a, b) =>
      RenamedFree(a, k'.left, free, bound);
      RenamedFree(b, k'.right, free, bound);
    case _ =>
  }

  lemma {:induction false} CloseKindsTemplate(s: Subst, ks: seq<Kind>)
    requires Acyclic(s)
    ensures var closed := CloseKinds(s, ks);
            Template(closed) && |closed.kinds| == |ks|
  {
    var empty: map<nat, nat> := map[];
    assert empty.Values == {};
    CloseAllRenames(s, ks, map[], 0);
    var c := CloseAll(s, ks, map[], 0);
    AscendingLists(c.parameters.Values, c.next);
    forall i, x | 0 <= i < |ks| && x in FV(c.kinds[i])
      ensures x in Ascending(c.parameters.Values, c.next)
    {
      RenamedFree(Resolve(s, ks[i], {}), c.kinds[i], c.parameters, map[]);
    }
  }

  /** `instance` is an instance of the list `ks`, resolved: one injective renaming of the free
      variables to new ids serves the whole list, and nested binders are new and rigid. */
  ghost predicate FreshInstance(s: Subst, ks: seq<Kind>, instance: OpeningAll, next: nat, rigid: set<nat>,
                                free: map<nat, nat>)
    requires Acyclic(s) && |instance.kinds| == |ks|
  {
    && Injective(free) && free.Keys == FreeOf(s, ks) && Within(free.Values, next, instance.next)
    && rigid <= instance.rigid && Within(instance.rigid - rigid, next, instance.next)
    && (instance.rigid - rigid) !! free.Values
    && forall i :: 0 <= i < |ks| ==> InstanceKind(Resolve(s, ks[i], {}), instance.kinds[i], instance, next, free)
  }

  ghost predicate InstanceKind(r: Kind, u: Kind, instance: OpeningAll, next: nat, free: map<nat, nat>) {
    && ToNameless(u, []) == RenameFree(ToNameless(r, []), free)
    && FV(u) <= free.Values
    && Within(Binders(u), next, instance.next) && Binders(u) <= instance.rigid
  }

  lemma {:induction false} FreshParametersInjective(parameters: seq<nat>, next: nat)
    requires forall i, j :: 0 <= i < j < |parameters| ==> parameters[i] != parameters[j]
    ensures var p := FreshParameters(parameters, next);
            Injective(p) && Within(p.Values, next, next + |parameters|) && forall x :: x in p <==> x in parameters
  {
    if parameters != [] {
      var n := |parameters| - 1;
      FreshParametersInjective(parameters[..n], next);
      assert parameters == parameters[..n] + [parameters[n]];
      var before := FreshParameters(parameters[..n], next);
      assert forall x <- before :: before[x] in before.Values;
    }
  }

  /** Closing a list and instantiating it is a fresh renaming of the resolved list. */
  lemma {:induction false} CloseThenInstantiate(s: Subst, ks: seq<Kind>, next: nat,
                                                rigid: set<nat>) returns (free: map<nat, nat>)
    requires Acyclic(s)
    ensures Template(CloseKinds(s, ks))
    ensures var instance := InstantiateClosedKinds(CloseKinds(s, ks), next, rigid);
            |instance.kinds| == |ks| && FreshInstance(s, ks, instance, next, rigid, free)
  {
    CloseKindsTemplate(s, ks);
    var empty: map<nat, nat> := map[];
    assert empty.Values == {};
    CloseAllRenames(s, ks, map[], 0);
    var c, closed := CloseAll(s, ks, map[], 0), CloseKinds(s, ks);
    AscendingLists(c.parameters.Values, c.next);
    var p, n := FreshParameters(closed.parameters, next), next + |closed.parameters|;
    FreshParametersInjective(closed.parameters, next);
    assert c.parameters.Values <= p.Keys;
    free := Compose(p, c.parameters);
    assert InstantiateClosedKinds(closed, next, rigid) == OpenAll(c.kinds, p, n, rigid);
    InstanceKinds(s, ks, c, p, next, n, rigid);
    InstanceIds(s, ks, c, p, next, n, rigid);
  }

  lemma {:induction false} InstanceIds(s: Subst, ks: seq<Kind>, c: ClosingAll, p: map<nat, nat>, next: nat, n: nat,
                                       rigid: set<nat>)
    requires Acyclic(s) && |c.kinds| == |ks| && c.parameters.Keys == FreeOf(s, ks) && Injective(c.parameters)
    requires c.parameters.Values <= p.Keys && Injective(p) && Within(p.Values, next, n) && next <= n
    requires forall i :: 0 <= i < |ks| ==> FV(c.kinds[i]) <= p.Keys
    requires forall i :: 0 <= i < |ks| ==>
               InstanceKind(Resolve(s, ks[i], {}), OpenAll(c.kinds, p, n, rigid).kinds[i],
                            OpenAll(c.kinds, p, n, rigid),
                            next, Compose(p, c.parameters))
    ensures FreshInstance(s, ks, OpenAll(c.kinds, p, n, rigid), next, rigid, Compose(p, c.parameters))
  {
    OpenAllRenames(c.kinds, p, n, rigid);
    ComposeInjective(p, c.parameters);
  }

  lemma {:induction false} InstanceKinds(s: Subst, ks: seq<Kind>, c: ClosingAll, p: map<nat, nat>, next: nat, n: nat,
                                         rigid: set<nat>)
    requires Acyclic(s) && |c.kinds| == |ks| && ClosesAll(s, ks, map[], 0, c)
    requires c.parameters.Values <= p.Keys && Below(p.Values, n) && next <= n
    requires forall i :: 0 <= i < |ks| ==> FV(c.kinds[i]) <= p.Keys
    ensures var instance := OpenAll(c.kinds, p, n, rigid);
            forall i :: 0 <= i < |ks| ==>
              InstanceKind(Resolve(s, ks[i], {}), instance.kinds[i], instance, next, Compose(p, c.parameters))
  {
    OpenAllRenames(c.kinds, p, n, rigid);
    var instance := OpenAll(c.kinds, p, n, rigid);
    forall i | 0 <= i < |ks|
      ensures InstanceKind(Resolve(s, ks[i], {}), instance.kinds[i], instance, next, Compose(p, c.parameters))
    {
      assert ClosedAs(Resolve(s, ks[i], {}), c.kinds[i], c.parameters);
      InstanceOfTemplate(Resolve(s, ks[i], {}), c.kinds[i], instance.kinds[i], c.parameters, p);
    }
  }

  lemma {:induction false} InstanceOfTemplate(r: Kind, t: Kind, u: Kind, f: map<nat, nat>, g: map<nat, nat>)
    requires ClosedAs(r, t, f) && Renames(t, u, g, map[]) && f.Values <= g.Keys
    requires DistinctBinders(u) && Binders(u) !! g.Values
    ensures ToNameless(u, []) == RenameFree(ToNameless(r, []), Compose(g, f))
    ensures FV(u) <= Compose(g, f).Values
  {
    var empty: map<nat, nat> := map[];
    assert empty.Keys == {} && empty.Values == {};
    RenamesCompose(r, t, u, f, g, empty, empty);
    assert Compose(empty, empty) == empty;
    assert forall x <- f :: f[x] in f.Values;
    RenamesIsAlpha(r, u, Compose(g, f), empty, [], []);
    RenamedFree(r, u, Compose(g, f), empty);
  }

  lemma {:induction false} ComposeInjective(outer: map<nat, nat>, inner: map<nat, nat>)
    requires inner.Values <= outer.Keys && Injective(outer) && Injective(inner)
    ensures Injective(Compose(outer, inner)) && Compose(outer, inner).Values <= outer.Values
  {
    assert forall x <- inner :: inner[x] in inner.Values;
  }

  /** Two instances taken one after the other share no variable. */
  lemma {:induction false} InstancesDisjoint(s: Subst, ks: seq<Kind>, next: nat, rigid: set<nat>)
    requires Acyclic(s) && Template(CloseKinds(s, ks))
    ensures var one := InstantiateClosedKinds(CloseKinds(s, ks), next, rigid);
            var two := InstantiateClosedKinds(CloseKinds(s, ks), one.next, one.rigid);
            |one.kinds| == |two.kinds| == |ks|
            && forall i, j :: 0 <= i < |ks| && 0 <= j < |ks| ==>
                 FV(one.kinds[i]) + Binders(one.kinds[i]) !! FV(two.kinds[j]) + Binders(two.kinds[j])
  {
    var f := CloseThenInstantiate(s, ks, next, rigid);
    var one := InstantiateClosedKinds(CloseKinds(s, ks), next, rigid);
    var g := CloseThenInstantiate(s, ks, one.next, one.rigid);
  }
}
