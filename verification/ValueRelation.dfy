/** When source and target values, environments and results mean the same: closures are related
    by code that is a translation and by environments that are related in turn.

    Data is related part by part, literals are equal. Closures are compared by their code and their
    captured environments only, never by running them, so the relation is well founded. The lemmas carry
    it through the evaluator's helpers: pattern matching, field access, record update, lists of bindings
    and the scopes that a group of functions opens.
 */
module ValueRelation {
  import opened Lists
  import opened Hir
  import opened Alpha
  import opened Lowering
  import opened Translation
  import opened HirSemantics

  // ----- Sizes, for recursion over values -----

  function ValueSize(v: Value): nat {
    match v
    case Plain(_) => 1
    case Data(_, parts) => 1 + ValuesSize(parts)
    case Closure(_, base, _, _) => 1 + EnvSize(base)
  }

  function ValuesSize(vs: List<Value>): nat {
    match vs
    case Nil => 0
    case Cons(v, rest) => 1 + ValueSize(v) + ValuesSize(rest)
  }

  function EnvSize(env: Env): nat {
    match env
    case Nil => 0
    case Cons(entry, rest) => 1 + ValueSize(entry.value) + EnvSize(rest)
  }

  lemma {:induction false} LookupSmaller(env: Env, x: Id)
    requires Lookup(env, x).Some?
    ensures ValueSize(Lookup(env, x).value) < EnvSize(env)
  {
    if env.head.id != x { LookupSmaller(env.tail, x); }
  }

  // ----- Related values -----

  ghost predicate ValueRel(v: Value, w: Value)
    decreases ValueSize(v), 1
  {
    match v
    case Plain(_) => w == v
    case Data(tag, parts) => w.Data? && w.tag == tag && ValuesRel(parts, w.parts)
    case Closure(_, _, _, _) => w.Closure? && exists r: Renaming, k: set<Id> :: ClosureRel(v, w, r, k)
  }

  ghost predicate ValuesRel(vs: List<Value>, ws: List<Value>)
    decreases ValuesSize(vs), 0
  {
    match vs
    case Nil => ws.Nil?
    case Cons(v, rest) => ws.Cons? && ValueRel(v, ws.head) && ValuesRel(rest, ws.tail)
  }

  ghost predicate Ranges(r: Renaming, k: set<Id>) {
    forall x <- r.Keys :: r[x] in k
  }

  /** `r` and `k` describe the scope around the closures' groups. */
  ghost predicate ClosureRel(v: Value, w: Value, r: Renaming, k: set<Id>)
    requires v.Closure? && w.Closure?
    decreases ValueSize(v), 0
  {
    var r', k' := BindGroup(v.group, w.group, r), k + BoundIds(w.group);
    && Ranges(r, k) && TrGroup(v.group, w.group, r, k) && EnvRel(v.base, w.base, r', k')
    && Tr(Lambda(v.parameter, v.body), Lambda(w.parameter, w.body), r', k')
  }

  ghost predicate SameLookup(env: Env, env': Env, x: Id, y: Id)
    decreases EnvSize(env), 0
  {
    match Lookup(env, x)
    case None => Lookup(env', y).None?
    case Some(v) => LookupSmaller(env, x); Lookup(env', y).Some? && ValueRel(v, Lookup(env', y).value)
  }

  /** The source scope is exactly `r`; the target environment may hold more, all of it in `k`. */
  ghost predicate EnvRel(env: Env, env': Env, r: Renaming, k: set<Id>)
    decreases EnvSize(env), 1
  {
    && (forall x :: Lookup(env, x).Some? ==> x in r)
    && (forall y :: Lookup(env', y).Some? ==> y in k)
    && (forall x <- r.Keys :: r[x] in k && SameLookup(env, env', x, r[x]))
  }

  /** Lookups of the ids in `k` are the same. */
  ghost predicate Agree(env: Env, env': Env, k: set<Id>) {
    forall y <- k :: Lookup(env, y) == Lookup(env', y)
  }

  // ----- Extending environments -----

  lemma {:induction false} ExtendRel(env: Env, env': Env, r: Renaming, k: set<Id>, x: Id, y: Id, v: Value, w: Value)
    requires EnvRel(env, env', r, k) && y !in k && ValueRel(v, w)
    ensures EnvRel(Cons(Entry(x, v), env), Cons(Entry(y, w), env'), r[x := y], k + {y})
    ensures Agree(env', Cons(Entry(y, w), env'), k)
  {
    var e, e', r' := Cons(Entry(x, v), env), Cons(Entry(y, w), env'), r[x := y];
    forall z | z in r' ensures r'[z] in k + {y} && SameLookup(e, e', z, r'[z]) {
      if z != x { assert SameLookup(env, env', z, r[z]); }
    }
  }

  /** Binds an id that is already part of the scope. */
  lemma {:induction false} FillRel(env: Env, env': Env, r: Renaming, k: set<Id>, x: Id, y: Id, v: Value, w: Value)
    requires EnvRel(env, env', r, k) && x in r && r[x] == y && ValueRel(v, w)
    requires forall z <- r.Keys :: r[z] == y ==> z == x
    ensures EnvRel(Cons(Entry(x, v), env), Cons(Entry(y, w), env'), r, k)
  {
    var e, e' := Cons(Entry(x, v), env), Cons(Entry(y, w), env');
    assert r[x] in k;
    forall z | z in r ensures r[z] in k && SameLookup(e, e', z, r[z]) {
      if z != x { assert SameLookup(env, env', z, r[z]); }
    }
  }

  /** The target environment may grow by ids that are new. */
  lemma {:induction false} OuterRel(env: Env, env1: Env, env2: Env, r: Renaming, k: set<Id>, k': set<Id>)
    requires EnvRel(env, env1, r, k) && Agree(env1, env2, k) && k <= k'
    requires forall y :: Lookup(env2, y).Some? ==> y in k'
    ensures EnvRel(env, env2, r, k')
  {
    forall x | x in r ensures r[x] in k' && SameLookup(env, env2, x, r[x]) { assert SameLookup(env, env1, x, r[x]); }
  }

  // ----- Patterns -----

  lemma {:induction false} FieldAtRel(labels: seq<string>, vs: List<Value>, ws: List<Value>, name: string)
    requires ValuesRel(vs, ws)
    ensures FieldAt(labels, vs, name).Some? == FieldAt(labels, ws, name).Some?
    ensures FieldAt(labels, vs, name).Some?
            ==> ValueRel(FieldAt(labels, vs, name).value, FieldAt(labels, ws, name).value)
    decreases |labels|
  {
    if labels != [] && vs.Cons? && labels[0] != name { FieldAtRel(labels[1..], vs.tail, ws.tail, name); }
  }

  lemma {:induction false} FieldsAtRel(labels: seq<string>, vs: List<Value>, ws: List<Value>, names: seq<string>)
    requires ValuesRel(vs, ws)
    ensures FieldsAt(labels, vs, names).Some? == FieldsAt(labels, ws, names).Some?
    ensures FieldsAt(labels, vs, names).Some?
            ==> ValuesRel(FieldsAt(labels, vs, names).value, FieldsAt(labels, ws, names).value)
    decreases |names|
  {
    if names != [] {
      FieldAtRel(labels, vs, ws, names[0]);
      FieldsAtRel(labels, vs, ws, names[1..]);
    }
  }

  lemma {:induction false} FieldsRel(shape: Shape, v: Value, w: Value)
    requires ValueRel(v, w)
    ensures Fields(shape, v).Some? == Fields(shape, w).Some?
    ensures Fields(shape, v).Some? ==> ValuesRel(Fields(shape, v).value, Fields(shape, w).value)
  {
    match shape
    case RecordShape(names, _) =>
      if v.Data? && v.tag.RecordTag? { FieldsAtRel(v.tag.labels, v.parts, w.parts, names); }
    case TypedShape(_) =>
      assert ValuesRel(Nil, Nil);
      assert ValuesRel(Cons(v, Nil), Cons(w, Nil));
    case LiteralShape(_) => assert ValuesRel(Nil, Nil);
    case _ =>
  }

  ghost predicate MatchRel(m: Option<Env>, m': Option<Env>, env': Env, r: Renaming, k: set<Id>, k': set<Id>) {
    if m.None? then m'.None? else m'.Some? && EnvRel(m.value, m'.value, r, k') && Agree(env', m'.value, k)
  }

  lemma {:induction false} MatchedRel(p: Pattern, d: Pattern, v: Value, w: Value, env: Env, env': Env, r: Renaming,
                                      k: set<Id>)
    requires TrPattern(p, d, k) && ValueRel(v, w) && EnvRel(env, env', r, k)
    ensures MatchRel(Matched(p, v, env), Matched(d, w, env'), env', BindPattern(p, d, r), k, k + PatternIds(d))
    decreases p
  {
    match p
    case Wildcard => assert k + PatternIds(d) == k;
    case Bind(x) => ExtendRel(env, env', r, k, x, d.id, v, w);
    case Named(x, q) =>
      ExtendRel(env, env', r, k, x, d.id, v, w);
      var e, e' := Cons(Entry(x, v), env), Cons(Entry(d.id, w), env');
      MatchedRel(q, d.inner, v, w, e, e', r[x := d.id], k + {d.id});
      assert k + {d.id} + PatternIds(d.inner) == k + PatternIds(d);
    case Shaped(shape, parts) =>
      FieldsRel(shape, v, w);
      if Fields(shape, v).Some? {
        MatchedAllRel(parts, d.parts, Fields(shape, v).value, Fields(shape, w).value, env, env', r, k);
      }
  }

  lemma {:induction false} MatchedAllRel(ps: List<Pattern>, ds: List<Pattern>, vs: List<Value>, ws: List<Value>,
                                         env: Env, env': Env, r: Renaming, k: set<Id>)
    requires TrPatterns(ps, ds, k) && ValuesRel(vs, ws) && EnvRel(env, env', r, k)
    ensures MatchRel(MatchedAll(ps, vs, env), MatchedAll(ds, ws, env'), env', BindPatterns(ps, ds, r), k,
                     k + PatternIdsAll(ds))
    decreases ps
  {
    match ps
    case Nil => assert k + PatternIdsAll(ds) == k;
    case Cons(p, rest) =>
      if vs.Cons? {
        MatchedRel(p, ds.head, vs.head, ws.head, env, env', r, k);
        var m, m' := Matched(p, vs.head, env), Matched(ds.head, ws.head, env');
        if m.Some? {
          var k' := k + PatternIds(ds.head);
          MatchedAllRel(rest, ds.tail, vs.tail, ws.tail, m.value, m'.value, BindPattern(p, ds.head, r), k');
          assert k' + PatternIdsAll(ds.tail) == k + PatternIdsAll(ds);
        }
      }
  }

  // ----- Compound expressions -----

  lemma {:induction false} WithFieldRel(labels: seq<string>, vs: List<Value>, ws: List<Value>, name: string, v: Value,
                                        w: Value)
    requires ValuesRel(vs, ws) && ValueRel(v, w)
    ensures ValuesRel(WithField(labels, vs, name, v), WithField(labels, ws, name, w))
    decreases |labels|
  {
    if labels != [] && vs.Cons? && labels[0] != name { WithFieldRel(labels[1..], vs.tail, ws.tail, name, v, w); }
  }

  lemma {:induction false} WithFieldsRel(labels: seq<string>, vs: List<Value>, ws: List<Value>, names: seq<string>,
                                         us: List<Value>, us': List<Value>)
    requires ValuesRel(vs, ws) && ValuesRel(us, us')
    ensures ValuesRel(WithFields(labels, vs, names, us), WithFields(labels, ws, names, us'))
    decreases |names|
  {
    if names != [] && us.Cons? {
      WithFieldRel(labels, vs, ws, names[0], us.head, us'.head);
      WithFieldsRel(labels, WithField(labels, vs, names[0], us.head), WithField(labels, ws, names[0], us'.head),
                    names[1..], us.tail, us'.tail);
    }
  }

  lemma {:induction false} CombineRel(form: Form, vs: List<Value>, ws: List<Value>)
    requires ValuesRel(vs, ws)
    ensures Combine(form, vs).Some? == Combine(form, ws).Some?
    ensures Combine(form, vs).Some? ==> ValueRel(Combine(form, vs).value, Combine(form, ws).value)
  {
    if vs.Cons? && vs.head.Data? && vs.head.tag.RecordTag? {
      match form
      case UpdateForm(names) => WithFieldsRel(vs.head.tag.labels, vs.head.parts, ws.head.parts, names, vs.tail,
                                              ws.tail);
      case FieldForm(name) => FieldAtRel(vs.head.tag.labels, vs.head.parts, ws.head.parts, name);
      case _ =>
    }
  }

  lemma {:induction false} AppendRel(vs: List<Value>, ws: List<Value>, v: Value, w: Value)
    requires ValuesRel(vs, ws) && ValueRel(v, w)
    ensures ValuesRel(Append(vs, Cons(v, Nil)), Append(ws, Cons(w, Nil)))
  {
    match vs
    case Nil =>
      assert ValuesRel(Nil, Nil);
      assert ValuesRel(Cons(v, Nil), Cons(w, Nil));
    case Cons(_, rest) => AppendRel(rest, ws.tail, v, w);
  }

  // ----- Functions of a group -----

  /** Translation keeps which bindings are functions. */
  lemma {:induction false} AsLambdaTr(e: Expr, d: Expr, r: Renaming, k: set<Id>)
    requires Tr(e, d, r, k)
    ensures AsLambda(e).Some? == AsLambda(d).Some?
    ensures AsLambda(e).Some? ==>
              var f, g := AsLambda(e).value, AsLambda(d).value;
              Tr(Lambda(f.parameter, f.body), Lambda(g.parameter, g.body), r, k)
    decreases e
  {
    match e
    case Compound(form, parts) =>
      if (form.TypedForm? || form.TypeApplicationForm?) && parts.Cons? {
        assert TrParts(parts.tail, d.parts.tail, r, k);
        AsLambdaTr(parts.head, d.parts.head, r, k);
      }
    case Guarded(cs) => AsLambdaTrClauses(cs, d, r, k);
    case _ =>
  }

  lemma {:induction false} AsLambdaTrClauses(cs: List<Clause>, d: Expr, r: Renaming, k: set<Id>)
    requires TrClauses(cs, d, r, k, NoMatch)
    ensures AsLambda(Guarded(cs)).Some? == AsLambda(d).Some?
    ensures AsLambda(Guarded(cs)).Some? ==>
              var f, g := AsLambda(Guarded(cs)).value, AsLambda(d).value;
              Tr(Lambda(f.parameter, f.body), Lambda(g.parameter, g.body), r, k)
    decreases cs
  {
    if cs.Cons? && cs.head.wheres.Nil? {
      var c := cs.head;
      assert TrClause(c, cs.tail, d, r, k, NoMatch);
      assert TrGuards(c.guards, c.value, cs.tail, d, r, r, k, NoMatch);
      if c.guards.Nil? { AsLambdaTr(c.value, d, r, k); }
    }
  }

  /** Ids of a group correspond one to one. */
  ghost predicate Aligned(bs: List<Binding>, ds: List<Binding>, r: Renaming) {
    match bs
    case Nil => ds.Nil?
    case Cons(b, rest) =>
      && ds.Cons? && b.id in r && r[b.id] == ds.head.id && (forall x <- r.Keys :: r[x] == ds.head.id ==> x == b.id)
      && Aligned(rest, ds.tail, r)
  }

  lemma {:induction false} BindGroupRest(bs: List<Binding>, ds: List<Binding>, r: Renaming, x: Id, y: Id)
    requires x !in BoundIds(bs) && y !in BoundIds(ds)
    ensures x in BindGroup(bs, ds, r) <==> x in r
    ensures x in r ==> BindGroup(bs, ds, r)[x] == r[x]
    ensures forall z <- BindGroup(bs, ds, r).Keys :: BindGroup(bs, ds, r)[z] == y ==> z in r && r[z] == y
    decreases bs
  {
    match bs
    case Nil =>
    case Cons(b, rest) =>
      if ds.Cons? { BindGroupRest(rest, ds.tail, r[b.id := ds.head.id], x, y); }
  }

  lemma {:induction false} BindGroupKeys(bs: List<Binding>, ds: List<Binding>, r: Renaming, k: set<Id>)
    requires Length(bs) == Length(ds)
    ensures BindGroup(bs, ds, r).Keys == r.Keys + BoundIds(bs)
    ensures Ranges(r, k) ==> Ranges(BindGroup(bs, ds, r), k + BoundIds(ds))
    decreases bs
  {
    match bs
    case Nil =>
    case Cons(b, rest) =>
      BindGroupKeys(rest, ds.tail, r[b.id := ds.head.id], k + {ds.head.id});
      assert k + {ds.head.id} + BoundIds(ds.tail) == k + BoundIds(ds);
  }

  lemma {:induction false} FreshLength(bs: List<Binding>, ds: List<Binding>, r: Renaming, k: set<Id>)
    ensures FreshGroup(bs, ds, r, k) ==> Length(bs) == Length(ds)
  {
    match bs
    case Nil =>
    case Cons(_, rest) => if ds.Cons? { FreshLength(rest, ds.tail, r, k); }
  }

  lemma {:induction false} GroupAligned(bs: List<Binding>, ds: List<Binding>, r: Renaming, k: set<Id>)
    requires FreshGroup(bs, ds, r, k) && Ranges(r, k)
    ensures Aligned(bs, ds, BindGroup(bs, ds, r))
    decreases bs
  {
    match bs
    case Nil =>
    case Cons(b, rest) =>
      var r' := r[b.id := ds.head.id];
      BindGroupRest(rest, ds.tail, r', b.id, ds.head.id);
      FreshAfter(rest, ds.tail, r, k, b.id, ds.head.id);
      GroupAligned(rest, ds.tail, r', k + {ds.head.id});
  }

  lemma {:induction false} FreshAfter(bs: List<Binding>, ds: List<Binding>, r: Renaming, k: set<Id>, x: Id, y: Id)
    requires FreshGroup(bs, ds, r, k) && x !in BoundIds(bs) && y !in BoundIds(ds)
    ensures FreshGroup(bs, ds, r[x := y], k + {y})
  {
    match bs
    case Nil =>
    case Cons(_, rest) => FreshAfter(rest, ds.tail, r, k, x, y);
  }

  /** Before any value is bound, a group only adds unbound ids. */
  lemma {:induction false} OpenGroupRel(bs: List<Binding>, ds: List<Binding>, env: Env, env': Env, r: Renaming,
                                        k: set<Id>)
    requires FreshGroup(bs, ds, r, k) && EnvRel(env, env', r, k)
    ensures EnvRel(env, env', BindGroup(bs, ds, r), k + BoundIds(ds))
    decreases bs
  {
    match bs
    case Nil => assert k + BoundIds(ds) == k;
    case Cons(b, rest) =>
      var r' := r[b.id := ds.head.id];
      forall x | x in r' ensures r'[x] in k + {ds.head.id} && SameLookup(env, env', x, r'[x]) {
        if x in r { assert SameLookup(env, env', x, r[x]); }
      }
      FreshAfter(rest, ds.tail, r, k, b.id, ds.head.id);
      OpenGroupRel(rest, ds.tail, env, env', r', k + {ds.head.id});
      assert k + {ds.head.id} + BoundIds(ds.tail) == k + BoundIds(ds);
  }

  ghost predicate Grouped(group: List<Binding>, group': List<Binding>, base: Env, base': Env, r: Renaming, k: set<Id>) {
    && Ranges(r, k) && TrGroup(group, group', r, k)
    && EnvRel(base, base', BindGroup(group, group', r), k + BoundIds(group'))
  }

  lemma {:induction false} FunctionsRel(bs: List<Binding>, ds: List<Binding>, group: List<Binding>,
                                        group': List<Binding>, base: Env, base': Env, r: Renaming, k: set<Id>)
    requires Grouped(group, group', base, base', r, k)
    requires Aligned(bs, ds, BindGroup(group, group', r))
    requires TrBindings(bs, ds, BindGroup(group, group', r), k + BoundIds(group'))
    ensures EnvRel(Functions(bs, group, base), Functions(ds, group', base'), BindGroup(group, group', r),
                   k + BoundIds(group'))
    decreases bs
  {
    if bs.Cons? {
      var r', k' := BindGroup(group, group', r), k + BoundIds(group');
      var b, d := bs.head, ds.head;
      FunctionsRel(bs.tail, ds.tail, group, group', base, base', r, k);
      AsLambdaTr(b.value, d.value, r', k');
      if AsLambda(b.value).Some? {
        var f, g := AsLambda(b.value).value, AsLambda(d.value).value;
        var v, w := Closure(group, base, f.parameter, f.body), Closure(group', base', g.parameter, g.body);
        assert ClosureRel(v, w, r, k);
        FillRel(Functions(bs.tail, group, base), Functions(ds.tail, group', base'), r', k', b.id, d.id, v, w);
      }
    }
  }

  lemma {:induction false} ScopeRel(group: List<Binding>, group': List<Binding>, base: Env, base': Env, r: Renaming,
                                    k: set<Id>)
    requires Grouped(group, group', base, base', r, k)
    ensures EnvRel(Scope(group, base), Scope(group', base'), BindGroup(group, group', r), k + BoundIds(group'))
  {
    GroupAligned(group, group', r, k);
    FunctionsRel(group, group', group, group', base, base', r, k);
  }

  /** The functions of a group only bind ids of the group. */
  lemma {:induction false} FunctionsAgree(ds: List<Binding>, group: List<Binding>, base: Env, k: set<Id>)
    requires BoundIds(ds) !! k
    ensures Agree(base, Functions(ds, group, base), k)
  {
    match ds
    case Nil =>
    case Cons(_, rest) => FunctionsAgree(rest, group, base, k);
  }

  // ----- Results -----

  ghost predicate OutcomeRel(o: Outcome, o': Outcome) {
    match o
    case Finished(v) => o'.Finished? && ValueRel(v, o'.value)
    case Fell => false
    case _ => o' == o
  }

  ghost predicate ResultRel(r: Result, r': Result) {
    r'.trace == r.trace && OutcomeRel(r.outcome, r'.outcome)
  }

  ghost predicate GotValuesRel(g: Got<List<Value>>, g': Got<List<Value>>) {
    match g
    case Lost(r) => g'.Lost? && ResultRel(r, g'.result) && !r.outcome.Finished?
    case Got(vs, t) => g'.Got? && g'.trace == t && ValuesRel(vs, g'.value)
  }

  ghost predicate Programs(p: Program, q: Program) {
    && q.foreign == p.foreign && q.booleans == p.booleans && q.world == p.world
    && q.definitions.Keys == p.definitions.Keys
    && forall s <- p.definitions.Keys :: Tr(p.definitions[s], q.definitions[s], map[], {})
  }
}
