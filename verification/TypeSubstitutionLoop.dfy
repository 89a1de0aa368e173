/** Substitution as the source runs it: one loop over a quantifier's binders that rewrites the
    remaining binders, the body and the scoped substitution in place
    (crates/psrs-hir/src/substitution.rs).
 */
module TypeSubstitutionLoop {
  import opened Lists
  import opened TypeSubstitution

  lemma {:induction false} AppendOne<T>(done: seq<T>, x: T, rest: List<T>)
    ensures Append(FromSeq(done + [x]), rest) == Append(FromSeq(done), Cons(x, rest))
  {
    if done == [] {
      assert [x][1..] == [];
    } else {
      AppendOne(done[1..], x, rest);
      assert (done + [x])[1..] == done[1..] + [x];
    }
  }

  lemma {:induction false} AppendNil<T>(xs: List<T>)
    ensures Append(xs, Nil) == xs
  {
    match xs
    case Nil =>
    case Cons(_, rest) => AppendNil(rest);
  }

  method ChooseFreshName(base: string, excluded: set<string>, nextFresh: nat) returns (name: string, next: nat)
    ensures (name, next) == FreshName(base, excluded, nextFresh)
  {
    next := nextFresh;
    while true
      invariant FreshName(base, excluded, next) == FreshName(base, excluded, nextFresh)
      decreases |Ahead(excluded, base, next)|
    {
      name := Candidate(base, next);
      next := next + 1;
      if name !in excluded {
        return;
      }
      AheadShrinks(excluded, base, next - 1);
    }
  }

  method SubstituteType(t: Type, s: Substitution, nextFresh: nat) returns (r: Type, next: nat)
    ensures (r, next) == Substitute(t, s, nextFresh)
    decreases Size(t), 1
  {
    match t {
      case Variable(x) =>
        r, next := if x in s then s[x] else t, nextFresh;
      case Atom(_) =>
        r, next := t, nextFresh;
      case Composite(tag, parts) =>
        var parts';
        parts', next := SubstituteEach(parts, s, nextFresh);
        r := Composite(tag, parts');
      case Forall(ps, body) =>
        r, next := SubstituteForall(ps, body, s, nextFresh);
    }
  }

  method SubstituteEach(parts: List<Type>, s: Substitution, nextFresh: nat) returns (r: List<Type>, next: nat)
    ensures (r, next) == SubstituteParts(parts, s, nextFresh)
    decreases SizeParts(parts), 2
  {
    var done: seq<Type>, rest := [], parts;
    next := nextFresh;
    while rest.Cons?
      invariant SizeParts(rest) <= SizeParts(parts)
      invariant var (rest', n') := SubstituteParts(rest, s, next);
                SubstituteParts(parts, s, nextFresh) == (Append(FromSeq(done), rest'), n')
      decreases rest
    {
      var t;
      t, next := SubstituteType(rest.head, s, next);
      AppendOne(done, t, SubstituteParts(rest.tail, s, next).0);
      done, rest := done + [t], rest.tail;
    }
    AppendNil(FromSeq(done));
    r := FromSeq(done);
  }

  method SubstituteForall(variables: List<Parameter>, originalBody: Type, substitutions: Substitution, nextFresh: nat)
    returns (r: Type, next: nat)
    ensures (r, next) == Substitute(Forall(variables, originalBody), substitutions, nextFresh)
    decreases Size(Forall(variables, originalBody)), 0
  {
    var free, keys := ReplacementFree(substitutions), substitutions.Keys;
    var done: seq<Parameter>, rest, body := [], variables, originalBody;
    var scoped, seen: set<string> := substitutions, {};
    next := nextFresh;
    while rest.Cons?
      invariant SizeParameters(rest) <= SizeParameters(variables) && Size(body) == Size(originalBody)
      invariant var (rest', body', n') := SubstituteTelescope(rest, body, scoped, free, keys, seen, next);
                SubstituteTelescope(variables, originalBody, substitutions, free, keys, {}, nextFresh)
                == (Append(FromSeq(done), rest'), body', n')
      decreases SizeParameters(rest)
    {
      var p, later := rest.head, rest.tail;
      ghost var o := OpenBinder(p, later, body, free, keys, seen, next);
      var name := p.name;
      if p.name in free {
        var excluded := free + keys + Names(body) + seen + {p.name} + BinderNames(later);
        name, next := ChooseFreshName(p.name, excluded, next);
        body := Rename(body, p.name, name);
        later := RenameKinds(later, p.name, name);
      }
      assert o == Opened(name, later, body, next);
      ghost var o' := SubstituteKind(p.kind, scoped, next);
      var kind := p.kind;
      if p.kind.Some? {
        assert SizeKind(p.kind) == 1 + Size(p.kind.value);
        var k;
        k, next := SubstituteType(p.kind.value, scoped, next);
        kind := Some(k);
      }
      assert (kind, next) == o';
      var p' := Parameter(name, kind, p.visible);
      AppendOne(done, p', SubstituteTelescope(later, body, scoped - {p.name}, free, keys, seen + {name}, next).0);
      scoped, seen := scoped - {p.name}, seen + {name};
      done, rest := done + [p'], later;
    }
    AppendNil(FromSeq(done));
    body, next := SubstituteType(body, scoped, next);
    r := Forall(FromSeq(done), body);
  }
}
