/** When substitution avoids capture: exactly on the inputs that are `Clean`, it is simultaneous
    replacement on locally nameless types (crates/psrs-hir/src/substitution.rs).
 */
module TypeSubstitutionTheory {
  import opened Lists
  import opened TypeSubstitution
  import opened TypeSubstitutionNameless
  import opened TypeSubstitutionClash

  // ----- Clean inputs -----

  /** Along the traversal, every binder that is renamed is opened cleanly. */
  ghost predicate Clean(t: Type, s: Substitution, n: nat)
    decreases Size(t), 1
  {
    match t
    case Variable(_) => true
    case Atom(_) => true
    case Composite(_, parts) => CleanParts(parts, s, n)
    case Forall(ps, body) => CleanTelescope(ps, body, s, ReplacementFree(s), s.Keys, {}, n)
  }

  ghost predicate CleanParts(ts: List<Type>, s: Substitution, n: nat)
    decreases SizeParts(ts)
  {
    match ts
    case Nil => true
    case Cons(t, rest) => Clean(t, s, n) && CleanParts(rest, s, Substitute(t, s, n).1)
  }

  ghost predicate CleanKind(k: Option<Type>, s: Substitution, n: nat)
    decreases SizeKind(k)
  {
    match k
    case None => true
    case Some(t) => Clean(t, s, n)
  }

  ghost predicate CleanTelescope(ps: List<Parameter>, body: Type, s: Substitution, free: set<string>, keys: set<string>,
                                 seen: set<string>, n: nat)
    decreases SizeParameters(ps) + Size(body), 2
  {
    match ps
    case Nil => Clean(body, s, n)
    case Cons(p, rest) =>
      var o := OpenBinder(p, rest, body, free, keys, seen, n);
      && (p.name in free ==> OpensCleanly(rest, body, p.name, o.name))
      && CleanKind(p.kind, s, o.next)
      && CleanTelescope(o.rest, o.body, s - {p.name}, free, keys, seen + {o.name}, SubstituteKind(p.kind, s, o.next).1)
  }

  // ----- Clean inputs are exactly the ones without capture -----

  /** On the free variables that matter, `to` is the nameless reading of `s`. */
  ghost predicate Agrees(xs: set<string>, scope: List<string>, s: Substitution, to: map<string, Nameless>) {
    forall x <- xs :: !InScope(x, scope) ==>
      (x in s <==> x in to) && (x in s ==> to[x] == ToNameless(s[x], Nil))
  }

  /** Nothing in scope is replaced or mentioned by a replacement. */
  ghost predicate ScopeApart(s: Substitution, scope: List<string>) {
    forall x <- s :: !InScope(x, scope) && forall y <- FV(s[x]) :: !InScope(y, scope)
  }

  ghost predicate Reads(t: Type, s: Substitution, n: nat, scope: List<string>, to: map<string, Nameless>) {
    ToNameless(Substitute(t, s, n).0, scope) == Replace(ToNameless(t, scope), to)
  }

  ghost predicate ReadsTelescope(ps: List<Parameter>, body: Type, s: Substitution, free: set<string>, keys: set<string>,
                                 seen: set<string>, n: nat, scope: List<string>, to: map<string, Nameless>) {
    var (ps', body', _) := SubstituteTelescope(ps, body, s, free, keys, seen, n);
    ToNamelessTelescope(ps', body', scope) == Replace(ToNamelessTelescope(ps, body, scope), to)
  }

  lemma {:induction false} CleanReads(t: Type, s: Substitution, n: nat, scope: List<string>, to: map<string, Nameless>)
    requires Agrees(FV(t), scope, s, to) && ScopeApart(s, scope)
    ensures Reads(t, s, n, scope, to) <==> Clean(t, s, n)
    decreases Size(t), 1
  {
    match t
    case Variable(x) => if x in s { ScopeIrrelevant(s[x], Nil, scope); }
    case Atom(_) =>
    case Composite(_, parts) => CleanReadsParts(parts, s, n, scope, to);
    case Forall(ps, body) => CleanReadsTelescope(ps, body, s, ReplacementFree(s), s.Keys, {}, n, scope, to);
  }

  lemma {:induction false} CleanReadsParts(ts: List<Type>, s: Substitution, n: nat, scope: List<string>,
                                           to: map<string, Nameless>)
    requires Agrees(FVParts(ts), scope, s, to) && ScopeApart(s, scope)
    ensures ToNamelessParts(SubstituteParts(ts, s, n).0, scope) == ReplaceParts(ToNamelessParts(ts, scope), to)
            <==> CleanParts(ts, s, n)
    decreases SizeParts(ts)
  {
    match ts
    case Nil =>
    case Cons(t, rest) =>
      CleanReads(t, s, n, scope, to);
      CleanReadsParts(rest, s, Substitute(t, s, n).1, scope, to);
  }

  ghost predicate ReadsKind(k: Option<Type>, s: Substitution, n: nat, scope: List<string>, to: map<string, Nameless>) {
    ToNamelessKind(SubstituteKind(k, s, n).0, scope) ==
      match ToNamelessKind(k, scope) case None => None case Some(d) => Some(Replace(d, to))
  }

  lemma {:induction false} CleanReadsKind(k: Option<Type>, s: Substitution, n: nat, scope: List<string>,
                                          to: map<string, Nameless>)
    requires Agrees(FVKind(k), scope, s, to) && ScopeApart(s, scope)
    ensures ReadsKind(k, s, n, scope, to) <==> CleanKind(k, s, n)
    decreases SizeKind(k)
  {
    match k
    case None =>
    case Some(t) => CleanReads(t, s, n, scope, to);
  }

  lemma {:induction false} CleanReadsTelescope(ps: List<Parameter>, body: Type, s: Substitution, free: set<string>,
                                               keys: set<string>, seen: set<string>, n: nat, scope: List<string>,
                                               to: map<string, Nameless>)
    requires Agrees(FVTelescope(ps, body), scope, s, to) && ScopeApart(s, scope)
    requires ReplacementFree(s) <= free && s.Keys <= keys
    ensures ReadsTelescope(ps, body, s, free, keys, seen, n, scope, to)
            <==> CleanTelescope(ps, body, s, free, keys, seen, n)
    decreases SizeParameters(ps) + Size(body), 2
  {
    match ps
    case Nil => CleanReads(body, s, n, scope, to);
    case Cons(p, rest) =>
      var o := OpenBinder(p, rest, body, free, keys, seen, n);
      var m := SubstituteKind(p.kind, s, o.next).1;
      CleanReadsKind(p.kind, s, o.next, scope, to);
      BinderApart(s, p.name, o.name, free, keys, scope);
      if p.name in free && !OpensCleanly(rest, body, p.name, o.name) {
        UncleanDiffers(p, rest, body, s, free, keys, seen, n, m, scope, to);
        BinderReads(p, rest, body, s, free, keys, seen, n, scope, to);
      } else {
        OpenKeeps(p, rest, body, free, keys, seen, n, scope);
        AgreesUnder(ps, body, o, s, scope, to);
        CleanReadsTelescope(o.rest, o.body, s - {p.name}, free, keys, seen + {o.name}, m, Cons(o.name, scope), to);
        JoinBinder(p, rest, body, s, free, keys, seen, n, scope, to);
      }
  }

  /** The binder's kind and what is behind it are compared one by one. */
  lemma {:induction false} BinderReads(p: Parameter, rest: List<Parameter>, body: Type, s: Substitution,
                                       free: set<string>, keys: set<string>, seen: set<string>, n: nat,
                                       scope: List<string>, to: map<string, Nameless>)
    ensures var o := OpenBinder(p, rest, body, free, keys, seen, n);
            var m := SubstituteKind(p.kind, s, o.next).1;
            ReadsTelescope(Cons(p, rest), body, s, free, keys, seen, n, scope, to)
            <==> ReadsKind(p.kind, s, o.next, scope, to)
                 && Inside(o, s - {p.name}, free, keys, seen + {o.name}, m, scope)
                    == Replace(ToNamelessTelescope(rest, body, Cons(p.name, scope)), to)
  {
  }

  lemma {:induction false} JoinBinder(p: Parameter, rest: List<Parameter>, body: Type, s: Substitution,
                                      free: set<string>, keys: set<string>, seen: set<string>, n: nat,
                                      scope: List<string>, to: map<string, Nameless>)
    requires var o := OpenBinder(p, rest, body, free, keys, seen, n);
             ToNamelessTelescope(o.rest, o.body, Cons(o.name, scope))
                 == ToNamelessTelescope(rest, body, Cons(p.name, scope))
    ensures var o := OpenBinder(p, rest, body, free, keys, seen, n);
            var m := SubstituteKind(p.kind, s, o.next).1;
            ReadsTelescope(Cons(p, rest), body, s, free, keys, seen, n, scope, to)
            <==> ReadsKind(p.kind, s, o.next, scope, to)
                 && ReadsTelescope(o.rest, o.body, s - {p.name}, free, keys, seen + {o.name}, m, Cons(o.name, scope),
                                   to)
  {
    BinderReads(p, rest, body, s, free, keys, seen, n, scope, to);
  }

  lemma {:induction false} FreshIsGenerated(p: Parameter, rest: List<Parameter>, body: Type, free: set<string>,
                                            keys: set<string>, seen: set<string>, n: nat)
    requires p.name in free
    ensures var o := OpenBinder(p, rest, body, free, keys, seen, n);
            && Generated(rest, body, p.name, o.name) && o.name !in free && o.name !in keys
            && o.rest == RenameKinds(rest, p.name, o.name) && o.body == Rename(body, p.name, o.name)
            && Upcoming(o.name, n) && !Upcoming(o.name, o.next)
  {
    var o := OpenBinder(p, rest, body, free, keys, seen, n);
    NotUpcoming(p.name, o.next);
  }

  /** After an unclean opening the rest of the traversal ends in a different form. */
  lemma {:induction false} UncleanDiffers(p: Parameter, rest: List<Parameter>, body: Type, s: Substitution,
                                          free: set<string>, keys: set<string>, seen: set<string>, n: nat, m: nat,
                                          scope: List<string>, to: map<string, Nameless>)
    requires var o := OpenBinder(p, rest, body, free, keys, seen, n);
             p.name in free && !OpensCleanly(rest, body, p.name, o.name) && o.next <= m
    requires Agrees(FVTelescope(Cons(p, rest), body), scope, s, to) && ReplacementFree(s) <= free && s.Keys <= keys
    ensures var o := OpenBinder(p, rest, body, free, keys, seen, n);
            Inside(o, s - {p.name}, free, keys, seen + {o.name}, m, scope)
            != Replace(ToNamelessTelescope(rest, body, Cons(p.name, scope)), to)
  {
    var o := OpenBinder(p, rest, body, free, keys, seen, n);
    var f := o.name;
    FreshIsGenerated(p, rest, body, free, keys, seen, n);
    FVInside(rest, body);
    if f in FVKinds(rest) { assert f in FVTelescope(Cons(p, rest), body); }
    OpeningClashes(rest, body, Cons(p.name, scope), 0, p.name, f, to);
    UntouchedLater(f, s, p.name, o.next, m);
    ClashStaysInside(o, ToNamelessTelescope(rest, body, Cons(p.name, scope)), f, s - {p.name}, free, keys, seen + {f},
                     m, scope, to);
  }

  /** Opening one binder cleanly: the rest means the same. */
  lemma {:induction false} OpenKeeps(p: Parameter, rest: List<Parameter>, body: Type, free: set<string>,
                                     keys: set<string>, seen: set<string>, n: nat, scope: List<string>)
    requires p.name in free ==> OpensCleanly(rest, body, p.name, OpenBinder(p, rest, body, free, keys, seen, n).name)
    ensures var o := OpenBinder(p, rest, body, free, keys, seen, n);
            && ToNamelessTelescope(o.rest, o.body, Cons(o.name, scope))
            == ToNamelessTelescope(rest, body, Cons(p.name, scope))
            && FVTelescope(o.rest, o.body) - {o.name} == FVTelescope(rest, body) - {p.name}
  {
    var o := OpenBinder(p, rest, body, free, keys, seen, n);
    if p.name in free {
      FreshIsGenerated(p, rest, body, free, keys, seen, n);
      OpeningKeeps(rest, body, Nil, p.name, o.name, scope);
      OpeningKeeps(rest, body, Nil, p.name, o.name, Nil);
      FreeNamesMatchTelescope(o.rest, o.body, Cons(o.name, Nil));
      FreeNamesMatchTelescope(rest, body, Cons(p.name, Nil));
      OutsideOne(FVTelescope(o.rest, o.body), o.name);
      OutsideOne(FVTelescope(rest, body), p.name);
    }
  }

  lemma {:induction false} OutsideOne(xs: set<string>, x: string)
    ensures Outside(xs, Cons(x, Nil)) == xs - {x}
  {
    assert forall y :: InScope(y, Cons(x, Nil)) <==> y == x;
  }

  lemma {:induction false} NotUpcoming(base: string, n: nat)
    requires n > 0
    ensures !Upcoming(Candidate(base, n - 1), n)
  {
    forall b: string, j: nat | j >= n && Candidate(base, n - 1) == Candidate(b, j)
      ensures false
    {
      CandidateInjective(base, n - 1, b, j);
    }
  }

  lemma {:induction false} AgreesUnder(ps: List<Parameter>, body: Type, o: Opened, s: Substitution, scope: List<string>,
                                       to: map<string, Nameless>)
    requires ps.Cons? && Agrees(FVTelescope(ps, body), scope, s, to)
    requires FVTelescope(o.rest, o.body) - {o.name} == FVTelescope(ps.tail, body) - {ps.head.name}
    ensures Agrees(FVTelescope(o.rest, o.body), Cons(o.name, scope), s - {ps.head.name}, to)
  {
    forall x | x in FVTelescope(o.rest, o.body) && !InScope(x, Cons(o.name, scope))
      ensures x != ps.head.name && x in FVTelescope(ps, body) && !InScope(x, scope)
    {
      assert x in FVTelescope(o.rest, o.body) - {o.name};
    }
  }

  lemma {:induction false} BinderApart(s: Substitution, old_: string, new_: string, free: set<string>,
                                       keys: set<string>, scope: List<string>)
    requires ScopeApart(s, scope) && ReplacementFree(s) <= free && s.Keys <= keys
    requires new_ !in free && (new_ == old_ || new_ !in keys)
    ensures var s' := s - {old_}; ScopeApart(s', Cons(new_, scope)) && ReplacementFree(s') <= free && s'.Keys <= keys
  {
    var s' := s - {old_};
    forall x | x in ReplacementFree(s')
      ensures x in free
    {
      assert FreeInValues(x, s');
      var y :| y in s' && x in FV(s'[y]);
      assert FreeInValues(x, s);
    }
    forall x <- s'
      ensures new_ !in FV(s'[x])
    {
      assert forall y <- FV(s'[x]) :: FreeInValues(y, s);
    }
  }

  /** Substitution avoids capture, that is, it is simultaneous replacement of the free variables up to
      the names of bound ones, if and only if the input is clean. */
  lemma {:induction false} SubstitutionAvoidsCapture(t: Type, s: Substitution, n: nat)
    ensures ToNameless(Substitute(t, s, n).0, Nil) == Replace(ToNameless(t, Nil), Closed(s)) <==> Clean(t, s, n)
  {
    CleanReads(t, s, n, Nil, Closed(s));
  }

  /** Alpha-equivalent types have alpha-equivalent instances, whatever the counter. */
  lemma {:induction false} SubstitutionRespectsAlpha(t: Type, u: Type, s: Substitution, m: nat, n: nat)
    requires Clean(t, s, m) && ToNameless(t, Nil) == ToNameless(u, Nil)
    ensures ToNameless(Substitute(t, s, m).0, Nil) == ToNameless(Substitute(u, s, n).0, Nil) <==> Clean(u, s, n)
  {
    SubstitutionAvoidsCapture(t, s, m);
    SubstitutionAvoidsCapture(u, s, n);
  }

  // ----- Tidy types are substituted cleanly -----

  ghost predicate KindNamesSafe(k: Option<Type>, n: nat) {
    forall x <- NamesKind(k) :: !Upcoming(x, n)
  }

  ghost predicate KindsSafe(ps: List<Parameter>, n: nat) {
    match ps
    case Nil => true
    case Cons(p, rest) => KindNamesSafe(p.kind, n) && KindsSafe(rest, n)
  }

  /** Wherever a binder's name is in `world`, so that it may have to be renamed, no later binder
      of the same quantifier repeats it, and no later binder kind mentions a name the counter
      could still generate. */
  ghost predicate Suitable(t: Type, n: nat, world: set<string>)
    decreases Size(t), 1
  {
    match t
    case Variable(_) => true
    case Atom(_) => true
    case Composite(_, parts) => SuitableParts(parts, n, world)
    case Forall(ps, body) => SuitableTelescope(ps, body, n, world)
  }

  ghost predicate SuitableParts(ts: List<Type>, n: nat, world: set<string>)
    decreases SizeParts(ts)
  {
    match ts
    case Nil => true
    case Cons(t, rest) => Suitable(t, n, world) && SuitableParts(rest, n, world)
  }

  ghost predicate SuitableKind(k: Option<Type>, n: nat, world: set<string>)
    decreases SizeKind(k)
  {
    match k
    case None => true
    case Some(t) => Suitable(t, n, world)
  }

  ghost predicate SuitableTelescope(ps: List<Parameter>, body: Type, n: nat, world: set<string>)
    decreases SizeParameters(ps) + Size(body), 2
  {
    match ps
    case Nil => Suitable(body, n, world)
    case Cons(p, rest) =>
      && (p.name in world ==> p.name !in BinderNames(rest) && KindsSafe(rest, n))
      && SuitableKind(p.kind, n, world)
      && SuitableTelescope(rest, body, n, world)
  }

  /** Every quantifier has distinct binder names, and no binder kind mentions a generated name. */
  ghost predicate Tidy(t: Type)
    decreases Size(t), 1
  {
    match t
    case Variable(_) => true
    case Atom(_) => true
    case Composite(_, parts) => TidyParts(parts)
    case Forall(ps, body) => TidyTelescope(ps, body)
  }

  ghost predicate TidyParts(ts: List<Type>)
    decreases SizeParts(ts)
  {
    match ts
    case Nil => true
    case Cons(t, rest) => Tidy(t) && TidyParts(rest)
  }

  ghost predicate TidyKind(k: Option<Type>)
    decreases SizeKind(k)
  {
    match k
    case None => true
    case Some(t) => Tidy(t) && KindNamesSafe(k, 0)
  }

  ghost predicate TidyTelescope(ps: List<Parameter>, body: Type)
    decreases SizeParameters(ps) + Size(body), 2
  {
    match ps
    case Nil => Tidy(body)
    case Cons(p, rest) => p.name !in BinderNames(rest) && TidyKind(p.kind) && TidyTelescope(rest, body)
  }

  /** Tidy types are suitable for every substitution and every counter. */
  lemma {:induction false} TidySuitable(t: Type, n: nat, world: set<string>)
    requires Tidy(t)
    ensures Suitable(t, n, world)
    decreases Size(t), 1
  {
    match t
    case Variable(_) =>
    case Atom(_) =>
    case Composite(_, parts) => TidySuitableParts(parts, n, world);
    case Forall(ps, body) => TidySuitableTelescope(ps, body, n, world);
  }

  lemma {:induction false} TidySuitableParts(ts: List<Type>, n: nat, world: set<string>)
    requires TidyParts(ts)
    ensures SuitableParts(ts, n, world)
    decreases SizeParts(ts)
  {
    match ts
    case Nil =>
    case Cons(t, rest) => TidySuitable(t, n, world); TidySuitableParts(rest, n, world);
  }

  lemma {:induction false} TidySuitableTelescope(ps: List<Parameter>, body: Type, n: nat, world: set<string>)
    requires TidyTelescope(ps, body)
    ensures SuitableTelescope(ps, body, n, world) && KindsSafe(ps, n)
    decreases SizeParameters(ps) + Size(body), 2
  {
    match ps
    case Nil => TidySuitable(body, n, world);
    case Cons(p, rest) =>
      if p.kind.Some? { KindUnfolds(p.kind); TidySuitable(p.kind.value, n, world); }
      TidySuitableTelescope(rest, body, n, world);
  }

  lemma {:induction false} KindsSafeLater(ps: List<Parameter>, n: nat, m: nat)
    requires KindsSafe(ps, n) && n <= m
    ensures KindsSafe(ps, m)
  {
    match ps
    case Nil =>
    case Cons(_, rest) => KindsSafeLater(rest, n, m);
  }

  lemma {:induction false} SuitableLater(t: Type, n: nat, m: nat, world: set<string>)
    requires Suitable(t, n, world) && n <= m
    ensures Suitable(t, m, world)
    decreases Size(t), 1
  {
    match t
    case Variable(_) =>
    case Atom(_) =>
    case Composite(_, parts) => SuitableLaterParts(parts, n, m, world);
    case Forall(ps, body) => SuitableLaterTelescope(ps, body, n, m, world);
  }

  lemma {:induction false} SuitableLaterParts(ts: List<Type>, n: nat, m: nat, world: set<string>)
    requires SuitableParts(ts, n, world) && n <= m
    ensures SuitableParts(ts, m, world)
    decreases SizeParts(ts)
  {
    match ts
    case Nil =>
    case Cons(t, rest) => SuitableLater(t, n, m, world); SuitableLaterParts(rest, n, m, world);
  }

  lemma {:induction false} SuitableLaterTelescope(ps: List<Parameter>, body: Type, n: nat, m: nat, world: set<string>)
    requires SuitableTelescope(ps, body, n, world) && n <= m
    ensures SuitableTelescope(ps, body, m, world)
    decreases SizeParameters(ps) + Size(body), 2
  {
    match ps
    case Nil => SuitableLater(body, n, m, world);
    case Cons(p, rest) =>
      if p.kind.Some? { KindUnfolds(p.kind); SuitableLater(p.kind.value, n, m, world); }
      if p.name in world { KindsSafeLater(rest, n, m); }
      SuitableLaterTelescope(rest, body, n, m, world);
  }

  // ----- What renaming keeps -----

  lemma {:induction false} RenameNames(t: Type, old_: string, new_: string)
    ensures Names(Rename(t, old_, new_)) <= Names(t) + {new_}
    decreases Size(t), 1
  {
    match t
    case Variable(_) =>
    case Atom(_) =>
    case Composite(_, parts) => RenameNamesParts(parts, old_, new_);
    case Forall(ps, body) => RenameNamesTelescope(ps, body, old_, new_);
  }

  lemma {:induction false} RenameNamesParts(ts: List<Type>, old_: string, new_: string)
    ensures NamesParts(RenameParts(ts, old_, new_)) <= NamesParts(ts) + {new_}
    decreases SizeParts(ts)
  {
    match ts
    case Nil =>
    case Cons(t, rest) => RenameNames(t, old_, new_); RenameNamesParts(rest, old_, new_);
  }

  lemma {:induction false} RenameNamesTelescope(ps: List<Parameter>, body: Type, old_: string, new_: string)
    ensures var (ps', body') := RenameTelescope(ps, body, old_, new_);
            NamesParameters(ps') + Names(body') <= NamesParameters(ps) + Names(body) + {new_}
    decreases SizeParameters(ps) + Size(body), 2
  {
    match ps
    case Nil => RenameNames(body, old_, new_);
    case Cons(p, rest) =>
      if p.kind.Some? { KindUnfolds(p.kind); RenameNames(p.kind.value, old_, new_); }
      RenameNamesTelescope(rest, body, old_, new_);
  }

  lemma {:induction false} RenameBinders(ps: List<Parameter>, body: Type, old_: string, new_: string)
    ensures BinderNames(RenameTelescope(ps, body, old_, new_).0) == BinderNames(ps)
  {
    match ps
    case Nil =>
    case Cons(_, rest) => RenameBinders(rest, body, old_, new_);
  }

  lemma {:induction false} RenameSuitable(t: Type, old_: string, new_: string, n: nat, world: set<string>)
    requires Suitable(t, n, world) && !Upcoming(new_, n)
    ensures Suitable(Rename(t, old_, new_), n, world)
    decreases Size(t), 1
  {
    match t
    case Variable(_) =>
    case Atom(_) =>
    case Composite(_, parts) => RenameSuitableParts(parts, old_, new_, n, world);
    case Forall(ps, body) => RenameSuitableTelescope(ps, body, old_, new_, n, world);
  }

  lemma {:induction false} RenameSuitableParts(ts: List<Type>, old_: string, new_: string, n: nat, world: set<string>)
    requires SuitableParts(ts, n, world) && !Upcoming(new_, n)
    ensures SuitableParts(RenameParts(ts, old_, new_), n, world)
    decreases SizeParts(ts)
  {
    match ts
    case Nil =>
    case Cons(t, rest) => RenameSuitable(t, old_, new_, n, world); RenameSuitableParts(rest, old_, new_, n, world);
  }

  lemma {:induction false} RenameSuitableTelescope(ps: List<Parameter>, body: Type, old_: string, new_: string, n: nat,
                                                   world: set<string>)
    requires SuitableTelescope(ps, body, n, world) && !Upcoming(new_, n)
    ensures var (ps', body') := RenameTelescope(ps, body, old_, new_); SuitableTelescope(ps', body', n, world)
    decreases SizeParameters(ps) + Size(body), 2
  {
    match ps
    case Nil => RenameSuitable(body, old_, new_, n, world);
    case Cons(p, rest) =>
      if p.kind.Some? {
        KindUnfolds(p.kind);
        RenameSuitable(p.kind.value, old_, new_, n, world);
      }
      RenameBinders(rest, body, old_, new_);
      if p.name in world { RenameKindsSafe(rest, body, old_, new_, n); }
      RenameSuitableTelescope(rest, body, old_, new_, n, world);
  }

  lemma {:induction false} RenameKindsSafe(ps: List<Parameter>, body: Type, old_: string, new_: string, n: nat)
    requires KindsSafe(ps, n) && !Upcoming(new_, n)
    ensures KindsSafe(RenameTelescope(ps, body, old_, new_).0, n)
  {
    match ps
    case Nil =>
    case Cons(p, rest) =>
      if p.kind.Some? {
        KindUnfolds(p.kind);
        RenameNames(p.kind.value, old_, new_);
      }
      RenameKindsSafe(rest, body, old_, new_, n);
  }

  lemma {:induction false} SafeNames(ps: List<Parameter>, x: string, n: nat)
    requires KindsSafe(ps, n) && Upcoming(x, n) && x !in BinderNames(ps)
    ensures x !in NamesParameters(ps)
  {
    match ps
    case Nil =>
    case Cons(_, rest) => SafeNames(rest, x, n);
  }

  /** Suitability is kept along the traversal, and every opening is clean. */
  lemma {:induction false} SuitableClean(t: Type, s: Substitution, n: nat, world: set<string>)
    requires Suitable(t, n, world) && ReplacementFree(s) <= world
    ensures Clean(t, s, n)
    decreases Size(t), 1
  {
    match t
    case Variable(_) =>
    case Atom(_) =>
    case Composite(_, parts) => SuitableCleanParts(parts, s, n, world);
    case Forall(ps, body) => SuitableCleanTelescope(ps, body, s, ReplacementFree(s), s.Keys, {}, n, world);
  }

  lemma {:induction false} SuitableCleanParts(ts: List<Type>, s: Substitution, n: nat, world: set<string>)
    requires SuitableParts(ts, n, world) && ReplacementFree(s) <= world
    ensures CleanParts(ts, s, n)
    decreases SizeParts(ts)
  {
    match ts
    case Nil =>
    case Cons(t, rest) =>
      SuitableClean(t, s, n, world);
      SuitableLaterParts(rest, n, Substitute(t, s, n).1, world);
      SuitableCleanParts(rest, s, Substitute(t, s, n).1, world);
  }

  lemma {:induction false} SuitableCleanTelescope(ps: List<Parameter>, body: Type, s: Substitution, free: set<string>,
                                                  keys: set<string>, seen: set<string>, n: nat, world: set<string>)
    requires SuitableTelescope(ps, body, n, world) && ReplacementFree(s) <= free <= world
    ensures CleanTelescope(ps, body, s, free, keys, seen, n)
    decreases SizeParameters(ps) + Size(body), 2
  {
    match ps
    case Nil => SuitableClean(body, s, n, world);
    case Cons(p, rest) =>
      var o := OpenBinder(p, rest, body, free, keys, seen, n);
      var m := SubstituteKind(p.kind, s, o.next).1;
      if p.kind.Some? {
        KindUnfolds(p.kind);
        SuitableLater(p.kind.value, n, o.next, world);
        SuitableClean(p.kind.value, s, o.next, world);
      }
      SuitableOpening(p, rest, body, free, keys, seen, n, world);
      SuitableLaterTelescope(o.rest, o.body, o.next, m, world);
      FewerReplacements(s, p.name);
      SuitableCleanTelescope(o.rest, o.body, s - {p.name}, free, keys, seen + {o.name}, m, world);
  }

  lemma {:induction false} FewerReplacements(s: Substitution, x: string)
    ensures ReplacementFree(s - {x}) <= ReplacementFree(s)
  {
    forall y | y in ReplacementFree(s - {x})
      ensures y in ReplacementFree(s)
    {
      assert FreeInValues(y, s - {x});
      var z :| z in s - {x} && y in FV((s - {x})[z]);
      assert FreeInValues(y, s);
    }
  }

  lemma {:induction false} SuitableOpening(p: Parameter, rest: List<Parameter>, body: Type, free: set<string>,
                                           keys: set<string>, seen: set<string>, n: nat, world: set<string>)
    requires SuitableTelescope(Cons(p, rest), body, n, world) && free <= world
    ensures var o := OpenBinder(p, rest, body, free, keys, seen, n);
            && SuitableTelescope(o.rest, o.body, o.next, world)
            && (p.name in free ==> OpensCleanly(rest, body, p.name, o.name))
  {
    var o := OpenBinder(p, rest, body, free, keys, seen, n);
    SuitableLaterTelescope(rest, body, n, o.next, world);
    if p.name in free {
      FreshIsGenerated(p, rest, body, free, keys, seen, n);
      SafeNames(rest, o.name, n);
      UnnamedIsClean(rest, body, p.name, o.name);
      RenameKindsIsTelescope(rest, body, p.name, o.name);
      RenameSuitableTelescope(rest, body, p.name, o.name, o.next, world);
    }
  }

  lemma {:induction false} UnnamedIsClean(ps: List<Parameter>, body: Type, old_: string, new_: string)
    requires old_ !in BinderNames(ps) && new_ !in NamesParameters(ps)
    ensures OpensCleanly(ps, body, old_, new_)
  {
    match ps
    case Nil =>
    case Cons(p, rest) =>
      if p.kind.Some? {
        KindUnfolds(p.kind);
        FreeIsNamed(p.kind.value);
        if Captures(p.kind.value, old_, new_) { CapturesNamed(p.kind.value, old_, new_); }
      }
      UnnamedIsClean(rest, body, old_, new_);
  }

  /** Without a shadowing binder, the loop's renaming is telescope renaming. */
  lemma {:induction false} RenameKindsIsTelescope(ps: List<Parameter>, body: Type, old_: string, new_: string)
    requires old_ !in BinderNames(ps)
    ensures RenameTelescope(ps, body, old_, new_) == (RenameKinds(ps, old_, new_), Rename(body, old_, new_))
  {
    match ps
    case Nil =>
    case Cons(_, rest) => RenameKindsIsTelescope(rest, body, old_, new_);
  }

  /** With distinct binder names and no generated names in binder kinds, nothing is captured. */
  lemma {:induction false} TidyIsClean(t: Type, s: Substitution, n: nat)
    requires Tidy(t)
    ensures Clean(t, s, n)
  {
    TidySuitable(t, n, ReplacementFree(s));
    SuitableClean(t, s, n, ReplacementFree(s));
  }

  // ----- Where it fails -----

  lemma {:induction false} OnlyReplacement(s: Substitution, x: string, y: string)
    requires s == map[x := Variable(y)]
    ensures ReplacementFree(s) == {y}
  {
    assert FreeInValues(y, s) by { assert x in s; }
    forall z | z in ReplacementFree(s)
      ensures z == y
    {
      assert FreeInValues(z, s);
    }
  }

  /** A repeated binder that has to be renamed: the body's variable ends up bound by the first
      of the two binders instead of the second. */
  lemma {:induction false} RepeatedBinderCaptured()
    ensures var a := Parameter("a", None, true);
            var t := Forall(Cons(a, Cons(a, Nil)), Variable("a"));
            var s := map["x" := Variable("a")];
            ToNameless(Substitute(t, s, 0).0, Nil) != Replace(ToNameless(t, Nil), Closed(s))
  {
    var a := Parameter("a", None, true);
    var t := Forall(Cons(a, Cons(a, Nil)), Variable("a"));
    var s: Substitution := map["x" := Variable("a")];
    OnlyReplacement(s, "x", "a");
    assert UsedBehind(Cons(a, Nil), Variable("a"), "a");
    assert !CleanTelescope(Cons(a, Cons(a, Nil)), Variable("a"), s, {"a"}, s.Keys, {}, 0);
    SubstitutionAvoidsCapture(t, s, 0);
  }

  /** A later binder kind that mentions a name the counter generates: the generated binder
      captures it. */
  lemma {:induction false} GeneratedNameCaptured()
    ensures var generated := Candidate("a", 0);
            var ps := Cons(Parameter("a", None, true), Cons(Parameter("b", Some(Variable(generated)), true), Nil));
            var t := Forall(ps, Atom(Tag(0, "")));
            var s := map["x" := Variable("a")];
            ToNameless(Substitute(t, s, 0).0, Nil) != Replace(ToNameless(t, Nil), Closed(s))
  {
    var generated := Candidate("a", 0);
    var a, later := Parameter("a", None, true), Cons(Parameter("b", Some(Variable(generated)), true), Nil);
    var s: Substitution := map["x" := Variable("a")];
    OnlyReplacement(s, "x", "a");
    FirstCandidate(a, later, Atom(Tag(0, "")), s.Keys);
    assert generated in FVKinds(later);
    assert !CleanTelescope(Cons(a, later), Atom(Tag(0, "")), s, {"a"}, s.Keys, {}, 0);
    SubstitutionAvoidsCapture(Forall(Cons(a, later), Atom(Tag(0, ""))), s, 0);
  }

  lemma {:induction false} FirstCandidate(a: Parameter, later: List<Parameter>, body: Type, keys: set<string>)
    requires a.name == "a" && keys == {"x"} && body.Atom? && BinderNames(later) == {"b"}
    ensures OpenBinder(a, later, body, {"a"}, keys, {}, 0).name == Candidate("a", 0)
  {
    assert |Candidate("a", 0)| > 1;
  }

  // ----- Free variables of the result -----

  lemma {:induction false} ReplaceFreeNames(d: Nameless, to: map<string, Nameless>, x: string)
    ensures x in FreeNames(Replace(d, to)) <==>
              (x in FreeNames(d) && x !in to) || exists y <- FreeNames(d) :: y in to && x in FreeNames(to[y])
  {
    match d
    case LFree(y) =>
    case LBound(_) =>
    case LAtom(_) =>
    case LComposite(_, parts) => ReplaceFreeNamesParts(parts, to, x);
    case LForall(telescope) => ReplaceFreeNames(telescope, to, x);
    case LBind(_, kind, rest) =>
      if kind.Some? { ReplaceFreeNames(kind.value, to, x); }
      ReplaceFreeNames(rest, to, x);
    case LEnd(body) => ReplaceFreeNames(body, to, x);
  }

  lemma {:induction false} ReplaceFreeNamesParts(ds: List<Nameless>, to: map<string, Nameless>, x: string)
    ensures x in FreeNamesParts(ReplaceParts(ds, to)) <==>
              (x in FreeNamesParts(ds) && x !in to) ||
              exists y <- FreeNamesParts(ds) :: y in to && x in FreeNames(to[y])
  {
    match ds
    case Nil =>
    case Cons(d, rest) => ReplaceFreeNames(d, to, x); ReplaceFreeNamesParts(rest, to, x);
  }

  /** The free variables of the result are exactly the unsubstituted ones and those of the
      replacements that were used. */
  lemma {:induction false} SubstitutionFreeVariables(t: Type, s: Substitution, n: nat)
    requires Clean(t, s, n)
    ensures forall x :: x in FV(Substitute(t, s, n).0) <==>
              (x in FV(t) && x !in s) || exists y <- FV(t) :: y in s && x in FV(s[y])
  {
    SubstitutionAvoidsCapture(t, s, n);
    var r := Substitute(t, s, n).0;
    FreeNamesMatch(r, Nil);
    FreeNamesMatch(t, Nil);
    assert FV(r) == Outside(FV(r), Nil) && FV(t) == Outside(FV(t), Nil);
    forall x
      ensures x in FV(r) <==> (x in FV(t) && x !in s) || exists y <- FV(t) :: y in s && x in FV(s[y])
    {
      ReplaceFreeNames(ToNameless(t, Nil), Closed(s), x);
      forall y | y in s
        ensures FreeNames(Closed(s)[y]) == FV(s[y])
      {
        FreeNamesMatch(s[y], Nil);
        assert FV(s[y]) == Outside(FV(s[y]), Nil);
      }
    }
  }
}
