/** Locally nameless types: bound variables are positions in the enclosing scope, so that alpha-equivalent
    types have equal forms, and simultaneous replacement cannot capture anything
    (crates/psrs-hir/src/substitution.rs). The lemmas say when renaming a binder keeps the form.
 */
module TypeSubstitutionNameless {
  import opened Lists
  import opened TypeSubstitution

  // ----- Locally nameless types -----

  /** Bound variables are indices, so alpha-equivalent types are equal. `LBind` is one binder of
      a quantifier's telescope and `LEnd` its body. */
  datatype Nameless =
    | LFree(name: string)
    | LBound(index: nat)
    | LAtom(tag: Tag)
    | LComposite(tag: Tag, parts: List<Nameless>)
    | LForall(telescope: Nameless)
    | LBind(visible: bool, kind: Option<Nameless>, rest: Nameless)
    | LEnd(body: Nameless)

  function IndexOf(scope: List<string>, x: string): nat {
    match scope
    case Nil => 0
    case Cons(y, rest) => if x == y then 0 else 1 + IndexOf(rest, x)
  }

  predicate InScope(x: string, scope: List<string>) {
    match scope
    case Nil => false
    case Cons(y, rest) => x == y || InScope(x, rest)
  }

  function ToNameless(t: Type, scope: List<string>): Nameless
    decreases Size(t), 1
  {
    match t
    case Variable(x) => if InScope(x, scope) then LBound(IndexOf(scope, x)) else LFree(x)
    case Atom(tag) => LAtom(tag)
    case Composite(tag, parts) => LComposite(tag, ToNamelessParts(parts, scope))
    case Forall(ps, body) => LForall(ToNamelessTelescope(ps, body, scope))
  }

  function ToNamelessParts(ts: List<Type>, scope: List<string>): List<Nameless>
    decreases SizeParts(ts)
  {
    match ts
    case Nil => Nil
    case Cons(t, rest) => Cons(ToNameless(t, scope), ToNamelessParts(rest, scope))
  }

  function ToNamelessKind(k: Option<Type>, scope: List<string>): Option<Nameless>
    decreases SizeKind(k)
  {
    match k
    case None => None
    case Some(t) => Some(ToNameless(t, scope))
  }

  function ToNamelessTelescope(ps: List<Parameter>, body: Type, scope: List<string>): Nameless
    decreases SizeParameters(ps) + Size(body), 2
  {
    match ps
    case Nil => LEnd(ToNameless(body, scope))
    case Cons(p, rest) =>
      LBind(p.visible, ToNamelessKind(p.kind, scope), ToNamelessTelescope(rest, body, Cons(p.name, scope)))
  }

  /** Simultaneous replacement of free names by closed nameless types; nothing can be captured. */
  function Replace(d: Nameless, to: map<string, Nameless>): Nameless {
    match d
    case LFree(x) => if x in to then to[x] else d
    case LBound(_) => d
    case LAtom(_) => d
    case LComposite(tag, parts) => LComposite(tag, ReplaceParts(parts, to))
    case LForall(telescope) => LForall(Replace(telescope, to))
    case LBind(visible, kind, rest) =>
      LBind(visible, match kind case None => None case Some(k) => Some(Replace(k, to)), Replace(rest, to))
    case LEnd(body) => LEnd(Replace(body, to))
  }

  function ReplaceParts(ds: List<Nameless>, to: map<string, Nameless>): List<Nameless> {
    match ds
    case Nil => Nil
    case Cons(d, rest) => Cons(Replace(d, to), ReplaceParts(rest, to))
  }

  function Closed(s: Substitution): map<string, Nameless> {
    map x | x in s :: ToNameless(s[x], Nil)
  }

  lemma {:induction false} KindUnfolds(k: Option<Type>)
    requires k.Some?
    ensures SizeKind(k) == 1 + Size(k.value) && FVKind(k) == FV(k.value) && NamesKind(k) == Names(k.value)
  {
  }

  // ----- Changing one name of a scope -----

  function Under(inner: List<string>, x: string, outer: List<string>): List<string> {
    Append(inner, Cons(x, outer))
  }

  lemma {:induction false} LookupOther(inner: List<string>, old_: string, new_: string, outer: List<string>, x: string)
    requires (x != new_ || InScope(x, inner)) && (x != old_ || InScope(x, inner))
    ensures InScope(x, Under(inner, old_, outer)) <==> InScope(x, Under(inner, new_, outer))
    ensures InScope(x, Under(inner, old_, outer)) ==>
              IndexOf(Under(inner, old_, outer), x) == IndexOf(Under(inner, new_, outer), x)
  {
    match inner
    case Nil =>
    case Cons(y, rest) => if x != y { LookupOther(rest, old_, new_, outer, x); }
  }

  lemma {:induction false} LookupRenamed(inner: List<string>, old_: string, new_: string, outer: List<string>)
    requires !InScope(old_, inner) && !InScope(new_, inner)
    ensures InScope(old_, Under(inner, old_, outer)) && InScope(new_, Under(inner, new_, outer))
    ensures IndexOf(Under(inner, old_, outer), old_) == IndexOf(Under(inner, new_, outer), new_)
  {
    match inner
    case Nil =>
    case Cons(_, rest) => LookupRenamed(rest, old_, new_, outer);
  }

  /** Two scope entries are interchangeable for a type that sees neither of them. */
  lemma {:induction false} Unseen(t: Type, inner: List<string>, old_: string, new_: string, outer: List<string>)
    requires InScope(old_, inner) || old_ !in FV(t)
    requires InScope(new_, inner) || new_ !in FV(t)
    ensures ToNameless(t, Under(inner, old_, outer)) == ToNameless(t, Under(inner, new_, outer))
    decreases Size(t), 1
  {
    match t
    case Variable(x) => LookupOther(inner, old_, new_, outer, x);
    case Atom(_) =>
    case Composite(_, parts) => UnseenParts(parts, inner, old_, new_, outer);
    case Forall(ps, body) => UnseenTelescope(ps, body, inner, old_, new_, outer);
  }

  lemma {:induction false} UnseenParts(ts: List<Type>, inner: List<string>, old_: string, new_: string,
                                       outer: List<string>)
    requires InScope(old_, inner) || old_ !in FVParts(ts)
    requires InScope(new_, inner) || new_ !in FVParts(ts)
    ensures ToNamelessParts(ts, Under(inner, old_, outer)) == ToNamelessParts(ts, Under(inner, new_, outer))
    decreases SizeParts(ts)
  {
    match ts
    case Nil =>
    case Cons(t, rest) =>
      Unseen(t, inner, old_, new_, outer);
      UnseenParts(rest, inner, old_, new_, outer);
  }

  lemma {:induction false} UnseenTelescope(ps: List<Parameter>, body: Type, inner: List<string>, old_: string,
                                           new_: string, outer: List<string>)
    requires InScope(old_, inner) || old_ !in FVTelescope(ps, body)
    requires InScope(new_, inner) || new_ !in FVTelescope(ps, body)
    ensures ToNamelessTelescope(ps, body, Under(inner, old_, outer))
            == ToNamelessTelescope(ps, body, Under(inner, new_, outer))
    decreases SizeParameters(ps) + Size(body), 2
  {
    match ps
    case Nil => Unseen(body, inner, old_, new_, outer);
    case Cons(p, rest) =>
      if p.kind.Some? { KindUnfolds(p.kind); Unseen(p.kind.value, inner, old_, new_, outer); }
      UnseenTelescope(rest, body, Cons(p.name, inner), old_, new_, outer);
  }

  // ----- What renaming does -----

  /** The old name occurs free below a binder of the new one, where renaming would hand it over. */
  predicate Captures(t: Type, old_: string, new_: string)
    decreases Size(t), 1
  {
    match t
    case Variable(_) => false
    case Atom(_) => false
    case Composite(_, parts) => CapturesParts(parts, old_, new_)
    case Forall(ps, body) => CapturesTelescope(ps, body, old_, new_)
  }

  predicate CapturesParts(ts: List<Type>, old_: string, new_: string)
    decreases SizeParts(ts)
  {
    match ts
    case Nil => false
    case Cons(t, rest) => Captures(t, old_, new_) || CapturesParts(rest, old_, new_)
  }

  predicate CapturesKind(k: Option<Type>, old_: string, new_: string)
    decreases SizeKind(k)
  {
    match k
    case None => false
    case Some(t) => Captures(t, old_, new_)
  }

  predicate CapturesTelescope(ps: List<Parameter>, body: Type, old_: string, new_: string)
    decreases SizeParameters(ps) + Size(body), 2
  {
    match ps
    case Nil => Captures(body, old_, new_)
    case Cons(p, rest) =>
      || CapturesKind(p.kind, old_, new_)
      || (p.name == new_ && p.name != old_ && old_ in FVTelescope(rest, body))
      || (p.name != new_ && p.name != old_ && CapturesTelescope(rest, body, old_, new_))
  }

  lemma {:induction false} RenameAbsent(t: Type, old_: string, new_: string)
    requires old_ !in FV(t)
    ensures Rename(t, old_, new_) == t
    decreases Size(t), 1
  {
    match t
    case Variable(_) =>
    case Atom(_) =>
    case Composite(_, parts) => RenameAbsentParts(parts, old_, new_);
    case Forall(ps, body) => RenameAbsentTelescope(ps, body, old_, new_);
  }

  lemma {:induction false} RenameAbsentParts(ts: List<Type>, old_: string, new_: string)
    requires old_ !in FVParts(ts)
    ensures RenameParts(ts, old_, new_) == ts
    decreases SizeParts(ts)
  {
    match ts
    case Nil =>
    case Cons(t, rest) => RenameAbsent(t, old_, new_); RenameAbsentParts(rest, old_, new_);
  }

  lemma {:induction false} RenameAbsentTelescope(ps: List<Parameter>, body: Type, old_: string, new_: string)
    requires old_ !in FVTelescope(ps, body)
    ensures RenameTelescope(ps, body, old_, new_) == (ps, body)
    decreases SizeParameters(ps) + Size(body), 2
  {
    match ps
    case Nil => RenameAbsent(body, old_, new_);
    case Cons(p, rest) =>
      if p.kind.Some? { KindUnfolds(p.kind); RenameAbsent(p.kind.value, old_, new_); }
      if p.name != old_ { RenameAbsentTelescope(rest, body, old_, new_); }
  }

  /** Renaming a bound variable, in the scope and in the type, keeps the nameless form when the new
      name is not free in the type and captures nothing. */
  lemma {:induction false} RenameKeeps(t: Type, inner: List<string>, old_: string, new_: string, outer: List<string>)
    requires !InScope(old_, inner) && !InScope(new_, inner) && new_ !in FV(t) && !Captures(t, old_, new_)
    ensures ToNameless(Rename(t, old_, new_), Under(inner, new_, outer)) == ToNameless(t, Under(inner, old_, outer))
    decreases Size(t), 1
  {
    match t
    case Variable(x) =>
      if x == old_ { LookupRenamed(inner, old_, new_, outer); } else { LookupOther(inner, old_, new_, outer, x); }
    case Atom(_) =>
    case Composite(_, parts) => RenameKeepsParts(parts, inner, old_, new_, outer);
    case Forall(ps, body) => RenameKeepsTelescope(ps, body, inner, old_, new_, outer);
  }

  lemma {:induction false} RenameKeepsParts(ts: List<Type>, inner: List<string>, old_: string, new_: string,
                                            outer: List<string>)
    requires !InScope(old_, inner) && !InScope(new_, inner) && new_ !in FVParts(ts) && !CapturesParts(ts, old_, new_)
    ensures ToNamelessParts(RenameParts(ts, old_, new_), Under(inner, new_, outer))
            == ToNamelessParts(ts, Under(inner, old_, outer))
    decreases SizeParts(ts)
  {
    match ts
    case Nil =>
    case Cons(t, rest) =>
      RenameKeeps(t, inner, old_, new_, outer);
      RenameKeepsParts(rest, inner, old_, new_, outer);
  }

  lemma {:induction false} RenameKeepsTelescope(ps: List<Parameter>, body: Type, inner: List<string>, old_: string,
                                                new_: string, outer: List<string>)
    requires !InScope(old_, inner) && !InScope(new_, inner)
    requires new_ !in FVTelescope(ps, body) && !CapturesTelescope(ps, body, old_, new_)
    ensures var (ps', body') := RenameTelescope(ps, body, old_, new_);
            ToNamelessTelescope(ps', body', Under(inner, new_, outer))
                == ToNamelessTelescope(ps, body, Under(inner, old_, outer))
    decreases SizeParameters(ps) + Size(body), 2
  {
    match ps
    case Nil => RenameKeeps(body, inner, old_, new_, outer);
    case Cons(p, rest) =>
      if p.kind.Some? { KindUnfolds(p.kind); RenameKeeps(p.kind.value, inner, old_, new_, outer); }
      if p.name == old_ {
        UnseenTelescope(rest, body, Cons(p.name, inner), old_, new_, outer);
      } else if p.name == new_ {
        RenameAbsentTelescope(rest, body, old_, new_);
        UnseenTelescope(rest, body, Cons(p.name, inner), old_, new_, outer);
      } else {
        RenameKeepsTelescope(rest, body, Cons(p.name, inner), old_, new_, outer);
      }
  }

  // ----- Free variables of the nameless form -----

  function FreeNames(d: Nameless): set<string> {
    match d
    case LFree(x) => {x}
    case LBound(_) => {}
    case LAtom(_) => {}
    case LComposite(_, parts) => FreeNamesParts(parts)
    case LForall(telescope) => FreeNames(telescope)
    case LBind(_, kind, rest) => (match kind case None => {} case Some(k) => FreeNames(k)) + FreeNames(rest)
    case LEnd(body) => FreeNames(body)
  }

  function FreeNamesParts(ds: List<Nameless>): set<string> {
    match ds
    case Nil => {}
    case Cons(d, rest) => FreeNames(d) + FreeNamesParts(rest)
  }

  ghost function Outside(xs: set<string>, scope: List<string>): set<string> {
    set x | x in xs && !InScope(x, scope)
  }

  lemma {:induction false} FreeNamesMatch(t: Type, scope: List<string>)
    ensures FreeNames(ToNameless(t, scope)) == Outside(FV(t), scope)
    decreases Size(t), 1
  {
    match t
    case Variable(_) =>
    case Atom(_) =>
    case Composite(_, parts) => FreeNamesMatchParts(parts, scope);
    case Forall(ps, body) => FreeNamesMatchTelescope(ps, body, scope);
  }

  lemma {:induction false} FreeNamesMatchParts(ts: List<Type>, scope: List<string>)
    ensures FreeNamesParts(ToNamelessParts(ts, scope)) == Outside(FVParts(ts), scope)
    decreases SizeParts(ts)
  {
    match ts
    case Nil =>
    case Cons(t, rest) =>
      FreeNamesMatch(t, scope);
      FreeNamesMatchParts(rest, scope);
  }

  lemma {:induction false} FreeNamesMatchTelescope(ps: List<Parameter>, body: Type, scope: List<string>)
    ensures FreeNames(ToNamelessTelescope(ps, body, scope)) == Outside(FVTelescope(ps, body), scope)
    decreases SizeParameters(ps) + Size(body), 2
  {
    match ps
    case Nil => FreeNamesMatch(body, scope);
    case Cons(p, rest) =>
      if p.kind.Some? { KindUnfolds(p.kind); FreeNamesMatch(p.kind.value, scope); }
      FreeNamesMatchTelescope(rest, body, Cons(p.name, scope));
  }

  /** A type none of whose free variables is in scope reads the same as at top level. */
  lemma {:induction false} ScopeIrrelevant(t: Type, inner: List<string>, scope: List<string>)
    requires forall x <- FV(t) :: !InScope(x, inner) ==> !InScope(x, scope)
    ensures ToNameless(t, Append(inner, scope)) == ToNameless(t, inner)
    decreases Size(t), 1
  {
    match t
    case Variable(x) => LookupAppend(inner, scope, x);
    case Atom(_) =>
    case Composite(_, parts) => ScopeIrrelevantParts(parts, inner, scope);
    case Forall(ps, body) => ScopeIrrelevantTelescope(ps, body, inner, scope);
  }

  lemma {:induction false} LookupAppend(inner: List<string>, scope: List<string>, x: string)
    ensures InScope(x, Append(inner, scope)) <==> InScope(x, inner) || InScope(x, scope)
    ensures InScope(x, inner) ==> IndexOf(Append(inner, scope), x) == IndexOf(inner, x)
  {
    match inner
    case Nil =>
    case Cons(_, rest) => LookupAppend(rest, scope, x);
  }

  lemma {:induction false} ScopeIrrelevantParts(ts: List<Type>, inner: List<string>, scope: List<string>)
    requires forall x <- FVParts(ts) :: !InScope(x, inner) ==> !InScope(x, scope)
    ensures ToNamelessParts(ts, Append(inner, scope)) == ToNamelessParts(ts, inner)
    decreases SizeParts(ts)
  {
    match ts
    case Nil =>
    case Cons(t, rest) =>
      ScopeIrrelevant(t, inner, scope);
      ScopeIrrelevantParts(rest, inner, scope);
  }

  lemma {:induction false} ScopeIrrelevantTelescope(ps: List<Parameter>, body: Type, inner: List<string>,
                                                    scope: List<string>)
    requires forall x <- FVTelescope(ps, body) :: !InScope(x, inner) ==> !InScope(x, scope)
    ensures ToNamelessTelescope(ps, body, Append(inner, scope)) == ToNamelessTelescope(ps, body, inner)
    decreases SizeParameters(ps) + Size(body), 2
  {
    match ps
    case Nil => ScopeIrrelevant(body, inner, scope);
    case Cons(p, rest) =>
      if p.kind.Some? { KindUnfolds(p.kind); ScopeIrrelevant(p.kind.value, inner, scope); }
      ScopeIrrelevantTelescope(rest, body, Cons(p.name, inner), scope);
  }
}
