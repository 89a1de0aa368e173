/** What goes wrong when a quantifier's binder is renamed to a generated name although a later binder
    repeats it, or a later kind mentions the generated name (crates/psrs-hir/src/substitution.rs:89-112).

    A wrongly renamed or newly bound occurrence is a leaf with the generated name. `Clash` finds such a
    leaf beside the nameless form it should have had; the rest of the traversal never repairs it.
 */
module TypeSubstitutionClash {
  import opened Lists
  import opened TypeSubstitution
  import opened TypeSubstitutionNameless

  // ----- When one binder is opened correctly -----

  function FVKinds(ps: List<Parameter>): set<string> {
    match ps
    case Nil => {}
    case Cons(p, rest) => FVKind(p.kind) + FVKinds(rest)
  }

  predicate CapturesKinds(ps: List<Parameter>, old_: string, new_: string) {
    match ps
    case Nil => false
    case Cons(p, rest) => CapturesKind(p.kind, old_, new_) || CapturesKinds(rest, old_, new_)
  }

  /** The name is used behind a later binder that repeats it. */
  predicate UsedBehind(ps: List<Parameter>, body: Type, old_: string) {
    match ps
    case Nil => false
    case Cons(p, rest) => if p.name == old_ then old_ in FVKinds(rest) + FV(body) else UsedBehind(rest, body, old_)
  }

  /** The binder `old_`, renamed to `new_`: no use belongs to a later binder of the same name, no
      later kind mentions `new_`, and none uses `old_` below a binder of `new_`. */
  predicate OpensCleanly(rest: List<Parameter>, body: Type, old_: string, new_: string) {
    !UsedBehind(rest, body, old_) && new_ !in FVKinds(rest) && !CapturesKinds(rest, old_, new_)
  }

  /** What generated names satisfy at the binder they are generated for. */
  ghost predicate Generated(rest: List<Parameter>, body: Type, old_: string, new_: string) {
    new_ != old_ && new_ !in BinderNames(rest) && new_ !in Names(body)
  }

  lemma {:induction false} FreeIsNamed(t: Type)
    ensures FV(t) <= Names(t)
    decreases Size(t), 1
  {
    match t
    case Variable(_) =>
    case Atom(_) =>
    case Composite(_, parts) => FreeIsNamedParts(parts);
    case Forall(ps, body) => FreeIsNamedTelescope(ps, body);
  }

  lemma {:induction false} FreeIsNamedParts(ts: List<Type>)
    ensures FVParts(ts) <= NamesParts(ts)
    decreases SizeParts(ts)
  {
    match ts
    case Nil =>
    case Cons(t, rest) => FreeIsNamed(t); FreeIsNamedParts(rest);
  }

  lemma {:induction false} FreeIsNamedTelescope(ps: List<Parameter>, body: Type)
    ensures FVTelescope(ps, body) <= NamesParameters(ps) + Names(body)
    decreases SizeParameters(ps) + Size(body), 2
  {
    match ps
    case Nil => FreeIsNamed(body);
    case Cons(p, rest) =>
      if p.kind.Some? { KindUnfolds(p.kind); FreeIsNamed(p.kind.value); }
      FreeIsNamedTelescope(rest, body);
  }

  lemma {:induction false} CapturesNamed(t: Type, old_: string, new_: string)
    requires Captures(t, old_, new_)
    ensures new_ in Names(t)
    decreases Size(t), 1
  {
    match t
    case Variable(_) =>
    case Atom(_) =>
    case Composite(_, parts) => CapturesNamedParts(parts, old_, new_);
    case Forall(ps, body) => CapturesNamedTelescope(ps, body, old_, new_);
  }

  lemma {:induction false} CapturesNamedParts(ts: List<Type>, old_: string, new_: string)
    requires CapturesParts(ts, old_, new_)
    ensures new_ in NamesParts(ts)
    decreases SizeParts(ts)
  {
    match ts
    case Nil =>
    case Cons(t, rest) => if Captures(t, old_,
                                      new_) { CapturesNamed(t, old_, new_); } else { CapturesNamedParts(rest, old_,
                                                                                                        new_); }
  }

  lemma {:induction false} CapturesNamedTelescope(ps: List<Parameter>, body: Type, old_: string, new_: string)
    requires CapturesTelescope(ps, body, old_, new_)
    ensures new_ in NamesParameters(ps) + Names(body)
    decreases SizeParameters(ps) + Size(body), 2
  {
    match ps
    case Nil => CapturesNamed(body, old_, new_);
    case Cons(p, rest) =>
      if CapturesKind(p.kind, old_, new_) {
        KindUnfolds(p.kind);
        CapturesNamed(p.kind.value, old_, new_);
      } else if p.name != new_ {
        CapturesNamedTelescope(rest, body, old_, new_);
      }
  }

  lemma {:induction false} FVInside(ps: List<Parameter>, body: Type)
    ensures FVTelescope(ps, body) <= FVKinds(ps) + FV(body)
    ensures FVKinds(ps) <= FVTelescope(ps, body) + BinderNames(ps)
  {
    match ps
    case Nil =>
    case Cons(p, rest) => FVInside(rest, body);
  }

  /** A binder opened cleanly: the later binders and the body mean the same. */
  lemma {:induction false} OpeningKeeps(ps: List<Parameter>, body: Type, inner: List<string>, old_: string,
                                        new_: string, outer: List<string>)
    requires Generated(ps, body, old_, new_) && OpensCleanly(ps, body, old_, new_)
    requires !InScope(old_, inner) && !InScope(new_, inner)
    ensures ToNamelessTelescope(RenameKinds(ps, old_, new_), Rename(body, old_, new_), Under(inner, new_, outer))
         == ToNamelessTelescope(ps, body, Under(inner, old_, outer))
  {
    FreeIsNamed(body);
    match ps
    case Nil =>
      if Captures(body, old_, new_) { CapturesNamed(body, old_, new_); }
      RenameKeeps(body, inner, old_, new_, outer);
    case Cons(p, rest) =>
      if p.kind.Some? { KindUnfolds(p.kind); RenameKeeps(p.kind.value, inner, old_, new_, outer); }
      if p.name == old_ {
        RenameKindsAbsent(rest, old_, new_);
        RenameAbsent(body, old_, new_);
        FVInside(rest, body);
        UnseenTelescope(rest, body, Cons(p.name, inner), old_, new_, outer);
      } else {
        OpeningKeeps(rest, body, Cons(p.name, inner), old_, new_, outer);
      }
  }

  lemma {:induction false} RenameKindsAbsent(ps: List<Parameter>, old_: string, new_: string)
    requires old_ !in FVKinds(ps)
    ensures RenameKinds(ps, old_, new_) == ps
  {
    match ps
    case Nil =>
    case Cons(p, rest) =>
      if p.kind.Some? { KindUnfolds(p.kind); RenameAbsent(p.kind.value, old_, new_); }
      RenameKindsAbsent(rest, old_, new_);
  }

  // ----- A leaf that differs -----

  /** Some leaf `f` of `t` should read otherwise: beside it, `d` has another bound variable than
      `at`, the position of `f`, or a free name that is not replaced. */
  predicate Clash(t: Type, d: Nameless, at: nat, f: string, to: map<string, Nameless>)
    decreases Size(t), 1
  {
    match t
    case Variable(x) => x == f && d != LBound(at) && (d.LBound? || (d.LFree? && d.name !in to))
    case Atom(_) => false
    case Composite(_, parts) => d.LComposite? && ClashParts(parts, d.parts, at, f, to)
    case Forall(ps, body) => d.LForall? && ClashTelescope(ps, body, d.telescope, at, f, to)
  }

  predicate ClashParts(ts: List<Type>, ds: List<Nameless>, at: nat, f: string, to: map<string, Nameless>)
    decreases SizeParts(ts)
  {
    match ts
    case Nil => false
    case Cons(t, rest) => ds.Cons? && (Clash(t, ds.head, at, f, to) || ClashParts(rest, ds.tail, at, f, to))
  }

  predicate ClashKind(k: Option<Type>, d: Option<Nameless>, at: nat, f: string, to: map<string, Nameless>)
    decreases SizeKind(k)
  {
    match k
    case None => false
    case Some(t) => d.Some? && Clash(t, d.value, at, f, to)
  }

  function Below(x: string, at: nat, f: string): nat {
    if x == f then 0 else at + 1
  }

  predicate ClashTelescope(ps: List<Parameter>, body: Type, d: Nameless, at: nat, f: string, to: map<string, Nameless>)
    decreases SizeParameters(ps) + Size(body), 2
  {
    match ps
    case Nil => d.LEnd? && Clash(body, d.body, at, f, to)
    case Cons(p, rest) =>
      d.LBind? && (ClashKind(p.kind, d.kind, at, f, to)
                   || ClashTelescope(rest, body, d.rest, Below(p.name, at, f), f, to))
  }

  /** Renaming another variable leaves the leaf in place. */
  lemma {:induction false} ClashRenamed(t: Type, d: Nameless, at: nat, f: string, to: map<string, Nameless>,
                                        old_: string, new_: string)
    requires Clash(t, d, at, f, to) && old_ != f
    ensures Clash(Rename(t, old_, new_), d, at, f, to)
    decreases Size(t), 1
  {
    match t
    case Variable(_) =>
    case Atom(_) =>
    case Composite(_, parts) => ClashRenamedParts(parts, d.parts, at, f, to, old_, new_);
    case Forall(ps, body) => ClashRenamedTelescope(ps, body, d.telescope, at, f, to, old_, new_);
  }

  lemma {:induction false} ClashRenamedParts(ts: List<Type>, ds: List<Nameless>, at: nat, f: string,
                                             to: map<string, Nameless>, old_: string, new_: string)
    requires ClashParts(ts, ds, at, f, to) && old_ != f
    ensures ClashParts(RenameParts(ts, old_, new_), ds, at, f, to)
    decreases SizeParts(ts)
  {
    match ts
    case Nil =>
    case Cons(t, rest) =>
      if Clash(t, ds.head, at, f, to) { ClashRenamed(t, ds.head, at, f, to, old_, new_); }
      else { ClashRenamedParts(rest, ds.tail, at, f, to, old_, new_); }
  }

  lemma {:induction false} ClashRenamedTelescope(ps: List<Parameter>, body: Type, d: Nameless, at: nat, f: string,
                                                 to: map<string, Nameless>, old_: string, new_: string)
    requires ClashTelescope(ps, body, d, at, f, to) && old_ != f
    ensures var (ps', body') := RenameTelescope(ps, body, old_, new_); ClashTelescope(ps', body', d, at, f, to)
    decreases SizeParameters(ps) + Size(body), 2
  {
    match ps
    case Nil => ClashRenamed(body, d.body, at, f, to, old_, new_);
    case Cons(p, rest) =>
      if ClashKind(p.kind, d.kind, at, f, to) {
        KindUnfolds(p.kind);
        ClashRenamed(p.kind.value, d.kind.value, at, f, to, old_, new_);
      } else if p.name != old_ {
        ClashRenamedTelescope(rest, body, d.rest, Below(p.name, at, f), f, to, old_, new_);
      }
  }

  lemma {:induction false} ClashRenamedKinds(ps: List<Parameter>, body: Type, d: Nameless, at: nat, f: string,
                                             to: map<string, Nameless>, old_: string, new_: string)
    requires ClashTelescope(ps, body, d, at, f, to) && old_ != f
    ensures ClashTelescope(RenameKinds(ps, old_, new_), Rename(body, old_, new_), d, at, f, to)
  {
    match ps
    case Nil => ClashRenamed(body, d.body, at, f, to, old_, new_);
    case Cons(p, rest) =>
      if ClashKind(p.kind, d.kind, at, f, to) {
        KindUnfolds(p.kind);
        ClashRenamed(p.kind.value, d.kind.value, at, f, to, old_, new_);
      } else {
        ClashRenamedKinds(rest, body, d.rest, Below(p.name, at, f), f, to, old_, new_);
      }
  }

  // ----- An unclean opening clashes -----

  /** A use of `old_` that is renamed although it is bound somewhere else than at `at`. */
  lemma {:induction false} RenamedClashes(t: Type, scope: List<string>, at: nat, old_: string, f: string,
                                          to: map<string, Nameless>)
    requires old_ in FV(t) && old_ != f && InScope(old_, scope) && IndexOf(scope, old_) != at
    ensures Clash(Rename(t, old_, f), ToNameless(t, scope), at, f, to)
    decreases Size(t), 1
  {
    match t
    case Variable(_) =>
    case Composite(_, parts) => RenamedClashesParts(parts, scope, at, old_, f, to);
    case Forall(ps, body) => RenamedClashesTelescope(ps, body, scope, at, old_, f, to);
  }

  lemma {:induction false} RenamedClashesParts(ts: List<Type>, scope: List<string>, at: nat, old_: string, f: string,
                                               to: map<string, Nameless>)
    requires old_ in FVParts(ts) && old_ != f && InScope(old_, scope) && IndexOf(scope, old_) != at
    ensures ClashParts(RenameParts(ts, old_, f), ToNamelessParts(ts, scope), at, f, to)
    decreases SizeParts(ts)
  {
    if old_ in FV(ts.head) { RenamedClashes(ts.head, scope, at, old_, f, to); } else { RenamedClashesParts(ts.tail,
        scope, at, old_, f, to); }
  }

  lemma {:induction false} RenamedClashesTelescope(ps: List<Parameter>, body: Type, scope: List<string>, at: nat,
                                                   old_: string, f: string, to: map<string, Nameless>)
    requires old_ in FVTelescope(ps, body) && old_ != f && InScope(old_, scope) && IndexOf(scope, old_) != at
    ensures var (ps', body') := RenameTelescope(ps, body, old_, f);
            ClashTelescope(ps', body', ToNamelessTelescope(ps, body, scope), at, f, to)
    decreases SizeParameters(ps) + Size(body), 2
  {
    match ps
    case Nil => RenamedClashes(body, scope, at, old_, f, to);
    case Cons(p, rest) =>
      if old_ in FVKind(p.kind) {
        KindUnfolds(p.kind);
        RenamedClashes(p.kind.value, scope, at, old_, f, to);
      } else {
        RenamedClashesTelescope(rest, body, Cons(p.name, scope), Below(p.name, at, f), old_, f, to);
      }
  }

  /** A use of `f` that was meant for something else than position `at`. */
  lemma {:induction false} MentionClashes(t: Type, scope: List<string>, at: nat, f: string, to: map<string, Nameless>)
    requires f in FV(t) && (if InScope(f, scope) then IndexOf(scope, f) != at else f !in to)
    ensures Clash(t, ToNameless(t, scope), at, f, to)
    decreases Size(t), 1
  {
    match t
    case Variable(_) =>
    case Composite(_, parts) => MentionClashesParts(parts, scope, at, f, to);
    case Forall(ps, body) => MentionClashesTelescope(ps, body, scope, at, f, to);
  }

  lemma {:induction false} MentionClashesParts(ts: List<Type>, scope: List<string>, at: nat, f: string,
                                               to: map<string, Nameless>)
    requires f in FVParts(ts) && (if InScope(f, scope) then IndexOf(scope, f) != at else f !in to)
    ensures ClashParts(ts, ToNamelessParts(ts, scope), at, f, to)
    decreases SizeParts(ts)
  {
    if f in FV(ts.head) { MentionClashes(ts.head, scope, at, f, to); } else { MentionClashesParts(ts.tail, scope, at, f,
        to); }
  }

  lemma {:induction false} MentionClashesTelescope(ps: List<Parameter>, body: Type, scope: List<string>, at: nat,
                                                   f: string, to: map<string, Nameless>)
    requires f in FVTelescope(ps, body) && (if InScope(f, scope) then IndexOf(scope, f) != at else f !in to)
    ensures ClashTelescope(ps, body, ToNamelessTelescope(ps, body, scope), at, f, to)
    decreases SizeParameters(ps) + Size(body), 2
  {
    match ps
    case Nil => MentionClashes(body, scope, at, f, to);
    case Cons(p, rest) =>
      if f in FVKind(p.kind) {
        KindUnfolds(p.kind);
        MentionClashes(p.kind.value, scope, at, f, to);
      } else {
        MentionClashesTelescope(rest, body, Cons(p.name, scope), Below(p.name, at, f), f, to);
      }
  }

  /** A use of `old_` below a binder of `f`. */
  lemma {:induction false} CaptureClashes(t: Type, scope: List<string>, at: nat, old_: string, f: string,
                                          to: map<string, Nameless>)
    requires Captures(t, old_, f) && old_ != f && InScope(old_, scope)
    ensures Clash(Rename(t, old_, f), ToNameless(t, scope), at, f, to)
    decreases Size(t), 1
  {
    match t
    case Composite(_, parts) => CaptureClashesParts(parts, scope, at, old_, f, to);
    case Forall(ps, body) => CaptureClashesTelescope(ps, body, scope, at, old_, f, to);
  }

  lemma {:induction false} CaptureClashesParts(ts: List<Type>, scope: List<string>, at: nat, old_: string, f: string,
                                               to: map<string, Nameless>)
    requires CapturesParts(ts, old_, f) && old_ != f && InScope(old_, scope)
    ensures ClashParts(RenameParts(ts, old_, f), ToNamelessParts(ts, scope), at, f, to)
    decreases SizeParts(ts)
  {
    if Captures(ts.head, old_,
                f) { CaptureClashes(ts.head, scope, at, old_, f, to); } else { CaptureClashesParts(ts.tail, scope, at,
                    old_, f, to); }
  }

  lemma {:induction false} CaptureClashesTelescope(ps: List<Parameter>, body: Type, scope: List<string>, at: nat,
                                                   old_: string, f: string, to: map<string, Nameless>)
    requires CapturesTelescope(ps, body, old_, f) && old_ != f && InScope(old_, scope)
    ensures var (ps', body') := RenameTelescope(ps, body, old_, f);
            ClashTelescope(ps', body', ToNamelessTelescope(ps, body, scope), at, f, to)
    decreases SizeParameters(ps) + Size(body), 2
  {
    match ps
    case Nil => CaptureClashes(body, scope, at, old_, f, to);
    case Cons(p, rest) =>
      if CapturesKind(p.kind, old_, f) {
        KindUnfolds(p.kind);
        CaptureClashes(p.kind.value, scope, at, old_, f, to);
      } else if p.name == f {
        RenamedClashesTelescope(rest, body, Cons(p.name, scope), 0, old_, f, to);
      } else {
        CaptureClashesTelescope(rest, body, Cons(p.name, scope), Below(p.name, at, f), old_, f, to);
      }
  }

  /** The kinds and the body behind a repeated binder, all of which the loop renames. */
  lemma {:induction false} BehindClashes(ps: List<Parameter>, body: Type, scope: List<string>, at: nat, old_: string,
                                         f: string, to: map<string, Nameless>)
    requires old_ in FVKinds(ps) + FV(body) && old_ != f && f !in BinderNames(ps)
    requires InScope(old_, scope) && IndexOf(scope, old_) != at
    ensures ClashTelescope(RenameKinds(ps, old_, f), Rename(body, old_, f), ToNamelessTelescope(ps, body, scope), at, f,
                           to)
  {
    match ps
    case Nil => RenamedClashes(body, scope, at, old_, f, to);
    case Cons(p, rest) =>
      if old_ in FVKind(p.kind) {
        KindUnfolds(p.kind);
        RenamedClashes(p.kind.value, scope, at, old_, f, to);
      } else {
        BehindClashes(rest, body, Cons(p.name, scope), at + 1, old_, f, to);
      }
  }

  /** A binder that is not opened cleanly leaves a leaf that clashes. */
  lemma {:induction false} OpeningClashes(ps: List<Parameter>, body: Type, scope: List<string>, at: nat, old_: string,
                                          f: string, to: map<string, Nameless>)
    requires Generated(ps, body, old_, f) && !OpensCleanly(ps, body, old_, f)
    requires InScope(old_, scope) && IndexOf(scope, old_) <= at
    requires f in FVKinds(ps) ==> if InScope(f, scope) then IndexOf(scope, f) != at else f !in to
    ensures ClashTelescope(RenameKinds(ps, old_, f), Rename(body, old_, f), ToNamelessTelescope(ps, body, scope), at, f,
                           to)
  {
    match ps
    case Nil =>
    case Cons(p, rest) =>
      if f in FVKind(p.kind) {
        KindUnfolds(p.kind);
        MentionClashes(p.kind.value, scope, at, f, to);
        ClashRenamed(p.kind.value, ToNameless(p.kind.value, scope), at, f, to, old_, f);
      } else if CapturesKind(p.kind, old_, f) {
        KindUnfolds(p.kind);
        CaptureClashes(p.kind.value, scope, at, old_, f, to);
      } else if p.name == old_ && old_ in FVKinds(rest) + FV(body) {
        BehindClashes(rest, body, Cons(p.name, scope), at + 1, old_, f, to);
      } else {
        OpeningClashes(rest, body, Cons(p.name, scope), at + 1, old_, f, to);
      }
  }

  // ----- A clash stays -----

  /** A name the counter could still generate. */
  ghost predicate Upcoming(x: string, n: nat) {
    exists b: string, j: nat :: j >= n && x == Candidate(b, j)
  }

  /** The rest of the traversal neither replaces `f` nor renames a binder from it or to it. */
  ghost predicate Untouched(f: string, s: Substitution, n: nat) {
    f !in s && f !in ReplacementFree(s) && !Upcoming(f, n)
  }

  lemma {:induction false} UntouchedLater(f: string, s: Substitution, x: string, n: nat, m: nat)
    requires Untouched(f, s, n) && n <= m
    ensures Untouched(f, s, m) && Untouched(f, s - {x}, m)
  {
    assert FreeInValues(f, s - {x}) ==> FreeInValues(f, s);
  }

  lemma {:induction false} ClashStays(t: Type, d: Nameless, f: string, s: Substitution, n: nat, scope: List<string>,
                                      to: map<string, Nameless>)
    requires InScope(f, scope) && Clash(t, d, IndexOf(scope, f), f, to) && Untouched(f, s, n)
    ensures ToNameless(Substitute(t, s, n).0, scope) != Replace(d, to)
    decreases Size(t), 1
  {
    match t
    case Variable(_) =>
    case Composite(_, parts) => ClashStaysParts(parts, d.parts, f, s, n, scope, to);
    case Forall(ps, body) => ClashStaysTelescope(ps, body, d.telescope, f, s, ReplacementFree(s), s.Keys, {}, n, scope,
                                                 to);
  }

  lemma {:induction false} ClashStaysParts(ts: List<Type>, ds: List<Nameless>, f: string, s: Substitution, n: nat,
                                           scope: List<string>, to: map<string, Nameless>)
    requires InScope(f, scope) && ClashParts(ts, ds, IndexOf(scope, f), f, to) && Untouched(f, s, n)
    ensures ToNamelessParts(SubstituteParts(ts, s, n).0, scope) != ReplaceParts(ds, to)
    decreases SizeParts(ts)
  {
    if Clash(ts.head, ds.head, IndexOf(scope, f), f, to) {
      ClashStays(ts.head, ds.head, f, s, n, scope, to);
    } else {
      ClashStaysParts(ts.tail, ds.tail, f, s, Substitute(ts.head, s, n).1, scope, to);
    }
  }

  /** What the binders behind an opened one and the body become. */
  ghost function Inside(o: Opened, s: Substitution, free: set<string>, keys: set<string>, seen: set<string>, m: nat,
                        scope: List<string>): Nameless {
    var (ps', body', _) := SubstituteTelescope(o.rest, o.body, s, free, keys, seen, m);
    ToNamelessTelescope(ps', body', Cons(o.name, scope))
  }

  lemma {:induction false} BinderDiffers(p: Parameter, rest: List<Parameter>, body: Type, d: Nameless, s: Substitution,
                                         free: set<string>, keys: set<string>, seen: set<string>, n: nat,
                                         scope: List<string>, to: map<string, Nameless>)
    requires d.LBind?
    requires var o := OpenBinder(p, rest, body, free, keys, seen, n);
             var (kind, m) := SubstituteKind(p.kind, s, o.next);
             || (p.kind.Some? && d.kind.Some?
                 && ToNameless(Substitute(p.kind.value, s, o.next).0, scope) != Replace(d.kind.value, to))
             || Inside(o, s - {p.name}, free, keys, seen + {o.name}, m, scope) != Replace(d.rest, to)
    ensures var (ps', body', _) := SubstituteTelescope(Cons(p, rest), body, s, free, keys, seen, n);
            ToNamelessTelescope(ps', body', scope) != Replace(d, to)
  {
  }

  lemma {:induction false} ClashStaysTelescope(ps: List<Parameter>, body: Type, d: Nameless, f: string, s: Substitution,
                                               free: set<string>, keys: set<string>, seen: set<string>, n: nat,
                                               scope: List<string>, to: map<string, Nameless>)
    requires InScope(f, scope) && ClashTelescope(ps, body, d, IndexOf(scope, f), f, to)
    requires Untouched(f, s, n) && f !in free
    ensures var (ps', body', _) := SubstituteTelescope(ps, body, s, free, keys, seen, n);
            ToNamelessTelescope(ps', body', scope) != Replace(d, to)
    decreases SizeParameters(ps) + Size(body), 2
  {
    match ps
    case Nil => ClashStays(body, d.body, f, s, n, scope, to);
    case Cons(p, rest) =>
      var o := OpenBinder(p, rest, body, free, keys, seen, n);
      if ClashKind(p.kind, d.kind, IndexOf(scope, f), f, to) {
        KindUnfolds(p.kind);
        UntouchedLater(f, s, "", n, o.next);
        ClashStays(p.kind.value, d.kind.value, f, s, o.next, scope, to);
      } else {
        OpenedStays(p, rest, body, d.rest, f, free, keys, seen, n, scope, to);
        var m := SubstituteKind(p.kind, s, o.next).1;
        UntouchedLater(f, s, p.name, n, m);
        ClashStaysInside(o, d.rest, f, s - {p.name}, free, keys, seen + {o.name}, m, scope, to);
      }
      BinderDiffers(p, rest, body, d, s, free, keys, seen, n, scope, to);
  }

  lemma {:induction false} ClashStaysInside(o: Opened, d: Nameless, f: string, s: Substitution, free: set<string>,
                                            keys: set<string>, seen: set<string>, n: nat, scope: List<string>,
                                            to: map<string, Nameless>)
    requires InScope(f, Cons(o.name, scope))
             && ClashTelescope(o.rest, o.body, d, IndexOf(Cons(o.name, scope), f), f, to)
    requires Untouched(f, s, n) && f !in free
    ensures Inside(o, s, free, keys, seen, n, scope) != Replace(d, to)
    decreases SizeParameters(o.rest) + Size(o.body), 3
  {
    ClashStaysTelescope(o.rest, o.body, d, f, s, free, keys, seen, n, Cons(o.name, scope), to);
  }

  lemma {:induction false} OpenedStays(p: Parameter, rest: List<Parameter>, body: Type, d: Nameless, f: string,
                                       free: set<string>, keys: set<string>, seen: set<string>, n: nat,
                                       scope: List<string>, to: map<string, Nameless>)
    requires ClashTelescope(rest, body, d, Below(p.name, IndexOf(scope, f), f), f, to) && f !in free && !Upcoming(f, n)
    ensures var o := OpenBinder(p, rest, body, free, keys, seen, n);
            ClashTelescope(o.rest, o.body, d, IndexOf(Cons(o.name, scope), f), f, to)
  {
    var o := OpenBinder(p, rest, body, free, keys, seen, n);
    if p.name in free {
      assert Upcoming(o.name, n);
      ClashRenamedKinds(rest, body, d, Below(p.name, IndexOf(scope, f), f), f, to, p.name, o.name);
    }
  }
}
