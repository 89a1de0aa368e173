/** Resolved types and capture-avoiding substitution (crates/psrs-hir/src/substitution.rs).
 */
module TypeSubstitution {
  import opened Lists

  /** What a composite type is, apart from its parts: application, operator chain, function,
      constrained type, row, record or kind ascription, with the data that substitution copies. */
  datatype Tag = Tag(form: nat, data: string)

  datatype Type =
    | Variable(name: string)
    | Atom(tag: Tag)
    | Composite(tag: Tag, parts: List<Type>)
    | Forall(variables: List<Parameter>, body: Type)

  datatype Parameter = Parameter(name: string, kind: Option<Type>, visible: bool)

  type Substitution = map<string, Type>

  // ----- Sizes, for termination -----

  function Size(t: Type): nat {
    match t
    case Composite(_, parts) => 1 + SizeParts(parts)
    case Forall(ps, body) => 1 + SizeParameters(ps) + Size(body)
    case _ => 0
  }

  function SizeParts(ts: List<Type>): nat {
    match ts
    case Nil => 0
    case Cons(t, rest) => 1 + Size(t) + SizeParts(rest)
  }

  function SizeParameters(ps: List<Parameter>): nat {
    match ps
    case Nil => 0
    case Cons(p, rest) => 1 + SizeKind(p.kind) + SizeParameters(rest)
  }

  function SizeKind(k: Option<Type>): nat {
    match k
    case None => 0
    case Some(t) => 1 + Size(t)
  }

  // ----- Free variables and mentioned names -----

  /** Free variables; each binder scopes over the later kinds and the body. */
  function FV(t: Type): set<string>
    decreases Size(t), 1
  {
    match t
    case Variable(x) => {x}
    case Atom(_) => {}
    case Composite(_, parts) => FVParts(parts)
    case Forall(ps, body) => FVTelescope(ps, body)
  }

  function FVParts(ts: List<Type>): set<string>
    decreases SizeParts(ts)
  {
    match ts
    case Nil => {}
    case Cons(t, rest) => FV(t) + FVParts(rest)
  }

  function FVKind(k: Option<Type>): set<string>
    decreases SizeKind(k)
  {
    match k
    case None => {}
    case Some(t) => FV(t)
  }

  function FVTelescope(ps: List<Parameter>, body: Type): set<string>
    decreases SizeParameters(ps) + Size(body), 2
  {
    match ps
    case Nil => FV(body)
    case Cons(p, rest) => FVKind(p.kind) + (FVTelescope(rest, body) - {p.name})
  }

  function BinderNames(ps: List<Parameter>): set<string> {
    match ps
    case Nil => {}
    case Cons(p, rest) => {p.name} + BinderNames(rest)
  }

  /** Every name mentioned, free or bound (`all_variable_names`). */
  function Names(t: Type): set<string>
    decreases Size(t)
  {
    match t
    case Variable(x) => {x}
    case Atom(_) => {}
    case Composite(_, parts) => NamesParts(parts)
    case Forall(ps, body) => NamesParameters(ps) + Names(body)
  }

  function NamesParts(ts: List<Type>): set<string>
    decreases SizeParts(ts)
  {
    match ts
    case Nil => {}
    case Cons(t, rest) => Names(t) + NamesParts(rest)
  }

  function NamesKind(k: Option<Type>): set<string>
    decreases SizeKind(k)
  {
    match k
    case None => {}
    case Some(t) => Names(t)
  }

  function NamesParameters(ps: List<Parameter>): set<string>
    decreases SizeParameters(ps)
  {
    match ps
    case Nil => {}
    case Cons(p, rest) => {p.name} + NamesKind(p.kind) + NamesParameters(rest)
  }

  // ----- Renaming a bound variable -----

  /** Renames free occurrences; a binder of the old name shadows the later kinds and the body. */
  function Rename(t: Type, old_: string, new_: string): (r: Type)
    ensures Size(r) == Size(t)
    decreases Size(t), 1
  {
    match t
    case Variable(x) => if x == old_ then Variable(new_) else t
    case Atom(_) => t
    case Composite(tag, parts) => Composite(tag, RenameParts(parts, old_, new_))
    case Forall(ps, body) =>
      var (ps', body') := RenameTelescope(ps, body, old_, new_);
      Forall(ps', body')
  }

  function RenameParts(ts: List<Type>, old_: string, new_: string): (r: List<Type>)
    ensures SizeParts(r) == SizeParts(ts)
    decreases SizeParts(ts)
  {
    match ts
    case Nil => Nil
    case Cons(t, rest) => Cons(Rename(t, old_, new_), RenameParts(rest, old_, new_))
  }

  function RenameKind(k: Option<Type>, old_: string, new_: string): (r: Option<Type>)
    ensures SizeKind(r) == SizeKind(k)
    decreases SizeKind(k)
  {
    match k
    case None => None
    case Some(t) => Some(Rename(t, old_, new_))
  }

  function RenameTelescope(ps: List<Parameter>, body: Type, old_: string, new_: string): (r: (List<Parameter>, Type))
    ensures SizeParameters(r.0) == SizeParameters(ps) && Size(r.1) == Size(body)
    decreases SizeParameters(ps) + Size(body), 2
  {
    match ps
    case Nil => (Nil, Rename(body, old_, new_))
    case Cons(p, rest) =>
      var p' := p.(kind := RenameKind(p.kind, old_, new_));
      if p.name == old_ then (Cons(p', rest), body)
      else
        var (rest', body') := RenameTelescope(rest, body, old_, new_);
        (Cons(p', rest'), body')
  }

  /** The substitution loop renames every later kind, without a shadowing check. */
  function RenameKinds(ps: List<Parameter>, old_: string, new_: string): (r: List<Parameter>)
    ensures SizeParameters(r) == SizeParameters(ps) && BinderNames(r) == BinderNames(ps)
  {
    match ps
    case Nil => Nil
    case Cons(p, rest) => Cons(p.(kind := RenameKind(p.kind, old_, new_)), RenameKinds(rest, old_, new_))
  }

  // ----- Generated names -----

  function Digit(d: nat): char
    requires d < 10
  {
    "0123456789"[d]
  }

  function Decimal(n: nat): (s: string)
    ensures |s| > 0 && '_' !in s
  {
    if n < 10 then [Digit(n)] else Decimal(n / 10) + [Digit(n % 10)]
  }

  function Candidate(base: string, n: nat): string {
    "__psrs_type_subst_" + base + "_" + Decimal(n)
  }

  lemma {:induction false} DecimalInjective(m: nat, n: nat)
    requires Decimal(m) == Decimal(n)
    ensures m == n
  {
    var s := Decimal(m);
    assert m >= 10 ==> s[..|s| - 1] == Decimal(m / 10) && s[|s| - 1] == Digit(m % 10);
    assert n >= 10 ==> s[..|s| - 1] == Decimal(n / 10) && s[|s| - 1] == Digit(n % 10);
    if m >= 10 && n >= 10 {
      DecimalInjective(m / 10, n / 10);
    }
  }

  /** The counter is readable off a generated name, whatever the base. */
  lemma {:induction false} CandidateInjective(b: string, m: nat, c: string, n: nat)
    requires Candidate(b, m) == Candidate(c, n)
    ensures m == n
  {
    var s, p, q := Candidate(b, m), Decimal(m), Decimal(n);
    assert s[|s| - |p|..] == p && s[|s| - |q|..] == q;
    assert s[|s| - |p| - 1] == '_' && s[|s| - |q| - 1] == '_';
    DecimalInjective(m, n);
  }

  ghost function Ahead(excluded: set<string>, base: string, n: nat): set<string> {
    set c | c in excluded && exists j: nat :: j >= n && c == Candidate(base, j)
  }

  lemma {:induction false} AheadShrinks(excluded: set<string>, base: string, n: nat)
    requires Candidate(base, n) in excluded
    ensures |Ahead(excluded, base, n + 1)| < |Ahead(excluded, base, n)|
  {
    var c := Candidate(base, n);
    if c in Ahead(excluded, base, n + 1) {
      var j: nat :| j >= n + 1 && c == Candidate(base, j);
      CandidateInjective(base, n, base, j);
    }
    assert c in Ahead(excluded, base, n);
    var small, large := Ahead(excluded, base, n + 1), Ahead(excluded, base, n);
    assert small <= large - {c};
    SubsetSize(small, large - {c});
  }

  lemma {:induction false} SubsetSize(a: set<string>, b: set<string>)
    requires a <= b
    ensures |a| <= |b|
  {
    assert b == a + (b - a);
  }

  /** The first candidate from counter `n` on that is not excluded, and the counter after it. */
  function FreshName(base: string, excluded: set<string>, n: nat): (r: (string, nat))
    ensures r.0 !in excluded && r.1 > n && r.0 == Candidate(base, r.1 - 1)
    decreases |Ahead(excluded, base, n)|
  {
    if Candidate(base, n) in excluded then
      AheadShrinks(excluded, base, n);
      FreshName(base, excluded, n + 1)
    else (Candidate(base, n), n + 1)
  }

  // ----- Substitution -----

  ghost predicate FreeInValues(x: string, s: Substitution) {
    exists y :: y in s && x in FV(s[y])
  }

  /** The free variables of all replacements. */
  function ReplacementFree(s: Substitution): (r: set<string>)
    ensures forall x :: x in r <==> FreeInValues(x, s)
  {
    set y, x | y in s && x in FV(s[y]) :: x
  }

  function Substitute(t: Type, s: Substitution, n: nat): (r: (Type, nat))
    ensures r.1 >= n
    decreases Size(t), 1
  {
    match t
    case Variable(x) => (if x in s then s[x] else t, n)
    case Atom(_) => (t, n)
    case Composite(tag, parts) =>
      var (parts', n') := SubstituteParts(parts, s, n);
      (Composite(tag, parts'), n')
    case Forall(ps, body) =>
      var (ps', body', n') := SubstituteTelescope(ps, body, s, ReplacementFree(s), s.Keys, {}, n);
      (Forall(ps', body'), n')
  }

  function SubstituteParts(ts: List<Type>, s: Substitution, n: nat): (r: (List<Type>, nat))
    ensures r.1 >= n
    decreases SizeParts(ts)
  {
    match ts
    case Nil => (Nil, n)
    case Cons(t, rest) =>
      var (t', n') := Substitute(t, s, n);
      var (rest', n'') := SubstituteParts(rest, s, n');
      (Cons(t', rest'), n'')
  }

  function SubstituteKind(k: Option<Type>, s: Substitution, n: nat): (r: (Option<Type>, nat))
    ensures r.1 >= n
    decreases SizeKind(k)
  {
    match k
    case None => (None, n)
    case Some(t) =>
      var (t', n') := Substitute(t, s, n);
      (Some(t'), n')
  }

  /** One binder of a quantifier: its new name, the later binders and the body after renaming. */
  datatype Opened = Opened(name: string, rest: List<Parameter>, body: Type, next: nat)

  function OpenBinder(p: Parameter, rest: List<Parameter>, body: Type, free: set<string>, keys: set<string>,
                      seen: set<string>, n: nat): (o: Opened)
    ensures SizeParameters(o.rest) == SizeParameters(rest) && Size(o.body) == Size(body) && o.next >= n
  {
    if p.name in free then
      var (fresh_, n') := FreshName(p.name, free + keys + Names(body) + seen + {p.name} + BinderNames(rest), n);
      Opened(fresh_, RenameKinds(rest, p.name, fresh_), Rename(body, p.name, fresh_), n')
    else Opened(p.name, rest, body, n)
  }

  /** The binder loop. `free` and `keys` belong to the substitution that entered the quantifier,
      `s` is what is still in scope, and `seen` holds the names of the binders already done. */
  function SubstituteTelescope(ps: List<Parameter>, body: Type, s: Substitution, free: set<string>, keys: set<string>,
                               seen: set<string>, n: nat)
    : (r: (List<Parameter>, Type, nat))
    ensures r.2 >= n
    decreases SizeParameters(ps) + Size(body), 2
  {
    match ps
    case Nil =>
      var (body', n') := Substitute(body, s, n);
      (Nil, body', n')
    case Cons(p, rest) =>
      var o := OpenBinder(p, rest, body, free, keys, seen, n);
      var (kind', n1) := SubstituteKind(p.kind, s, o.next);
      var (rest', body', n2) := SubstituteTelescope(o.rest, o.body, s - {p.name}, free, keys, seen + {o.name}, n1);
      (Cons(Parameter(o.name, kind', p.visible), rest'), body', n2)
  }
}
