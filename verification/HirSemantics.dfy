/** What expressions mean: a call-by-value evaluator with a trace of foreign calls.

    `fuel` bounds the nesting of calls. It is only spent on applying closures, unfolding global
    definitions and falling through to a later row of a case.
 */
module HirSemantics {
  import opened Lists
  import opened Hir

  datatype Tag =
    | ArrayTag
    | RecordTag(labels: seq<string>)
    | ConstructorTag(symbol: Symbol)
    | ForeignTag(symbol: Symbol)

  /** A closure keeps its binding group, so that it can call the functions of the group. */
  datatype Value =
    | Plain(literal: Literal)
    | Data(tag: Tag, parts: List<Value>)
    | Closure(group: List<Binding>, base: List<Entry>, parameter: Id, body: Expr)

  datatype Entry = Entry(id: Id, value: Value)

  type Env = List<Entry>

  datatype Event = Event(symbol: Symbol, argument: Option<Literal>)

  type Trace = seq<Event>

  /** `Fell` only describes a guarded right-hand side: every clause failed. */
  datatype Outcome = Finished(value: Value) | MatchFailure | Stuck | Fell | OutOfFuel

  datatype Result = Result(outcome: Outcome, trace: Trace)

  datatype Got<T> = Got(value: T, trace: Trace) | Lost(result: Result)

  /** `world` answers a foreign call from the calls made so far, this one included. */
  datatype Program = Program(
    definitions: map<Symbol, Expr>,
    foreign: set<Symbol>,
    booleans: map<Symbol, bool>,
    world: (Symbol, Trace) -> Literal)

  function Lookup(env: Env, x: Id): Option<Value> {
    match env
    case Nil => None
    case Cons(entry, rest) => if entry.id == x then Some(entry.value) else Lookup(rest, x)
  }

  // ----- Binding groups -----

  datatype Abstraction = Abstraction(parameter: Id, body: Expr)

  /** The function a binding defines, seen through type annotations and an unguarded clause. */
  function AsLambda(e: Expr): Option<Abstraction> {
    match e
    case Lambda(x, b) => Some(Abstraction(x, b))
    case Compound(form, parts) =>
      if (form.TypedForm? || form.TypeApplicationForm?) && parts.Cons?
          && parts.tail.Nil? then AsLambda(parts.head) else None
    case Guarded(cs) =>
      if cs.Cons? && cs.head.wheres.Nil? && cs.head.guards.Nil? then AsLambda(cs.head.value) else None
    case _ => None
  }

  function Functions(bs: List<Binding>, group: List<Binding>, base: Env): Env {
    match bs
    case Nil => base
    case Cons(b, rest) =>
      match AsLambda(b.value)
      case None => Functions(rest, group, base)
      case Some(f) => Cons(Entry(b.id, Closure(group, base, f.parameter, f.body)), Functions(rest, group, base))
  }

  /** The scope of a group: its functions, over the values bound so far. */
  function Scope(group: List<Binding>, base: Env): Env {
    Functions(group, group, base)
  }

  // ----- Data -----

  function FieldAt(labels: seq<string>, parts: List<Value>, name: string): Option<Value> {
    if labels == [] || parts.Nil? then None
    else if labels[0] == name then Some(parts.head)
    else FieldAt(labels[1..], parts.tail, name)
  }

  function FieldsAt(labels: seq<string>, parts: List<Value>, wanted: seq<string>): Option<List<Value>> {
    if wanted == [] then Some(Nil)
    else
      match (FieldAt(labels, parts, wanted[0]), FieldsAt(labels, parts, wanted[1..]))
      case (Some(v), Some(vs)) => Some(Cons(v, vs))
      case _ => None
  }

  function WithField(labels: seq<string>, parts: List<Value>, name: string, v: Value): List<Value> {
    if labels == [] || parts.Nil? then parts
    else if labels[0] == name then Cons(v, parts.tail)
    else Cons(parts.head, WithField(labels[1..], parts.tail, name, v))
  }

  function WithFields(labels: seq<string>, parts: List<Value>, changed: seq<string>, vs: List<Value>): List<Value>
    decreases |changed|
  {
    if changed == [] || vs.Nil? then parts
    else WithFields(labels, WithField(labels, parts, changed[0], vs.head), changed[1..], vs.tail)
  }

  /** What a compound expression makes of its evaluated parts. */
  function Combine(form: Form, vs: List<Value>): Option<Value> {
    match form
    case ArrayForm => Some(Data(ArrayTag, vs))
    case RecordForm(labels) => Some(Data(RecordTag(labels), vs))
    case ProductForm(labels) => Some(Data(RecordTag(labels), vs))
    case UpdateForm(labels) =>
      if vs.Cons? && vs.head.Data? && vs.head.tag.RecordTag?
      then Some(Data(vs.head.tag, WithFields(vs.head.tag.labels, vs.head.parts, labels, vs.tail)))
      else None
    case FieldForm(name) =>
      if vs.Cons? && vs.head.Data?
          && vs.head.tag.RecordTag? then FieldAt(vs.head.tag.labels, vs.head.parts, name) else None
    case _ => if vs.Cons? then Some(vs.head) else None
  }

  // ----- Pattern matching -----

  /** The parts of a value that the parts of a pattern are matched against. */
  function Fields(shape: Shape, v: Value): Option<List<Value>> {
    match shape
    case ConstructorShape(s) => if v.Data? && v.tag == ConstructorTag(s) then Some(v.parts) else None
    case RecordShape(labels, exact) =>
      if v.Data? && v.tag.RecordTag? && (exact ==> |v.tag.labels| == |labels|)
      then FieldsAt(v.tag.labels, v.parts, labels)
      else None
    case ArrayShape => if v.Data? && v.tag.ArrayTag? then Some(v.parts) else None
    case TypedShape(_) => Some(Cons(v, Nil))
    case LiteralShape(l) => if v == Plain(l) then Some(Nil) else None
  }

  function Matched(p: Pattern, v: Value, env: Env): Option<Env>
    decreases p
  {
    match p
    case Wildcard => Some(env)
    case Bind(x) => Some(Cons(Entry(x, v), env))
    case Named(x, q) => Matched(q, v, Cons(Entry(x, v), env))
    case Shaped(shape, parts) =>
      match Fields(shape, v)
      case None => None
      case Some(vs) => MatchedAll(parts, vs, env)
  }

  function MatchedAll(ps: List<Pattern>, vs: List<Value>, env: Env): Option<Env>
    decreases ps
  {
    match ps
    case Nil => if vs.Nil? then Some(env) else None
    case Cons(p, rest) =>
      if vs.Nil? then None
      else
        match Matched(p, vs.head, env)
        case None => None
        case Some(env') => MatchedAll(rest, vs.tail, env')
  }

  // ----- Evaluation -----

  function EvalGlobal(p: Program, fuel: nat, s: Symbol, t: Trace): Result
    decreases fuel, 0, 0
  {
    if s in p.definitions then
      if fuel == 0 then Result(OutOfFuel, t) else Eval(p, fuel - 1, Nil, p.definitions[s], t)
    else if s in p.foreign then Result(Finished(Data(ForeignTag(s), Nil)), t)
    else if s in p.booleans then Result(Finished(Plain(Boolean(p.booleans[s]))), t)
    else Result(Finished(Data(ConstructorTag(s), Nil)), t)
  }

  function Call(p: Program, fuel: nat, f: Value, a: Value, t: Trace): Result
    decreases fuel, 0, 0
  {
    match f
    case Closure(group, base, x, b) =>
      if fuel == 0 then Result(OutOfFuel, t) else Eval(p, fuel - 1, Cons(Entry(x, a), Scope(group, base)), b, t)
    case Data(tag, parts) =>
      if tag.ConstructorTag? then Result(Finished(Data(tag, Append(parts, Cons(a, Nil)))), t)
      else if tag.ForeignTag? then
        var t' := t + [Event(tag.symbol, if a.Plain? then Some(a.literal) else None)];
        Result(Finished(Plain(p.world(tag.symbol, t'))), t')
      else Result(Stuck, t)
    case Plain(_) => Result(Stuck, t)
  }

  /** Evaluates the argument of an evaluated function, then calls it. */
  function EvalCall(p: Program, fuel: nat, env: Env, f: Result, a: Expr): Result
    decreases fuel, Size(a), 2
  {
    if !f.outcome.Finished? then f
    else
      var v := Eval(p, fuel, env, a, f.trace);
      if !v.outcome.Finished? then v else Call(p, fuel, f.outcome.value, v.outcome.value, v.trace)
  }

  function Eval(p: Program, fuel: nat, env: Env, e: Expr, t: Trace): Result
    decreases fuel, Size(e), 1
  {
    match e
    case Local(x) =>
      (match Lookup(env, x)
       case None => Result(Stuck, t)
       case Some(v) => Result(Finished(v), t))
    case Global(s) => EvalGlobal(p, fuel, s, t)
    case Constant(l) => Result(Finished(Plain(l)), t)
    case Compound(form, parts) =>
      (match EvalParts(p, fuel, env, parts, t)
       case Lost(r) => r
       case Got(vs, t') =>
         match Combine(form, vs)
         case None => Result(Stuck, t')
         case Some(v) => Result(Finished(v), t'))
    case Apply(f, a) => EvalCall(p, fuel, env, Eval(p, fuel, env, f, t), a)
    case Operator(s, l, r) => EvalCall(p, fuel, env, EvalCall(p, fuel, env, EvalGlobal(p, fuel, s, t), l), r)
    case Negate(f, a) => EvalCall(p, fuel, env, Eval(p, fuel, env, f, t), a)
    case Lambda(x, b) => Result(Finished(Closure(Nil, env, x, b)), t)
    case Let(bs, b) =>
      (match EvalBindings(p, fuel, bs, bs, env, t)
       case Lost(r) => r
       case Got(base, t') => Eval(p, fuel, Scope(bs, base), b, t'))
    case If(c, consequent, alternative) =>
      var r := Eval(p, fuel, env, c, t);
      if !r.outcome.Finished? then r
      else if r.outcome.value == Plain(Boolean(true)) then Eval(p, fuel, env, consequent, r.trace)
      else if r.outcome.value == Plain(Boolean(false)) then Eval(p, fuel, env, alternative, r.trace)
      else Result(Stuck, r.trace)
    case Case(s, rows) =>
      var r := Eval(p, fuel, env, s, t);
      if !r.outcome.Finished? then r else EvalRows(p, fuel, env, r.outcome.value, rows, r.trace)
    case Guarded(cs) =>
      var r := EvalClauses(p, fuel, env, cs, t);
      if r.outcome.Fell? then Result(MatchFailure, r.trace) else r
  }

  function EvalParts(p: Program, fuel: nat, env: Env, es: List<Expr>, t: Trace): Got<List<Value>>
    decreases fuel, SizeParts(es), 0
  {
    match es
    case Nil => Got(Nil, t)
    case Cons(e, rest) =>
      var r := Eval(p, fuel, env, e, t);
      if !r.outcome.Finished? then Lost(r)
      else
        match EvalParts(p, fuel, env, rest, r.trace)
        case Lost(lost) => Lost(lost)
        case Got(vs, t') => Got(Cons(r.outcome.value, vs), t')
  }

  /** Adds the values of the group that are not functions, in order. */
  function EvalBindings(p: Program, fuel: nat, bs: List<Binding>, group: List<Binding>, base: Env, t: Trace): Got<Env>
    decreases fuel, SizeBindings(bs), 0
  {
    match bs
    case Nil => Got(base, t)
    case Cons(b, rest) =>
      if AsLambda(b.value).Some? then EvalBindings(p, fuel, rest, group, base, t)
      else
        var r := Eval(p, fuel, Scope(group, base), b.value, t);
        if !r.outcome.Finished? then Lost(r)
        else EvalBindings(p, fuel, rest, group, Cons(Entry(b.id, r.outcome.value), base), r.trace)
  }

  /** The first row whose pattern matches and whose guards, if any, do not all fail. */
  function EvalRows(p: Program, fuel: nat, env: Env, v: Value, rows: List<Row>, t: Trace): Result
    decreases fuel, SizeRows(rows), 0
  {
    match rows
    case Nil => Result(MatchFailure, t)
    case Cons(row, rest) =>
      match Matched(row.pattern, v, env)
      case None => EvalRows(p, fuel, env, v, rest, t)
      case Some(env') =>
        var r := EvalRhs(p, fuel, env', row.value, t);
        if r.outcome.Fell? then EvalFallen(p, fuel, env, v, rest, r.trace) else r
  }

  /** The remaining rows, once the guards of an earlier one have failed. */
  function EvalFallen(p: Program, fuel: nat, env: Env, v: Value, rows: List<Row>, t: Trace): Result
    decreases fuel, SizeRows(rows), 0
  {
    if fuel == 0 then Result(OutOfFuel, t)
    else
      match rows
      case Nil => Result(MatchFailure, t)
      case Cons(row, rest) =>
        match Matched(row.pattern, v, env)
        case None => EvalFallen(p, fuel - 1, env, v, rest, t)
        case Some(env') =>
          var r := EvalRhs(p, fuel - 1, env', row.value, t);
          if r.outcome.Fell? then EvalFallen(p, fuel - 1, env, v, rest, r.trace) else r
  }

  function EvalRhs(p: Program, fuel: nat, env: Env, e: Expr, t: Trace): Result
    decreases fuel, Size(e), 2
  {
    match e
    case Guarded(cs) => EvalClauses(p, fuel, env, cs, t)
    case Let(bs, b) =>
      (match EvalBindings(p, fuel, bs, bs, env, t)
       case Lost(r) => r
       case Got(base, t') => EvalRhs(p, fuel, Scope(bs, base), b, t'))
    case _ => Eval(p, fuel, env, e, t)
  }

  function EvalClauses(p: Program, fuel: nat, env: Env, cs: List<Clause>, t: Trace): Result
    decreases fuel, SizeClauses(cs), 0
  {
    match cs
    case Nil => Result(Fell, t)
    case Cons(c, rest) =>
      match EvalBindings(p, fuel, c.wheres, c.wheres, env, t)
      case Lost(r) => r
      case Got(base, t') =>
        var r := EvalGuards(p, fuel, Scope(c.wheres, base), c.guards, c.value, t');
        if r.outcome.Fell? then EvalClauses(p, fuel, env, rest, r.trace) else r
  }

  function EvalGuards(p: Program, fuel: nat, env: Env, gs: List<Guard>, value: Expr, t: Trace): Result
    decreases fuel, SizeGuards(gs) + Size(value), 2
  {
    match gs
    case Nil => Eval(p, fuel, env, value, t)
    case Cons(g, rest) =>
      assert SizeGuards(gs) == 1 + SizeGuard(g) + SizeGuards(rest);
      match g
      case Test(c) =>
        var r := Eval(p, fuel, env, c, t);
        if !r.outcome.Finished? then r
        else if r.outcome.value == Plain(Boolean(true)) then EvalGuards(p, fuel, env, rest, value, r.trace)
        else if r.outcome.value == Plain(Boolean(false)) then Result(Fell, r.trace)
        else Result(Stuck, r.trace)
      case Match(q, e) =>
        var r := Eval(p, fuel, env, e, t);
        if !r.outcome.Finished? then r
        else
          (match Matched(q, r.outcome.value, env)
           case None => Result(Fell, r.trace)
           case Some(env') => EvalGuards(p, fuel, env', rest, value, r.trace))
      case Bindings(bs) =>
        match EvalBindings(p, fuel, bs, bs, env, t)
        case Lost(r) => r
        case Got(base, t') => EvalGuards(p, fuel, Scope(bs, base), rest, value, t')
  }
}
