/** Plans that erase a value to the uniform payload reference and recover it again
    (crates/psrs-backend/src/cc/payload.rs, convert.rs).
 */
module PayloadPlans {
  import opened Lists

  type ReprId = nat
  type SignatureId = nat

  datatype Heap = Repr(id: ReprId) | AnyAggregate | Erased | Exception | Closure(signature: SignatureId)

  datatype Shape = Integer | Boolean | Number | Text | Reference(nullable: bool, heap: Heap)

  const ERASED: Shape := Reference(false, Heap.Erased)

  datatype Representation =
    | Box(value: Shape)
    | Product(fields: List<Shape>)
    | Variant(cases: nat)
    | Array(element: Shape)

  /** `labels` are the canonical labels of record products; `storage` is the labelled record store. */
  datatype Table = Table(representations: seq<Representation>, labels: map<ReprId, List<string>>,
                         storage: Option<ReprId>)

  datatype BoxKind = IntegerBox | NumberBox

  datatype Plan =
    | Identity
    | BoxScalar(kind: BoxKind, repr: ReprId)
    | UnboxScalar(kind: BoxKind, repr: ReprId, destination: Shape)
    | EraseReference
    | RecoverReference(destination: Shape)
    | FunctionAdapter(function_: nat, source: Shape, destination: Shape)
    | Sequence(steps: List<Plan>)
    | ArrayMap(from: ReprId, to: ReprId, element: Plan)
    | ProductMap(from: ReprId, to: ReprId, labels: List<string>, fields: List<Plan>)
    | RecordPack(from: ReprId, to: ReprId, labels: List<string>, fields: List<Plan>)
    | RecordUnpack(from: ReprId, to: ReprId, labels: List<string>, fields: List<Plan>)

  /** What a planner leaves open: its box representations and how callables are converted. */
  datatype Planner = Planner(box: BoxKind -> Option<ReprId>, callable: (SignatureId, bool) -> Option<Plan>)

  function Lookup(t: Table, id: ReprId): Option<Representation> {
    if id < |t.representations| then Some(t.representations[id]) else None
  }

  function ArrayProtocolFrom(rs: seq<Representation>, i: nat): (r: Option<ReprId>)
    requires i <= |rs|
    ensures r.Some? ==> i <= r.value < |rs| && rs[r.value] == Array(ERASED)
    ensures forall j :: i <= j < (if r.Some? then r.value else |rs|) ==> rs[j] != Array(ERASED)
    decreases |rs| - i
  {
    if i == |rs| then None else if rs[i] == Array(ERASED) then Some(i) else ArrayProtocolFrom(rs, i + 1)
  }

  /** The array representation that stores erased elements. */
  function ArrayProtocol(t: Table): (r: Option<ReprId>)
    ensures r.Some? ==> Lookup(t, r.value) == Some(Array(ERASED))
    ensures r.Some? ==> forall j :: 0 <= j < r.value ==> t.representations[j] != Array(ERASED)
  {
    ArrayProtocolFrom(t.representations, 0)
  }

  predicate IsArray(t: Table, shape: Shape) {
    shape.Reference? && shape.heap.Repr? && Lookup(t, shape.heap.id).Some? && Lookup(t, shape.heap.id).value.Array?
  }

  predicate IsRecord(t: Table, shape: Shape) {
    shape.Reference? && shape.heap.Repr? && shape.heap.id in t.labels
  }

  // ----- Tables without a cycle through arrays and records -----

  function Rank(ranks: seq<nat>, shape: Shape): nat {
    if shape.Reference? && shape.heap.Repr? && shape.heap.id < |ranks| then ranks[shape.heap.id] + 1 else 0
  }

  predicate AllRanked(ranks: seq<nat>, fields: List<Shape>, bound: nat) {
    match fields
    case Nil => true
    case Cons(f, rest) => Rank(ranks, f) <= bound && AllRanked(ranks, rest, bound)
  }

  /** Elements and labelled fields rank below the representation they belong to. */
  predicate Ranked(t: Table, ranks: seq<nat>) {
    && |ranks| == |t.representations|
    && forall id :: 0 <= id < |ranks| ==>
         match t.representations[id]
         case Array(element) => Rank(ranks, element) <= ranks[id]
         case Product(fields) => id in t.labels ==> AllRanked(ranks, fields, ranks[id])
         case _ => true
  }

  predicate RankedAt(t: Table, ranks: seq<nat>, id: ReprId)
    requires id < |ranks| == |t.representations|
  {
    match t.representations[id]
    case Array(element) => Rank(ranks, element) <= ranks[id]
    case Product(fields) => id in t.labels ==> AllRanked(ranks, fields, ranks[id])
    case _ => true
  }

  predicate Inside(shape: Shape, ids: set<ReprId>) {
    shape.Reference? && shape.heap.Repr? && shape.heap.id in ids
  }

  predicate AnyInside(fields: List<Shape>, ids: set<ReprId>) {
    match fields
    case Nil => false
    case Cons(f, rest) => Inside(f, ids) || AnyInside(rest, ids)
  }

  /** The element or a labelled field of a representation is one of `ids`. */
  predicate PartInside(t: Table, id: ReprId, ids: set<ReprId>) {
    match Lookup(t, id)
    case Some(Array(element)) => Inside(element, ids)
    case Some(Product(fields)) => id in t.labels && AnyInside(fields, ids)
    case _ => false
  }

  /** No cycle through arrays and records: going from parts to parts leads out of every set. */
  ghost predicate NoCycle(t: Table) {
    forall ids: set<ReprId> :: Closed(t, ids) ==> ids == {}
  }

  predicate Closed(t: Table, ids: set<ReprId>) {
    forall id <- ids :: PartInside(t, id, ids)
  }

  lemma {:induction false} InsideRanked(fields: List<Shape>, ids: set<ReprId>, ranks: seq<nat>, bound: nat)
    requires AnyInside(fields, ids) && AllRanked(ranks, fields, bound) && forall id <- ids :: id < |ranks|
    ensures exists id <- ids :: ranks[id] < bound
  {
    if Inside(fields.head,
              ids) { assert ranks[fields.head.heap.id] < bound; } else { InsideRanked(fields.tail, ids, ranks, bound); }
  }

  lemma {:induction false} Smaller(t: Table, ranks: seq<nat>, ids: set<ReprId>, id: ReprId)
    requires Ranked(t, ranks) && Closed(t, ids) && id in ids
    ensures false
    decreases if id < |ranks| then ranks[id] else 0
  {
    assert PartInside(t, id, ids);
    forall x | x in ids ensures x < |ranks| { assert PartInside(t, x, ids); }
    assert RankedAt(t, ranks, id);
    if t.representations[id].Array? {
      Smaller(t, ranks, ids, t.representations[id].element.heap.id);
    } else {
      InsideRanked(t.representations[id].fields, ids, ranks, ranks[id]);
      var y :| y in ids && ranks[y] < ranks[id];
      Smaller(t, ranks, ids, y);
    }
  }

  lemma {:induction false} OutsideRanked(fields: List<Shape>, ids: set<ReprId>, ranks: seq<nat>, bound: nat)
    requires !AnyInside(fields, ids) && forall id :: 0 <= id < |ranks| && id !in ids ==> ranks[id] < bound
    ensures AllRanked(ranks, fields, bound)
  {
    if fields.Cons? { OutsideRanked(fields.tail, ids, ranks, bound); }
  }

  lemma {:induction false} OutsideKept(fields: List<Shape>, ids: set<ReprId>, ranks: seq<nat>, x: ReprId, level: nat,
                                       bound: nat)
    requires AllRanked(ranks, fields, bound) && !AnyInside(fields, ids) && x in ids && x < |ranks|
    ensures AllRanked(ranks[x := level], fields, bound)
  {
    if fields.Cons? { OutsideKept(fields.tail, ids, ranks, x, level, bound); }
  }

  lemma {:induction false} FewerInside(fields: List<Shape>, ids: set<ReprId>, fewer: set<ReprId>)
    requires !AnyInside(fields, ids) && fewer <= ids
    ensures !AnyInside(fields, fewer)
  {
    if fields.Cons? { FewerInside(fields.tail, ids, fewer); }
  }

  /** Outside of `left` the ranks are settled, and lie below `level`. */
  ghost predicate Settled(t: Table, ranks: seq<nat>, left: set<ReprId>, level: nat) {
    && |ranks| == |t.representations|
    && (forall id <- left :: id < |ranks|)
    && forall id :: 0 <= id < |ranks| && id !in left ==>
         ranks[id] < level && RankedAt(t, ranks, id) && !PartInside(t, id, left)
  }

  lemma {:induction false} SettleOne(t: Table, ranks: seq<nat>, left: set<ReprId>, level: nat, x: ReprId)
    requires Settled(t, ranks, left, level) && x in left && !PartInside(t, x, left)
    ensures Settled(t, ranks[x := level], left - {x}, level + 1)
  {
    var more, fewer := ranks[x := level], left - {x};
    forall id | 0 <= id < |more| && id !in fewer ensures RankedAt(t, more, id) && !PartInside(t, id, fewer) {
      match t.representations[id]
      case Product(fields) =>
        if id in t.labels {
          if id == x {
            OutsideRanked(fields, left, ranks, level);
          }
          OutsideKept(fields, left, ranks, x, level, more[id]);
          FewerInside(fields, left, fewer);
        }
      case _ =>
    }
  }

  lemma {:induction false} SettleAll(t: Table, ranks: seq<nat>, left: set<ReprId>, level: nat)
    requires NoCycle(t) && Settled(t, ranks, left, level)
    ensures exists settled: seq<nat> :: Ranked(t, settled)
    decreases left
  {
    if left == {} {
      assert forall id :: 0 <= id < |ranks| ==> RankedAt(t, ranks, id);
      assert Ranked(t, ranks);
    } else {
      assert !Closed(t, left);
      var x :| x in left && !PartInside(t, x, left);
      SettleOne(t, ranks, left, level, x);
      SettleAll(t, ranks[x := level], left - {x}, level + 1);
    }
  }

  function Ids(n: nat): (r: set<ReprId>)
    ensures forall id: nat :: id in r <==> id < n
  {
    if n == 0 then {} else Ids(n - 1) + {n - 1}
  }

  /** A ranking exists exactly for the tables without such a cycle. */
  lemma {:induction false} RankedIffNoCycle(t: Table)
    ensures (exists ranks: seq<nat> :: Ranked(t, ranks)) <==> NoCycle(t)
  {
    if ranks: seq<nat> :| Ranked(t, ranks) {
      forall ids: set<ReprId> | Closed(t, ids) ensures ids == {} {
        if ids != {} {
          var id :| id in ids;
          Smaller(t, ranks, ids, id);
        }
      }
    }
    if NoCycle(t) {
      var n := |t.representations|;
      SettleAll(t, seq(n, _ => 0), Ids(n), 0);
    }
  }

  // ----- Planning -----

  function Steps(a: Plan, b: Plan): Plan {
    Sequence(Cons(a, Cons(b, Nil)))
  }

  function StoredAs(id: ReprId): Shape {
    Reference(false, Repr(id))
  }

  function BoxKindOf(shape: Shape): BoxKind {
    if shape.Number? then NumberBox else IntegerBox
  }

  /** `erase_payload` when `entering`, else `recover_payload`. */
  function Convert(t: Table, p: Planner, ghost ranks: seq<nat>, shape: Shape, entering: bool): Option<Plan>
    requires Ranked(t, ranks)
    decreases Rank(ranks, shape), 1
  {
    if shape == ERASED then Some(Identity)
    else if IsArray(t, shape) then ConvertArray(t, p, ranks, shape, entering)
    else if IsRecord(t, shape) then ConvertRecord(t, p, ranks, shape, entering)
    else if shape.Reference? && shape.heap.Closure? then
      match p.callable(shape.heap.signature, entering)
      case None => None
      case Some(adapter) => Some(if entering then Steps(adapter, EraseReference) else adapter)
    else if shape.Text? || shape.Reference? then Some(if entering then EraseReference else RecoverReference(shape))
    else
      match p.box(BoxKindOf(shape))
      case None => None
      case Some(id) =>
        Some(if entering then Steps(BoxScalar(BoxKindOf(shape), id), EraseReference) else UnboxScalar(BoxKindOf(shape),
            id, shape))
  }

  /** `array_payload` */
  function ConvertArray(t: Table, p: Planner, ghost ranks: seq<nat>, shape: Shape, entering: bool): Option<Plan>
    requires Ranked(t, ranks) && IsArray(t, shape)
    decreases Rank(ranks, shape), 0
  {
    match ArrayProtocol(t)
    case None => None
    case Some(protocol) =>
      var concrete := shape.heap.id;
      if concrete == protocol then Some(if entering then EraseReference else RecoverReference(shape))
      else
        match Convert(t, p, ranks, Lookup(t, concrete).value.element, entering)
        case None => None
        case Some(element) =>
          Some(if entering then Steps(ArrayMap(concrete, protocol, element), EraseReference)
               else Steps(RecoverReference(StoredAs(protocol)), ArrayMap(protocol, concrete, element)))
  }

  /** `record_payload` */
  function ConvertRecord(t: Table, p: Planner, ghost ranks: seq<nat>, shape: Shape, entering: bool): Option<Plan>
    requires Ranked(t, ranks) && IsRecord(t, shape)
    decreases Rank(ranks, shape), 0
  {
    var concrete := shape.heap.id;
    match Lookup(t, concrete)
    case None => None
    case Some(r) =>
      if !r.Product? || t.storage.None? then None
      else
        match ConvertFields(t, p, ranks, ranks[concrete], r.fields, entering)
        case None => None
        case Some(fields) =>
          var protocol := t.storage.value;
          Some(if entering then Steps(RecordPack(concrete, protocol, t.labels[concrete], fields), EraseReference)
               else Steps(RecoverReference(StoredAs(protocol)),
                          RecordUnpack(protocol, concrete, t.labels[concrete], fields)))
  }

  function ConvertFields(t: Table, p: Planner, ghost ranks: seq<nat>, ghost bound: nat, fields: List<Shape>,
                         entering: bool): Option<List<Plan>>
    requires Ranked(t, ranks) && AllRanked(ranks, fields, bound)
    decreases bound, 2, fields
  {
    match fields
    case Nil => Some(Nil)
    case Cons(f, rest) =>
      match (Convert(t, p, ranks, f, entering), ConvertFields(t, p, ranks, bound, rest, entering))
      case (Some(plan), Some(plans)) => Some(Cons(plan, plans))
      case _ => None
  }

  // ----- Declared output shapes -----

  function OutputShape(plan: Plan, source: Shape): Shape
    decreases plan
  {
    match plan
    case Identity => source
    case BoxScalar(_, repr) => StoredAs(repr)
    case UnboxScalar(_, _, destination) => destination
    case RecoverReference(destination) => destination
    case FunctionAdapter(_, _, destination) => destination
    case EraseReference => ERASED
    case ArrayMap(_, to, _) => StoredAs(to)
    case ProductMap(_, to, _, _) => StoredAs(to)
    case RecordPack(_, to, _, _) => StoredAs(to)
    case RecordUnpack(_, to, _, _) => StoredAs(to)
    case Sequence(steps) => OutputOfSteps(steps, source)
  }

  function OutputOfSteps(steps: List<Plan>, source: Shape): Shape
    decreases steps
  {
    match steps
    case Nil => source
    case Cons(step, rest) => OutputOfSteps(rest, OutputShape(step, source))
  }

  lemma {:induction false} OutputOfTwo(a: Plan, b: Plan, source: Shape)
    ensures OutputShape(Steps(a, b), source) == OutputShape(b, OutputShape(a, source))
  {
    var shape := OutputShape(a, source);
    assert OutputOfSteps(Nil, OutputShape(b, shape)) == OutputShape(b, shape);
    assert OutputOfSteps(Cons(b, Nil), shape) == OutputShape(b, shape);
  }

  /** Erasing always declares the erased shape. */
  lemma {:induction false} EraseDeclaresErased(t: Table, p: Planner, ranks: seq<nat>, shape: Shape)
    requires Ranked(t, ranks) && Convert(t, p, ranks, shape, true).Some?
    ensures OutputShape(Convert(t, p, ranks, shape, true).value, shape) == ERASED
  {
    var plan := Convert(t, p, ranks, shape, true).value;
    if plan.Sequence? { OutputOfTwo(plan.steps.head, EraseReference, shape); }
  }

  /** Recovered by mapping a stored array or record, which yields a non-null reference. */
  predicate Mapped(t: Table, shape: Shape) {
    (IsArray(t, shape) && ArrayProtocol(t) != Some(shape.heap.id)) || (!IsArray(t, shape) && IsRecord(t, shape))
  }

  /** Recovering declares exactly the requested shape, but for nullable arrays and records that are
      mapped; for a callable it declares what its adapter does. */
  lemma {:induction false} RecoverDeclaresShape(t: Table, p: Planner, ranks: seq<nat>, shape: Shape)
    requires Ranked(t, ranks) && Convert(t, p, ranks, shape, false).Some?
    ensures OutputShape(Convert(t, p, ranks, shape, false).value, ERASED) == shape
            <==> if Mapped(t, shape) then !shape.nullable
                 else shape.Reference? && shape.heap.Closure? ==>
                        OutputShape(p.callable(shape.heap.signature, false).value, ERASED) == shape
  {
    var plan := Convert(t, p, ranks, shape, false).value;
    if Mapped(t, shape) { OutputOfTwo(plan.steps.head, plan.steps.tail.head, ERASED); }
  }

  // ----- Values and what plans do with them -----

  /** Booleans are the integers 0 and 1. */
  datatype Value =
    | Int(n: int)
    | Real(r: real)
    | Chars(text: string)
    | Boxed(repr: ReprId, content: Value)
    | Items(repr: ReprId, items: List<Value>)
    | Record(repr: ReprId, values: List<Value>)
    | Stored(repr: ReprId, labels: List<string>, values: List<Value>)
    | Opaque(repr: ReprId, token: nat)
    | Thrown(token: nat)
    | Function(signature: SignatureId, token: nat)
    | Null

  /** The representation a reference carries at run time. */
  function Tag(v: Value): Option<ReprId> {
    match v
    case Boxed(repr, _) => Some(repr)
    case Items(repr, _) => Some(repr)
    case Record(repr, _) => Some(repr)
    case Stored(repr, _, _) => Some(repr)
    case Opaque(repr, _) => Some(repr)
    case _ => None
  }

  /** A reference that is not null. */
  predicate IsReference(v: Value) {
    !v.Int? && !v.Real? && !v.Null?
  }

  /** Whether a checked cast to a reference shape succeeds. */
  predicate Casts(v: Value, destination: Shape) {
    if v.Null? then destination.Reference? && destination.nullable
    else
      match destination
      case Text => v.Chars?
      case Reference(_, heap) =>
        (match heap
         case Repr(id) => Tag(v) == Some(id)
         case AnyAggregate => Tag(v).Some?
         case Erased => IsReference(v)
         case Exception => v.Thrown?
         case Closure(signature) => v.Function? && v.signature == signature)
      case _ => false
  }

  function Run(plan: Plan, v: Value): Option<Value>
    decreases plan, 0
  {
    match plan
    case Identity => Some(v)
    case BoxScalar(kind, repr) => if (kind.IntegerBox? && v.Int?)
        || (kind.NumberBox? && v.Real?) then Some(Boxed(repr, v)) else None
    case UnboxScalar(kind, repr, _) =>
      if v.Boxed? && v.repr == repr
          && ((kind.IntegerBox? && v.content.Int?) || (kind.NumberBox? && v.content.Real?)) then Some(v.content)
      else None
    case EraseReference => if Casts(v, ERASED) then Some(v) else None
    case RecoverReference(destination) => if Casts(v, destination) then Some(v) else None
    case FunctionAdapter(_, _, _) => None
    case Sequence(steps) => RunSteps(steps, v)
    case ArrayMap(from, to, element) =>
      if v.Items? && v.repr == from then
        match RunEach(element, v.items)
        case None => None
        case Some(items) => Some(Items(to, items))
      else None
    case ProductMap(from, to, _, fields) =>
      if v.Record? && v.repr == from then
        match RunFields(fields, v.values)
        case None => None
        case Some(values) => Some(Record(to, values))
      else None
    case RecordPack(from, to, labels, fields) =>
      if v.Record? && v.repr == from then
        match RunFields(fields, v.values)
        case None => None
        case Some(values) => Some(Stored(to, labels, values))
      else None
    case RecordUnpack(from, to, labels, fields) =>
      if v.Stored? && v.repr == from && v.labels == labels then
        match RunFields(fields, v.values)
        case None => None
        case Some(values) => Some(Record(to, values))
      else None
  }

  function RunSteps(steps: List<Plan>, v: Value): Option<Value>
    decreases steps, 0
  {
    match steps
    case Nil => Some(v)
    case Cons(step, rest) =>
      match Run(step, v)
      case None => None
      case Some(w) => RunSteps(rest, w)
  }

  function RunEach(plan: Plan, vs: List<Value>): Option<List<Value>>
    decreases plan, 1, vs
  {
    match vs
    case Nil => Some(Nil)
    case Cons(v, rest) =>
      match (Run(plan, v), RunEach(plan, rest))
      case (Some(w), Some(ws)) => Some(Cons(w, ws))
      case _ => None
  }

  /** One plan per field. */
  function RunFields(plans: List<Plan>, vs: List<Value>): Option<List<Value>>
    decreases plans, 0
  {
    match plans
    case Nil => if vs.Nil? then Some(Nil) else None
    case Cons(plan, rest) =>
      if vs.Nil? then None
      else
        match (Run(plan, vs.head), RunFields(rest, vs.tail))
        case (Some(w), Some(ws)) => Some(Cons(w, ws))
        case _ => None
  }

  /** The values of a shape. */
  predicate HasShape(t: Table, v: Value, shape: Shape)
    decreases v, 0
  {
    if v.Null? then shape.Reference? && shape.nullable
    else if IsArray(t, shape) then
      v.Items? && v.repr == shape.heap.id && AllHave(t, v.items, Lookup(t, shape.heap.id).value.element)
    else if IsRecord(t, shape) then
      && v.Record? && v.repr == shape.heap.id && Lookup(t, shape.heap.id).Some?
      && Lookup(t, shape.heap.id).value.Product?
      && FieldsHave(t, v.values, Lookup(t, shape.heap.id).value.fields)
    else
      match shape
      case Integer => v.Int?
      case Boolean => v == Int(0) || v == Int(1)
      case Number => v.Real?
      case _ => Casts(v, shape)
  }

  predicate AllHave(t: Table, vs: List<Value>, element: Shape)
    decreases vs, 0
  {
    match vs
    case Nil => true
    case Cons(v, rest) => HasShape(t, v, element) && AllHave(t, rest, element)
  }

  predicate FieldsHave(t: Table, vs: List<Value>, fields: List<Shape>)
    decreases vs, 0
  {
    match vs
    case Nil => fields.Nil?
    case Cons(v, rest) => fields.Cons? && HasShape(t, v, fields.head) && FieldsHave(t, rest, fields.tail)
  }

  /** Conversion comes to such a value and shape: at the value itself, an element or a labelled field. */
  predicate Reaches(t: Table, v: Value, shape: Shape, such: (Value, Shape) -> bool)
    decreases v, 0
  {
    such(v, shape)
    || match v
       case Items(_, items) => IsArray(t, shape) && AnyReaches(t, items, Lookup(t, shape.heap.id).value.element, such)
       case Record(_, values) =>
         !IsArray(t, shape) && IsRecord(t, shape) && Lookup(t, shape.heap.id).Some?
         && Lookup(t, shape.heap.id).value.Product?
         && FieldReaches(t, values, Lookup(t, shape.heap.id).value.fields, such)
       case _ => false
  }

  predicate AnyReaches(t: Table, vs: List<Value>, element: Shape, such: (Value, Shape) -> bool)
    decreases vs, 0
  {
    match vs
    case Nil => false
    case Cons(v, rest) => Reaches(t, v, element, such) || AnyReaches(t, rest, element, such)
  }

  predicate FieldReaches(t: Table, vs: List<Value>, fields: List<Shape>, such: (Value, Shape) -> bool)
    decreases vs, 0
  {
    match vs
    case Nil => false
    case Cons(v, rest) =>
      fields.Cons? && (Reaches(t, v, fields.head, such) || FieldReaches(t, rest, fields.tail, such))
  }

  predicate IsNull(v: Value, shape: Shape) {
    v.Null?
  }

  /** Callables are converted by the planner's own hook. */
  predicate IsCallable(v: Value, shape: Shape) {
    shape.Reference? && shape.heap.Closure?
  }

  /** Erased elements are never null. */
  lemma {:induction false} ErasedNotNull(t: Table, vs: List<Value>)
    requires AllHave(t, vs, ERASED)
    ensures !AnyReaches(t, vs, ERASED, IsNull)
  {
    match vs
    case Nil =>
    case Cons(_, rest) => ErasedNotNull(t, rest);
  }

  // ----- Recovering what was erased -----

  lemma {:induction false} RunTwo(a: Plan, b: Plan, v: Value)
    ensures Run(Steps(a, b), v) == if Run(a, v).None? then None else Run(b, Run(a, v).value)
  {
    if Run(a, v).Some? {
      var w := Run(a, v).value;
      if Run(b, w).Some? { assert RunSteps(Nil, Run(b, w).value) == Some(Run(b, w).value); }
      assert RunSteps(Cons(b, Nil), w) == Run(b, w);
    }
  }

  /** Erasing succeeds with a reference, and recovering gives the value back. */
  ghost predicate RoundTrips(erase: Plan, recover: Plan, v: Value) {
    var w := Run(erase, v);
    w.Some? && IsReference(w.value) && Run(recover, w.value) == Some(v)
  }

  /** Erasing checks for null, so it fails on a value with null in it, and only then. */
  ghost predicate RoundTripsUnless(erase: Plan, recover: Plan, v: Value, hasNull: bool) {
    if hasNull then Run(erase, v).None? else RoundTrips(erase, recover, v)
  }

  lemma {:induction false} RoundTrip(t: Table, p: Planner, ranks: seq<nat>, shape: Shape, v: Value)
    requires Ranked(t, ranks) && HasShape(t, v, shape) && !Reaches(t, v, shape, IsCallable)
    requires Convert(t, p, ranks, shape, true).Some? && Convert(t, p, ranks, shape, false).Some?
    ensures RoundTripsUnless(Convert(t, p, ranks, shape, true).value, Convert(t, p, ranks, shape, false).value, v,
                             Reaches(t, v, shape, IsNull))
    decreases Rank(ranks, shape), 1
  {
    if shape == ERASED {
    } else if IsArray(t, shape) {
      RoundTripArray(t, p, ranks, shape, v);
    } else if IsRecord(t, shape) {
      RoundTripRecord(t, p, ranks, shape, v);
    } else if shape.Reference? || shape.Text? {
    } else {
      var id := p.box(BoxKindOf(shape)).value;
      RunTwo(BoxScalar(BoxKindOf(shape), id), EraseReference, v);
    }
  }

  lemma {:induction false} RoundTripArray(t: Table, p: Planner, ranks: seq<nat>, shape: Shape, v: Value)
    requires Ranked(t, ranks) && HasShape(t, v, shape) && !Reaches(t, v, shape, IsCallable) && IsArray(t, shape)
    requires ConvertArray(t, p, ranks, shape, true).Some? && ConvertArray(t, p, ranks, shape, false).Some?
    ensures RoundTripsUnless(ConvertArray(t, p, ranks, shape, true).value,
                             ConvertArray(t, p, ranks, shape, false).value, v, Reaches(t, v, shape, IsNull))
    decreases Rank(ranks, shape), 0
  {
    var concrete, protocol := shape.heap.id, ArrayProtocol(t).value;
    if concrete == protocol {
      if v.Items? { ErasedNotNull(t, v.items); }
    } else {
      var element := Lookup(t, concrete).value.element;
      var erase, recover := Convert(t, p, ranks, element, true).value, Convert(t, p, ranks, element, false).value;
      RunTwo(ArrayMap(concrete, protocol, erase), EraseReference, v);
      if v.Items? {
        RoundTripEach(t, p, ranks, element, v.items);
        var items := RunEach(erase, v.items);
        if items.Some? {
          var stored := Items(protocol, items.value);
          assert Run(ArrayMap(concrete, protocol, erase), v) == Some(stored);
          assert Run(ArrayMap(protocol, concrete, recover), stored) == Some(v);
          RunTwo(RecoverReference(StoredAs(protocol)), ArrayMap(protocol, concrete, recover), stored);
        }
      }
    }
  }

  lemma {:induction false} RoundTripEach(t: Table, p: Planner, ranks: seq<nat>, element: Shape, vs: List<Value>)
    requires Ranked(t, ranks) && AllHave(t, vs, element) && !AnyReaches(t, vs, element, IsCallable)
    requires Convert(t, p, ranks, element, true).Some? && Convert(t, p, ranks, element, false).Some?
    ensures var erase, recover := Convert(t, p, ranks, element, true).value, Convert(t, p, ranks, element, false).value;
            var ws := RunEach(erase, vs);
            if AnyReaches(t, vs, element, IsNull) then ws.None? else ws.Some? && RunEach(recover, ws.value) == Some(vs)
    decreases Rank(ranks, element), 2, vs
  {
    match vs
    case Nil =>
    case Cons(v, rest) =>
      RoundTrip(t, p, ranks, element, v);
      RoundTripEach(t, p, ranks, element, rest);
  }

  lemma {:induction false} RoundTripRecord(t: Table, p: Planner, ranks: seq<nat>, shape: Shape, v: Value)
    requires Ranked(t, ranks) && HasShape(t, v, shape) && !Reaches(t, v, shape, IsCallable)
    requires IsRecord(t, shape) && !IsArray(t, shape)
    requires ConvertRecord(t, p, ranks, shape, true).Some? && ConvertRecord(t, p, ranks, shape, false).Some?
    ensures RoundTripsUnless(ConvertRecord(t, p, ranks, shape, true).value,
                             ConvertRecord(t, p, ranks, shape, false).value, v, Reaches(t, v, shape, IsNull))
    decreases Rank(ranks, shape), 0
  {
    var concrete, protocol := shape.heap.id, t.storage.value;
    var fields, labels := Lookup(t, concrete).value.fields, t.labels[concrete];
    var erase := ConvertFields(t, p, ranks, ranks[concrete], fields, true).value;
    var recover := ConvertFields(t, p, ranks, ranks[concrete], fields, false).value;
    RunTwo(RecordPack(concrete, protocol, labels, erase), EraseReference, v);
    if v.Record? {
      RoundTripFields(t, p, ranks, ranks[concrete], fields, v.values);
      var values := RunFields(erase, v.values);
      if values.Some? {
        var stored := Stored(protocol, labels, values.value);
        assert Run(RecordPack(concrete, protocol, labels, erase), v) == Some(stored);
        assert Run(RecordUnpack(protocol, concrete, labels, recover), stored) == Some(v);
        RunTwo(RecoverReference(StoredAs(protocol)), RecordUnpack(protocol, concrete, labels, recover), stored);
      }
    }
  }

  lemma {:induction false} RoundTripFields(t: Table, p: Planner, ranks: seq<nat>, bound: nat, fields: List<Shape>,
                                           vs: List<Value>)
    requires Ranked(t, ranks) && AllRanked(ranks, fields, bound) && FieldsHave(t, vs, fields)
             && !FieldReaches(t, vs, fields, IsCallable)
    requires ConvertFields(t, p, ranks, bound, fields, true).Some?
             && ConvertFields(t, p, ranks, bound, fields, false).Some?
    ensures var erase, recover := ConvertFields(t, p, ranks, bound, fields, true).value,
            ConvertFields(t, p, ranks, bound, fields, false).value;
            var ws := RunFields(erase, vs);
            if FieldReaches(t, vs, fields, IsNull) then ws.None?
            else ws.Some? && RunFields(recover, ws.value) == Some(vs)
    decreases bound, 2, vs
  {
    match vs
    case Nil =>
    case Cons(v, rest) =>
      RoundTrip(t, p, ranks, fields.head, v);
      RoundTripFields(t, p, ranks, bound, fields.tail, rest);
  }

  /** Whatever can be erased can be recovered, when the same holds of callables. */
  lemma {:induction false} BothOrNeither(t: Table, p: Planner, ranks: seq<nat>, shape: Shape)
    requires Ranked(t, ranks) && forall s :: p.callable(s, true).Some? == p.callable(s, false).Some?
    ensures Convert(t, p, ranks, shape, true).Some? == Convert(t, p, ranks, shape, false).Some?
    decreases Rank(ranks, shape), 1
  {
    if shape != ERASED {
      if IsArray(t, shape) {
        if ArrayProtocol(t).Some? && shape.heap.id != ArrayProtocol(t).value {
          BothOrNeither(t, p, ranks, Lookup(t, shape.heap.id).value.element);
        }
      } else if IsRecord(t, shape) {
        var r := Lookup(t, shape.heap.id);
        if r.Some? && r.value.Product? { FieldsBothOrNeither(t, p, ranks, ranks[shape.heap.id], r.value.fields); }
      }
    }
  }

  lemma {:induction false} FieldsBothOrNeither(t: Table, p: Planner, ranks: seq<nat>, bound: nat, fields: List<Shape>)
    requires Ranked(t, ranks) && AllRanked(ranks, fields, bound)
             && forall s :: p.callable(s, true).Some? == p.callable(s, false).Some?
    ensures ConvertFields(t, p, ranks, bound, fields, true).Some?
            == ConvertFields(t, p, ranks, bound, fields, false).Some?
    decreases bound, 2, fields
  {
    match fields
    case Nil =>
    case Cons(f, rest) =>
      BothOrNeither(t, p, ranks, f);
      FieldsBothOrNeither(t, p, ranks, bound, rest);
  }
}
