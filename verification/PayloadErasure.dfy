/** What an erased value is (crates/psrs-backend/src/cc/payload.rs): a form that depends on the table, the boxes and
    the shape, and not on plans.
 */
module PayloadErasure {
  import opened Lists
  import opened PayloadPlans

  type Boxes = BoxKind -> Option<ReprId>

  /** `w` is the erased form of `v`: numbers boxed in the representation of their own kind, arrays in the first
      array of erased elements, records in the labelled store under the labels of their product. */
  ghost predicate ErasesTo(t: Table, box: Boxes, shape: Shape, v: Value, w: Value)
    decreases v, 0
  {
    match shape
    case Integer => BoxedAs(box, IntegerBox, v, w)
    case Boolean => BoxedAs(box, IntegerBox, v, w)
    case Number => BoxedAs(box, NumberBox, v, w)
    case Text => w == v
    case Reference(_, heap) =>
      if !heap.Repr? || heap.id >= |t.representations| then w == v
      else
        match t.representations[heap.id]
        case Array(element) =>
          && v.Items? && w.Items? && StoresElements(t, w.repr)
          && EachErasesTo(t, box, element, v.items, w.items)
        case Product(fields) =>
          if heap.id !in t.labels then w == v
          else
            && v.Record? && w.Stored? && t.storage == Some(w.repr) && w.labels == t.labels[heap.id]
            && FieldsEraseTo(t, box, fields, v.values, w.values)
        case _ => w == v
  }

  ghost predicate BoxedAs(box: Boxes, kind: BoxKind, v: Value, w: Value) {
    w.Boxed? && box(kind) == Some(w.repr) && w.content == v
  }

  ghost predicate StoresElements(t: Table, id: ReprId) {
    && id < |t.representations| && t.representations[id] == Array(ERASED)
    && forall j :: 0 <= j < id ==> t.representations[j] != Array(ERASED)
  }

  ghost predicate EachErasesTo(t: Table, box: Boxes, element: Shape, vs: List<Value>, ws: List<Value>)
    decreases vs, 0
  {
    match vs
    case Nil => ws.Nil?
    case Cons(v, rest) =>
      ws.Cons? && ErasesTo(t, box, element, v, ws.head) && EachErasesTo(t, box, element, rest, ws.tail)
  }

  ghost predicate FieldsEraseTo(t: Table, box: Boxes, fields: List<Shape>, vs: List<Value>, ws: List<Value>)
    decreases vs, 0
  {
    match vs
    case Nil => ws.Nil?
    case Cons(v, rest) =>
      fields.Cons? && ws.Cons? && ErasesTo(t, box, fields.head, v, ws.head)
      && FieldsEraseTo(t, box, fields.tail, rest, ws.tail)
  }

  /** A value has one erased form for a shape. */
  lemma {:induction false} OneForm(t: Table, box: Boxes, shape: Shape, v: Value, w: Value, w': Value)
    requires ErasesTo(t, box, shape, v, w) && ErasesTo(t, box, shape, v, w')
    ensures w == w'
    decreases v, 0
  {
    if shape.Reference? && shape.heap.Repr? && shape.heap.id < |t.representations| {
      match t.representations[shape.heap.id]
      case Array(element) =>
        assert w.repr == w'.repr;
        OneFormEach(t, box, element, v.items, w.items, w'.items);
      case Product(fields) =>
        if shape.heap.id in t.labels { OneFormFields(t, box, fields, v.values, w.values, w'.values); }
      case _ =>
    }
  }

  lemma {:induction false} OneFormEach(t: Table, box: Boxes, element: Shape, vs: List<Value>, ws: List<Value>,
                                       ws': List<Value>)
    requires EachErasesTo(t, box, element, vs, ws) && EachErasesTo(t, box, element, vs, ws')
    ensures ws == ws'
    decreases vs, 0
  {
    match vs
    case Nil =>
    case Cons(v, rest) =>
      OneForm(t, box, element, v, ws.head, ws'.head);
      OneFormEach(t, box, element, rest, ws.tail, ws'.tail);
  }

  lemma {:induction false} OneFormFields(t: Table, box: Boxes, fields: List<Shape>, vs: List<Value>, ws: List<Value>,
                                         ws': List<Value>)
    requires FieldsEraseTo(t, box, fields, vs, ws) && FieldsEraseTo(t, box, fields, vs, ws')
    ensures ws == ws'
    decreases vs, 0
  {
    match vs
    case Nil =>
    case Cons(v, rest) =>
      OneForm(t, box, fields.head, v, ws.head, ws'.head);
      OneFormFields(t, box, fields.tail, rest, ws.tail, ws'.tail);
  }

  // ----- Erasing plans produce that form -----

  lemma {:induction false} Erases(t: Table, p: Planner, ranks: seq<nat>, shape: Shape, v: Value)
    requires Ranked(t, ranks) && HasShape(t, v, shape) && Convert(t, p, ranks, shape, true).Some?
    requires !Reaches(t, v, shape, IsNull) && !Reaches(t, v, shape, IsCallable)
    ensures var w := Run(Convert(t, p, ranks, shape, true).value, v);
            w.Some? && ErasesTo(t, p.box, shape, v, w.value)
    decreases Rank(ranks, shape), 1
  {
    if shape == ERASED {
    } else if IsArray(t, shape) {
      ErasesArray(t, p, ranks, shape, v);
    } else if IsRecord(t, shape) {
      ErasesRecord(t, p, ranks, shape, v);
    } else if shape.Reference? || shape.Text? {
    } else {
      RunTwo(BoxScalar(BoxKindOf(shape), p.box(BoxKindOf(shape)).value), EraseReference, v);
    }
  }

  lemma {:induction false} ErasesArray(t: Table, p: Planner, ranks: seq<nat>, shape: Shape, v: Value)
    requires Ranked(t, ranks) && HasShape(t, v, shape) && IsArray(t, shape) && shape != ERASED
    requires Convert(t, p, ranks, shape, true).Some?
    requires !Reaches(t, v, shape, IsNull) && !Reaches(t, v, shape, IsCallable)
    ensures var w := Run(Convert(t, p, ranks, shape, true).value, v);
            w.Some? && ErasesTo(t, p.box, shape, v, w.value)
    decreases Rank(ranks, shape), 0
  {
    var concrete, protocol := shape.heap.id, ArrayProtocol(t).value;
    var element := t.representations[concrete].element;
    if concrete == protocol {
      ErasedAlready(t, p.box, v.items);
    } else {
      var erase := Convert(t, p, ranks, element, true).value;
      ErasesEach(t, p, ranks, element, v.items);
      RunTwo(ArrayMap(concrete, protocol, erase), EraseReference, v);
      var stored := Items(protocol, RunEach(erase, v.items).value);
      assert Run(ArrayMap(concrete, protocol, erase), v) == Some(stored);
    }
  }

  lemma {:induction false} ErasedAlready(t: Table, box: Boxes, vs: List<Value>)
    ensures EachErasesTo(t, box, ERASED, vs, vs)
  {
    match vs
    case Nil =>
    case Cons(_, rest) => ErasedAlready(t, box, rest);
  }

  lemma {:induction false} ErasesEach(t: Table, p: Planner, ranks: seq<nat>, element: Shape, vs: List<Value>)
    requires Ranked(t, ranks) && AllHave(t, vs, element) && Convert(t, p, ranks, element, true).Some?
    requires !AnyReaches(t, vs, element, IsNull) && !AnyReaches(t, vs, element, IsCallable)
    ensures var ws := RunEach(Convert(t, p, ranks, element, true).value, vs);
            ws.Some? && EachErasesTo(t, p.box, element, vs, ws.value)
    decreases Rank(ranks, element), 2, vs
  {
    match vs
    case Nil =>
    case Cons(v, rest) =>
      Erases(t, p, ranks, element, v);
      ErasesEach(t, p, ranks, element, rest);
  }

  lemma {:induction false} ErasesRecord(t: Table, p: Planner, ranks: seq<nat>, shape: Shape, v: Value)
    requires Ranked(t, ranks) && HasShape(t, v, shape) && IsRecord(t, shape) && !IsArray(t, shape) && shape != ERASED
    requires Convert(t, p, ranks, shape, true).Some?
    requires !Reaches(t, v, shape, IsNull) && !Reaches(t, v, shape, IsCallable)
    ensures var w := Run(Convert(t, p, ranks, shape, true).value, v);
            w.Some? && ErasesTo(t, p.box, shape, v, w.value)
    decreases Rank(ranks, shape), 0
  {
    var concrete, protocol := shape.heap.id, t.storage.value;
    var fields, labels := t.representations[concrete].fields, t.labels[concrete];
    var erase := ConvertFields(t, p, ranks, ranks[concrete], fields, true).value;
    ErasesFields(t, p, ranks, ranks[concrete], fields, v.values);
    RunTwo(RecordPack(concrete, protocol, labels, erase), EraseReference, v);
    var stored := Stored(protocol, labels, RunFields(erase, v.values).value);
    assert Run(RecordPack(concrete, protocol, labels, erase), v) == Some(stored);
  }

  lemma {:induction false} ErasesFields(t: Table, p: Planner, ranks: seq<nat>, bound: nat, fields: List<Shape>,
                                        vs: List<Value>)
    requires Ranked(t, ranks) && AllRanked(ranks, fields, bound) && FieldsHave(t, vs, fields)
    requires ConvertFields(t, p, ranks, bound, fields, true).Some?
    requires !FieldReaches(t, vs, fields, IsNull) && !FieldReaches(t, vs, fields, IsCallable)
    ensures var ws := RunFields(ConvertFields(t, p, ranks, bound, fields, true).value, vs);
            ws.Some? && FieldsEraseTo(t, p.box, fields, vs, ws.value)
    decreases bound, 2, vs
  {
    match vs
    case Nil =>
    case Cons(v, rest) =>
      Erases(t, p, ranks, fields.head, v);
      ErasesFields(t, p, ranks, bound, fields.tail, rest);
  }

  // ----- Stored fields are found under their labels -----

  function At<T>(xs: List<T>, i: nat): T
    requires i < Length(xs)
  {
    if i == 0 then xs.head else At(xs.tail, i - 1)
  }

  function Under(labels: List<string>, values: List<Value>, name: string): Option<Value> {
    if labels.Nil? || values.Nil? then None
    else if labels.head == name then Some(values.head)
    else Under(labels.tail, values.tail, name)
  }

  /** A field of an erased record is under the field's label in the store, and it is the erased form of the
      record's own field. */
  lemma {:induction false} FieldUnderLabel(t: Table, p: Planner, ranks: seq<nat>, shape: Shape, v: Value, i: nat)
    requires Ranked(t, ranks) && HasShape(t, v, shape) && Convert(t, p, ranks, shape, true).Some?
    requires !Reaches(t, v, shape, IsNull) && !Reaches(t, v, shape, IsCallable)
    requires IsRecord(t, shape) && !IsArray(t, shape) && v.Record?
    requires var labels := t.labels[shape.heap.id];
             && Length(labels) == Length(v.values) && i < Length(labels)
             && forall j: nat :: j < i ==> At(labels, j) != At(labels, i)
    ensures var labels, fields := t.labels[shape.heap.id], t.representations[shape.heap.id].fields;
            var w := Run(Convert(t, p, ranks, shape, true).value, v);
            && i < Length(fields) && w.Some? && w.value.Stored?
            && var stored := Under(w.value.labels, w.value.values, At(labels, i));
               stored.Some? && ErasesTo(t, p.box, At(fields, i), At(v.values, i), stored.value)
  {
    Erases(t, p, ranks, shape, v);
    var w := Run(Convert(t, p, ranks, shape, true).value, v).value;
    UnderLabel(t, p.box, t.representations[shape.heap.id].fields, v.values, w.values, t.labels[shape.heap.id], i);
  }

  lemma {:induction false} UnderLabel(t: Table, box: Boxes, fields: List<Shape>, vs: List<Value>, ws: List<Value>,
                                      labels: List<string>, i: nat)
    requires FieldsEraseTo(t, box, fields, vs, ws) && FieldsHave(t, vs, fields)
    requires Length(labels) == Length(vs) && i < Length(labels)
    requires forall j: nat :: j < i ==> At(labels, j) != At(labels, i)
    ensures i < Length(fields)
    ensures var stored := Under(labels, ws, At(labels, i));
            stored.Some? && ErasesTo(t, box, At(fields, i), At(vs, i), stored.value)
  {
    if i > 0 {
      assert At(labels, 0) != At(labels, i);
      forall j: nat | j < i - 1 ensures At(labels.tail, j) != At(labels.tail, i - 1) {
        assert At(labels, j + 1) != At(labels, i);
      }
      UnderLabel(t, box, fields.tail, vs.tail, ws.tail, labels.tail, i - 1);
    }
  }

  // ----- Plans yield what they declare -----

  /** A value that a slot of the shape can hold. */
  predicate Fits(v: Value, shape: Shape) {
    match shape
    case Integer => v.Int?
    case Boolean => v.Int?
    case Number => v.Real?
    case _ => Casts(v, shape)
  }

  /** Unboxing yields a number of the sort that was boxed. */
  predicate Consistent(plan: Plan) {
    match plan
    case UnboxScalar(kind, _, destination) =>
      if kind.IntegerBox? then destination.Integer? || destination.Boolean? else destination.Number?
    case Sequence(steps) => AllConsistent(steps)
    case _ => true
  }

  predicate AllConsistent(steps: List<Plan>) {
    match steps
    case Nil => true
    case Cons(step, rest) => Consistent(step) && AllConsistent(rest)
  }

  /** Whatever a plan yields fits the shape that it declares for its source. */
  lemma {:induction false} YieldsDeclared(plan: Plan, source: Shape, v: Value)
    requires Consistent(plan) && Fits(v, source) && Run(plan, v).Some?
    ensures Fits(Run(plan, v).value, OutputShape(plan, source))
    decreases plan, 1
  {
    if plan.Sequence? { StepsYieldDeclared(plan.steps, source, v); }
  }

  lemma {:induction false} StepsYieldDeclared(steps: List<Plan>, source: Shape, v: Value)
    requires AllConsistent(steps) && Fits(v, source) && RunSteps(steps, v).Some?
    ensures Fits(RunSteps(steps, v).value, OutputOfSteps(steps, source))
    decreases steps, 0
  {
    match steps
    case Nil =>
    case Cons(step, rest) =>
      YieldsDeclared(step, source, v);
      StepsYieldDeclared(rest, OutputShape(step, source), Run(step, v).value);
  }

  /** The plans that the planner makes are consistent, if its callables are. */
  lemma {:induction false} PlannedConsistent(t: Table, p: Planner, ranks: seq<nat>, shape: Shape, entering: bool)
    requires Ranked(t, ranks) && Convert(t, p, ranks, shape, entering).Some?
    requires forall s, e :: p.callable(s, e).Some? ==> Consistent(p.callable(s, e).value)
    ensures Consistent(Convert(t, p, ranks, shape, entering).value)
  {
    var plan := Convert(t, p, ranks, shape, entering).value;
    if plan.Sequence? && plan.steps.Cons? && plan.steps.tail.Cons? {
      assert AllConsistent(Cons(plan.steps.tail.head, Nil)) == Consistent(plan.steps.tail.head);
    }
  }
}
