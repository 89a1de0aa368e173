/** Canonical ABI memory layouts (crates/psrs-backend/src/abi/layout.rs), after the Component Model
    Canonical ABI, sections "Alignment" and "Element Size". All arithmetic is checked 32-bit.
 */
module AbiLayout {
  import opened Lists

  const LIMIT: nat := 0x1_0000_0000

  type u32 = x: int | 0 <= x < LIMIT

  datatype Type =
    | Bool | Int(width: nat, signed: bool) | Float(width: nat) | Char | Handle | Text
    | Array(element: Type)
    | FixedArray(element: Type)
    | Enum(cases: nat)
    | Flags(names: nat)
    | Record(fields: List<Type>)
    | Optional(payload: Type)
    | Outcome(ok: Option<Type>, err: Option<Type>)
    | Variant(payloads: List<Option<Type>>)

  datatype SlotKind = Byte | Half | Word | I64 | F32 | F64

  datatype Slot = Slot(offset: u32, kind: SlotKind)

  datatype Layout = Layout(size: u32, align: u32, slots: seq<Slot>)

  function Width(kind: SlotKind): nat {
    match kind
    case Byte => 1
    case Half => 2
    case Word => 4
    case I64 => 8
    case F32 => 4
    case F64 => 8
  }

  // ----- Checked arithmetic -----

  function Add(a: u32, b: u32): Option<u32> {
    if a + b < LIMIT then Some(a + b) else None
  }

  /** Rounds up to a multiple of a power of two. */
  function AlignTo(value: u32, align: u32): Option<u32> {
    if align == 0 || value + (align - 1) >= LIMIT then None
    else Some((value + (align - 1)) / align * align)
  }

  predicate Alignment(a: int) {
    a == 1 || a == 2 || a == 4 || a == 8
  }

  lemma {:induction false} AlignToRounds(value: u32, align: u32)
    requires Alignment(align) && AlignTo(value, align).Some?
    ensures var r := AlignTo(value, align).value; value <= r < value + align && r % align == 0
  {
    var sum := value + (align - 1);
    assert sum / align * align + sum % align == sum;
    MultipleDivides(sum / align, align);
  }

  lemma {:induction false} MultipleDivides(n: int, a: int)
    requires Alignment(a)
    ensures (n * a) % a == 0
  {
  }

  // ----- Layouts -----

  function Scalar(size: u32, kind: SlotKind): Layout {
    Layout(size, size, [Slot(0, kind)])
  }

  function PointerAndLength(): Layout {
    Layout(8, 4, [Slot(0, Word), Slot(4, Word)])
  }

  function DiscriminantWidth(cases: nat): u32 {
    var last := if cases == 0 then 0 else cases - 1;
    if last <= 255 then 1 else if last <= 65535 then 2 else 4
  }

  function SlotForWidth(width: u32): SlotKind
    requires width == 1 || width == 2 || width == 4
  {
    if width == 1 then Byte else if width == 2 then Half else Word
  }

  function FlagSlots(count: nat, width: u32): Option<seq<Slot>>
    requires width == 1 || width == 2 || width == 4
  {
    if count == 0 then Some([])
    else
      match FlagSlots(count - 1, width)
      case None => None
      case Some(slots) =>
        if count - 1 >= LIMIT || (count - 1) * width >= LIMIT then None
        else Some(slots + [Slot((count - 1) * width, SlotForWidth(width))])
  }

  function FlagsLayout(count: nat): Option<Layout> {
    if count == 0 then Some(Layout(0, 4, []))
    else
      var width: u32 := if count <= 8 then 1 else if count <= 16 then 2 else 4;
      var words := if count <= 32 then 1 else (count + 31) / 32;
      match FlagSlots(words, width)
      case None => None
      case Some(slots) => if words >= LIMIT
          || words * width >= LIMIT then None else Some(Layout(words * width, width, slots))
  }

  predicate IsByte(ty: Type) {
    ty == Int(8, false)
  }

  /** Moves a field's slots to where the field starts. */
  function Shifted(slots: seq<Slot>, base: u32): Option<seq<Slot>> {
    if slots == [] then Some([])
    else
      match (Add(base, slots[0].offset), Shifted(slots[1..], base))
      case (Some(offset), Some(rest)) => Some([Slot(offset, slots[0].kind)] + rest)
      case _ => None
  }

  /** The fields from a running size, alignment and slot list on. */
  function RecordFrom(fields: seq<Option<Layout>>, size: u32, align: u32, slots: seq<Slot>): Option<Layout> {
    if fields == [] then
      match AlignTo(size, align)
      case None => None
      case Some(total) => Some(Layout(total, align, slots))
    else
      match fields[0]
      case None => None
      case Some(field) =>
        match AlignTo(size, field.align)
        case None => None
        case Some(start) =>
          match (Shifted(field.slots, start), Add(start, field.size))
          case (Some(moved), Some(end)) => RecordFrom(fields[1..], end,
                                                      if align < field.align then field.align else align, slots + moved)
          case _ => None
  }

  datatype Placed = Placed(offset: u32, layout: Layout)

  function FieldsFrom(fields: seq<Option<Layout>>, offset: u32): Option<seq<Placed>> {
    if fields == [] then Some([])
    else
      match fields[0]
      case None => None
      case Some(field) =>
        match AlignTo(offset, field.align)
        case None => None
        case Some(start) =>
          match Add(start, field.size)
          case None => None
          case Some(end) =>
            match FieldsFrom(fields[1..], end)
            case None => None
            case Some(rest) => Some([Placed(start, field)] + rest)
  }

  datatype Region = Region(size: u32, align: u32)

  /** The size and alignment shared by all cases. */
  function PayloadFrom(cases: seq<Option<Layout>>, size: u32, align: u32): Option<Region> {
    if cases == [] then Some(Region(size, align))
    else
      match cases[0]
      case None => None
      case Some(l) => PayloadFrom(cases[1..], if size < l.size then l.size else size,
                                  if align < l.align then l.align else align)
  }

  const EMPTY: Layout := Layout(0, 1, [])

  /** `cases` are the payload layouts, `EMPTY` for a case without payload. */
  function Aggregate(cases: seq<Option<Layout>>): Option<Layout> {
    var discriminant := DiscriminantWidth(|cases|);
    match PayloadFrom(cases, 0, 1)
    case None => None
    case Some(payload) =>
      match AlignTo(discriminant, payload.align)
      case None => None
      case Some(offset) =>
        var align := if discriminant < payload.align then payload.align else discriminant;
        match Add(offset, payload.size)
        case None => None
        case Some(end) =>
          match AlignTo(end, align)
          case None => None
          case Some(size) => Some(Layout(size, align, [Slot(0, SlotForWidth(discriminant))]))
  }

  /** `parameter_layout` */
  function Parameter(ty: Type): Option<Layout>
    decreases ty, 1
  {
    match ty
    case Bool => Some(Scalar(1, Byte))
    case Int(width, _) => Some(if width == 8 then Scalar(1, Byte) else if width == 16 then Scalar(2, Half)
                            else if width == 64 then Scalar(8, I64) else Scalar(4, Word))
    case Float(width) => Some(if width == 32 then Scalar(4, F32) else Scalar(8, F64))
    case Char => Some(Scalar(4, Word))
    case Handle => Some(Scalar(4, Word))
    case Text => Some(PointerAndLength())
    case Array(_) => Some(PointerAndLength())
    case FixedArray(element) => if IsByte(element) then Some(PointerAndLength()) else None
    case Enum(cases) => Some(Scalar(DiscriminantWidth(cases), SlotForWidth(DiscriminantWidth(cases))))
    case Flags(names) => FlagsLayout(names)
    case Record(fields) => RecordFrom(Parameters(fields), 0, 1, [])
    case Optional(payload) => Aggregate([Some(EMPTY), Parameter(payload)])
    case Outcome(ok, err) => Aggregate([CaseLayout(ok), CaseLayout(err)])
    case Variant(payloads) => Aggregate(CaseLayouts(payloads))
  }

  function CaseLayout(payload: Option<Type>): Option<Layout>
    decreases payload, 2
  {
    match payload
    case None => Some(EMPTY)
    case Some(ty) => Parameter(ty)
  }

  function Parameters(fields: List<Type>): (r: seq<Option<Layout>>)
    ensures |r| == Length(fields)
    decreases fields, 0
  {
    match fields
    case Nil => []
    case Cons(ty, rest) => [Parameter(ty)] + Parameters(rest)
  }

  function CaseLayouts(payloads: List<Option<Type>>): (r: seq<Option<Layout>>)
    ensures |r| == Length(payloads)
    decreases payloads, 0
  {
    match payloads
    case Nil => []
    case Cons(payload, rest) => [CaseLayout(payload)] + CaseLayouts(rest)
  }

  // ----- The same offset computed from alignments alone -----

  /** `case_alignment` */
  function CaseAlignment(ty: Type): Option<u32>
    decreases ty, 1
  {
    match ty
    case Text => Some(4)
    case Array(_) => Some(4)
    case FixedArray(element) => if IsByte(element) then Some(4) else None
    case Optional(payload) =>
      (match CaseAlignment(payload)
       case None => None
       case Some(a) => Some(if a < 1 then 1 else a))
    case Outcome(ok, err) =>
      (match (PayloadAlignment(ok), PayloadAlignment(err))
       case (Some(a), Some(b)) => var m: u32 := if a < b then b else a; Some(if m < 1 then 1 else m)
       case _ => None)
    case Variant(payloads) => WidestCase(payloads, DiscriminantWidth(Length(payloads)))
    case _ =>
      match Parameter(ty)
      case None => None
      case Some(l) => Some(l.align)
  }

  function PayloadAlignment(payload: Option<Type>): Option<u32>
    decreases payload, 2
  {
    match payload
    case None => Some(1)
    case Some(ty) => CaseAlignment(ty)
  }

  function WidestCase(payloads: List<Option<Type>>, align: u32): Option<u32>
    decreases payloads, 0
  {
    match payloads
    case Nil => Some(align)
    case Cons(payload, rest) =>
      match PayloadAlignment(payload)
      case None => None
      case Some(a) => WidestCase(rest, if payload.Some? && align < a then a else align)
  }

  /** `variant_payload_offset` */
  function PayloadOffset(payloads: List<Option<Type>>): Option<u32> {
    match WidestCase(payloads, 1)
    case None => None
    case Some(align) => AlignTo(DiscriminantWidth(Length(payloads)), align)
  }

  // ----- Well-formed layouts -----

  predicate SlotFits(slot: Slot, from: int, to: int, align: int) {
    && slot.offset % Width(slot.kind) == 0 && Width(slot.kind) <= align
    && from <= slot.offset && slot.offset + Width(slot.kind) <= to
  }

  /** Slots are aligned, disjoint, in ascending order and inside the value. */
  predicate SlotsFit(slots: seq<Slot>, from: int, to: int, align: int) {
    && (forall i :: 0 <= i < |slots| ==> SlotFits(slots[i], from, to, align))
    && forall i, j :: 0 <= i < j < |slots| ==> slots[i].offset + Width(slots[i].kind) <= slots[j].offset
  }

  predicate WellFormed(l: Layout) {
    Alignment(l.align) && l.size % l.align == 0 && SlotsFit(l.slots, 0, l.size, l.align)
  }

  predicate AllWellFormed(fields: seq<Option<Layout>>) {
    forall i :: 0 <= i < |fields| ==> fields[i].Some? ==> WellFormed(fields[i].value)
  }

  lemma {:induction false} SlotsFitJoin(a: seq<Slot>, b: seq<Slot>, from: int, middle: int, to: int, align: int,
                                        align': int, widest: int)
    requires SlotsFit(a, from, middle, align) && SlotsFit(b, middle, to, align') && align <= widest && align' <= widest
             && from <= middle <= to
    ensures SlotsFit(a + b, from, to, widest)
  {
  }

  lemma {:induction false} ScalarWellFormed(size: u32, kind: SlotKind)
    requires Width(kind) == size
    ensures WellFormed(Scalar(size, kind))
  {
  }

  lemma {:induction false} FlagSlotsFit(count: nat, width: u32)
    requires width == 1 || width == 2 || width == 4
    requires FlagSlots(count, width).Some?
    ensures SlotsFit(FlagSlots(count, width).value, 0, count * width, width)
  {
    if count > 0 {
      FlagSlotsFit(count - 1, width);
      MultipleDivides(count - 1, width);
      var rest := FlagSlots(count - 1, width).value;
      var last := Slot((count - 1) * width, SlotForWidth(width));
      assert (count - 1) * width + width == count * width;
      SlotsFitJoin(rest, [last], 0, (count - 1) * width, count * width, width, width, width);
    }
  }

  lemma {:induction false} FlagsWellFormed(count: nat)
    requires FlagsLayout(count).Some?
    ensures WellFormed(FlagsLayout(count).value)
  {
    if count > 0 {
      var width: u32 := if count <= 8 then 1 else if count <= 16 then 2 else 4;
      var words := if count <= 32 then 1 else (count + 31) / 32;
      FlagSlotsFit(words, width);
      MultipleDivides(words, width);
    }
  }

  lemma {:induction false} Divides(a: int, w: int, align: int)
    requires Alignment(w) && Alignment(align) && w <= align && a % align == 0
    ensures a % w == 0
  {
    var q := a / align;
    var n := if align == w then q else if align == 2 * w then 2 * q else if align == 4 * w then 4 * q else 8 * q;
    assert a == n * w;
    MultipleDivides(n, w);
  }

  lemma {:induction false} DividesSum(a: int, b: int, w: int, align: int)
    requires Alignment(w) && Alignment(align) && w <= align && a % align == 0 && b % w == 0
    ensures (a + b) % w == 0
  {
    Divides(a, w, align);
    assert a + b == (a / w + b / w) * w;
    MultipleDivides(a / w + b / w, w);
  }

  lemma {:induction false} ShiftedIs(slots: seq<Slot>, base: u32, to: u32)
    requires base + to < LIMIT && forall i :: 0 <= i < |slots| ==> slots[i].offset <= to
    ensures Shifted(slots, base).Some?
    ensures var moved := Shifted(slots, base).value;
            && |moved| == |slots|
            && forall i :: 0 <= i < |slots| ==> moved[i] == Slot(base + slots[i].offset, slots[i].kind)
  {
    if slots != [] {
      var rest := slots[1..];
      ShiftedIs(rest, base, to);
      var moved := Shifted(slots, base).value;
      forall i | 0 <= i < |slots| ensures moved[i] == Slot(base + slots[i].offset, slots[i].kind) {
        if i > 0 { assert moved[i] == Shifted(rest, base).value[i - 1]; }
      }
    }
  }

  /** Slots of a well-formed field stay well formed where the field starts, and nothing overflows
      when the field fits. */
  lemma {:induction false} ShiftedFits(slots: seq<Slot>, base: u32, to: u32, align: u32)
    requires SlotsFit(slots, 0, to, align) && Alignment(align) && base % align == 0 && base + to < LIMIT
    ensures Shifted(slots, base).Some? && SlotsFit(Shifted(slots, base).value, base, base + to, align)
  {
    assert forall i :: 0 <= i < |slots| ==> SlotFits(slots[i], 0, to, align);
    ShiftedIs(slots, base, to);
    var moved := Shifted(slots, base).value;
    forall i | 0 <= i < |moved| ensures SlotFits(moved[i], base, base + to, align) {
      assert SlotFits(slots[i], 0, to, align);
      DividesSum(base, slots[i].offset, Width(slots[i].kind), align);
    }
  }

  lemma {:induction false} RecordWellFormed(fields: seq<Option<Layout>>, size: u32, align: u32, slots: seq<Slot>)
    requires AllWellFormed(fields) && Alignment(align) && SlotsFit(slots, 0, size, align)
    requires RecordFrom(fields, size, align, slots).Some?
    ensures var l := RecordFrom(fields, size, align, slots).value; WellFormed(l) && l.size >= size && l.align >= align
  {
    if fields == [] {
      AlignToRounds(size, align);
      SlotsFitJoin(slots, [], 0, size, AlignTo(size, align).value, align, align, align);
      assert slots + [] == slots;
    } else {
      var field := fields[0].value;
      assert WellFormed(field);
      AlignToRounds(size, field.align);
      var start := AlignTo(size, field.align).value;
      var end := Add(start, field.size).value;
      ShiftedFits(field.slots, start, field.size, field.align);
      var moved := Shifted(field.slots, start).value;
      var widest := if align < field.align then field.align else align;
      SlotsFitWider(slots, size, start, align);
      SlotsFitJoin(slots, moved, 0, start, end, align, field.align, widest);
      assert forall i :: 0 <= i < |fields[1..]| ==> fields[1..][i] == fields[i + 1];
      RecordWellFormed(fields[1..], end, widest, slots + moved);
    }
  }

  lemma {:induction false} SlotsFitWider(slots: seq<Slot>, to: int, to': int, align: int)
    requires SlotsFit(slots, 0, to, align) && to <= to'
    ensures SlotsFit(slots, 0, to', align)
  {
  }

  lemma {:induction false} PayloadCovers(cases: seq<Option<Layout>>, size: u32, align: u32)
    requires AllWellFormed(cases) && Alignment(align) && PayloadFrom(cases, size, align).Some?
    ensures var r := PayloadFrom(cases, size, align).value;
            && Alignment(r.align) && r.size >= size && r.align >= align
            && forall i :: 0 <= i < |cases| ==>
                 cases[i].Some? && cases[i].value.size <= r.size && cases[i].value.align <= r.align
  {
    if cases != [] {
      var l := cases[0].value;
      assert WellFormed(l);
      var rest := cases[1..];
      assert forall i :: 0 <= i < |rest| ==> rest[i] == cases[i + 1];
      PayloadCovers(rest, if size < l.size then l.size else size, if align < l.align then l.align else align);
      forall i | 0 <= i < |cases|
        ensures var r := PayloadFrom(cases, size, align).value;
                cases[i].Some? && cases[i].value.size <= r.size && cases[i].value.align <= r.align
      {
        if i > 0 { assert cases[i] == rest[i - 1]; }
      }
    }
  }

  lemma {:induction false} AggregateWellFormed(cases: seq<Option<Layout>>)
    requires AllWellFormed(cases) && Aggregate(cases).Some?
    ensures WellFormed(Aggregate(cases).value)
  {
    PayloadCovers(cases, 0, 1);
    var payload := PayloadFrom(cases, 0, 1).value;
    var discriminant := DiscriminantWidth(|cases|);
    AlignToRounds(discriminant, payload.align);
    var offset := AlignTo(discriminant, payload.align).value;
    var align: u32 := if discriminant < payload.align then payload.align else discriminant;
    AlignToRounds(Add(offset, payload.size).value, align);
  }

  /** Every layout the compiler computes is well formed. */
  lemma {:induction false} ParameterWellFormed(ty: Type)
    requires Parameter(ty).Some?
    ensures WellFormed(Parameter(ty).value)
    decreases ty, 1
  {
    match ty
    case Flags(names) => FlagsWellFormed(names);
    case Record(fields) =>
      assert SlotsFit([], 0, 0, 1);
      ParametersWellFormed(fields);
      RecordWellFormed(Parameters(fields), 0, 1, []);
    case Optional(payload) =>
      if Parameter(payload).Some? { ParameterWellFormed(payload); }
      AggregateWellFormed([Some(EMPTY), Parameter(payload)]);
    case Outcome(ok, err) =>
      CaseWellFormed(ok);
      CaseWellFormed(err);
      AggregateWellFormed([CaseLayout(ok), CaseLayout(err)]);
    case Variant(payloads) =>
      CasesWellFormed(payloads);
      AggregateWellFormed(CaseLayouts(payloads));
    case _ => LeafWellFormed(ty);
  }

  predicate IsLeaf(ty: Type) {
    !ty.Flags? && !ty.Record? && !ty.Optional? && !ty.Outcome? && !ty.Variant?
  }

  lemma {:induction false} LeafWellFormed(ty: Type)
    requires IsLeaf(ty) && Parameter(ty).Some?
    ensures WellFormed(Parameter(ty).value)
  {
    var l := Parameter(ty).value;
    if |l.slots| == 1 {
      ScalarWellFormed(l.size, l.slots[0].kind);
      assert l == Scalar(l.size, l.slots[0].kind);
    } else {
      assert l == PointerAndLength();
    }
  }

  lemma {:induction false} CaseWellFormed(payload: Option<Type>)
    ensures CaseLayout(payload).Some? ==> WellFormed(CaseLayout(payload).value)
    decreases payload, 2
  {
    if payload.Some? && Parameter(payload.value).Some? { ParameterWellFormed(payload.value); }
  }

  lemma {:induction false} ParametersWellFormed(fields: List<Type>)
    ensures AllWellFormed(Parameters(fields))
    decreases fields, 0
  {
    match fields
    case Nil =>
    case Cons(ty, rest) =>
      if Parameter(ty).Some? { ParameterWellFormed(ty); }
      ParametersWellFormed(rest);
      assert forall i :: 1 <= i < |Parameters(fields)| ==> Parameters(fields)[i] == Parameters(rest)[i - 1];
  }

  lemma {:induction false} CasesWellFormed(payloads: List<Option<Type>>)
    ensures AllWellFormed(CaseLayouts(payloads))
    decreases payloads, 0
  {
    match payloads
    case Nil =>
    case Cons(payload, rest) =>
      CaseWellFormed(payload);
      CasesWellFormed(rest);
      assert forall i :: 1 <= i < |CaseLayouts(payloads)| ==> CaseLayouts(payloads)[i] == CaseLayouts(rest)[i - 1];
  }

  // ----- Field offsets are the offsets of the slots -----

  /** The slots of placed fields, moved to where their field starts. */
  function SlotsOf(fields: seq<Placed>): seq<Slot>
    requires forall p <- fields :: Shifted(p.layout.slots, p.offset).Some?
  {
    if fields == [] then [] else Shifted(fields[0].layout.slots, fields[0].offset).value + SlotsOf(fields[1..])
  }

  /** Fields are aligned, follow one another and end before `to`. */
  predicate InOrder(fields: seq<Placed>, from: int, to: int) {
    if fields == [] then from <= to
    else
      && from <= fields[0].offset && fields[0].layout.align > 0 && fields[0].offset % fields[0].layout.align == 0
      && InOrder(fields[1..], fields[0].offset + fields[0].layout.size, to)
  }

  function FieldsEnd(fields: seq<Placed>, from: u32): int {
    if fields == [] then from
    else fields[|fields| - 1].offset + fields[|fields| - 1].layout.size
  }

  function WidestField(fields: seq<Placed>, align: u32): u32 {
    if fields == [] then align
    else WidestField(fields[1..], if align < fields[0].layout.align then fields[0].layout.align else align)
  }

  ghost predicate EndFits(placed: seq<Placed>, size: u32, align: u32) {
    FieldsEnd(placed, size) < LIMIT && AlignTo(FieldsEnd(placed, size), WidestField(placed, align)).Some?
  }

  ghost predicate AllMove(placed: seq<Placed>) {
    forall p <- placed :: Shifted(p.layout.slots, p.offset).Some?
  }

  ghost predicate LaidOut(l: Layout, slots: seq<Slot>, placed: seq<Placed>, size: u32, align: u32)
    requires AllMove(placed)
  {
    l.slots == slots + SlotsOf(placed) && InOrder(placed, size, l.size) && l.align == WidestField(placed, align)
  }

  /** A record has a layout exactly when its fields have offsets and the padded end fits in 32 bits;
      then its slots are the fields' slots at those offsets. */
  ghost predicate RecordAgrees(l: Option<Layout>, placed: Option<seq<Placed>>, size: u32, align: u32,
                               slots: seq<Slot>) {
    && (placed.Some? ==> AllMove(placed.value))
    && (l.Some? <==> placed.Some? && EndFits(placed.value, size, align))
    && (l.Some? ==> placed.Some? && LaidOut(l.value, slots, placed.value, size, align))
  }

  lemma {:induction false} RecordMatchesFields(fields: seq<Option<Layout>>, size: u32, align: u32, slots: seq<Slot>)
    requires AllWellFormed(fields) && Alignment(align)
    ensures RecordAgrees(RecordFrom(fields, size, align, slots), FieldsFrom(fields, size), size, align, slots)
  {
    if fields == [] {
      if AlignTo(size, align).Some? { AlignToRounds(size, align); }
      assert slots + [] == slots;
    } else if fields[0].Some? && AlignTo(size, fields[0].value.align).Some? {
      var field := fields[0].value;
      AlignToRounds(size, field.align);
      var start := AlignTo(size, field.align).value;
      if Add(start, field.size).Some? {
        var end := Add(start, field.size).value;
        ShiftedFits(field.slots, start, field.size, field.align);
        var rest := fields[1..];
        assert forall i :: 0 <= i < |rest| ==> rest[i] == fields[i + 1];
        var widest: u32 := if align < field.align then field.align else align;
        var moved := Shifted(field.slots, start).value;
        RecordMatchesFields(rest, end, widest, slots + moved);
        RecordStep(Placed(start, field), RecordFrom(rest, end, widest, slots + moved), FieldsFrom(rest, end), size, end,
                   align, slots);
      }
    }
  }

  /** One more field in front. */
  lemma {:induction false} RecordStep(p: Placed, l: Option<Layout>, later: Option<seq<Placed>>, size: u32, end: u32,
                                      align: u32, slots: seq<Slot>)
    requires WellFormed(p.layout) && Add(p.offset, p.layout.size) == Some(end)
             && Shifted(p.layout.slots, p.offset).Some?
    requires size <= p.offset && p.offset % p.layout.align == 0
    requires var widest: u32 := if align < p.layout.align then p.layout.align else align;
             RecordAgrees(l, later, end, widest, slots + Shifted(p.layout.slots, p.offset).value)
    ensures RecordAgrees(l, if later.None? then None else Some([p] + later.value), size, align, slots)
  {
    if later.Some? {
      var placed := [p] + later.value;
      assert placed[1..] == later.value;
      EndStep(p, later.value, size, end);
      if l.Some? {
        var moved := Shifted(p.layout.slots, p.offset).value;
        assert SlotsOf(placed) == moved + SlotsOf(later.value);
        assert slots + moved + SlotsOf(later.value) == slots + (moved + SlotsOf(later.value));
      }
    }
  }

  lemma {:induction false} EndStep(p: Placed, later: seq<Placed>, size: u32, end: u32)
    requires p.offset + p.layout.size == end
    ensures FieldsEnd([p] + later, size) == FieldsEnd(later, end)
  {
    var placed := [p] + later;
    if later != [] { assert placed[|placed| - 1] == later[|later| - 1]; }
  }

  // ----- The payload offset -----

  /** Whenever a type has a layout, the alignment computed on its own is the layout's. */
  lemma {:induction false} AlignmentsAgree(ty: Type)
    requires Parameter(ty).Some?
    ensures CaseAlignment(ty) == Some(Parameter(ty).value.align)
    decreases ty, 1
  {
    match ty
    case Optional(payload) =>
      TwoCases(Some(EMPTY), Parameter(payload));
      AlignmentsAgree(payload);
      ParameterWellFormed(payload);
    case Outcome(ok, err) =>
      TwoCases(CaseLayout(ok), CaseLayout(err));
      PayloadAgrees(ok);
      PayloadAgrees(err);
      CaseWellFormed(ok);
      CaseWellFormed(err);
    case Variant(payloads) =>
      WidestAgrees(payloads, DiscriminantWidth(Length(payloads)), 0, 1);
    case _ =>
  }

  lemma {:induction false} TwoCases(a: Option<Layout>, b: Option<Layout>)
    requires Aggregate([a, b]).Some?
    ensures a.Some? && b.Some?
    ensures var m := if a.value.align < b.value.align then b.value.align else a.value.align;
            Aggregate([a, b]).value.align == if m < 1 then 1 else m
  {
    var cases := [a, b];
    assert cases[1..] == [b] && [b][1..] == [];
    assert PayloadFrom(cases, 0, 1).Some?;
    var first: u32 := if 1 < a.value.align then a.value.align else 1;
    assert PayloadFrom(cases, 0, 1) == PayloadFrom([b], a.value.size, first);
    assert PayloadFrom([b], a.value.size, first).value.align == if first < b.value.align then b.value.align else first;
  }

  lemma {:induction false} PayloadAgrees(payload: Option<Type>)
    requires CaseLayout(payload).Some?
    ensures PayloadAlignment(payload) == Some(CaseLayout(payload).value.align)
    decreases payload, 2
  {
    if payload.Some? { AlignmentsAgree(payload.value); }
  }

  /** The two folds over the cases, from any alignment the discriminant contributes. */
  lemma {:induction false} WidestAgrees(payloads: List<Option<Type>>, align: u32, size: u32, payloadAlign: u32)
    requires Alignment(align) && Alignment(payloadAlign) && PayloadFrom(CaseLayouts(payloads), size, payloadAlign).Some?
    ensures WidestCase(payloads, if align < payloadAlign then payloadAlign else align)
         == Some(var r := PayloadFrom(CaseLayouts(payloads), size,
                                      payloadAlign).value.align; if align < r then r else align)
    decreases payloads, 0
  {
    match payloads
    case Nil =>
    case Cons(payload, rest) =>
      var cases := CaseLayouts(payloads);
      assert cases[0] == CaseLayout(payload) && cases[1..] == CaseLayouts(rest);
      PayloadAgrees(payload);
      CaseWellFormed(payload);
      var l := CaseLayout(payload).value;
      WidestAgrees(rest, align, if size < l.size then l.size else size,
                   if payloadAlign < l.align then l.align else payloadAlign);
  }

  /** The offset computed from alignments equals the one the layout reserves, with the payload reaching
      exactly to the size before its final rounding; every case fits there, aligned. */
  lemma {:induction false} PayloadOffsetAgrees(payloads: List<Option<Type>>)
    requires Aggregate(CaseLayouts(payloads)).Some?
    ensures var l, cases := Aggregate(CaseLayouts(payloads)).value, CaseLayouts(payloads);
            && PayloadFrom(cases, 0, 1).Some?
            && var payload := PayloadFrom(cases, 0, 1).value;
               && PayloadOffset(payloads).Some?
               && PayloadOffset(payloads) == AlignTo(DiscriminantWidth(|cases|), payload.align)
               && Add(PayloadOffset(payloads).value, payload.size).Some?
               && AlignTo(Add(PayloadOffset(payloads).value, payload.size).value, l.align) == Some(l.size)
    ensures var l, cases := Aggregate(CaseLayouts(payloads)).value, CaseLayouts(payloads);
            && PayloadOffset(payloads).Some?
            && var offset := PayloadOffset(payloads).value;
               && DiscriminantWidth(Length(payloads)) <= offset
               && forall i :: 0 <= i < |cases| ==>
                    cases[i].Some? && cases[i].value.align > 0 && offset % cases[i].value.align == 0
                        && offset + cases[i].value.size <= l.size
                    && cases[i].value.align <= l.align
  {
    var cases := CaseLayouts(payloads);
    CasesWellFormed(payloads);
    PayloadCovers(cases, 0, 1);
    WidestAgrees(payloads, 1, 0, 1);
    var payload := PayloadFrom(cases, 0, 1).value;
    AlignToRounds(DiscriminantWidth(|cases|), payload.align);
    var offset := AlignTo(DiscriminantWidth(|cases|), payload.align).value;
    var align: u32 := if DiscriminantWidth(|cases|) < payload.align then payload.align else DiscriminantWidth(|cases|);
    AlignToRounds(Add(offset, payload.size).value, align);
    forall i | 0 <= i < |cases| ensures cases[i].value.align > 0 && offset % cases[i].value.align == 0 {
      assert WellFormed(cases[i].value);
      DividesSum(offset, 0, cases[i].value.align, payload.align);
    }
  }

  // ----- The loops -----

  /** `record_layout` */
  method RecordLayout(fields: seq<Option<Layout>>) returns (r: Option<Layout>)
    ensures r == RecordFrom(fields, 0, 1, [])
  {
    var size: u32, align: u32, slots: seq<Slot> := 0, 1, [];
    assert fields[0..] == fields;
    for i := 0 to |fields|
      invariant RecordFrom(fields, 0, 1, []) == RecordFrom(fields[i..], size, align, slots)
    {
      assert fields[i..][0] == fields[i] && fields[i..][1..] == fields[i + 1..];
      if fields[i].None? { return None; }
      var field := fields[i].value;
      var start := AlignTo(size, field.align);
      if start.None? { return None; }
      var moved := MoveSlots(field.slots, start.value);
      if moved.None? { return None; }
      var end := Add(start.value, field.size);
      if end.None? { return None; }
      slots := slots + moved.value;
      size := end.value;
      align := if align < field.align then field.align else align;
    }
    assert fields[|fields|..] == [];
    var total := AlignTo(size, align);
    if total.None? { return None; }
    r := Some(Layout(total.value, align, slots));
  }

  method MoveSlots(slots: seq<Slot>, base: u32) returns (r: Option<seq<Slot>>)
    ensures r == Shifted(slots, base)
  {
    var moved: seq<Slot> := [];
    ghost var all := Shifted(slots, base);
    assert all.Some? ==> moved + all.value == all.value;
    assert slots[0..] == slots;
    for i := 0 to |slots|
      invariant var rest := Shifted(slots[i..], base);
                Shifted(slots, base) == if rest.None? then None else Some(moved + rest.value)
    {
      assert slots[i..][0] == slots[i] && slots[i..][1..] == slots[i + 1..];
      var offset := Add(base, slots[i].offset);
      if offset.None? { return None; }
      ghost var before := moved;
      moved := moved + [Slot(offset.value, slots[i].kind)];
      var rest := Shifted(slots[i + 1..], base);
      if rest.Some? { assert before + ([Slot(offset.value, slots[i].kind)] + rest.value) == moved + rest.value; }
    }
    assert slots[|slots|..] == [];
    assert moved + [] == moved;
    r := Some(moved);
  }

  /** `record_fields` */
  method RecordFields(fields: seq<Option<Layout>>) returns (r: Option<seq<Placed>>)
    ensures r == FieldsFrom(fields, 0)
  {
    var offset: u32, layouts: seq<Placed> := 0, [];
    ghost var all := FieldsFrom(fields, 0);
    assert all.Some? ==> layouts + all.value == all.value;
    assert fields[0..] == fields;
    for i := 0 to |fields|
      invariant var rest := FieldsFrom(fields[i..], offset);
                FieldsFrom(fields, 0) == if rest.None? then None else Some(layouts + rest.value)
    {
      assert fields[i..][0] == fields[i] && fields[i..][1..] == fields[i + 1..];
      if fields[i].None? { return None; }
      var field := fields[i].value;
      var start := AlignTo(offset, field.align);
      if start.None? { return None; }
      ghost var before := layouts;
      layouts := layouts + [Placed(start.value, field)];
      var end := Add(start.value, field.size);
      if end.None? { return None; }
      offset := end.value;
      ghost var rest := FieldsFrom(fields[i + 1..], offset);
      if rest.Some? { assert before + ([Placed(start.value, field)] + rest.value) == layouts + rest.value; }
    }
    assert fields[|fields|..] == [];
    assert layouts + [] == layouts;
    r := Some(layouts);
  }

  /** `aggregate_layout` */
  method AggregateLayout(cases: seq<Option<Layout>>) returns (r: Option<Layout>)
    ensures r == Aggregate(cases)
  {
    var payloadSize: u32, payloadAlign: u32 := 0, 1;
    assert cases[0..] == cases;
    for i := 0 to |cases|
      invariant PayloadFrom(cases, 0, 1) == PayloadFrom(cases[i..], payloadSize, payloadAlign)
    {
      assert cases[i..][0] == cases[i] && cases[i..][1..] == cases[i + 1..];
      if cases[i].None? { return None; }
      var layout := cases[i].value;
      payloadSize := if payloadSize < layout.size then layout.size else payloadSize;
      payloadAlign := if payloadAlign < layout.align then layout.align else payloadAlign;
    }
    assert cases[|cases|..] == [];
    var discriminant := DiscriminantWidth(|cases|);
    var offset := AlignTo(discriminant, payloadAlign);
    if offset.None? { return None; }
    var align := if discriminant < payloadAlign then payloadAlign else discriminant;
    var end := Add(offset.value, payloadSize);
    if end.None? { return None; }
    var size := AlignTo(end.value, align);
    if size.None? { return None; }
    r := Some(Layout(size.value, align, [Slot(0, SlotForWidth(discriminant))]));
  }
}
