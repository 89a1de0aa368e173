/** Canonical sizes and alignments, computed without slots (crates/psrs-backend/src/abi/canonical/memory.rs), and
    that layouts have these.
 */
module AbiSizes {
  import opened Lists
  import opened AbiLayout

  datatype Extent = Extent(size: nat, align: nat)

  /** `next_multiple_of` */
  function AlignUp(value: nat, align: nat): nat {
    if align == 0 then value else (value + (align - 1)) / align * align
  }

  function Max(a: nat, b: nat): nat {
    if a < b then b else a
  }

  /** `discriminant_size`: the bytes that count up to 2^8, 2^16 or more cases. */
  function TagSize(cases: nat): nat {
    if cases <= 0x100 then 1 else if cases <= 0x1_0000 then 2 else 4
  }

  /** `size_align`, but for fixed arrays of bytes: these are laid out as an address and a length, where
      `size_align` takes their bytes in place. */
  function SizeAlign(ty: Type): Extent
    decreases ty, 1
  {
    match ty
    case Bool => Extent(1, 1)
    case Int(width, _) =>
      if width == 8 then Extent(1, 1) else if width == 16 then Extent(2, 2) else if width == 64 then Extent(8, 8)
      else Extent(4, 4)
    case Float(width) => if width == 32 then Extent(4, 4) else Extent(8, 8)
    case Char => Extent(4, 4)
    case Handle => Extent(4, 4)
    case Text => Extent(8, 4)
    case Array(_) => Extent(8, 4)
    case FixedArray(_) => Extent(8, 4)
    case Enum(cases) => Tagged(TagSize(cases), Extent(0, 1))
    case Flags(names) =>
      if names == 0 then Extent(0, 4) else if names <= 8 then Extent(1, 1) else if names <= 16 then Extent(2, 2)
      else Extent(4 * ((names + 31) / 32), 4)
    case Record(fields) => Fields(fields, 0, 1)
    case Optional(payload) => Tagged(1, SizeAlign(payload))
    case Outcome(ok, err) => Tagged(1, Both(OfPayload(ok), OfPayload(err)))
    case Variant(payloads) => Tagged(TagSize(Length(payloads)), Payloads(payloads, Extent(0, 1)))
  }

  function OfPayload(payload: Option<Type>): Extent
    decreases payload, 2
  {
    match payload
    case None => Extent(0, 1)
    case Some(ty) => SizeAlign(ty)
  }

  function Both(a: Extent, b: Extent): Extent {
    Extent(Max(a.size, b.size), Max(a.align, b.align))
  }

  /** A discriminant, and behind it the payload. */
  function Tagged(discriminant: nat, payload: Extent): Extent {
    var align := Max(discriminant, payload.align);
    Extent(AlignUp(AlignUp(discriminant, payload.align) + payload.size, align), align)
  }

  function Fields(fields: List<Type>, size: nat, align: nat): Extent
    decreases fields, 0
  {
    match fields
    case Nil => Extent(AlignUp(size, align), align)
    case Cons(ty, rest) =>
      var field := SizeAlign(ty);
      Fields(rest, AlignUp(size, field.align) + field.size, Max(align, field.align))
  }

  function Payloads(payloads: List<Option<Type>>, region: Extent): Extent
    decreases payloads, 0
  {
    match payloads
    case Nil => region
    case Cons(payload, rest) => Payloads(rest, Both(region, OfPayload(payload)))
  }

  predicate Matches(l: Layout, e: Extent) {
    l.size == e.size && l.align == e.align
  }

  /** Every layout has the canonical size and alignment. */
  lemma {:induction false} LayoutSizes(ty: Type)
    requires Parameter(ty).Some?
    ensures Matches(Parameter(ty).value, SizeAlign(ty))
    decreases ty, 1
  {
    match ty
    case Record(fields) => RecordSizes(fields, 0, 1, []);
    case Optional(payload) =>
      AggregateSizes([Some(EMPTY), Parameter(payload)]);
      TwoPayloads(Some(EMPTY), Parameter(payload));
      LayoutSizes(payload);
      ParameterWellFormed(payload);
    case Outcome(ok, err) =>
      AggregateSizes([CaseLayout(ok), CaseLayout(err)]);
      TwoPayloads(CaseLayout(ok), CaseLayout(err));
      PayloadSizes(ok);
      PayloadSizes(err);
      CaseWellFormed(ok);
      CaseWellFormed(err);
    case Variant(payloads) =>
      AggregateSizes(CaseLayouts(payloads));
      CasesSizes(payloads, 0, 1);
    case _ =>
  }

  lemma {:induction false} PayloadSizes(payload: Option<Type>)
    requires CaseLayout(payload).Some?
    ensures Matches(CaseLayout(payload).value, OfPayload(payload))
    decreases payload, 2
  {
    if payload.Some? { LayoutSizes(payload.value); }
  }

  lemma {:induction false} AggregateSizes(cases: seq<Option<Layout>>)
    requires Aggregate(cases).Some?
    ensures PayloadFrom(cases, 0, 1).Some?
    ensures var payload := PayloadFrom(cases, 0, 1).value;
            Matches(Aggregate(cases).value, Tagged(TagSize(|cases|), Extent(payload.size, payload.align)))
  {
  }

  lemma {:induction false} TwoPayloads(a: Option<Layout>, b: Option<Layout>)
    requires PayloadFrom([a, b], 0, 1).Some?
    ensures a.Some? && b.Some?
    ensures var payload := PayloadFrom([a, b], 0, 1).value;
            payload.size == Max(a.value.size, b.value.size)
            && payload.align == Max(1, Max(a.value.align, b.value.align))
  {
    var cases := [a, b];
    assert cases[1..] == [b] && [b][1..] == [];
    assert a.Some?;
    var size, align := if 0 < a.value.size then a.value.size else 0, if 1 < a.value.align then a.value.align else 1;
    assert PayloadFrom(cases, 0, 1) == PayloadFrom([b], size, align);
    assert b.Some?;
  }

  lemma {:induction false} RecordSizes(fields: List<Type>, size: u32, align: u32, slots: seq<Slot>)
    requires RecordFrom(Parameters(fields), size, align, slots).Some?
    ensures Matches(RecordFrom(Parameters(fields), size, align, slots).value, Fields(fields, size, align))
    decreases fields, 0
  {
    match fields
    case Nil =>
    case Cons(ty, rest) =>
      var all := Parameters(fields);
      assert all[0] == Parameter(ty) && all[1..] == Parameters(rest);
      var end, widest, more := OneField(all, size, align, slots);
      LayoutSizes(ty);
      RecordSizes(rest, end, widest, more);
  }

  lemma {:induction false} OneField(fields: seq<Option<Layout>>, size: u32, align: u32, slots: seq<Slot>)
    returns (end: u32, widest: u32, more: seq<Slot>)
    requires fields != [] && RecordFrom(fields, size, align, slots).Some?
    ensures fields[0].Some?
    ensures end == AlignUp(size, fields[0].value.align) + fields[0].value.size
            && widest == Max(align, fields[0].value.align)
    ensures RecordFrom(fields, size, align, slots) == RecordFrom(fields[1..], end, widest, more)
  {
    var field := fields[0].value;
    var start := AlignTo(size, field.align).value;
    end := Add(start, field.size).value;
    widest := if align < field.align then field.align else align;
    more := slots + Shifted(field.slots, start).value;
  }

  lemma {:induction false} CasesSizes(payloads: List<Option<Type>>, size: u32, align: u32)
    requires PayloadFrom(CaseLayouts(payloads), size, align).Some?
    ensures var r := PayloadFrom(CaseLayouts(payloads), size, align).value;
            Payloads(payloads, Extent(size, align)) == Extent(r.size, r.align)
    decreases payloads, 0
  {
    match payloads
    case Nil =>
    case Cons(payload, rest) =>
      var cases := CaseLayouts(payloads);
      assert cases[0] == CaseLayout(payload) && cases[1..] == CaseLayouts(rest);
      PayloadSizes(payload);
      var l := CaseLayout(payload).value;
      CasesSizes(rest, if size < l.size then l.size else size, if align < l.align then l.align else align);
  }
}
