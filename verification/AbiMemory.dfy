/** Storing values through their Canonical ABI layouts and loading them again
    (crates/psrs-backend/src/abi/layout.rs, mir/wit/parameters/indirect.rs).
 */
module AbiMemory {
  import opened Lists
  import opened AbiLayout

  /** The bytes that have been written. */
  type Memory = map<int, nat>

  function Pow(base: nat, n: nat): nat {
    if n == 0 then 1 else base * Pow(base, n - 1)
  }

  // ----- Values -----

  /** A float is its bits; text and arrays are an address and a length. */
  datatype Value =
    | Number(n: int)
    | Real(bits: nat)
    | Pointer(address: nat, length: nat)
    | Bits(flags: seq<bool>)
    | Fields(values: List<Value>)
    | Case(index: nat, payload: Option<Value>)

  function PayloadCases(ty: Type): List<Option<Type>> {
    match ty
    case Optional(payload) => Cons(None, Cons(Some(payload), Nil))
    case Outcome(ok, err) => Cons(ok, Cons(err, Nil))
    case Variant(payloads) => payloads
    case _ => Nil
  }

  function CaseAt(payloads: List<Option<Type>>, index: nat): Option<Type>
    requires index < Length(payloads)
    ensures CaseAt(payloads, index).Some? ==> CaseAt(payloads, index).value < payloads
  {
    if index == 0 then payloads.head else CaseAt(payloads.tail, index - 1)
  }

  predicate InRange(n: int, width: nat, signed: bool) {
    if signed then width > 0 && 0 - Pow(2, width - 1) <= n < Pow(2, width - 1) else 0 <= n < Pow(2, width)
  }

  /** The values of a type, whatever its layout is. */
  predicate HasType(v: Value, ty: Type)
    decreases v, 0
  {
    match ty
    case Bool => v == Number(0) || v == Number(1)
    case Int(width, signed) => v.Number? && InRange(v.n, width, signed)
    case Float(width) => v.Real? && v.bits < Pow(2, width)
    case Char => v.Number? && 0 <= v.n < 0x11_0000
    case Handle => v.Number? && 0 <= v.n < LIMIT
    case Text => v.Pointer? && v.address < LIMIT && v.length < LIMIT
    case Array(_) => v.Pointer? && v.address < LIMIT && v.length < LIMIT
    case FixedArray(_) => v.Pointer? && v.address < LIMIT && v.length < LIMIT
    case Enum(cases) => v.Number? && 0 <= v.n < cases
    case Flags(names) => v.Bits? && |v.flags| == names
    case Record(fields) => v.Fields? && HaveTypes(v.values, fields)
    case _ =>
      && v.Case? && v.index < Length(PayloadCases(ty))
      && var payload := CaseAt(PayloadCases(ty), v.index);
         v.payload.Some? == payload.Some? && (payload.Some? ==> HasType(v.payload.value, payload.value))
  }

  predicate HaveTypes(vs: List<Value>, fields: List<Type>)
    decreases vs, 0
  {
    match vs
    case Nil => fields.Nil?
    case Cons(v, rest) => fields.Cons? && HasType(v, fields.head) && HaveTypes(rest, fields.tail)
  }

  /** The widths that interface types have, and no more cases than a discriminant can tell apart. */
  predicate Encodable(ty: Type)
    decreases ty
  {
    match ty
    case Int(width, _) => width == 8 || width == 16 || width == 32 || width == 64
    case Float(width) => width == 32 || width == 64
    case Enum(cases) => cases <= LIMIT
    case Record(fields) => AllEncodable(fields)
    case Optional(payload) => Encodable(payload)
    case Outcome(ok, err) => (ok.Some? ==> Encodable(ok.value)) && (err.Some? ==> Encodable(err.value))
    case Variant(payloads) => Length(payloads) <= LIMIT && CasesEncodable(payloads)
    case _ => true
  }

  predicate AllEncodable(fields: List<Type>)
    decreases fields
  {
    match fields
    case Nil => true
    case Cons(ty, rest) => Encodable(ty) && AllEncodable(rest)
  }

  predicate CasesEncodable(payloads: List<Option<Type>>)
    decreases payloads
  {
    match payloads
    case Nil => true
    case Cons(payload, rest) => (payload.Some? ==> Encodable(payload.value)) && CasesEncodable(rest)
  }

  // ----- Bytes -----

  /** The low `width` bytes of a number, the lowest one first. */
  function Write(mem: Memory, at: int, width: nat, n: int): Memory
    decreases width
  {
    if width == 0 then mem else Write(mem[at := n % 256], at + 1, width - 1, n / 256)
  }

  function ByteAt(mem: Memory, at: int): nat {
    if at in mem then mem[at] else 0
  }

  function Read(mem: Memory, at: int, width: nat): nat
    decreases width
  {
    if width == 0 then 0 else ByteAt(mem, at) + 256 * Read(mem, at + 1, width - 1)
  }

  ghost predicate SameOn(a: Memory, b: Memory, from: int, to: int) {
    forall i :: from <= i < to ==> ByteAt(a, i) == ByteAt(b, i)
  }

  ghost predicate SameOutside(a: Memory, b: Memory, from: int, to: int) {
    forall i :: i < from || to <= i ==> ByteAt(a, i) == ByteAt(b, i)
  }

  lemma {:induction false} WriteFrame(mem: Memory, at: int, width: nat, n: int)
    ensures SameOutside(mem, Write(mem, at, width, n), at, at + width)
    decreases width
  {
    if width > 0 { WriteFrame(mem[at := n % 256], at + 1, width - 1, n / 256); }
  }

  lemma {:induction false} ReadSame(a: Memory, b: Memory, at: int, width: nat)
    requires SameOn(a, b, at, at + width)
    ensures Read(a, at, width) == Read(b, at, width)
    decreases width
  {
    if width > 0 { ReadSame(a, b, at + 1, width - 1); }
  }

  lemma {:induction false} PowPositive(base: nat, n: nat)
    requires base > 0
    ensures Pow(base, n) > 0
  {
    if n > 0 { PowPositive(base, n - 1); }
  }

  lemma {:induction false} ReadWrite(mem: Memory, at: int, width: nat, n: int)
    ensures Read(Write(mem, at, width, n), at, width) == n % Pow256(width)
    decreases width
  {
    if width > 0 {
      var first := mem[at := n % 256];
      ReadWrite(first, at + 1, width - 1, n / 256);
      WriteFrame(first, at + 1, width - 1, n / 256);
      assert ByteAt(Write(mem, at, width, n), at) == n % 256;
      Digits(n, width);
    }
  }

  function Pow256(width: nat): (r: nat)
    ensures r > 0
  {
    PowPositive(256, width);
    Pow(256, width)
  }

  lemma {:induction false} Digits(n: int, width: nat)
    requires width > 0
    ensures n % Pow256(width) == n % 256 + 256 * ((n / 256) % Pow256(width - 1))
  {
    var p := Pow256(width - 1);
    var q, r := n / 256, n % 256;
    var high, low := q / p, q % p;
    assert n == 256 * q + r && q == p * high + low;
    assert Pow256(width) == 256 * p;
    DivideUnique(n, 256 * p, high, 256 * low + r);
  }

  lemma {:induction false} DivideUnique(n: int, d: int, q: int, r: int)
    requires d > 0 && 0 <= r < d && n == d * q + r
    ensures n / d == q && n % d == r
  {
    var q', r' := n / d, n % d;
    assert n == d * q' + r';
    if q' > q {
      MultiplyMore(d, q + 1, q');
      MultiplyMore(d, q, q);
    } else if q' < q {
      MultiplyMore(d, q' + 1, q);
      MultiplyMore(d, q', q');
    }
  }

  lemma {:induction false} MultiplyMore(d: int, a: int, b: int)
    requires d > 0 && a <= b
    ensures d * a <= d * b && d * (a + 1) == d * a + d
  {
    assert d * b - d * a == d * (b - a) >= 0;
  }

  // ----- Scalars in slots -----

  function SlotsStored(slots: seq<Slot>, nums: seq<int>, mem: Memory, at: int): Memory
    requires |nums| == |slots|
  {
    if slots == [] then mem
    else
      var n := |slots| - 1;
      Write(SlotsStored(slots[..n], nums[..n], mem, at), at + slots[n].offset, Width(slots[n].kind), nums[n])
  }

  function SlotsLoaded(slots: seq<Slot>, mem: Memory, at: int): (nums: seq<nat>)
    ensures |nums| == |slots|
  {
    seq(|slots|, i requires 0 <= i < |slots| => Read(mem, at + slots[i].offset, Width(slots[i].kind)))
  }

  lemma {:induction false} SlotsRoundTrip(slots: seq<Slot>, nums: seq<int>, mem: Memory, at: int, size: int, align: int)
    requires |nums| == |slots| && SlotsFit(slots, 0, size, align)
    ensures SameOutside(mem, SlotsStored(slots, nums, mem, at), at, at + size)
    ensures forall i :: 0 <= i < |slots| ==>
              SlotsLoaded(slots, SlotsStored(slots, nums, mem, at), at)[i] == nums[i] % Pow256(Width(slots[i].kind))
  {
    if slots != [] {
      var n := |slots| - 1;
      var before, last := SlotsStored(slots[..n], nums[..n], mem, at), slots[n];
      var after := SlotsStored(slots, nums, mem, at);
      assert SlotsFit(slots[..n], 0, size, align);
      SlotsRoundTrip(slots[..n], nums[..n], mem, at, size, align);
      assert SlotFits(last, 0, size, align);
      WriteFrame(before, at + last.offset, Width(last.kind), nums[n]);
      ReadWrite(before, at + last.offset, Width(last.kind), nums[n]);
      forall i | 0 <= i < n
        ensures Read(after, at + slots[i].offset, Width(slots[i].kind)) == nums[i] % Pow256(Width(slots[i].kind))
      {
        assert slots[..n][i] == slots[i] && SlotsLoaded(slots[..n], before, at)[i]
               == Read(before, at + slots[i].offset, Width(slots[i].kind));
        ReadSame(after, before, at + slots[i].offset, Width(slots[i].kind));
      }
    }
  }

  lemma {:induction false} SlotsLoadedSame(slots: seq<Slot>, a: Memory, b: Memory, at: int, size: int, align: int)
    requires SlotsFit(slots, 0, size, align) && SameOn(a, b, at, at + size)
    ensures SlotsLoaded(slots, a, at) == SlotsLoaded(slots, b, at)
  {
    forall i | 0 <= i < |slots|
      ensures SlotsLoaded(slots, a, at)[i] == SlotsLoaded(slots, b, at)[i]
    {
      assert SlotFits(slots[i], 0, size, align);
      ReadSame(a, b, at + slots[i].offset, Width(slots[i].kind));
    }
  }

  /** The number whose binary digits are the flags, the lowest one first. */
  function BitsNumber(flags: seq<bool>): nat {
    if flags == [] then 0 else (if flags[0] then 1 else 0) + 2 * BitsNumber(flags[1..])
  }

  function BitOf(n: nat, i: nat): bool {
    if i == 0 then n % 2 == 1 else BitOf(n / 2, i - 1)
  }

  /** The flags in words of `width` bits. */
  function Words(flags: seq<bool>, width: nat, count: nat): (r: seq<nat>)
    ensures |r| == count
    decreases count
  {
    if count == 0 then []
    else if |flags| <= width then [BitsNumber(flags)] + Words([], width, count - 1)
    else [BitsNumber(flags[..width])] + Words(flags[width..], width, count - 1)
  }

  function FlagIn(words: seq<nat>, width: nat, i: nat): bool
    decreases |words|
  {
    if words == [] then false else if i < width then BitOf(words[0], i) else FlagIn(words[1..], width, i - width)
  }

  /** What is stored in the slots of a value. */
  function Scalars(v: Value, slots: seq<Slot>): seq<int> {
    match v
    case Number(n) => [n]
    case Real(bits) => [bits]
    case Pointer(address, length) => [address, length]
    case Bits(flags) => if slots == [] then [] else Words(flags, 8 * Width(slots[0].kind), |slots|)
    case _ => []
  }

  function SignExtended(n: nat, width: nat): int {
    if width > 0 && n >= Pow(2, width - 1) then n - Pow(2, width) else n
  }

  /** A float slot yields a float. */
  function ScalarIn(kind: SlotKind, n: nat): Value {
    if kind.F32? || kind.F64? then Real(n) else Number(n)
  }

  /** The value of a type that the loaded slots stand for. */
  function FromSlots(ty: Type, slots: seq<Slot>, nums: seq<nat>): Value
    requires |nums| == |slots|
  {
    match ty
    case Flags(names) =>
      Bits(seq(names, i requires 0 <= i < names => slots != [] && FlagIn(nums, 8 * Width(slots[0].kind), i)))
    case _ =>
      if |slots| == 2 then Pointer(nums[0], nums[1])
      else if |slots| == 1 then
        if ty.Int? && ty.signed then Number(SignExtended(nums[0], ty.width)) else ScalarIn(slots[0].kind, nums[0])
      else Fields(Nil)
  }

  // ----- Values of every type -----

  function DiscriminantSlot(cases: nat): SlotKind {
    SlotForWidth(DiscriminantWidth(cases))
  }

  predicate HasCases(ty: Type) {
    ty.Optional? || ty.Outcome? || ty.Variant?
  }

  /** `store_parameter`: a record stores its fields where `record_fields` puts them, a type with cases its
      discriminant, and behind it the payload of the case. */
  function Store(ty: Type, v: Value, mem: Memory, at: int): Memory
    requires HasType(v, ty)
    decreases v, 1
  {
    if ty.Record? then
      match FieldsFrom(Parameters(ty.fields), 0)
      case None => mem
      case Some(placed) => StoreFields(ty.fields, v.values, placed, mem, at)
    else if HasCases(ty) then
      var cases := PayloadCases(ty);
      var tagged := Write(mem, at, Width(DiscriminantSlot(Length(cases))), v.index);
      if v.payload.None? || PayloadOffset(cases).None? then tagged
      else Store(CaseAt(cases, v.index).value, v.payload.value, tagged, at + PayloadOffset(cases).value)
    else
      match Parameter(ty)
      case None => mem
      case Some(l) =>
        var nums := Scalars(v, l.slots);
        if |nums| == |l.slots| then SlotsStored(l.slots, nums, mem, at) else mem
  }

  function StoreFields(fields: List<Type>, vs: List<Value>, placed: seq<Placed>, mem: Memory, at: int): Memory
    requires HaveTypes(vs, fields)
    decreases vs, 0
  {
    if vs.Nil? || placed == [] then mem
    else StoreFields(fields.tail, vs.tail, placed[1..], Store(fields.head, vs.head, mem, at + placed[0].offset), at)
  }

  lemma {:induction false} CaseOfTwo(a: Option<Type>, b: Option<Type>, i: nat)
    ensures Length(Cons(a, Cons(b, Nil))) == 2
    ensures i < 2 ==> CaseAt(Cons(a, Cons(b, Nil)), i) == if i == 0 then a else b
  {
    assert Length(Cons(b, Nil)) == 1 + Length<Option<Type>>(Nil);
    assert CaseAt(Cons(b, Nil), 0) == b;
  }

  lemma {:induction false} CaseSmaller(ty: Type, i: nat)
    requires i < Length(PayloadCases(ty)) && CaseAt(PayloadCases(ty), i).Some?
    ensures CaseAt(PayloadCases(ty), i).value < ty
  {
    match ty
    case Optional(payload) => CaseOfTwo(None, Some(payload), i);
    case Outcome(ok, err) => CaseOfTwo(ok, err, i);
    case Variant(payloads) =>
  }

  function Load(ty: Type, mem: Memory, at: int): Value
    decreases ty, 1
  {
    if ty.Record? then
      match FieldsFrom(Parameters(ty.fields), 0)
      case None => Fields(Nil)
      case Some(placed) => Fields(LoadFields(ty.fields, placed, mem, at))
    else if HasCases(ty) then
      var cases := PayloadCases(ty);
      var index := Read(mem, at, Width(DiscriminantSlot(Length(cases))));
      if index >= Length(cases) || CaseAt(cases, index).None? || PayloadOffset(cases).None? then Case(index, None)
      else
        CaseSmaller(ty, index);
        Case(index, Some(Load(CaseAt(cases, index).value, mem, at + PayloadOffset(cases).value)))
    else
      match Parameter(ty)
      case None => Fields(Nil)
      case Some(l) => FromSlots(ty, l.slots, SlotsLoaded(l.slots, mem, at))
  }

  function LoadFields(fields: List<Type>, placed: seq<Placed>, mem: Memory, at: int): List<Value>
    decreases fields, 0
  {
    if fields.Nil? || placed == [] then Nil
    else Cons(Load(fields.head, mem, at + placed[0].offset), LoadFields(fields.tail, placed[1..], mem, at))
  }

  // ----- Numbers fit their slots -----

  lemma {:induction false} BitsOfBytes(width: nat)
    ensures Pow(2, 8 * width) == Pow256(width)
  {
    if width > 0 {
      BitsOfBytes(width - 1);
      var n := 8 * (width - 1);
      assert Pow(2, n + 2) == 2 * Pow(2, n + 1) && Pow(2, n + 1) == 2 * Pow(2, n);
      assert Pow(2, n + 4) == 2 * Pow(2, n + 3) && Pow(2, n + 3) == 2 * Pow(2, n + 2);
      assert Pow(2, n + 6) == 2 * Pow(2, n + 5) && Pow(2, n + 5) == 2 * Pow(2, n + 4);
      assert Pow(2, n + 8) == 2 * Pow(2, n + 7) && Pow(2, n + 7) == 2 * Pow(2, n + 6);
    }
  }

  lemma {:induction false} SmallPowers()
    ensures Pow256(1) == 256 && Pow256(2) == 0x1_0000 && Pow256(4) == LIMIT
  {
    assert Pow256(1) == 256 * Pow(256, 0);
    assert Pow256(2) == 256 * Pow256(1);
    assert Pow(256, 3) == 256 * Pow256(2);
    assert Pow256(4) == 256 * Pow(256, 3);
  }

  /** The discriminant is wide enough for every case, and no narrower one of the three widths is. */
  lemma {:induction false} DiscriminantHolds(cases: nat)
    ensures var w := DiscriminantWidth(cases);
            && (w == 1 || w == 2 || w == 4)
            && (cases <= LIMIT ==> cases <= Pow256(w))
            && (w > 1 ==> cases > Pow256(w / 2))
  {
    SmallPowers();
  }

  lemma {:induction false} ModuloSmall(n: int, d: int)
    requires 0 <= n < d
    ensures n % d == n
  {
    DivideUnique(n, d, 0, n);
  }

  /** Two's complement of `width` bits. */
  lemma {:induction false} SignedRoundTrip(n: int, width: nat)
    requires width > 0 && 0 - Pow(2, width - 1) <= n < Pow(2, width - 1)
    ensures Pow(2, width) > 0 && SignExtended(n % Pow(2, width), width) == n
  {
    var half, d := Pow(2, width - 1), Pow(2, width);
    assert d == 2 * half;
    if n >= 0 { ModuloSmall(n, d); } else { DivideUnique(n, d, -1, n + d); }
  }

  // ----- Flags -----

  lemma {:induction false} BitsNumberSmall(flags: seq<bool>, width: nat)
    requires |flags| <= width
    ensures BitsNumber(flags) < Pow(2, width)
    decreases width
  {
    if flags != [] { BitsNumberSmall(flags[1..], width - 1); } else { PowPositive(2, width); }
  }

  lemma {:induction false} BitOfBits(flags: seq<bool>, i: nat)
    requires i < |flags|
    ensures BitOf(BitsNumber(flags), i) == flags[i]
  {
    var rest := BitsNumber(flags[1..]);
    assert (2 * rest) / 2 == rest && (1 + 2 * rest) / 2 == rest && (2 * rest) % 2 == 0 && (1 + 2 * rest) % 2 == 1;
    if i > 0 {
      BitOfBits(flags[1..], i - 1);
    }
  }

  // ----- Leaves -----

  predicate IsScalar(ty: Type) {
    !ty.Record? && !HasCases(ty) && !ty.Flags? && !ty.Text? && !ty.Array? && !ty.FixedArray?
  }

  /** The one slot of a scalar is large enough and of the right sort. */
  lemma {:induction false} ScalarHolds(ty: Type, v: Value)
    requires IsScalar(ty) && Parameter(ty).Some? && Encodable(ty) && HasType(v, ty)
    ensures ScalarFits(ty, v, Parameter(ty).value.slots)
  {
    match ty
    case Int(_, _) => IntHolds(ty, v);
    case Float(_) => FloatHolds(ty, v);
    case Enum(_) => EnumHolds(ty, v);
    case _ => WordHolds(ty, v);
  }

  ghost predicate ScalarFits(ty: Type, v: Value, slots: seq<Slot>) {
    |slots| == 1 && |Scalars(v, slots)| == 1
    && FromSlots(ty, slots, [Scalars(v, slots)[0] % Pow256(Width(slots[0].kind))]) == v
  }

  lemma {:induction false} IntHolds(ty: Type, v: Value)
    requires ty.Int? && Encodable(ty) && HasType(v, ty)
    ensures ScalarFits(ty, v, Parameter(ty).value.slots)
  {
    var w := Width(Parameter(ty).value.slots[0].kind);
    BitsOfBytes(w);
    assert ty.width == 8 * w;
    if ty.signed { SignedRoundTrip(v.n, ty.width); } else { ModuloSmall(v.n, Pow256(w)); }
  }

  lemma {:induction false} FloatHolds(ty: Type, v: Value)
    requires ty.Float? && Encodable(ty) && HasType(v, ty)
    ensures ScalarFits(ty, v, Parameter(ty).value.slots)
  {
    var w := Width(Parameter(ty).value.slots[0].kind);
    BitsOfBytes(w);
    assert ty.width == 8 * w;
    ModuloSmall(v.bits, Pow256(w));
  }

  lemma {:induction false} EnumHolds(ty: Type, v: Value)
    requires ty.Enum? && Encodable(ty) && HasType(v, ty)
    ensures ScalarFits(ty, v, Parameter(ty).value.slots)
  {
    DiscriminantHolds(ty.cases);
    ModuloSmall(v.n, Pow256(DiscriminantWidth(ty.cases)));
  }

  lemma {:induction false} WordHolds(ty: Type, v: Value)
    requires (ty.Bool? || ty.Char? || ty.Handle?) && HasType(v, ty)
    ensures ScalarFits(ty, v, Parameter(ty).value.slots)
  {
    SmallPowers();
    ModuloSmall(v.n, Pow256(Width(Parameter(ty).value.slots[0].kind)));
  }

  lemma {:induction false} PointerHolds(ty: Type, v: Value)
    requires (ty.Text? || ty.Array? || ty.FixedArray?) && Parameter(ty).Some? && HasType(v, ty)
    ensures var slots := Parameter(ty).value.slots;
            |slots| == 2 && |Scalars(v, slots)| == 2
            && FromSlots(ty, slots, [Scalars(v, slots)[0] % Pow256(Width(slots[0].kind)),
                                     Scalars(v, slots)[1] % Pow256(Width(slots[1].kind))]) == v
  {
    SmallPowers();
    ModuloSmall(v.address, LIMIT);
    ModuloSmall(v.length, LIMIT);
  }

  lemma {:induction false} FlagSlotsAre(count: nat, width: u32)
    requires (width == 1 || width == 2 || width == 4) && FlagSlots(count, width).Some?
    ensures var slots := FlagSlots(count, width).value;
            |slots| == count && forall k :: 0 <= k < count ==> slots[k].kind == SlotForWidth(width)
  {
    if count > 0 { FlagSlotsAre(count - 1, width); }
  }

  /** The bytes of a flags type: enough bits for every flag, in the smallest of the shapes 0, 1, 2 and 4m. */
  lemma {:induction false} FlagsSize(names: nat)
    requires FlagsLayout(names).Some?
    ensures var l := FlagsLayout(names).value;
            && names <= 8 * l.size
            && (l.size == 0 || l.size == 1 || l.size == 2 || l.size % 4 == 0)
            && (l.size == 1 ==> names > 0) && (l.size == 2 ==> names > 8) && (l.size == 4 ==> names > 16)
            && (l.size > 4 ==> names > 8 * (l.size - 4))
            && forall i :: 0 <= i < |l.slots| ==>
                 l.slots[i].kind == l.slots[0].kind && |l.slots| * Width(l.slots[0].kind) == l.size
  {
    if names > 0 {
      var width: u32 := if names <= 8 then 1 else if names <= 16 then 2 else 4;
      var words := if names <= 32 then 1 else (names + 31) / 32;
      FlagSlotsAre(words, width);
    }
  }

  ghost predicate ScalarsStored(v: Value, slots: seq<Slot>, nums: seq<nat>) {
    && |nums| == |slots| == |Scalars(v, slots)|
    && forall k :: 0 <= k < |slots| ==> nums[k] == Scalars(v, slots)[k] % Pow256(Width(slots[k].kind))
  }

  lemma {:induction false} FlagsHold(names: nat, v: Value, nums: seq<nat>)
    requires FlagsLayout(names).Some? && v.Bits? && |v.flags| == names
    requires ScalarsStored(v, FlagsLayout(names).value.slots, nums)
    ensures FromSlots(Flags(names), FlagsLayout(names).value.slots, nums) == v
  {
    FlagsSize(names);
    if names == 0 {
      assert v.flags == [];
    } else {
      FlagsLoaded(v.flags, FlagsLayout(names).value.slots, nums);
    }
  }

  lemma {:induction false} FlagsLoaded(flags: seq<bool>, slots: seq<Slot>, nums: seq<nat>)
    requires slots != [] && forall k :: 0 <= k < |slots| ==> slots[k].kind == slots[0].kind
    requires |flags| <= 8 * (|slots| * Width(slots[0].kind)) && ScalarsStored(Bits(flags), slots, nums)
    ensures FromSlots(Flags(|flags|), slots, nums) == Bits(flags)
  {
    var w := Width(slots[0].kind);
    TotalIs(|slots|, 8 * w);
    var loaded := FromSlots(Flags(|flags|), slots, nums);
    forall i | 0 <= i < |flags| ensures loaded.flags[i] == flags[i] {
      FlagHolds(flags, w, nums, i);
    }
    assert loaded.flags == flags;
  }

  function Total(count: nat, width: nat): nat {
    if count == 0 then 0 else width + Total(count - 1, width)
  }

  lemma {:induction false} TotalIs(count: nat, width: nat)
    ensures Total(count, width) == count * width
  {
    if count > 0 { TotalIs(count - 1, width); }
  }

  lemma {:induction false} FlagHolds(flags: seq<bool>, w: nat, nums: seq<nat>, i: nat)
    requires i < |flags| <= Total(|nums|, 8 * w)
    requires forall k :: 0 <= k < |nums| ==> nums[k] == Words(flags, 8 * w, |nums|)[k] % Pow256(w)
    ensures FlagIn(nums, 8 * w, i) == flags[i]
    decreases |nums|
  {
    var width, words := 8 * w, Words(flags, 8 * w, |nums|);
    var first := if |flags| <= width then flags else flags[..width];
    assert nums[0] == words[0] % Pow256(w) && words[0] == BitsNumber(first);
    if i < width {
      BitsNumberSmall(first, width);
      BitsOfBytes(w);
      ModuloSmall(BitsNumber(first), Pow256(w));
      BitOfBits(first, i);
    } else {
      forall k | 0 <= k < |nums| - 1
        ensures nums[1..][k] == Words(flags[width..], width, |nums| - 1)[k] % Pow256(w)
      {
        assert nums[k + 1] == words[k + 1] % Pow256(w);
      }
      FlagHolds(flags[width..], w, nums[1..], i - width);
    }
  }

  // ----- Storing and loading again -----

  ghost predicate Yields(ty: Type, mem: Memory, at: int, v: Value) {
    Load(ty, mem, at) == v
  }

  /** Only bytes from `at` to `end` have been written, and whoever finds these loads the value. */
  ghost predicate Holds(ty: Type, v: Value, mem: Memory, stored: Memory, at: int, end: int) {
    && SameOutside(mem, stored, at, end)
    && forall other: Memory :: SameOn(stored, other, at, end) ==> Yields(ty, other, at, v)
  }

  /** Storing writes only the bytes of the layout, and loading from these gives the value back. */
  ghost predicate RoundTrips(ty: Type, v: Value, mem: Memory, at: int)
    requires HasType(v, ty) && Parameter(ty).Some?
  {
    Holds(ty, v, mem, Store(ty, v, mem, at), at, at + Parameter(ty).value.size)
  }

  lemma {:induction false} LeafRoundTrip(ty: Type, v: Value, mem: Memory, at: int)
    requires !ty.Record? && !HasCases(ty) && HasType(v, ty) && Encodable(ty) && Parameter(ty).Some?
    ensures RoundTrips(ty, v, mem, at)
  {
    var l := Parameter(ty).value;
    ParameterWellFormed(ty);
    if IsScalar(ty) { ScalarHolds(ty, v); } else if !ty.Flags? { PointerHolds(ty, v); }
    var nums := Scalars(v, l.slots);
    SlotsRoundTrip(l.slots, nums, mem, at, l.size, l.align);
    var stored := SlotsStored(l.slots, nums, mem, at);
    forall other: Memory | SameOn(stored, other, at, at + l.size)
      ensures Load(ty, other, at) == v
    {
      SlotsLoadedSame(l.slots, stored, other, at, l.size, l.align);
      LeafLoads(ty, v, l.slots, SlotsLoaded(l.slots, other, at));
    }
  }

  lemma {:induction false} LeafLoads(ty: Type, v: Value, slots: seq<Slot>, nums: seq<nat>)
    requires !ty.Record? && !HasCases(ty) && HasType(v, ty) && Encodable(ty)
    requires Parameter(ty).Some? && slots == Parameter(ty).value.slots
    requires ScalarsStored(v, slots, nums)
    ensures FromSlots(ty, slots, nums) == v
  {
    if ty.Flags? {
      FlagsHold(ty.names, v, nums);
    } else if IsScalar(ty) {
      ScalarHolds(ty, v);
      assert nums == [nums[0]];
    } else {
      PointerHolds(ty, v);
      assert nums == [nums[0], nums[1]];
    }
  }

  /** Whatever has a layout comes back from memory as it was stored, and no byte beside it changes. */
  lemma {:induction false} RoundTrip(ty: Type, v: Value, mem: Memory, at: int)
    requires HasType(v, ty) && Encodable(ty) && Parameter(ty).Some?
    ensures RoundTrips(ty, v, mem, at)
    decreases v, 2
  {
    if ty.Record? {
      RecordPlaced(ty);
      var placed, size := FieldsFrom(Parameters(ty.fields), 0).value, Parameter(ty).value.size;
      FieldsLaid(ty.fields, placed, 0, 0, size);
      FieldsRoundTrip(ty.fields, v.values, placed, 0, size, mem, at);
      RecordRounds(ty, v, placed, mem, at);
    } else if HasCases(ty) {
      CaseRoundTrip(ty, v, mem, at);
    } else {
      LeafRoundTrip(ty, v, mem, at);
    }
  }

  lemma {:induction false} RecordRounds(ty: Type, v: Value, placed: seq<Placed>, mem: Memory, at: int)
    requires ty.Record? && HasType(v, ty) && Parameter(ty).Some? && FieldsFrom(Parameters(ty.fields), 0) == Some(placed)
    requires FieldsRound(ty.fields, v.values, placed, mem, at, 0, Parameter(ty).value.size)
    ensures RoundTrips(ty, v, mem, at)
  {
    var stored, end := Store(ty, v, mem, at), at + Parameter(ty).value.size;
    assert stored == StoreFields(ty.fields, v.values, placed, mem, at);
    forall other: Memory | SameOn(stored, other, at, end) ensures Load(ty, other, at) == v {
      assert SameOn(stored, other, at + 0, end);
    }
  }

  lemma {:induction false} RecordPlaced(ty: Type)
    requires ty.Record? && Parameter(ty).Some?
    ensures var placed := FieldsFrom(Parameters(ty.fields), 0);
            placed.Some? && InOrder(placed.value, 0, Parameter(ty).value.size)
  {
    ParametersWellFormed(ty.fields);
    RecordMatchesFields(Parameters(ty.fields), 0, 1, []);
  }

  /** The same for a list of fields. */
  ghost predicate FieldsStored(fields: List<Type>, vs: List<Value>, placed: seq<Placed>, mem: Memory, stored: Memory,
                               at: int, from: int, to: int) {
    && SameOutside(mem, stored, at + from, at + to)
    && forall other: Memory ::
         SameOn(stored, other, at + from, at + to) ==> LoadFields(fields, placed, other, at) == vs
  }

  ghost predicate FieldsRound(fields: List<Type>, vs: List<Value>, placed: seq<Placed>, mem: Memory, at: int,
                              from: int, to: int)
    requires HaveTypes(vs, fields)
  {
    FieldsStored(fields, vs, placed, mem, StoreFields(fields, vs, placed, mem, at), at, from, to)
  }

  /** Every field has its layout, and they follow one another from `from` to `to`. */
  ghost predicate Laid(fields: List<Type>, placed: seq<Placed>, from: int, to: int) {
    match fields
    case Nil => placed == [] && from <= to
    case Cons(ty, rest) =>
      && placed != [] && Parameter(ty) == Some(placed[0].layout) && from <= placed[0].offset
      && placed[0].offset + placed[0].layout.size <= to
      && Laid(rest, placed[1..], placed[0].offset + placed[0].layout.size, to)
  }

  lemma {:induction false} FieldsLaid(fields: List<Type>, placed: seq<Placed>, offset: u32, from: int, to: int)
    requires FieldsFrom(Parameters(fields), offset) == Some(placed) && InOrder(placed, from, to)
    ensures Laid(fields, placed, from, to)
  {
    if fields.Cons? {
      FirstPlaced(fields, placed, offset, from, to);
      var end := placed[0].offset + placed[0].layout.size;
      FieldsLaid(fields.tail, placed[1..], end, end, to);
    }
  }

  lemma {:induction false} FieldsRoundTrip(fields: List<Type>, vs: List<Value>, placed: seq<Placed>, from: int, to: int,
                                           mem: Memory, at: int)
    requires HaveTypes(vs, fields) && AllEncodable(fields) && Laid(fields, placed, from, to)
    ensures FieldsRound(fields, vs, placed, mem, at, from, to)
    decreases vs, 0
  {
    if vs.Cons? {
      var end := placed[0].offset + placed[0].layout.size;
      RoundTrip(fields.head, vs.head, mem, at + placed[0].offset);
      FieldsRoundTrip(fields.tail, vs.tail, placed[1..], end, to,
                      Store(fields.head, vs.head, mem, at + placed[0].offset), at);
      FieldStep(fields, vs, placed, mem, at, from, end, to);
    }
  }

  lemma {:induction false} FieldStep(fields: List<Type>, vs: List<Value>, placed: seq<Placed>, mem: Memory, at: int,
                                     from: int, end: int, to: int)
    requires HaveTypes(vs, fields) && vs.Cons? && placed != [] && Parameter(fields.head) == Some(placed[0].layout)
    requires end == placed[0].offset + placed[0].layout.size && from <= placed[0].offset && end <= to
    requires RoundTrips(fields.head, vs.head, mem, at + placed[0].offset)
    requires FieldsRound(fields.tail, vs.tail, placed[1..],
                         Store(fields.head, vs.head, mem, at + placed[0].offset), at, end, to)
    ensures FieldsRound(fields, vs, placed, mem, at, from, to)
  {
    var start := placed[0].offset;
    assert at + start + placed[0].layout.size == at + end;
    FieldLoads(fields, vs, placed, mem, Store(fields.head, vs.head, mem, at + start),
               StoreFields(fields, vs, placed, mem, at), at, from, start, end, to);
  }

  lemma {:induction false} FirstPlaced(fields: List<Type>, placed: seq<Placed>, offset: u32, from: int, to: int)
    requires fields.Cons? && FieldsFrom(Parameters(fields), offset) == Some(placed) && InOrder(placed, from, to)
    ensures placed != [] && Parameter(fields.head) == Some(placed[0].layout)
    ensures var end := placed[0].offset + placed[0].layout.size;
            && end < LIMIT && from <= placed[0].offset && end <= to && InOrder(placed[1..], end, to)
            && FieldsFrom(Parameters(fields.tail), end) == Some(placed[1..])
  {
    assert Parameters(fields)[0] == Parameter(fields.head) && Parameters(fields)[1..] == Parameters(fields.tail);
    OrderedEnd(placed[1..], placed[0].offset + placed[0].layout.size, to);
  }

  /** One field in front of others that are stored behind it. */
  lemma {:induction false} FieldLoads(fields: List<Type>, vs: List<Value>, placed: seq<Placed>, mem: Memory,
                                      first: Memory, all: Memory, at: int, from: int, start: int, end: int, to: int)
    requires fields.Cons? && vs.Cons? && placed != [] && placed[0].offset == start && from <= start <= end <= to
    requires Holds(fields.head, vs.head, mem, first, at + start, at + end)
    requires FieldsStored(fields.tail, vs.tail, placed[1..], first, all, at, end, to)
    ensures FieldsStored(fields, vs, placed, mem, all, at, from, to)
  {
    forall other: Memory | SameOn(all, other, at + from, at + to)
      ensures LoadFields(fields, placed, other, at) == vs
    {
      assert SameOn(first, other, at + start, at + end);
      assert SameOn(all, other, at + end, at + to);
    }
  }

  lemma {:induction false} OrderedEnd(placed: seq<Placed>, from: int, to: int)
    requires InOrder(placed, from, to)
    ensures from <= to
  {
    if placed != [] { OrderedEnd(placed[1..], placed[0].offset + placed[0].layout.size, to); }
  }

  lemma {:induction false} CaseLayoutAt(cases: List<Option<Type>>, i: nat)
    requires i < Length(cases)
    ensures CaseLayouts(cases)[i] == CaseLayout(CaseAt(cases, i))
  {
    if i > 0 { CaseLayoutAt(cases.tail, i - 1); }
  }

  lemma {:induction false} CasesLaidOut(ty: Type)
    requires HasCases(ty)
    ensures Parameter(ty) == Aggregate(CaseLayouts(PayloadCases(ty)))
  {
    match ty
    case Optional(payload) => TwoCaseLayouts(None, Some(payload));
    case Outcome(ok, err) => TwoCaseLayouts(ok, err);
    case Variant(_) =>
  }

  lemma {:induction false} TwoCaseLayouts(a: Option<Type>, b: Option<Type>)
    ensures CaseLayouts(Cons(a, Cons(b, Nil))) == [CaseLayout(a), CaseLayout(b)]
  {
    assert CaseLayouts(Cons(b, Nil)) == [CaseLayout(b)] + CaseLayouts(Nil);
  }

  lemma {:induction false} CaseEncodable(payloads: List<Option<Type>>, i: nat)
    requires CasesEncodable(payloads) && i < Length(payloads) && CaseAt(payloads, i).Some?
    ensures Encodable(CaseAt(payloads, i).value)
  {
    if i > 0 { CaseEncodable(payloads.tail, i - 1); }
  }

  lemma {:induction false} PayloadEncodable(ty: Type, i: nat)
    requires HasCases(ty) && Encodable(ty) && i < Length(PayloadCases(ty))
    ensures Length(PayloadCases(ty)) <= LIMIT
    ensures CaseAt(PayloadCases(ty), i).Some? ==> Encodable(CaseAt(PayloadCases(ty), i).value)
  {
    match ty
    case Optional(payload) => CaseOfTwo(None, Some(payload), i);
    case Outcome(ok, err) => CaseOfTwo(ok, err, i);
    case Variant(payloads) => if CaseAt(payloads, i).Some? { CaseEncodable(payloads, i); }
  }

  lemma {:induction false} DiscriminantRoundTrip(mem: Memory, at: int, cases: nat, index: nat)
    requires index < cases <= LIMIT
    ensures Width(DiscriminantSlot(cases)) == DiscriminantWidth(cases)
    ensures var w := Width(DiscriminantSlot(cases));
            Read(Write(mem, at, w, index), at, w) == index && SameOutside(mem, Write(mem, at, w, index), at, at + w)
  {
    var w := Width(DiscriminantSlot(cases));
    DiscriminantHolds(cases);
    ModuloSmall(index, Pow256(w));
    ReadWrite(mem, at, w, index);
    WriteFrame(mem, at, w, index);
  }

  /** The payload of a case lies behind the discriminant, inside of the layout. */
  lemma {:induction false} CasePlaced(ty: Type, index: nat)
    requires HasCases(ty) && Encodable(ty) && Parameter(ty).Some? && index < Length(PayloadCases(ty))
    ensures var cases := PayloadCases(ty);
            && PayloadOffset(cases).Some? && Length(cases) <= LIMIT
            && DiscriminantWidth(Length(cases)) <= PayloadOffset(cases).value <= Parameter(ty).value.size
            && (CaseAt(cases, index).Some? ==>
                  var payload := CaseAt(cases, index).value;
                  && Encodable(payload) && Parameter(payload).Some?
                  && PayloadOffset(cases).value + Parameter(payload).value.size <= Parameter(ty).value.size)
  {
    CasesLaidOut(ty);
    PayloadOffsetAgrees(PayloadCases(ty));
    CaseLayoutAt(PayloadCases(ty), index);
    PayloadEncodable(ty, index);
  }

  /** The discriminant takes `w` bytes, and the payload lies at `offset`. */
  ghost predicate CaseShape(ty: Type, v: Value, w: nat, offset: u32) {
    && HasCases(ty) && v.Case? && v.index < Length(PayloadCases(ty)) && PayloadOffset(PayloadCases(ty)) == Some(offset)
    && w == Width(DiscriminantSlot(Length(PayloadCases(ty))))
  }

  ghost predicate PayloadShape(ty: Type, v: Value, payload: Type) {
    && v.Case? && v.index < Length(PayloadCases(ty)) && CaseAt(PayloadCases(ty), v.index) == Some(payload)
    && v.payload.Some?
  }

  lemma {:induction false} TagYields(ty: Type, v: Value, mem: Memory, at: int, w: nat, offset: u32)
    requires CaseShape(ty, v, w, offset) && Read(mem, at, w) == v.index
    requires v.payload.None? && CaseAt(PayloadCases(ty), v.index).None?
    ensures Yields(ty, mem, at, v)
  {
  }

  lemma {:induction false} PayloadYields(ty: Type, v: Value, payload: Type, mem: Memory, at: int, w: nat, offset: u32)
    requires CaseShape(ty, v, w, offset) && Read(mem, at, w) == v.index && PayloadShape(ty, v, payload)
    requires Yields(payload, mem, at + offset, v.payload.value)
    ensures Yields(ty, mem, at, v)
  {
  }

  lemma {:induction false} CaseStored(ty: Type, v: Value, mem: Memory, at: int)
    requires HasCases(ty) && HasType(v, ty) && PayloadOffset(PayloadCases(ty)).Some?
    ensures var cases := PayloadCases(ty);
            var tagged := Write(mem, at, Width(DiscriminantSlot(Length(cases))), v.index);
            Store(ty, v, mem, at)
            == if v.payload.None? then tagged
               else Store(CaseAt(cases, v.index).value, v.payload.value, tagged, at + PayloadOffset(cases).value)
  {
  }

  /** Where discriminant and payload of a value go. */
  ghost predicate CaseReady(ty: Type, v: Value, mem: Memory, at: int, w: nat, offset: u32, tagged: Memory)
    requires HasType(v, ty) && Parameter(ty).Some?
  {
    && CaseShape(ty, v, w, offset) && w <= offset <= Parameter(ty).value.size
    && SameOutside(mem, tagged, at, at + w) && Read(tagged, at, w) == v.index
    && (v.payload.None? ==> Store(ty, v, mem, at) == tagged)
  }

  ghost predicate PayloadReady(ty: Type, v: Value, mem: Memory, at: int, offset: u32, tagged: Memory, payload: Type)
    requires HasType(v, ty) && Parameter(ty).Some?
  {
    && PayloadShape(ty, v, payload) && HasType(v.payload.value, payload) && Encodable(payload)
    && Parameter(payload).Some?
    && offset + Parameter(payload).value.size <= Parameter(ty).value.size
    && Store(ty, v, mem, at) == Store(payload, v.payload.value, tagged, at + offset)
  }

  function Tagged(ty: Type, v: Value, mem: Memory, at: int): Memory
    requires v.Case?
  {
    Write(mem, at, Width(DiscriminantSlot(Length(PayloadCases(ty)))), v.index)
  }

  lemma {:induction false} CaseParts(ty: Type, v: Value, mem: Memory, at: int, w: nat, offset: u32)
    requires HasCases(ty) && HasType(v, ty) && Encodable(ty) && Parameter(ty).Some?
    requires w == Width(DiscriminantSlot(Length(PayloadCases(ty)))) && PayloadOffset(PayloadCases(ty)) == Some(offset)
    ensures CaseReady(ty, v, mem, at, w, offset, Tagged(ty, v, mem, at))
    ensures v.payload.Some? ==>
              PayloadReady(ty, v, mem, at, offset, Tagged(ty, v, mem, at), CaseAt(PayloadCases(ty), v.index).value)
  {
    CasePlaced(ty, v.index);
    CaseStored(ty, v, mem, at);
    DiscriminantRoundTrip(mem, at, Length(PayloadCases(ty)), v.index);
  }

  lemma {:induction false} CaseRoundTrip(ty: Type, v: Value, mem: Memory, at: int)
    requires HasCases(ty) && HasType(v, ty) && Encodable(ty) && Parameter(ty).Some?
    ensures RoundTrips(ty, v, mem, at)
    decreases v, 1
  {
    PayloadFacts(ty, v);
    var w, offset := Width(DiscriminantSlot(Length(PayloadCases(ty)))), PayloadOffset(PayloadCases(ty)).value;
    if v.payload.Some? {
      var payload := CaseAt(PayloadCases(ty), v.index).value;
      RoundTrip(payload, v.payload.value, Tagged(ty, v, mem, at), at + offset);
    }
    CaseRounds(ty, v, mem, at, w, offset);
  }

  lemma {:induction false} PayloadFacts(ty: Type, v: Value)
    requires HasCases(ty) && HasType(v, ty) && Encodable(ty) && Parameter(ty).Some?
    ensures PayloadOffset(PayloadCases(ty)).Some? && v.Case? && v.index < Length(PayloadCases(ty))
    ensures v.payload.Some? ==>
              && PayloadShape(ty, v, CaseAt(PayloadCases(ty), v.index).value)
              && HasType(v.payload.value, CaseAt(PayloadCases(ty), v.index).value)
              && Encodable(CaseAt(PayloadCases(ty), v.index).value)
              && Parameter(CaseAt(PayloadCases(ty), v.index).value).Some?
  {
    CasePlaced(ty, v.index);
  }

  lemma {:induction false} CaseRounds(ty: Type, v: Value, mem: Memory, at: int, w: nat, offset: u32)
    requires HasCases(ty) && HasType(v, ty) && Encodable(ty) && Parameter(ty).Some?
    requires w == Width(DiscriminantSlot(Length(PayloadCases(ty)))) && PayloadOffset(PayloadCases(ty)) == Some(offset)
    requires v.payload.Some? ==>
               Parameter(CaseAt(PayloadCases(ty), v.index).value).Some?
               && RoundTrips(CaseAt(PayloadCases(ty), v.index).value, v.payload.value, Tagged(ty, v, mem, at),
                             at + offset)
    ensures RoundTrips(ty, v, mem, at)
  {
    CaseParts(ty, v, mem, at, w, offset);
    if v.payload.None? {
      TagRounds(ty, v, mem, at, w, offset, Tagged(ty, v, mem, at));
    } else {
      PayloadRounds(ty, v, mem, at, w, offset, Tagged(ty, v, mem, at), CaseAt(PayloadCases(ty), v.index).value);
    }
  }

  lemma {:induction false} TagRounds(ty: Type, v: Value, mem: Memory, at: int, w: nat, offset: u32, tagged: Memory)
    requires HasType(v, ty) && Parameter(ty).Some? && CaseReady(ty, v, mem, at, w, offset, tagged) && v.payload.None?
    ensures RoundTrips(ty, v, mem, at)
  {
    TagHolds(ty, v, mem, tagged, at, w, offset, Parameter(ty).value.size);
  }

  lemma {:induction false} PayloadRounds(ty: Type, v: Value, mem: Memory, at: int, w: nat, offset: u32,
                                         tagged: Memory, payload: Type)
    requires HasType(v, ty) && Parameter(ty).Some? && CaseReady(ty, v, mem, at, w, offset, tagged)
    requires PayloadReady(ty, v, mem, at, offset, tagged, payload)
    requires RoundTrips(payload, v.payload.value, tagged, at + offset)
    ensures RoundTrips(ty, v, mem, at)
  {
    PayloadHolds(ty, v, payload, mem, tagged, Store(ty, v, mem, at), at, w, offset, Parameter(payload).value.size,
                 Parameter(ty).value.size);
  }

  lemma {:induction false} TagHolds(ty: Type, v: Value, mem: Memory, tagged: Memory, at: int, w: nat, offset: u32,
                                    size: int)
    requires CaseShape(ty, v, w, offset) && v.payload.None? && CaseAt(PayloadCases(ty), v.index).None? && w <= size
    requires SameOutside(mem, tagged, at, at + w) && Read(tagged, at, w) == v.index
    ensures Holds(ty, v, mem, tagged, at, at + size)
  {
    forall other: Memory | SameOn(tagged, other, at, at + size)
      ensures Yields(ty, other, at, v)
    {
      assert SameOn(tagged, other, at, at + w);
      ReadSame(tagged, other, at, w);
      TagYields(ty, v, other, at, w, offset);
    }
  }

  lemma {:induction false} PayloadHolds(ty: Type, v: Value, payload: Type, mem: Memory, tagged: Memory, stored: Memory,
                                        at: int, w: nat, offset: u32, inner: nat, size: int)
    requires CaseShape(ty, v, w, offset) && PayloadShape(ty, v, payload) && w <= offset && offset + inner <= size
    requires SameOutside(mem, tagged, at, at + w) && Read(tagged, at, w) == v.index
    requires Holds(payload, v.payload.value, tagged, stored, at + offset, at + offset + inner)
    ensures Holds(ty, v, mem, stored, at, at + size)
  {
    forall other: Memory | SameOn(stored, other, at, at + size)
      ensures Yields(ty, other, at, v)
    {
      assert SameOn(tagged, other, at, at + w);
      ReadSame(tagged, other, at, w);
      assert SameOn(stored, other, at + offset, at + offset + inner);
      PayloadYields(ty, v, payload, other, at, w, offset);
    }
  }
}
