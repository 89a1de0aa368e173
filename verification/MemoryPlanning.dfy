/** Planning one shared linear memory for all artifacts (crates/psrs-linker/src/plan.rs). */
module MemoryPlanning {

  const PAGE: nat := 0x1_0000
  const LIMIT: nat := 0x1_0000_0000

  type u32 = x: int | 0 <= x < LIMIT
  type u64 = x: int | 0 <= x < 0x1_0000_0000_0000_0000

  datatype Region = Region(start: u32, end: u32)

  datatype Storage = Storage(coreModule: bool, staticData: Region, stack: Region, heapStart: u32, minimumPages: u64,
                             stackBound: u32)

  datatype Maximum = Unlimited | Pages(pages: u64)

  datatype Demand = Demand(scratch: Region, allocator: Region, heapStart: u32, alignment: u32, maximum: Maximum)

  datatype Plan = Plan(heapStart: u32, alignment: u32, minimumPages: u64, maximumPages: u64, reservations: seq<Region>)

  datatype Error =
    | UnsupportedMaximum | ReversedBounds | EmptyStack | StackBelowBound | Overlap | Misaligned
    | PastBoundary | ExceedsMaximum | UncoveredBoundary

  datatype Outcome = Planned(plan: Plan) | Refused(error: Error)

  // ----- What a plan has to satisfy -----

  predicate Ordered(r: Region) {
    r.start <= r.end
  }

  /** An empty region counts too: it may not lie strictly inside another one. */
  predicate Apart(a: Region, b: Region) {
    a.end <= b.start || b.end <= a.start
  }

  predicate AllApart(rs: seq<Region>) {
    forall i, j :: 0 <= i < j < |rs| ==> Apart(rs[i], rs[j])
  }

  /** The unsigned difference, as 32-bit arithmetic computes it. */
  function StackSize(s: Storage): u32 {
    (s.stack.end - s.stack.start) % LIMIT
  }

  predicate StackFits(s: Storage) {
    (s.coreModule ==> s.stack.start < s.stack.end) && StackSize(s) >= s.stackBound
  }

  function Reserve(r: Region): seq<Region> {
    if r.start < r.end then [r] else []
  }

  function ArtifactRegions(storages: seq<Storage>): seq<Region> {
    if storages == [] then []
    else
      var s := storages[|storages| - 1];
      ArtifactRegions(storages[..|storages| - 1]) + [s.staticData, s.stack]
  }

  function Regions(demand: Demand, storages: seq<Storage>): seq<Region> {
    Reserve(demand.scratch) + Reserve(demand.allocator) + ArtifactRegions(storages)
  }

  function Max(a: int, b: int): int {
    if a < b then b else a
  }

  /** Rounded up. */
  function PagesFor(address: u32): nat {
    (address + PAGE - 1) / PAGE
  }

  function HeapStart(demand: Demand, storages: seq<Storage>): u32 {
    if storages == [] then demand.heapStart
    else
      var s := storages[|storages| - 1].heapStart;
      var rest := HeapStart(demand, storages[..|storages| - 1]);
      if rest < s then s else rest
  }

  function DeclaredPages(demand: Demand, storages: seq<Storage>): u64 {
    if storages == [] then PagesFor(demand.heapStart) + 1
    else
      var s := storages[|storages| - 1].minimumPages;
      var rest := DeclaredPages(demand, storages[..|storages| - 1]);
      if rest < s then s else rest
  }

  function MaximumPages(demand: Demand): u64 {
    match demand.maximum
    case Unlimited => 65536
    case Pages(n) => n
  }

  predicate PowerOfTwo(n: nat) {
    n == 1 || (n > 1 && n % 2 == 0 && PowerOfTwo(n / 2))
  }

  ghost predicate RegionsFit(regions: seq<Region>, heap: u32) {
    (forall r <- regions :: Ordered(r) && r.end <= heap) && AllApart(regions)
  }

  predicate PagesFit(heap: u32, alignment: u32, declared: u64, maximum: u64) {
    && PowerOfTwo(alignment) && heap % alignment == 0
    && declared <= maximum && heap <= declared * PAGE && PagesFor(heap) + 1 <= maximum
  }

  /** Everything but the heap getter. */
  ghost predicate Plannable(demand: Demand, storages: seq<Storage>) {
    && 1 <= MaximumPages(demand) <= 65536
    && Ordered(demand.scratch) && Ordered(demand.allocator) && (forall s <- storages :: StackFits(s))
    && RegionsFit(Regions(demand, storages), HeapStart(demand, storages))
    && PagesFit(HeapStart(demand, storages), demand.alignment, DeclaredPages(demand, storages), MaximumPages(demand))
  }

  /** The regions sorted, and enough pages for one page of heap past the boundary. */
  ghost predicate PlanOf(plan: Plan, regions: seq<Region>, heap: u32, alignment: u32, declared: u64, maximum: u64) {
    && plan.heapStart == heap && plan.alignment == alignment && plan.maximumPages == maximum
    && plan.minimumPages == Max(declared, PagesFor(heap) + 1)
    && multiset(plan.reservations) == multiset(regions) && Sorted(plan.reservations) && AllApart(plan.reservations)
    && heap + PAGE <= plan.minimumPages * PAGE <= LIMIT
  }

  // ----- Sorting by start, then end -----

  predicate Before(a: Region, b: Region) {
    a.start < b.start || (a.start == b.start && a.end <= b.end)
  }

  predicate Sorted(rs: seq<Region>) {
    forall i, j :: 0 <= i < j < |rs| ==> Before(rs[i], rs[j])
  }

  function Insert(r: Region, rs: seq<Region>): (out: seq<Region>)
    requires Sorted(rs)
    ensures multiset(out) == multiset(rs) + multiset{r} && Sorted(out)
  {
    if rs == [] then [r]
    else if Before(r, rs[0]) then [r] + rs
    else
      var rest := Insert(r, rs[1..]);
      InsertedAfter(r, rs, rest);
      [rs[0]] + rest
  }

  lemma {:induction false} InsertedAfter(r: Region, rs: seq<Region>, rest: seq<Region>)
    requires rs != [] && Sorted(rs) && !Before(r, rs[0]) && Sorted(rest)
             && multiset(rest) == multiset(rs[1..]) + multiset{r}
    ensures Sorted([rs[0]] + rest) && multiset([rs[0]] + rest) == multiset(rs) + multiset{r}
  {
    assert rs == [rs[0]] + rs[1..];
    forall i | 0 <= i < |rest| ensures Before(rs[0], rest[i]) {
      assert rest[i] in multiset(rest);
      if rest[i] != r { assert rest[i] in rs[1..]; }
    }
  }

  function SortRegions(rs: seq<Region>): (out: seq<Region>)
    ensures multiset(out) == multiset(rs) && Sorted(out)
  {
    if rs == [] then []
    else
      assert rs == [rs[0]] + rs[1..];
      Insert(rs[0], SortRegions(rs[1..]))
  }

  // ----- Neighbours in sorted order decide every pair -----

  predicate NeighboursApart(rs: seq<Region>) {
    forall i :: 0 <= i < |rs| - 1 ==> rs[i].end <= rs[i + 1].start
  }

  lemma {:induction false} ChainApart(rs: seq<Region>, i: nat, j: nat)
    requires NeighboursApart(rs) && i < j < |rs| && forall r <- rs :: Ordered(r)
    ensures rs[i].end <= rs[j].start
    decreases j
  {
    if j > i + 1 {
      ChainApart(rs, i, j - 1);
      assert Ordered(rs[j - 1]);
    }
  }

  /** Checking neighbours of the sorted reservations is checking all pairs. */
  lemma {:induction false} NeighboursDecide(rs: seq<Region>)
    requires Sorted(rs) && forall r <- rs :: Ordered(r)
    ensures NeighboursApart(rs) <==> AllApart(rs)
  {
    if NeighboursApart(rs) {
      forall i, j | 0 <= i < j < |rs| ensures Apart(rs[i], rs[j]) { ChainApart(rs, i, j); }
    }
    if AllApart(rs) {
      forall i | 0 <= i < |rs| - 1 ensures rs[i].end <= rs[i + 1].start {
        assert Apart(rs[i], rs[i + 1]) && Before(rs[i], rs[i + 1]) && Ordered(rs[i]) && Ordered(rs[i + 1]);
      }
    }
  }

  /** The last of the sorted reservations ends last. */
  lemma {:induction false} LastDecides(rs: seq<Region>, boundary: u32)
    requires rs != [] && NeighboursApart(rs) && forall r <- rs :: Ordered(r)
    ensures rs[|rs| - 1].end <= boundary <==> forall r <- rs :: r.end <= boundary
  {
    var last := |rs| - 1;
    forall i | 0 <= i < last ensures rs[i].end <= rs[last].end {
      ChainApart(rs, i, last);
      assert Ordered(rs[last]);
    }
  }

  /** Being pairwise apart does not depend on the order. */
  lemma {:induction false} ApartAnyOrder(xs: seq<Region>, ys: seq<Region>)
    requires multiset(xs) == multiset(ys) && AllApart(xs)
    ensures AllApart(ys)
  {
    forall i, j | 0 <= i < j < |ys| ensures Apart(ys[i], ys[j]) {
      var k, l := TwoPositions(xs, ys, i, j);
      if k < l { assert Apart(xs[k], xs[l]); } else { assert Apart(xs[l], xs[k]); }
    }
  }

  function Without<T>(rs: seq<T>, i: nat): seq<T>
    requires i < |rs|
  {
    rs[..i] + rs[i + 1..]
  }

  lemma {:induction false} WithoutOne<T>(rs: seq<T>, i: nat)
    requires i < |rs|
    ensures multiset(Without(rs, i)) == multiset(rs) - multiset{rs[i]}
  {
    assert rs == rs[..i] + [rs[i]] + rs[i + 1..];
  }

  lemma {:induction false} PositionIn(xs: seq<Region>, ys: seq<Region>, j: nat) returns (k: nat)
    requires multiset(xs) == multiset(ys) && j < |ys|
    ensures k < |xs| && xs[k] == ys[j]
  {
    assert ys[j] in multiset(ys) && ys[j] in xs;
    k :| 0 <= k < |xs| && xs[k] == ys[j];
  }

  lemma {:induction false} TwoPositions(xs: seq<Region>, ys: seq<Region>, i: nat, j: nat) returns (k: nat, l: nat)
    requires multiset(xs) == multiset(ys) && i < j < |ys|
    ensures k < |xs| && l < |xs| && k != l && xs[k] == ys[i] && xs[l] == ys[j]
  {
    k := PositionIn(xs, ys, i);
    WithoutOne(xs, k);
    WithoutOne(ys, i);
    var l' := PositionIn(Without(xs, k), Without(ys, i), j - 1);
    l := if l' < k then l' else l' + 1;
  }

  lemma {:induction false} SameRegions(xs: seq<Region>, ys: seq<Region>)
    requires multiset(xs) == multiset(ys)
    ensures forall r :: r in xs <==> r in ys
  {
    forall r ensures r in xs <==> r in ys {
      assert r in xs <==> r in multiset(xs);
      assert r in ys <==> r in multiset(ys);
    }
  }

  /** What the three checks on the sorted reservations say about the gathered ones. */
  lemma {:induction false} SortedDecides(gathered: seq<Region>, sorted: seq<Region>, boundary: u32)
    requires multiset(sorted) == multiset(gathered) && Sorted(sorted)
    ensures (forall r <- sorted :: Ordered(r)) <==> forall r <- gathered :: Ordered(r)
    ensures (forall r <- gathered :: Ordered(r)) ==> (NeighboursApart(sorted) <==> AllApart(gathered))
    ensures (forall r <- gathered :: Ordered(r)) && NeighboursApart(sorted) ==> AllApart(sorted)
    ensures (forall r <- gathered :: Ordered(r)) && NeighboursApart(sorted) && sorted != [] ==>
              (sorted[|sorted| - 1].end <= boundary <==> forall r <- gathered :: r.end <= boundary)
  {
    SameRegions(sorted, gathered);
    if forall r <- gathered :: Ordered(r) {
      NeighboursDecide(sorted);
      if AllApart(sorted) { ApartAnyOrder(sorted, gathered); }
      if AllApart(gathered) { ApartAnyOrder(gathered, sorted); }
      if NeighboursApart(sorted) && sorted != [] { LastDecides(sorted, boundary); }
    }
  }

  // ----- The planner -----

  method CheckOrdered(rs: seq<Region>) returns (ok: bool)
    ensures ok <==> forall r <- rs :: Ordered(r)
  {
    for i := 0 to |rs|
      invariant forall j :: 0 <= j < i ==> Ordered(rs[j])
    {
      if rs[i].start > rs[i].end {
        assert rs[i] in rs && !Ordered(rs[i]);
        return false;
      }
    }
    ok := true;
  }

  method CheckNeighbours(rs: seq<Region>) returns (ok: bool)
    ensures ok <==> NeighboursApart(rs)
  {
    ok := true;
    if rs != [] {
      for i := 0 to |rs| - 1
        invariant forall j :: 0 <= j < i ==> rs[j].end <= rs[j + 1].start
      {
        if rs[i + 1].start < rs[i].end { return false; }
      }
    }
  }

  /** Why a stack is refused; a reversed stack has the size that 32-bit subtraction gives it. */
  predicate StackReason(storages: seq<Storage>, error: Error) {
    match error
    case EmptyStack => exists s <- storages :: s.coreModule && s.stack.end <= s.stack.start
    case StackBelowBound => exists s <- storages :: StackSize(s) < s.stackBound
    case _ => false
  }

  /** Why the collected regions and pages are refused. */
  ghost predicate RegionReason(regions: seq<Region>, heap: u32, alignment: u32, declared: u64, maximum: u64,
                               error: Error) {
    match error
    case ReversedBounds => exists r <- regions :: !Ordered(r)
    case Overlap => !AllApart(regions)
    case PastBoundary => exists r <- regions :: heap < r.end
    case Misaligned => !PowerOfTwo(alignment) || heap % alignment != 0
    case ExceedsMaximum => maximum < declared || maximum < PagesFor(heap) + 1
    case UncoveredBoundary => declared * PAGE < heap
    case _ => false
  }

  /** The first loop: reservations, heap boundary and declared pages of all artifacts. */
  method Collect(demand: Demand, storages: seq<Storage>)
      returns (ok: bool, error: Error, reservations: seq<Region>, heapStart: u32, minimumPages: u64)
    requires Ordered(demand.scratch) && Ordered(demand.allocator)
    ensures ok <==> forall s <- storages :: StackFits(s)
    ensures !ok ==> StackReason(storages, error)
    ensures ok ==> reservations == Regions(demand, storages) && heapStart == HeapStart(demand, storages)
                   && minimumPages == DeclaredPages(demand, storages)
  {
    reservations := [];
    if demand.scratch.start < demand.scratch.end { reservations := reservations + [demand.scratch]; }
    if demand.allocator.start < demand.allocator.end { reservations := reservations + [demand.allocator]; }
    heapStart := demand.heapStart;
    minimumPages := PagesFor(heapStart) + 1;
    ghost var reserved := reservations;
    for i := 0 to |storages|
      invariant forall j :: 0 <= j < i ==> StackFits(storages[j])
      invariant reservations == reserved + ArtifactRegions(storages[..i])
      invariant heapStart == HeapStart(demand, storages[..i]) && minimumPages == DeclaredPages(demand, storages[..i])
    {
      var storage := storages[i];
      assert storages[..i + 1][..i] == storages[..i];
      if storage.coreModule && storage.stack.end <= storage.stack.start {
        assert !StackFits(storages[i]) && storage in storages;
        return false, EmptyStack, [], 0, 0;
      }
      if StackSize(storage) < storage.stackBound {
        assert !StackFits(storages[i]) && storage in storages;
        return false, StackBelowBound, [], 0, 0;
      }
      reservations := reservations + [storage.staticData, storage.stack];
      heapStart := if heapStart < storage.heapStart then storage.heapStart else heapStart;
      minimumPages := if minimumPages < storage.minimumPages then storage.minimumPages else minimumPages;
    }
    assert storages[..|storages|] == storages;
    ok, error := true, Overlap;
  }

  /** `plan_memory` up to the heap getter: a plan is produced exactly when one is possible. */
  method PlanMemory(demand: Demand, storages: seq<Storage>) returns (r: Outcome)
    ensures r.Planned? <==> Plannable(demand, storages)
    ensures r.Planned? ==>
              PlanOf(r.plan, Regions(demand, storages), HeapStart(demand, storages), demand.alignment,
                     DeclaredPages(demand, storages), MaximumPages(demand))
    ensures r.Planned? <==> exists heap, pages, maximum :: Feasible(demand, storages, heap, pages, maximum)
    ensures r.Planned? ==> Explains(demand, storages, r.plan)
    ensures r.Refused? ==> Reason(demand, storages, r.error)
  {
    var maximum := MaximumPages(demand);
    PlannableMeans(demand, storages);
    Determined(demand, storages, HeapStart(demand, storages), DeclaredPages(demand, storages), maximum);
    if maximum == 0 || maximum > 65536 { return Refused(UnsupportedMaximum); }
    if demand.scratch.start > demand.scratch.end
        || demand.allocator.start > demand.allocator.end { return Refused(ReversedBounds); }
    var ok, error, regions, heapStart, minimumPages := Collect(demand, storages);
    if !ok { return Refused(error); }
    r := Decide(regions, heapStart, demand.alignment, minimumPages, maximum);
    if r.Planned? {
      PlanMeans(demand, storages, r.plan);
    } else {
      ReasonMeans(demand, storages, r.error);
    }
  }

  /** The checks on what was collected. */
  method Decide(regions: seq<Region>, heapStart: u32, alignment: u32, declared: u64, maximum: u64) returns (r: Outcome)
    requires 1 <= maximum <= 65536
    ensures r.Planned? <==> RegionsFit(regions, heapStart) && PagesFit(heapStart, alignment, declared, maximum)
    ensures r.Planned? ==> PlanOf(r.plan, regions, heapStart, alignment, declared, maximum)
    ensures r.Refused? ==> RegionReason(regions, heapStart, alignment, declared, maximum, r.error)
  {
    var reservations := SortRegions(regions);
    SortedDecides(regions, reservations, heapStart);
    var ordered := CheckOrdered(reservations);
    if !ordered { return Refused(ReversedBounds); }
    var apart := CheckNeighbours(reservations);
    if !apart { return Refused(Overlap); }
    if !PowerOfTwo(alignment) || heapStart % alignment != 0 { return Refused(Misaligned); }
    if reservations != [] && reservations[|reservations| - 1].end > heapStart { return Refused(PastBoundary); }
    SameRegions(reservations, regions);
    if declared > maximum { return Refused(ExceedsMaximum); }
    if heapStart > declared * PAGE { return Refused(UncoveredBoundary); }
    var minimumPages := Max(declared, PagesFor(heapStart) + 1);
    if minimumPages > maximum { return Refused(ExceedsMaximum); }
    r := Planned(Plan(heapStart, alignment, minimumPages, maximum, reservations));
  }

  function Pow2(k: nat): nat {
    if k == 0 then 1 else 2 * Pow2(k - 1)
  }

  lemma {:induction false} PowerOfTwoMeans(n: nat)
    ensures PowerOfTwo(n) <==> exists k: nat :: n == Pow2(k)
  {
    if PowerOfTwo(n) { PowerOfTwoExponent(n); }
    if k: nat :| n == Pow2(k) { PowIsPower(k); }
  }

  lemma {:induction false} PowerOfTwoExponent(n: nat)
    requires PowerOfTwo(n)
    ensures exists k: nat :: n == Pow2(k)
  {
    if n == 1 {
      assert n == Pow2(0);
    } else {
      PowerOfTwoExponent(n / 2);
      var k: nat :| n / 2 == Pow2(k);
      assert n == Pow2(k + 1);
    }
  }

  lemma {:induction false} PowIsPower(k: nat)
    ensures PowerOfTwo(Pow2(k))
  {
    if k > 0 { PowIsPower(k - 1); }
  }

  // ----- What a plan means, place by place -----

  /** The places in memory that something may be reserved for. */
  datatype Place = Scratch | Allocator | Data(storage: nat) | Stack(storage: nat)

  predicate Occupied(demand: Demand, storages: seq<Storage>, p: Place) {
    match p
    case Scratch => demand.scratch.start < demand.scratch.end
    case Allocator => demand.allocator.start < demand.allocator.end
    case Data(i) => i < |storages|
    case Stack(i) => i < |storages|
  }

  function At(demand: Demand, storages: seq<Storage>, p: Place): Region
    requires Occupied(demand, storages, p)
  {
    match p
    case Scratch => demand.scratch
    case Allocator => demand.allocator
    case Data(i) => storages[i].staticData
    case Stack(i) => storages[i].stack
  }

  /** Every occupied place ends after it starts and below the heap, and no two of them share an address. */
  ghost predicate PlacesFit(demand: Demand, storages: seq<Storage>, heap: int) {
    && (forall p :: Occupied(demand, storages, p) ==>
          var r := At(demand, storages, p); r.start <= r.end <= heap)
    && forall p, q :: Occupied(demand, storages, p) && Occupied(demand, storages, q) && p != q ==>
         var a, b := At(demand, storages, p), At(demand, storages, q); a.end <= b.start || b.end <= a.start
  }

  /** The largest boundary that anyone asks for. */
  predicate Boundary(demand: Demand, storages: seq<Storage>, heap: int) {
    && demand.heapStart <= heap && (forall s <- storages :: s.heapStart <= heap)
    && (heap == demand.heapStart || exists s <- storages :: heap == s.heapStart)
  }

  predicate Enough(demand: Demand, storages: seq<Storage>, pages: int) {
    demand.heapStart <= (pages - 1) * PAGE && forall s <- storages :: s.minimumPages <= pages
  }

  /** The least number of pages that covers every declared minimum, and one page past the demand's own boundary. */
  ghost predicate Declared(demand: Demand, storages: seq<Storage>, pages: int) {
    Enough(demand, storages, pages) && forall n: int :: Enough(demand, storages, n) ==> pages <= n
  }

  /** A stack holds its bound, and a core module has one. */
  predicate StackHolds(s: Storage) {
    s.stack.start + s.stackBound <= s.stack.end && (s.coreModule ==> s.stack.start < s.stack.end)
  }

  ghost predicate IsPower(n: nat) {
    exists k: nat :: n == Pow2(k)
  }

  predicate MaximumIs(demand: Demand, maximum: int) {
    match demand.maximum
    case Unlimited => maximum == 65536
    case Pages(n) => maximum == n
  }

  /** What a memory plan needs, with the heap at `heap` and the declared minimum `pages`. */
  ghost predicate Feasible(demand: Demand, storages: seq<Storage>, heap: int, pages: int, maximum: int) {
    && Sizes(demand, storages, heap, pages, maximum)
    && 1 <= maximum <= 65536
    && Ordered(demand.scratch) && Ordered(demand.allocator)
    && (forall s <- storages :: StackHolds(s))
    && PlacesFit(demand, storages, heap)
    && SizesFit(heap, demand.alignment, pages, maximum)
  }

  /** The heap starts at a multiple of a power of two, inside of the declared pages and a page before the maximum. */
  ghost predicate SizesFit(heap: int, alignment: nat, pages: int, maximum: int) {
    && IsPower(alignment) && alignment != 0 && heap % alignment == 0
    && pages <= maximum && heap <= pages * PAGE && heap <= (maximum - 1) * PAGE
  }

  /** Each reservation is for a place of its own, and each occupied place has one. */
  ghost predicate Assigned(demand: Demand, storages: seq<Storage>, reservations: seq<Region>, places: seq<Place>) {
    && Distinct(places) && (forall p :: p in places <==> Occupied(demand, storages, p))
    && RegionsAt(demand, storages, reservations, places)
  }

  predicate Distinct<T(==)>(xs: seq<T>) {
    forall i, j :: 0 <= i < j < |xs| ==> xs[i] != xs[j]
  }

  predicate RegionsAt(demand: Demand, storages: seq<Storage>, rs: seq<Region>, places: seq<Place>) {
    |places| == |rs| && forall i :: 0 <= i < |places| ==>
                          Occupied(demand, storages, places[i]) && rs[i] == At(demand, storages, places[i])
  }

  /** The plan reserves exactly the occupied places, and has the least number of pages that is enough for
      everyone and leaves a page of heap. */
  ghost predicate Explains(demand: Demand, storages: seq<Storage>, plan: Plan) {
    && (exists places :: Assigned(demand, storages, plan.reservations, places))
    && Sorted(plan.reservations)
    && Boundary(demand, storages, plan.heapStart) && plan.alignment == demand.alignment
    && MaximumIs(demand, plan.maximumPages)
    && Enough(demand, storages, plan.minimumPages) && plan.heapStart <= (plan.minimumPages - 1) * PAGE
    && (forall n: int :: Enough(demand, storages, n) && plan.heapStart <= (n - 1) * PAGE ==> plan.minimumPages <= n)
    && plan.minimumPages * PAGE <= LIMIT
  }

  /** Each refusal names something that is really the case. */
  ghost predicate Reason(demand: Demand, storages: seq<Storage>, error: Error) {
    match error
    case UnsupportedMaximum => exists maximum :: MaximumIs(demand, maximum) && !(1 <= maximum <= 65536)
    case EmptyStack => StackReason(storages, error)
    case StackBelowBound => StackReason(storages, error)
    case ReversedBounds =>
      || demand.scratch.end < demand.scratch.start || demand.allocator.end < demand.allocator.start
      || exists p :: Occupied(demand, storages, p) && !Ordered(At(demand, storages, p))
    case Overlap =>
      exists p, q :: Occupied(demand, storages, p) && Occupied(demand, storages, q) && p != q
                     && !Apart(At(demand, storages, p), At(demand, storages, q))
    case PastBoundary =>
      exists heap, p :: Boundary(demand, storages, heap) && Occupied(demand, storages, p)
                        && heap < At(demand, storages, p).end
    case Misaligned =>
      exists heap :: Boundary(demand, storages, heap)
                     && !(IsPower(demand.alignment) && demand.alignment != 0 && heap % demand.alignment == 0)
    case ExceedsMaximum =>
      exists heap, pages, maximum :: Sizes(demand, storages, heap, pages, maximum)
                                     && (maximum < pages || (maximum - 1) * PAGE < heap)
    case UncoveredBoundary =>
      exists heap, pages, maximum :: Sizes(demand, storages, heap, pages, maximum) && pages * PAGE < heap
  }

  ghost predicate Sizes(demand: Demand, storages: seq<Storage>, heap: int, pages: int, maximum: int) {
    Boundary(demand, storages, heap) && Declared(demand, storages, pages) && MaximumIs(demand, maximum)
  }

  // ----- The gathered regions are those of the occupied places -----

  ghost function ArtifactPlaces(n: nat): seq<Place> {
    if n == 0 then [] else ArtifactPlaces(n - 1) + [Data(n - 1), Stack(n - 1)]
  }

  ghost function Places(demand: Demand, storages: seq<Storage>): seq<Place> {
    FixedPlace(demand, storages, Scratch) + FixedPlace(demand, storages, Allocator) + ArtifactPlaces(|storages|)
  }

  lemma {:induction false} ArtifactPlacesAre(demand: Demand, storages: seq<Storage>, n: nat)
    requires n <= |storages|
    ensures var ps := ArtifactPlaces(n);
            && RegionsAt(demand, storages, ArtifactRegions(storages[..n]), ps) && Distinct(ps)
            && forall p :: p in ps <==> (p.Data? || p.Stack?) && p.storage < n
  {
    if n > 0 {
      ArtifactPlacesAre(demand, storages, n - 1);
      assert storages[..n][..n - 1] == storages[..n - 1];
    }
  }

  lemma {:induction false} PlacesAre(demand: Demand, storages: seq<Storage>)
    ensures Assigned(demand, storages, Regions(demand, storages), Places(demand, storages))
  {
    var n := |storages|;
    ArtifactPlacesAre(demand, storages, n);
    assert storages[..n] == storages;
    var first, second := FixedPlace(demand, storages, Scratch), FixedPlace(demand, storages, Allocator);
    JoinedPlaces(demand, storages, Reserve(demand.scratch), first, Reserve(demand.allocator), second);
    JoinedPlaces(demand, storages, Reserve(demand.scratch) + Reserve(demand.allocator), first + second,
                 ArtifactRegions(storages), ArtifactPlaces(n));
  }

  ghost function FixedPlace(demand: Demand, storages: seq<Storage>, p: Place): seq<Place> {
    if Occupied(demand, storages, p) then [p] else []
  }

  lemma {:induction false} JoinedPlaces(demand: Demand, storages: seq<Storage>, rs: seq<Region>, ps: seq<Place>,
                                        rs': seq<Region>, ps': seq<Place>)
    requires RegionsAt(demand, storages, rs, ps) && RegionsAt(demand, storages, rs', ps')
    requires Distinct(ps) && Distinct(ps') && forall p <- ps :: p !in ps'
    ensures RegionsAt(demand, storages, rs + rs', ps + ps') && Distinct(ps + ps')
  {
    forall i, j | 0 <= i < j < |ps + ps'|
      ensures (ps + ps')[i] != (ps + ps')[j]
    {
      if i < |ps| <= j { assert ps[i] !in ps' && ps'[j - |ps|] in ps'; }
    }
  }

  lemma {:induction false} PlacesFitRegions(demand: Demand, storages: seq<Storage>, heap: u32)
    ensures RegionsFit(Regions(demand, storages), heap) <==> PlacesFit(demand, storages, heap)
  {
    var rs, ps := Regions(demand, storages), Places(demand, storages);
    PlacesAre(demand, storages);
    if RegionsFit(rs, heap) { RegionsToPlaces(demand, storages, rs, ps, heap); }
    if PlacesFit(demand, storages, heap) { PlacesToRegions(demand, storages, rs, ps, heap); }
  }

  lemma {:induction false} RegionsToPlaces(demand: Demand, storages: seq<Storage>, rs: seq<Region>, ps: seq<Place>,
                                           heap: u32)
    requires Assigned(demand, storages, rs, ps) && RegionsFit(rs, heap)
    ensures PlacesFit(demand, storages, heap)
  {
    forall p | Occupied(demand, storages, p)
      ensures At(demand, storages, p) in rs
    {
      var i :| 0 <= i < |ps| && ps[i] == p;
      assert rs[i] == At(demand, storages, p);
    }
    forall p, q | Occupied(demand, storages, p) && Occupied(demand, storages, q) && p != q
      ensures Apart(At(demand, storages, p), At(demand, storages, q))
    {
      var i :| 0 <= i < |ps| && ps[i] == p;
      var j :| 0 <= j < |ps| && ps[j] == q;
      assert i != j && rs[i] == At(demand, storages, p) && rs[j] == At(demand, storages, q);
      if i < j { assert Apart(rs[i], rs[j]); } else { assert Apart(rs[j], rs[i]); }
    }
  }

  lemma {:induction false} PlacesToRegions(demand: Demand, storages: seq<Storage>, rs: seq<Region>, ps: seq<Place>,
                                           heap: u32)
    requires Assigned(demand, storages, rs, ps) && PlacesFit(demand, storages, heap)
    ensures RegionsFit(rs, heap)
  {
    forall i | 0 <= i < |rs| ensures Ordered(rs[i]) && rs[i].end <= heap {
      assert Occupied(demand, storages, ps[i]) && rs[i] == At(demand, storages, ps[i]);
    }
    forall i, j | 0 <= i < j < |rs| ensures Apart(rs[i], rs[j]) {
      assert Occupied(demand, storages, ps[i]) && Occupied(demand, storages, ps[j]) && ps[i] != ps[j];
      assert rs[i] == At(demand, storages, ps[i]) && rs[j] == At(demand, storages, ps[j]);
    }
  }

  /** Reordering the regions reorders their places. */
  lemma {:induction false} Reordered(demand: Demand, storages: seq<Storage>, rs: seq<Region>, ps: seq<Place>,
                                     sorted: seq<Region>) returns (places: seq<Place>)
    requires RegionsAt(demand, storages, rs, ps) && multiset(sorted) == multiset(rs)
    ensures RegionsAt(demand, storages, sorted, places) && multiset(places) == multiset(ps)
    decreases |sorted|
  {
    if sorted == [] {
      assert |multiset(rs)| == 0;
      places := [];
    } else {
      var k := PositionIn(rs, sorted, 0);
      WithoutOne(rs, k);
      WithoutOne(sorted, 0);
      WithoutOne(ps, k);
      assert Without(sorted, 0) == sorted[1..];
      RegionsWithout(demand, storages, rs, ps, k);
      var rest := Reordered(demand, storages, Without(rs, k), Without(ps, k), sorted[1..]);
      places := [ps[k]] + rest;
      RegionsBefore(demand, storages, sorted, ps[k], rest);
      assert multiset(places) == multiset{ps[k]} + multiset(rest);
    }
  }

  lemma {:induction false} RegionsBefore(demand: Demand, storages: seq<Storage>, rs: seq<Region>, p: Place,
                                         rest: seq<Place>)
    requires rs != [] && Occupied(demand, storages, p) && rs[0] == At(demand, storages, p)
    requires RegionsAt(demand, storages, rs[1..], rest)
    ensures RegionsAt(demand, storages, rs, [p] + rest)
  {
    forall i | 1 <= i < |rs|
      ensures Occupied(demand, storages, ([p] + rest)[i]) && rs[i] == At(demand, storages, ([p] + rest)[i])
    {
      assert rs[i] == rs[1..][i - 1];
    }
  }

  lemma {:induction false} RegionsWithout(demand: Demand, storages: seq<Storage>, rs: seq<Region>, ps: seq<Place>,
                                          k: nat)
    requires RegionsAt(demand, storages, rs, ps) && k < |rs|
    ensures RegionsAt(demand, storages, Without(rs, k), Without(ps, k))
  {
  }

  lemma {:induction false} StillDistinct<T>(xs: seq<T>, ys: seq<T>)
    requires multiset(xs) == multiset(ys) && Distinct(xs)
    ensures Distinct(ys) && forall x :: x in xs <==> x in ys
  {
    OnceEach(xs);
    forall i, j | 0 <= i < j < |ys| ensures ys[i] != ys[j] {
      if ys[i] == ys[j] { TwiceThere(ys, i, j); }
    }
    forall x ensures x in xs <==> x in ys {
      assert x in xs <==> x in multiset(xs);
      assert x in ys <==> x in multiset(ys);
    }
  }

  lemma {:induction false} TwiceThere<T>(ys: seq<T>, i: nat, j: nat)
    requires i < j < |ys| && ys[i] == ys[j]
    ensures multiset(ys)[ys[i]] >= 2
  {
    assert ys == ys[..i] + [ys[i]] + ys[i + 1..j] + [ys[j]] + ys[j + 1..];
  }

  lemma {:induction false} OnceEach<T>(xs: seq<T>)
    requires Distinct(xs)
    ensures forall x :: multiset(xs)[x] <= 1
  {
    if xs != [] {
      var n := |xs| - 1;
      OnceEach(xs[..n]);
      assert xs == xs[..n] + [xs[n]];
      assert xs[n] !in xs[..n];
    }
  }

  lemma {:induction false} ReservationsAssigned(demand: Demand, storages: seq<Storage>, reservations: seq<Region>)
    requires multiset(reservations) == multiset(Regions(demand, storages))
    ensures exists places :: Assigned(demand, storages, reservations, places)
  {
    PlacesAre(demand, storages);
    var ps := Places(demand, storages);
    var places := Reordered(demand, storages, Regions(demand, storages), ps, reservations);
    StillDistinct(ps, places);
    assert Assigned(demand, storages, reservations, places);
  }

  // ----- Boundary and pages -----

  lemma {:induction false} HeapStartIsBoundary(demand: Demand, storages: seq<Storage>)
    ensures Boundary(demand, storages, HeapStart(demand, storages))
  {
    if storages != [] {
      var n := |storages| - 1;
      HeapStartIsBoundary(demand, storages[..n]);
      assert storages == storages[..n] + [storages[n]];
    }
  }

  lemma {:induction false} PagesCover(address: u32, n: int)
    ensures PagesFor(address) + 1 <= n <==> address <= (n - 1) * PAGE
  {
  }

  lemma {:induction false} DeclaredPagesAre(demand: Demand, storages: seq<Storage>)
    ensures forall n: int :: DeclaredPages(demand, storages) <= n <==> Enough(demand, storages, n)
  {
    if storages == [] {
      forall n: int ensures DeclaredPages(demand, storages) <= n <==> Enough(demand, storages, n) {
        PagesCover(demand.heapStart, n);
      }
    } else {
      var last := |storages| - 1;
      DeclaredPagesAre(demand, storages[..last]);
      assert storages == storages[..last] + [storages[last]];
      forall n: int ensures DeclaredPages(demand, storages) <= n <==> Enough(demand, storages, n) {
        assert Enough(demand, storages, n)
               <==> Enough(demand, storages[..last], n) && storages[last].minimumPages <= n;
      }
    }
  }

  /** The boundary and the declared pages are determined. */
  lemma {:induction false} Determined(demand: Demand, storages: seq<Storage>, heap: int, pages: int, maximum: int)
    ensures Boundary(demand, storages, heap) <==> heap == HeapStart(demand, storages)
    ensures Declared(demand, storages, pages) <==> pages == DeclaredPages(demand, storages)
    ensures MaximumIs(demand, maximum) <==> maximum == MaximumPages(demand)
  {
    HeapStartIsBoundary(demand, storages);
    DeclaredPagesAre(demand, storages);
    var d := DeclaredPages(demand, storages);
    assert Enough(demand, storages, d);
  }

  lemma {:induction false} StacksHold(demand: Demand, storages: seq<Storage>, heap: int)
    requires PlacesFit(demand, storages, heap)
    ensures (forall s <- storages :: StackFits(s)) <==> forall s <- storages :: StackHolds(s)
  {
    forall s | s in storages
      ensures StackFits(s) <==> StackHolds(s)
    {
      var i :| 0 <= i < |storages| && storages[i] == s;
      assert Occupied(demand, storages, Stack(i));
      assert Ordered(s.stack);
    }
  }

  /** The planner's own conditions are those on places, boundary and pages. */
  lemma {:induction false} PlannableMeans(demand: Demand, storages: seq<Storage>)
    ensures Plannable(demand, storages)
            <==> exists heap, pages, maximum :: Feasible(demand, storages, heap, pages, maximum)
  {
    var heap, pages, maximum := HeapStart(demand, storages), DeclaredPages(demand, storages), MaximumPages(demand);
    FeasibleIsPlannable(demand, storages);
    forall h, p, m | Feasible(demand, storages, h, p, m)
      ensures h == heap && p == pages && m == maximum
    {
      Determined(demand, storages, h, p, m);
    }
  }

  lemma {:induction false} SizesFitPages(heap: u32, alignment: u32, pages: u64, maximum: u64)
    ensures PagesFit(heap, alignment, pages, maximum) <==> SizesFit(heap, alignment, pages, maximum)
  {
    SameAsPower(alignment);
    PagesCover(heap, maximum);
  }

  lemma {:induction false} FeasibleIsPlannable(demand: Demand, storages: seq<Storage>)
    ensures Plannable(demand, storages)
            <==> Feasible(demand, storages, HeapStart(demand, storages), DeclaredPages(demand, storages),
                          MaximumPages(demand))
  {
    var heap, pages, maximum := HeapStart(demand, storages), DeclaredPages(demand, storages), MaximumPages(demand);
    Determined(demand, storages, heap, pages, maximum);
    PlacesFitRegions(demand, storages, heap);
    SizesFitPages(heap, demand.alignment, pages, maximum);
    if PlacesFit(demand, storages, heap) { StacksHold(demand, storages, heap); }
  }

  lemma {:induction false} ReasonMeans(demand: Demand, storages: seq<Storage>, error: Error)
    requires RegionReason(Regions(demand, storages), HeapStart(demand, storages), demand.alignment,
                          DeclaredPages(demand, storages), MaximumPages(demand), error)
    ensures Reason(demand, storages, error)
  {
    var heap, pages, maximum := HeapStart(demand, storages), DeclaredPages(demand, storages), MaximumPages(demand);
    var rs, ps := Regions(demand, storages), Places(demand, storages);
    Determined(demand, storages, heap, pages, maximum);
    PlacesAre(demand, storages);
    assert Sizes(demand, storages, heap, pages, maximum);
    match error
    case ReversedBounds =>
      var i :| 0 <= i < |rs| && !Ordered(rs[i]);
      assert Occupied(demand, storages, ps[i]) && rs[i] == At(demand, storages, ps[i]);
    case Overlap =>
      var i, j :| 0 <= i < j < |rs| && !Apart(rs[i], rs[j]);
      assert Occupied(demand, storages, ps[i]) && rs[i] == At(demand, storages, ps[i]);
      assert Occupied(demand, storages, ps[j]) && rs[j] == At(demand, storages, ps[j]) && ps[i] != ps[j];
    case PastBoundary =>
      var i :| 0 <= i < |rs| && heap < rs[i].end;
      assert Occupied(demand, storages, ps[i]) && rs[i] == At(demand, storages, ps[i]);
    case Misaligned => SameAsPower(demand.alignment);
    case ExceedsMaximum => PagesCover(heap, maximum);
    case UncoveredBoundary =>
  }

  lemma {:induction false} SameAsPower(n: nat)
    ensures IsPower(n) <==> PowerOfTwo(n)
  {
    PowerOfTwoMeans(n);
    if PowerOfTwo(n) {
      var k: nat :| n == Pow2(k);
      assert IsPower(n);
    }
    if IsPower(n) {
      var k: nat :| n == Pow2(k);
      PowIsPower(k);
    }
  }

  lemma {:induction false} PlanMeans(demand: Demand, storages: seq<Storage>, plan: Plan)
    requires PlanOf(plan, Regions(demand, storages), HeapStart(demand, storages), demand.alignment,
                    DeclaredPages(demand, storages), MaximumPages(demand))
    ensures Explains(demand, storages, plan)
  {
    ReservationsAssigned(demand, storages, plan.reservations);
    Determined(demand, storages, plan.heapStart, plan.minimumPages, plan.maximumPages);
    DeclaredPagesAre(demand, storages);
    PagesCover(plan.heapStart, plan.minimumPages);
    forall n: int | Enough(demand, storages, n) && plan.heapStart <= (n - 1) * PAGE
      ensures plan.minimumPages <= n
    {
      PagesCover(plan.heapStart, n);
    }
  }
}
