/** Placement of a process's modules in the guest address space. */
module ModuleLayout {
  import opened Arithmetic
  import opened Common

  // Rounding up to a power of two, with the source's bit operations.

  /** Bitwise AND. */
  function And(a: nat, b: nat): nat {
    if a == 0 || b == 0 then 0
    else 2 * And(a / 2, b / 2) + if a % 2 == 1 && b % 2 == 1 then 1 else 0
  }

  predicate IsPowerOfTwo(a: nat) {
    a == 1 || (a > 1 && a % 2 == 0 && IsPowerOfTwo(a / 2))
  }

  lemma {:induction false} AndSame(a: nat)
    ensures And(a, a) == a
  {
    if a > 0 {
      AndSame(a / 2);
    }
  }

  /** `a & (a - 1)` vanishes exactly for powers of two. */
  lemma {:induction false} PowerTest(a: nat)
    requires a > 0
    ensures And(a, a - 1) == 0 <==> IsPowerOfTwo(a)
  {
    if a > 1 {
      if a % 2 == 0 {
        PowerTest(a / 2);
        assert (a - 1) / 2 == a / 2 - 1;
      } else {
        AndSame(a / 2);
        assert (a - 1) / 2 == a / 2;
      }
    }
  }

  lemma AndOdd(x: nat, h: nat)
    requires x > 0 && h > 0
    ensures And(x, 2 * h - 1) == 2 * And(x / 2, h - 1) + x % 2
  {
    assert (2 * h - 1) / 2 == h - 1 && (2 * h - 1) % 2 == 1;
  }

  lemma {:induction false} AndAllOnes(x: nat, bits: nat)
    requires x < Power(bits)
    ensures And(x, Power(bits) - 1) == x
  {
    if x > 0 {
      AndAllOnes(x / 2, bits - 1);
      AndOdd(x, Power(bits - 1));
    }
  }

  lemma HalfRemainder(x: nat, b: nat)
    requires b > 0
    ensures x % (2 * b) == 2 * ((x / 2) % b) + x % 2
  {
    var q, r := (x / 2) / b, (x / 2) % b;
    assert x == 2 * (q * b + r) + x % 2;
    assert x == q * (2 * b) + (2 * r + x % 2);
    QuotientIs(x, 2 * b, q, 2 * r + x % 2);
  }

  /** Masking with the complement of `a - 1` takes the remainder off. */
  lemma {:induction false} MaskRoundsDown(x: nat, a: nat, bits: nat)
    requires x < Power(bits) && IsPowerOfTwo(a) && a <= Power(bits)
    ensures And(x, Power(bits) - 1 - (a - 1)) == x - x % a
  {
    if a == 1 {
      AndAllOnes(x, bits);
    } else {
      var mask := Power(bits) - 1 - (a - 1);
      MaskRoundsDown(x / 2, a / 2, bits - 1);
      HalfRemainder(x, a / 2);
      assert mask % 2 == 0 && mask / 2 == Power(bits - 1) - 1 - (a / 2 - 1);
    }
  }

  /** `align_up`. */
  function AlignUp(value: uint64, alignment: uint64): Result<uint64> {
    if alignment == 0 || And(alignment, alignment - 1) != 0 then Err(InvalidArgument)
    else if CheckedAdd(value, alignment - 1).Err? then Err(ArithmeticOverflow)
    else
      Power64();
      MaskIsRight(value + (alignment - 1), alignment);
      Ok(And(value + (alignment - 1), MAX64 - (alignment - 1)))
  }

  lemma MaskIsRight(x: uint64, alignment: uint64)
    requires alignment != 0 && And(alignment, alignment - 1) == 0
    ensures And(x, MAX64 - (alignment - 1)) == x - x % alignment
  {
    Power64();
    PowerTest(alignment);
    MaskRoundsDown(x, alignment, 64);
  }

  /** The result is the least multiple of the alignment that is not below the value. */
  lemma AlignUpIsLeast(value: uint64, alignment: uint64)
    requires AlignUp(value, alignment).Ok?
    ensures
      var aligned := AlignUp(value, alignment).value;
      && aligned % alignment == 0 && value <= aligned
      && forall x: nat :: x % alignment == 0 && value <= x ==> aligned <= x
  {
    hide And;
    var rounded := value + (alignment - 1);
    MaskIsRight(rounded, alignment);
    RoundsDown(rounded, alignment);
    forall x: nat | x % alignment == 0 && value <= x
      ensures AlignUp(value, alignment).value <= x
    {
      MultiplesAreApart(AlignUp(value, alignment).value, x, alignment);
    }
  }

  // The images to be placed.

  datatype Segment = Segment(offset: uint64, size: uint64)
  datatype Module = Module(segments: seq<Segment>, explicitBase: Option<uint64>)
  datatype Placement = Placement(base: uint64, end: uint64)

  datatype LayoutOptions = LayoutOptions(
    alignment: uint64,
    automaticBase: uint64,
    gap: uint64,
    stackBase: Option<uint64>,
    stackSize: uint64)

  /** The largest segment end, when all segment ends can be represented. */
  function Span(segments: seq<Segment>): Result<uint64> {
    if segments == [] then Ok(0)
    else
      var front, s := Span(segments[..|segments| - 1]), segments[|segments| - 1];
      if front.Err? then front
      else if CheckedAdd(s.offset, s.size).Err? then Err(ModuleLayoutOverflow)
      else Ok(if front.value < s.offset + s.size then s.offset + s.size else front.value)
  }

  lemma {:induction false} SpanIsMaximum(segments: seq<Segment>)
    ensures Span(segments).Ok? <==> forall i :: 0 <= i < |segments| ==> segments[i].offset + segments[i].size < TWO64
    ensures Span(segments).Ok? ==>
              && (forall i :: 0 <= i < |segments| ==> segments[i].offset + segments[i].size <= Span(segments).value)
              && (Span(segments).value == 0 ||
                  exists i :: 0 <= i < |segments| && segments[i].offset + segments[i].size == Span(segments).value)
  {
    if segments != [] {
      SpanIsMaximum(segments[..|segments| - 1]);
      var front, last := segments[..|segments| - 1], segments[|segments| - 1];
      assert forall i :: 0 <= i < |front| ==> front[i] == segments[i];
    }
  }

  /** `image_span`. */
  method ImageSpan(segments: seq<Segment>) returns (r: Result<uint64>)
    ensures r == Span(segments)
  {
    var end: uint64 := 0;
    for k := 0 to |segments|
      invariant Span(segments[..k]) == Ok(end)
    {
      assert segments[..k + 1][..k] == segments[..k];
      if CheckedAdd(segments[k].offset, segments[k].size).Err? {
        SpanFails(segments, k + 1);
        return Err(ModuleLayoutOverflow);
      }
      end := if end < segments[k].offset + segments[k].size then segments[k].offset + segments[k].size else end;
    }
    assert segments[..|segments|] == segments;
    return Ok(end);
  }

  lemma {:induction false} SpanFails(segments: seq<Segment>, k: nat)
    requires k <= |segments| && Span(segments[..k]) == Err(ModuleLayoutOverflow)
    ensures Span(segments) == Err(ModuleLayoutOverflow)
    decreases |segments| - k
  {
    if k == |segments| {
      assert segments[..k] == segments;
    } else {
      assert segments[..k + 1][..k] == segments[..k];
      SpanFails(segments, k + 1);
    }
  }

  predicate Collide(a: Placement, b: Placement) {
    a.base < b.end && b.base < a.end
  }

  ghost predicate Occupies(p: Placement, x: int) { p.base <= x < p.end }

  ghost predicate ShareAnAddress(a: Placement, b: Placement) {
    exists x :: Occupies(a, x) && Occupies(b, x)
  }

  ghost predicate IsEmptyInside(a: Placement, b: Placement) { a.base == a.end && b.base < a.base < b.end }

  /** An address lies in both, or one is empty and lies strictly inside the other. */
  ghost predicate Overlaps(a: Placement, b: Placement) {
    ShareAnAddress(a, b) || IsEmptyInside(a, b) || IsEmptyInside(b, a)
  }

  /** The comparison of the bounds finds exactly the overlaps. */
  lemma CollideExactly(a: Placement, b: Placement)
    ensures Overlaps(a, b) ==> Collide(a, b)
    ensures a.base <= a.end && b.base <= b.end ==> (Collide(a, b) <==> Overlaps(a, b))
  {
    if Collide(a, b) && a.base < a.end && b.base < b.end {
      var x := if a.base < b.base then b.base else a.base;
      assert Occupies(a, x) && Occupies(b, x);
    }
  }

  // Automatic placement.

  /** The first of the ranges from `k` on that collides with the candidate. */
  function FirstHit(candidate: Placement, ranges: seq<Placement>, k: nat): (r: Option<nat>)
    requires k <= |ranges|
    ensures r.Some? ==> k <= r.value < |ranges| && Collide(candidate, ranges[r.value])
    ensures forall i :: k <= i < (if r.Some? then r.value else |ranges|) ==> !Collide(candidate, ranges[i])
    decreases |ranges| - k
  {
    if k == |ranges| then None
    else if Collide(candidate, ranges[k]) then Some(k)
    else FirstHit(candidate, ranges, k + 1)
  }

  method FirstCollision(candidate: Placement, ranges: seq<Placement>) returns (r: Option<nat>)
    ensures r == FirstHit(candidate, ranges, 0)
  {
    for k := 0 to |ranges|
      invariant FirstHit(candidate, ranges, 0) == FirstHit(candidate, ranges, k)
    {
      if Collide(candidate, ranges[k]) {
        return Some(k);
      }
    }
    return None;
  }

  /** The base the candidate settles at: each collision moves it to one gap past the range it hit. */
  function Avoided(base: uint64, span: uint64, ranges: seq<Placement>, gap: uint64): Result<uint64>
    decreases TWO64 - base
  {
    if CheckedAdd(base, span).Err? then Err(ModuleLayoutOverflow)
    else
      var hit := FirstHit(Placement(base, base + span), ranges, 0);
      if hit.None? then Ok(base)
      else if CheckedAdd(ranges[hit.value].end, gap).Err? then Err(ModuleLayoutOverflow)
      else Avoided(ranges[hit.value].end + gap, span, ranges, gap)
  }

  /** The ranges that the candidate hits on its way, in order. */
  function Hits(base: uint64, span: uint64, ranges: seq<Placement>, gap: uint64): seq<nat>
    decreases TWO64 - base
  {
    if CheckedAdd(base, span).Err? then []
    else
      var hit := FirstHit(Placement(base, base + span), ranges, 0);
      if hit.None? then []
      else if CheckedAdd(ranges[hit.value].end, gap).Err? then [hit.value]
      else [hit.value] + Hits(ranges[hit.value].end + gap, span, ranges, gap)
  }

  /** Every range on the way ends above the base the way starts at. */
  lemma {:induction false} HitsLieAhead(base: uint64, span: uint64, ranges: seq<Placement>, gap: uint64, j: nat)
    requires j < |Hits(base, span, ranges, gap)|
    ensures Hits(base, span, ranges, gap)[j] < |ranges| && base < ranges[Hits(base, span, ranges, gap)[j]].end
    decreases TWO64 - base
  {
    if j > 0 {
      var hit := FirstHit(Placement(base, base + span), ranges, 0);
      HitsLieAhead(ranges[hit.value].end + gap, span, ranges, gap, j - 1);
    }
  }

  /** No range is hit twice. */
  lemma {:induction false} HitsAreDistinct(base: uint64, span: uint64, ranges: seq<Placement>, gap: uint64, i: nat, j: nat)
    requires i < j < |Hits(base, span, ranges, gap)|
    ensures Hits(base, span, ranges, gap)[i] != Hits(base, span, ranges, gap)[j]
    decreases TWO64 - base
  {
    var hit := FirstHit(Placement(base, base + span), ranges, 0);
    if i > 0 {
      HitsAreDistinct(ranges[hit.value].end + gap, span, ranges, gap, i - 1, j - 1);
    } else {
      HitsLieAhead(ranges[hit.value].end + gap, span, ranges, gap, j - 1);
    }
  }

  function Elements(s: seq<nat>): set<nat> { set x | x in s }

  lemma FewDistinct(s: seq<nat>, n: nat)
    requires forall i :: 0 <= i < |s| ==> s[i] < n
    requires forall i, j :: 0 <= i < j < |s| ==> s[i] != s[j]
    ensures |s| <= n
  {
    DistinctCount(s);
    FewBelow(Elements(s), n);
  }

  lemma {:induction false} DistinctCount(s: seq<nat>)
    requires forall i, j :: 0 <= i < j < |s| ==> s[i] != s[j]
    ensures |Elements(s)| == |s|
  {
    if s != [] {
      DistinctCount(s[1..]);
      assert s == [s[0]] + s[1..];
      assert Elements(s) == {s[0]} + Elements(s[1..]);
    }
  }

  lemma {:induction false} FewBelow(passed: set<nat>, n: nat)
    requires forall i :: i in passed ==> i < n
    ensures |passed| <= n
  {
    if n > 0 {
      FewBelow(passed - {n - 1}, n - 1);
    } else {
      assert forall i :: i !in passed;
      assert passed == {};
    }
  }

  /** The base moves at most once for each range. */
  lemma MovesAreFew(base: uint64, span: uint64, ranges: seq<Placement>, gap: uint64)
    ensures |Hits(base, span, ranges, gap)| <= |ranges|
  {
    var hits := Hits(base, span, ranges, gap);
    forall i | 0 <= i < |hits|
      ensures hits[i] < |ranges|
    {
      HitsLieAhead(base, span, ranges, gap, i);
    }
    forall i, j | 0 <= i < j < |hits|
      ensures hits[i] != hits[j]
    {
      HitsAreDistinct(base, span, ranges, gap, i, j);
    }
    FewDistinct(hits, |ranges|);
  }

  lemma {:induction false} AvoidedIsClear(start: uint64, span: uint64, ranges: seq<Placement>, gap: uint64)
    requires Avoided(start, span, ranges, gap).Ok?
    ensures
      var base := Avoided(start, span, ranges, gap).value;
      && start <= base && base + span < TWO64
      && (forall i :: 0 <= i < |ranges| ==> !Overlaps(Placement(base, base + span), ranges[i]))
    decreases TWO64 - start
  {
    hide Overlaps;
    var hit := FirstHit(Placement(start, start + span), ranges, 0);
    if hit.Some? {
      AvoidedIsClear(ranges[hit.value].end + gap, span, ranges, gap);
    } else {
      forall i | 0 <= i < |ranges|
        ensures !Overlaps(Placement(start, start + span), ranges[i])
      {
        CollideExactly(Placement(start, start + span), ranges[i]);
      }
    }
  }

  /** A base that was moved lies one gap past the last range it hit. */
  lemma {:induction false} AvoidedIsPastLastHit(start: uint64, span: uint64, ranges: seq<Placement>, gap: uint64)
    requires Avoided(start, span, ranges, gap).Ok?
    ensures
      var base, hits := Avoided(start, span, ranges, gap).value, Hits(start, span, ranges, gap);
      if hits == [] then base == start
      else hits[|hits| - 1] < |ranges| && base == ranges[hits[|hits| - 1]].end + gap
    decreases TWO64 - start
  {
    var hit := FirstHit(Placement(start, start + span), ranges, 0);
    if hit.Some? {
      AvoidedIsPastLastHit(ranges[hit.value].end + gap, span, ranges, gap);
    }
  }

  /** One look at the ranges: the search ends, or moves past the range it hits. */
  lemma SearchGoesOn(base: uint64, span: uint64, ranges: seq<Placement>, gap: uint64)
    requires CheckedAdd(base, span).Ok?
    ensures
      var hit := FirstHit(Placement(base, base + span), ranges, 0);
      if hit.None? then Avoided(base, span, ranges, gap) == Ok(base) && Hits(base, span, ranges, gap) == []
      else if CheckedAdd(ranges[hit.value].end, gap).Err? then
        Avoided(base, span, ranges, gap) == Err(ModuleLayoutOverflow) && Hits(base, span, ranges, gap) == [hit.value]
      else
        var next := ranges[hit.value].end + gap;
        && base < next && Avoided(base, span, ranges, gap) == Avoided(next, span, ranges, gap)
        && Hits(base, span, ranges, gap) == [hit.value] + Hits(next, span, ranges, gap)
  {
  }

  lemma SearchFails(base: uint64, span: uint64, ranges: seq<Placement>, gap: uint64)
    requires CheckedAdd(base, span).Err?
    ensures Avoided(base, span, ranges, gap) == Err(ModuleLayoutOverflow) && Hits(base, span, ranges, gap) == []
  {
  }

  /** The base moves past one explicit range at a time, and past none twice. */
  method AvoidExplicit(start: uint64, span: uint64, ranges: seq<Placement>, gap: uint64)
    returns (r: Result<uint64>, ghost hits: seq<nat>)
    ensures r == Avoided(start, span, ranges, gap) && hits == Hits(start, span, ranges, gap)
    ensures r.Err? ==> r.code == ModuleLayoutOverflow
  {
    hide Avoided, Hits;
    var base: uint64 := start;
    hits := [];
    while true
      invariant Avoided(start, span, ranges, gap) == Avoided(base, span, ranges, gap)
      invariant Hits(start, span, ranges, gap) == hits + Hits(base, span, ranges, gap)
      decreases TWO64 - base
    {
      if CheckedAdd(base, span).Err? {
        SearchFails(base, span, ranges, gap);
        return Err(ModuleLayoutOverflow), hits;
      }
      SearchGoesOn(base, span, ranges, gap);
      var hit := FirstCollision(Placement(base, base + span), ranges);
      if hit.None? {
        return Ok(base), hits;
      }
      var end := ranges[hit.value].end;
      AppendHit(Hits(start, span, ranges, gap), hits, hit.value, Hits(base, span, ranges, gap));
      hits := hits + [hit.value];
      if CheckedAdd(end, gap).Err? {
        return Err(ModuleLayoutOverflow), hits;
      }
      base := end + gap;
    }
  }

  lemma AppendHit(all: seq<nat>, front: seq<nat>, hit: nat, rest: seq<nat>)
    requires all == front + rest && rest != [] && rest[0] == hit
    ensures all == (front + [hit]) + rest[1..]
  {
    assert rest == [hit] + rest[1..];
  }

  // The whole layout.

  /** The explicitly placed modules, with valid spans and aligned bases, in order. */
  function ExplicitRanges(modules: seq<Module>, alignment: uint64): Result<seq<Placement>>
    requires alignment > 0
  {
    if modules == [] then Ok([])
    else
      var front, m := ExplicitRanges(modules[..|modules| - 1], alignment), modules[|modules| - 1];
      if front.Err? || m.explicitBase.None? then front
      else if m.explicitBase.value % alignment != 0 then Err(InvalidArgument)
      else if Span(m.segments).Err? then Err(Span(m.segments).code)
      else if CheckedAdd(m.explicitBase.value, Span(m.segments).value).Err? then Err(ModuleLayoutOverflow)
      else Ok(front.value + [Placement(m.explicitBase.value, m.explicitBase.value + Span(m.segments).value)])
  }

  /** The placement of one module: where it was asked to be, or automatic. */
  ghost predicate IsPlacementOf(m: Module, p: Placement, alignment: uint64)
    requires alignment > 0
  {
    && Span(m.segments) == Ok(p.end - p.base) && p.base <= p.end
    && (m.explicitBase.Some? ==> p.base == m.explicitBase.value && p.base % alignment == 0)
  }

  /** The search for an automatic base starts at the aligned cursor. */
  ghost predicate SettlesAt(cursor: uint64, span: uint64, ranges: seq<Placement>, options: LayoutOptions, base: uint64) {
    && AlignUp(cursor, options.alignment).Ok?
    && Avoided(AlignUp(cursor, options.alignment).value, span, ranges, options.gap) == Ok(base)
  }

  /** The explicit ranges met by that search. */
  ghost function HitsFrom(cursor: uint64, span: uint64, ranges: seq<Placement>, options: LayoutOptions): seq<nat>
    requires AlignUp(cursor, options.alignment).Ok?
  {
    Hits(AlignUp(cursor, options.alignment).value, span, ranges, options.gap)
  }

  /** One gap past the range is not a multiple of the alignment. */
  predicate LeavesUnaligned(r: Placement, options: LayoutOptions)
    requires options.alignment > 0
  {
    (r.end + options.gap) % options.alignment != 0
  }

  lemma AlignUpIsAligned(value: uint64, alignment: uint64)
    requires AlignUp(value, alignment).Ok?
    ensures AlignUp(value, alignment).value % alignment == 0
  {
    AlignUpIsLeast(value, alignment);
  }

  /** An automatic base is unaligned if, and only if, it was moved and the last range it was moved past
      leaves it so. */
  lemma UnalignedExactly(cursor: uint64, span: uint64, ranges: seq<Placement>, options: LayoutOptions, base: uint64)
    requires options.alignment > 0 && SettlesAt(cursor, span, ranges, options, base)
    ensures
      var hits := HitsFrom(cursor, span, ranges, options);
      && (forall k :: 0 <= k < |hits| ==> hits[k] < |ranges|)
      && (base % options.alignment != 0 <==> hits != [] && LeavesUnaligned(ranges[hits[|hits| - 1]], options))
  {
    var start := AlignUp(cursor, options.alignment).value;
    var hits := HitsFrom(cursor, span, ranges, options);
    hide AlignUp, Avoided, Hits;
    AlignUpIsAligned(cursor, options.alignment);
    AvoidedIsPastLastHit(start, span, ranges, options.gap);
    forall k | 0 <= k < |hits|
      ensures hits[k] < |ranges|
    {
      HitsLieAhead(start, span, ranges, options.gap, k);
    }
  }

  /** An automatic placement: the search from the cursor settles there, clear of every explicit module. */
  ghost predicate AutomaticBase(p: Placement, cursor: int, ranges: seq<Placement>, options: LayoutOptions)
    requires options.alignment > 0
  {
    && 0 <= cursor <= p.base <= p.end && SettlesAt(cursor, p.end - p.base, ranges, options, p.base)
    && forall i :: 0 <= i < |ranges| ==> !Overlaps(p, ranges[i])
  }

  function Stack(options: LayoutOptions): Placement
    requires options.stackBase.Some? && options.stackBase.value + options.stackSize < TWO64
  {
    Placement(options.stackBase.value, options.stackBase.value + options.stackSize)
  }

  predicate HasStack(options: LayoutOptions) { options.stackBase.Some? && options.stackSize != 0 }

  predicate NearStack(p: Placement, options: LayoutOptions) {
    && HasStack(options)
    && (options.stackBase.value + options.stackSize >= TWO64 || Collide(p, Stack(options)))
  }

  /** The module overlaps the reserved stack, or the stack does not fit into the address space. */
  ghost predicate MeetsStack(p: Placement, options: LayoutOptions) {
    && options.stackBase.Some? && options.stackSize != 0
    && (options.stackBase.value + options.stackSize >= TWO64
        || Overlaps(p, Placement(options.stackBase.value, options.stackBase.value + options.stackSize)))
  }

  lemma NearStackExactly(p: Placement, options: LayoutOptions)
    requires p.base <= p.end
    ensures NearStack(p, options) <==> MeetsStack(p, options)
  {
    if HasStack(options) && options.stackBase.value + options.stackSize < TWO64 {
      CollideExactly(p, Stack(options));
    }
  }

  // The layout as a function: where each module goes, or the first error.

  /** Where one module goes. */
  function PlacementOf(m: Module, cursor: uint64, ranges: seq<Placement>, options: LayoutOptions): Result<Placement> {
    var span := Span(m.segments);
    if span.Err? then Err(span.code)
    else
      var base :=
        if m.explicitBase.Some? then Ok(m.explicitBase.value)
        else
          var aligned := AlignUp(cursor, options.alignment);
          if aligned.Err? then aligned else Avoided(aligned.value, span.value, ranges, options.gap);
      if base.Err? then Err(base.code)
      else if CheckedAdd(base.value, span.value).Err? then Err(ModuleLayoutOverflow)
      else Ok(Placement(base.value, base.value + span.value))
  }

  /** The next module, checked against all that is there. */
  function PlaceBehind(m: Module, cursor: uint64, ranges: seq<Placement>, options: LayoutOptions, ps: seq<Placement>)
    : Result<Placement>
  {
    var placed := PlacementOf(m, cursor, ranges, options);
    if placed.Err? then placed
    else if FirstHit(placed.value, ps, 0).Some? then Err(ModuleAddressOverlap)
    else if CheckedAdd(placed.value.end, options.gap).Err? then Err(ModuleLayoutOverflow)
    else if HasStack(options) && CheckedAdd(options.stackBase.value, options.stackSize).Err? then Err(ModuleLayoutOverflow)
    else if NearStack(placed.value, options) then Err(ModuleAddressOverlap)
    else placed
  }

  /** Where the search for the next base starts: one gap past the last module. */
  function CursorAfter(options: LayoutOptions, ps: seq<Placement>): int {
    if ps == [] then options.automaticBase else ps[|ps| - 1].end + options.gap
  }

  function PlaceFirst(modules: seq<Module>, k: nat, ranges: seq<Placement>, options: LayoutOptions): Result<seq<Placement>>
    requires k <= |modules|
  {
    if k == 0 then Ok([])
    else
      var front := PlaceFirst(modules, k - 1, ranges, options);
      if front.Err? then front
      else if !(0 <= CursorAfter(options, front.value) < TWO64) then Err(ModuleLayoutOverflow)
      else
        var placed := PlaceBehind(modules[k - 1], CursorAfter(options, front.value), ranges, options, front.value);
        if placed.Err? then Err(placed.code) else Ok(front.value + [placed.value])
  }

  function LayoutOf(modules: seq<Module>, options: LayoutOptions): Result<seq<Placement>> {
    if options.alignment == 0 || And(options.alignment, options.alignment - 1) != 0 then Err(InvalidArgument)
    else
      var ranges := ExplicitRanges(modules, options.alignment);
      if ranges.Err? then Err(ranges.code) else PlaceFirst(modules, |modules|, ranges.value, options)
  }

  // What a layout guarantees.

  /** The modules are placed as they should be, and nothing overlaps. */
  ghost predicate LaidOut(modules: seq<Module>, options: LayoutOptions, ranges: seq<Placement>, ps: seq<Placement>)
    requires |ps| <= |modules| && options.alignment > 0
  {
    && (forall i :: 0 <= i < |ps| ==> IsPlacementOf(modules[i], ps[i], options.alignment) && !MeetsStack(ps[i], options))
    && (forall i, j :: 0 <= i < j < |ps| ==> !Overlaps(ps[i], ps[j]))
    && (forall i :: 0 <= i < |ps| && modules[i].explicitBase.None? ==>
          AutomaticBase(ps[i], CursorAt(options, ps, i), ranges, options))
  }

  /** The modules before it are laid out, and the next one overlaps one of them or meets the stack. */
  ghost predicate IsBlocked(modules: seq<Module>, options: LayoutOptions, ranges: seq<Placement>, ps: seq<Placement>,
                            p: Placement)
    requires options.alignment > 0
  {
    && |ps| < |modules| && LaidOut(modules, options, ranges, ps)
    && IsPlacementOf(modules[|ps|], p, options.alignment)
    && (modules[|ps|].explicitBase.None? ==> AutomaticBase(p, CursorAt(options, ps, |ps|), ranges, options))
    && (MeetsStack(p, options) || exists i :: 0 <= i < |ps| && Overlaps(p, ps[i]))
  }

  ghost predicate SomeIsBlocked(modules: seq<Module>, options: LayoutOptions, ranges: seq<Placement>)
    requires options.alignment > 0
  {
    exists ps, p :: IsBlocked(modules, options, ranges, ps, p)
  }

  /** The ranges are those of the modules with a base of their own, and each base is aligned. */
  ghost predicate ListsExplicit(modules: seq<Module>, alignment: uint64, ranges: seq<Placement>)
    requires alignment > 0
  {
    && (forall i :: 0 <= i < |modules| && modules[i].explicitBase.Some? ==> IsInList(modules[i], alignment, ranges))
    && (forall k :: 0 <= k < |ranges| ==> IsOfModule(modules, alignment, ranges[k]))
  }

  ghost predicate IsInList(m: Module, alignment: uint64, ranges: seq<Placement>)
    requires alignment > 0
  {
    exists k :: 0 <= k < |ranges| && IsPlacementOf(m, ranges[k], alignment)
  }

  ghost predicate IsOfModule(modules: seq<Module>, alignment: uint64, p: Placement)
    requires alignment > 0
  {
    exists i :: 0 <= i < |modules| && modules[i].explicitBase.Some? && IsPlacementOf(modules[i], p, alignment)
  }

  lemma StaysInList(m: Module, alignment: uint64, ranges: seq<Placement>, p: Placement)
    requires alignment > 0
    ensures IsInList(m, alignment, ranges) || IsPlacementOf(m, p, alignment) ==> IsInList(m, alignment, ranges + [p])
  {
    hide IsPlacementOf;
    var all := ranges + [p];
    if k :| 0 <= k < |ranges| && IsPlacementOf(m, ranges[k], alignment) {
      assert all[k] == ranges[k];
    }
    if IsPlacementOf(m, p, alignment) {
      assert all[|ranges|] == p;
    }
  }

  lemma StaysOfModule(modules: seq<Module>, m: Module, alignment: uint64, p: Placement)
    requires alignment > 0
    ensures IsOfModule(modules, alignment, p) ==> IsOfModule(modules + [m], alignment, p)
    ensures m.explicitBase.Some? && IsPlacementOf(m, p, alignment) ==> IsOfModule(modules + [m], alignment, p)
  {
    hide IsPlacementOf;
    var more := modules + [m];
    if i :| 0 <= i < |modules| && modules[i].explicitBase.Some? && IsPlacementOf(modules[i], p, alignment) {
      assert more[i] == modules[i];
    }
    if m.explicitBase.Some? && IsPlacementOf(m, p, alignment) {
      assert more[|modules|] == m;
    }
  }

  lemma ListOneMore(modules: seq<Module>, m: Module, alignment: uint64, ranges: seq<Placement>, p: Placement)
    requires alignment > 0 && ListsExplicit(modules, alignment, ranges)
    ensures m.explicitBase.None? ==> ListsExplicit(modules + [m], alignment, ranges)
    ensures m.explicitBase.Some? && IsPlacementOf(m, p, alignment) ==> ListsExplicit(modules + [m], alignment, ranges + [p])
  {
    hide IsPlacementOf, IsInList, IsOfModule;
    forall k | 0 <= k < |ranges|
      ensures IsOfModule(modules + [m], alignment, ranges[k])
    {
      StaysOfModule(modules, m, alignment, ranges[k]);
    }
    if m.explicitBase.Some? && IsPlacementOf(m, p, alignment) {
      StaysOfModule(modules, m, alignment, p);
      forall i | 0 <= i < |modules + [m]| && (modules + [m])[i].explicitBase.Some?
        ensures IsInList((modules + [m])[i], alignment, ranges + [p])
      {
        StaysInList((modules + [m])[i], alignment, ranges, p);
      }
    }
  }

  lemma {:induction false} ExplicitAreListed(modules: seq<Module>, alignment: uint64)
    requires alignment > 0 && ExplicitRanges(modules, alignment).Ok?
    ensures ListsExplicit(modules, alignment, ExplicitRanges(modules, alignment).value)
  {
    hide ListsExplicit, Span;
    if modules == [] {
      NothingToList(alignment);
    } else {
      var front, m := modules[..|modules| - 1], modules[|modules| - 1];
      ExplicitAreListed(front, alignment);
      var p := if m.explicitBase.Some?
               then Placement(m.explicitBase.value, m.explicitBase.value + Span(m.segments).value)
               else Placement(0, 0);
      ListOneMore(front, m, alignment, ExplicitRanges(front, alignment).value, p);
      assert front + [m] == modules;
    }
  }

  lemma NothingToList(alignment: uint64)
    requires alignment > 0
    ensures ListsExplicit([], alignment, [])
  {
  }

  ghost function CursorAt(options: LayoutOptions, ps: seq<Placement>, i: nat): int
    requires i <= |ps|
  {
    if i == 0 then options.automaticBase else ps[i - 1].end + options.gap
  }

  predicate AllAutomatic(modules: seq<Module>) {
    forall i :: 0 <= i < |modules| ==> modules[i].explicitBase.None?
  }

  lemma {:induction false} NothingIsExplicit(modules: seq<Module>, alignment: uint64)
    requires alignment > 0 && AllAutomatic(modules)
    ensures ExplicitRanges(modules, alignment) == Ok([])
  {
    if modules != [] {
      NothingIsExplicit(modules[..|modules| - 1], alignment);
    }
  }

  method CollectExplicit(modules: seq<Module>, alignment: uint64) returns (r: Result<seq<Placement>>)
    requires alignment > 0
    ensures r == ExplicitRanges(modules, alignment)
  {
    var ranges: seq<Placement> := [];
    for k := 0 to |modules|
      invariant ExplicitRanges(modules[..k], alignment) == Ok(ranges)
    {
      var m := modules[k];
      assert modules[..k + 1][..k] == modules[..k];
      if m.explicitBase.Some? {
        if m.explicitBase.value % alignment != 0 {
          ExplicitFails(modules, alignment, k + 1);
          return Err(InvalidArgument);
        }
        var span := ImageSpan(m.segments);
        if span.Err? {
          ExplicitFails(modules, alignment, k + 1);
          return Err(span.code);
        }
        if CheckedAdd(m.explicitBase.value, span.value).Err? {
          ExplicitFails(modules, alignment, k + 1);
          return Err(ModuleLayoutOverflow);
        }
        ranges := ranges + [Placement(m.explicitBase.value, m.explicitBase.value + span.value)];
      }
    }
    assert modules[..|modules|] == modules;
    return Ok(ranges);
  }

  lemma {:induction false} ExplicitFails(modules: seq<Module>, alignment: uint64, k: nat)
    requires alignment > 0 && k <= |modules| && ExplicitRanges(modules[..k], alignment).Err?
    ensures ExplicitRanges(modules, alignment) == ExplicitRanges(modules[..k], alignment)
    decreases |modules| - k
  {
    if k == |modules| {
      assert modules[..k] == modules;
    } else {
      assert modules[..k + 1][..k] == modules[..k];
      ExplicitFails(modules, alignment, k + 1);
    }
  }

  /** Every explicit module has passed the alignment test, so its placement keeps it. */
  lemma {:induction false} ExplicitIsAligned(modules: seq<Module>, alignment: uint64, k: nat)
    requires alignment > 0 && ExplicitRanges(modules, alignment).Ok? && k < |modules|
    requires modules[k].explicitBase.Some?
    ensures modules[k].explicitBase.value % alignment == 0
  {
    if k < |modules| - 1 {
      ExplicitIsAligned(modules[..|modules| - 1], alignment, k);
    }
  }

  /** The placement of a module with its size, and with a base that is asked for or found. */
  method PlaceModule(m: Module, cursor: uint64, ranges: seq<Placement>, options: LayoutOptions)
    returns (r: Result<Placement>)
    requires options.alignment > 0
    ensures r == PlacementOf(m, cursor, ranges, options)
    ensures r.Ok? && m.explicitBase.None? ==>
              && SettlesAt(cursor, Span(m.segments).value, ranges, options, r.value.base)
              && (r.value.base % options.alignment != 0 <==>
                    var hits := HitsFrom(cursor, Span(m.segments).value, ranges, options);
                    hits != [] && hits[|hits| - 1] < |ranges| && LeavesUnaligned(ranges[hits[|hits| - 1]], options))
  {
    hide AlignUp, Avoided, Hits, LeavesUnaligned;
    var span := ImageSpan(m.segments);
    if span.Err? {
      return Err(span.code);
    }
    var base: uint64;
    if m.explicitBase.Some? {
      base := m.explicitBase.value;
    } else {
      var aligned := AlignUp(cursor, options.alignment);
      if aligned.Err? {
        return Err(aligned.code);
      }
      var placed;
      ghost var hits;
      placed, hits := AvoidExplicit(aligned.value, span.value, ranges, options.gap);
      if placed.Err? {
        return Err(placed.code);
      }
      base := placed.value;
      UnalignedExactly(cursor, span.value, ranges, options, base);
    }
    if CheckedAdd(base, span.value).Err? {
      return Err(ModuleLayoutOverflow);
    }
    return Ok(Placement(base, base + span.value));
  }

  /** One round of the layout loop. */
  method PlaceNext(m: Module, options: LayoutOptions, ranges: seq<Placement>, ps: seq<Placement>, cursor: uint64)
    returns (r: Result<Placement>)
    requires options.alignment > 0
    ensures r == PlaceBehind(m, cursor, ranges, options, ps)
  {
    hide PlacementOf, FirstHit, SettlesAt;
    r := PlaceModule(m, cursor, ranges, options);
    if r.Err? {
      return;
    }
    var hit := FirstCollision(r.value, ps);
    if hit.Some? {
      return Err(ModuleAddressOverlap);
    }
    if CheckedAdd(r.value.end, options.gap).Err? {
      return Err(ModuleLayoutOverflow);
    }
    if HasStack(options) && CheckedAdd(options.stackBase.value, options.stackSize).Err? {
      return Err(ModuleLayoutOverflow);
    }
    if NearStack(r.value, options) {
      return Err(ModuleAddressOverlap);
    }
  }

  lemma {:induction false} PlacingFails(modules: seq<Module>, k: nat, ranges: seq<Placement>, options: LayoutOptions)
    requires k <= |modules| && PlaceFirst(modules, k, ranges, options).Err?
    ensures PlaceFirst(modules, |modules|, ranges, options) == PlaceFirst(modules, k, ranges, options)
    decreases |modules| - k
  {
    hide PlaceBehind;
    if k < |modules| {
      PlacingFails(modules, k + 1, ranges, options);
    }
  }

  /** The layout loop of `load_process_image`. */
  method Layout(modules: seq<Module>, options: LayoutOptions) returns (r: Result<seq<Placement>>)
    ensures r == LayoutOf(modules, options)
    ensures r.Ok? ==>
              && options.alignment > 0 && ExplicitRanges(modules, options.alignment).Ok? && |r.value| == |modules|
              && LaidOut(modules, options, ExplicitRanges(modules, options.alignment).value, r.value)
    ensures r.Ok? ==>
              && IsPowerOfTwo(options.alignment)
              && ListsExplicit(modules, options.alignment, ExplicitRanges(modules, options.alignment).value)
    ensures r == Err(ModuleAddressOverlap) ==>
              && options.alignment > 0 && ExplicitRanges(modules, options.alignment).Ok?
              && SomeIsBlocked(modules, options, ExplicitRanges(modules, options.alignment).value)
    ensures r == Err(InvalidArgument) ==> !IsPowerOfTwo(options.alignment) || SomeIsMisplaced(modules, options.alignment)
    ensures AllAutomatic(modules) && r.Ok? ==> ExplicitRanges(modules, options.alignment) == Ok([])
    ensures AllAutomatic(modules) && !HasStack(options) ==> r != Err(ModuleAddressOverlap)
  {
    hide PlaceBehind, PlacementOf, LaidOut, ExplicitRanges, SomeIsBlocked, SomeIsMisplaced, ListsExplicit;
    if options.alignment > 0 {
      PowerTest(options.alignment);
    }
    if options.alignment == 0 || And(options.alignment, options.alignment - 1) != 0 {
      return Err(InvalidArgument);
    }
    LayoutIsSound(modules, options);
    var explicit := CollectExplicit(modules, options.alignment);
    if explicit.Err? {
      return Err(explicit.code);
    }
    var ranges := explicit.value;
    var ps: seq<Placement> := [];
    var cursor: uint64 := options.automaticBase;
    for k := 0 to |modules|
      invariant PlaceFirst(modules, k, ranges, options) == Ok(ps) && cursor == CursorAfter(options, ps)
    {
      var placed := PlaceNext(modules[k], options, ranges, ps, cursor);
      if placed.Err? {
        PlacingFails(modules, k + 1, ranges, options);
        return Err(placed.code);
      }
      RoomBehind(modules[k], cursor, ranges, options, ps);
      ps := ps + [placed.value];
      cursor := placed.value.end + options.gap;
    }
    return Ok(ps);
  }

  lemma RoomBehind(m: Module, cursor: uint64, ranges: seq<Placement>, options: LayoutOptions, ps: seq<Placement>)
    requires PlaceBehind(m, cursor, ranges, options, ps).Ok?
    ensures PlaceBehind(m, cursor, ranges, options, ps).value.end + options.gap < TWO64
  {
    hide PlacementOf;
  }

  /** A placement that passed the checks. */
  lemma PlacedIsSound(m: Module, cursor: uint64, ranges: seq<Placement>, options: LayoutOptions, ps: seq<Placement>)
    requires options.alignment > 0 && PlaceBehind(m, cursor, ranges, options, ps).Ok?
    requires m.explicitBase.Some? ==> m.explicitBase.value % options.alignment == 0
    ensures
      var p := PlaceBehind(m, cursor, ranges, options, ps).value;
      && IsPlacementOf(m, p, options.alignment) && !MeetsStack(p, options)
      && (forall i :: 0 <= i < |ps| ==> !Overlaps(ps[i], p))
      && (m.explicitBase.None? ==> AutomaticBase(p, cursor, ranges, options))
  {
    hide Avoided, Span, Collide, Overlaps, NearStack, MeetsStack;
    PlacementIs(m, cursor, ranges, options);
    var p := PlaceBehind(m, cursor, ranges, options, ps).value;
    NearStackExactly(p, options);
    forall i | 0 <= i < |ps|
      ensures !Overlaps(ps[i], p)
    {
      CollideExactly(p, ps[i]);
      OverlapIsMutual(ps[i], p);
    }
  }

  lemma OverlapIsMutual(a: Placement, b: Placement)
    ensures Overlaps(a, b) <==> Overlaps(b, a)
  {
    if x :| Occupies(a, x) && Occupies(b, x) {
      assert Occupies(b, x) && Occupies(a, x);
    }
    if x :| Occupies(b, x) && Occupies(a, x) {
      assert Occupies(a, x) && Occupies(b, x);
    }
  }

  /** A module that has a place. */
  lemma PlacementIs(m: Module, cursor: uint64, ranges: seq<Placement>, options: LayoutOptions)
    requires options.alignment > 0 && (m.explicitBase.Some? ==> m.explicitBase.value % options.alignment == 0)
    ensures
      var r := PlacementOf(m, cursor, ranges, options);
      && (r.Ok? ==>
            && IsPlacementOf(m, r.value, options.alignment)
            && (m.explicitBase.None? ==> AutomaticBase(r.value, cursor, ranges, options)))
      && r != Err(ModuleAddressOverlap)
      && (r == Err(InvalidArgument) ==> And(options.alignment, options.alignment - 1) != 0)
  {
    SpanFailure(m.segments);
    hide Avoided, Span, Overlaps;
    if m.explicitBase.None? && AlignUp(cursor, options.alignment).Ok? && Span(m.segments).Ok? {
      var start := AlignUp(cursor, options.alignment).value;
      AlignUpIsLeast(cursor, options.alignment);
      AvoidingFails(start, Span(m.segments).value, ranges, options.gap);
      if Avoided(start, Span(m.segments).value, ranges, options.gap).Ok? {
        AvoidedIsClear(start, Span(m.segments).value, ranges, options.gap);
      }
    }
  }

  lemma {:induction false} AvoidingFails(start: uint64, span: uint64, ranges: seq<Placement>, gap: uint64)
    ensures Avoided(start, span, ranges, gap).Err? ==> Avoided(start, span, ranges, gap).code == ModuleLayoutOverflow
    decreases TWO64 - start
  {
    if CheckedAdd(start, span).Ok? {
      var hit := FirstHit(Placement(start, start + span), ranges, 0);
      if hit.Some? && CheckedAdd(ranges[hit.value].end, gap).Ok? {
        AvoidingFails(ranges[hit.value].end + gap, span, ranges, gap);
      }
    }
  }

  lemma AddPlacement(modules: seq<Module>, options: LayoutOptions, ranges: seq<Placement>, ps: seq<Placement>,
                     p: Placement)
    requires |ps| < |modules| && options.alignment > 0 && LaidOut(modules, options, ranges, ps)
    requires IsPlacementOf(modules[|ps|], p, options.alignment) && !MeetsStack(p, options)
    requires forall i :: 0 <= i < |ps| ==> !Overlaps(ps[i], p)
    requires modules[|ps|].explicitBase.None? ==> AutomaticBase(p, CursorAfter(options, ps), ranges, options)
    ensures LaidOut(modules, options, ranges, ps + [p])
  {
    hide IsPlacementOf, AutomaticBase, MeetsStack, Overlaps;
    var more := ps + [p];
    forall i | 0 <= i < |more| && modules[i].explicitBase.None?
      ensures AutomaticBase(more[i], CursorAt(options, more, i), ranges, options)
    {
      assert CursorAt(options, more, i) == if i < |ps| then CursorAt(options, ps, i) else CursorAfter(options, ps);
    }
  }

  lemma NextIsSound(modules: seq<Module>, k: nat, ranges: seq<Placement>, options: LayoutOptions, ps: seq<Placement>)
    requires options.alignment > 0 && k < |modules| && |ps| == k && LaidOut(modules, options, ranges, ps)
    requires ExplicitRanges(modules, options.alignment) == Ok(ranges) && 0 <= CursorAfter(options, ps) < TWO64
    requires PlaceBehind(modules[k], CursorAfter(options, ps), ranges, options, ps).Ok?
    ensures LaidOut(modules, options, ranges, ps + [PlaceBehind(modules[k], CursorAfter(options, ps), ranges, options, ps).value])
  {
    hide PlaceBehind, IsPlacementOf, AutomaticBase, MeetsStack, Overlaps, LaidOut, ExplicitRanges, CursorAfter;
    if modules[k].explicitBase.Some? {
      ExplicitIsAligned(modules, options.alignment, k);
    }
    PlacedIsSound(modules[k], CursorAfter(options, ps), ranges, options, ps);
    AddPlacement(modules, options, ranges, ps, PlaceBehind(modules[k], CursorAfter(options, ps), ranges, options, ps).value);
  }

  lemma {:induction false} PlacingIsSound(modules: seq<Module>, k: nat, ranges: seq<Placement>, options: LayoutOptions)
    requires options.alignment > 0 && k <= |modules| && PlaceFirst(modules, k, ranges, options).Ok?
    requires ExplicitRanges(modules, options.alignment) == Ok(ranges)
    ensures
      var ps := PlaceFirst(modules, k, ranges, options).value;
      |ps| == k && LaidOut(modules, options, ranges, ps)
  {
    hide PlaceBehind, LaidOut, ExplicitRanges, CursorAfter;
    if k == 0 {
      NothingIsLaidOut(modules, options, ranges);
    } else {
      PlacingIsSound(modules, k - 1, ranges, options);
      NextIsSound(modules, k - 1, ranges, options, PlaceFirst(modules, k - 1, ranges, options).value);
    }
  }

  lemma NothingIsLaidOut(modules: seq<Module>, options: LayoutOptions, ranges: seq<Placement>)
    requires options.alignment > 0
    ensures LaidOut(modules, options, ranges, [])
  {
  }

  /** Automatic modules without a stack never collide: each lies behind the cursor, and all others before it. */
  lemma {:induction false} AutomaticNeverOverlaps(modules: seq<Module>, k: nat, options: LayoutOptions)
    requires options.alignment > 0 && k <= |modules| && AllAutomatic(modules) && !HasStack(options)
    ensures
      var r := PlaceFirst(modules, k, [], options);
      && r != Err(ModuleAddressOverlap)
      && (r.Ok? ==> forall i :: 0 <= i < |r.value| ==> r.value[i].end <= CursorAfter(options, r.value))
  {
    hide PlaceBehind, HasStack;
    if k > 0 {
      AutomaticNeverOverlaps(modules, k - 1, options);
      var front := PlaceFirst(modules, k - 1, [], options);
      if front.Ok? && 0 <= CursorAfter(options, front.value) < TWO64 {
        AutomaticGoesBehind(modules[k - 1], CursorAfter(options, front.value), options, front.value);
      }
    }
  }

  lemma AutomaticGoesBehind(m: Module, cursor: uint64, options: LayoutOptions, ps: seq<Placement>)
    requires options.alignment > 0 && m.explicitBase.None? && !HasStack(options)
    requires forall i :: 0 <= i < |ps| ==> ps[i].end <= cursor
    ensures
      var r := PlaceBehind(m, cursor, [], options, ps);
      && r != Err(ModuleAddressOverlap) && (r.Ok? ==> cursor <= r.value.base <= r.value.end)
  {
    SpanFailure(m.segments);
    hide Span;
    if AlignUp(cursor, options.alignment).Ok? {
      AlignUpIsLeast(cursor, options.alignment);
    }
  }

  lemma {:induction false} SpanFailure(segments: seq<Segment>)
    ensures Span(segments).Err? ==> Span(segments).code == ModuleLayoutOverflow
  {
    if segments != [] {
      SpanFailure(segments[..|segments| - 1]);
    }
  }

  ghost predicate SomeIsMisplaced(modules: seq<Module>, alignment: uint64)
    requires alignment > 0
  {
    exists i :: 0 <= i < |modules| && modules[i].explicitBase.Some? && modules[i].explicitBase.value % alignment != 0
  }

  /** A failure of the loop with this code has a module in the way. */
  lemma {:induction false} PlacingIsBlocked(modules: seq<Module>, k: nat, ranges: seq<Placement>, options: LayoutOptions)
    requires options.alignment > 0 && And(options.alignment, options.alignment - 1) == 0 && k <= |modules|
    requires ExplicitRanges(modules, options.alignment) == Ok(ranges)
    ensures PlaceFirst(modules, k, ranges, options) == Err(ModuleAddressOverlap) ==> SomeIsBlocked(modules, options, ranges)
    ensures PlaceFirst(modules, k, ranges, options) != Err(InvalidArgument)
  {
    hide PlaceBehind, LaidOut, ExplicitRanges, CursorAfter, SomeIsBlocked;
    if k > 0 {
      PlacingIsBlocked(modules, k - 1, ranges, options);
      var front := PlaceFirst(modules, k - 1, ranges, options);
      if front.Ok? && 0 <= CursorAfter(options, front.value) < TWO64 {
        PlacingIsSound(modules, k - 1, ranges, options);
        NextIsBlocked(modules, k - 1, ranges, options, front.value);
      }
    }
  }

  lemma NextIsBlocked(modules: seq<Module>, k: nat, ranges: seq<Placement>, options: LayoutOptions, ps: seq<Placement>)
    requires options.alignment > 0 && And(options.alignment, options.alignment - 1) == 0
    requires k < |modules| && |ps| == k && LaidOut(modules, options, ranges, ps)
    requires ExplicitRanges(modules, options.alignment) == Ok(ranges) && 0 <= CursorAfter(options, ps) < TWO64
    ensures
      var r := PlaceBehind(modules[k], CursorAfter(options, ps), ranges, options, ps);
      && (r == Err(ModuleAddressOverlap) ==> SomeIsBlocked(modules, options, ranges))
      && r != Err(InvalidArgument)
  {
    hide PlacementOf, IsPlacementOf, AutomaticBase, MeetsStack, Overlaps, Collide, NearStack, LaidOut, ExplicitRanges;
    var m, cursor := modules[k], CursorAfter(options, ps);
    if m.explicitBase.Some? {
      ExplicitIsAligned(modules, options.alignment, k);
    }
    PlacementIs(m, cursor, ranges, options);
    if PlaceBehind(m, cursor, ranges, options, ps) == Err(ModuleAddressOverlap) {
      var p := PlacementOf(m, cursor, ranges, options).value;
      OneIsInTheWay(modules, ranges, options, ps, p);
      assert IsBlocked(modules, options, ranges, ps, p);
    }
  }

  lemma OneIsInTheWay(modules: seq<Module>, ranges: seq<Placement>, options: LayoutOptions, ps: seq<Placement>, p: Placement)
    requires options.alignment > 0 && |ps| < |modules| && LaidOut(modules, options, ranges, ps)
    requires IsPlacementOf(modules[|ps|], p, options.alignment)
    requires FirstHit(p, ps, 0).Some? || NearStack(p, options)
    ensures MeetsStack(p, options) || exists i :: 0 <= i < |ps| && Overlaps(p, ps[i])
  {
    hide AutomaticBase, MeetsStack, Overlaps, Collide, NearStack, Span;
    NearStackExactly(p, options);
    if FirstHit(p, ps, 0).Some? {
      var i := FirstHit(p, ps, 0).value;
      assert IsPlacementOf(modules[i], ps[i], options.alignment);
      CollideExactly(p, ps[i]);
    }
  }

  lemma {:induction false} ExplicitFailure(modules: seq<Module>, alignment: uint64)
    requires alignment > 0
    ensures ExplicitRanges(modules, alignment) != Err(ModuleAddressOverlap)
    ensures ExplicitRanges(modules, alignment) == Err(InvalidArgument) ==> SomeIsMisplaced(modules, alignment)
  {
    if modules != [] {
      ExplicitFailure(modules[..|modules| - 1], alignment);
      SpanFailure(modules[|modules| - 1].segments);
    }
  }

  /** What holds of every layout. */
  lemma LayoutIsSound(modules: seq<Module>, options: LayoutOptions)
    requires options.alignment > 0
    ensures
      var r, explicit := LayoutOf(modules, options), ExplicitRanges(modules, options.alignment);
      && (r.Ok? ==> explicit.Ok? && |r.value| == |modules| && LaidOut(modules, options, explicit.value, r.value))
      && (r.Ok? ==> ListsExplicit(modules, options.alignment, explicit.value))
      && (r == Err(ModuleAddressOverlap) ==> explicit.Ok? && SomeIsBlocked(modules, options, explicit.value))
      && (r == Err(InvalidArgument) ==>
            And(options.alignment, options.alignment - 1) != 0 || SomeIsMisplaced(modules, options.alignment))
      && (AllAutomatic(modules) ==> explicit == Ok([]))
      && (AllAutomatic(modules) && !HasStack(options) ==> r != Err(ModuleAddressOverlap))
  {
    hide PlaceFirst, LaidOut, ExplicitRanges, ListsExplicit, SomeIsBlocked, SomeIsMisplaced, AllAutomatic, HasStack;
    var explicit := ExplicitRanges(modules, options.alignment);
    if explicit.Ok? && And(options.alignment, options.alignment - 1) == 0 {
      PlacingIsBlocked(modules, |modules|, explicit.value, options);
    }
    if LayoutOf(modules, options).Ok? {
      PlacingIsSound(modules, |modules|, explicit.value, options);
      ExplicitAreListed(modules, options.alignment);
    }
    ExplicitFailure(modules, options.alignment);
    if AllAutomatic(modules) {
      NothingIsExplicit(modules, options.alignment);
      if !HasStack(options) {
        AutomaticNeverOverlaps(modules, |modules|, options);
      }
    }
  }

  lemma AutomaticIsAligned(modules: seq<Module>, options: LayoutOptions, ps: seq<Placement>, i: nat)
    requires options.alignment > 0 && AllAutomatic(modules) && |ps| == |modules|
    requires LaidOut(modules, options, [], ps) && i < |ps|
    ensures ps[i].base % options.alignment == 0
  {
    assert AutomaticBase(ps[i], CursorAt(options, ps, i), [], options);
    hide LaidOut, AllAutomatic, Hits, Avoided, AlignUp;
    UnalignedExactly(CursorAt(options, ps, i), ps[i].end - ps[i].base, [], options, ps[i].base);
  }

  lemma AutomaticStep(modules: seq<Module>, options: LayoutOptions, ps: seq<Placement>, i: nat)
    requires options.alignment > 0 && AllAutomatic(modules) && |ps| == |modules|
    requires LaidOut(modules, options, [], ps) && i < |ps|
    ensures ps[i].base <= ps[i].end && (i > 0 ==> ps[i - 1].end + options.gap <= ps[i].base)
  {
    hide SettlesAt, IsPlacementOf;
    assert AutomaticBase(ps[i], CursorAt(options, ps, i), [], options);
  }

  lemma {:induction false} AutomaticGap(modules: seq<Module>, options: LayoutOptions, ps: seq<Placement>, i: nat, j: nat)
    requires options.alignment > 0 && AllAutomatic(modules) && |ps| == |modules|
    requires LaidOut(modules, options, [], ps) && i < j < |ps|
    ensures ps[i].end + options.gap <= ps[j].base
    decreases j - i
  {
    hide *;
    AutomaticStep(modules, options, ps, j);
    if i + 1 < j {
      AutomaticStep(modules, options, ps, j - 1);
      AutomaticGap(modules, options, ps, i, j - 1);
    }
  }

  /** With automatic modules only, every base is aligned and images are at least a gap apart. */
  lemma AutomaticLayout(modules: seq<Module>, options: LayoutOptions, ps: seq<Placement>, i: nat, j: nat)
    requires options.alignment > 0 && AllAutomatic(modules) && |ps| == |modules|
    requires LaidOut(modules, options, [], ps) && i < j < |ps|
    ensures ps[i].base % options.alignment == 0 && ps[j].base % options.alignment == 0
    ensures ps[i].end + options.gap <= ps[j].base
  {
    hide *;
    AutomaticIsAligned(modules, options, ps, i);
    AutomaticIsAligned(modules, options, ps, j);
    AutomaticGap(modules, options, ps, i, j);
  }

  /** An automatic module of a layout has an unaligned base if, and only if, the search for it was moved by an
      explicit module, and the last one leaves it unaligned. */
  lemma LayoutUnalignedExactly(modules: seq<Module>, options: LayoutOptions, ranges: seq<Placement>, ps: seq<Placement>,
                               i: nat)
    requires options.alignment > 0 && |ps| == |modules| && LaidOut(modules, options, ranges, ps)
    requires i < |ps| && modules[i].explicitBase.None?
    ensures
      var hits := HitsFrom(CursorAt(options, ps, i), ps[i].end - ps[i].base, ranges, options);
      ps[i].base % options.alignment != 0 <==>
      hits != [] && hits[|hits| - 1] < |ranges| && LeavesUnaligned(ranges[hits[|hits| - 1]], options)
  {
    assert AutomaticBase(ps[i], CursorAt(options, ps, i), ranges, options);
    UnalignedExactly(CursorAt(options, ps, i), ps[i].end - ps[i].base, ranges, options, ps[i].base);
  }

  /** When one gap past every explicit module is aligned, every base is. */
  lemma AllAligned(modules: seq<Module>, options: LayoutOptions, ranges: seq<Placement>, ps: seq<Placement>, i: nat)
    requires options.alignment > 0 && |ps| == |modules| && LaidOut(modules, options, ranges, ps) && i < |ps|
    requires forall k :: 0 <= k < |ranges| ==> !LeavesUnaligned(ranges[k], options)
    ensures ps[i].base % options.alignment == 0
  {
    assert IsPlacementOf(modules[i], ps[i], options.alignment);
    if modules[i].explicitBase.None? {
      LayoutUnalignedExactly(modules, options, ranges, ps, i);
    }
  }

  // An automatic module that has to make way for an explicit one, and ends up unaligned.

  const SMALL := Segment(0, 0x10)
  const CROWDED := [Module([SMALL], None), Module([SMALL], Some(0))]
  const PAGES := LayoutOptions(0x1000, 0, 0, None, 0)

  lemma {:induction false} PowersArePowers(n: nat)
    ensures IsPowerOfTwo(Power(n)) && Power(n) > 0
  {
    if n > 0 {
      PowersArePowers(n - 1);
    }
  }

  lemma PagesAlign()
    ensures And(0x1000, 0x1000 - 1) == 0 && AlignUp(0, 0x1000) == Ok(0)
  {
    Power8(4);
    assert Power(4) == 0x10 by {
      assert Power(2) == 4;
    }
    PowersArePowers(12);
    PowerTest(0x1000);
    hide And, IsPowerOfTwo;
    MaskIsRight(0xFFF, 0x1000);
  }

  lemma ExplicitAtZero()
    ensures Span([SMALL]) == Ok(0x10) && ExplicitRanges(CROWDED, 0x1000) == Ok([Placement(0, 0x10)])
  {
    assert [SMALL][..0] == [];
    assert CROWDED[..1] == [CROWDED[0]] && CROWDED[..1][..0] == [];
    assert ExplicitRanges(CROWDED[..1], 0x1000) == Ok([]);
    assert CROWDED[..|CROWDED| - 1] == CROWDED[..1] && [] + [Placement(0, 0x10)] == [Placement(0, 0x10)];
  }

  lemma MakesWay()
    ensures Avoided(0, 0x10, [Placement(0, 0x10)], 0) == Ok(0x10)
  {
    var ranges := [Placement(0, 0x10)];
    assert FirstHit(Placement(0, 0x10), ranges, 0) == Some(0);
    assert FirstHit(Placement(0x10, 0x20), ranges, 0).None?;
    assert Avoided(0x10, 0x10, ranges, 0) == Ok(0x10);
  }

  lemma CrowdedLayout()
    ensures LayoutOf(CROWDED, PAGES) == Ok([Placement(0x10, 0x20), Placement(0, 0x10)])
  {
    hide And, AlignUp, Avoided, Span, ExplicitRanges;
    var ranges := [Placement(0, 0x10)];
    PagesAlign();
    ExplicitAtZero();
    MakesWay();
    assert FirstHit(Placement(0x10, 0x20), [], 0).None?;
    assert PlacementOf(CROWDED[0], 0, ranges, PAGES) == Ok(Placement(0x10, 0x20));
    assert PlaceFirst(CROWDED, 0, ranges, PAGES) == Ok([]);
    assert [] + [Placement(0x10, 0x20)] == [Placement(0x10, 0x20)];
    assert PlaceFirst(CROWDED, 1, ranges, PAGES) == Ok([Placement(0x10, 0x20)]);
    assert FirstHit(Placement(0, 0x10), [Placement(0x10, 0x20)], 0).None?;
    assert PlacementOf(CROWDED[1], 0x20, ranges, PAGES) == Ok(Placement(0, 0x10));
    assert [Placement(0x10, 0x20)] + [Placement(0, 0x10)] == [Placement(0x10, 0x20), Placement(0, 0x10)];
    assert PlaceFirst(CROWDED, 2, ranges, PAGES) == Ok([Placement(0x10, 0x20), Placement(0, 0x10)]);
  }

  /** The automatic module is placed at 0x10, which is no multiple of 0x1000. */
  method UnalignedLayout() returns (ps: seq<Placement>)
    ensures LayoutOf(CROWDED, PAGES) == Ok(ps) && |ps| == 2 && ps[0].base % PAGES.alignment != 0
  {
    hide LayoutOf, LaidOut, ExplicitRanges, AllAutomatic;
    var r := Layout(CROWDED, PAGES);
    CrowdedLayout();
    ps := r.value;
  }
}
