/** What is recorded about one discovered function, and the code it owns. */
module FunctionRecords {
  import opened Common
  import opened ControlFlow
  import opened CodeRanges

  datatype Source =
    | ModuleEntry
    | TextStartCandidate
    | DynamicSymbol
    | Export
    | DirectCallSource
    | RelocationReference
    | AnalystSeed
    | ManualOverride
    | JumpTable
    | ObservedIndirectTarget
    | Heuristic

  datatype Confidence = Confirmed | High | Medium | Low | Manual | ConflictConfidence {
    function Rank(): nat {
      match this
      case ConflictConfidence => 6
      case Manual => 5
      case Confirmed => 4
      case High => 3
      case Medium => 2
      case Low => 1
    }
  }

  datatype Trust = Candidate | Trusted | ConflictTrust
  datatype Status = Discovered | Analyzed | Failed | ConflictStatus

  datatype FunctionSeed =
    FunctionSeed(entry: Address, source: Source, confidence: Confidence, canonicalEntry: Option<Address>)
  {
    function Canonical(): Address {
      if canonicalEntry.Some? then canonicalEntry.value else entry
    }

    /** `is_boundary_worthy_function_seed`: strong enough evidence to cut other functions short. */
    predicate IsBoundaryWorthy() {
      if source.ObservedIndirectTarget? then true
      else if source.TextStartCandidate? || source.Heuristic? then false
      else if source.ManualOverride? || confidence.Manual? then true
      else confidence.Confirmed? || confidence.High?
    }
  }

  datatype FunctionRecord = FunctionRecord(
    entry: Address,
    entries: seq<Address>,
    ranges: seq<Range>,
    rangeBegin: int,
    rangeEnd: int,
    source: Source,
    confidence: Confidence,
    trust: Trust,
    status: Status,
    cfg: Option<Graph>,
    directCalls: seq<Address>,
    dependencies: seq<Address>)

  predicate ContainsAny(ranges: seq<Range>, a: Address, length: uint64) {
    exists i :: 0 <= i < |ranges| && ranges[i].Holds(a, length)
  }

  /** The byte `x` belongs to an instruction of the graph. */
  ghost predicate InGraph(g: Graph, x: int) {
    exists a :: a in Addresses(g) && a <= x < a + 4
  }

  /** The ranges are the normal form of the graph's instructions. */
  ghost predicate Describes(g: Graph, rs: seq<Range>) {
    Normalized(rs) && forall x :: Owns(rs, x) <==> InGraph(g, x)
  }

  /** The code a graph owns, as a normalized list of ranges. */
  ghost function RangesOf(g: Graph): seq<Range> {
    if exists rs :: Describes(g, rs) then var rs :| Describes(g, rs); rs else []
  }

  lemma RangesAreUnique(g: Graph, rs: seq<Range>)
    requires Describes(g, rs)
    ensures RangesOf(g) == rs
  {
    assert Describes(g, RangesOf(g));
    NormalFormIsCanonical(RangesOf(g), rs);
  }

  ghost predicate HasCode(g: Graph) {
    Addresses(g) != {} && forall a :: a in Addresses(g) ==> IsCodeWord(a)
  }

  ghost predicate Fits(rs: seq<Range>, executable: seq<Range>) {
    forall i :: 0 <= i < |rs| ==> ContainsAny(executable, rs[i].base, rs[i].size)
  }

  /** A function may own the graph: each contiguous piece of its code lies in one executable range. */
  ghost predicate Ownable(g: Graph, executable: seq<Range>) {
    HasCode(g) && Describes(g, RangesOf(g)) && Fits(RangesOf(g), executable)
  }

  /** The record's ranges are the normal form of its own instructions, inside their envelope. */
  ghost predicate OwnsItsCode(f: FunctionRecord) {
    && f.cfg.Some? && HasCode(f.cfg.value)
    && Describes(f.cfg.value, f.ranges) && f.ranges != []
    && f.rangeBegin == f.ranges[0].base && f.rangeEnd == f.ranges[|f.ranges| - 1].End()
  }

  lemma {:induction false} NormalFormExists(addresses: seq<Address>) returns (rs: seq<Range>)
    requires forall i :: 0 <= i < |addresses| ==> IsCodeWord(addresses[i])
    requires forall i, j :: 0 <= i < j < |addresses| ==> addresses[i] <= addresses[j]
    ensures Normalized(rs) && forall x :: Owns(rs, x) <==> OwnsWord(addresses, x)
    ensures rs != [] ==> addresses != [] && rs[|rs| - 1].base <= addresses[|addresses| - 1]
  {
    if addresses == [] {
      rs := [];
    } else {
      var last := |addresses| - 1;
      var front := NormalFormExists(addresses[..last]);
      MergeWord(front, addresses, last);
      rs := Merge(front, Range(addresses[last], 4));
      assert addresses[..last + 1] == addresses;
    }
  }

  /** Code always has a normal form. */
  lemma CodeIsDescribed(g: Graph)
    requires HasCode(g)
    ensures Describes(g, RangesOf(g)) && RangesOf(g) != []
  {
    var addresses := InOrder(Addresses(g));
    var rs := NormalFormExists(addresses);
    WordsAreInGraph(addresses, g);
    RangesAreUnique(g, rs);
    OwnsSomething(g, rs);
  }

  /** An interval of owned bytes lies in one range of a normalized list. */
  lemma {:induction false} IntervalIsCovered(rs: seq<Range>, lo: int, hi: int) returns (k: nat)
    requires Normalized(rs) && lo < hi && forall x :: lo <= x < hi ==> Owns(rs, x)
    ensures k < |rs| && rs[k].base <= lo && hi <= rs[k].End()
    decreases hi - lo
  {
    assert Owns(rs, lo);
    if hi == lo + 1 {
      k :| 0 <= k < |rs| && Covers(rs[k], lo);
    } else {
      k := IntervalIsCovered(rs, lo, hi - 1);
      assert Owns(rs, hi - 1);
      NormalOwner(rs, k, hi - 1);
    }
  }

  lemma RangeStaysOwned(g: Graph, h: Graph, executable: seq<Range>, i: nat)
    requires Ownable(g, executable) && HasCode(h) && Describes(h, RangesOf(h)) && i < |RangesOf(h)|
    requires forall a :: a in Addresses(h) ==> a in Addresses(g)
    ensures ContainsAny(executable, RangesOf(h)[i].base, RangesOf(h)[i].size)
  {
    var r := RangesOf(h)[i];
    forall x | r.base <= x < r.End()
      ensures Owns(RangesOf(g), x)
    {
      assert Covers(r, x) && Owns(RangesOf(h), x);
      assert InGraph(h, x) && InGraph(g, x);
    }
    assert IsCodeRange(r);
    var k := IntervalIsCovered(RangesOf(g), r.base, r.End());
    var home := RangesOf(g)[k];
    var j :| 0 <= j < |executable| && executable[j].Holds(home.base, home.size);
    assert executable[j].Holds(r.base, r.size);
  }

  /** A part of code that can be owned can be owned. */
  lemma LessIsOwnable(g: Graph, h: Graph, executable: seq<Range>)
    requires Ownable(g, executable) && Addresses(h) != {}
    requires forall a :: a in Addresses(h) ==> a in Addresses(g)
    ensures Ownable(h, executable)
  {
    CodeIsDescribed(h);
    forall i | 0 <= i < |RangesOf(h)|
      ensures ContainsAny(executable, RangesOf(h)[i].base, RangesOf(h)[i].size)
    {
      RangeStaysOwned(g, h, executable, i);
    }
  }

  /** Code can be owned exactly when there is some, all of it aligned words of the address space, and no stretch of it
      reaches beyond one executable range. */
  lemma OwnableExactly(g: Graph, executable: seq<Range>)
    ensures Ownable(g, executable) <==>
            && Addresses(g) != {} && (forall a :: a in Addresses(g) ==> 0 <= a && a % 4 == 0 && a + 4 < TWO64)
            && forall lo, hi {:trigger IsStretch(g, lo, hi)} :: IsStretch(g, lo, hi) ==> InOneRange(executable, lo, hi)
  {
    hide Addresses, Describes, RangesOf, InOneRange, ContainsAny;
    if Ownable(g, executable) {
      forall lo, hi | IsStretch(g, lo, hi)
        ensures InOneRange(executable, lo, hi)
      {
        StretchIsCovered(g, executable, lo, hi);
      }
    } else if HasCode(g) && (forall lo, hi :: IsStretch(g, lo, hi) ==> InOneRange(executable, lo, hi)) {
      CodeIsDescribed(g);
      forall i | 0 <= i < |RangesOf(g)|
        ensures ContainsAny(executable, RangesOf(g)[i].base, RangesOf(g)[i].size)
      {
        RangeIsStretch(g, i);
        ContainsExactly(executable, RangesOf(g)[i].base, RangesOf(g)[i].size);
      }
    }
  }

  /** The graph holds every byte between the two addresses. */
  ghost predicate IsStretch(g: Graph, lo: int, hi: int) {
    lo < hi && forall x :: lo <= x < hi ==> InGraph(g, x)
  }

  ghost predicate InOneRange(executable: seq<Range>, lo: int, hi: int) {
    exists k :: 0 <= k < |executable| && executable[k].base <= lo && hi <= executable[k].base + executable[k].size < TWO64
  }

  lemma StretchIsCovered(g: Graph, executable: seq<Range>, lo: int, hi: int)
    requires Ownable(g, executable) && IsStretch(g, lo, hi)
    ensures InOneRange(executable, lo, hi)
  {
    hide Addresses, RangesOf, InGraph;
    var k := IntervalIsCovered(RangesOf(g), lo, hi);
    var home := RangesOf(g)[k];
    var j :| 0 <= j < |executable| && executable[j].Holds(home.base, home.size);
    assert executable[j].base <= lo && hi <= executable[j].base + executable[j].size;
  }

  lemma RangeIsStretch(g: Graph, i: nat)
    requires Describes(g, RangesOf(g)) && i < |RangesOf(g)|
    ensures IsStretch(g, RangesOf(g)[i].base, RangesOf(g)[i].End()) && IsCodeRange(RangesOf(g)[i])
  {
    hide Addresses, RangesOf, InGraph;
    var r := RangesOf(g)[i];
    assert IsCodeRange(r);
    forall x | r.base <= x < r.End()
      ensures InGraph(g, x)
    {
      assert Covers(r, x) && Owns(RangesOf(g), x);
    }
  }

  lemma ContainsExactly(executable: seq<Range>, a: Address, length: uint64)
    ensures ContainsAny(executable, a, length) <==> InOneRange(executable, a, a + length)
  {
    if k :| 0 <= k < |executable| && executable[k].base <= a && a + length <= executable[k].base + executable[k].size < TWO64 {
      assert executable[k].Holds(a, length);
    }
  }

  /** All the instruction addresses of a graph, block by block. */
  method CollectAddresses(g: Graph) returns (addresses: seq<Address>)
    ensures forall a :: a in addresses <==> a in Addresses(g)
  {
    addresses := [];
    var remaining := g.blocks.Keys;
    while remaining != {}
      invariant remaining <= g.blocks.Keys
      invariant forall a :: a in addresses <==>
                  exists s, i :: s in g.blocks && s !in remaining && 0 <= i < |g.blocks[s].instructions|
                                 && g.blocks[s].instructions[i].address == a
      decreases remaining
    {
      var start := Least(remaining);
      var b := g.blocks[start];
      ghost var before := addresses;
      for k := 0 to |b.instructions|
        invariant forall a :: a in addresses <==>
                    a in before || exists i :: 0 <= i < k && b.instructions[i].address == a
      {
        addresses := addresses + [b.instructions[k].address];
      }
      remaining := remaining - {start};
    }
  }

  /** The targets of direct calls, in the order of the calls. */
  function DirectTargets(calls: seq<CallSite>): seq<Address> {
    if calls == [] then []
    else
      var front, c := DirectTargets(calls[..|calls| - 1]), calls[|calls| - 1];
      if c.direct && c.target.Some? then front + [c.target.value] else front
  }

  lemma {:induction false} DirectTargetsAre(calls: seq<CallSite>, t: Address)
    ensures t in DirectTargets(calls) <==> exists c :: c in calls && c.direct && c.target == Some(t)
  {
    if calls != [] {
      var front, last := calls[..|calls| - 1], calls[|calls| - 1];
      DirectTargetsAre(front, t);
      assert forall c :: c in calls <==> c in front || c == last;
    }
  }

  /** The functions a graph calls directly, sorted and without repetition. */
  function TargetsOf(g: Graph): seq<Address> { Unique(SortAddresses(DirectTargets(g.calls))) }

  lemma TargetsAre(g: Graph)
    ensures IsTargetList(g, TargetsOf(g))
  {
    UniqueKeeps(SortAddresses(DirectTargets(g.calls)));
    forall t
      ensures t in TargetsOf(g) <==> CallsDirectly(g, t)
    {
      DirectTargetsAre(g.calls, t);
    }
  }

  method CollectDirectCalls(g: Graph) returns (targets: seq<Address>)
    ensures targets == DirectTargets(g.calls)
  {
    targets := [];
    for k := 0 to |g.calls|
      invariant targets == DirectTargets(g.calls[..k])
    {
      assert g.calls[..k + 1][..k] == g.calls[..k];
      if g.calls[k].direct && g.calls[k].target.Some? {
        targets := targets + [g.calls[k].target.value];
      }
    }
    assert g.calls[..|g.calls|] == g.calls;
  }

  /** A set in the order `std::set` keeps it in. */
  function InOrder(s: set<Address>): (r: seq<Address>)
    ensures forall a :: a in r <==> a in s
    ensures forall i, j :: 0 <= i < j < |r| ==> r[i] < r[j]
  {
    if s == {} then [] else [Least(s)] + InOrder(s - {Least(s)})
  }

  /** The known entries that lie in the ranges. */
  function OwnedEntries(ranges: seq<Range>, known: set<Address>): seq<Address> {
    InOrder(set e | e in known && ContainsAny(ranges, e, 4))
  }

  lemma OwnedFromLeast(ranges: seq<Range>, known: set<Address>)
    requires known != {}
    ensures OwnedEntries(ranges, known) ==
            (if ContainsAny(ranges, Least(known), 4) then [Least(known)] else [])
            + OwnedEntries(ranges, known - {Least(known)})
  {
    var e := Least(known);
    var owned := set x | x in known && ContainsAny(ranges, x, 4);
    var later := set x | x in known - {e} && ContainsAny(ranges, x, 4);
    if ContainsAny(ranges, e, 4) {
      assert e in owned && Least(owned) == e && owned - {e} == later;
    } else {
      assert owned == later;
    }
  }

  lemma AppendNext(all: seq<Address>, front: seq<Address>, piece: seq<Address>, rest: seq<Address>)
    requires all == front + (piece + rest)
    ensures all == (front + piece) + rest
  {
  }

  /** `populate_boundary_dependencies`. */
  method CollectDependencies(ranges: seq<Range>, known: set<Address>) returns (owned: seq<Address>)
    ensures owned == OwnedEntries(ranges, known)
  {
    owned := [];
    var remaining := known;
    while remaining != {}
      invariant OwnedEntries(ranges, known) == owned + OwnedEntries(ranges, remaining)
      decreases remaining
    {
      hide *;
      var e := Least(remaining);
      OwnedFromLeast(ranges, remaining);
      var piece := if ContainsAny(ranges, e, 4) then [e] else [];
      AppendNext(OwnedEntries(ranges, known), owned, piece, OwnedEntries(ranges, remaining - {e}));
      owned := owned + piece;
      remaining := remaining - {e};
    }
  }

  /** All of the function's instructions lie in one of the executable ranges. */
  ghost predicate StaysIn(g: Graph, home: Range) {
    && home.End() < TWO64
    && Addresses(g) != {}
    && forall a :: a in Addresses(g) ==> IsCodeWord(a) && home.base <= a && a + 4 <= home.End()
  }

  ghost predicate StaysInside(g: Graph, executable: seq<Range>) {
    exists i :: 0 <= i < |executable| && StaysIn(g, executable[i])
  }

  /** A normalized list that owns only words of the range lies inside the range. */
  lemma OwnedRangesStay(g: Graph, executable: seq<Range>, ranges: seq<Range>, k: nat)
    requires StaysInside(g, executable) && k < |ranges|
    requires Describes(g, ranges)
    ensures ContainsAny(executable, ranges[k].base, ranges[k].size)
  {
    var r := ranges[k];
    assert Covers(r, r.base) && Owns(ranges, r.base) && InGraph(g, r.base);
    assert Covers(r, r.End() - 1) && Owns(ranges, r.End() - 1) && InGraph(g, r.End() - 1);
    var a :| a in Addresses(g) && a <= r.base < a + 4;
    var b :| b in Addresses(g) && b <= r.End() - 1 < b + 4;
    var i :| 0 <= i < |executable| && StaysIn(g, executable[i]);
    assert executable[i].Holds(r.base, r.size);
  }

  lemma OwnsSomething(g: Graph, ranges: seq<Range>)
    requires Addresses(g) != {} && forall x :: Owns(ranges, x) <==> InGraph(g, x)
    ensures ranges != []
  {
    var a :| a in Addresses(g);
    assert InGraph(g, a);
  }

  lemma WordsAreInGraph(addresses: seq<Address>, g: Graph)
    requires forall a :: a in addresses <==> a in Addresses(g)
    ensures forall x :: OwnsWord(addresses, x) <==> InGraph(g, x)
  {
    forall x
      ensures OwnsWord(addresses, x) <==> InGraph(g, x)
    {
      if OwnsWord(addresses, x) {
        var i :| 0 <= i < |addresses| && addresses[i] <= x < addresses[i] + 4;
        assert addresses[i] in addresses;
      }
      if a :| a in Addresses(g) && a <= x < a + 4 {
        assert a in addresses;
      }
    }
  }

  method InsideExecutable(ranges: seq<Range>, executable: seq<Range>) returns (inside: bool)
    ensures inside <==> forall i :: 0 <= i < |ranges| ==> ContainsAny(executable, ranges[i].base, ranges[i].size)
  {
    for k := 0 to |ranges|
      invariant forall i :: 0 <= i < k ==> ContainsAny(executable, ranges[i].base, ranges[i].size)
    {
      if !ContainsAny(executable, ranges[k].base, ranges[k].size) {
        return false;
      }
    }
    return true;
  }

  ghost predicate IsTargetList(g: Graph, targets: seq<Address>) {
    && (forall t {:trigger CallsDirectly(g, t)} :: t in targets <==> CallsDirectly(g, t))
    && (forall i, j :: 0 <= i < j < |targets| ==> targets[i] < targets[j])
  }

  /** Code that stays in one executable range can be owned. */
  lemma StayingIsOwnable(g: Graph, executable: seq<Range>)
    requires StaysInside(g, executable)
    ensures Ownable(g, executable)
  {
    CodeIsDescribed(g);
    forall i | 0 <= i < |RangesOf(g)|
      ensures ContainsAny(executable, RangesOf(g)[i].base, RangesOf(g)[i].size)
    {
      OwnedRangesStay(g, executable, RangesOf(g), i);
    }
  }

  /** The record with what it owns and calls. */
  ghost function WithCode(f: FunctionRecord, g: Graph): FunctionRecord
    requires RangesOf(g) != []
  {
    var ranges := RangesOf(g);
    f.(cfg := Some(g), ranges := ranges, rangeBegin := ranges[0].base, rangeEnd := ranges[|ranges| - 1].End(),
       directCalls := TargetsOf(g))
  }

  function OwnershipError(g: Graph): ErrorCode {
    if Addresses(g) == {} then InvalidControlFlow else InvalidGuestAddress
  }

  /** `populate_ownership`: derives what the function owns and calls from its graph. */
  method PopulateOwnership(f: FunctionRecord, executable: seq<Range>) returns (r: Result<FunctionRecord>)
    ensures r.Ok? <==> f.cfg.Some? && Ownable(f.cfg.value, executable)
    ensures r.Ok? ==> RangesOf(f.cfg.value) != [] && r.value == WithCode(f, f.cfg.value)
    ensures r.Err? && f.cfg.Some? ==> r.code == OwnershipError(f.cfg.value)
  {
    if f.cfg.None? || f.cfg.value.blocks == map[] {
      return Err(InvalidControlFlow);
    }
    var g := f.cfg.value;
    var addresses := CollectAddresses(g);
    var normalized := NormalizeAddresses(addresses);
    if normalized.Err? {
      var i :| 0 <= i < |addresses| && !IsCodeWord(addresses[i]);
      assert addresses[i] in addresses;
      return Err(normalized.code);
    }
    var ranges := normalized.value;
    WordsAreInGraph(addresses, g);
    RangesAreUnique(g, ranges);
    assert forall a :: a in Addresses(g) ==> a in addresses;
    if ranges == [] {
      NothingIsOwned(g);
      return Err(InvalidControlFlow);
    }
    assert Addresses(g) != {} by {
      FirstByteIsOwned(ranges);
    }
    var inside := InsideExecutable(ranges, executable);
    if !inside {
      return Err(InvalidGuestAddress);
    }
    var targets := CollectDirectCalls(g);
    var sorted := SortAddresses(targets);
    return Ok(f.(ranges := ranges, rangeBegin := ranges[0].base, rangeEnd := ranges[|ranges| - 1].End(),
                 directCalls := Unique(sorted)));
  }

  lemma NothingIsOwned(g: Graph)
    requires Describes(g, [])
    ensures Addresses(g) == {}
  {
    if Addresses(g) != {} {
      OwnsSomething(g, []);
    }
  }

  /** What a record owns once its ownership is populated is its own code. */
  lemma CodeIsOwned(f: FunctionRecord, g: Graph, executable: seq<Range>)
    requires Ownable(g, executable)
    ensures RangesOf(g) != [] && OwnsItsCode(WithCode(f, g)) && Fits(WithCode(f, g).ranges, executable)
    ensures IsTargetList(g, WithCode(f, g).directCalls)
  {
    CodeIsDescribed(g);
    TargetsAre(g);
  }
}
