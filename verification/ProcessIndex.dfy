/** The process-wide index: which module's function map holds an entry. */
module ProcessIndex {
  import opened Common
  import opened Sorting
  import opened CodeRanges
  import opened FunctionRecords
  import opened FunctionMaps
  import opened Names

  datatype IndexEntry = IndexEntry(base: Address, end: Address, maximumEnd: Address, mapIndex: nat)
  datatype ProcessMap = ProcessMap(maps: seq<FunctionMap>, index: Option<seq<IndexEntry>>)

  // Maps in the order of their module names.

  predicate MapLeq(a: FunctionMap, b: FunctionMap) { NameLeq(a.name, b.name) }

  lemma MapsAreTotal()
    ensures TotalPreorder(MapLeq)
  {
    forall a: FunctionMap, b: FunctionMap
      ensures MapLeq(a, b) || MapLeq(b, a)
    {
      NamesAreTotal(a.name, b.name);
    }
    forall a: FunctionMap, b: FunctionMap, c: FunctionMap | MapLeq(a, b) && MapLeq(b, c)
      ensures MapLeq(a, c)
    {
      NamesAreTransitive(a.name, b.name, c.name);
    }
  }

  ghost predicate InNameOrder(maps: seq<FunctionMap>) {
    forall i, j :: 0 <= i < j < |maps| ==> MapLeq(maps[i], maps[j])
  }

  function SortMaps(maps: seq<FunctionMap>): (s: seq<FunctionMap>)
    ensures InNameOrder(s) && multiset(s) == multiset(maps)
  {
    MapsAreTotal();
    SortIsSorted(maps, MapLeq);
    Sort(maps, MapLeq)
  }

  /** Sorting leaves an ordered list as it is. */
  lemma SortedStays(maps: seq<FunctionMap>)
    requires InNameOrder(maps)
    ensures SortMaps(maps) == maps
  {
    InOrderStays(maps);
  }

  lemma {:induction false} InOrderStays(maps: seq<FunctionMap>)
    requires InNameOrder(maps)
    ensures Sort(maps, MapLeq) == maps
  {
    if |maps| > 1 {
      InOrderStays(maps[1..]);
      assert maps == [maps[0]] + maps[1..];
      assert MapLeq(maps[0], maps[1]);
    }
  }

  ghost predicate NamesRepeat(maps: seq<FunctionMap>) {
    exists i :: 0 < i < |maps| && maps[i - 1].name == maps[i].name
  }

  lemma DistinctNames(maps: seq<FunctionMap>, i: nat, j: nat)
    requires InNameOrder(maps) && !NamesRepeat(maps) && i < j < |maps|
    ensures maps[i].name != maps[j].name
  {
    if maps[i].name == maps[j].name {
      assert MapLeq(maps[i], maps[i + 1]) && (i + 1 < j ==> MapLeq(maps[i + 1], maps[j]));
      NamesAreTotal(maps[i].name, maps[i + 1].name);
    }
  }

  // The interval index of a list of maps.

  predicate EntryLeq(a: IndexEntry, b: IndexEntry) {
    a.base < b.base || (a.base == b.base && (a.end < b.end || (a.end == b.end && a.mapIndex <= b.mapIndex)))
  }

  function RangeEntries(rs: seq<Range>, mapIndex: nat): seq<IndexEntry> {
    if rs == [] then []
    else
      var r := rs[|rs| - 1];
      RangeEntries(rs[..|rs| - 1], mapIndex)
      + if r.size == 0 then [] else [IndexEntry(r.base, r.End(), 0, mapIndex)]
  }

  function ListEntries(maps: seq<FunctionMap>, k: nat): seq<IndexEntry>
    requires k <= |maps|
  {
    if k == 0 then [] else ListEntries(maps, k - 1) + RangeEntries(maps[k - 1].executable, k - 1)
  }

  function Maximum(a: int, b: int): int { if a < b then b else a }

  /** Each entry with the largest end up to and including its own. */
  function WithMaxima(s: seq<IndexEntry>, largest: Address): seq<IndexEntry> {
    if s == [] then []
    else
      var m := Maximum(largest, s[0].end);
      [s[0].(maximumEnd := m)] + WithMaxima(s[1..], m)
  }

  lemma EntriesAreTotal()
    ensures TotalPreorder(EntryLeq)
  {
  }

  function SortEntries(entries: seq<IndexEntry>): (s: seq<IndexEntry>)
    ensures forall j, k :: 0 <= j < k < |s| ==> s[j].base <= s[k].base
    ensures forall e :: e in s <==> e in entries
  {
    EntriesAreTotal();
    SortIsSorted(entries, EntryLeq);
    var s := Sort(entries, EntryLeq);
    assert forall j, k :: 0 <= j < k < |s| ==> EntryLeq(s[j], s[k]);
    s
  }

  function IndexOf(maps: seq<FunctionMap>): seq<IndexEntry> {
    WithMaxima(SortEntries(ListEntries(maps, |maps|)), 0)
  }

  ghost predicate RangeIsListed(maps: seq<FunctionMap>, base: Address, end: Address, k: nat) {
    k < |maps| && exists j :: 0 <= j < |maps[k].executable| && IsRange(maps[k].executable[j], base, end)
  }

  ghost predicate IsRange(r: Range, base: Address, end: Address) {
    r.size != 0 && r.base == base && r.End() == end
  }

  lemma {:induction false} RangeEntriesAre(rs: seq<Range>, mapIndex: nat, e: IndexEntry)
    ensures e in RangeEntries(rs, mapIndex) <==>
            && e.mapIndex == mapIndex && e.maximumEnd == 0
            && exists j :: 0 <= j < |rs| && IsRange(rs[j], e.base, e.end)
  {
    if rs != [] {
      var front, last := rs[..|rs| - 1], rs[|rs| - 1];
      RangeEntriesAre(front, mapIndex, e);
      if j :| 0 <= j < |front| && IsRange(front[j], e.base, e.end) {
        assert IsRange(rs[j], e.base, e.end);
      }
      if j :| 0 <= j < |rs| && IsRange(rs[j], e.base, e.end) {
        assert j < |front| ==> IsRange(front[j], e.base, e.end);
      }
      if IsRange(last, e.base, e.end) {
        assert IsRange(rs[|rs| - 1], e.base, e.end);
      }
    }
  }

  lemma {:induction false} ListEntriesAre(maps: seq<FunctionMap>, k: nat, e: IndexEntry)
    requires k <= |maps|
    ensures e in ListEntries(maps, k) <==>
            e.mapIndex < k && e.maximumEnd == 0 && RangeIsListed(maps, e.base, e.end, e.mapIndex)
  {
    if k > 0 {
      ListEntriesAre(maps, k - 1, e);
      RangeEntriesAre(maps[k - 1].executable, k - 1, e);
    }
  }

  predicate SameRange(a: IndexEntry, b: IndexEntry) {
    a.base == b.base && a.end == b.end && a.mapIndex == b.mapIndex
  }

  lemma {:induction false} MaximaAre(s: seq<IndexEntry>, largest: Address)
    ensures |WithMaxima(s, largest)| == |s|
    ensures forall k :: 0 <= k < |s| ==> SameRange(WithMaxima(s, largest)[k], s[k])
    ensures forall k :: 0 <= k < |s| ==> largest <= WithMaxima(s, largest)[k].maximumEnd
    ensures forall j, k :: 0 <= j <= k < |s| ==> s[j].end <= WithMaxima(s, largest)[k].maximumEnd
  {
    if s != [] {
      var m := Maximum(largest, s[0].end);
      MaximaAre(s[1..], m);
      var tail := WithMaxima(s[1..], m);
      var all := WithMaxima(s, largest);
      assert forall k :: 0 < k < |s| ==> all[k] == tail[k - 1] && s[k] == s[1..][k - 1];
    }
  }

  /** What the search relies on: order by base, prefix maxima, and exactly the ranges of the maps. */
  ghost predicate IndexIsSound(maps: seq<FunctionMap>, index: seq<IndexEntry>) {
    && (forall j, k :: 0 <= j < k < |index| ==> index[j].base <= index[k].base)
    && (forall j, k :: 0 <= j <= k < |index| ==> index[j].end <= index[k].maximumEnd)
    && (forall k :: 0 <= k < |index| ==> RangeIsListed(maps, index[k].base, index[k].end, index[k].mapIndex))
    && (forall base, end, i :: RangeIsListed(maps, base, end, i) ==> IndexHolds(index, base, end, i))
  }

  ghost predicate IndexHolds(index: seq<IndexEntry>, base: Address, end: Address, i: nat) {
    exists k :: 0 <= k < |index| && index[k].base == base && index[k].end == end && index[k].mapIndex == i
  }

  lemma SortedRange(maps: seq<FunctionMap>, sorted: seq<IndexEntry>, base: Address, end: Address, i: nat)
    requires forall e :: e in sorted <==> e in ListEntries(maps, |maps|)
    ensures RangeIsListed(maps, base, end, i) ==> IndexHolds(sorted, base, end, i)
  {
    var e := IndexEntry(base, end, 0, i);
    ListEntriesAre(maps, |maps|, e);
    if e in sorted {
      var k :| 0 <= k < |sorted| && sorted[k] == e;
    }
  }

  lemma SortedEntryIsListed(maps: seq<FunctionMap>, sorted: seq<IndexEntry>, k: nat)
    requires k < |sorted| && forall e :: e in sorted <==> e in ListEntries(maps, |maps|)
    ensures RangeIsListed(maps, sorted[k].base, sorted[k].end, sorted[k].mapIndex)
  {
    assert sorted[k] in sorted;
    ListEntriesAre(maps, |maps|, sorted[k]);
  }

  lemma MaximaKeepHolding(s: seq<IndexEntry>, largest: Address, base: Address, end: Address, i: nat)
    requires IndexHolds(s, base, end, i)
    ensures IndexHolds(WithMaxima(s, largest), base, end, i)
  {
    MaximaAre(s, largest);
    var k :| 0 <= k < |s| && s[k].base == base && s[k].end == end && s[k].mapIndex == i;
    assert SameRange(WithMaxima(s, largest)[k], s[k]);
  }

  lemma MaximaAreSound(maps: seq<FunctionMap>, sorted: seq<IndexEntry>, index: seq<IndexEntry>)
    requires |index| == |sorted| && forall k :: 0 <= k < |index| ==> SameRange(index[k], sorted[k])
    requires forall j, k :: 0 <= j < k < |sorted| ==> sorted[j].base <= sorted[k].base
    requires forall j, k :: 0 <= j <= k < |sorted| ==> sorted[j].end <= index[k].maximumEnd
    requires forall k :: 0 <= k < |sorted| ==> RangeIsListed(maps, sorted[k].base, sorted[k].end, sorted[k].mapIndex)
    requires forall base, end, i :: RangeIsListed(maps, base, end, i) ==> IndexHolds(index, base, end, i)
    ensures IndexIsSound(maps, index)
  {
    forall j, k | 0 <= j < k < |index|
      ensures index[j].base <= index[k].base
    {
      assert SameRange(index[j], sorted[j]) && SameRange(index[k], sorted[k]);
    }
    forall k | 0 <= k < |index|
      ensures RangeIsListed(maps, index[k].base, index[k].end, index[k].mapIndex)
    {
      assert SameRange(index[k], sorted[k]);
    }
    forall j, k | 0 <= j <= k < |index|
      ensures index[j].end <= index[k].maximumEnd
    {
      assert SameRange(index[j], sorted[j]);
    }
  }

  lemma IndexOfIsSound(maps: seq<FunctionMap>)
    ensures IndexIsSound(maps, IndexOf(maps))
  {
    var sorted := SortEntries(ListEntries(maps, |maps|));
    MaximaAre(sorted, 0);
    forall k | 0 <= k < |sorted|
      ensures RangeIsListed(maps, sorted[k].base, sorted[k].end, sorted[k].mapIndex)
    {
      SortedEntryIsListed(maps, sorted, k);
    }
    forall base, end, i | RangeIsListed(maps, base, end, i)
      ensures IndexHolds(IndexOf(maps), base, end, i)
    {
      SortedRange(maps, sorted, base, end, i);
      MaximaKeepHolding(sorted, 0, base, end, i);
    }
    MaximaAreSound(maps, sorted, IndexOf(maps));
  }

  // Building.

  /** The map holds a function with this canonical entry. */
  ghost predicate Claims(m: FunctionMap, entry: Address) {
    exists i :: 0 <= i < |m.functions| && m.functions[i].entry == entry
  }

  ghost predicate ClaimedBefore(maps: seq<FunctionMap>, k: nat, entry: Address) {
    exists l :: 0 <= l < k && l < |maps| && Claims(maps[l], entry)
  }

  /** A function of map `k` has the entry of an earlier function, of this map or of an earlier one. */
  ghost predicate Clashes(maps: seq<FunctionMap>, k: nat)
    requires k < |maps|
  {
    exists i :: 0 <= i < |maps[k].functions| && FunctionClashes(maps, k, i)
  }

  ghost predicate FunctionClashes(maps: seq<FunctionMap>, k: nat, i: nat)
    requires k < |maps| && i < |maps[k].functions|
  {
    || ClaimedBefore(maps, k, maps[k].functions[i].entry)
    || exists j :: 0 <= j < i && maps[k].functions[j].entry == maps[k].functions[i].entry
  }

  ghost predicate Overflows(m: FunctionMap) {
    exists j :: 0 <= j < |m.executable| && m.executable[j].size != 0 && m.executable[j].End() >= TWO64
  }

  /** The first error met while the first `k` maps are entered into the index. */
  ghost function StorageFault(maps: seq<FunctionMap>, k: nat): Option<ErrorCode>
    requires k <= |maps|
  {
    if k == 0 then None
    else if StorageFault(maps, k - 1).Some? then StorageFault(maps, k - 1)
    else if Clashes(maps, k - 1) then Some(FunctionBoundaryConflict)
    else if Overflows(maps[k - 1]) then Some(ArithmeticOverflow)
    else None
  }

  ghost predicate AllFrozen(maps: seq<FunctionMap>) {
    forall i :: 0 <= i < |maps| ==> maps[i].frozen
  }

  /** The outcome of building the whole process map anew. */
  ghost function Rebuilt(maps: seq<FunctionMap>): Result<ProcessMap> {
    if !AllFrozen(maps) then Err(InvalidArgument)
    else if NamesRepeat(maps) then Err(DuplicateModuleIdentity)
    else if StorageFault(maps, |maps|).Some? then Err(StorageFault(maps, |maps|).value)
    else Ok(ProcessMap(maps, Some(IndexOf(maps))))
  }

  method ClaimEntries(maps: seq<FunctionMap>, k: nat, claimed: set<Address>) returns (ok: bool, now: set<Address>)
    requires k < |maps| && forall e :: e in claimed <==> ClaimedBefore(maps, k, e)
    ensures ok <==> !Clashes(maps, k)
    ensures ok ==> forall e :: e in now <==> ClaimedBefore(maps, k + 1, e)
  {
    var fs := maps[k].functions;
    now := claimed;
    for i := 0 to |fs|
      invariant forall e :: e in now <==> e in claimed || exists j :: 0 <= j < i && fs[j].entry == e
      invariant forall j :: 0 <= j < i ==> !FunctionClashes(maps, k, j)
    {
      if fs[i].entry in now {
        assert FunctionClashes(maps, k, i);
        return false, now;
      }
      now := now + {fs[i].entry};
    }
    forall e
      ensures ClaimedBefore(maps, k + 1, e) <==> ClaimedBefore(maps, k, e) || Claims(maps[k], e)
    {
      ClaimOneMore(maps, k, e);
    }
    return true, now;
  }

  lemma ClaimOneMore(maps: seq<FunctionMap>, k: nat, e: Address)
    requires k < |maps|
    ensures ClaimedBefore(maps, k + 1, e) <==> ClaimedBefore(maps, k, e) || Claims(maps[k], e)
  {
    if l :| 0 <= l < k && Claims(maps[l], e) {
      assert 0 <= l < k + 1 && Claims(maps[l], e);
    }
    if Claims(maps[k], e) {
      assert 0 <= k < k + 1 && Claims(maps[k], e);
    }
  }

  method ListRanges(m: FunctionMap, mapIndex: nat) returns (r: Result<seq<IndexEntry>>)
    ensures r == if Overflows(m) then Err(ArithmeticOverflow) else Ok(RangeEntries(m.executable, mapIndex))
  {
    var rs := m.executable;
    var entries: seq<IndexEntry> := [];
    for j := 0 to |rs|
      invariant entries == RangeEntries(rs[..j], mapIndex)
      invariant forall i :: 0 <= i < j ==> rs[i].size == 0 || rs[i].End() < TWO64
    {
      assert rs[..j + 1][..j] == rs[..j];
      if rs[j].size != 0 {
        if CheckedAdd(rs[j].base, rs[j].size).Err? {
          return Err(ArithmeticOverflow);
        }
        entries := entries + [IndexEntry(rs[j].base, rs[j].End(), 0, mapIndex)];
      }
    }
    assert rs[..|rs|] == rs;
    return Ok(entries);
  }

  /** The second pass over the sorted index: running maxima of the ends. */
  method FillMaxima(sorted: seq<IndexEntry>) returns (index: seq<IndexEntry>)
    ensures index == WithMaxima(sorted, 0)
  {
    index := [];
    var maximumEnd: Address := 0;
    for k := 0 to |sorted|
      invariant index + WithMaxima(sorted[k..], maximumEnd) == WithMaxima(sorted, 0)
    {
      maximumEnd := Maximum(maximumEnd, sorted[k].end);
      index := index + [sorted[k].(maximumEnd := maximumEnd)];
      assert sorted[k..][1..] == sorted[k + 1..];
    }
  }

  /** `from_storage`: builds the index of maps that are already in name order. */
  method FromStorage(maps: seq<FunctionMap>) returns (r: Result<ProcessMap>)
    ensures r == Rebuilt(maps)
  {
    for k := 0 to |maps|
      invariant forall i :: 0 <= i < k ==> maps[i].frozen
    {
      if !maps[k].frozen {
        return Err(InvalidArgument);
      }
    }
    var k := 1;
    while k < |maps|
      invariant forall i :: 0 < i < k && i < |maps| ==> maps[i - 1].name != maps[i].name
    {
      if maps[k - 1].name == maps[k].name {
        return Err(DuplicateModuleIdentity);
      }
      k := k + 1;
    }
    r := EnterMaps(maps);
  }

  method EnterMaps(maps: seq<FunctionMap>) returns (r: Result<ProcessMap>)
    ensures r == if StorageFault(maps, |maps|).Some? then Err(StorageFault(maps, |maps|).value)
                 else Ok(ProcessMap(maps, Some(IndexOf(maps))))
  {
    var entries: seq<IndexEntry> := [];
    var claimed: set<Address> := {};
    for k := 0 to |maps|
      invariant StorageFault(maps, k).None? && entries == ListEntries(maps, k)
      invariant forall e :: e in claimed <==> ClaimedBefore(maps, k, e)
    {
      var ok, now := ClaimEntries(maps, k, claimed);
      if !ok {
        FaultStays(maps, k + 1, |maps|);
        return Err(FunctionBoundaryConflict);
      }
      claimed := now;
      var ranges := ListRanges(maps[k], k);
      if ranges.Err? {
        FaultStays(maps, k + 1, |maps|);
        return Err(ranges.code);
      }
      entries := entries + ranges.value;
    }
    var index := FillMaxima(SortEntries(entries));
    return Ok(ProcessMap(maps, Some(index)));
  }

  lemma {:induction false} FaultStays(maps: seq<FunctionMap>, j: nat, k: nat)
    requires j <= k <= |maps| && StorageFault(maps, j).Some?
    ensures StorageFault(maps, k) == StorageFault(maps, j)
  {
    if j < k {
      FaultStays(maps, j, k - 1);
    }
  }

  // Lookup.

  /** Map `i` holds a function with this entry, and the entry lies in the map's executable ranges. */
  ghost predicate Serves(maps: seq<FunctionMap>, i: nat, entry: Address) {
    i < |maps| && Claims(maps[i], entry) && Reaches(maps[i], entry)
  }

  ghost predicate Reaches(m: FunctionMap, a: Address) {
    exists j :: 0 <= j < |m.executable| && Covers(m.executable[j], a)
  }

  /** A map as the builder publishes it: sorted, with every entry in its executable ranges. */
  ghost predicate WellMade(m: FunctionMap) {
    SortedByEntry(m.functions) && forall i :: 0 <= i < |m.functions| ==> Reaches(m, m.functions[i].entry)
  }

  /** The result of a successful build, or the empty map that has no index. */
  ghost predicate Built(p: ProcessMap) {
    p == ProcessMap([], None) || (InNameOrder(p.maps) && Rebuilt(p.maps) == Ok(p))
  }

  /** The map is one of those that serve the entry. */
  ghost predicate Answers(maps: seq<FunctionMap>, entry: Address, m: FunctionMap) {
    m in maps && Claims(m, entry) && Reaches(m, entry)
  }

  lemma AnswersAreServed(maps: seq<FunctionMap>, entry: Address, m: FunctionMap)
    ensures Answers(maps, entry, m) <==> exists i: nat :: Serves(maps, i, entry) && maps[i] == m
  {
    hide Claims, Reaches;
    if Answers(maps, entry, m) {
      var i :| 0 <= i < |maps| && maps[i] == m;
      assert Serves(maps, i, entry);
    }
  }

  /** `std::upper_bound` by base: the first entry that starts after `a`. */
  function UpperBound(index: seq<IndexEntry>, a: Address, lo: nat, hi: nat): (k: nat)
    requires lo <= hi <= |index|
    ensures lo <= k <= hi
    decreases hi - lo
  {
    if lo == hi then lo
    else
      var mid := (lo + hi) / 2;
      if a < index[mid].base then UpperBound(index, a, lo, mid) else UpperBound(index, a, mid + 1, hi)
  }

  lemma {:induction false} UpperBoundSplits(index: seq<IndexEntry>, a: Address, lo: nat, hi: nat)
    requires forall j, k :: 0 <= j < k < |index| ==> index[j].base <= index[k].base
    requires lo <= hi <= |index| && forall k :: hi <= k < |index| ==> a < index[k].base
    requires forall k :: 0 <= k < lo ==> index[k].base <= a
    ensures forall k :: 0 <= k < UpperBound(index, a, lo, hi) ==> index[k].base <= a
    ensures forall k :: UpperBound(index, a, lo, hi) <= k < |index| ==> a < index[k].base
    decreases hi - lo
  {
    if lo < hi {
      var mid := (lo + hi) / 2;
      if a < index[mid].base {
        UpperBoundSplits(index, a, lo, mid);
      } else {
        UpperBoundSplits(index, a, mid + 1, hi);
      }
    }
  }

  /** The entry at `k` cannot lead to a map that serves `a`. */
  ghost predicate Excluded(maps: seq<FunctionMap>, index: seq<IndexEntry>, k: nat, a: Address)
    requires k < |index|
  {
    a < index[k].base || index[k].end <= a || index[k].mapIndex >= |maps| || !Claims(maps[index[k].mapIndex], a)
  }

  lemma ServedIsIndexed(maps: seq<FunctionMap>, index: seq<IndexEntry>, a: Address, i: nat) returns (k: nat)
    requires IndexIsSound(maps, index) && Serves(maps, i, a)
    ensures k < |index| && !Excluded(maps, index, k, a)
  {
    var j :| 0 <= j < |maps[i].executable| && Covers(maps[i].executable[j], a);
    var r := maps[i].executable[j];
    assert IsRange(r, r.base, r.End());
    assert RangeIsListed(maps, r.base, r.End(), i);
    k :| 0 <= k < |index| && index[k].base == r.base && index[k].end == r.End() && index[k].mapIndex == i;
  }

  lemma NobodyServes(maps: seq<FunctionMap>, index: seq<IndexEntry>, a: Address, i: nat)
    requires IndexIsSound(maps, index) && forall k :: 0 <= k < |index| ==> Excluded(maps, index, k, a)
    ensures !Serves(maps, i, a)
  {
    if Serves(maps, i, a) {
      var k := ServedIsIndexed(maps, index, a, i);
    }
  }

  lemma FoundServes(maps: seq<FunctionMap>, index: seq<IndexEntry>, a: Address, k: nat)
    requires IndexIsSound(maps, index) && k < |index| && !Excluded(maps, index, k, a)
    ensures Serves(maps, index[k].mapIndex, a)
  {
    assert RangeIsListed(maps, index[k].base, index[k].end, index[k].mapIndex);
    var j :| 0 <= j < |maps[index[k].mapIndex].executable|
             && IsRange(maps[index[k].mapIndex].executable[j], index[k].base, index[k].end);
    assert Covers(maps[index[k].mapIndex].executable[j], a);
  }

  lemma ClaimsMeansFound(m: FunctionMap, entry: Address)
    requires SortedByEntry(m.functions)
    ensures FindCanonical(m.functions, entry).Some? <==> Claims(m, entry)
  {
    FindsTheFunction(m.functions, entry);
  }

  /** Where the largest end so far lies at or below `a`, no earlier range holds it. */
  lemma NothingBefore(maps: seq<FunctionMap>, index: seq<IndexEntry>, current: nat, a: Address)
    requires IndexIsSound(maps, index) && current <= |index|
    requires current == 0 || index[current - 1].maximumEnd <= a
    ensures forall k :: 0 <= k < current ==> Excluded(maps, index, k, a)
  {
    forall k | 0 <= k < current
      ensures index[k].end <= a
    {
      assert index[k].end <= index[current - 1].maximumEnd;
    }
  }

  /** Does the entry at `k`, which starts at or before `a`, lead to a map that holds `a`? */
  method Probe(maps: seq<FunctionMap>, index: seq<IndexEntry>, k: nat, a: Address) returns (hit: bool)
    requires k < |index| && index[k].base <= a && forall i :: 0 <= i < |maps| ==> SortedByEntry(maps[i].functions)
    ensures hit <==> !Excluded(maps, index, k, a)
  {
    var mapIndex := index[k].mapIndex;
    if a < index[k].end && mapIndex < |maps| {
      ClaimsMeansFound(maps[mapIndex], a);
      return FindCanonical(maps[mapIndex].functions, a).Some?;
    }
    return false;
  }

  /** The backward search, cut short where all ends so far lie at or below the entry. */
  method SearchBackward(maps: seq<FunctionMap>, index: seq<IndexEntry>, entry: Address) returns (r: Option<nat>)
    requires IndexIsSound(maps, index) && forall i :: 0 <= i < |maps| ==> SortedByEntry(maps[i].functions)
    ensures r.Some? ==> Serves(maps, r.value, entry)
    ensures r.None? ==> forall k :: 0 <= k < |index| ==> Excluded(maps, index, k, entry)
  {
    UpperBoundSplits(index, entry, 0, |index|);
    var current := UpperBound(index, entry, 0, |index|);
    while current != 0
      invariant 0 <= current <= UpperBound(index, entry, 0, |index|)
      invariant forall k :: current <= k < |index| ==> Excluded(maps, index, k, entry)
    {
      current := current - 1;
      var hit := Probe(maps, index, current, entry);
      if hit {
        FoundServes(maps, index, entry, current);
        return Some(index[current].mapIndex);
      }
      if current == 0 || index[current - 1].maximumEnd <= entry {
        NothingBefore(maps, index, current, entry);
        break;
      }
    }
    return None;
  }

  /** `find_map_index`. */
  method FindMapIndex(p: ProcessMap, entry: Address) returns (r: Option<nat>)
    requires Built(p) && forall i :: 0 <= i < |p.maps| ==> SortedByEntry(p.maps[i].functions)
    ensures forall i: nat :: r == Some(i) <==> Serves(p.maps, i, entry)
    ensures r.Some? ==> r.value < |p.maps|
    ensures forall m :: Answers(p.maps, entry, m) <==> r.Some? && m == p.maps[r.value]
  {
    forall m
      ensures Answers(p.maps, entry, m) <==> exists i: nat :: Serves(p.maps, i, entry) && p.maps[i] == m
    {
      AnswersAreServed(p.maps, entry, m);
    }
    if p.index.None? {
      return None;
    }
    IndexOfIsSound(p.maps);
    r := SearchBackward(p.maps, p.index.value, entry);
    if r.None? {
      forall i: nat
        ensures !Serves(p.maps, i, entry)
      {
        NobodyServes(p.maps, p.index.value, entry, i);
      }
    } else {
      forall i: nat | Serves(p.maps, i, entry)
        ensures i == r.value
      {
        OneMapClaims(p.maps, |p.maps|, i, r.value, entry);
      }
    }
  }

  /** In a map that was built no entry is claimed twice. */
  lemma {:induction false} OneMapClaims(maps: seq<FunctionMap>, k: nat, i: nat, j: nat, entry: Address)
    requires k <= |maps| && StorageFault(maps, k).None? && i < k && j < k
    requires Claims(maps[i], entry) && Claims(maps[j], entry)
    ensures i == j
  {
    if i < k - 1 && j < k - 1 {
      OneMapClaims(maps, k - 1, i, j, entry);
    } else if i != j {
      var l := if i < j then i else j;
      ClaimedTwice(maps, l, k - 1, entry);
    }
  }

  lemma ClaimedTwice(maps: seq<FunctionMap>, i: nat, j: nat, entry: Address)
    requires i < j < |maps| && Claims(maps[i], entry) && Claims(maps[j], entry)
    ensures Clashes(maps, j)
  {
    var f :| 0 <= f < |maps[j].functions| && maps[j].functions[f].entry == entry;
    assert FunctionClashes(maps, j, f);
  }

  /** For maps as the builder publishes them the index answers like a scan of all maps. */
  lemma ServesIsClaims(maps: seq<FunctionMap>, i: nat, entry: Address)
    requires forall i :: 0 <= i < |maps| ==> WellMade(maps[i])
    ensures Serves(maps, i, entry) <==> i < |maps| && Claims(maps[i], entry)
  {
  }

  lemma InsideMeansReached(m: FunctionMap)
    requires SortedByEntry(m.functions)
    requires forall i :: 0 <= i < |m.functions| ==> ContainsAny(m.executable, m.functions[i].entry, 4)
    ensures WellMade(m)
  {
    forall i | 0 <= i < |m.functions|
      ensures Reaches(m, m.functions[i].entry)
    {
      var j :| 0 <= j < |m.executable| && m.executable[j].Holds(m.functions[i].entry, 4);
      assert Covers(m.executable[j], m.functions[i].entry);
    }
  }

  // Order and replacement.

  lemma SameFirst(a: seq<FunctionMap>, b: seq<FunctionMap>)
    requires InNameOrder(a) && InNameOrder(b) && a != [] && b != [] && a[0] in b && b[0] in a
    requires forall i, j :: 0 <= i < j < |a| ==> a[i].name != a[j].name
    ensures a[0] == b[0]
  {
    var j :| 0 <= j < |a| && a[j] == b[0];
    var k :| 0 <= k < |b| && b[k] == a[0];
    if j > 0 {
      assert MapLeq(a[0], a[j]) && (k > 0 ==> MapLeq(b[0], b[k]));
      NamesAreTotal(a[0].name, b[0].name);
    }
  }

  /** Maps with different names have one order only. */
  lemma {:induction false} SameOrder(a: seq<FunctionMap>, b: seq<FunctionMap>)
    requires InNameOrder(a) && InNameOrder(b) && multiset(a) == multiset(b)
    requires forall i, j :: 0 <= i < j < |a| ==> a[i].name != a[j].name
    ensures a == b
  {
    SameElements(a, b);
    if a != [] {
      SameFirst(a, b);
      SameRest(a, b);
      SameOrder(a[1..], b[1..]);
      assert a == [a[0]] + a[1..] && b == [b[0]] + b[1..];
    }
  }

  lemma SameRest(a: seq<FunctionMap>, b: seq<FunctionMap>)
    requires multiset(a) == multiset(b) && a != [] && b != [] && a[0] == b[0]
    ensures multiset(a[1..]) == multiset(b[1..])
  {
    assert a == [a[0]] + a[1..] && b == [b[0]] + b[1..];
    assert multiset(a[1..]) == multiset(a) - multiset{a[0]} && multiset(b[1..]) == multiset(b) - multiset{b[0]};
  }

  /** The process map does not depend on the order in which the maps are supplied. */
  lemma BuildIgnoresOrder(a: seq<FunctionMap>, b: seq<FunctionMap>)
    requires multiset(a) == multiset(b) && !NamesRepeat(SortMaps(a))
    ensures Rebuilt(SortMaps(a)) == Rebuilt(SortMaps(b)) && SortMaps(a) == SortMaps(b)
  {
    var s := SortMaps(a);
    forall i, j | 0 <= i < j < |s|
      ensures s[i].name != s[j].name
    {
      DistinctNames(s, i, j);
    }
    SameOrder(s, SortMaps(b));
  }

  method CheckNames(maps: seq<FunctionMap>) returns (ok: bool)
    ensures ok <==> !NamesRepeat(maps)
  {
    var k := 1;
    while k < |maps|
      invariant forall i :: 0 < i < k && i < |maps| ==> maps[i - 1].name != maps[i].name
    {
      if maps[k - 1].name == maps[k].name {
        return false;
      }
      k := k + 1;
    }
    return true;
  }

  /** `ProcessFunctionMap::build`. */
  method Build(maps: seq<FunctionMap>) returns (r: Result<ProcessMap>)
    ensures NamesRepeat(SortMaps(maps)) ==> r == Err(DuplicateModuleIdentity)
    ensures !NamesRepeat(SortMaps(maps)) ==> r == Rebuilt(SortMaps(maps))
    ensures r.Ok? ==> Built(r.value) && multiset(r.value.maps) == multiset(maps) && NamesAscend(r.value.maps)
    ensures r.Ok? <==> NamesDiffer(maps) && AllApart(maps)
  {
    BuildSucceedsExactly(maps);
    var sorted := SortMaps(maps);
    var distinct := CheckNames(sorted);
    if !distinct {
      return Err(DuplicateModuleIdentity);
    }
    for k := 0 to |sorted|
      invariant forall i :: 0 <= i < k ==> sorted[i].frozen
    {
      if !sorted[k].frozen {
        return Err(InvalidArgument);
      }
    }
    r := FromStorage(sorted);
    if r.Ok? {
      BuiltAscends(r.value);
    }
  }

  /** The position of the module with this name among the first `k` maps. */
  function PositionOf(maps: seq<FunctionMap>, name: string, k: nat): Option<nat>
    requires k <= |maps|
  {
    if k == 0 then None
    else if PositionOf(maps, name, k - 1).Some? then PositionOf(maps, name, k - 1)
    else if maps[k - 1].name == name then Some(k - 1)
    else None
  }

  lemma {:induction false} PositionIsRight(maps: seq<FunctionMap>, name: string, k: nat)
    requires k <= |maps|
    ensures
      match PositionOf(maps, name, k)
      case Some(i) => i < k && maps[i].name == name
      case None => forall i :: 0 <= i < k ==> maps[i].name != name
  {
    if k > 0 {
      PositionIsRight(maps, name, k - 1);
    }
  }

  lemma {:induction false} PositionStays(maps: seq<FunctionMap>, name: string, j: nat, k: nat)
    requires j <= k <= |maps| && PositionOf(maps, name, j).Some?
    ensures PositionOf(maps, name, k) == PositionOf(maps, name, j)
  {
    if j < k {
      PositionStays(maps, name, j, k - 1);
    }
  }

  method FindModule(maps: seq<FunctionMap>, name: string) returns (at: Option<nat>)
    ensures at == PositionOf(maps, name, |maps|)
  {
    for k := 0 to |maps|
      invariant PositionOf(maps, name, k).None?
    {
      if maps[k].name == name {
        PositionStays(maps, name, k + 1, |maps|);
        return Some(k);
      }
    }
    return None;
  }

  /** The maps with the replacement in place of the module of its name, or added when there is none. */
  function WithReplacement(maps: seq<FunctionMap>, name: string, replacement: FunctionMap): seq<FunctionMap> {
    PositionIsRight(maps, name, |maps|);
    var at := PositionOf(maps, name, |maps|);
    if at.Some? then maps[at.value := replacement] else maps + [replacement]
  }

  /** A replacement done the slow way: all maps are sorted and indexed anew. */
  ghost function ReplacedFully(existing: ProcessMap, name: string, replacement: FunctionMap): Result<ProcessMap> {
    if !replacement.frozen || replacement.name != name then Err(InvalidArgument)
    else Rebuilt(SortMaps(WithReplacement(existing.maps, name, replacement)))
  }

  // What a replacement leaves, and when it succeeds.

  /** The modules are in the order of their names. */
  ghost predicate NamesAscend(maps: seq<FunctionMap>) {
    forall i, j :: 0 <= i < j < |maps| ==> ComesBefore(maps[i].name, maps[j].name)
  }

  lemma BuiltAscends(p: ProcessMap)
    requires Built(p)
    ensures NamesAscend(p.maps)
  {
    forall i, j | 0 <= i < j < |p.maps|
      ensures ComesBefore(p.maps[i].name, p.maps[j].name)
    {
      DistinctNames(p.maps, i, j);
      assert MapLeq(p.maps[i], p.maps[j]);
      NameLeqIsLexicographic(p.maps[i].name, p.maps[j].name);
    }
  }

  /** The replacement has taken the place of whatever had its name; all other maps are those from before. */
  ghost predicate IsReplacement(before: seq<FunctionMap>, name: string, replacement: FunctionMap, after: seq<FunctionMap>) {
    && replacement in after
    && (forall m :: m in after && m.name == name ==> m == replacement)
    && (forall m: FunctionMap :: m.name != name ==> (m in after <==> m in before))
  }

  ghost predicate NamesDiffer(maps: seq<FunctionMap>) {
    forall i, j :: 0 <= i < j < |maps| ==> maps[i].name != maps[j].name
  }

  lemma ReplacementIs(maps: seq<FunctionMap>, name: string, replacement: FunctionMap)
    requires NamesDiffer(maps) && replacement.name == name
    ensures IsReplacement(maps, name, replacement, WithReplacement(maps, name, replacement))
    ensures NamesDiffer(WithReplacement(maps, name, replacement))
  {
    PositionIsRight(maps, name, |maps|);
    var after := WithReplacement(maps, name, replacement);
    var at := PositionOf(maps, name, |maps|);
    if at.Some? {
      assert after[at.value] == replacement;
      forall m: FunctionMap | m.name != name
        ensures m in after <==> m in maps
      {
        if m in maps {
          var i :| 0 <= i < |maps| && maps[i] == m;
          assert after[i] == m;
        }
      }
    } else {
      assert after[|maps|] == replacement;
    }
  }

  lemma SameReplacement(before: seq<FunctionMap>, name: string, replacement: FunctionMap, after: seq<FunctionMap>,
                        again: seq<FunctionMap>)
    requires IsReplacement(before, name, replacement, after) && forall m :: m in after <==> m in again
    ensures IsReplacement(before, name, replacement, again)
  {
  }

  /** Every entry of the replacement is answered by it, and every entry of another module as before. */
  lemma ReplacedAnswers(before: seq<FunctionMap>, name: string, replacement: FunctionMap, after: seq<FunctionMap>,
                        entry: Address, m: FunctionMap)
    requires IsReplacement(before, name, replacement, after) && replacement.name == name && WellMade(replacement)
    ensures Answers(after, entry, m) <==>
            if m.name == name then m == replacement && Claims(replacement, entry) else Answers(before, entry, m)
  {
  }

  lemma NamesStayDifferent(a: seq<FunctionMap>, b: seq<FunctionMap>)
    requires multiset(a) == multiset(b) && NamesDiffer(a)
    ensures NamesDiffer(b)
  {
    SameElements(a, b);
    StaysDistinct(a, b);
    forall i, j | 0 <= i < j < |b|
      ensures b[i].name != b[j].name
    {
      assert b[i] in a && b[j] in a;
      var p :| 0 <= p < |a| && a[p] == b[i];
      var q :| 0 <= q < |a| && a[q] == b[j];
    }
  }

  /** No two modules hold functions with the same entry. */
  ghost predicate ShareNoEntry(m: FunctionMap, n: FunctionMap) {
    forall e :: !(Claims(m, e) && Claims(n, e))
  }

  lemma {:induction false} FaultHasCause(maps: seq<FunctionMap>, k: nat)
    requires k <= |maps|
    ensures StorageFault(maps, k).None? <==> forall l :: 0 <= l < k ==> !Clashes(maps, l) && !Overflows(maps[l])
    ensures StorageFault(maps, k) == Some(FunctionBoundaryConflict) ==> exists l :: 0 <= l < k && Clashes(maps, l)
    ensures StorageFault(maps, k).Some? && StorageFault(maps, k) != Some(FunctionBoundaryConflict) ==>
              StorageFault(maps, k) == Some(ArithmeticOverflow) && exists l :: 0 <= l < k && Overflows(maps[l])
  {
    hide Clashes, Overflows;
    if k > 0 {
      FaultHasCause(maps, k - 1);
    }
  }

  lemma ClashIsShared(maps: seq<FunctionMap>, l: nat) returns (j: nat)
    requires l < |maps| && SortedByEntry(maps[l].functions) && Clashes(maps, l)
    ensures j < l && !ShareNoEntry(maps[j], maps[l])
  {
    var g :| 0 <= g < |maps[l].functions| && FunctionClashes(maps, l, g);
    NoRepeat(maps[l].functions, g);
    var entry := maps[l].functions[g].entry;
    j :| 0 <= j < l && Claims(maps[j], entry);
    assert Claims(maps[l], entry);
  }

  ghost predicate EntriesDiffer(m: FunctionMap) {
    forall i, j :: 0 <= i < j < |m.functions| ==> m.functions[i].entry != m.functions[j].entry
  }

  /** The map can be indexed on its own. */
  ghost predicate IsIndexable(m: FunctionMap) { m.frozen && EntriesDiffer(m) && !Overflows(m) }

  ghost predicate AllApart(maps: seq<FunctionMap>) {
    && (forall i :: 0 <= i < |maps| ==> IsIndexable(maps[i]))
    && (forall i, j :: 0 <= i < j < |maps| ==> ShareNoEntry(maps[i], maps[j]))
  }

  lemma ClashExactly(maps: seq<FunctionMap>, l: nat)
    requires l < |maps|
    ensures Clashes(maps, l) <==> !EntriesDiffer(maps[l]) || exists j :: 0 <= j < l && !ShareNoEntry(maps[j], maps[l])
  {
    var fs := maps[l].functions;
    if g :| 0 <= g < |fs| && FunctionClashes(maps, l, g) {
      if ClaimedBefore(maps, l, fs[g].entry) {
        var j :| 0 <= j < l && Claims(maps[j], fs[g].entry);
        assert Claims(maps[l], fs[g].entry) && !ShareNoEntry(maps[j], maps[l]);
      }
    }
    if i, j :| 0 <= i < j < |fs| && fs[i].entry == fs[j].entry {
      assert FunctionClashes(maps, l, j);
    }
    if j :| 0 <= j < l && !ShareNoEntry(maps[j], maps[l]) {
      var e :| Claims(maps[j], e) && Claims(maps[l], e);
      ClaimedTwice(maps, j, l, e);
    }
  }

  lemma ApartHasNoFault(maps: seq<FunctionMap>)
    ensures AllApart(maps) <==> AllFrozen(maps) && StorageFault(maps, |maps|).None?
  {
    FaultHasCause(maps, |maps|);
    hide Clashes, Overflows, EntriesDiffer, ShareNoEntry;
    forall l | 0 <= l < |maps|
      ensures Clashes(maps, l) <==> !EntriesDiffer(maps[l]) || exists j :: 0 <= j < l && !ShareNoEntry(maps[j], maps[l])
    {
      ClashExactly(maps, l);
    }
  }

  lemma ApartStays(a: seq<FunctionMap>, b: seq<FunctionMap>)
    requires multiset(a) == multiset(b) && NamesDiffer(a) && NamesDiffer(b) && AllApart(a)
    ensures AllApart(b)
  {
    hide IsIndexable, ShareNoEntry;
    SameElements(a, b);
    forall i | 0 <= i < |b|
      ensures IsIndexable(b[i])
    {
      assert b[i] in a;
    }
    forall i, j | 0 <= i < j < |b|
      ensures ShareNoEntry(b[i], b[j])
    {
      assert b[i] in a && b[j] in a && b[i].name != b[j].name;
      var p :| 0 <= p < |a| && a[p] == b[i];
      var q :| 0 <= q < |a| && a[q] == b[j];
      SharingIsMutual(b[i], b[j]);
    }
  }

  lemma SharingIsMutual(m: FunctionMap, n: FunctionMap)
    ensures ShareNoEntry(m, n) <==> ShareNoEntry(n, m)
  {
  }

  lemma RepeatedStays(maps: seq<FunctionMap>)
    requires InNameOrder(maps)
    ensures NamesRepeat(maps) <==> !NamesDiffer(maps)
  {
    if !NamesRepeat(maps) {
      forall i, j | 0 <= i < j < |maps|
        ensures maps[i].name != maps[j].name
      {
        DistinctNames(maps, i, j);
      }
    }
  }

  /** In whatever order they are supplied, maps can be built into one exactly when their names differ, each can be
      indexed, and no two hold functions with the same entry. */
  lemma BuildSucceedsExactly(maps: seq<FunctionMap>)
    ensures Rebuilt(SortMaps(maps)).Ok? <==> NamesDiffer(maps) && AllApart(maps)
    ensures Rebuilt(SortMaps(maps)).Ok? ==> multiset(Rebuilt(SortMaps(maps)).value.maps) == multiset(maps)
  {
    var s := SortMaps(maps);
    RepeatedStays(s);
    ApartHasNoFault(s);
    hide SortMaps, InNameOrder, NamesDiffer, NamesRepeat, AllApart, AllFrozen, StorageFault, IndexOf;
    if NamesDiffer(maps) {
      NamesStayDifferent(maps, s);
      if AllApart(maps) {
        ApartStays(maps, s);
      }
    }
    if NamesDiffer(s) {
      NamesStayDifferent(s, maps);
      if AllApart(s) {
        ApartStays(s, maps);
      }
    }
  }

  /** The replacement has a range that runs out of the address space, or an entry of another module. */
  ghost predicate IsObstructed(before: seq<FunctionMap>, name: string, replacement: FunctionMap) {
    Overflows(replacement) || IsContested(before, name, replacement)
  }

  ghost predicate IsContested(before: seq<FunctionMap>, name: string, replacement: FunctionMap) {
    exists m :: m in before && m.name != name && !ShareNoEntry(m, replacement)
  }

  lemma SharingIsContested(before: seq<FunctionMap>, name: string, replacement: FunctionMap, after: seq<FunctionMap>,
                           i: nat, j: nat)
    requires IsReplacement(before, name, replacement, after) && NamesDiffer(after) && NamesDiffer(before)
    requires StorageFault(before, |before|).None? && i < j < |after| && !ShareNoEntry(after[i], after[j])
    ensures IsContested(before, name, replacement)
  {
    hide Claims;
    var e :| Claims(after[i], e) && Claims(after[j], e);
    assert after[i] in after && after[j] in after && after[i].name != after[j].name;
    if after[i].name == name {
      assert after[j] in before && !ShareNoEntry(after[j], replacement);
    } else if after[j].name == name {
      assert after[i] in before && !ShareNoEntry(after[i], replacement);
    } else {
      var p :| 0 <= p < |before| && before[p] == after[i];
      var q :| 0 <= q < |before| && before[q] == after[j];
      OneMapClaims(before, |before|, p, q, e);
    }
  }

  lemma ContestedClashes(before: seq<FunctionMap>, name: string, replacement: FunctionMap, after: seq<FunctionMap>)
    requires IsReplacement(before, name, replacement, after) && replacement.name == name
    requires IsContested(before, name, replacement)
    ensures exists l :: 0 <= l < |after| && Clashes(after, l)
  {
    hide Claims, Clashes;
    var m :| m in before && m.name != name && !ShareNoEntry(m, replacement);
    var e :| Claims(m, e) && Claims(replacement, e);
    assert m in after;
    var i :| 0 <= i < |after| && after[i] == m;
    var j :| 0 <= j < |after| && after[j] == replacement;
    ClaimedTwice(after, if i < j then i else j, if i < j then j else i, e);
  }

  lemma OtherMapsAreSound(before: seq<FunctionMap>, name: string, replacement: FunctionMap, after: seq<FunctionMap>, l: nat)
    requires IsReplacement(before, name, replacement, after) && l < |after|
    requires StorageFault(before, |before|).None? && forall i :: 0 <= i < |before| ==> SortedByEntry(before[i].functions)
    requires SortedByEntry(replacement.functions)
    ensures SortedByEntry(after[l].functions)
    ensures Overflows(after[l]) ==> after[l] == replacement && Overflows(replacement)
  {
    assert after[l] in after;
    NothingOverflows(before, |before|);
    hide SortedByEntry, Overflows;
    if after[l].name != name {
      var i :| 0 <= i < |before| && before[i] == after[l];
    }
  }

  lemma ObstructionIsFault(before: seq<FunctionMap>, name: string, replacement: FunctionMap, after: seq<FunctionMap>)
    requires IsReplacement(before, name, replacement, after) && NamesDiffer(before) && NamesDiffer(after)
    requires StorageFault(before, |before|).None? && forall i :: 0 <= i < |before| ==> SortedByEntry(before[i].functions)
    requires SortedByEntry(replacement.functions) && replacement.name == name
    ensures StorageFault(after, |after|).None? <==> !IsObstructed(before, name, replacement)
    ensures StorageFault(after, |after|) == Some(FunctionBoundaryConflict) ==> IsContested(before, name, replacement)
    ensures StorageFault(after, |after|) == Some(ArithmeticOverflow) ==> Overflows(replacement)
    ensures StorageFault(after, |after|).Some? ==>
              StorageFault(after, |after|).value in {FunctionBoundaryConflict, ArithmeticOverflow}
  {
    hide Overflows, SortedByEntry, Clashes, IsContested, IsReplacement, StorageFault;
    FaultHasCause(after, |after|);
    if l :| 0 <= l < |after| && Clashes(after, l) {
      OtherMapsAreSound(before, name, replacement, after, l);
      var j := ClashIsShared(after, l);
      SharingIsContested(before, name, replacement, after, j, l);
    }
    if l :| 0 <= l < |after| && Overflows(after[l]) {
      OtherMapsAreSound(before, name, replacement, after, l);
    }
    if IsContested(before, name, replacement) {
      ContestedClashes(before, name, replacement, after);
    }
    ReplacementIsThere(before, name, replacement, after);
  }

  lemma ReplacementIsThere(before: seq<FunctionMap>, name: string, replacement: FunctionMap, after: seq<FunctionMap>)
    requires IsReplacement(before, name, replacement, after)
    ensures exists l :: 0 <= l < |after| && after[l] == replacement
  {
    assert replacement in after;
  }

  lemma BuiltIs(p: ProcessMap)
    requires Built(p)
    ensures AllFrozen(p.maps) && NamesDiffer(p.maps) && StorageFault(p.maps, |p.maps|).None?
  {
    hide Clashes, Overflows;
    forall i, j | 0 <= i < j < |p.maps|
      ensures p.maps[i].name != p.maps[j].name
    {
      DistinctNames(p.maps, i, j);
    }
  }

  lemma NotRepeated(maps: seq<FunctionMap>)
    requires NamesDiffer(maps)
    ensures !NamesRepeat(maps)
  {
  }

  /** A frozen replacement of the right name is refused exactly when it is obstructed. */
  lemma ReplacementSucceedsExactly(existing: ProcessMap, name: string, replacement: FunctionMap)
    requires Built(existing) && forall i :: 0 <= i < |existing.maps| ==> SortedByEntry(existing.maps[i].functions)
    requires SortedByEntry(replacement.functions) && replacement.frozen && replacement.name == name
    ensures
      var r := ReplacedFully(existing, name, replacement);
      && (r.Ok? <==> !IsObstructed(existing.maps, name, replacement))
      && (r.Ok? ==> IsReplacement(existing.maps, name, replacement, r.value.maps))
      && (r == Err(FunctionBoundaryConflict) ==> IsContested(existing.maps, name, replacement))
      && (r == Err(ArithmeticOverflow) ==> Overflows(replacement))
      && (r.Err? ==> r.code in {FunctionBoundaryConflict, ArithmeticOverflow})
  {
    var maps := existing.maps;
    var all := WithReplacement(maps, name, replacement);
    var after := SortMaps(all);
    BuiltIs(existing);
    ReplacementIs(maps, name, replacement);
    SameElements(all, after);
    SameReplacement(maps, name, replacement, all, after);
    NamesStayDifferent(all, after);
    NotRepeated(after);
    FrozenStays(maps, name, replacement, after);
    hide Built, SortMaps, WithReplacement, IsReplacement, NamesDiffer, NamesRepeat, StorageFault, IsObstructed, IsContested,
         Overflows, SortedByEntry, InNameOrder, AllFrozen, IndexOf;
    ObstructionIsFault(maps, name, replacement, after);
  }

  lemma FrozenStays(before: seq<FunctionMap>, name: string, replacement: FunctionMap, after: seq<FunctionMap>)
    requires IsReplacement(before, name, replacement, after) && AllFrozen(before) && replacement.frozen
    ensures AllFrozen(after)
  {
    forall i | 0 <= i < |after|
      ensures after[i].frozen
    {
      assert after[i] in after;
      if after[i].name != name {
        assert after[i] in before;
      }
    }
  }

  // With the same executable ranges the index is the same, and only clashes can go wrong.

  lemma {:induction false} SameRangesSameEntries(maps: seq<FunctionMap>, i: nat, m: FunctionMap, k: nat)
    requires i < |maps| && k <= |maps| && m.executable == maps[i].executable
    ensures ListEntries(maps[i := m], k) == ListEntries(maps, k)
  {
    if k > 0 {
      SameRangesSameEntries(maps, i, m, k - 1);
    }
  }

  lemma {:induction false} OnlyClashes(maps: seq<FunctionMap>, k: nat)
    requires k <= |maps| && forall l :: 0 <= l < k ==> !Overflows(maps[l])
    ensures StorageFault(maps, k).None? || StorageFault(maps, k) == Some(FunctionBoundaryConflict)
    ensures StorageFault(maps, k).None? <==> forall l :: 0 <= l < k ==> !Clashes(maps, l)
  {
    if k > 0 {
      OnlyClashes(maps, k - 1);
    }
  }

  lemma {:induction false} NothingOverflows(maps: seq<FunctionMap>, k: nat)
    requires k <= |maps| && StorageFault(maps, k).None?
    ensures forall l :: 0 <= l < k ==> !Overflows(maps[l]) && !Clashes(maps, l)
  {
    if k > 0 {
      NothingOverflows(maps, k - 1);
    }
  }

  /** Another module holds the entry of a function of `m`. */
  ghost predicate Intrudes(maps: seq<FunctionMap>, at: nat, m: FunctionMap) {
    exists f :: 0 <= f < |m.functions| && IsElsewhere(maps, at, m.functions[f].entry)
  }

  ghost predicate HeldElsewhere(maps: seq<FunctionMap>, at: nat, entry: Address, i: int) {
    0 <= i < |maps| && i != at && Claims(maps[i], entry)
  }

  ghost predicate IsElsewhere(maps: seq<FunctionMap>, at: nat, entry: Address) {
    exists i :: HeldElsewhere(maps, at, entry, i)
  }

  ghost predicate SomeClash(maps: seq<FunctionMap>) {
    exists l :: 0 <= l < |maps| && Clashes(maps, l)
  }

  lemma NoRepeat(fs: seq<FunctionRecord>, i: nat)
    requires SortedByEntry(fs) && i < |fs|
    ensures !exists j :: 0 <= j < i && fs[j].entry == fs[i].entry
  {
  }

  lemma IntruderClashes(maps: seq<FunctionMap>, at: nat, m: FunctionMap, entry: Address, i: nat)
    requires at < |maps| && Claims(m, entry) && HeldElsewhere(maps, at, entry, i)
    ensures SomeClash(maps[at := m])
  {
    var after := maps[at := m];
    ClaimedTwice(after, if i < at then i else at, if i < at then at else i, entry);
  }

  lemma ClashIsIntruder(maps: seq<FunctionMap>, at: nat, m: FunctionMap, l: nat)
    requires at < |maps| && SortedByEntry(m.functions) && (forall k :: 0 <= k < |maps| ==> !Clashes(maps, k))
    requires l < |maps| && Clashes(maps[at := m], l)
    ensures Intrudes(maps, at, m)
  {
    var after := maps[at := m];
    var g :| 0 <= g < |after[l].functions| && FunctionClashes(after, l, g);
    var entry := after[l].functions[g].entry;
    if ClaimedBefore(after, l, entry) {
      var j :| 0 <= j < l && Claims(after[j], entry);
      if l == at {
        assert HeldElsewhere(maps, at, m.functions[g].entry, j);
      } else if j == at {
        var f :| 0 <= f < |m.functions| && m.functions[f].entry == entry;
        assert Claims(maps[l], entry) && HeldElsewhere(maps, at, m.functions[f].entry, l);
      } else {
        ClaimedTwice(maps, j, l, entry);
      }
    } else if l == at {
      NoRepeat(m.functions, g);
    } else {
      RepeatClashes(maps, l, g);
    }
  }

  lemma RepeatClashes(maps: seq<FunctionMap>, l: nat, g: nat)
    requires l < |maps| && g < |maps[l].functions|
    requires exists j :: 0 <= j < g && maps[l].functions[j].entry == maps[l].functions[g].entry
    ensures Clashes(maps, l)
  {
    assert FunctionClashes(maps, l, g);
  }

  /** The fast path's check decides what the full rebuild would. */
  lemma FastFault(maps: seq<FunctionMap>, at: nat, m: FunctionMap)
    requires at < |maps| && StorageFault(maps, |maps|).None? && m.executable == maps[at].executable
    requires SortedByEntry(m.functions)
    ensures StorageFault(maps[at := m], |maps|) ==
            if Intrudes(maps, at, m) then Some(FunctionBoundaryConflict) else None
  {
    var after := maps[at := m];
    NothingOverflows(maps, |maps|);
    assert forall l :: 0 <= l < |maps| ==> !Overflows(after[l]);
    OnlyClashes(after, |maps|);
    if Intrudes(maps, at, m) {
      var f :| 0 <= f < |m.functions| && IsElsewhere(maps, at, m.functions[f].entry);
      var i :| HeldElsewhere(maps, at, m.functions[f].entry, i);
      IntruderClashes(maps, at, m, m.functions[f].entry, i);
    } else if l :| 0 <= l < |maps| && Clashes(after, l) {
      ClashIsIntruder(maps, at, m, l);
    }
  }

  lemma SameNames(maps: seq<FunctionMap>, at: nat, m: FunctionMap)
    requires InNameOrder(maps) && AllFrozen(maps) && !NamesRepeat(maps) && at < |maps|
    requires m.frozen && m.name == maps[at].name
    ensures InNameOrder(maps[at := m]) && AllFrozen(maps[at := m]) && !NamesRepeat(maps[at := m])
  {
    var after := maps[at := m];
    assert forall i :: 0 <= i < |maps| ==> after[i].name == maps[i].name;
    forall i, j | 0 <= i < j < |after|
      ensures MapLeq(after[i], after[j])
    {
      assert MapLeq(maps[i], maps[j]);
    }
  }

  lemma FastRebuild(maps: seq<FunctionMap>, index: seq<IndexEntry>, at: nat, m: FunctionMap)
    requires InNameOrder(maps) && Rebuilt(maps) == Ok(ProcessMap(maps, Some(index))) && at < |maps|
    requires m.frozen && m.name == maps[at].name && m.executable == maps[at].executable && SortedByEntry(m.functions)
    ensures Rebuilt(SortMaps(maps[at := m])) ==
            if Intrudes(maps, at, m) then Err(FunctionBoundaryConflict) else Ok(ProcessMap(maps[at := m], Some(index)))
  {
    SameNames(maps, at, m);
    SortedStays(maps[at := m]);
    FastFault(maps, at, m);
    SameRangesSameEntries(maps, at, m, |maps|);
  }

  lemma OwnerDecides(p: ProcessMap, at: nat, entry: Address, owner: Option<nat>)
    requires Built(p) && at < |p.maps| && forall i :: 0 <= i < |p.maps| ==> WellMade(p.maps[i])
    requires forall i: nat :: owner == Some(i) <==> Serves(p.maps, i, entry)
    ensures owner.Some? ==> owner.value < |p.maps|
    ensures owner.Some? && p.maps[owner.value].name != p.maps[at].name <==> IsElsewhere(p.maps, at, entry)
  {
    if owner.Some? {
      assert Serves(p.maps, owner.value, entry);
      if owner.value != at {
        var i, j := if owner.value < at then owner.value else at, if owner.value < at then at else owner.value;
        DistinctNames(p.maps, i, j);
        assert HeldElsewhere(p.maps, at, entry, owner.value);
      }
    }
    if i :| HeldElsewhere(p.maps, at, entry, i) {
      ServesIsClaims(p.maps, i, entry);
      assert owner == Some(i);
    }
  }

  /** One function of the replacement: does another module hold its entry? */
  method FindElsewhere(existing: ProcessMap, at: nat, entry: Address) returns (elsewhere: bool)
    requires Built(existing) && at < |existing.maps| && forall i :: 0 <= i < |existing.maps| ==> WellMade(existing.maps[i])
    ensures elsewhere <==> IsElsewhere(existing.maps, at, entry)
  {
    var owner := FindMapIndex(existing, entry);
    OwnerDecides(existing, at, entry, owner);
    return owner.Some? && existing.maps[owner.value].name != existing.maps[at].name;
  }

  /** The fast path's check: no function of the replacement is found in another module. */
  method CheckReplacement(existing: ProcessMap, at: nat, replacement: FunctionMap) returns (ok: bool)
    requires Built(existing) && at < |existing.maps| && forall i :: 0 <= i < |existing.maps| ==> WellMade(existing.maps[i])
    requires replacement.name == existing.maps[at].name
    ensures ok <==> !Intrudes(existing.maps, at, replacement)
  {
    hide Built, WellMade, IsElsewhere;
    var maps, fs := existing.maps, replacement.functions;
    for f := 0 to |fs|
      invariant forall g :: 0 <= g < f ==> !IsElsewhere(maps, at, fs[g].entry)
    {
      var elsewhere := FindElsewhere(existing, at, fs[f].entry);
      if elsewhere {
        return false;
      }
    }
    return true;
  }

  /** `replace_module`: with or without the fast path, the outcome is that of the full rebuild. */
  method ReplaceModule(existing: ProcessMap, name: string, replacement: FunctionMap) returns (r: Result<ProcessMap>)
    requires Built(existing) && forall i :: 0 <= i < |existing.maps| ==> WellMade(existing.maps[i])
    requires SortedByEntry(replacement.functions)
    ensures r == ReplacedFully(existing, name, replacement)
    ensures r.Ok? ==>
              Built(r.value) && IsReplacement(existing.maps, name, replacement, r.value.maps) && NamesAscend(r.value.maps)
    ensures r.Ok? <==> replacement.frozen && replacement.name == name && !IsObstructed(existing.maps, name, replacement)
    ensures r == Err(InvalidArgument) <==> !replacement.frozen || replacement.name != name
    ensures r == Err(FunctionBoundaryConflict) ==> IsContested(existing.maps, name, replacement)
    ensures r == Err(ArithmeticOverflow) ==> Overflows(replacement)
    ensures r.Err? ==> r.code in {InvalidArgument, FunctionBoundaryConflict, ArithmeticOverflow}
  {
    if !replacement.frozen || replacement.name != name {
      return Err(InvalidArgument);
    }
    ReplacementSucceedsExactly(existing, name, replacement);
    hide IsReplacement, IsObstructed, IsContested, Overflows;
    var at := FindModule(existing.maps, name);
    PositionIsRight(existing.maps, name, |existing.maps|);
    if at.Some? && existing.index.Some? {
      var i := at.value;
      if existing.maps[i].executable == replacement.executable {
        FastRebuild(existing.maps, existing.index.value, i, replacement);
        var ok := CheckReplacement(existing, i, replacement);
        if !ok {
          return Err(FunctionBoundaryConflict);
        }
        r := Ok(ProcessMap(existing.maps[i := replacement], existing.index));
        BuiltAscends(r.value);
        return;
      }
    }
    r := FromStorage(SortMaps(WithReplacement(existing.maps, name, replacement)));
    if r.Ok? {
      BuiltAscends(r.value);
    }
  }
}
