/** Finalized function maps: lookups, boundary conflicts and the final validation. */
module FunctionMaps {
  import opened Common
  import opened ControlFlow
  import opened GraphValidation
  import opened CodeRanges
  import opened FunctionRecords

  /** The convex span of a function, kept for display and search only. */
  datatype Envelope = Envelope(begin: int, end: int)

  datatype BoundaryConflict = BoundaryConflict(
    first: Address,
    second: Address,
    firstRange: Envelope,
    secondRange: Envelope,
    overlap: seq<Range>,
    firstSource: Source,
    secondSource: Source,
    firstConfidence: Confidence,
    secondConfidence: Confidence)

  datatype FunctionMap = FunctionMap(
    name: string,
    executable: seq<Range>,
    functions: seq<FunctionRecord>,
    conflicts: seq<BoundaryConflict>,
    frozen: bool)

  // Lookup by canonical entry.

  ghost predicate SortedByEntry(fs: seq<FunctionRecord>) {
    forall i, j :: 0 <= i < j < |fs| ==> fs[i].entry < fs[j].entry
  }

  /** `std::lower_bound` on the canonical entries in `fs[lo..hi]`. */
  function LowerBound(fs: seq<FunctionRecord>, entry: Address, lo: nat, hi: nat): (k: nat)
    requires lo <= hi <= |fs|
    ensures lo <= k <= hi
    decreases hi - lo
  {
    if lo == hi then lo
    else
      var mid := (lo + hi) / 2;
      if fs[mid].entry < entry then LowerBound(fs, entry, mid + 1, hi) else LowerBound(fs, entry, lo, mid)
  }

  /** `find_canonical_entry`: the position of the function with this canonical entry. */
  function FindCanonical(fs: seq<FunctionRecord>, entry: Address): Option<nat> {
    var k := LowerBound(fs, entry, 0, |fs|);
    if k < |fs| && fs[k].entry == entry then Some(k) else None
  }

  lemma {:induction false} LowerBoundSplits(fs: seq<FunctionRecord>, entry: Address, lo: nat, hi: nat)
    requires SortedByEntry(fs) && lo <= hi <= |fs|
    requires forall i :: 0 <= i < lo ==> fs[i].entry < entry
    requires forall i :: hi <= i < |fs| ==> entry <= fs[i].entry
    ensures forall i :: 0 <= i < LowerBound(fs, entry, lo, hi) ==> fs[i].entry < entry
    ensures forall i :: LowerBound(fs, entry, lo, hi) <= i < |fs| ==> entry <= fs[i].entry
    decreases hi - lo
  {
    if lo < hi {
      var mid := (lo + hi) / 2;
      if fs[mid].entry < entry {
        LowerBoundSplits(fs, entry, mid + 1, hi);
      } else {
        LowerBoundSplits(fs, entry, lo, mid);
      }
    }
  }

  /** In a sorted map the search finds a function exactly when it is there. */
  lemma FindsTheFunction(fs: seq<FunctionRecord>, entry: Address)
    requires SortedByEntry(fs)
    ensures forall i :: 0 <= i < |fs| ==> (fs[i].entry == entry <==> FindCanonical(fs, entry) == Some(i))
    ensures FindCanonical(fs, entry).None? ==> forall i :: 0 <= i < |fs| ==> fs[i].entry != entry
  {
    LowerBoundSplits(fs, entry, 0, |fs|);
  }

  // Boundary conflicts.

  /** Two functions with graphs that own a common instruction. */
  ghost predicate Disputed(fs: seq<FunctionRecord>, i: int, j: int) {
    && 0 <= i < j < |fs|
    && fs[i].cfg.Some? && fs[j].cfg.Some?
    && Overlap(fs[i].ranges, fs[j].ranges)
  }

  ghost predicate Records(fs: seq<FunctionRecord>, i: int, j: int, c: BoundaryConflict) {
    && 0 <= i < j < |fs|
    && fs[i].cfg.Some? && fs[j].cfg.Some?
    && c.first == fs[i].entry && c.second == fs[j].entry
    && c.firstRange == Envelope(fs[i].rangeBegin, fs[i].rangeEnd)
    && c.secondRange == Envelope(fs[j].rangeBegin, fs[j].rangeEnd)
    && IsIntersection(fs[i].ranges, fs[j].ranges, c.overlap) && c.overlap != []
  }

  predicate PairLess(c: BoundaryConflict, d: BoundaryConflict) {
    c.first < d.first || (c.first == d.first && c.second < d.second)
  }

  ghost predicate PairsSorted(conflicts: seq<BoundaryConflict>) {
    forall k, l :: 0 <= k < l < |conflicts| ==> PairLess(conflicts[k], conflicts[l])
  }

  ghost predicate Names(c: BoundaryConflict, fs: seq<FunctionRecord>, i: int, j: int)
    requires 0 <= i < |fs| && 0 <= j < |fs|
  {
    c.first == fs[i].entry && c.second == fs[j].entry
  }

  ghost predicate Recorded(fs: seq<FunctionRecord>, conflicts: seq<BoundaryConflict>, i: int, j: int)
    requires 0 <= i < |fs| && 0 <= j < |fs|
  {
    exists k :: 0 <= k < |conflicts| && Names(conflicts[k], fs, i, j)
  }

  predicate Before(i: int, j: int, left: int, right: int) {
    i < left || (i == left && j < right)
  }

  ghost predicate RecordsPair(fs: seq<FunctionRecord>, c: BoundaryConflict, left: int, right: int) {
    exists i, j :: Records(fs, i, j, c) && Before(i, j, left, right)
  }

  /** The conflicts of the pairs considered before `(left, right)`, each once and in order. */
  ghost predicate ConflictsBefore(fs: seq<FunctionRecord>, conflicts: seq<BoundaryConflict>, left: nat, right: nat) {
    && PairsSorted(conflicts)
    && (forall k :: 0 <= k < |conflicts| ==> RecordsPair(fs, conflicts[k], left, right))
    && (forall i, j {:trigger Disputed(fs, i, j)} ::
          Disputed(fs, i, j) && Before(i, j, left, right) ==> Recorded(fs, conflicts, i, j))
  }

  ghost predicate ConflictsAreExact(fs: seq<FunctionRecord>, conflicts: seq<BoundaryConflict>) {
    && PairsSorted(conflicts)
    && (forall k :: 0 <= k < |conflicts| ==> RecordsPair(fs, conflicts[k], |fs|, |fs|))
    && (forall i, j :: Disputed(fs, i, j) ==> Recorded(fs, conflicts, i, j))
  }

  /** `make_conflict` on two overlapping functions in canonical order. */
  method MakeConflict(fs: seq<FunctionRecord>, i: nat, j: nat) returns (c: BoundaryConflict)
    requires Disputed(fs, i, j) && Normalized(fs[i].ranges) && Normalized(fs[j].ranges)
    ensures Records(fs, i, j, c)
    ensures c.firstSource == fs[i].source && c.secondSource == fs[j].source
    ensures c.firstConfidence == fs[i].confidence && c.secondConfidence == fs[j].confidence
  {
    var overlap := IntersectOwnedRanges(fs[i].ranges, fs[j].ranges);
    if overlap.Err? {
      assert false;
    }
    OverlapIsNonEmptyIntersection(fs[i].ranges, fs[j].ranges, overlap.value);
    if overlap.value == [] {
      assert false;
    }
    c := BoundaryConflict(fs[i].entry, fs[j].entry, Envelope(fs[i].rangeBegin, fs[i].rangeEnd),
                          Envelope(fs[j].rangeBegin, fs[j].rangeEnd), overlap.value,
                          fs[i].source, fs[j].source, fs[i].confidence, fs[j].confidence);
  }

  lemma RecordedStays(fs: seq<FunctionRecord>, conflicts: seq<BoundaryConflict>, c: BoundaryConflict, i: int, j: int)
    requires 0 <= i < |fs| && 0 <= j < |fs| && Recorded(fs, conflicts, i, j)
    ensures Recorded(fs, conflicts + [c], i, j)
  {
    var k :| 0 <= k < |conflicts| && Names(conflicts[k], fs, i, j);
    assert Names((conflicts + [c])[k], fs, i, j);
  }

  lemma LaterPair(fs: seq<FunctionRecord>, c: BoundaryConflict, left: int, right: int, left': int, right': int)
    requires RecordsPair(fs, c, left, right)
    requires forall i, j :: Before(i, j, left, right) && j < |fs| ==> Before(i, j, left', right')
    ensures RecordsPair(fs, c, left', right')
  {
    var i, j :| Records(fs, i, j, c) && Before(i, j, left, right);
    assert Records(fs, i, j, c) && Before(i, j, left', right');
  }

  lemma AddConflict(fs: seq<FunctionRecord>, conflicts: seq<BoundaryConflict>, left: nat, right: nat, c: BoundaryConflict)
    requires SortedByEntry(fs) && ConflictsBefore(fs, conflicts, left, right) && Records(fs, left, right, c)
    ensures ConflictsBefore(fs, conflicts + [c], left, right + 1)
  {
    var more := conflicts + [c];
    forall k | 0 <= k < |conflicts|
      ensures PairLess(conflicts[k], c) && RecordsPair(fs, conflicts[k], left, right + 1)
    {
      assert RecordsPair(fs, conflicts[k], left, right);
      LaterPair(fs, conflicts[k], left, right, left, right + 1);
      var i, j :| Records(fs, i, j, conflicts[k]) && Before(i, j, left, right);
    }
    assert Before(left, right, left, right + 1) && RecordsPair(fs, c, left, right + 1);
    forall i, j | Disputed(fs, i, j) && Before(i, j, left, right + 1)
      ensures Recorded(fs, more, i, j)
    {
      if i == left && j == right {
        assert Names(more[|conflicts|], fs, i, j);
      } else {
        assert Before(i, j, left, right);
        RecordedStays(fs, conflicts, c, i, j);
      }
    }
  }

  lemma SkipPair(fs: seq<FunctionRecord>, conflicts: seq<BoundaryConflict>, left: nat, right: nat)
    requires ConflictsBefore(fs, conflicts, left, right) && !Disputed(fs, left, right)
    ensures ConflictsBefore(fs, conflicts, left, right + 1)
  {
    forall k | 0 <= k < |conflicts|
      ensures RecordsPair(fs, conflicts[k], left, right + 1)
    {
      LaterPair(fs, conflicts[k], left, right, left, right + 1);
    }
    forall i, j | Disputed(fs, i, j) && Before(i, j, left, right + 1)
      ensures Before(i, j, left, right)
    {
    }
  }

  lemma NextRow(fs: seq<FunctionRecord>, conflicts: seq<BoundaryConflict>, left: nat, right: nat)
    requires ConflictsBefore(fs, conflicts, left, right)
    requires right == |fs| || (left < |fs| && fs[left].cfg.None?)
    ensures ConflictsBefore(fs, conflicts, left + 1, left + 2)
  {
    forall k | 0 <= k < |conflicts|
      ensures RecordsPair(fs, conflicts[k], left + 1, left + 2)
    {
      LaterPair(fs, conflicts[k], left, right, left + 1, left + 2);
    }
    forall i, j | Disputed(fs, i, j) && Before(i, j, left + 1, left + 2)
      ensures Before(i, j, left, right)
    {
    }
  }

  /** The pairwise pass over the finished functions. */
  method ComputeConflicts(fs: seq<FunctionRecord>) returns (conflicts: seq<BoundaryConflict>)
    requires SortedByEntry(fs) && forall i :: 0 <= i < |fs| ==> Normalized(fs[i].ranges)
    ensures ConflictsAreExact(fs, conflicts)
  {
    conflicts := [];
    for left := 0 to |fs|
      invariant ConflictsBefore(fs, conflicts, left, left + 1)
    {
      if fs[left].cfg.Some? {
        for right := left + 1 to |fs|
          invariant ConflictsBefore(fs, conflicts, left, right)
        {
          var overlaps := false;
          if fs[right].cfg.Some? {
            overlaps := OwnedRangesOverlap(fs[left].ranges, fs[right].ranges);
          }
          if overlaps {
            var c := MakeConflict(fs, left, right);
            AddConflict(fs, conflicts, left, right, c);
            conflicts := conflicts + [c];
          } else {
            SkipPair(fs, conflicts, left, right);
          }
        }
        NextRow(fs, conflicts, left, |fs|);
      } else {
        NextRow(fs, conflicts, left, left + 1);
      }
    }
    forall k | 0 <= k < |conflicts|
      ensures RecordsPair(fs, conflicts[k], |fs|, |fs|)
    {
      var i, j :| Records(fs, i, j, conflicts[k]) && Before(i, j, |fs|, |fs| + 1);
      assert Before(i, j, |fs|, |fs|);
    }
  }

  // Marking.

  function Marked(f: FunctionRecord): FunctionRecord {
    f.(confidence := ConflictConfidence, trust := ConflictTrust, status := ConflictStatus)
  }

  predicate NamedIn(conflicts: seq<BoundaryConflict>, entry: Address) {
    exists k :: 0 <= k < |conflicts| && (conflicts[k].first == entry || conflicts[k].second == entry)
  }

  /** `fs` with the functions named by the conflicts marked, and nothing else changed. */
  ghost predicate IsMarking(before: seq<FunctionRecord>, after: seq<FunctionRecord>, conflicts: seq<BoundaryConflict>) {
    && |after| == |before|
    && forall i :: 0 <= i < |before| ==>
         after[i] == if NamedIn(conflicts, before[i].entry) then Marked(before[i]) else before[i]
  }

  function MarkEntry(fs: seq<FunctionRecord>, entry: Address): seq<FunctionRecord> {
    var found := FindCanonical(fs, entry);
    if found.Some? then fs[found.value := Marked(fs[found.value])] else fs
  }

  lemma MarkEntryMarks(fs: seq<FunctionRecord>, entry: Address)
    requires SortedByEntry(fs)
    ensures |MarkEntry(fs, entry)| == |fs| && SortedByEntry(MarkEntry(fs, entry))
    ensures forall i :: 0 <= i < |fs| ==>
              MarkEntry(fs, entry)[i] == if fs[i].entry == entry then Marked(fs[i]) else fs[i]
  {
    FindsTheFunction(fs, entry);
  }

  /** Marks both functions of every conflict, after all conflicts have been recorded. */
  method MarkConflicts(fs: seq<FunctionRecord>, conflicts: seq<BoundaryConflict>) returns (marked: seq<FunctionRecord>)
    requires SortedByEntry(fs)
    ensures IsMarking(fs, marked, conflicts) && SortedByEntry(marked)
  {
    marked := fs;
    for k := 0 to |conflicts|
      invariant IsMarking(fs, marked, conflicts[..k]) && SortedByEntry(marked)
    {
      MarkEntryMarks(marked, conflicts[k].first);
      var once := MarkEntry(marked, conflicts[k].first);
      MarkEntryMarks(once, conflicts[k].second);
      forall entry
        ensures NamedIn(conflicts[..k + 1], entry) <==>
                NamedIn(conflicts[..k], entry) || conflicts[k].first == entry || conflicts[k].second == entry
      {
        NamedInOneMore(conflicts, k, entry);
      }
      marked := MarkEntry(once, conflicts[k].second);
    }
    assert conflicts[..|conflicts|] == conflicts;
  }

  lemma NamedInOneMore(conflicts: seq<BoundaryConflict>, k: nat, entry: Address)
    requires k < |conflicts|
    ensures NamedIn(conflicts[..k + 1], entry) <==>
            NamedIn(conflicts[..k], entry) || conflicts[k].first == entry || conflicts[k].second == entry
  {
    if NamedIn(conflicts[..k], entry) {
      var i :| 0 <= i < k && (conflicts[..k][i].first == entry || conflicts[..k][i].second == entry);
      assert conflicts[..k + 1][i] == conflicts[..k][i];
    }
    if conflicts[k].first == entry || conflicts[k].second == entry {
      assert conflicts[..k + 1][k] == conflicts[k];
    }
    if NamedIn(conflicts[..k + 1], entry) {
      var i :| 0 <= i < k + 1 && (conflicts[..k + 1][i].first == entry || conflicts[..k + 1][i].second == entry);
      assert i < k ==> conflicts[..k][i] == conflicts[i];
    }
  }

  // Validation.

  ghost predicate IdentityIsComplete(f: FunctionRecord) {
    f.entries != [] && (f.status.ConflictStatus? <==> f.trust.ConflictTrust?)
  }

  ghost predicate EntryIsValid(m: FunctionMap, e: Address) {
    e % 4 == 0 && ContainsAny(m.executable, e, 4)
  }

  ghost predicate EntriesAreValid(m: FunctionMap, f: FunctionRecord) {
    && (forall k :: 0 <= k < |f.entries| ==> EntryIsValid(m, f.entries[k]))
    && (forall k, l :: 0 <= k < l < |f.entries| ==> f.entries[k] != f.entries[l])
  }

  /** `function_owns_address`. */
  predicate OwnsAddress(f: FunctionRecord, a: Address) {
    exists k :: 0 <= k < |f.ranges| && f.ranges[k].Contains(a) && (a - f.ranges[k].base) % 4 == 0
  }

  ghost predicate DependenciesAreOwned(f: FunctionRecord) {
    && (forall i, j :: 0 <= i < j < |f.dependencies| ==> f.dependencies[i] < f.dependencies[j])
    && (forall i :: 0 <= i < |f.dependencies| ==> OwnsAddress(f, f.dependencies[i]))
  }

  ghost predicate CodeIsValid(executable: seq<Range>, f: FunctionRecord) {
    f.cfg.Some? ==>
      OwnsItsCode(f) && Fits(f.ranges, executable) && DependenciesAreOwned(f) && WellFormed(f.cfg.value)
  }

  ghost predicate FunctionIsValid(m: FunctionMap, f: FunctionRecord) {
    IdentityIsComplete(f) && EntriesAreValid(m, f) && CodeIsValid(m.executable, f)
  }

  ghost predicate FunctionsAreValid(m: FunctionMap) {
    && SortedByEntry(m.functions)
    && (forall i :: 0 <= i < |m.functions| ==> FunctionIsValid(m, m.functions[i]))
    && (forall i, j, e :: 0 <= i < j < |m.functions| && e in m.functions[i].entries ==> e !in m.functions[j].entries)
  }

  ghost predicate IsMarked(f: FunctionRecord) {
    f.confidence.ConflictConfidence? && f.status.ConflictStatus?
  }

  ghost predicate ConflictsAreValid(m: FunctionMap) {
    && ConflictsAreExact(m.functions, m.conflicts)
    && (forall i, j :: Disputed(m.functions, i, j) ==> IsMarked(m.functions[i]) && IsMarked(m.functions[j]))
  }

  /** What `validate_finalized_function_map` accepts. */
  ghost predicate IsValid(m: FunctionMap) {
    m.frozen && FunctionsAreValid(m) && ConflictsAreValid(m)
  }

  method CheckEntries(m: FunctionMap, entries: seq<Address>, seen: set<Address>) returns (r: Result<set<Address>>)
    ensures r.Ok? <==> EntriesAreNew(m, entries, seen)
    ensures r.Ok? ==> r.value == seen + set e | e in entries
    ensures r.Err? ==> r.code == InvalidGuestAddress
  {
    var all := seen;
    for k := 0 to |entries|
      invariant forall i :: 0 <= i < k ==> EntryIsValid(m, entries[i]) && entries[i] !in seen
      invariant forall i, j :: 0 <= i < j < k ==> entries[i] != entries[j]
      invariant all == seen + set e | e in entries[..k]
    {
      var e := entries[k];
      if e % 4 != 0 || e in all || !ContainsAny(m.executable, e, 4) {
        return Err(InvalidGuestAddress);
      }
      assert entries[..k + 1] == entries[..k] + [e];
      all := all + {e};
    }
    assert entries[..|entries|] == entries;
    return Ok(all);
  }

  /** The recorded ranges must be the normal form of the decoded instructions. */
  method CheckOwnership(f: FunctionRecord) returns (ok: bool)
    requires f.cfg.Some?
    ensures ok <==> HasCode(f.cfg.value) && Describes(f.cfg.value, f.ranges) && f.ranges != []
                    && f.rangeBegin == f.ranges[0].base
  {
    var g := f.cfg.value;
    var addresses := CollectAddresses(g);
    WordsAreInGraph(addresses, g);
    var expected := NormalizeAddresses(addresses);
    if expected.Err? {
      var i :| 0 <= i < |addresses| && !IsCodeWord(addresses[i]);
      assert addresses[i] in addresses;
      return false;
    }
    assert forall a :: a in Addresses(g) ==> a in addresses;
    if Normalized(f.ranges) {
      NormalFormIsCanonical(expected.value, f.ranges);
    }
    if expected.value != f.ranges || f.ranges == [] || f.rangeBegin != f.ranges[0].base {
      return false;
    }
    if Addresses(g) == {} {
      FirstByteIsOwned(f.ranges);
      assert false;
    }
    return true;
  }

  method CheckDependencies(f: FunctionRecord) returns (ok: bool)
    ensures ok <==> DependenciesAreOwned(f)
  {
    for k := 0 to |f.dependencies|
      invariant forall i, j :: 0 <= i < j < k ==> f.dependencies[i] < f.dependencies[j]
      invariant forall i :: 0 <= i < k ==> OwnsAddress(f, f.dependencies[i])
    {
      if k > 0 && f.dependencies[k] <= f.dependencies[k - 1] {
        return false;
      }
      if !OwnsAddress(f, f.dependencies[k]) {
        return false;
      }
    }
    return true;
  }

  /** What is wrong with the code of the function: what it owns, what it lists, or its graph. */
  ghost predicate IsCodeFault(executable: seq<Range>, f: FunctionRecord, code: ErrorCode) {
    && f.cfg.Some?
    && match code
       case InvalidGuestAddress => !OwnsItsCode(f) || !Fits(f.ranges, executable)
       case FunctionBoundaryConflict => !DependenciesAreOwned(f)
       case InvalidFormat => !WellFormed(f.cfg.value)
       case ArithmeticOverflow => !WellFormed(f.cfg.value) && GraphValidation.Overflows(f.cfg.value)
       case _ => false
  }

  method CheckCode(m: FunctionMap, f: FunctionRecord) returns (r: Result<()>)
    ensures r.Ok? <==> CodeIsValid(m.executable, f)
    ensures r.Err? ==> IsCodeFault(m.executable, f, r.code)
  {
    if f.cfg.None? {
      return Ok(());
    }
    var owned := CheckOwnership(f);
    if !owned {
      return Err(InvalidGuestAddress);
    }
    var linked := CheckDependencies(f);
    if !linked {
      return Err(FunctionBoundaryConflict);
    }
    var inside := InsideExecutable(f.ranges, m.executable);
    if !inside || f.rangeEnd != f.ranges[|f.ranges| - 1].End() {
      return Err(InvalidGuestAddress);
    }
    r := ValidateControlFlowGraph(f.cfg.value);
  }

  method CheckIdentity(f: FunctionRecord) returns (r: Result<()>)
    ensures r.Ok? <==> IdentityIsComplete(f)
    ensures r.Err? ==> r.code == if f.entries == [] then InvalidFormat else FunctionBoundaryConflict
  {
    if f.entries == [] {
      return Err(InvalidFormat);
    }
    if f.status.ConflictStatus? != f.trust.ConflictTrust? {
      return Err(FunctionBoundaryConflict);
    }
    return Ok(());
  }

  /** The first `k` functions have passed, and `seen` holds their entries. */
  ghost predicate FunctionsPassed(m: FunctionMap, k: nat, seen: set<Address>)
    requires k <= |m.functions|
  {
    && (forall i, j :: 0 <= i < j < k ==> m.functions[i].entry < m.functions[j].entry)
    && (forall i :: 0 <= i < k ==> FunctionIsValid(m, m.functions[i]))
    && (forall i, j, e :: 0 <= i < j < k && e in m.functions[i].entries ==> e !in m.functions[j].entries)
    && (forall e :: e in seen <==> exists i :: 0 <= i < k && e in m.functions[i].entries)
  }

  /** The entries of one function are valid, distinct and new. */
  ghost predicate EntriesAreNew(m: FunctionMap, entries: seq<Address>, seen: set<Address>) {
    && (forall k :: 0 <= k < |entries| ==> EntryIsValid(m, entries[k]) && entries[k] !in seen)
    && (forall k, l :: 0 <= k < l < |entries| ==> entries[k] != entries[l])
  }

  lemma PassOneMore(m: FunctionMap, k: nat, seen: set<Address>)
    requires k < |m.functions| && FunctionsPassed(m, k, seen)
    requires k > 0 ==> m.functions[k - 1].entry < m.functions[k].entry
    requires EntriesAreNew(m, m.functions[k].entries, seen)
    requires IdentityIsComplete(m.functions[k]) && CodeIsValid(m.executable, m.functions[k])
    ensures FunctionsPassed(m, k + 1, seen + set e | e in m.functions[k].entries)
  {
    var fs := m.functions;
    assert FunctionIsValid(m, fs[k]);
    forall i, e | 0 <= i < k && e in fs[i].entries
      ensures e !in fs[k].entries
    {
      assert e in seen;
    }
  }

  lemma RejectFunction(m: FunctionMap, k: nat, seen: set<Address>)
    requires k < |m.functions| && FunctionsPassed(m, k, seen)
    requires (k > 0 && m.functions[k].entry <= m.functions[k - 1].entry)
             || !IdentityIsComplete(m.functions[k]) || !CodeIsValid(m.executable, m.functions[k])
             || !EntriesAreNew(m, m.functions[k].entries, seen)
    ensures !FunctionsAreValid(m)
  {
    var fs := m.functions;
    if FunctionIsValid(m, fs[k]) && !EntriesAreNew(m, fs[k].entries, seen) {
      var i :| 0 <= i < |fs[k].entries| && fs[k].entries[i] in seen;
      var j :| 0 <= j < k && fs[k].entries[i] in fs[j].entries;
      assert fs[k].entries[i] in fs[k].entries;
    }
  }

  /** The functions before the `k`-th pass, with the entries in `seen`, and it fails its first check with the code. */
  ghost predicate FunctionFaults(m: FunctionMap, k: nat, seen: set<Address>, code: ErrorCode) {
    && k < |m.functions| && FunctionsPassed(m, k, seen)
    && var f := m.functions[k];
       if !IdentityIsComplete(f) then code == if f.entries == [] then InvalidFormat else FunctionBoundaryConflict
       else if k > 0 && f.entry <= m.functions[k - 1].entry then code == InvalidFormat
       else if !EntriesAreNew(m, f.entries, seen) then code == InvalidGuestAddress
       else IsCodeFault(m.executable, f, code)
  }

  ghost predicate SomeFunctionFaults(m: FunctionMap, code: ErrorCode) {
    exists k, seen :: FunctionFaults(m, k, seen, code)
  }

  lemma FaultIsFound(m: FunctionMap, k: nat, seen: set<Address>, code: ErrorCode)
    requires k < |m.functions| && FunctionsPassed(m, k, seen)
    requires
      var f := m.functions[k];
      if !IdentityIsComplete(f) then code == if f.entries == [] then InvalidFormat else FunctionBoundaryConflict
      else if k > 0 && f.entry <= m.functions[k - 1].entry then code == InvalidFormat
      else if !EntriesAreNew(m, f.entries, seen) then code == InvalidGuestAddress
      else IsCodeFault(m.executable, f, code)
    ensures SomeFunctionFaults(m, code)
  {
    hide FunctionsPassed, IdentityIsComplete, EntriesAreNew, IsCodeFault;
    assert FunctionFaults(m, k, seen, code);
  }

  /** The per-function half of the validator. */
  method CheckFunctions(m: FunctionMap) returns (r: Result<()>)
    ensures r.Ok? <==> FunctionsAreValid(m)
    ensures r.Err? ==> SomeFunctionFaults(m, r.code)
  {
    var fs := m.functions;
    var seen: set<Address> := {};
    for k := 0 to |fs|
      invariant FunctionsPassed(m, k, seen)
    {
      hide *;
      var f := fs[k];
      var identity := CheckIdentity(f);
      if identity.Err? {
        RejectFunction(m, k, seen);
        FaultIsFound(m, k, seen, identity.code);
        return identity;
      }
      if k > 0 && f.entry <= fs[k - 1].entry {
        RejectFunction(m, k, seen);
        FaultIsFound(m, k, seen, InvalidFormat);
        return Err(InvalidFormat);
      }
      var entries := CheckEntries(m, f.entries, seen);
      if entries.Err? {
        RejectFunction(m, k, seen);
        FaultIsFound(m, k, seen, entries.code);
        return Err(entries.code);
      }
      r := CheckCode(m, f);
      if r.Err? {
        RejectFunction(m, k, seen);
        FaultIsFound(m, k, seen, r.code);
        return;
      }
      PassOneMore(m, k, seen);
      seen := entries.value;
    }
    return Ok(());
  }

  /** One recorded conflict: it names two functions with graphs and lists their exact overlap. */
  method CheckConflict(m: FunctionMap, c: BoundaryConflict) returns (ok: bool)
    requires FunctionsAreValid(m)
    ensures ok <==> c.first < c.second && RecordsPair(m.functions, c, |m.functions|, |m.functions|)
  {
    var fs := m.functions;
    if c.first >= c.second {
      return false;
    }
    FindsTheFunction(fs, c.first);
    FindsTheFunction(fs, c.second);
    var first, second := FindCanonical(fs, c.first), FindCanonical(fs, c.second);
    if first.None? || second.None? || fs[first.value].cfg.None? || fs[second.value].cfg.None?
       || c.firstRange != Envelope(fs[first.value].rangeBegin, fs[first.value].rangeEnd)
       || c.secondRange != Envelope(fs[second.value].rangeBegin, fs[second.value].rangeEnd) {
      return false;
    }
    var i, j := first.value, second.value;
    assert FunctionIsValid(m, fs[i]) && FunctionIsValid(m, fs[j]);
    ok := CheckOverlap(fs[i].ranges, fs[j].ranges, c.overlap);
    if ok {
      assert Records(fs, i, j, c) && Before(i, j, |fs|, |fs|);
    }
  }

  /** The recorded overlap must be the normal form of what two functions share, and not empty. */
  method CheckOverlap(left: seq<Range>, right: seq<Range>, overlap: seq<Range>) returns (ok: bool)
    requires Normalized(left) && Normalized(right)
    ensures ok <==> IsIntersection(left, right, overlap) && overlap != []
  {
    var expected := IntersectOwnedRanges(left, right);
    var normalized := NormalizeRanges(overlap);
    if normalized.Ok? && Normalized(overlap) {
      NormalFormIsCanonical(normalized.value, overlap);
    }
    if expected.Ok? && IsIntersection(left, right, overlap) {
      NormalFormIsCanonical(expected.value, overlap);
    }
    ok := expected.Ok? && normalized.Ok? && expected.value != [] && normalized.value == overlap
          && expected.value == overlap;
  }

  ghost predicate PairsListed(conflicts: seq<BoundaryConflict>, pairs: set<(Address, Address)>) {
    forall p :: p in pairs <==> exists k :: 0 <= k < |conflicts| && p == (conflicts[k].first, conflicts[k].second)
  }

  ghost predicate ConflictsAreSound(m: FunctionMap) {
    && PairsSorted(m.conflicts)
    && forall k :: 0 <= k < |m.conflicts| ==> RecordsPair(m.functions, m.conflicts[k], |m.functions|, |m.functions|)
  }

  /** The first `k` conflicts are in order and exact, and `recorded` holds their pairs. */
  ghost predicate Listed(m: FunctionMap, k: nat, recorded: set<(Address, Address)>)
    requires k <= |m.conflicts|
  {
    && (forall i, j :: 0 <= i < j < k ==> PairLess(m.conflicts[i], m.conflicts[j]))
    && (forall i :: 0 <= i < k ==> RecordsPair(m.functions, m.conflicts[i], |m.functions|, |m.functions|))
    && (forall p :: p in recorded <==>
          exists i :: 0 <= i < k && p == (m.conflicts[i].first, m.conflicts[i].second))
  }

  /** The list of recorded conflicts is in order and each one is exact. */
  method CheckConflicts(m: FunctionMap) returns (r: Result<set<(Address, Address)>>)
    requires FunctionsAreValid(m)
    ensures r.Ok? <==> ConflictsAreSound(m)
    ensures r.Ok? ==> PairsListed(m.conflicts, r.value)
    ensures r.Err? ==> r.code == FunctionBoundaryConflict
  {
    var recorded: set<(Address, Address)> := {};
    for k := 0 to |m.conflicts|
      invariant Listed(m, k, recorded)
    {
      var c := m.conflicts[k];
      if k > 0 && !PairLess(m.conflicts[k - 1], c) {
        return Err(FunctionBoundaryConflict);
      }
      var ok := CheckConflict(m, c);
      if !ok {
        RejectConflict(m, k);
        return Err(FunctionBoundaryConflict);
      }
      ListOneMore(m, k, recorded);
      recorded := recorded + {(c.first, c.second)};
    }
    return Ok(recorded);
  }

  lemma RejectConflict(m: FunctionMap, k: nat)
    requires SortedByEntry(m.functions) && k < |m.conflicts|
    requires var c := m.conflicts[k];
             !(c.first < c.second && RecordsPair(m.functions, c, |m.functions|, |m.functions|))
    ensures !ConflictsAreSound(m)
  {
    if RecordsPair(m.functions, m.conflicts[k], |m.functions|, |m.functions|) {
      PairIsOrdered(m.functions, m.conflicts[k]);
    }
  }

  lemma PairIsOrdered(fs: seq<FunctionRecord>, c: BoundaryConflict)
    requires SortedByEntry(fs) && RecordsPair(fs, c, |fs|, |fs|)
    ensures c.first < c.second
  {
    var i, j :| Records(fs, i, j, c) && Before(i, j, |fs|, |fs|);
  }

  lemma ListOneMore(m: FunctionMap, k: nat, recorded: set<(Address, Address)>)
    requires k < |m.conflicts| && Listed(m, k, recorded)
    requires k > 0 ==> PairLess(m.conflicts[k - 1], m.conflicts[k])
    requires RecordsPair(m.functions, m.conflicts[k], |m.functions|, |m.functions|)
    ensures Listed(m, k + 1, recorded + {(m.conflicts[k].first, m.conflicts[k].second)})
  {
    var cs := m.conflicts;
    forall i | 0 <= i < k
      ensures PairLess(cs[i], cs[k])
    {
      assert i < k - 1 ==> PairLess(cs[i], cs[k - 1]);
    }
    forall p
      ensures p in recorded + {(cs[k].first, cs[k].second)} <==>
              exists i :: 0 <= i < k + 1 && p == (cs[i].first, cs[i].second)
    {
      if i :| 0 <= i < k && p == (cs[i].first, cs[i].second) {
        assert i < k + 1 && p == (cs[i].first, cs[i].second);
      }
      if p == (cs[k].first, cs[k].second) {
        assert k < k + 1 && p == (cs[k].first, cs[k].second);
      }
    }
  }

  /** One pair of functions: when they overlap, the pair is recorded and both are marked. */
  method CheckPair(m: FunctionMap, recorded: set<(Address, Address)>, left: nat, right: nat)
    returns (overlaps: bool, ok: bool)
    requires FunctionsAreValid(m) && left < right < |m.functions| && m.functions[left].cfg.Some?
    ensures overlaps <==> Disputed(m.functions, left, right)
    ensures ok <==>
            (overlaps ==>
               && (m.functions[left].entry, m.functions[right].entry) in recorded
               && IsMarked(m.functions[left]) && IsMarked(m.functions[right]))
  {
    var f, g := m.functions[left], m.functions[right];
    if g.cfg.None? {
      return false, true;
    }
    assert FunctionIsValid(m, f) && FunctionIsValid(m, g);
    overlaps := OwnedRangesOverlap(f.ranges, g.ranges);
    ok := !overlaps
          || ((f.entry, g.entry) in recorded
              && f.confidence.ConflictConfidence? && f.status.ConflictStatus?
              && g.confidence.ConflictConfidence? && g.status.ConflictStatus?);
  }

  lemma PairIsChecked(m: FunctionMap, recorded: set<(Address, Address)>, left: nat, right: nat,
                      expected: set<(Address, Address)>)
    requires left < right < |m.functions| && PairsListed(m.conflicts, recorded)
    requires OverlapsChecked(m.functions, m.conflicts, left, right) && ExpectedBefore(m.functions, expected, left, right)
    requires Disputed(m.functions, left, right) ==>
               && (m.functions[left].entry, m.functions[right].entry) in recorded
               && IsMarked(m.functions[left]) && IsMarked(m.functions[right])
    ensures OverlapsChecked(m.functions, m.conflicts, left, right + 1)
    ensures ExpectedBefore(m.functions,
                           if Disputed(m.functions, left, right)
                           then expected + {(m.functions[left].entry, m.functions[right].entry)} else expected,
                           left, right + 1)
  {
    var fs := m.functions;
    if Disputed(fs, left, right) {
      var k :| 0 <= k < |m.conflicts| && (fs[left].entry, fs[right].entry) == (m.conflicts[k].first, m.conflicts[k].second);
      assert Names(m.conflicts[k], fs, left, right);
    }
    forall i, j | Disputed(fs, i, j) && Before(i, j, left, right + 1)
      ensures Recorded(fs, m.conflicts, i, j) && IsMarked(fs[i]) && IsMarked(fs[j])
    {
      assert (i == left && j == right) || Before(i, j, left, right);
    }
    ExpectOneMore(fs, expected, left, right);
  }

  lemma ExpectOneMore(fs: seq<FunctionRecord>, expected: set<(Address, Address)>, left: nat, right: nat)
    requires left < right < |fs| && ExpectedBefore(fs, expected, left, right)
    ensures ExpectedBefore(fs, if Disputed(fs, left, right) then expected + {(fs[left].entry, fs[right].entry)} else expected,
                           left, right + 1)
  {
    var more := if Disputed(fs, left, right) then expected + {(fs[left].entry, fs[right].entry)} else expected;
    forall p
      ensures p in more <==>
              exists i, j :: Disputed(fs, i, j) && Before(i, j, left, right + 1) && p == (fs[i].entry, fs[j].entry)
    {
      if i, j :| Disputed(fs, i, j) && Before(i, j, left, right) && p == (fs[i].entry, fs[j].entry) {
        assert Before(i, j, left, right + 1);
      }
      if Disputed(fs, left, right) {
        assert Before(left, right, left, right + 1);
      }
      if i, j :| Disputed(fs, i, j) && Before(i, j, left, right + 1) && p == (fs[i].entry, fs[j].entry) {
        assert (i == left && j == right) || Before(i, j, left, right);
      }
    }
  }

  lemma RowIsChecked(fs: seq<FunctionRecord>, conflicts: seq<BoundaryConflict>, expected: set<(Address, Address)>,
                     left: nat, right: nat)
    requires OverlapsChecked(fs, conflicts, left, right) && ExpectedBefore(fs, expected, left, right)
    requires right == |fs| || (left < |fs| && fs[left].cfg.None?)
    ensures OverlapsChecked(fs, conflicts, left + 1, left + 2) && ExpectedBefore(fs, expected, left + 1, left + 2)
  {
    forall i, j | Disputed(fs, i, j)
      ensures Before(i, j, left + 1, left + 2) ==> Before(i, j, left, right)
      ensures Before(i, j, left, right) ==> Before(i, j, left + 1, left + 2)
    {
    }
  }

  /** Every overlapping pair is recorded and both its functions are marked. */
  method CheckOverlaps(m: FunctionMap, recorded: set<(Address, Address)>) returns (r: Result<()>)
    requires FunctionsAreValid(m) && PairsListed(m.conflicts, recorded) && ConflictsAreSound(m)
    ensures r.Ok? <==> ConflictsAreValid(m)
    ensures r.Err? ==> r.code == FunctionBoundaryConflict
  {
    var fs := m.functions;
    var expected: set<(Address, Address)> := {};
    for left := 0 to |fs|
      invariant OverlapsChecked(fs, m.conflicts, left, left + 1)
      invariant ExpectedBefore(fs, expected, left, left + 1)
    {
      if fs[left].cfg.None? {
        RowIsChecked(fs, m.conflicts, expected, left, left + 1);
      } else {
        for right := left + 1 to |fs|
          invariant OverlapsChecked(fs, m.conflicts, left, right)
          invariant ExpectedBefore(fs, expected, left, right)
        {
          var overlaps, ok := CheckPair(m, recorded, left, right);
          if !ok {
            RejectPair(m, recorded, left, right);
            return Err(FunctionBoundaryConflict);
          }
          PairIsChecked(m, recorded, left, right, expected);
          if overlaps {
            expected := expected + {(fs[left].entry, fs[right].entry)};
          }
        }
        RowIsChecked(fs, m.conflicts, expected, left, |fs|);
      }
    }
    RecordedIsExpected(m, recorded, expected);
    if recorded != expected {
      assert false;
    }
    AllOverlapsChecked(m);
    return Ok(());
  }

  lemma AllOverlapsChecked(m: FunctionMap)
    requires OverlapsChecked(m.functions, m.conflicts, |m.functions|, |m.functions| + 1) && ConflictsAreSound(m)
    ensures ConflictsAreValid(m)
  {
    forall i, j | Disputed(m.functions, i, j)
      ensures Before(i, j, |m.functions|, |m.functions| + 1)
    {
    }
  }

  lemma RejectPair(m: FunctionMap, recorded: set<(Address, Address)>, left: nat, right: nat)
    requires Disputed(m.functions, left, right) && PairsListed(m.conflicts, recorded)
    requires !((m.functions[left].entry, m.functions[right].entry) in recorded
               && IsMarked(m.functions[left]) && IsMarked(m.functions[right]))
    ensures !ConflictsAreValid(m)
  {
    if Recorded(m.functions, m.conflicts, left, right) {
      var k :| 0 <= k < |m.conflicts| && Names(m.conflicts[k], m.functions, left, right);
      assert (m.functions[left].entry, m.functions[right].entry) == (m.conflicts[k].first, m.conflicts[k].second);
    }
  }

  ghost predicate OverlapsChecked(fs: seq<FunctionRecord>, conflicts: seq<BoundaryConflict>, left: int, right: int) {
    forall i, j {:trigger Disputed(fs, i, j)} :: Disputed(fs, i, j) && Before(i, j, left, right) ==>
      Recorded(fs, conflicts, i, j) && IsMarked(fs[i]) && IsMarked(fs[j])
  }

  ghost predicate ExpectedBefore(fs: seq<FunctionRecord>, expected: set<(Address, Address)>, left: int, right: int) {
    forall p :: p in expected <==>
      exists i, j :: Disputed(fs, i, j) && Before(i, j, left, right) && p == (fs[i].entry, fs[j].entry)
  }

  lemma RecordedIsDisputed(m: FunctionMap, k: nat) returns (i: nat, j: nat)
    requires FunctionsAreValid(m) && ConflictsAreSound(m) && k < |m.conflicts|
    ensures Disputed(m.functions, i, j) && Names(m.conflicts[k], m.functions, i, j)
  {
    var fs := m.functions;
    assert RecordsPair(fs, m.conflicts[k], |fs|, |fs|);
    i, j :| Records(fs, i, j, m.conflicts[k]) && Before(i, j, |fs|, |fs|);
    OverlapIsNonEmptyIntersection(fs[i].ranges, fs[j].ranges, m.conflicts[k].overlap);
  }

  lemma PairIsExpected(m: FunctionMap, expected: set<(Address, Address)>, k: nat)
    requires FunctionsAreValid(m) && ConflictsAreSound(m) && k < |m.conflicts|
    requires ExpectedBefore(m.functions, expected, |m.functions|, |m.functions| + 1)
    ensures (m.conflicts[k].first, m.conflicts[k].second) in expected
  {
    var fs := m.functions;
    var i, j := RecordedIsDisputed(m, k);
    assert Before(i, j, |fs|, |fs| + 1);
  }

  lemma PairIsRecorded(m: FunctionMap, recorded: set<(Address, Address)>, i: nat, j: nat)
    requires PairsListed(m.conflicts, recorded) && Disputed(m.functions, i, j)
    requires OverlapsChecked(m.functions, m.conflicts, |m.functions|, |m.functions| + 1)
    ensures (m.functions[i].entry, m.functions[j].entry) in recorded
  {
    assert Before(i, j, |m.functions|, |m.functions| + 1);
    var k :| 0 <= k < |m.conflicts| && Names(m.conflicts[k], m.functions, i, j);
  }

  /** With exact conflicts and every overlap recorded, the two pair sets cannot differ. */
  lemma RecordedIsExpected(m: FunctionMap, recorded: set<(Address, Address)>, expected: set<(Address, Address)>)
    requires FunctionsAreValid(m) && PairsListed(m.conflicts, recorded) && ConflictsAreSound(m)
    requires OverlapsChecked(m.functions, m.conflicts, |m.functions|, |m.functions| + 1)
    requires ExpectedBefore(m.functions, expected, |m.functions|, |m.functions| + 1)
    ensures recorded == expected
  {
    forall p
      ensures p in recorded <==> p in expected
    {
      if k :| 0 <= k < |m.conflicts| && p == (m.conflicts[k].first, m.conflicts[k].second) {
        PairIsExpected(m, expected, k);
      }
      if i, j :| Disputed(m.functions, i, j) && Before(i, j, |m.functions|, |m.functions| + 1)
                 && p == (m.functions[i].entry, m.functions[j].entry) {
        PairIsRecorded(m, recorded, i, j);
      }
    }
  }

  /** `validate_finalized_function_map`. */
  method ValidateFunctionMap(m: FunctionMap) returns (r: Result<()>)
    ensures r.Ok? <==> IsValid(m)
    ensures r.Err? ==>
              if !m.frozen then r.code == InvalidFormat
              else if !FunctionsAreValid(m) then SomeFunctionFaults(m, r.code)
              else r.code == FunctionBoundaryConflict
  {
    hide FunctionFaults, SomeFunctionFaults;
    if !m.frozen {
      return Err(InvalidFormat);
    }
    r := CheckFunctions(m);
    if r.Err? {
      return;
    }
    var recorded := CheckConflicts(m);
    if recorded.Err? {
      return Err(recorded.code);
    }
    r := CheckOverlaps(m, recorded.value);
  }

  /** The pairwise pass and the marking always pass the validator's conflict checks. */
  lemma ConflictPassIsValid(m: FunctionMap, fs: seq<FunctionRecord>)
    requires ConflictsAreExact(fs, m.conflicts) && IsMarking(fs, m.functions, m.conflicts)
    ensures ConflictsAreValid(m)
  {
    var n := |fs|;
    forall i, j
      ensures Disputed(fs, i, j) <==> Disputed(m.functions, i, j)
      ensures forall c :: Records(fs, i, j, c) ==> Records(m.functions, i, j, c)
    {
    }
    forall k | 0 <= k < |m.conflicts|
      ensures RecordsPair(m.functions, m.conflicts[k], n, n)
    {
      assert RecordsPair(fs, m.conflicts[k], n, n);
      var i, j :| Records(fs, i, j, m.conflicts[k]) && Before(i, j, n, n);
      assert Records(m.functions, i, j, m.conflicts[k]);
    }
    forall i, j | Disputed(m.functions, i, j)
      ensures Recorded(m.functions, m.conflicts, i, j) && IsMarked(m.functions[i]) && IsMarked(m.functions[j])
    {
      assert Disputed(fs, i, j);
      var k :| 0 <= k < |m.conflicts| && Names(m.conflicts[k], fs, i, j);
      assert Names(m.conflicts[k], m.functions, i, j);
      assert NamedIn(m.conflicts, fs[i].entry) && NamedIn(m.conflicts, fs[j].entry);
    }
  }

  lemma AlignedDifference(a: int, b: int)
    requires a % 4 == 0 && b % 4 == 0
    ensures (a - b) % 4 == 0
  {
  }

  lemma OwnsAddressMeans(f: FunctionRecord, a: Address)
    requires Normalized(f.ranges) && a % 4 == 0
    ensures OwnsAddress(f, a) <==> Owns(f.ranges, a)
  {
    if Owns(f.ranges, a) {
      var k :| 0 <= k < |f.ranges| && Covers(f.ranges[k], a);
      AlignedDifference(a, f.ranges[k].base);
      assert f.ranges[k].Contains(a);
    }
    if k :| 0 <= k < |f.ranges| && f.ranges[k].Contains(a) && (a - f.ranges[k].base) % 4 == 0 {
      assert Covers(f.ranges[k], a);
    }
  }

  /** On a valid map two functions share an instruction exactly when a conflict names them and lists it. */
  lemma SharedCodeIsRecorded(m: FunctionMap, i: nat, j: nat, a: Address)
    requires IsValid(m) && i < j < |m.functions| && a % 4 == 0
    requires m.functions[i].cfg.Some? && m.functions[j].cfg.Some?
    ensures OwnsAddress(m.functions[i], a) && OwnsAddress(m.functions[j], a) <==>
            exists k :: 0 <= k < |m.conflicts| && Names(m.conflicts[k], m.functions, i, j)
                        && Owns(m.conflicts[k].overlap, a)
  {
    var fs := m.functions;
    OwnsAddressMeans(fs[i], a);
    OwnsAddressMeans(fs[j], a);
    if OwnsAddress(fs[i], a) && OwnsAddress(fs[j], a) {
      assert Disputed(fs, i, j);
      var k :| 0 <= k < |m.conflicts| && Names(m.conflicts[k], fs, i, j);
      NamedPairIsRecorded(m, i, j, k);
    }
    if k :| 0 <= k < |m.conflicts| && Names(m.conflicts[k], fs, i, j) && Owns(m.conflicts[k].overlap, a) {
      NamedPairIsRecorded(m, i, j, k);
    }
  }

  lemma NamedPairIsRecorded(m: FunctionMap, i: nat, j: nat, k: nat)
    requires SortedByEntry(m.functions) && ConflictsAreExact(m.functions, m.conflicts)
    requires i < j < |m.functions| && k < |m.conflicts| && Names(m.conflicts[k], m.functions, i, j)
    ensures Records(m.functions, i, j, m.conflicts[k])
  {
    var n := |m.functions|;
    assert RecordsPair(m.functions, m.conflicts[k], n, n);
    var p, q :| Records(m.functions, p, q, m.conflicts[k]) && Before(p, q, n, n);
    SameEntrySameFunction(m.functions, i, p);
    SameEntrySameFunction(m.functions, j, q);
  }

  lemma SameEntrySameFunction(fs: seq<FunctionRecord>, i: nat, j: nat)
    requires SortedByEntry(fs) && i < |fs| && j < |fs| && fs[i].entry == fs[j].entry
    ensures i == j
  {
  }
}
