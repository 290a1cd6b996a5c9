/** What the seeds mean for the published map: which branches they cut, and how its functions are rated. */
module PublishedEvidence {
  import opened Common
  import opened ControlFlow
  import opened CodeRanges
  import opened FlowTheorems
  import opened FunctionRecords
  import opened FunctionMaps
  import opened FunctionDiscovery
  import opened Evidence
  import opened BuildSteps
  import opened BuildInvariant
  import opened BuildRuns
  import opened Finalization
  import opened FunctionPublication

  /** The entry is known before any analysis: the caller gives it, or an included strong seed does. */
  ghost predicate IsFirst(s: Setting, x: Address) {
    IsPreset(s.options, x) || exists k :: IsStrongEntry(s, k, x)
  }

  /** The graph, instruction by instruction, for the entries that were known when it was made: the first ones, and
      those of the calls found until then. */
  ghost predicate IsTold(s: Setting, b: Book, f: FunctionRecord) {
    f.cfg.Some? ==>
      && f.entry in b.basis && b.basis[f.entry].count <= |b.boundaries|
      && (forall x :: x in b.basis[f.entry].entries <==> IsFirst(s, x) || x in b.boundaries[..b.basis[f.entry].count])
      && DescribesCode(s.input.guest, s.limits.(knownEntries := b.basis[f.entry].entries), f.entry, f.cfg.value)
  }

  /** Where a block ends in an unconditional branch to `x`, the branch leaves the function. */
  ghost predicate CutsAt(g: Graph, x: Address) {
    forall a :: a in g.blocks && BranchesTo(g.blocks[a], x) ==>
      g.blocks[a].successors == [Edge(g.blocks[a].Last().address, x, FunctionTransfer, false)]
  }

  ghost predicate BranchesTo(b: BasicBlock, x: Address) {
    b.instructions != [] && b.Last().flow.kind == DirectBranch && b.Last().flow.target == Some(x)
  }

  /** No function goes on at the entry or the canonical entry of another function's strong seed. */
  ghost predicate StrongSeedsCut(s: Setting, fs: seq<FunctionRecord>) {
    forall i, x {:trigger IsFirst(s, x), fs[i]} ::
      0 <= i < |fs| && fs[i].cfg.Some? && IsFirst(s, x) && x != fs[i].entry ==> CutsAt(fs[i].cfg.value, x)
  }

  /** Trusted, unless a conflict says otherwise. */
  ghost predicate IsTrusted(f: FunctionRecord) {
    if f.status == ConflictStatus then f.trust == ConflictTrust else f.trust == Trusted
  }

  ghost predicate SeedIsStrongFor(s: Setting, k: int, e: Address) { SeedIsFor(s, k, e) && IsStrong(s.input.seeds[k]) }

  ghost predicate StrongSeedsAreTrusted(s: Setting, fs: seq<FunctionRecord>) {
    forall i, k {:trigger SeedIsStrongFor(s, k, fs[i].entry)} ::
      0 <= i < |fs| && SeedIsStrongFor(s, k, fs[i].entry) ==> IsTrusted(fs[i])
  }

  ghost predicate Calls(s: Setting, f: FunctionRecord, t: Address) {
    f.cfg.Some? && CallsDirectly(f.cfg.value, t) && s.input.InRange(t)
  }

  /** So are the functions that a published graph calls. */
  ghost predicate CalleesAreTrusted(s: Setting, fs: seq<FunctionRecord>) {
    forall i, j {:trigger fs[i], fs[j]} ::
      0 <= i < |fs| && 0 <= j < |fs| && Calls(s, fs[i], fs[j].entry) ==> IsTrusted(fs[j])
  }

  /** The rating is what the seeds and the calls make it; of a function in a conflict only the source remains. */
  ghost predicate IsRatedAsPublished(s: Setting, b: Book, f: FunctionRecord) {
    if f.status == ConflictStatus then
      && f.trust == ConflictTrust && f.confidence == ConflictConfidence
      && exists c, t :: IsRated(s, b.known, f.entry, f.(confidence := c, trust := t))
    else IsRated(s, b.known, f.entry, f)
  }

  /** A function is marked exactly when it shares code with another one. */
  ghost predicate MarksDisputes(fs: seq<FunctionRecord>) {
    forall i :: 0 <= i < |fs| ==>
      (fs[i].status == ConflictStatus <==> exists j :: Disputed(fs, i, j) || Disputed(fs, j, i))
  }

  /** Where the function may be entered, in order: at its own entry and where its seeds say; without a graph it owns
      nothing. */
  ghost predicate MayBeEntered(s: Setting, f: FunctionRecord) {
    && (forall i, j :: 0 <= i < j < |f.entries| ==> f.entries[i] < f.entries[j])
    && (forall x :: x in f.entries <==> x == f.entry || SomeSeedEnters(s, f.entry, x))
    && (f.cfg == None ==> f.ranges == [] && f.rangeBegin == 0 && f.rangeEnd == 0)
  }

  ghost predicate SomeSeedEnters(s: Setting, e: Address, x: Address) {
    exists k {:trigger SeedIsFor(s, k, e)} :: SeedIsFor(s, k, e) && s.input.seeds[k].entry == x
  }

  ghost predicate AllAreTold(s: Setting, b: Book, fs: seq<FunctionRecord>) {
    forall i :: 0 <= i < |fs| ==>
      IsTold(s, b, fs[i]) && IsRatedAsPublished(s, b, fs[i]) && MayBeEntered(s, fs[i])
  }

  /** What the map says besides being a valid listing of the records. */
  ghost predicate TellsTheBuild(s: Setting, b: Book, m: FunctionMap) {
    && AllAreTold(s, b, m.functions) && StrongSeedsCut(s, m.functions) && StrongSeedsAreTrusted(s, m.functions)
    && CalleesAreTrusted(s, m.functions) && MarksDisputes(m.functions)
  }

  lemma FirstIs(s: Setting, x: Address)
    ensures IsFirst(s, x) <==> x in FirstEntries(s)
  {
    hide IsPreset, IsStrongEntry, FirstEntries;
    FirstEntriesExactly(s, x);
  }

  lemma BasisIs(s: Setting, boundaries: seq<Address>, at: Knowledge)
    requires IsBasis(s, boundaries, at)
    ensures forall x :: x in at.entries <==> IsFirst(s, x) || x in boundaries[..at.count]
  {
    forall x
      ensures IsFirst(s, x) <==> x in FirstEntries(s)
    {
      FirstIs(s, x);
    }
    hide IsFirst, FirstEntries;
    forall x
      ensures x in at.entries <==> x in FirstEntries(s) || x in boundaries[..at.count]
    {
      if x in boundaries[..at.count] {
        var k :| 0 <= k < at.count && boundaries[k] == x;
      }
    }
  }

  lemma GraphIsTold(s: Setting, e: Address, g: Graph, known: set<Address>)
    requires s.input.guest.FetchesCode() && GraphIsFrom(s, e, g, known)
    ensures DescribesCode(s.input.guest, s.limits.(knownEntries := known), e, g)
  {
    hide Problem.IsAnalysis, DescribesCode, Problem.EntryError, GuestView.FetchesCode;
    AnalysisDescribesCode(s.ProblemAt(e, known), g);
  }

  lemma FunctionIsTold(s: Setting, b: Book, f: FunctionRecord)
    requires IsFit(s) && WasAnalyzed(s, b, f)
    ensures IsTold(s, b, f)
  {
    hide DescribesCode, IsFirst, GraphIsFrom, IsBasis, InputIsValid, GuestView.FetchesCode;
    if f.cfg.Some? {
      BasisIs(s, b.boundaries, b.basis[f.entry]);
      GraphIsTold(s, f.entry, f.cfg.value, b.basis[f.entry].entries);
      BasisCounts(s, b.boundaries, b.basis[f.entry]);
    }
  }

  lemma BasisCounts(s: Setting, boundaries: seq<Address>, at: Knowledge)
    requires IsBasis(s, boundaries, at)
    ensures at.count <= |boundaries|
  {
  }

  lemma ToldIsCut(s: Setting, b: Book, f: FunctionRecord, x: Address)
    requires IsTold(s, b, f) && f.cfg.Some? && IsFirst(s, x) && x != f.entry
    ensures CutsAt(f.cfg.value, x)
  {
    hide IsFirst, IsClosed, IsTarget, CallsAt, OpenAt, IsWhole;
    var g, o := f.cfg.value, s.limits.(knownEntries := b.basis[f.entry].entries);
    forall a | a in g.blocks && BranchesTo(g.blocks[a], x)
      ensures g.blocks[a].successors == [Edge(g.blocks[a].Last().address, x, FunctionTransfer, false)]
    {
      assert IsBlock(s.input.guest, o, f.entry, a, g.blocks[a]);
    }
  }

  lemma AllAreCut(s: Setting, b: Book, fs: seq<FunctionRecord>)
    requires AllAreTold(s, b, fs)
    ensures StrongSeedsCut(s, fs)
  {
    hide IsTold, IsFirst, CutsAt, IsRatedAsPublished, MayBeEntered;
    forall i, x | 0 <= i < |fs| && fs[i].cfg.Some? && IsFirst(s, x) && x != fs[i].entry
      ensures CutsAt(fs[i].cfg.value, x)
    {
      ToldIsCut(s, b, fs[i], x);
    }
  }

  // The ratings.

  lemma ListedRating(s: Setting, known: set<Address>, e: Address, r: FunctionRecord, f: FunctionRecord)
    requires IsRated(s, known, e, r) && f == WithSortedEntries(r)
    ensures IsRated(s, known, e, f) && (r.trust == Trusted ==> f.trust == Trusted)
  {
    hide Unique, SortAddresses, IsRated;
    RatingKnowsMore(s, known, known, e, r, f);
  }

  lemma MarkedRating(s: Setting, known: set<Address>, e: Address, r: FunctionRecord, f: FunctionRecord)
    requires IsRated(s, known, e, r) && f == Marked(WithSortedEntries(r))
    ensures exists c, t :: IsRated(s, known, e, f.(confidence := c, trust := t))
    ensures f.status == ConflictStatus && f.trust == ConflictTrust && f.confidence == ConflictConfidence
  {
    hide Unique, SortAddresses, IsRated;
    var g := f.(confidence := r.confidence, trust := r.trust);
    RatingKnowsMore(s, known, known, e, r, g);
    assert IsRated(s, known, e, f.(confidence := r.confidence, trust := r.trust));
  }

  lemma RecordStatus(s: Setting, b: Book, e: Address)
    requires Sound(s, b, None) && e in b.records
    ensures b.records[e].status != ConflictStatus
  {
    ProperAt(s, b.records, e);
    hide Ownable, Normalized, EntriesAreGiven;
  }

  lemma RecordIsRated(s: Setting, b: Book, e: Address)
    requires Rated(s, b) && e in b.records
    ensures IsRated(s, b.known, e, b.records[e])
  {
    hide IsRated, SeedIsFor;
  }

  lemma FunctionIsRated(s: Setting, b: Book, f: FunctionRecord)
    requires Sound(s, b, None) && Rated(s, b) && PublishesRecord(f, b.records)
    ensures IsRatedAsPublished(s, b, f)
    ensures f.entry in b.records && (b.records[f.entry].trust == Trusted ==> IsTrusted(f))
  {
    RecordOfPublished(f, b.records);
    RecordStatus(s, b, f.entry);
    RecordIsRated(s, b, f.entry);
    hide Sound, Rated, IsRated, Unique, SortAddresses;
    var r := b.records[f.entry];
    if f == WithSortedEntries(r) {
      ListedRating(s, b.known, f.entry, r, f);
    } else {
      MarkedRating(s, b.known, f.entry, r, f);
    }
  }

  lemma StrongFunctionIsTrusted(s: Setting, b: Book, f: FunctionRecord, k: int)
    requires Sound(s, b, None) && Rated(s, b) && PublishesRecord(f, b.records)
    requires SeedIsStrongFor(s, k, f.entry)
    ensures IsTrusted(f)
  {
    FunctionIsRated(s, b, f);
    RecordIsRated(s, b, f.entry);
    hide Sound, Rated, IsRated, PublishesRecord, IsRatedAsPublished, IsTrusted;
    StrongIsTrusted(s, b.known, k, f.entry, b.records[f.entry]);
  }

  /** The functions that a presentable record with a graph calls. */
  lemma PresentableCallees(s: Setting, b: Book, e: Address)
    requires Sound(s, b, None) && AllPresentable(s, b.records) && e in b.records && b.records[e].cfg.Some?
    ensures AllCallees(s, b.records, TargetsOf(b.records[e].cfg.value))
  {
    hide Counted, Traced, Recalled, CheckpointsCount, AllCallable, Ownable, FirstAreAlignedIn, TargetsOf, Normalized,
         CallsAreKnown, EntriesAreGiven, AllCallees;
    ProperAt(s, b.records, e);
    assert IsPresentable(s, b.records[e]);
    assert b.records[e].status.Analyzed?;
  }

  lemma CalleeIsTrusted(s: Setting, b: Book, f: FunctionRecord, g: FunctionRecord)
    requires Sound(s, b, None) && Rated(s, b) && AllPresentable(s, b.records)
    requires PublishesRecord(f, b.records) && PublishesRecord(g, b.records) && Calls(s, f, g.entry)
    ensures IsTrusted(g)
  {
    PublishedIsRecord(f, b.records);
    PresentableCallees(s, b, f.entry);
    TargetIsCalled(f.cfg.value, g.entry);
    FunctionIsRated(s, b, g);
    hide Sound, Rated, AllPresentable, PublishesRecord, IsRatedAsPublished, IsTrusted, TargetsOf, CallsDirectly;
    assert IsCallee(b.records[g.entry]);
  }

  // The entries.

  lemma SeedEntriesAre(s: Setting, e: Address, x: Address)
    ensures IsSeedEntry(s, e, x) <==> SomeSeedEnters(s, e, x)
  {
    forall k | 0 <= k < |s.input.seeds|
      ensures IsSeedOf(s, s.input.seeds[k], e, x) <==> SeedIsFor(s, k, e) && s.input.seeds[k].entry == x
    {
      IncludedIs(s.options, s.input.seeds[k]);
    }
    hide IsSeedOf, IsIncluded, IsFor;
    if k :| SeedIsFor(s, k, e) && s.input.seeds[k].entry == x {
      assert IsSeedOf(s, s.input.seeds[k], e, x);
    }
    if k :| 0 <= k < |s.input.seeds| && IsSeedOf(s, s.input.seeds[k], e, x) {
      assert SeedIsFor(s, k, e);
    }
  }

  lemma MayEnterIs(s: Setting, e: Address, x: Address)
    ensures MayEnter(s, e, x) <==> x == e || SomeSeedEnters(s, e, x)
  {
    hide IsSeedEntry, SomeSeedEnters;
    SeedEntriesAre(s, e, x);
  }

  lemma EntriesAreInOrder(f: FunctionRecord, records: map<Address, FunctionRecord>)
    requires PublishesRecord(f, records)
    ensures forall i, j :: 0 <= i < j < |f.entries| ==> f.entries[i] < f.entries[j]
  {
    UniqueKeeps(SortAddresses(records[f.entry].entries));
    hide Unique, SortAddresses;
  }

  lemma BareOwnsNothing(s: Setting, b: Book, f: FunctionRecord)
    requires Sound(s, b, None) && PublishesRecord(f, b.records) && f.cfg == None
    ensures f.ranges == [] && f.rangeBegin == 0 && f.rangeEnd == 0
  {
    ProperAt(s, b.records, f.entry);
    hide Sound, Unique, SortAddresses, Ownable, EntriesAreGiven;
  }

  lemma FunctionIsEntered(s: Setting, b: Book, f: FunctionRecord)
    requires Sound(s, b, None) && SeedsAreRecorded(s, b.records, |s.input.seeds|) && PublishesRecord(f, b.records)
    ensures MayBeEntered(s, f)
  {
    hide Sound, SeedsAreRecorded, PublishesRecord, SomeSeedEnters, IsSeedEntry, MayEnter;
    RecordOfPublished(f, b.records);
    PublishedEntries(f, b.records);
    EntriesAreInOrder(f, b.records);
    if f.cfg == None {
      BareOwnsNothing(s, b, f);
    }
    forall x
      ensures x in f.entries <==> x == f.entry || SomeSeedEnters(s, f.entry, x)
    {
      EntriesAreExact(s, b, f.entry, x);
      MayEnterIs(s, f.entry, x);
    }
  }

  // The marks.

  ghost predicate NoneIsMarked(fs: seq<FunctionRecord>) { forall i :: 0 <= i < |fs| ==> fs[i].status != ConflictStatus }

  lemma ListedAreUnmarked(s: Setting, b: Book, fs: seq<FunctionRecord>)
    requires Sound(s, b, None) && ListsRecords(fs, b.records, {})
    ensures NoneIsMarked(fs)
  {
    hide Sound, Unique, SortAddresses;
    forall i | 0 <= i < |fs|
      ensures fs[i].status != ConflictStatus
    {
      RecordStatus(s, b, fs[i].entry);
    }
  }

  lemma NamedIsDisputed(fs: seq<FunctionRecord>, conflicts: seq<BoundaryConflict>, i: nat)
    requires SortedByEntry(fs) && ConflictsAreExact(fs, conflicts) && i < |fs| && NamedIn(conflicts, fs[i].entry)
    ensures exists j :: Disputed(fs, i, j) || Disputed(fs, j, i)
  {
    hide IsIntersection, Overlap;
    var k :| 0 <= k < |conflicts| && (conflicts[k].first == fs[i].entry || conflicts[k].second == fs[i].entry);
    assert RecordsPair(fs, conflicts[k], |fs|, |fs|);
    var p, q :| Records(fs, p, q, conflicts[k]) && Before(p, q, |fs|, |fs|);
    RecordedIsDisputed(fs, p, q, conflicts[k]);
    SameEntrySameFunction(fs, i, if conflicts[k].first == fs[i].entry then p else q);
  }

  lemma RecordedIsDisputed(fs: seq<FunctionRecord>, p: int, q: int, c: BoundaryConflict)
    requires Records(fs, p, q, c)
    ensures Disputed(fs, p, q)
  {
    hide Normalized, Owns;
    FirstOwned(c.overlap);
  }

  lemma FirstOwned(rs: seq<Range>)
    requires Normalized(rs) && rs != []
    ensures Owns(rs, rs[0].base)
  {
    assert IsCodeRange(rs[0]) && Covers(rs[0], rs[0].base);
  }

  /** Marking leaves the marks on the functions with a dispute, and on no others. */
  lemma MarkingMarksDisputes(fs: seq<FunctionRecord>, marked: seq<FunctionRecord>, conflicts: seq<BoundaryConflict>)
    requires SortedByEntry(fs) && ConflictsAreExact(fs, conflicts) && IsMarking(fs, marked, conflicts) && NoneIsMarked(fs)
    requires forall i, j :: Disputed(marked, i, j) ==> IsMarked(marked[i]) && IsMarked(marked[j])
    ensures MarksDisputes(marked)
  {
    hide ConflictsAreExact, NamedIn, Overlap;
    forall i, j
      ensures Disputed(fs, i, j) <==> Disputed(marked, i, j)
    {
    }
    forall i | 0 <= i < |marked| && marked[i].status == ConflictStatus
      ensures exists j :: Disputed(marked, i, j) || Disputed(marked, j, i)
    {
      NamedIsDisputed(fs, conflicts, i);
    }
  }

  lemma ValidMarks(m: FunctionMap)
    requires IsValid(m)
    ensures forall i, j :: Disputed(m.functions, i, j) ==> IsMarked(m.functions[i]) && IsMarked(m.functions[j])
  {
    hide FunctionsAreValid, ConflictsAreExact, Disputed;
  }

  /** A listing of the records in which a function fails a check of the final validation, with the code. */
  ghost predicate IsRejected(s: Setting, records: map<Address, FunctionRecord>, code: ErrorCode) {
    exists m :: IsRejectedListing(s, records, m, code)
  }

  ghost predicate IsRejectedListing(s: Setting, records: map<Address, FunctionRecord>, m: FunctionMap, code: ErrorCode) {
    Publishes(m.functions, records) && m.executable == s.input.executable && SomeFunctionFaults(m, code)
  }

  lemma RejectionIs(s: Setting, records: map<Address, FunctionRecord>, m: FunctionMap, code: ErrorCode)
    requires Publishes(m.functions, records) && m.executable == s.input.executable && m.frozen && ConflictsAreValid(m)
    requires !IsValid(m) && (!FunctionsAreValid(m) ==> SomeFunctionFaults(m, code))
    ensures IsRejected(s, records, code)
  {
    hide Publishes, ConflictsAreValid, FunctionsAreValid, SomeFunctionFaults;
    assert IsRejectedListing(s, records, m, code);
  }

  /** What the map of a settled build tells. */
  lemma SettledTells(s: Setting, b: Book, m: FunctionMap)
    requires IsFit(s) && Sound(s, b, None) && Rated(s, b) && AllPresentable(s, b.records)
    requires SeedsAreRecorded(s, b.records, |s.input.seeds|)
    requires IsPublished(s, b, m) && MarksDisputes(m.functions)
    ensures TellsTheBuild(s, b, m)
  {
    var fs := m.functions;
    hide IsFit, Sound, Rated, AllPresentable, IsPublished, PublishesRecord, WasAnalyzed, IsTold, IsRatedAsPublished, IsTrusted,
         Calls, SeedIsStrongFor, MarksDisputes, StrongSeedsCut, MayBeEntered, SeedsAreRecorded;
    forall i | 0 <= i < |fs|
      ensures PublishesRecord(fs[i], b.records) && WasAnalyzed(s, b, fs[i])
    {
      PublishedAt(s, b, m, i);
    }
    forall i | 0 <= i < |fs|
      ensures IsTold(s, b, fs[i]) && IsRatedAsPublished(s, b, fs[i]) && MayBeEntered(s, fs[i])
    {
      FunctionIsEntered(s, b, fs[i]);
      FunctionIsTold(s, b, fs[i]);
      FunctionIsRated(s, b, fs[i]);
    }
    AllAreCut(s, b, fs);
    forall i, k | 0 <= i < |fs| && SeedIsStrongFor(s, k, fs[i].entry)
      ensures IsTrusted(fs[i])
    {
      StrongFunctionIsTrusted(s, b, fs[i], k);
    }
    forall i, j | 0 <= i < |fs| && 0 <= j < |fs| && Calls(s, fs[i], fs[j].entry)
      ensures IsTrusted(fs[j])
    {
      CalleeIsTrusted(s, b, fs[i], fs[j]);
    }
  }

  lemma PublishedAt(s: Setting, b: Book, m: FunctionMap, i: nat)
    requires IsPublished(s, b, m) && i < |m.functions|
    ensures PublishesRecord(m.functions[i], b.records) && WasAnalyzed(s, b, m.functions[i])
  {
    hide IsValid, PublishesRecord, WasAnalyzed, CallsArePublished, StaleExactlyIfMissed, IsFresh, ListsEntry;
    PublishedRecordAt(m.functions, b.records, i);
    assert IsPublishedFunction(s, b, m.functions, m.functions[i]);
  }
}
