/** What a build publishes: the listing of the finished records, when it is valid, and what holds of it. */
module FunctionPublication {
  import opened Common
  import opened ControlFlow
  import opened CodeRanges
  import opened CfgTheorems
  import opened GraphValidation
  import opened FunctionRecords
  import opened FunctionMaps
  import opened FunctionDiscovery
  import opened BuildSteps
  import opened BuildInvariant
  import opened BuildRuns
  import opened Finalization
  import ProcessIndex

  function WithSortedEntries(f: FunctionRecord): FunctionRecord {
    f.(entries := Unique(SortAddresses(f.entries)))
  }

  /** The list holds the finished records of all entries but those in `missing`. */
  ghost predicate ListsRecords(fs: seq<FunctionRecord>, records: map<Address, FunctionRecord>, missing: set<Address>) {
    && (forall i :: 0 <= i < |fs| ==> fs[i].entry in records && fs[i] == WithSortedEntries(records[fs[i].entry]))
    && (forall e :: e in records && e !in missing ==> ListsEntry(fs, e))
  }

  ghost predicate ListsEntry(fs: seq<FunctionRecord>, e: Address) {
    exists i :: 0 <= i < |fs| && fs[i].entry == e
  }

  /** The listing so far, in order; what is missing comes later. */
  ghost predicate Listing(fs: seq<FunctionRecord>, records: map<Address, FunctionRecord>, missing: set<Address>) {
    && (forall x :: x in missing ==> x in records)
    && (forall i, x :: 0 <= i < |fs| && x in missing ==> fs[i].entry < x)
    && SortedByEntry(fs) && ListsRecords(fs, records, missing)
    && (forall i :: 0 <= i < |fs| ==> Normalized(fs[i].ranges))
  }

  lemma ListNextRecord(s: Setting, fs: seq<FunctionRecord>, records: map<Address, FunctionRecord>, missing: set<Address>,
                       e: Address)
    requires Proper(s, records) && Listing(fs, records, missing) && missing != {} && e == Least(missing)
    ensures Listing(fs + [WithSortedEntries(records[e])], records, missing - {e})
  {
    assert Normalized(records[e].ranges) && records[e].entry == e by {
      ProperAt(s, records, e);
    }
    hide Proper, Normalized, ListsRecords, SortedByEntry, Unique, SortAddresses;
    assert WithSortedEntries(records[e]).ranges == records[e].ranges;
    NextIsSorted(fs, WithSortedEntries(records[e]));
    NextIsListed(fs, records, missing, e);
  }

  lemma NextIsSorted(fs: seq<FunctionRecord>, f: FunctionRecord)
    requires SortedByEntry(fs) && forall i :: 0 <= i < |fs| ==> fs[i].entry < f.entry
    ensures SortedByEntry(fs + [f])
  {
  }

  lemma NextIsListed(fs: seq<FunctionRecord>, records: map<Address, FunctionRecord>, missing: set<Address>, e: Address)
    requires ListsRecords(fs, records, missing) && e in records && records[e].entry == e
    ensures ListsRecords(fs + [WithSortedEntries(records[e])], records, missing - {e})
  {
    hide ListsEntry, Unique, SortAddresses;
    forall x | x in records && x !in missing - {e}
      ensures ListsEntry(fs + [WithSortedEntries(records[e])], x)
    {
      ListsMore(fs, WithSortedEntries(records[e]), x);
    }
  }

  lemma ListsMore(fs: seq<FunctionRecord>, f: FunctionRecord, x: Address)
    requires ListsEntry(fs, x) || f.entry == x
    ensures ListsEntry(fs + [f], x)
  {
    if i :| 0 <= i < |fs| && fs[i].entry == x {
      assert (fs + [f])[i].entry == x;
    } else {
      assert (fs + [f])[|fs|].entry == x;
    }
  }

  /** Every record appears, by increasing entry, as it is or marked as part of a conflict. */
  ghost predicate Publishes(fs: seq<FunctionRecord>, records: map<Address, FunctionRecord>) {
    && SortedByEntry(fs)
    && (forall i :: 0 <= i < |fs| ==> PublishesRecord(fs[i], records))
    && (forall e :: e in records ==> ListsEntry(fs, e))
  }

  ghost predicate PublishesRecord(f: FunctionRecord, records: map<Address, FunctionRecord>) {
    && f.entry in records
    && (f == WithSortedEntries(records[f.entry])
        || (f == Marked(WithSortedEntries(records[f.entry])) && records[f.entry].cfg.Some?))
  }

  lemma NamedHasGraph(fs: seq<FunctionRecord>, conflicts: seq<BoundaryConflict>, i: nat)
    requires SortedByEntry(fs) && ConflictsAreExact(fs, conflicts) && i < |fs| && NamedIn(conflicts, fs[i].entry)
    ensures fs[i].cfg.Some?
  {
    var k :| 0 <= k < |conflicts| && (conflicts[k].first == fs[i].entry || conflicts[k].second == fs[i].entry);
    assert RecordsPair(fs, conflicts[k], |fs|, |fs|);
    var p, q :| Records(fs, p, q, conflicts[k]) && Before(p, q, |fs|, |fs|);
    SameEntrySameFunction(fs, i, if conflicts[k].first == fs[i].entry then p else q);
  }

  lemma MarkingPublishes(fs: seq<FunctionRecord>, marked: seq<FunctionRecord>, conflicts: seq<BoundaryConflict>,
                         records: map<Address, FunctionRecord>)
    requires SortedByEntry(fs) && ListsRecords(fs, records, {}) && IsMarking(fs, marked, conflicts)
    requires ConflictsAreExact(fs, conflicts)
    ensures Publishes(marked, records)
  {
    hide ConflictsAreExact, NamedIn, Unique, SortAddresses;
    forall i | 0 <= i < |marked|
      ensures PublishesRecord(marked[i], records)
    {
      if NamedIn(conflicts, fs[i].entry) {
        NamedHasGraph(fs, conflicts, i);
      }
    }
    forall e | e in records
      ensures ListsEntry(marked, e)
    {
      MarkedIsListed(fs, marked, conflicts, e);
    }
  }

  lemma MarkedIsListed(fs: seq<FunctionRecord>, marked: seq<FunctionRecord>, conflicts: seq<BoundaryConflict>, e: Address)
    requires IsMarking(fs, marked, conflicts) && ListsEntry(fs, e)
    ensures ListsEntry(marked, e)
  {
    hide NamedIn;
    var i :| 0 <= i < |fs| && fs[i].entry == e;
    assert marked[i].entry == e;
  }

  lemma EntriesAreInside(s: Setting, fs: seq<FunctionRecord>, records: map<Address, FunctionRecord>)
    requires Proper(s, records) && Publishes(fs, records)
    ensures forall i :: 0 <= i < |fs| ==> s.input.InRange(fs[i].entry)
  {
    AllAreEntries(s, records);
    hide Proper;
    forall i | 0 <= i < |fs|
      ensures s.input.InRange(fs[i].entry)
    {
      assert PublishesRecord(fs[i], records);
      assert s.input.IsEntry(fs[i].entry);
    }
  }

  // When the published map is valid.

  ghost predicate ShareAnEntry(f: FunctionRecord, g: FunctionRecord) {
    exists x :: x in f.entries && x in g.entries
  }

  ghost predicate NoneShare(records: map<Address, FunctionRecord>) {
    forall a, b :: a in records && b in records && a != b ==> !ShareAnEntry(records[a], records[b])
  }

  /** The entries known from the start that lie in the function's code are aligned. */
  ghost predicate FirstAreAlignedIn(s: Setting, f: FunctionRecord) {
    forall x :: x in FirstEntries(s) && ContainsAny(f.ranges, x, 4) ==> x % 4 == 0
  }

  /** The function has lost its graph, or has not failed and no misaligned entry given from outside lies in it. */
  ghost predicate IsPresentable(s: Setting, f: FunctionRecord) {
    f.cfg.Some? ==> !f.status.Failed? && FirstAreAlignedIn(s, f)
  }

  ghost predicate AllPresentable(s: Setting, records: map<Address, FunctionRecord>) {
    forall e {:trigger records[e]} :: e in records ==> IsPresentable(s, records[e])
  }

  /** The condition under which the final validation accepts. */
  ghost predicate Publishable(s: Setting, records: map<Address, FunctionRecord>) {
    NoneShare(records) && AllPresentable(s, records)
  }

  // The entries listed in a function.

  ghost predicate IsListed(f: FunctionRecord) {
    && (forall i, j :: 0 <= i < j < |f.dependencies| ==> f.dependencies[i] < f.dependencies[j])
    && (forall i :: 0 <= i < |f.dependencies| ==> ContainsAny(f.ranges, f.dependencies[i], 4))
  }

  ghost predicate DependenciesAreAligned(f: FunctionRecord) {
    forall i :: 0 <= i < |f.dependencies| ==> f.dependencies[i] % 4 == 0
  }

  lemma OwnedAre(ranges: seq<Range>, known: set<Address>)
    ensures forall x :: x in OwnedEntries(ranges, known) <==> x in known && ContainsAny(ranges, x, 4)
    ensures forall i, j :: 0 <= i < j < |OwnedEntries(ranges, known)| ==>
              OwnedEntries(ranges, known)[i] < OwnedEntries(ranges, known)[j]
  {
    hide ContainsAny;
  }

  lemma ListIs(f: FunctionRecord, known: set<Address>)
    requires f.dependencies == OwnedEntries(f.ranges, known)
    ensures IsListed(f)
    ensures DependenciesAreAligned(f) <==> forall x :: x in known && ContainsAny(f.ranges, x, 4) ==> x % 4 == 0
  {
    OwnedAre(f.ranges, known);
    hide ContainsAny, OwnedEntries;
    forall i | 0 <= i < |f.dependencies|
      ensures f.dependencies[i] in known && ContainsAny(f.ranges, f.dependencies[i], 4)
    {
      assert f.dependencies[i] in f.dependencies;
    }
    forall x | DependenciesAreAligned(f) && x in known && ContainsAny(f.ranges, x, 4)
      ensures x % 4 == 0
    {
      assert x in f.dependencies;
    }
  }

  /** An analyzed function lists, of the entries in its code, exactly those that were known when its graph was
      stored: all that were known from the start, and then only aligned ones. */
  lemma FirstAreListed(s: Setting, b: Book, e: Address)
    requires Sound(s, b, None) && e in b.records && b.records[e].status.Analyzed?
    ensures IsListed(b.records[e])
    ensures forall x :: x in FirstEntries(s) && ContainsAny(b.records[e].ranges, x, 4) ==> x in b.records[e].dependencies
    ensures forall x :: x in b.records[e].dependencies ==> x in FirstEntries(s) || (x in b.boundaries && x % 4 == 0)
    ensures DependenciesAreAligned(b.records[e]) <==> FirstAreAlignedIn(s, b.records[e])
  {
    var f := b.records[e];
    assert IsRecalled(s, b.boundaries, b.basis, e, f);
    var m: nat :| e in b.basis && b.basis[e].count <= m && ListsKnown(s, b.boundaries, f, m);
    hide Proper, Recalled, CheckpointsCount, Closed, AllCallable, IsRecalled, FirstEntries, ContainsAny, OwnedEntries, IsListed,
         DependenciesAreAligned;
    ListIs(f, KnownBy(s, b.boundaries, m));
    OwnedAre(f.ranges, KnownBy(s, b.boundaries, m));
  }

  lemma SameAlignment(r: Range, a: Address)
    requires IsCodeRange(r)
    ensures (a - r.base) % 4 == 0 <==> a % 4 == 0
  {
  }

  lemma AlignedIsOwned(f: FunctionRecord, a: Address)
    requires Normalized(f.ranges) && ContainsAny(f.ranges, a, 4)
    ensures OwnsAddress(f, a) <==> a % 4 == 0
  {
    hide IsCodeRange;
    var i :| 0 <= i < |f.ranges| && f.ranges[i].Holds(a, 4);
    assert f.ranges[i].Contains(a);
    SameAlignment(f.ranges[i], a);
    if k :| 0 <= k < |f.ranges| && f.ranges[k].Contains(a) && (a - f.ranges[k].base) % 4 == 0 {
      SameAlignment(f.ranges[k], a);
    }
  }

  lemma ListedIsOwned(f: FunctionRecord)
    requires Normalized(f.ranges) && IsListed(f)
    ensures DependenciesAreOwned(f) <==> DependenciesAreAligned(f)
  {
    hide Normalized, ContainsAny, OwnsAddress;
    forall i | 0 <= i < |f.dependencies|
      ensures OwnsAddress(f, f.dependencies[i]) <==> f.dependencies[i] % 4 == 0
    {
      AlignedIsOwned(f, f.dependencies[i]);
    }
  }

  lemma AnalyzedCode(s: Setting, e: Address, f: FunctionRecord)
    requires RecordIsProper(s, e, f) && f.status.Analyzed? && WellFormed(f.cfg.value) && IsListed(f)
    ensures CodeIsValid(s.input.executable, f) <==> DependenciesAreAligned(f)
  {
    hide WellFormed, Ownable, DependenciesAreOwned, DependenciesAreAligned, IsListed, EntriesAreGiven, HasCode, TargetsOf;
    ListedIsOwned(f);
    CodeIsOwned(f, f.cfg.value, s.input.executable);
  }

  lemma FailedCode(s: Setting, e: Address, f: FunctionRecord)
    requires RecordIsProper(s, e, f) && f.status.Failed? && f.cfg.Some?
    ensures !CodeIsValid(s.input.executable, f)
  {
    hide WellFormed, DependenciesAreOwned, EntriesAreGiven, HasCode;
    if Describes(f.cfg.value, f.ranges) {
      RangesAreUnique(f.cfg.value, f.ranges);
    }
  }

  lemma RecordGraphIsWellFormed(s: Setting, b: Book, e: Address)
    requires Sound(s, b, None) && e in b.records && b.records[e].cfg.Some?
    ensures WellFormed(b.records[e].cfg.value)
  {
    assert IsRecalled(s, b.boundaries, b.basis, e, b.records[e]);
    hide WellFormed, Problem.IsAnalysis, IsBasis, ListsKnown;
    AnalysisIsWellFormed(s.ProblemAt(e, b.basis[e].entries), b.records[e].cfg.value);
  }

  /** The code of a record is valid exactly when the record is presentable. */
  lemma RecordCodeIsValid(s: Setting, b: Book, e: Address)
    requires Sound(s, b, None) && e in b.records
    ensures CodeIsValid(s.input.executable, b.records[e]) <==> IsPresentable(s, b.records[e])
  {
    ProperAt(s, b.records, e);
    hide WellFormed, Ownable, OwnsItsCode, Fits, DependenciesAreOwned, DependenciesAreAligned, FirstAreAlignedIn, IsListed,
         EntriesAreGiven, Sound, Normalized, WithCode;
    var f := b.records[e];
    if f.cfg.Some? {
      if f.status.Analyzed? {
        FirstAreListed(s, b, e);
        RecordGraphIsWellFormed(s, b, e);
        AnalyzedCode(s, e, f);
      } else {
        FailedCode(s, e, f);
      }
    }
  }

  ghost predicate SameCode(f: FunctionRecord, g: FunctionRecord) {
    && f.cfg == g.cfg && f.ranges == g.ranges && f.rangeBegin == g.rangeBegin && f.rangeEnd == g.rangeEnd
    && f.dependencies == g.dependencies
  }

  lemma SameCodeSameValidity(executable: seq<Range>, f: FunctionRecord, g: FunctionRecord)
    requires SameCode(f, g)
    ensures CodeIsValid(executable, f) <==> CodeIsValid(executable, g)
  {
    hide WellFormed, Describes, Fits, HasCode;
    forall a
      ensures OwnsAddress(f, a) <==> OwnsAddress(g, a)
    {
    }
  }

  lemma SortedEntries(f: FunctionRecord)
    ensures forall x :: x in WithSortedEntries(f).entries <==> x in f.entries
    ensures forall i, j :: 0 <= i < j < |WithSortedEntries(f).entries| ==>
              WithSortedEntries(f).entries[i] != WithSortedEntries(f).entries[j]
  {
    UniqueKeeps(SortAddresses(f.entries));
  }

  lemma PublishedIdentity(s: Setting, e: Address, g: FunctionRecord, m: FunctionMap, f: FunctionRecord)
    requires RecordIsProper(s, e, g) && m.executable == s.input.executable
    requires f == WithSortedEntries(g) || f == Marked(WithSortedEntries(g))
    ensures IdentityIsComplete(f) && EntriesAreValid(m, f) && SameCode(f, g)
  {
    SortedEntries(g);
    hide Ownable, Normalized, WithCode, Unique, SortAddresses, IsSeedEntry;
    assert e in f.entries;
    forall k | 0 <= k < |f.entries|
      ensures EntryIsValid(m, f.entries[k])
    {
      assert f.entries[k] in WithSortedEntries(g).entries;
      assert s.input.IsEntry(f.entries[k]);
    }
  }

  /** A published function passes its checks exactly when its record is presentable. */
  lemma FunctionIsValidExactly(s: Setting, b: Book, m: FunctionMap, f: FunctionRecord)
    requires Sound(s, b, None) && PublishesRecord(f, b.records) && m.executable == s.input.executable
    ensures FunctionIsValid(m, f) <==> IsPresentable(s, b.records[f.entry])
  {
    var g := b.records[f.entry];
    SoundIsProper(s, b);
    hide Sound, Proper, RecordIsProper, CodeIsValid, IsPresentable, IdentityIsComplete, EntriesAreValid, SameCode,
         Marked, WithSortedEntries;
    ProperAt(s, b.records, f.entry);
    PublishedIdentity(s, f.entry, g, m, f);
    RecordCodeIsValid(s, b, f.entry);
    SameCodeSameValidity(s.input.executable, f, g);
  }

  ghost predicate EntriesAreApart(fs: seq<FunctionRecord>) {
    forall i, j, e :: 0 <= i < j < |fs| && e in fs[i].entries ==> e !in fs[j].entries
  }

  lemma PublishedEntries(f: FunctionRecord, records: map<Address, FunctionRecord>)
    requires PublishesRecord(f, records)
    ensures forall x :: x in f.entries <==> x in records[f.entry].entries
  {
    SortedEntries(records[f.entry]);
  }

  lemma ApartMeansNoneShare(fs: seq<FunctionRecord>, records: map<Address, FunctionRecord>)
    requires Publishes(fs, records) && EntriesAreApart(fs) && forall e :: e in records ==> records[e].entry == e
    ensures NoneShare(records)
  {
    hide PublishesRecord, ShareAnEntry;
    forall a, b | a in records && b in records && a != b
      ensures !ShareAnEntry(records[a], records[b])
    {
      var i :| 0 <= i < |fs| && fs[i].entry == a;
      var j :| 0 <= j < |fs| && fs[j].entry == b;
      PublishedEntries(fs[i], records);
      PublishedEntries(fs[j], records);
      if i < j {
        PairDoesNotShare(fs[i], fs[j], records[a], records[b]);
      } else {
        PairDoesNotShare(fs[j], fs[i], records[b], records[a]);
      }
    }
  }

  lemma PairDoesNotShare(f: FunctionRecord, g: FunctionRecord, r: FunctionRecord, t: FunctionRecord)
    requires forall e :: e in f.entries ==> e !in g.entries
    requires forall x :: (x in f.entries <==> x in r.entries) && (x in g.entries <==> x in t.entries)
    ensures !ShareAnEntry(r, t) && !ShareAnEntry(t, r)
  {
  }

  lemma NoneShareMeansApart(fs: seq<FunctionRecord>, records: map<Address, FunctionRecord>)
    requires Publishes(fs, records) && NoneShare(records)
    ensures EntriesAreApart(fs)
  {
    hide PublishesRecord;
    forall i, j, e | 0 <= i < j < |fs| && e in fs[i].entries
      ensures e !in fs[j].entries
    {
      PublishedEntries(fs[i], records);
      PublishedEntries(fs[j], records);
      RecordOfPublished(fs[i], records);
      RecordOfPublished(fs[j], records);
      assert fs[i].entry != fs[j].entry;
      assert !ShareAnEntry(records[fs[i].entry], records[fs[j].entry]);
    }
  }

  lemma RecordOfPublished(f: FunctionRecord, records: map<Address, FunctionRecord>)
    requires PublishesRecord(f, records)
    ensures f.entry in records
  {
  }

  lemma AllValidMeansPresentable(s: Setting, b: Book, m: FunctionMap)
    requires Sound(s, b, None) && Publishes(m.functions, b.records) && m.executable == s.input.executable
    ensures (forall i :: 0 <= i < |m.functions| ==> FunctionIsValid(m, m.functions[i])) <==> AllPresentable(s, b.records)
  {
    hide Sound, FunctionIsValid, PublishesRecord, IsPresentable;
    forall i | 0 <= i < |m.functions|
      ensures m.functions[i].entry in b.records
      ensures FunctionIsValid(m, m.functions[i]) <==> IsPresentable(s, b.records[m.functions[i].entry])
    {
      RecordOfPublished(m.functions[i], b.records);
      FunctionIsValidExactly(s, b, m, m.functions[i]);
    }
    forall e | e in b.records && forall i :: 0 <= i < |m.functions| ==> FunctionIsValid(m, m.functions[i])
      ensures IsPresentable(s, b.records[e])
    {
      var i :| 0 <= i < |m.functions| && m.functions[i].entry == e;
    }
  }

  lemma EntriesAreKeys(s: Setting, b: Book)
    requires Sound(s, b, None)
    ensures forall e :: e in b.records ==> b.records[e].entry == e
  {
    forall e | e in b.records
      ensures b.records[e].entry == e
    {
      ProperAt(s, b.records, e);
    }
  }

  /** The final validation of a build accepts if, and only if, no two functions share an entry, no failed
      function has kept a graph, and no misaligned entry given from outside lies in a function. */
  lemma ValidExactly(s: Setting, b: Book, m: FunctionMap)
    requires Sound(s, b, None) && Publishes(m.functions, b.records) && m.executable == s.input.executable
    requires m.frozen && ConflictsAreValid(m)
    ensures IsValid(m) <==> Publishable(s, b.records)
  {
    EntriesAreKeys(s, b);
    AllValidMeansPresentable(s, b, m);
    hide Sound, FunctionIsValid, AllPresentable, ConflictsAreValid, PublishesRecord, NoneShare, EntriesAreApart;
    if NoneShare(b.records) {
      NoneShareMeansApart(m.functions, b.records);
    }
    if EntriesAreApart(m.functions) {
      ApartMeansNoneShare(m.functions, b.records);
    }
    ValidFunctionsAre(m);
  }

  lemma ValidFunctionsAre(m: FunctionMap)
    requires SortedByEntry(m.functions)
    ensures FunctionsAreValid(m) <==>
            EntriesAreApart(m.functions) && forall i :: 0 <= i < |m.functions| ==> FunctionIsValid(m, m.functions[i])
  {
    hide FunctionIsValid;
  }

  // What holds of a published map.

  /** The function's graph, or its failure, is what an analysis gave that knew the first of the boundaries. */
  ghost predicate WasAnalyzed(s: Setting, b: Book, f: FunctionRecord) {
    f.cfg.Some? || f.status.Failed? ==>
      && f.entry in b.basis && IsBasis(s, b.boundaries, b.basis[f.entry])
      && IsOutcome(s, f.entry, f.cfg, b.basis[f.entry].entries)
  }

  /** The graph is not the one for the final entries exactly when its function misses a boundary. */
  ghost predicate StaleExactlyIfMissed(s: Setting, b: Book, f: FunctionRecord) {
    f.cfg.Some? ==>
      (!GraphIsFrom(s, f.entry, f.cfg.value, b.known) <==> Misses(s, b, f.entry, |b.boundaries|))
  }

  ghost predicate IsFresh(s: Setting, b: Book, f: FunctionRecord) {
    f.cfg.Some? ==> GraphIsFrom(s, f.entry, f.cfg.value, b.known)
  }

  /** The in-range calls of the function are known entries and published functions. */
  ghost predicate CallsArePublished(s: Setting, b: Book, fs: seq<FunctionRecord>, f: FunctionRecord) {
    f.cfg.Some? ==>
      forall t :: CallsDirectly(f.cfg.value, t) && s.input.InRange(t) ==> t in b.known && ListsEntry(fs, t)
  }

  ghost predicate IsPublishedFunction(s: Setting, b: Book, fs: seq<FunctionRecord>, f: FunctionRecord) {
    && IsCallable(s, f.entry) && WasAnalyzed(s, b, f) && StaleExactlyIfMissed(s, b, f)
    && CallsArePublished(s, b, fs, f)
    && (b.passes == 1 ==> IsFresh(s, b, f))
  }

  ghost predicate SeedsArePublished(s: Setting, fs: seq<FunctionRecord>) {
    forall k :: 0 <= k < |s.input.seeds| && s.options.Includes(s.input.seeds[k]) ==>
      ListsEntry(fs, s.input.seeds[k].Canonical())
  }

  /** What a finished build has published: every function is listed, and the graphs are genuine. */
  ghost predicate IsPublished(s: Setting, b: Book, m: FunctionMap) {
    && IsValid(m) && m.name == s.input.name && m.executable == s.input.executable
    && Publishes(m.functions, b.records) && SeedsArePublished(s, m.functions)
    && (forall i :: 0 <= i < |m.functions| ==> IsPublishedFunction(s, b, m.functions, m.functions[i]))
  }

  lemma PublishedIsRecord(f: FunctionRecord, records: map<Address, FunctionRecord>)
    requires PublishesRecord(f, records)
    ensures f.entry in records && f.cfg == records[f.entry].cfg
    ensures f.status.Failed? ==> records[f.entry].status.Failed?
  {
    hide Unique, SortAddresses;
  }

  lemma PublishedCalls(s: Setting, b: Book, fs: seq<FunctionRecord>, f: FunctionRecord)
    requires Sound(s, b, None) && AllPresentable(s, b.records) && Publishes(fs, b.records)
    requires f.entry in b.records && f.cfg == b.records[f.entry].cfg
    ensures CallsArePublished(s, b, fs, f)
  {
    hide Sound, Publishes, AllPresentable, ModuleInput.InRange, TargetsOf, CallsDirectly, ListsEntry;
    if f.cfg.Some? {
      PresentableCalls(s, b, f.entry);
      forall t | CallsDirectly(f.cfg.value, t) && s.input.InRange(t)
        ensures t in b.known && ListsEntry(fs, t)
      {
        TargetIsCalled(f.cfg.value, t);
        RecordIsListed(fs, b.records, t);
      }
    }
  }

  /** A presentable record with a graph is analyzed, so its calls are known. */
  lemma PresentableCalls(s: Setting, b: Book, e: Address)
    requires Sound(s, b, None) && AllPresentable(s, b.records) && e in b.records && b.records[e].cfg.Some?
    ensures CallsAreKnown(s, b, TargetsOf(b.records[e].cfg.value))
  {
    hide Counted, Traced, Recalled, CheckpointsCount, AllCallable, Ownable, FirstAreAlignedIn, TargetsOf, Normalized,
         CallsAreKnown, EntriesAreGiven;
    ProperAt(s, b.records, e);
    assert IsPresentable(s, b.records[e]);
    assert b.records[e].status.Analyzed?;
  }

  lemma RecordIsListed(fs: seq<FunctionRecord>, records: map<Address, FunctionRecord>, e: Address)
    requires Publishes(fs, records)
    ensures e in records ==> ListsEntry(fs, e)
  {
    hide PublishesRecord, ListsEntry;
  }

  lemma PublishedWasAnalyzed(s: Setting, b: Book, f: FunctionRecord)
    requires Sound(s, b, None) && f.entry in b.records && f.cfg == b.records[f.entry].cfg
    requires f.status.Failed? ==> b.records[f.entry].status.Failed?
    ensures WasAnalyzed(s, b, f) && IsCallable(s, f.entry)
  {
    hide Proper, Counted, Traced, IsBasis, IsOutcome, IsCallable;
    assert IsRecalled(s, b.boundaries, b.basis, f.entry, b.records[f.entry]);
  }

  lemma FunctionIsPublished(s: Setting, b: Book, fs: seq<FunctionRecord>, f: FunctionRecord)
    requires IsFit(s) && Sound(s, b, None) && AllSettled(b, b.Knows()) && (b.passes == 1 ==> AllRest(b, b.Knows()))
    requires AllPresentable(s, b.records) && Publishes(fs, b.records) && PublishesRecord(f, b.records)
    ensures IsPublishedFunction(s, b, fs, f)
  {
    hide Sound, IsFit, AllSettled, AllRest, AllPresentable, Publishes, PublishesRecord, WasAnalyzed, IsCallable,
         CallsArePublished, GraphIsFrom, Misses;
    PublishedIsRecord(f, b.records);
    PublishedWasAnalyzed(s, b, f);
    PublishedCalls(s, b, fs, f);
    if f.cfg.Some? {
      StaleExactly(s, b, f.entry);
      if b.passes == 1 {
        RestingIsCurrent(s, b, f.entry);
      }
    }
  }

  lemma PublishedRecordAt(fs: seq<FunctionRecord>, records: map<Address, FunctionRecord>, i: nat)
    requires Publishes(fs, records) && i < |fs|
    ensures PublishesRecord(fs[i], records)
  {
    hide PublishesRecord, ListsEntry;
  }

  /** A valid map that lists the records of a settled build. */
  lemma SettledIsPublished(s: Setting, b: Book, m: FunctionMap)
    requires IsFit(s) && SettlingGives(s, Done(b)) && AllPresentable(s, b.records)
    requires IsValid(m) && m.name == s.input.name && m.executable == s.input.executable && Publishes(m.functions, b.records)
    ensures IsPublished(s, b, m)
  {
    hide IsValid, IsFit, Sound, AllSettled, AllRest, AllPresentable, Publishes, PublishesRecord, IsPublishedFunction,
         Calm, ListsEntry;
    forall k | 0 <= k < |s.input.seeds| && s.options.Includes(s.input.seeds[k])
      ensures ListsEntry(m.functions, s.input.seeds[k].Canonical())
    {
      RecordIsListed(m.functions, b.records, s.input.seeds[k].Canonical());
    }
    forall i | 0 <= i < |m.functions|
      ensures IsPublishedFunction(s, b, m.functions, m.functions[i])
    {
      PublishedRecordAt(m.functions, b.records, i);
      FunctionIsPublished(s, b, m.functions, m.functions[i]);
    }
  }

  /** The range analyses may follow control in is one executable range, or a part of one. */
  ghost predicate StartsConfined(input: ModuleInput, cfg: AnalysisOptions) {
    if cfg.allowedRange.None? then |input.executable| == 1
    else exists k :: 0 <= k < |input.executable| && Inside(cfg.allowedRange.value, input.executable[k])
  }

  lemma LimitsAreConfined(input: ModuleInput, requested: Budgets, cfg: AnalysisOptions, b: Budgets)
    requires InputIsValid(input, requested)
    ensures StartsConfined(input, cfg) ==> Confined(input, AnalysisLimits(input, cfg, b))
  {
    if StartsConfined(input, cfg) && cfg.allowedRange.None? {
      assert RangeIsExecutable(input, input.executable[0]);
      assert Inside(input.executable[0], input.executable[0]);
    }
  }

  /** Functions without a graph have failed. */
  ghost predicate OthersFailed(fs: seq<FunctionRecord>) {
    forall i :: 0 <= i < |fs| && fs[i].cfg.None? ==> fs[i].status.Failed?
  }

  lemma CalmIsSettled(s: Setting, b: Book, fs: seq<FunctionRecord>)
    requires Sound(s, b, None) && Calm(b) && Publishes(fs, b.records)
    ensures OthersFailed(fs)
  {
    hide Recalled, CheckpointsCount, Closed, AllCallable, Ownable, Normalized, ModuleInput.IsEntry, Unique, SortAddresses;
    forall i | 0 <= i < |fs| && fs[i].cfg.None?
      ensures fs[i].status.Failed?
    {
      assert PublishesRecord(fs[i], b.records);
      ProperAt(s, b.records, fs[i].entry);
    }
  }

  /** Nothing in the input can make a step of the build fail. */
  ghost predicate IsFaultless(s: Setting) {
    !HasBadSeed(s) && !NothingIncluded(s) && (forall code :: !MayFault(s, code)) && FirstAreAligned(s)
  }

  /** Every entry known from the start is aligned. */
  ghost predicate FirstAreAligned(s: Setting) { forall x :: x in FirstEntries(s) ==> x % 4 == 0 }

  // What the builder needs of the lists and settings it works with.

  lemma LeastIsRecorded(fs: seq<FunctionRecord>, records: map<Address, FunctionRecord>, missing: set<Address>)
    requires Listing(fs, records, missing) && missing != {}
    ensures Least(missing) in records
  {
    hide ListsRecords, Normalized;
  }

  lemma PublishedIsWellMade(s: Setting, m: FunctionMap, records: map<Address, FunctionRecord>)
    requires IsValid(m) && Proper(s, records) && Publishes(m.functions, records) && m.executable == s.input.executable
    ensures ProcessIndex.WellMade(m)
  {
    EntriesAreInside(s, m.functions, records);
    hide Proper, Publishes, FunctionIsValid, ConflictsAreValid;
    ProcessIndex.InsideMeansReached(m);
  }

  lemma PreparedIsFit(s: Setting)
    requires InputIsValid(s.input, s.options.budgets) && s.input.guest.FetchesCode()
    ensures IsFit(s)
  {
    hide InputIsValid, GuestView.FetchesCode;
  }

  lemma FailuresHaveCauses(s: Setting, o: Outcome<Book>)
    requires SettlingGives(s, o) && o.IsFailure()
    ensures o.OverBudget? ==> SettlingRunsOut(s, o.dimension) || (o.dimension.FinalizationPasses? && !Confined(s.input, s.limits))
    ensures o == OverBudget(Functions) ==> s.budgets.maxFunctions < Capacity(s.input.executable)
    ensures o == OverBudget(FinalizationPasses) ==> !Confined(s.input, s.limits)
    ensures o.Fault? ==> SeedingFaults(s, o.code) || MayFault(s, o.code)
    ensures o.Fault? ==> HasBadSeed(s) || NothingIncluded(s) || MayFault(s, o.code)
  {
    hide Capacity, Confined, HasBadSeed, NothingIncluded, MayFault, SettlingRunsOut;
    if o.OverBudget? && SettlingRunsOut(s, o.dimension) {
      RunningOutHasBudgets(s, o.dimension);
    }
  }

  lemma PublishableIsPresentable(s: Setting, records: map<Address, FunctionRecord>)
    requires Publishable(s, records)
    ensures AllPresentable(s, records)
  {
    hide AllPresentable, NoneShare;
  }

  lemma LimitsOf(input: ModuleInput, options: BuildOptions)
    ensures SettingOf(input, options).limits == AnalysisLimits(input, options.cfg, SettingOf(input, options).budgets)
    ensures SettingOf(input, options).input == input && SettingOf(input, options).options == options
  {
    hide Clamped;
  }

  /** In a settled build whose first entries are aligned, the final validation accepts if, and only if, no two
      functions share an entry. */
  lemma CalmIsPublishable(s: Setting, b: Book)
    requires Sound(s, b, None) && Calm(b) && FirstAreAligned(s)
    ensures Publishable(s, b.records) <==> NoneShare(b.records)
  {
    hide Recalled, CheckpointsCount, Closed, AllCallable, Traced, NoneShare, FirstEntries, ContainsAny, Ownable, Normalized,
         EntriesAreGiven;
    forall e | e in b.records
      ensures IsPresentable(s, b.records[e])
    {
      ProperAt(s, b.records, e);
    }
  }

  /** Every included seed names its function by the entry it gives it. */
  ghost predicate SeedsAreCanonical(s: Setting) {
    forall k :: 0 <= k < |s.input.seeds| && s.options.Includes(s.input.seeds[k]) ==>
      s.input.seeds[k].entry == s.input.seeds[k].Canonical()
  }

  /** The function at `e` may be entered at `x`: at its own entry, or where an included seed says so. */
  ghost predicate MayEnter(s: Setting, e: Address, x: Address) { x == e || IsSeedEntry(s, e, x) }

  /** Two of the functions may be entered at one place. */
  ghost predicate SeedsMakeShare(s: Setting, functions: set<Address>) {
    exists e, f, x :: e in functions && f in functions && e != f && MayEnter(s, e, x) && MayEnter(s, f, x)
  }

  lemma EntriesAre(s: Setting, e: Address, f: FunctionRecord)
    requires RecordIsProper(s, e, f)
    ensures e in f.entries && forall x :: x in f.entries ==> MayEnter(s, e, x)
  {
    hide Normalized, Ownable, ModuleInput.IsEntry, IsSeedEntry;
  }

  lemma SeedEntryIsThere(s: Setting, records: map<Address, FunctionRecord>, e: Address, x: Address)
    requires SeedsAreRecorded(s, records, |s.input.seeds|) && IsSeedEntry(s, e, x)
    ensures e in records && x in records[e].entries
  {
    var k :| 0 <= k < |s.input.seeds| && IsSeedOf(s, s.input.seeds[k], e, x);
    assert IsEntered(s.input.seeds[k], records);
  }

  /** A recorded function has its own entry, those that included seeds give it, and no others. */
  lemma EntriesAreExact(s: Setting, b: Book, e: Address, x: Address)
    requires Sound(s, b, None) && SeedsAreRecorded(s, b.records, |s.input.seeds|) && e in b.records
    ensures x in b.records[e].entries <==> MayEnter(s, e, x)
  {
    hide Sound, RecordIsProper, IsSeedEntry, SeedsAreRecorded;
    SoundIsProper(s, b);
    ProperAt(s, b.records, e);
    EntriesAre(s, e, b.records[e]);
    if IsSeedEntry(s, e, x) {
      SeedEntryIsThere(s, b.records, e, x);
    }
  }

  /** Functions share an entry exactly when the seeds say so. */
  lemma SharesExactly(s: Setting, b: Book)
    requires Sound(s, b, None) && SeedsAreRecorded(s, b.records, |s.input.seeds|)
    ensures NoneShare(b.records) <==> !SeedsMakeShare(s, b.records.Keys)
  {
    hide Sound, MayEnter, SeedsAreRecorded;
    forall e, x | e in b.records
      ensures x in b.records[e].entries <==> MayEnter(s, e, x)
    {
      EntriesAreExact(s, b, e, x);
    }
    if SeedsMakeShare(s, b.records.Keys) {
      var e, f, x :| e in b.records.Keys && f in b.records.Keys && e != f && MayEnter(s, e, x) && MayEnter(s, f, x);
      assert x in b.records[e].entries && x in b.records[f].entries;
      assert ShareAnEntry(b.records[e], b.records[f]);
    } else {
      forall e, f | e in b.records && f in b.records && e != f
        ensures !ShareAnEntry(b.records[e], b.records[f])
      {
        assert e in b.records.Keys && f in b.records.Keys;
      }
    }
  }

  /** So they share none when every seed names its function by the entry it gives it. */
  lemma CanonicalSeedsShareNothing(s: Setting, b: Book)
    requires Sound(s, b, None) && SeedsAreCanonical(s)
    ensures NoneShare(b.records)
  {
    SoundIsProper(s, b);
    hide Sound, Proper, RecordIsProper;
    forall e | e in b.records
      ensures forall x :: x in b.records[e].entries ==> x == e
    {
      ProperAt(s, b.records, e);
      EntriesAre(s, e, b.records[e]);
      forall x | MayEnter(s, e, x)
        ensures x == e
      {
        OnlyOwnEntry(s, e, x);
      }
    }
  }

  lemma NoneShareWhenCanonical(s: Setting, b: Book)
    requires Sound(s, b, None)
    ensures SeedsAreCanonical(s) ==> NoneShare(b.records)
  {
    hide Sound, NoneShare, SeedsAreCanonical;
    if SeedsAreCanonical(s) {
      CanonicalSeedsShareNothing(s, b);
    }
  }

  lemma OnlyOwnEntry(s: Setting, e: Address, x: Address)
    requires MayEnter(s, e, x) && SeedsAreCanonical(s)
    ensures x == e
  {
    if IsSeedEntry(s, e, x) {
      var k :| 0 <= k < |s.input.seeds| && IsSeedOf(s, s.input.seeds[k], e, x);
    }
  }
}
