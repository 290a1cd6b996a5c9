/** What holds of whole runs of discovery and finalization. */
module BuildRuns {
  import opened Common
  import opened ControlFlow
  import opened FunctionRecords
  import opened FunctionDiscovery
  import opened BuildSteps
  import opened BuildInvariant
  import opened BuildAccounts
  import opened Evidence

  // Seeding.

  ghost predicate AllNew(records: map<Address, FunctionRecord>) {
    forall e {:trigger records[e]} :: e in records ==> records[e].status.Discovered? && records[e].cfg.None?
  }

  /** The seed's function is recorded, with the entry that the seed gives it. */
  ghost predicate IsEntered(seed: FunctionSeed, records: map<Address, FunctionRecord>) {
    seed.Canonical() in records && seed.entry in records[seed.Canonical()].entries
  }

  /** The included seeds up to the `k`-th are functions. */
  ghost predicate SeedsAreRecorded(s: Setting, records: map<Address, FunctionRecord>, k: nat)
    requires k <= |s.input.seeds|
  {
    forall j :: 0 <= j < k && s.options.Includes(s.input.seeds[j]) ==> IsEntered(s.input.seeds[j], records)
  }

  ghost predicate SeededTo(s: Setting, b: Book, k: nat)
    requires k <= |s.input.seeds|
  {
    && Proper(s, b.records) && Counted(s, b) && AllNew(b.records) && AllCallable(s, b.records)
    && b.pending == b.records.Keys && b.processed == {} && b.checkpoints == map[] && b.boundaries == []
    && b.passes == 0 && b.known == SeededEntries(s, k) && SeedsAreRecorded(s, b.records, k)
    && b.usage == NO_WORK && b.seedCount == |b.pending| <= k
    && AllRatedBySeeds(s, k, b.records) && OthersHaveNoSeed(s, k, b.records)
  }

  ghost predicate HasBadSeed(s: Setting) {
    exists k :: 0 <= k < |s.input.seeds|
                && !(s.input.IsEntry(s.input.seeds[k].entry) && s.input.IsEntry(s.input.seeds[k].Canonical()))
  }

  lemma GrowthKeepsNew(before: map<Address, FunctionRecord>, after: map<Address, FunctionRecord>)
    requires AllNew(before) && Grows(before, after)
    ensures AllNew(after)
  {
    hide SameFunction;
    forall e | e in after
      ensures after[e].status.Discovered? && after[e].cfg.None?
    {
      if e in before {
        StatusStays(before[e], after[e]);
      }
    }
  }

  lemma OneMoreSeed(b: Book, c: Book, t: Address, k: nat)
    requires b.seedCount == |b.pending| <= k && Extends(b, c) && c.pending == b.pending + {t}
    ensures c.seedCount == |c.pending| <= k + 1 && c.usage == b.usage
  {
    hide Grows;
    OneMore(b.pending, t);
  }

  lemma SeedOneMore(s: Setting, b: Book, c: Book, k: nat)
    requires k < |s.input.seeds| && SeededTo(s, b, k) && s.options.Includes(s.input.seeds[k])
    requires Stays(s, b, c) && c.records.Keys == b.records.Keys + {s.input.seeds[k].Canonical()}
    requires c.pending == b.pending + {s.input.seeds[k].Canonical()} && c.known == b.known && c.boundaries == b.boundaries
    requires IsEntered(s.input.seeds[k], c.records) && c.records == WithSeed(b.records, s.input.seeds[k])
    ensures SeededTo(s, c.(known := SeededEntries(s, k + 1)), k + 1)
  {
    OneMoreSeed(b, c, s.input.seeds[k].Canonical(), k);
    OneMoreIsRated(s, b.records, k);
    hide Proper, Grows, IsCallable, SeededEntries, AllNew, AllCallable, SeedsAreRecorded, IsEntered, WithSeed, AllRatedBySeeds,
         OthersHaveNoSeed;
    GrowthKeepsNew(b.records, c.records);
    SeedIsCallable(s, k);
    OneMoreIsCallable(s, b.records, c.records, s.input.seeds[k].Canonical());
    OneMoreIsRecorded(s, b.records, c.records, k);
  }

  lemma OneMoreIsCallable(s: Setting, before: map<Address, FunctionRecord>, after: map<Address, FunctionRecord>, e: Address)
    requires AllCallable(s, before) && IsCallable(s, e) && after.Keys == before.Keys + {e}
    ensures AllCallable(s, after)
  {
    hide IsCallable;
    forall x | x in after
      ensures IsCallable(s, x)
    {
      assert x in after.Keys;
      if x in before {
        assert before[x] == before[x];
      }
    }
  }

  lemma OneMoreIsRated(s: Setting, records: map<Address, FunctionRecord>, k: nat)
    requires k < |s.input.seeds| && s.options.Includes(s.input.seeds[k])
    requires AllRatedBySeeds(s, k, records) && OthersHaveNoSeed(s, k, records)
    ensures AllRatedBySeeds(s, k + 1, WithSeed(records, s.input.seeds[k]))
    ensures OthersHaveNoSeed(s, k + 1, WithSeed(records, s.input.seeds[k]))
  {
    var c, more := s.input.seeds[k].Canonical(), WithSeed(records, s.input.seeds[k]);
    IncludedIs(s.options, s.input.seeds[k]);
    hide IsRatedBySeeds, IsIncluded, IsFor, FunctionSeed.Canonical, BuildOptions.Includes, AddEvidence, NewRecord;
    assert forall e :: SeedIsFor(s, k, e) <==> e == c;
    forall e | e in more
      ensures IsRatedBySeeds(s, k + 1, e, more[e])
    {
      if e != c {
        RatingStays(s, k, e, records[e]);
      } else if e in records {
        RatingGrows(s, k, e, records[e]);
      } else {
        RatingBegins(s, k, e);
      }
    }
  }

  lemma NothingIsFor(s: Setting, k: nat)
    requires k < |s.input.seeds| && !s.options.Includes(s.input.seeds[k])
    ensures forall e :: !SeedIsFor(s, k, e)
  {
    IncludedIs(s.options, s.input.seeds[k]);
  }

  lemma SkippedIsRated(s: Setting, records: map<Address, FunctionRecord>, k: nat)
    requires k < |s.input.seeds| && !s.options.Includes(s.input.seeds[k])
    requires AllRatedBySeeds(s, k, records) && OthersHaveNoSeed(s, k, records)
    ensures AllRatedBySeeds(s, k + 1, records) && OthersHaveNoSeed(s, k + 1, records)
  {
    NothingIsFor(s, k);
    hide IsRatedBySeeds, SeedIsFor, BuildOptions.Includes;
    forall e | e in records
      ensures IsRatedBySeeds(s, k + 1, e, records[e])
    {
      RatingStays(s, k, e, records[e]);
    }
  }

  lemma OneMoreIsRecorded(s: Setting, before: map<Address, FunctionRecord>, after: map<Address, FunctionRecord>, k: nat)
    requires k < |s.input.seeds| && SeedsAreRecorded(s, before, k) && Grows(before, after)
    requires IsEntered(s.input.seeds[k], after)
    ensures SeedsAreRecorded(s, after, k + 1)
  {
    hide SameFunction;
    forall j | 0 <= j < k + 1 && s.options.Includes(s.input.seeds[j])
      ensures IsEntered(s.input.seeds[j], after)
    {
      if j < k {
        var c := s.input.seeds[j].Canonical();
        assert IsEntered(s.input.seeds[j], before);
        StatusStays(before[c], after[c]);
      }
    }
  }

  lemma SkipSeed(s: Setting, b: Book, k: nat)
    requires k < |s.input.seeds| && SeededTo(s, b, k) && !s.options.Includes(s.input.seeds[k])
    ensures SeededTo(s, b, k + 1)
  {
    SkippedIsRated(s, b.records, k);
    SkippedIsKnown(s, k);
    SkippedIsRecorded(s, b.records, k);
    hide Proper, Counted, AllNew, AllCallable, AllRatedBySeeds, OthersHaveNoSeed, SeededEntries, SeedsAreRecorded,
         BuildOptions.Includes;
  }

  lemma SkippedIsKnown(s: Setting, k: nat)
    requires k < |s.input.seeds| && !s.options.Includes(s.input.seeds[k])
    ensures SeededEntries(s, k + 1) == SeededEntries(s, k)
  {
  }

  lemma SkippedIsRecorded(s: Setting, records: map<Address, FunctionRecord>, k: nat)
    requires k < |s.input.seeds| && !s.options.Includes(s.input.seeds[k]) && SeedsAreRecorded(s, records, k)
    ensures SeedsAreRecorded(s, records, k + 1)
  {
    hide IsEntered;
  }

  /** Adding the `j`-th seed asks for more than a budget allows. */
  ghost predicate SeedAtRunsOut(s: Setting, j: nat, d: BudgetDimension)
    requires j < |s.input.seeds|
  {
    && AddSeeds(s, j).Done? && s.options.Includes(s.input.seeds[j])
    && SeedRunsOut(s, AddSeeds(s, j).value, s.input.seeds[j].Canonical(), d)
  }

  ghost predicate SeedingRunsOut(s: Setting, d: BudgetDimension) {
    exists j :: 0 <= j < |s.input.seeds| && SeedAtRunsOut(s, j, d)
  }

  ghost predicate SeedingGives(s: Setting, k: nat, o: Outcome<Book>)
    requires k <= |s.input.seeds|
  {
    match o
    case Done(b) => SeededTo(s, b, k)
    case OverBudget(d) => SeedingRunsOut(s, d)
    case Fault(code) => code == InvalidGuestAddress && HasBadSeed(s)
  }

  lemma SeedIsGiven(s: Setting, k: nat)
    requires k < |s.input.seeds| && s.options.Includes(s.input.seeds[k])
    ensures IsGiven(s, s.input.seeds[k])
  {
    var seed := s.input.seeds[k];
    assert IsSeedOf(s, s.input.seeds[k], seed.Canonical(), seed.entry);
  }

  lemma SeedGives(s: Setting, k: nat)
    requires IsFit(s) && k < |s.input.seeds| && AddSeeds(s, k).Done? && SeededTo(s, AddSeeds(s, k).value, k)
    ensures SeedingGives(s, k + 1, AddSeeds(s, k + 1))
  {
    var b, seed := AddSeeds(s, k).value, s.input.seeds[k];
    if !s.input.IsEntry(seed.entry) || !s.input.IsEntry(seed.Canonical()) {
      assert HasBadSeed(s);
    } else {
      hide SeededTo, AddSeed, IsFit, SeedRunsOut, HasBadSeed, IsGiven, ModuleInput.IsEntry, SeededEntries;
      if s.options.Includes(seed) {
        SeededIsProper(s, b, k);
        SeedIsGiven(s, k);
        AddSeedExtends(s, b, seed);
        if AddSeed(s, b, seed).Done? {
          SeedNext(s, b, k);
        } else {
          assert SeedAtRunsOut(s, k, AddSeed(s, b, seed).dimension);
        }
      } else {
        SkipSeed(s, b, k);
      }
    }
  }

  lemma NothingIsSeeded(s: Setting)
    ensures AddSeeds(s, 0) == Done(EmptyBook(s)) && SeededTo(s, EmptyBook(s), 0)
  {
  }

  lemma SeedingFails(s: Setting, k: nat)
    requires 0 < k <= |s.input.seeds| && AddSeeds(s, k - 1).IsFailure()
    ensures AddSeeds(s, k) == AddSeeds(s, k - 1)
  {
    hide AddSeed;
  }

  /** The included seeds become functions, and the strong ones known entries. */
  lemma {:induction false} SeedingIsSound(s: Setting, k: nat)
    requires IsFit(s) && k <= |s.input.seeds|
    ensures SeedingGives(s, k, AddSeeds(s, k))
  {
    hide SeededTo, AddSeeds, IsFit, SeedingRunsOut, HasBadSeed;
    if k == 0 {
      NothingIsSeeded(s);
    } else {
      SeedingIsSound(s, k - 1);
      if AddSeeds(s, k - 1).Done? {
        SeedGives(s, k - 1);
      } else {
        SeedingFails(s, k);
      }
    }
  }

  lemma SeededIsProper(s: Setting, b: Book, k: nat)
    requires k <= |s.input.seeds| && SeededTo(s, b, k)
    ensures Proper(s, b.records) && Counted(s, b) && b.known == SeededEntries(s, k)
  {
    hide Proper, Counted, SeededEntries;
  }

  lemma SeedNext(s: Setting, b: Book, k: nat)
    requires IsFit(s) && k < |s.input.seeds| && SeededTo(s, b, k) && s.options.Includes(s.input.seeds[k])
    requires AddSeed(s, b, s.input.seeds[k]).Done? && AddSeeds(s, k) == Done(b)
    requires s.input.IsEntry(s.input.seeds[k].entry) && s.input.IsEntry(s.input.seeds[k].Canonical())
    ensures AddSeeds(s, k + 1).Done? && SeededTo(s, AddSeeds(s, k + 1).value, k + 1)
  {
    hide SeededTo, AddSeed, AddSeeds, IsFit, Stays, SeededEntries, IsGiven, SeedRunsOut, ModuleInput.IsEntry;
    var c := AddSeed(s, b, s.input.seeds[k]).value;
    SeededIsProper(s, b, k);
    SeedIsGiven(s, k);
    AddSeedExtends(s, b, s.input.seeds[k]);
    AddedRecords(s, b, s.input.seeds[k]);
    SeedOneMore(s, b, c, k);
    SeedsAre(s, b, k);
  }

  lemma AddedRecords(s: Setting, b: Book, seed: FunctionSeed)
    requires AddSeed(s, b, seed).Done?
    ensures AddSeed(s, b, seed).value.records == WithSeed(b.records, seed)
  {
    hide WithSeed, ModuleInput.IsEntry;
  }

  lemma SeedsAre(s: Setting, b: Book, k: nat)
    requires k < |s.input.seeds| && s.options.Includes(s.input.seeds[k])
    requires AddSeed(s, b, s.input.seeds[k]).Done? && AddSeeds(s, k) == Done(b)
    requires s.input.IsEntry(s.input.seeds[k].entry) && s.input.IsEntry(s.input.seeds[k].Canonical())
    requires AddSeed(s, b, s.input.seeds[k]).value.known == SeededEntries(s, k)
    ensures AddSeeds(s, k + 1) == Done(AddSeed(s, b, s.input.seeds[k]).value.(known := SeededEntries(s, k + 1)))
  {
    hide AddSeed, ModuleInput.IsEntry;
    if !s.input.seeds[k].IsBoundaryWorthy() {
      assert SeededEntries(s, k) + {} == SeededEntries(s, k);
    }
  }

  /** The state that discovery starts from. */
  lemma SeededIsDiscovering(s: Setting, b: Book)
    requires SeededTo(s, b, |s.input.seeds|)
    ensures Discovering(s, b, [], 0)
  {
    hide Proper, IsOutcome, IsCallable, SeededEntries, ModuleInput.InRange, SeedsAreRecorded;
    NoGraphs(b.records);
    assert KnownBy(s, b.boundaries, 0) == FirstEntries(s);
    assert forall e :: !Remaining([], 0, e);
  }

  // Discovery.

  ghost predicate Remaining(entries: seq<Address>, i: int, e: Address) {
    exists k :: i <= k < |entries| && 0 <= k && entries[k] == e
  }

  /** Unprocessed functions are pending, or remain to be processed in the current wave. */
  ghost predicate Waiting(b: Book, entries: seq<Address>, i: int) {
    && (forall e {:trigger e in b.pending} :: e in b.pending ==> e in b.records)
    && (forall e {:trigger e in b.processed} :: e in b.processed ==> e in b.records)
    && (forall e {:trigger b.records[e]} :: e in b.records ==>
          && (b.records[e].status.Discovered? <==> e !in b.processed || Remaining(entries, i, e))
          && (e !in b.processed ==> e in b.pending))
  }

  /** Failed functions keep no graph. */
  ghost predicate FailuresAreBare(records: map<Address, FunctionRecord>) {
    forall e {:trigger records[e]} :: e in records && records[e].status.Failed? ==> records[e].cfg.None?
  }

  ghost predicate NoneWaiting(records: map<Address, FunctionRecord>) {
    forall e {:trigger records[e]} :: e in records ==> !records[e].status.Discovered?
  }

  /** The state between two steps of discovery; `entries[i..]` is what remains of a wave. */
  ghost predicate Discovering(s: Setting, b: Book, entries: seq<Address>, i: int) {
    && Sound(s, b, None) && b.checkpoints == map[] && b.passes == 0 && Waiting(b, entries, i) && Balanced(s, b)
    && (Confined(s.input, s.limits) ==> FailuresAreBare(b.records))
  }

  ghost predicate Increasing(entries: seq<Address>) {
    forall j, k :: 0 <= j < k < |entries| ==> entries[j] < entries[k]
  }

  lemma MovingKeepsWaiting(b: Book, c: Book, entries: seq<Address>, i: nat)
    requires i < |entries| && Increasing(entries) && Waiting(b, entries, i)
    requires Moves(b, c, entries[i]) && !c.records[entries[i]].status.Discovered? && entries[i] in b.processed
    ensures Waiting(c, entries, i + 1)
  {
    hide SameFunction;
    forall x | x in c.records
      ensures c.records[x].status.Discovered? <==> x !in c.processed || Remaining(entries, i + 1, x)
      ensures x !in c.processed ==> x in c.pending
    {
      if x == entries[i] {
        assert !Remaining(entries, i + 1, x);
      } else if x in b.records {
        StatusStays(b.records[x], c.records[x]);
        RemainsBehind(entries, i, x);
      }
    }
  }

  lemma RemainsBehind(entries: seq<Address>, i: nat, x: Address)
    requires i < |entries| && x != entries[i]
    ensures Remaining(entries, i, x) <==> Remaining(entries, i + 1, x)
  {
  }

  lemma MovingKeepsBare(b: Book, c: Book, e: Address)
    requires FailuresAreBare(b.records) && Moves(b, c, e) && (c.records[e].status.Failed? ==> c.records[e].cfg.None?)
    ensures FailuresAreBare(c.records)
  {
    hide SameFunction;
    forall x | x in c.records && c.records[x].status.Failed?
      ensures c.records[x].cfg.None?
    {
      if x != e && x in b.records {
        StatusStays(b.records[x], c.records[x]);
      }
    }
  }

  ghost predicate IsWaveOf(w: Wave, pending: set<Address>, processed: set<Address>, width: nat) {
    && Increasing(w.entries)
    && (forall e :: e in w.entries ==> e in pending && e !in processed)
    && (forall e :: e in w.processed <==> e in processed || e in w.entries)
    && (forall e :: e in w.pending ==> e in pending)
    && (forall e :: e in pending ==> e in w.pending || e in w.processed)
    && (forall e, x :: e in w.entries && x in w.pending ==> e < x)
  }

  lemma PrependToWave(rest: Wave, pending: set<Address>, processed: set<Address>, width: nat, e: Address)
    requires e in pending && e !in processed && forall x :: x in pending ==> e <= x
    requires IsWaveOf(rest, pending - {e}, processed + {e}, width)
    ensures IsWaveOf(rest.(entries := [e] + rest.entries), pending, processed, width + 1)
  {
    forall k | 0 <= k < |rest.entries|
      ensures e < rest.entries[k]
    {
      assert rest.entries[k] in rest.entries;
    }
  }

  lemma SkipInWave(w: Wave, pending: set<Address>, processed: set<Address>, width: nat, e: Address)
    requires e in processed && IsWaveOf(w, pending - {e}, processed, width)
    ensures IsWaveOf(w, pending, processed, width)
  {
  }

  /** A wave that is not full leaves nothing pending, and what is taken is marked as processed. */
  ghost predicate IsCounted(w: Wave, pending: set<Address>, processed: set<Address>, width: nat) {
    && |w.entries| <= width && (w.pending == {} || |w.entries| == width)
    && |w.processed| + |w.pending| <= |processed| + |pending|
    && |w.pending| <= |pending| && (pending != {} && width > 0 ==> |w.pending| < |pending|)
  }

  lemma CountTaken(rest: Wave, pending: set<Address>, processed: set<Address>, width: nat, e: Address)
    requires e in pending && IsCounted(rest, pending - {e}, processed + {e}, width) && e !in processed
    ensures IsCounted(rest.(entries := [e] + rest.entries), pending, processed, width + 1)
  {
  }

  lemma CountSkipped(w: Wave, pending: set<Address>, processed: set<Address>, width: nat, e: Address)
    requires e in pending && IsCounted(w, pending - {e}, processed, width)
    ensures IsCounted(w, pending, processed, width)
  {
  }

  lemma NothingToTake(pending: set<Address>, processed: set<Address>, width: nat)
    requires pending == {} || width == 0
    ensures IsWaveOf(Wave([], pending, processed), pending, processed, width)
    ensures IsCounted(Wave([], pending, processed), pending, processed, width)
  {
  }

  /** A wave holds the smallest unprocessed entries, and is full unless nothing is left. */
  lemma {:induction false} TakesAWave(pending: set<Address>, processed: set<Address>, width: nat)
    ensures IsWaveOf(TakeWave(pending, processed, width), pending, processed, width)
    ensures IsCounted(TakeWave(pending, processed, width), pending, processed, width)
    decreases |pending|
  {
    hide IsWaveOf, IsCounted;
    if pending == {} || width == 0 {
      NothingToTake(pending, processed, width);
    } else {
      var e := Least(pending);
      if e in processed {
        var rest := TakeWave(pending - {e}, processed, width);
        TakesAWave(pending - {e}, processed, width);
        SkipInWave(rest, pending, processed, width, e);
        CountSkipped(rest, pending, processed, width, e);
      } else {
        var rest := TakeWave(pending - {e}, processed + {e}, width - 1);
        TakesAWave(pending - {e}, processed + {e}, width - 1);
        PrependToWave(rest, pending, processed, width - 1, e);
        CountTaken(rest, pending, processed, width - 1, e);
      }
    }
  }

  /** A wave has an entry for every worker, and for one when none is asked for, unless the pending entries run out. */
  lemma WaveFitsWorkers(s: Setting, b: Book)
    ensures
      var workers := if s.options.workers == 0 then 1 else s.options.workers;
      |NextWave(s, b).entries| <= workers && (NextWave(s, b).pending != {} ==> |NextWave(s, b).entries| == workers)
  {
    hide TakeWave, IsWaveOf;
    TakesAWave(b.pending, b.processed, s.Width());
  }

  function AfterTaking(s: Setting, b: Book): Book {
    b.(pending := NextWave(s, b).pending, processed := NextWave(s, b).processed)
  }

  lemma TakingKeepsSound(s: Setting, b: Book, pending: set<Address>, processed: set<Address>, passes: nat)
    requires Sound(s, b, None)
    ensures Sound(s, b.(pending := pending, processed := processed, passes := passes), None)
  {
    hide Proper, Traced, IsRecalled, AllCallable, ModuleInput.InRange;
    var c := b.(pending := pending, processed := processed, passes := passes);
    forall e
      ensures IsChecked(c, e)
    {
      assert IsChecked(b, e);
    }
  }

  lemma TakingKeepsDiscovering(s: Setting, b: Book)
    requires Discovering(s, b, [], 0)
    ensures Discovering(s, AfterTaking(s, b), NextWave(s, b).entries, 0)
    ensures AllProcessed(AfterTaking(s, b), NextWave(s, b).entries)
  {
    var w := NextWave(s, b);
    TakesAWave(b.pending, b.processed, s.Width());
    hide Sound, TakeWave, Total, CallTotal, GraphsOf;
    TakingKeepsSound(s, b, w.pending, w.processed, b.passes);
    forall e
      ensures Remaining(w.entries, 0, e) <==> e in w.entries
    {
    }
    assert forall e :: !Remaining([], 0, e);
  }

  ghost predicate AllProcessed(b: Book, entries: seq<Address>) {
    Increasing(entries) && forall k :: 0 <= k < |entries| ==> entries[k] in b.processed
  }

  /** In a confined build a graph can always be owned. */
  lemma ConfinedIsOwnable(s: Setting, e: Address, g: Graph, at: set<Address>)
    requires IsFit(s) && Confined(s.input, s.limits) && GraphIsFrom(s, e, g, at)
    ensures Ownable(g, s.input.executable)
  {
    AnalysisStaysInside(s, e, g, at);
    StayingIsOwnable(g, s.input.executable);
  }

  lemma WaitingIsDiscovered(b: Book, entries: seq<Address>, i: nat)
    requires Waiting(b, entries, i) && i < |entries| && entries[i] in b.processed
    ensures entries[i] in b.records && b.records[entries[i]].status.Discovered?
  {
    assert Remaining(entries, i, entries[i]);
  }

  /** What `process_graph` leaves of the record itself. */
  lemma ProcessedRecord(s: Setting, b: Book, e: Address, graph: Result<Graph>, at: Knowledge)
    requires IsFit(s) && e in b.records && b.records[e].cfg.None? && Process(s, b, e, graph, at).Done?
    requires Sound(s, b, None) && IsBasis(s, b.boundaries, at) && Analyzes(s, e, at.entries, graph)
    requires Confined(s.input, s.limits) && e !in b.checkpoints
    ensures
      var c := Process(s, b, e, graph, at).value;
      e in c.records && (c.records[e].status.Failed? ==> c.records[e].cfg.None?)
  {
    AnalyzesGraph(s, e, at.entries, graph);
    hide Sound, GraphIsFrom, FailsFor, IsOutcome, Ownable, Described, IsFit, IsBasis, AddCalls, Store;
    if graph.Ok? {
      var g := graph.value;
      ConfinedIsOwnable(s, e, g, at.entries);
      StoreIsStored(s, b, e, g, at);
      var stored := Store(s, b, e, g, at).value;
      TargetsStay(s, stored, e);
    }
  }

  lemma TargetsStay(s: Setting, b: Book, e: Address)
    requires IsFit(s) && Sound(s, b, Some(e)) && e in b.records && AddCalls(s, b, b.records[e].directCalls).Done?
    ensures
      var c := AddCalls(s, b, b.records[e].directCalls).value;
      && e in c.records && c.records[e].status == b.records[e].status && c.records[e].cfg == b.records[e].cfg
      && c.records[e].ranges == b.records[e].ranges && c.records[e].dependencies == b.records[e].dependencies
      && c.basis == b.basis && c.checkpoints == b.checkpoints && b.boundaries <= c.boundaries
  {
    AddCallsExtends(s, b, b.records[e].directCalls);
    var c := AddCalls(s, b, b.records[e].directCalls).value;
    hide AddCalls, Grows;
    RecordStays(b.records, c.records, e);
  }

  /** What is said of the functions is what the seeds and the calls say. */
  ghost predicate Rated(s: Setting, b: Book) {
    && OthersHaveNoSeed(s, |s.input.seeds|, b.records)
    && forall e {:trigger b.records[e]} :: e in b.records ==> IsRated(s, b.known, e, b.records[e])
  }

  lemma CalledIsRated(s: Setting, b: Book, c: Book, x: Address)
    requires Rated(s, b) && CallsAdd(b, c) && x in c.records && IsRatedByCall(b, c, x)
    ensures IsRated(s, c.known, x, c.records[x])
  {
    hide IsRatedBySeeds, SeedIsFor, IsStrongest;
    if x in b.records {
      var f := b.records[x];
      assert IsRated(s, b.known, x, f);
      RatingKnowsMore(s, b.known, c.known, x, f, f);
      if f.confidence in {Low, Medium} {
        LowRatingHasNoHighSeed(s, b.known, x, f);
      } else {
        HighRatingHasSeed(s, c.known, x, f);
        assert SameRating(c.records[x], f.source, f.confidence);
      }
    } else {
      NoSeedForOthers(s, b, x);
      UnseededIsUnrated(s, x);
    }
  }

  lemma NoSeedForOthers(s: Setting, b: Book, x: Address)
    requires Rated(s, b) && x !in b.records
    ensures forall k :: !SeedIsFor(s, k, x)
  {
    hide IsRated, IsIncluded, IsFor;
  }

  lemma RatedStays(s: Setting, b: Book, c: Book)
    requires Rated(s, b) && CallsAdd(b, c)
    ensures Rated(s, c)
  {
    hide IsRated, SeedIsFor, IsCallee, IsRatedByCall;
    forall x | x in c.records
      ensures IsRated(s, c.known, x, c.records[x])
    {
      if IsRatedByCall(b, c, x) {
        CalledIsRated(s, b, c, x);
      } else {
        RatingKnowsMore(s, b.known, c.known, x, b.records[x], c.records[x]);
      }
    }
  }

  lemma SeededIsRated(s: Setting, b: Book)
    requires SeededTo(s, b, |s.input.seeds|)
    ensures Rated(s, b)
  {
    hide Proper, Counted, AllNew, AllCallable, SeededEntries, SeedsAreRecorded, IsRatedBySeeds, SeedIsFor;
  }

  /** What a step cannot take away. */
  ghost predicate Grown(b: Book, c: Book) {
    && b.boundaries <= c.boundaries && CallsAdd(b, c) && c.passes == b.passes
    && forall e {:trigger c.records[e]} {:trigger e in b.records} :: e in b.records ==>
         e in c.records && KeepsEvidence(b.records[e], c.records[e])
  }

  lemma GrownItself(b: Book)
    ensures Grown(b, b)
  {
    NothingIsAdded(b);
    hide CallsAdd, IsCallee;
  }

  lemma GrownOn(a: Book, b: Book, c: Book)
    requires Grown(a, b) && Grown(b, c)
    ensures Grown(a, c)
  {
    CallsAddOn(a, b, c);
    hide CallsAdd, IsCallee;
  }

  /** Growth does not depend on how many passes are counted. */
  lemma GrownPast(a: Book, b: Book, c: Book)
    requires Grown(a, b.(passes := a.passes)) && Grown(b, c.(passes := b.passes))
    ensures Grown(a, c.(passes := a.passes))
  {
    GrownUncounted(b, c.(passes := b.passes), a.passes);
    hide Grown;
    GrownOn(a, b.(passes := a.passes), c.(passes := a.passes));
  }

  lemma GrownUncounted(b: Book, c: Book, passes: nat)
    requires Grown(b, c)
    ensures Grown(b.(passes := passes), c.(passes := passes))
  {
    CallsAddUncounted(b, c, passes);
    hide CallsAdd, KeepsEvidence;
  }

  lemma CallsAddUncounted(b: Book, c: Book, passes: nat)
    requires CallsAdd(b, c)
    ensures CallsAdd(b.(passes := passes), c.(passes := passes))
  {
    hide IsCallee, SameEvidence;
  }

  lemma MovesIsGrown(b: Book, c: Book, e: Address)
    requires Moves(b, c, e)
    ensures Grown(b, c) && c.processed == b.processed && c.seedCount - |c.pending| == b.seedCount - |b.pending|
    ensures forall x :: x != e ==> (x in c.checkpoints <==> x in b.checkpoints)
  {
    hide SameFunction;
    forall x | x in b.records
      ensures x in c.records && KeepsEvidence(b.records[x], c.records[x])
    {
      if x != e {
        StatusStays(b.records[x], c.records[x]);
      }
    }
  }

  /** One step of a wave. */
  lemma ProcessKeepsDiscovering(s: Setting, b: Book, entries: seq<Address>, i: nat, graph: Result<Graph>, at: Knowledge)
    requires IsFit(s) && Discovering(s, b, entries, i) && i < |entries| && AllProcessed(b, entries)
    requires IsBasis(s, b.boundaries, at) && Analyzes(s, entries[i], at.entries, graph)
    ensures
      var o := Process(s, b, entries[i], graph, at);
      && (o.Done? ==>
            && Discovering(s, o.value, entries, i + 1) && Grown(b, o.value)
            && o.value.processed == b.processed
            && o.value.seedCount - |o.value.pending| == b.seedCount - |b.pending|)
      && (o.OverBudget? ==> StepRunsOut(s, b, entries[i], at.entries, o.dimension))
      && (o.Fault? ==> MayFault(s, o.code))
  {
    var e := entries[i];
    WaitingIsDiscovered(b, entries, i);
    DiscoveredIsBare(s, b, e);
    hide Sound, IsFit, IsBasis, Analyzes, Process, Moves, Waiting, Balanced, StepRunsOut, MayFault, Confined,
         FailuresAreBare, Grown;
    ProcessKeeps(s, b, e, graph, at);
    var o := Process(s, b, e, graph, at);
    if o.Done? {
      ProcessBalances(s, b, e, graph, at);
      MovesIsGrown(b, o.value, e);
      ProcessKeepsCheckpoints(s, b, e, graph, at);
      MovingKeepsWaiting(b, o.value, entries, i);
      if Confined(s.input, s.limits) {
        ProcessedRecord(s, b, e, graph, at);
        MovingKeepsBare(b, o.value, e);
      }
    }
  }

  lemma DiscoveredIsBare(s: Setting, b: Book, e: Address)
    requires Sound(s, b, None) && e in b.records && b.records[e].status.Discovered?
    ensures b.records[e].cfg.None?
  {
    ProperAt(s, b.records, e);
    hide Ownable, Proper;
  }

  lemma ProcessKeepsCheckpoints(s: Setting, b: Book, e: Address, graph: Result<Graph>, at: Knowledge)
    requires IsFit(s) && Sound(s, b, None) && e in b.records && e !in b.checkpoints && Process(s, b, e, graph, at).Done?
    requires IsBasis(s, b.boundaries, at) && Analyzes(s, e, at.entries, graph)
    ensures Process(s, b, e, graph, at).value.checkpoints == b.checkpoints
  {
    AnalyzesGraph(s, e, at.entries, graph);
    if graph.Ok? {
      hide *;
      ProcessedOk(s, b, e, graph.value, at);
      StoreIsStored(s, b, e, graph.value, at);
      var stored := Store(s, b, e, graph.value, at).value;
      StoredIsWaiting(s, b, stored, e, graph.value);
      if Ownable(graph.value, s.input.executable) {
        TargetsStay(s, stored, e);
      }
      StoredCheckpoints(s, b, e, graph.value, at);
    } else {
      hide Sound, IsFit, IsBasis, Analyzes;
    }
  }

  /** What becomes of a graph: it is stored, and its calls are followed up if it is owned. */
  lemma ProcessedOk(s: Setting, b: Book, e: Address, g: Graph, at: Knowledge)
    requires e in b.records && Process(s, b, e, Ok(g), at).Done?
    ensures
      var stored := Store(s, b, e, g, at);
      && stored.Done? && e in stored.value.records
      && Process(s, b, e, Ok(g), at) ==
         if stored.value.records[e].status.Analyzed? then AddCalls(s, stored.value, stored.value.records[e].directCalls)
         else stored
  {
    hide Described, AddCalls, Overrun, Consumed;
  }

  lemma StoredIsWaiting(s: Setting, b: Book, c: Book, e: Address, g: Graph)
    requires IsStored(s, b, c, e, g)
    ensures e in c.records && (c.records[e].status.Analyzed? <==> Ownable(g, s.input.executable))
    ensures Ownable(g, s.input.executable) ==> Sound(s, c, Some(e))
  {
    hide Sound, Ownable, Described, TargetsOf;
  }

  lemma StoredCheckpoints(s: Setting, b: Book, e: Address, g: Graph, at: Knowledge)
    requires e in b.records && Store(s, b, e, g, at).Done?
    ensures Store(s, b, e, g, at).value.checkpoints == b.checkpoints
  {
    hide Described, Overrun, Consumed;
  }

  /** The `i`-th function of a wave asks for more than a budget allows. */
  ghost predicate WaveRunsOut(s: Setting, b: Book, entries: seq<Address>, graphs: seq<Result<Graph>>, at: Knowledge,
                              i: nat, d: BudgetDimension)
    requires i < |entries| && |graphs| == |entries|
  {
    var m := ProcessWave(s, b, entries[..i], graphs[..i], at);
    m.Done? && StepRunsOut(s, m.value, entries[i], at.entries, d)
  }

  /** The results of a wave up to the `n`-th. */
  lemma {:induction false} WaveKeepsDiscovering(s: Setting, b: Book, entries: seq<Address>, graphs: seq<Result<Graph>>,
                                                at: Knowledge, n: nat)
    requires IsFit(s) && Discovering(s, b, entries, 0) && AllProcessed(b, entries) && n <= |entries|
    requires IsBasis(s, b.boundaries, at) && AnalyzesWave(s, entries, at.entries, graphs)
    ensures
      var o := ProcessWave(s, b, entries[..n], graphs[..n], at);
      && (o.Done? ==>
            && Discovering(s, o.value, entries, n) && Grown(b, o.value)
            && o.value.processed == b.processed
            && o.value.seedCount - |o.value.pending| == b.seedCount - |b.pending|)
      && (o.OverBudget? ==> exists i :: 0 <= i < n && WaveRunsOut(s, b, entries, graphs, at, i, o.dimension))
      && (o.Fault? ==> MayFault(s, o.code))
  {
    hide Discovering, IsFit, IsBasis, Analyzes, Process, StepRunsOut, MayFault;
    if n > 0 {
      WaveKeepsDiscovering(s, b, entries, graphs, at, n - 1);
      var m := ProcessWave(s, b, entries[..n - 1], graphs[..n - 1], at);
      assert entries[..n][..n - 1] == entries[..n - 1] && graphs[..n][..n - 1] == graphs[..n - 1];
      if m.Done? {
        BasisStays(s, b.boundaries, m.value.boundaries, at);
        assert Analyzes(s, entries[n - 1], at.entries, graphs[n - 1]);
        ProcessKeepsDiscovering(s, m.value, entries, n - 1, graphs[n - 1], at);
        var o := Process(s, m.value, entries[n - 1], graphs[n - 1], at);
        assert o.OverBudget? ==> WaveRunsOut(s, b, entries, graphs, at, n - 1, o.dimension);
      }
    }
  }

  lemma SoundKnows(s: Setting, b: Book)
    requires Sound(s, b, None)
    ensures IsBasis(s, b.boundaries, b.Knows())
  {
    hide Proper, Counted, Recalled, CheckpointsCount, Closed, AllCallable;
  }

  /** Some function of the next round asks for more than a budget allows. */
  ghost predicate RoundRunsOut(s: Setting, b: Book, d: BudgetDimension) {
    var w := NextWave(s, b);
    exists graphs, i ::
      AnalyzesWave(s, w.entries, b.known, graphs) && 0 <= i < |w.entries|
      && WaveRunsOut(s, AfterTaking(s, b), w.entries, graphs, b.Knows(), i, d)
  }

  /** What a round of discovery gives. */
  ghost predicate WaveGives(s: Setting, b: Book, o: Outcome<Book>) {
    match o
    case Done(c) =>
      && Discovering(s, c, [], 0) && Grown(b, c)
      && c.seedCount - |c.pending| > b.seedCount - |b.pending|
    case OverBudget(d) => RoundRunsOut(s, b, d)
    case Fault(code) => MayFault(s, code)
  }

  /** A round keeps the invariant, and each entry it pops uses up seed budget. */
  lemma RunningKeepsDiscovering(s: Setting, b: Book, o: Outcome<Book>)
    requires IsFit(s) && Discovering(s, b, [], 0) && RunsWave(s, b, o)
    ensures WaveGives(s, b, o)
  {
    hide Discovering, IsFit, IsBasis, Analyzes, ProcessWave, TakeWave, WaveRunsOut, MayFault, AllProcessed, Grown, Sound,
         IsWaveOf, FailuresAreBare, Confined;
    var w := NextWave(s, b);
    var graphs :| AnalyzesWave(s, w.entries, b.known, graphs)
                  && o == ProcessWave(s, AfterTaking(s, b), w.entries, graphs, b.Knows());
    DiscoveringIsSound(s, b);
    SoundKnows(s, b);
    TakingKeepsDiscovering(s, b);
    TakesAWave(b.pending, b.processed, s.Width());
    WaveKeepsDiscovering(s, AfterTaking(s, b), w.entries, graphs, b.Knows(), |w.entries|);
    assert w.entries[..|w.entries|] == w.entries && graphs[..|graphs|] == graphs;
    if o.Done? {
      WaveIsOver(s, o.value, w.entries);
      GrownFromTaken(s, b, o.value);
    }
  }

  lemma GrownFromTaken(s: Setting, b: Book, c: Book)
    requires Grown(AfterTaking(s, b), c)
    ensures Grown(b, c)
  {
    hide SameEvidence, IsCallee, KeepsEvidence, TakeWave;
    assert AfterTaking(s, b).records == b.records && AfterTaking(s, b).known == b.known;
    forall x | x in c.records
      ensures (x in b.records && SameEvidence(b.records[x], c.records[x])) || IsRatedByCall(b, c, x)
    {
      assert (x in b.records && SameEvidence(b.records[x], c.records[x])) || IsRatedByCall(AfterTaking(s, b), c, x);
    }
  }

  lemma DiscoveringIsSound(s: Setting, b: Book)
    requires Discovering(s, b, [], 0)
    ensures Sound(s, b, None) && b.checkpoints == map[] && b.passes == 0
    ensures Confined(s.input, s.limits) ==> FailuresAreBare(b.records)
  {
  }

  lemma WaveIsOver(s: Setting, b: Book, entries: seq<Address>)
    requires Discovering(s, b, entries, |entries|)
    ensures Discovering(s, b, [], 0)
  {
    hide Sound;
    assert forall e :: !Remaining(entries, |entries|, e) && !Remaining([], 0, e);
  }

  /** Every reachable state of discovery. */
  lemma {:induction false} WavesKeepDiscovering(s: Setting, start: Book, n: nat, b: Book)
    requires IsFit(s) && Discovering(s, start, [], 0) && WavesTo(s, start, n, b)
    ensures Discovering(s, b, [], 0) && Grown(start, b)
  {
    hide Discovering, RunsWave;
    if n > 0 {
      var m :| WavesTo(s, start, n - 1, m) && RunsWave(s, m, Done(b));
      WavesKeepDiscovering(s, start, n - 1, m);
      RunningKeepsDiscovering(s, m, Done(b));
      GrownOn(start, m, b);
    }
  }

  lemma NothingPending(s: Setting, b: Book)
    requires Discovering(s, b, [], 0) && b.pending == {}
    ensures NoneWaiting(b.records)
  {
    hide Sound, Balanced;
    assert forall e :: !Remaining([], 0, e);
  }

  /** Discovery gets to a round that asks for more than a budget allows. */
  ghost predicate DiscoveryRunsOut(s: Setting, start: Book, d: BudgetDimension) {
    exists n, b :: WavesTo(s, start, n, b) && RoundRunsOut(s, b, d)
  }

  /** When discovery ends, every function is analyzed or failed. */
  lemma DiscoveryIsSound(s: Setting, start: Book, o: Outcome<Book>)
    requires IsFit(s) && Discovering(s, start, [], 0) && Discovers(s, start, o)
    ensures
      match o
      case Done(b) => Discovering(s, b, [], 0) && b.pending == {} && NoneWaiting(b.records) && Grown(start, b)
      case OverBudget(d) => DiscoveryRunsOut(s, start, d)
      case Fault(code) => MayFault(s, code)
  {
    hide RoundRunsOut, RunsWave, Discovering, MayFault, IsFit, Grown, WavesTo;
    var n, b :| WavesTo(s, start, n, b)
                && if b.pending == {} then o == Done(b) else o.IsFailure() && RunsWave(s, b, o);
    WavesKeepDiscovering(s, start, n, b);
    if b.pending == {} {
      NothingPending(s, b);
    } else {
      RunningKeepsDiscovering(s, b, o);
    }
  }

  lemma DiscoveringIsCounted(s: Setting, b: Book)
    requires Discovering(s, b, [], 0)
    ensures b.seedCount <= s.budgets.maxSeeds
  {
    hide Proper, Traced, Recalled, CheckpointsCount, Closed, AllCallable;
  }

  // A failure stands.

  lemma {:induction false} CallsFail(s: Setting, b: Book, targets: seq<Address>, k: nat)
    requires k <= |targets| && AddCalls(s, b, targets[..k]).IsFailure()
    ensures AddCalls(s, b, targets) == AddCalls(s, b, targets[..k])
    decreases |targets| - k
  {
    hide AddCall, ModuleInput.InRange;
    if k == |targets| {
      assert targets[..k] == targets;
    } else {
      assert targets[..k + 1][..k] == targets[..k];
      CallsFail(s, b, targets, k + 1);
    }
  }

  lemma {:induction false} WaveFails(s: Setting, b: Book, entries: seq<Address>, graphs: seq<Result<Graph>>, at: Knowledge,
                                     i: nat)
    requires |graphs| == |entries| && i <= |entries| && ProcessWave(s, b, entries[..i], graphs[..i], at).IsFailure()
    ensures ProcessWave(s, b, entries, graphs, at) == ProcessWave(s, b, entries[..i], graphs[..i], at)
    decreases |entries| - i
  {
    hide Process;
    if i == |entries| {
      assert entries[..i] == entries && graphs[..i] == graphs;
    } else {
      assert entries[..i + 1][..i] == entries[..i] && graphs[..i + 1][..i] == graphs[..i];
      WaveFails(s, b, entries, graphs, at, i + 1);
    }
  }

  lemma {:induction false} SeedsFail(s: Setting, k: nat)
    requires k <= |s.input.seeds| && AddSeeds(s, k).IsFailure()
    ensures AddSeeds(s, |s.input.seeds|) == AddSeeds(s, k)
    decreases |s.input.seeds| - k
  {
    hide AddSeed, ModuleInput.IsEntry;
    if k < |s.input.seeds| {
      SeedsFail(s, k + 1);
    }
  }
}
