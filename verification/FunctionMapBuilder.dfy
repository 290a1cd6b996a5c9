/** Function discovery, boundary finalization and publication of one module's function map. */
module FunctionMapBuilder {
  import opened Common
  import opened ControlFlow
  import opened CodeRanges
  import opened CfgTheorems
  import opened FunctionRecords
  import opened FunctionMaps
  import opened FunctionDiscovery
  import opened BuildSteps
  import opened BuildInvariant
  import opened BuildRuns
  import opened Finalization
  import opened PassBudgets
  import opened AmpleBudgets
  import opened FunctionPublication
  import opened PublishedEvidence
  import ProcessIndex

  /** What a step has given: the state it leaves, or its failure. */
  ghost function Ended<T>(r: Outcome<T>, b: Book): Outcome<Book> {
    if r.Done? then Done(b) else r.PropagateFailure()
  }

  /** The input is refused, or a closure has no root. */
  ghost predicate IsPreparationFault(input: ModuleInput, options: BuildOptions, code: ErrorCode) {
    if !InputIsValid(input, options.budgets) then IsInputFault(input, options.budgets, code)
    else options.closureRoots == Some({}) && code == InvalidArgument
  }

  class FunctionMapBuilder {
    const input: ModuleInput
    const options: BuildOptions
    var budgets: Budgets
    var limits: AnalysisOptions
    var records: map<Address, FunctionRecord>
    var pending: set<Address>
    var processed: set<Address>
    var known: set<Address>
    var cfgKnown: set<Address>
    var boundaries: seq<Address>
    var checkpoints: map<Address, nat>
    var seedCount: nat
    var usage: Usage
    var passes: nat
    ghost var basis: map<Address, Knowledge>

    constructor (input: ModuleInput, options: BuildOptions)
      ensures this.input == input && this.options == options
    {
      this.input, this.options := input, options;
      budgets, limits := options.budgets, options.cfg;
      records, pending, processed, known, cfgKnown := map[], {}, {}, {}, {};
      boundaries, checkpoints, seedCount, usage, passes, basis := [], map[], 0, Usage(0, 0, 0, 0), 0, map[];
    }

    /** The containers and counters, as the steps of a build see them. */
    ghost function Now(): Book
      reads this
    {
      Book(records, pending, processed, seedCount, known, boundaries, checkpoints, usage, passes, basis)
    }

    /** What does not change once the budgets and limits are chosen. */
    function Fixed(): Setting
      reads this`budgets, this`limits
    {
      Setting(input, options, budgets, limits)
    }

    /** `add_seed`. */
    method AddSeed(seed: FunctionSeed) returns (r: Outcome<()>)
      modifies this`records, this`pending, this`seedCount
      ensures Ended(r, Now()) == BuildSteps.AddSeed(Fixed(), old(Now()), seed)
    {
      hide ModuleInput.IsEntry;
      var canonical := seed.Canonical();
      if !input.IsEntry(seed.entry) || !input.IsEntry(canonical) {
        return Fault(InvalidGuestAddress);
      }
      if canonical !in records && |records| >= budgets.maxFunctions {
        return OverBudget(Functions);
      }
      records := WithSeed(records, seed);
      if canonical !in pending {
        pending := pending + {canonical};
        if seedCount >= budgets.maxSeeds {
          return OverBudget(Seeds);
        }
        seedCount := seedCount + 1;
      } else {
        assert pending + {canonical} == pending;
      }
      return Done(());
    }

    /** A call target becomes a function and a boundary; tells whether the boundary is new. */
    method ExpandCall(target: Address) returns (r: Outcome<bool>)
      modifies this`records, this`pending, this`seedCount, this`known, this`boundaries
      ensures Ended(r, Now()) == AddCall(Fixed(), old(Now()), target)
      ensures r.Done? ==> |boundaries| == |old(boundaries)| + if r.value then 1 else 0
    {
      hide BuildSteps.AddSeed;
      var _ :- AddSeed(FunctionSeed(target, DirectCallSource, High, None));
      if target in known {
        return Done(false);
      }
      known := known + {target};
      boundaries := boundaries + [target];
      return Done(true);
    }

    /** Every in-range call target, in order; tells whether there was a new boundary. */
    method ExpandCalls(targets: seq<Address>) returns (r: Outcome<bool>)
      modifies this`records, this`pending, this`seedCount, this`known, this`boundaries
      ensures Ended(r, Now()) == AddCalls(Fixed(), old(Now()), targets)
      ensures r.Done? ==> |boundaries| >= |old(boundaries)| && (r.value <==> |boundaries| > |old(boundaries)|)
    {
      hide AddCall, ModuleInput.InRange;
      var changed := false;
      for k := 0 to |targets|
        invariant AddCalls(Fixed(), old(Now()), targets[..k]) == Done(Now())
        invariant |boundaries| >= |old(boundaries)| && (changed <==> |boundaries| > |old(boundaries)|)
      {
        assert targets[..k + 1][..k] == targets[..k];
        if input.InRange(targets[k]) {
          var isNew := ExpandCall(targets[k]);
          if isNew.IsFailure() {
            CallsFail(Fixed(), old(Now()), targets, k + 1);
            return isNew;
          }
          changed := changed || isNew.value;
        }
      }
      assert targets[..|targets|] == targets;
      return Done(changed);
    }

    /** Adds a finished analysis to the consumed work, when the budgets still cover it. */
    method Account(g: Graph) returns (r: Outcome<()>)
      modifies this`usage
      ensures
        var dimension := Overrun(old(usage), g, budgets);
        r == if dimension.Some? then OverBudget(dimension.value) else Done(())
      ensures r.Done? ==> usage == Consumed(old(usage), g)
    {
      if usage.instructions + g.instructionCount > MAX64 || usage.blocks + |g.blocks| > MAX64 {
        return OverBudget(Instructions);
      }
      var graphEdges := CountEdges(g);
      if usage.edges + graphEdges > MAX64 {
        return OverBudget(Edges);
      }
      if g.instructionCount > MAX64 / 4 || usage.bytes + 4 * g.instructionCount > MAX64 {
        return OverBudget(BytesAnalyzed);
      }
      var next := Usage(usage.instructions + g.instructionCount, usage.blocks + |g.blocks|, usage.edges + graphEdges,
                        usage.bytes + 4 * g.instructionCount);
      if next.instructions > budgets.maxInstructions {
        return OverBudget(Instructions);
      }
      if next.blocks > budgets.maxBlocks {
        return OverBudget(Blocks);
      }
      if next.edges > budgets.maxEdges {
        return OverBudget(Edges);
      }
      if next.bytes > budgets.maxBytes {
        return OverBudget(BytesAnalyzed);
      }
      usage := next;
      return Done(());
    }

    /** One analysis with the entries that are known to the graph builder at this point. */
    method Analyze(entry: Address) returns (r: Result<Graph>)
      requires input.guest.FetchesCode()
      ensures Analyzes(Fixed(), entry, cfgKnown, r)
    {
      hide GuestView.FetchesCode, Problem.IsAnalysis;
      r := AnalyzeControlFlow(input.guest, entry, limits.(knownEntries := cfgKnown));
    }

    /** The record with the graph, and with what it owns and calls when that can be told. */
    method Describe(f: FunctionRecord, g: Graph) returns (r: FunctionRecord)
      ensures r == Described(Fixed(), known, f, g)
      ensures r.status.Analyzed? || r.status.Failed?
    {
      hide Ownable, OwnedEntries, RangesOf;
      var owned := PopulateOwnership(f.(cfg := Some(g)), input.executable);
      if owned.Err? {
        return f.(cfg := Some(g), status := Failed);
      }
      var dependencies := CollectDependencies(owned.value.ranges, known);
      return owned.value.(dependencies := dependencies, status := Analyzed);
    }

    /** Charges a graph to the budgets and puts it into its record; tells whether it could be owned. */
    method StoreGraph(e: Address, g: Graph, ghost at: Knowledge) returns (r: Outcome<bool>)
      requires e in records
      modifies this`records, this`usage, this`basis
      ensures Ended(r, Now()) == Store(Fixed(), old(Now()), e, g, at)
      ensures r.Done? ==> e in records && (r.value <==> records[e].status.Analyzed?)
    {
      hide Described, Overrun, Consumed;
      var _ :- Account(g);
      var f := Describe(records[e], g);
      records := records[e := f];
      basis := basis[e := at];
      return Done(f.status.Analyzed?);
    }

    /** `process_graph`: what becomes of the analysis of one discovered function. */
    method ProcessGraph(e: Address, graph: Result<Graph>, ghost at: Knowledge) returns (r: Outcome<()>)
      requires cfgKnown == known
      modifies this`records, this`pending, this`seedCount, this`known, this`cfgKnown, this`boundaries, this`usage,
               this`basis
      ensures Ended(r, Now()) == Process(Fixed(), old(Now()), e, graph, at)
      ensures cfgKnown == known || r.IsFailure()
    {
      hide Store, AddCalls;
      if e !in records {
        return Fault(InvalidFormat);
      }
      if graph.Err? {
        var dimension := CfgBudgetDimension(graph.code);
        if dimension.Some? {
          return OverBudget(dimension.value);
        }
        records := records[e := records[e].(status := Failed)];
        basis := basis[e := at];
        return if options.continueAfterFailure then Done(()) else Fault(graph.code);
      }
      var owned :- StoreGraph(e, graph.value, at);
      if !owned {
        return if options.continueAfterFailure then Done(()) else Fault(OwnershipError(graph.value));
      }
      var _ :- ExpandCalls(records[e].directCalls);
      cfgKnown := known;
      return Done(());
    }

    /** Takes the smallest pending entries that are still unprocessed, up to one for each worker. */
    method PopWave() returns (entries: seq<Address>)
      modifies this`pending, this`processed
      ensures Wave(entries, pending, processed) == TakeWave(old(pending), old(processed), Fixed().Width())
    {
      entries := [];
      var width := Fixed().Width();
      while pending != {} && |entries| < width
        invariant |entries| <= width
        invariant
          var rest := TakeWave(pending, processed, width - |entries|);
          rest.(entries := entries + rest.entries) == TakeWave(old(pending), old(processed), width)
        decreases |pending|
      {
        var e := Least(pending);
        pending := pending - {e};
        if e !in processed {
          ghost var rest := TakeWave(pending, processed + {e}, width - |entries| - 1);
          assert entries + ([e] + rest.entries) == entries + [e] + rest.entries;
          processed := processed + {e};
          entries := entries + [e];
        }
      }
    }

    /** `analyze_wave`: the analyses of one wave see the same known entries, and none sees another. */
    method AnalyzeWave(entries: seq<Address>) returns (graphs: seq<Result<Graph>>)
      requires input.guest.FetchesCode()
      ensures AnalyzesWave(Fixed(), entries, cfgKnown, graphs)
    {
      hide GuestView.FetchesCode, Analyzes;
      graphs := [];
      for i := 0 to |entries|
        invariant |graphs| == i && forall k :: 0 <= k < i ==> Analyzes(Fixed(), entries[k], cfgKnown, graphs[k])
      {
        var graph := Analyze(entries[i]);
        graphs := graphs + [graph];
      }
    }

    /** The results of a wave are merged in the order of its entries. */
    method ProcessWave(entries: seq<Address>, graphs: seq<Result<Graph>>, ghost at: Knowledge) returns (r: Outcome<()>)
      requires |graphs| == |entries| && cfgKnown == known
      modifies this`records, this`pending, this`seedCount, this`known, this`cfgKnown, this`boundaries, this`usage,
               this`basis
      ensures Ended(r, Now()) == BuildSteps.ProcessWave(Fixed(), old(Now()), entries, graphs, at)
      ensures r.Done? ==> cfgKnown == known
    {
      hide Process;
      for i := 0 to |entries|
        invariant BuildSteps.ProcessWave(Fixed(), old(Now()), entries[..i], graphs[..i], at) == Done(Now())
        invariant cfgKnown == known
      {
        assert entries[..i + 1][..i] == entries[..i] && graphs[..i + 1][..i] == graphs[..i];
        r := ProcessGraph(entries[i], graphs[i], at);
        if r.IsFailure() {
          WaveFails(Fixed(), old(Now()), entries, graphs, at, i + 1);
          return;
        }
      }
      assert entries[..|entries|] == entries && graphs[..|graphs|] == graphs;
      return Done(());
    }

    /** One round of discovery. */
    method RunWave() returns (r: Outcome<()>)
      requires input.guest.FetchesCode() && pending != {} && cfgKnown == known
      modifies this`records, this`pending, this`processed, this`seedCount, this`known, this`cfgKnown, this`boundaries,
               this`usage, this`basis
      ensures RunsWave(Fixed(), old(Now()), Ended(r, Now()))
      ensures r.Done? ==> cfgKnown == known
    {
      hide GuestView.FetchesCode, BuildSteps.ProcessWave, TakeWave, Analyzes;
      ghost var start := Now();
      var entries := PopWave();
      ghost var w := NextWave(Fixed(), start);
      assert w == Wave(entries, pending, processed) && Now() == start.(pending := w.pending, processed := w.processed);
      var graphs := AnalyzeWave(entries);
      assert AnalyzesWave(Fixed(), w.entries, start.known, graphs);
      r := ProcessWave(entries, graphs, start.Knows());
    }

    /** Waves follow one another until nothing is pending; each entry popped uses up seed budget. */
    method Discover() returns (r: Outcome<()>)
      requires IsFit(Fixed()) && Discovering(Fixed(), Now(), [], 0) && cfgKnown == known
      modifies this`records, this`pending, this`processed, this`seedCount, this`known, this`cfgKnown,
               this`boundaries, this`usage, this`basis
      ensures Discovers(Fixed(), old(Now()), Ended(r, Now()))
      ensures r.Done? ==> cfgKnown == known
    {
      hide IsFit, Discovering, RunsWave;
      FitFetchesCode(Fixed());
      ghost var start, n := Now(), 0;
      DiscoveringIsCounted(Fixed(), Now());
      while pending != {}
        invariant WavesTo(Fixed(), start, n, Now()) && Discovering(Fixed(), Now(), [], 0)
        invariant cfgKnown == known && seedCount <= budgets.maxSeeds
        decreases budgets.maxSeeds - seedCount + |pending|
      {
        ghost var before := Now();
        r := RunWave();
        RunningKeepsDiscovering(Fixed(), before, Ended(r, Now()));
        if r.IsFailure() {
          return;
        }
        n := n + 1;
        DiscoveringIsCounted(Fixed(), Now());
      }
      return Done(());
    }

    /** One function of a finalization pass; tells whether a new boundary was found. */
    method FinalizeRecord(e: Address, ghost at: Knowledge) returns (r: Outcome<bool>)
      requires IsFit(Fixed()) && Sound(Fixed(), Now(), None) && IsBasis(Fixed(), boundaries, at)
      requires e in records && cfgKnown == at.entries
      modifies this`records, this`pending, this`seedCount, this`known, this`boundaries, this`checkpoints, this`usage,
               this`basis
      ensures Visits(Fixed(), old(Now()), at, e, Ended(r, Now()))
      ensures r.Done? ==> VisitRecords(Fixed(), old(Now()), at, e, Now())
      ensures r.Done? ==> |boundaries| >= |old(boundaries)| && (r.value <==> |boundaries| > |old(boundaries)|)
    {
      hide IsFit, Sound, IsBasis, Analyzes, Rework, MayKeep, VisitRecords;
      ghost var start := Now();
      FitFetchesCode(Fixed());
      var f := records[e];
      if (f.cfg.None? && !f.status.Discovered?) || MayKeep(f, e, boundaries, checkpoints) {
        VisitIsRecorded(Fixed(), start, at, e, start);
        return Done(false);
      }
      var graph := Analyze(e);
      r := Replace(e, graph, at);
      if r.Done? {
        VisitIsRecorded(Fixed(), start, at, e, Now());
      }
    }

    /** The new graph takes the place of the old one, and its calls are followed up. */
    method Replace(e: Address, graph: Result<Graph>, ghost at: Knowledge) returns (r: Outcome<bool>)
      requires e in records
      modifies this`records, this`pending, this`seedCount, this`known, this`boundaries, this`checkpoints, this`usage,
               this`basis
      ensures Ended(r, Now()) == Rework(Fixed(), old(Now()), e, graph, at)
      ensures r.Done? ==> |boundaries| >= |old(boundaries)| && (r.value <==> |boundaries| > |old(boundaries)|)
    {
      hide Store, AddCalls;
      if graph.Err? {
        var dimension := CfgBudgetDimension(graph.code);
        if dimension.Some? {
          return OverBudget(dimension.value);
        }
        records := records[e := Dropped(records[e])];
        basis := basis[e := at];
        return Done(false);
      }
      var owned :- StoreGraph(e, graph.value, at);
      StoreKeepsCheckpoints(Fixed(), old(Now()), e, graph.value, at);
      if !owned {
        return Done(false);
      }
      checkpoints := checkpoints[e := |boundaries|];
      r := ExpandCalls(records[e].directCalls);
    }

    /** The next function after the iterator, in a pass that began in `start`. */
    method FinalizeNext(e: Address, ghost start: Book, ghost cursor: Address, ghost visited: set<Address>)
      returns (r: Outcome<bool>)
      requires IsFit(Fixed()) && InPass(Fixed(), start, Now(), cursor) && Behind(records, visited, cursor)
      requires Later(records, cursor) != {} && e == Least(Later(records, cursor)) && cfgKnown == start.known
      modifies this`records, this`pending, this`seedCount, this`known, this`boundaries, this`checkpoints, this`usage,
               this`basis
      ensures VisitsNext(Fixed(), old(Now()), start.Knows(), cursor, Ended(r, Now()))
      ensures r.Done? ==> InPass(Fixed(), start, Now(), e)
      ensures r.Done? ==> Behind(records, visited + {e}, e) && |visited + {e}| == |visited| + 1 <= budgets.maxFunctions
      ensures r.Done? ==> |boundaries| >= |old(boundaries)| && (r.value <==> |boundaries| > |old(boundaries)|)
    {
      hide IsFit, InPass, Visits, Behind, Moves, Sound, IsBasis, VisitRecords, StepRunsOut, MayFault;
      ghost var before := Now();
      InPassIsSound(Fixed(), start, before, cursor);
      NextIsLeast(before, cursor);
      r := FinalizeRecord(e, start.Knows());
      VisitKeepsPass(Fixed(), start, before, cursor, Ended(r, Now()));
      if r.Done? {
        VisitedMore(before, Now(), visited, cursor, e);
        PassIsCounted(Fixed(), start, Now(), e);
        VisitedAreFew(records, visited + {e}, e);
      }
    }

    /** Visits every function by increasing entry, also those recorded on the way ahead of the iterator. */
    method FinalizeAll() returns (r: Outcome<bool>, ghost n: nat, ghost last: Book, ghost cursor: Address)
      requires IsFit(Fixed()) && Sound(Fixed(), Now(), None) && cfgKnown == known
      modifies this`records, this`pending, this`seedCount, this`known, this`boundaries, this`checkpoints, this`usage,
               this`basis
      ensures VisitsTo(Fixed(), old(Now()), old(Now()).Knows(), n, last, cursor)
      ensures
        if r.Done? then
          && last == Now() && Later(records, cursor) == {}
          && (r.value <==> |boundaries| > |old(boundaries)|) && |boundaries| >= |old(boundaries)|
        else VisitsNext(Fixed(), last, old(Now()).Knows(), cursor, Ended(r, Now()))
    {
      hide IsFit, Sound, InPass, VisitsTo, VisitsNext, Behind;
      ghost var start, visited: set<Address> := Now(), {};
      var changed, at := false, -1;
      n, last, cursor := 0, start, -1;
      PassStarts(Fixed(), start);
      var later := Later(records, at);
      while later != {}
        invariant later == Later(records, at) && cursor == at && last == Now() && cfgKnown == start.known
        invariant VisitsTo(Fixed(), start, start.Knows(), n, Now(), at) && InPass(Fixed(), start, Now(), at)
        invariant |boundaries| >= |start.boundaries| && (changed <==> |boundaries| > |start.boundaries|)
        invariant Behind(records, visited, at) && |visited| == n <= budgets.maxFunctions
        decreases budgets.maxFunctions - n
      {
        var e := Least(later);
        var isNew := FinalizeNext(e, start, at, visited);
        if isNew.IsFailure() {
          return isNew, n, last, cursor;
        }
        VisitsOnce(Fixed(), start, n, last, at, Now());
        changed := changed || isNew.value;
        at, cursor, last, n, visited := e, e, Now(), n + 1, visited + {e};
        later := Later(records, at);
      }
      return Done(changed), n, last, cursor;
    }

    /** One finalization pass, with the entries known at its start. */
    method FinalizePass() returns (r: Outcome<bool>)
      requires IsFit(Fixed()) && Sound(Fixed(), Now(), None)
      modifies this`records, this`pending, this`seedCount, this`known, this`cfgKnown, this`boundaries,
               this`checkpoints, this`usage, this`passes, this`basis
      ensures RunsPass(Fixed(), old(Now()), Ended(r, Now()))
      ensures r.Done? ==> (r.value <==> Changed(old(Now()), Now()))
    {
      hide IsFit, Sound, VisitsTo, Visits;
      cfgKnown := known;
      ghost var n, last, cursor;
      ghost var start := Now();
      r, n, last, cursor := FinalizeAll();
      pending, passes := {}, passes + 1;
      PassRuns(Fixed(), start, n, last, cursor, Ended(r, Now()));
    }

    /** Passes go on until one of them finds no new boundary. */
    method Finalize() returns (r: Outcome<()>)
      requires IsFit(Fixed()) && Sound(Fixed(), Now(), None) && passes == 0 && budgets.maxPasses > 0
      modifies this`records, this`pending, this`seedCount, this`known, this`cfgKnown, this`boundaries,
               this`checkpoints, this`usage, this`passes, this`basis
      ensures Finalizes(Fixed(), old(Now()), Ended(r, Now()))
    {
      hide IsFit, Sound, RunsPass, Grown, AllSettled, AllRest, Calm, PassRunsOut, MayFault;
      ghost var start, n := Now(), 0;
      while passes < budgets.maxPasses
        invariant PassesTo(Fixed(), start, n, Now()) && Sound(Fixed(), Now(), None)
        invariant passes < budgets.maxPasses
      {
        ghost var before := Now();
        var changed := FinalizePass();
        PassIsSound(Fixed(), before, Ended(changed, Now()));
        if changed.IsFailure() {
          return changed.PropagateFailure();
        }
        if !changed.value {
          return Done(());
        }
        if passes == budgets.maxPasses {
          return OverBudget(FinalizationPasses);
        }
        n := n + 1;
      }
      assert false;
    }

    /** The supplied seeds that are included become functions; strong ones become known entries. */
    method AddSeeds() returns (r: Outcome<()>)
      requires Now() == EmptyBook(Fixed())
      modifies this`records, this`pending, this`seedCount, this`known
      ensures Ended(r, Now()) == BuildSteps.AddSeeds(Fixed(), |input.seeds|)
    {
      hide BuildSteps.AddSeed, ModuleInput.IsEntry;
      for k := 0 to |input.seeds|
        invariant BuildSteps.AddSeeds(Fixed(), k) == Done(Now())
      {
        var seed := input.seeds[k];
        if !input.IsEntry(seed.entry) || !input.IsEntry(seed.Canonical()) {
          SeedsFail(Fixed(), k + 1);
          return Fault(InvalidGuestAddress);
        }
        if options.Includes(seed) {
          r := AddSeed(seed);
          if r.IsFailure() {
            SeedsFail(Fixed(), k + 1);
            return;
          }
          if seed.IsBoundaryWorthy() {
            known := known + {seed.Canonical(), seed.entry};
          }
        }
      }
      return Done(());
    }

    method Reset()
      modifies this`records, this`pending, this`processed, this`boundaries, this`checkpoints, this`seedCount,
               this`usage, this`passes, this`known, this`basis
      ensures Now() == EmptyBook(Fixed())
    {
      records, pending, processed, boundaries, checkpoints := map[], {}, {}, [], map[];
      seedCount, usage, passes, basis := 0, Usage(0, 0, 0, 0), 0, map[];
      known := InitialEntries(options);
    }

    /** The empty state of a build, and in it the supplied seeds; there must be one. */
    method SeedRecords() returns (r: Outcome<()>)
      modifies this`records, this`pending, this`processed, this`boundaries, this`checkpoints, this`seedCount,
               this`usage, this`passes, this`known, this`cfgKnown, this`basis
      ensures Ended(r, Now()) == Seeded(Fixed())
      ensures r.Done? ==> cfgKnown == known
    {
      hide BuildSteps.AddSeeds, EmptyBook;
      Reset();
      var _ :- AddSeeds();
      if records == map[] {
        return Fault(if options.closureRoots.Some? then AnalysisScopeViolation else InvalidArgument);
      }
      cfgKnown := known;
      return Done(());
    }

    /** Validation of the input and the options, and the budgets and limits of the build. */
    method Prepare() returns (r: Outcome<()>)
      modifies this`budgets, this`limits
      ensures r.Done? <==> InputIsValid(input, options.budgets) && options.closureRoots != Some({})
      ensures r.Done? ==> budgets.maxPasses > 0 && Fixed() == SettingOf(input, options)
      ensures r.Done? && budgets.maxFunctions < Capacity(input.executable) ==>
                options.budgets.maxFunctions < Capacity(input.executable)
      ensures !r.OverBudget?
      ensures r.Fault? ==> IsPreparationFault(input, options, r.code)
    {
      hide InputIsValid, Capacity, IsInputFault;
      var _ :- ValidateInput(input, options.budgets);
      var derived := DeriveBudgets(input, options.budgets);
      if derived.IsFailure() {
        assert false;
      }
      budgets := derived.value;
      if options.closureRoots == Some({}) {
        return Fault(InvalidArgument);
      }
      limits := AnalysisLimits(input, options.cfg, budgets);
      return Done(());
    }

    /** Seeding, discovery and finalization. */
    method Settle() returns (r: Outcome<()>)
      requires IsFit(Fixed()) && budgets.maxPasses > 0
      modifies this`records, this`pending, this`processed, this`boundaries, this`checkpoints, this`seedCount,
               this`usage, this`passes, this`known, this`cfgKnown, this`basis
      ensures Settles(Fixed(), Ended(r, Now())) && SettlingGives(Fixed(), Ended(r, Now()))
    {
      hide IsFit, Seeded, Discovers, Finalizes, Discovering, Sound, SettlingGives;
      r := SeedRecords();
      SeededGives(Fixed());
      if r.Done? {
        ghost var start := Now();
        r := Discover();
        DiscoveryIsSound(Fixed(), start, Ended(r, Now()));
        if r.Done? {
          ghost var discovered := Now();
          DiscoveringIsSound(Fixed(), discovered);
          r := Finalize();
          FinalizedSettles(Fixed(), start, discovered, Ended(r, Now()));
        } else {
          assert Discovers(Fixed(), start, Ended(r, Now()));
        }
      }
      SettlingIsSound(Fixed(), Ended(r, Now()));
    }

    /** The finished records by entry, each with its entries sorted and without repetition. */
    method ListFunctions() returns (fs: seq<FunctionRecord>)
      requires Proper(Fixed(), records)
      ensures SortedByEntry(fs) && ListsRecords(fs, records, {})
      ensures forall i :: 0 <= i < |fs| ==> Normalized(fs[i].ranges)
    {
      hide Proper, Normalized;
      fs := [];
      var remaining := records.Keys;
      while remaining != {}
        invariant Listing(fs, records, remaining)
        decreases remaining
      {
        hide Listing;
        var e := Least(remaining);
        LeastIsRecorded(fs, records, remaining);
        ListNextRecord(Fixed(), fs, records, remaining, e);
        fs := fs + [WithSortedEntries(records[e])];
        remaining := remaining - {e};
      }
    }

    /** Conflicts are computed and marked on the finished functions, and the whole map is validated. */
    method Publish() returns (r: Outcome<FunctionMap>)
      requires Sound(Fixed(), Now(), None)
      ensures r.Done? <==> Publishable(Fixed(), records)
      ensures r.Done? ==>
                && IsValid(r.value) && r.value.name == input.name && r.value.executable == input.executable
                && Publishes(r.value.functions, records) && ProcessIndex.WellMade(r.value)
                && MarksDisputes(r.value.functions)
      ensures !r.OverBudget?
      ensures r.Fault? ==> IsRejected(Fixed(), records, r.code)
    {
      hide SomeFunctionFaults, FunctionsAreValid, IsRejected, MarksDisputes, NoneIsMarked, Sound, Proper, SortedByEntry, ListsRecords, Normalized, ConflictsAreExact, IsMarking, Publishes, IsValid,
           ConflictsAreValid, Publishable, ProcessIndex.WellMade, ModuleInput.InRange;
      SoundIsProper(Fixed(), Now());
      var fs := ListFunctions();
      var conflicts := ComputeConflicts(fs);
      var marked := MarkConflicts(fs, conflicts);
      var m := FunctionMap(input.name, input.executable, marked, conflicts, true);
      var valid := ValidateFunctionMap(m);
      MarkingPublishes(fs, marked, conflicts, records);
      ConflictPassIsValid(m, fs);
      ValidExactly(Fixed(), Now(), m);
      if valid.Err? {
        RejectionIs(Fixed(), records, m, valid.code);
        return Fault(valid.code);
      }
      PublishedIsWellMade(Fixed(), m, records);
      ListedAreUnmarked(Fixed(), Now(), fs);
      ValidMarks(m);
      MarkingMarksDisputes(fs, marked, conflicts);
      return Done(m);
    }

    /** `FunctionMapBuilder::build`, without a map to reuse. */
    method Build() returns (r: Outcome<FunctionMap>)
      requires input.guest.FetchesCode()
      modifies this
      ensures InputIsValid(input, options.budgets) && options.closureRoots != Some({}) ==> Fixed() == SettingOf(input, options)
      ensures r.Done? ==>
                && IsPublished(Fixed(), Now(), r.value) && ProcessIndex.WellMade(r.value)
                && TellsTheBuild(Fixed(), Now(), r.value)
                && InputIsValid(input, options.budgets) && options.closureRoots != Some({})
                && Settles(Fixed(), Done(Now())) && Publishable(Fixed(), records)
      ensures r.Done? && StartsConfined(input, options.cfg) ==> passes == 1 && OthersFailed(r.value.functions)
      ensures r.OverBudget? ==>
                && InputIsValid(input, options.budgets) && options.closureRoots != Some({})
                && Settles(Fixed(), OverBudget(r.dimension))
                && (SettlingRunsOut(Fixed(), r.dimension)
                    || (r.dimension.FinalizationPasses? && !StartsConfined(input, options.cfg)))
      ensures r == OverBudget(FinalizationPasses) ==> !StartsConfined(input, options.cfg)
      ensures r == OverBudget(Functions) ==> options.budgets.maxFunctions < Capacity(input.executable)
      ensures r.Fault? ==>
                || IsPreparationFault(input, options, r.code)
                || (Settles(Fixed(), Fault(r.code)) && (SeedingFaults(Fixed(), r.code) || MayFault(Fixed(), r.code)))
                || (Settles(Fixed(), Done(Now())) && !Publishable(Fixed(), records) && IsRejected(Fixed(), records, r.code))
      ensures StartsConfined(input, options.cfg) && (r.Done? || r.OverBudget?) ==> SettlesWithin(Fixed(), Ended(r, Now()))
      ensures (InputIsValid(input, options.budgets) && options.closureRoots != Some({})
               && (StartsConfined(input, options.cfg) || CallsNothing(input.guest)) && IsAmple(Fixed()))
              ==> !r.OverBudget?
      ensures (InputIsValid(input, options.budgets) && options.closureRoots != Some({})
               && StartsConfined(input, options.cfg) && IsFaultless(Fixed()))
              ==> r.OverBudget? || (r.Done? <==> NoneShare(records))
      ensures (InputIsValid(input, options.budgets) && options.closureRoots != Some({})
               && StartsConfined(input, options.cfg) && IsFaultless(Fixed()) && IsAmple(Fixed()) && SeedsAreCanonical(Fixed()))
              ==> r.Done?
    {
      hide InputIsValid, SettingOf, Settles, Sound, Publishable, Publishes, IsPublished, IsValid, StartsConfined, Confined,
           SettlingRunsOut, MayFault, HasBadSeed, NothingIncluded, SeedingFaults, AllSettled, AllRest, Calm, OthersFailed, NoneShare, FirstAreAligned,
           IsAmple, CallsNothing, SettlesWithin, SeedsAreCanonical, ProcessIndex.WellMade, TellsTheBuild, MarksDisputes, Rated,
           IsRejected;
      var _ :- Prepare();
      LimitsOf(input, options);
      PreparedIsFit(Fixed());
      LimitsAreConfined(input, options.budgets, options.cfg, budgets);
      var settled := Settle();
      SettledWithin(Fixed(), Ended(settled, Now()));
      if settled.IsFailure() {
        FailuresHaveCauses(Fixed(), Ended(settled, Now()));
        return settled.PropagateFailure();
      }
      NoneShareWhenCanonical(Fixed(), Now());
      if StartsConfined(input, options.cfg) && FirstAreAligned(Fixed()) {
        CalmIsPublishable(Fixed(), Now());
      }
      r := Publish();
      if r.Done? {
        PublishableIsPresentable(Fixed(), records);
        SettledIsPublished(Fixed(), Now(), r.value);
        SettledTells(Fixed(), Now(), r.value);
        if StartsConfined(input, options.cfg) {
          CalmIsSettled(Fixed(), Now(), r.value.functions);
        }
      }
    }
  }
}
