/** A function that calls itself and fills the executable range: no seed budget is enough to build its map.

    The budget is cut down to the two instruction slots of the range.  The supplied seed and the call followed up in
    discovery use it up, and the finalization pass charges for the same call once more. */
module SeedBudget {
  import opened Common
  import opened ControlFlow
  import opened CodeRanges
  import opened FunctionRecords
  import opened FunctionMaps
  import opened FunctionDiscovery
  import opened FreshGraphs
  import opened CfgTheorems
  import opened BuildSteps
  import opened BuildInvariant
  import opened BuildAccounts
  import opened BuildRuns
  import opened Finalization
  import opened PassBudgets
  import opened AmpleBudgets
  import opened FunctionPublication
  import opened ShortCode
  import opened FunctionMapBuilder

  // The input.

  const HOME := Range(ENTRY, 8)

  const INPUT := ModuleInput("seeds", GuestOf(CallsItself, 2), [HOME], map[HOME := Ok(true)],
                             [FunctionSeed(ENTRY, ModuleEntry, Confirmed, None)])

  /** Options that leave the analysis to the whole range and rule nothing out from the start. */
  ghost predicate IsOpen(options: BuildOptions) {
    && options.budgets.NonZero() && options.closureRoots.None? && options.cfg.allowedRange.None?
    && options.cfg.maxInstructions > 0 && options.cfg.maxBasicBlocks > 0 && options.cfg.maxPendingTargets > 0
  }

  /** Budgets for all the work of two analyses of the two words, and any seed budget but one. */
  ghost predicate IsGenerous(options: BuildOptions) {
    && IsOpen(options) && HasRoom(options.cfg) && options.budgets.maxSeeds >= 2
    && options.budgets.maxInstructions >= 4 && options.budgets.maxBlocks >= 4
    && options.budgets.maxEdges >= 8 && options.budgets.maxBytes >= 16
  }

  lemma InputIsAccepted(budgets: Budgets)
    requires budgets.NonZero()
    ensures InputIsValid(INPUT, budgets) && PermissionsAgree(INPUT) && INPUT.guest.FetchesCode()
  {
    GuestFetchesCode(CallsItself, 2);
    assert RangeIsExecutable(INPUT, HOME);
  }

  lemma TheEntry()
    ensures INPUT.IsEntry(ENTRY) && INPUT.InRange(ENTRY)
  {
    assert INPUT.executable[0] == HOME && HOME.Holds(ENTRY, 4);
  }

  ghost function At(options: BuildOptions): Setting { SettingOf(INPUT, options) }

  lemma BytesOfHome()
    ensures SumSizes([HOME]) == 8
  {
    assert [HOME][..0] == [];
  }

  /** What a setting of this input is. */
  ghost predicate IsHome(s: Setting) {
    && s.input == INPUT && s.options.closureRoots.None? && s.limits.allowedRange == Some(HOME) && s.budgets.maxSeeds <= 2
    && s.limits.maxInstructions > 0 && s.limits.maxBasicBlocks > 0 && s.limits.maxPendingTargets > 0
  }

  ghost predicate IsRich(s: Setting) {
    && IsHome(s) && HasRoom(s.limits) && s.budgets.maxSeeds == 2 && s.budgets.maxFunctions > 0
    && s.budgets.maxInstructions >= 4 && s.budgets.maxBlocks >= 4 && s.budgets.maxEdges >= 8 && s.budgets.maxBytes >= 16
  }

  lemma PassesMultiply(n: nat, passes: nat)
    requires passes >= 2
    ensures n * passes >= 2 * n
  {
  }

  lemma ClampedIs(options: BuildOptions)
    requires IsOpen(options)
    ensures
      var b := Clamped(options.budgets, 8);
      && b.NonZero() && b.maxSeeds <= 2
      && (IsGenerous(options) ==>
            && b.maxSeeds == 2
            && b.maxInstructions >= 4 && b.maxBlocks >= 4 && b.maxEdges >= 8 && b.maxBytes >= 16)
  {
    ClampedIsNonZero(options.budgets, 8);
    var passes := if options.budgets.maxPasses == MAX64 then MAX64 else options.budgets.maxPasses + 1;
    PassesMultiply(2, passes);
    PassesMultiply(8, passes);
  }

  lemma SettingIs(options: BuildOptions)
    requires IsOpen(options)
    ensures IsFit(At(options)) && IsHome(At(options)) && (IsGenerous(options) ==> IsRich(At(options)))
  {
    InputIsAccepted(options.budgets);
    BytesOfHome();
    ClampedIs(options);
    hide Clamped, InputIsValid, GuestView.FetchesCode;
  }

  // Its analyses.

  lemma HomeIsShort(s: Setting, known: set<Address>)
    requires IsHome(s)
    ensures IsShort(s.ProblemAt(ENTRY, known), CallsItself, 2) && s.ProblemAt(ENTRY, known).entry == ENTRY
    ensures s.ProblemAt(ENTRY, known).options.allowedRange.value.End() < TWO64
    ensures Confined(s.input, s.limits)
  {
    hide GuestOf;
    assert Inside(HOME, s.input.executable[0]);
  }

  lemma HomeStartsFine(s: Setting, known: set<Address>)
    requires IsHome(s)
    ensures s.ProblemAt(ENTRY, known).EntryError().None?
  {
    HomeIsShort(s, known);
    FetchIs(s.ProblemAt(ENTRY, known), CallsItself, 2, ENTRY);
    hide GuestOf;
  }

  /** The analysis can fail for a limit only. */
  lemma OnlyLimits(s: Setting, known: set<Address>, code: ErrorCode)
    requires IsHome(s) && s.ProblemAt(ENTRY, known).FailureCause(code)
    ensures CfgBudgetDimension(code).Some?
  {
    var p := s.ProblemAt(ENTRY, known);
    HomeIsShort(s, known);
    HomeStartsFine(s, known);
    ReachIs(p, CallsItself, 2);
    forall a | p.Reaches(a)
      ensures p.StepError(a).None? && !p.TransfersTo(a, p.Starts())
    {
      StepsAre(p, CallsItself, 2, a);
    }
    hide IsShort, IsHome, Problem.EntryError, Problem.FailureCause, Problem.Reaches, Problem.StepError, Problem.TransfersTo,
         CfgBudgetDimension;
    if CfgBudgetDimension(code).None? {
      NothingToBlame(p, code);
    }
  }

  /** With limits for the two words it cannot fail. */
  lemma NothingAtAll(s: Setting, known: set<Address>, code: ErrorCode)
    requires IsRich(s)
    ensures !s.ProblemAt(ENTRY, known).FailureCause(code)
  {
    HomeIsShort(s, known);
    hide IsShort, Problem.FailureCause;
    NothingFails(s.ProblemAt(ENTRY, known), CallsItself, 2, code);
  }

  /** What is known of a graph of the function. */
  ghost predicate IsOwn(s: Setting, g: Graph) {
    && Ownable(g, s.input.executable) && InRangeOf(s, TargetsOf(g)) == {ENTRY}
    && g.instructionCount <= 2 && |g.blocks| <= 2 && EdgeCount(g) <= 4
  }

  lemma CallsOnlyItself(s: Setting, g: Graph, known: set<Address>)
    requires IsHome(s) && GraphIsFrom(s, ENTRY, g, known)
    ensures InRangeOf(s, TargetsOf(g)) == {ENTRY}
  {
    var p := s.ProblemAt(ENTRY, known);
    HomeIsShort(s, known);
    FromAnalysis(s, ENTRY, g, known);
    TheEntry();
    assert s.input == INPUT;
    assert p.entry == ENTRY;
    hide *;
    forall t
      ensures t in TargetsOf(g) <==> t == ENTRY
    {
      CalledAre(p, CallsItself, 2, g, t);
    }
    OnlyTarget(s, TargetsOf(g));
  }

  lemma OnlyTarget(s: Setting, targets: seq<Address>)
    requires s.input.InRange(ENTRY) && forall t :: t in targets <==> t == ENTRY
    ensures InRangeOf(s, targets) == {ENTRY}
  {
    hide ModuleInput.InRange;
  }

  lemma GraphIs(s: Setting, g: Graph, known: set<Address>)
    requires IsFit(s) && IsHome(s) && GraphIsFrom(s, ENTRY, g, known)
    ensures IsOwn(s, g)
  {
    hide IsFit, IsHome, IsShort, GraphIsFrom, Problem.IsAnalysis, TargetsOf, Ownable, InRangeOf, EdgeCount, Confined;
    HomeIsShort(s, known);
    FromAnalysis(s, ENTRY, g, known);
    GraphHolds(s.ProblemAt(ENTRY, known), CallsItself, 2, g);
    ConfinedIsOwnable(s, ENTRY, g, known);
    CallsOnlyItself(s, g, known);
  }

  lemma NothingIsCut(s: Setting, at: set<Address>, known: set<Address>)
    requires IsHome(s)
    ensures NothingCut(s.ProblemAt(ENTRY, at), s.ProblemAt(ENTRY, known))
  {
    var p, q := s.ProblemAt(ENTRY, at), s.ProblemAt(ENTRY, known);
    HomeIsShort(s, at);
    HomeIsShort(s, known);
    ReachIs(p, CallsItself, 2);
    assert p.guest == q.guest;
    hide IsHome, IsShort, Problem.Reaches, Problem.IsTransfer, Problem.Successors, Problem.StepError;
    forall a | p.Reaches(a)
      ensures !NewlyCut(p, q, a)
    {
      StepsAre(q, CallsItself, 2, a);
    }
  }

  /** Nothing can cut the function short, so that its graph is the one for more known entries, too. */
  lemma GraphStays(s: Setting, g: Graph, at: set<Address>, known: set<Address>)
    requires IsFit(s) && IsHome(s) && GraphIsFrom(s, ENTRY, g, at) && at <= known
    ensures GraphIsFrom(s, ENTRY, g, known)
  {
    var p, q := s.ProblemAt(ENTRY, at), s.ProblemAt(ENTRY, known);
    assert KnowsMore(p, q) && p.guest == s.input.guest;
    hide IsFit, IsHome, NothingCut, Problem.IsAnalysis, Problem.EntryError, GuestView.FetchesCode;
    FitFetchesCode(s);
    HomeStartsFine(s, known);
    NothingIsCut(s, at, known);
    FreshExactly(p, q, g);
  }

  // Discovery.

  /** The three states of discovery: the seed waits; its function has been analyzed and, called by itself, waits
      again; it has been taken once more, and passed over. */
  ghost predicate AtRound(n: nat, b: Book) {
    && b.records.Keys == {ENTRY} && n <= 2
    && b.pending == (if n == 2 then {} else {ENTRY}) && b.processed == (if n == 0 then {} else {ENTRY})
    && b.seedCount == if n == 0 then 1 else 2
  }

  lemma SeedsAre(s: Setting)
    requires IsFit(s) && IsHome(s)
    ensures s.budgets.maxFunctions > 0 && s.budgets.maxSeeds > 0 ==> Seeded(s).Done? && AtRound(0, Seeded(s).value)
  {
    TheEntry();
    hide IsFit, ModuleInput.IsEntry, ModuleInput.InRange;
    assert AddSeeds(s, 0) == Done(EmptyBook(s));
    assert AddSeeds(s, 1) == AddSeeds(s, |s.input.seeds|);
  }

  lemma ProcessIs(s: Setting, b: Book, graph: Result<Graph>, at: Knowledge)
    requires IsFit(s) && IsHome(s) && Sound(s, b, None) && IsBasis(s, b.boundaries, at) && ENTRY in b.records
    requires b.checkpoints == map[] && Analyzes(s, ENTRY, at.entries, graph)
    requires b.pending == {} && b.records[ENTRY].cfg.None?
    ensures
      var o := Process(s, b, ENTRY, graph, at);
      o.Done? ==> o.value.pending == {ENTRY} && o.value.processed == b.processed && o.value.seedCount == b.seedCount + 1
  {
    hide IsFit, IsHome, Sound, IsBasis, GraphIsFrom, Problem.FailureCause, AddCalls, Described, Store, IsRich, CfgBudgetDimension,
         Ownable, TargetsOf, InRangeOf;
    if graph.Err? {
      OnlyLimits(s, at.entries, graph.code);
    } else {
      var g := graph.value;
      GraphIs(s, g, at.entries);
      OwnIs(s, g);
      StoreIsStored(s, b, ENTRY, g, at);
      if Store(s, b, ENTRY, g, at).Done? {
        StoreIsCharged(s, b, ENTRY, g, at);
        var c := Store(s, b, ENTRY, g, at).value;
        SoundIsReady(s, c, Some(ENTRY));
        FollowingIsCharged(s, c, TargetsOf(g));
      }
    }
  }

  lemma OwnIs(s: Setting, g: Graph)
    requires IsOwn(s, g)
    ensures Ownable(g, s.input.executable) && InRangeOf(s, TargetsOf(g)) == {ENTRY}
  {
    hide Ownable, InRangeOf, TargetsOf, EdgeCount;
  }

  lemma FirstWaveIs(width: nat)
    requires width > 0
    ensures TakeWave({ENTRY}, {}, width) == Wave([ENTRY], {}, {ENTRY})
    ensures TakeWave({ENTRY}, {ENTRY}, width) == Wave([], {}, {ENTRY})
  {
    assert Least({ENTRY}) == ENTRY && {ENTRY} - {ENTRY} == {} && {} + {ENTRY} == {ENTRY};
    assert TakeWave({}, {ENTRY}, width - 1) == Wave([], {}, {ENTRY});
  }

  lemma OneStep(s: Setting, b: Book, graphs: seq<Result<Graph>>, at: Knowledge)
    requires |graphs| == 1
    ensures ProcessWave(s, b, [ENTRY], graphs, at) == Process(s, b, ENTRY, graphs[0], at)
    ensures ProcessWave(s, b, [], [], at) == Done(b)
  {
    assert [ENTRY][..0] == [] && graphs[..0] == [];
    hide Process;
  }

  lemma RecordStands(s: Setting, b: Book)
    requires Discovering(s, b, [], 0) && AtRound(0, b)
    ensures ENTRY in b.records && b.records[ENTRY].cfg.None? && b.checkpoints == map[]
    ensures Sound(s, b, None) && IsBasis(s, b.boundaries, b.Knows())
  {
    hide Sound, Balanced, IsBasis;
    assert ENTRY in b.records.Keys;
    SoundKnows(s, b);
    DiscoveredIsBare(s, b, ENTRY);
  }

  lemma FirstStep(s: Setting, b: Book, graph: Result<Graph>)
    requires IsFit(s) && IsHome(s) && Discovering(s, b, [], 0) && AtRound(0, b) && Analyzes(s, ENTRY, b.known, graph)
    ensures
      var o := Process(s, b.(pending := {}, processed := {ENTRY}), ENTRY, graph, b.Knows());
      o.Done? ==> AtRound(1, o.value)
  {
    hide IsFit, IsHome, Discovering, Sound, IsBasis, Analyzes, Process;
    RecordStands(s, b);
    var c := b.(pending := {}, processed := {ENTRY});
    TakingKeepsSound(s, b, {}, {ENTRY}, b.passes);
    ProcessIs(s, c, graph, b.Knows());
    if Process(s, c, ENTRY, graph, b.Knows()).Done? {
      ProcessKeepsKeys(s, c, graph, b.Knows());
    }
  }

  lemma FirstRound(s: Setting, b: Book, o: Outcome<Book>)
    requires IsFit(s) && IsHome(s) && Discovering(s, b, [], 0) && AtRound(0, b) && RunsWave(s, b, o)
    ensures o.Done? ==> AtRound(1, o.value)
  {
    FirstWaveIs(s.Width());
    assert b.pending == {ENTRY} && b.processed == {};
    hide IsFit, IsHome, Discovering, Analyzes, Process, ProcessWave, TakeWave, AtRound;
    var c := b.(pending := {}, processed := {ENTRY});
    var graphs :| AnalyzesWave(s, [ENTRY], b.known, graphs) && o == ProcessWave(s, c, [ENTRY], graphs, b.Knows());
    OneStep(s, c, graphs, b.Knows());
    assert Analyzes(s, ENTRY, b.known, graphs[0]);
    FirstStep(s, b, graphs[0]);
  }

  lemma ProcessKeepsKeys(s: Setting, b: Book, graph: Result<Graph>, at: Knowledge)
    requires IsFit(s) && IsHome(s) && Sound(s, b, None) && IsBasis(s, b.boundaries, at) && b.records.Keys == {ENTRY}
    requires ENTRY in b.records && b.checkpoints == map[] && Analyzes(s, ENTRY, at.entries, graph) && b.records[ENTRY].cfg.None?
    requires Process(s, b, ENTRY, graph, at).Done?
    ensures Process(s, b, ENTRY, graph, at).value.records.Keys == {ENTRY}
  {
    hide IsFit, IsHome, Sound, IsBasis, GraphIsFrom, Problem.FailureCause, AddCalls, Described, Store, IsRich, CfgBudgetDimension,
         Ownable, TargetsOf, InRangeOf;
    if graph.Err? {
      OnlyLimits(s, at.entries, graph.code);
    } else {
      var g := graph.value;
      GraphIs(s, g, at.entries);
      OwnIs(s, g);
      StoreIsStored(s, b, ENTRY, g, at);
      var c := Store(s, b, ENTRY, g, at).value;
      StoreKeepsKeys(s, b, g, at);
      SoundIsReady(s, c, Some(ENTRY));
      FollowKeys(s, c, TargetsOf(g));
    }
  }

  lemma StoreKeepsKeys(s: Setting, b: Book, g: Graph, at: Knowledge)
    requires ENTRY in b.records && Store(s, b, ENTRY, g, at).Done?
    ensures Store(s, b, ENTRY, g, at).value.records.Keys == b.records.Keys
  {
    hide Described, Overrun;
    assert b.records.Keys + {ENTRY} == b.records.Keys;
  }

  lemma FollowKeys(s: Setting, b: Book, targets: seq<Address>)
    requires IsFit(s) && Proper(s, b.records) && Counted(s, b) && Traced(s, b.known, b.boundaries)
    ensures
      var o := AddCalls(s, b, targets);
      o.Done? ==> o.value.records.Keys == b.records.Keys + InRangeOf(s, targets)
  {
    hide AddCalls, IsFit, Proper, Counted, Traced, InRangeOf;
    AddCallsExtends(s, b, targets);
  }

  lemma SecondRound(s: Setting, b: Book, o: Outcome<Book>)
    requires AtRound(1, b) && RunsWave(s, b, o)
    ensures o.Done? && AtRound(2, o.value)
  {
    FirstWaveIs(s.Width());
    hide Analyzes, TakeWave;
    var graphs :| AnalyzesWave(s, [], b.known, graphs)
                  && o == ProcessWave(s, b.(pending := {}, processed := {ENTRY}), [], graphs, b.Knows());
    assert graphs == [];
  }

  lemma {:induction false} RoundsAre(s: Setting, start: Book, n: nat, b: Book)
    requires IsFit(s) && IsHome(s) && Discovering(s, start, [], 0) && AtRound(0, start) && WavesTo(s, start, n, b)
    ensures AtRound(n, b)
  {
    hide IsFit, IsHome, Discovering, RunsWave, Grown;
    if n > 0 {
      var m :| WavesTo(s, start, n - 1, m) && RunsWave(s, m, Done(b));
      RoundsAre(s, start, n - 1, m);
      WavesKeepDiscovering(s, start, n - 1, m);
      if n == 1 {
        FirstRound(s, m, Done(b));
      } else if n == 2 {
        SecondRound(s, m, Done(b));
      } else {
        NothingToRun(s, m, Done(b));
      }
    }
  }

  lemma NothingToRun(s: Setting, b: Book, o: Outcome<Book>)
    requires RunsWave(s, b, o)
    ensures b.pending != {}
  {
    hide AnalyzesWave, ProcessWave, TakeWave;
  }

  /** Discovery ends with the whole seed budget used up. */
  lemma DiscoveryUsesSeeds(s: Setting, b: Book)
    requires IsFit(s) && IsHome(s) && s.budgets.maxFunctions > 0 && s.budgets.maxSeeds > 0 && IsDiscovered(s, b)
    ensures AtRound(2, b)
  {
    hide IsFit, IsHome, Seeded, Discovering, WavesTo, RunsWave;
    SeedsAre(s);
    SeededGives(s);
    var start := Seeded(s).value;
    var n, c :| WavesTo(s, start, n, c)
                && if c.pending == {} then Done(b) == Done(c) else Done(b).IsFailure() && RunsWave(s, c, Done(b));
    RoundsAre(s, start, n, c);
  }

  // The pass that follows.

  /** The function has a graph, it is the one for the known entries, and it has still to be worked on again. */
  lemma HasItsGraph(s: Setting, b: Book)
    requires IsFit(s) && IsHome(s) && IsDiscovered(s, b) && ENTRY in b.records
    ensures b.records[ENTRY].cfg.Some? && GraphIsFrom(s, ENTRY, b.records[ENTRY].cfg.value, b.known)
    ensures !PassesOver(b, ENTRY)
  {
    hide IsFit, IsHome, IsDiscovered, Discovering, Sound, Balanced, Still, IsBasis, GraphIsFrom, FailsFor, BoundaryChanged;
    DiscoveredIs(s, b);
    RecordHasGraph(s, b);
    RecallIs(s, b, ENTRY);
    BasisIsKnown(s, b, b.basis[ENTRY]);
    GraphStays(s, b.records[ENTRY].cfg.value, b.basis[ENTRY].entries, b.known);
  }

  lemma RecordHasGraph(s: Setting, b: Book)
    requires IsHome(s) && Sound(s, b, None) && NoneWaiting(b.records) && ENTRY in b.records
    ensures b.records[ENTRY].cfg.Some?
  {
    hide IsHome, IsBasis, Problem.FailureCause, IsRich;
    ProperAt(s, b.records, ENTRY);
    hide Sound, Ownable;
    if b.records[ENTRY].status.Failed? && b.records[ENTRY].cfg.None? {
      RecallIs(s, b, ENTRY);
      var at := b.basis[ENTRY].entries;
      var code :| CfgBudgetDimension(code).None? && s.ProblemAt(ENTRY, at).FailureCause(code);
      OnlyLimits(s, at, code);
    }
  }

  /** The pass charges for the call that discovery has charged for. */
  lemma PassCharges(s: Setting, b: Book)
    requires IsFit(s) && IsHome(s) && IsDiscovered(s, b) && AtRound(2, b)
    ensures b.seedCount + |CalledBy(s, b, ToDo(b))| > s.budgets.maxSeeds
  {
    assert ENTRY in b.records.Keys;
    TheEntry();
    assert s.input == INPUT && b.seedCount == 2 && s.budgets.maxSeeds <= 2;
    hide IsFit, IsHome, IsDiscovered, GraphIsFrom, PassesOver, AtRound, ModuleInput.InRange, ModuleInput.IsEntry, INPUT, Ownable,
         TargetsOf;
    HasItsGraph(s, b);
    var g := b.records[ENTRY].cfg.value;
    GraphIs(s, g, b.known);
    OwnIs(s, g);
    assert ENTRY in InRangeOf(s, TargetsOf(g));
    assert CallsAfresh(s, ENTRY, b.known, ENTRY);
    assert SomeCalls(s, ToDo(b), b.known, ENTRY);
    assert ENTRY in CalledBy(s, b, ToDo(b));
  }

  /** However the options are chosen, no build of this input gets through finalization. */
  lemma NothingSucceeds(s: Setting, o: Outcome<Book>)
    requires IsFit(s) && IsHome(s) && s.budgets.NonZero() && Settles(s, o)
    ensures !o.Done?
  {
    HomeIsShort(s, {});
    hide IsFit, IsHome, IsShort, Confined, Settles, IsDiscovered, CalledBy, WorkAfter, ToDo, AtRound;
    SettlingFitsExactly(s, o);
    if o.Done? {
      var b :| IsDiscovered(s, b) && StillPassGives(s, b, o);
      DiscoveryUsesSeeds(s, b);
      PassCharges(s, b);
    }
  }

  // Why nothing else can be the outcome.

  lemma OnlyTheEntry(s: Setting, e: Address)
    requires IsFit(s) && IsHome(s) && IsCallable(s, e)
    ensures e == ENTRY
  {
    hide IsFit, IsHome, GraphIsFrom, TargetsOf, ModuleInput.InRange, CallsDirectly, FirstEntries;
    var own := iset{ENTRY};
    forall x: Address, g, at: set<Address> | x in own && GraphIsFrom(s, x, g, at)
      ensures CallsStayIn(s, g, own)
    {
      GraphIs(s, g, at);
      OwnIs(s, g);
      forall t | CallsDirectly(g, t) && s.input.InRange(t)
        ensures t in own
      {
        TargetIsCalled(g, t);
        assert t in InRangeOf(s, TargetsOf(g));
      }
    }
    assert IsCallClosed(s, own);
    TheSeedIs(s, own);
  }

  lemma TheSeedIs(s: Setting, own: iset<Address>)
    requires IsHome(s) && ENTRY in own
    ensures SeedsAreIn(s, own) && !HasBadSeed(s) && !NothingIncluded(s)
  {
    TheEntry();
    hide ModuleInput.IsEntry;
    assert s.options.Includes(s.input.seeds[0]);
  }

  lemma NoFault(s: Setting)
    requires IsFit(s) && IsRich(s)
    ensures forall code :: !MayFault(s, code)
  {
    TheEntry();
    HomeIsShort(s, {});
    assert IsHome(s);
    hide IsFit, IsHome, IsShort, Confined, Ownable, GraphIsFrom, IsCallable, Problem.FailureCause, ModuleInput.IsEntry, IsRich;
    forall e | IsCallable(s, e)
      ensures e == ENTRY
    {
      OnlyTheEntry(s, e);
    }
    forall e, at, r | IsCallable(s, e) && Analyzes(s, e, at, r)
      ensures r.Ok? && Ownable(r.value, s.input.executable)
    {
      AnalysisIsOwned(s, at, r);
    }
    assert s.input == INPUT by {
      HomeInput(s);
    }
  }

  lemma HomeInput(s: Setting)
    requires IsHome(s)
    ensures s.input == INPUT
  {
  }

  lemma AnalysisIsOwned(s: Setting, at: set<Address>, r: Result<Graph>)
    requires IsFit(s) && IsRich(s) && Analyzes(s, ENTRY, at, r)
    ensures r.Ok? && Ownable(r.value, s.input.executable)
  {
    assert IsHome(s);
    hide IsFit, IsHome, IsRich, GraphIsFrom, Problem.FailureCause, Ownable;
    match r
    case Err(code) =>
      NothingAtAll(s, at, code);
    case Ok(g) =>
      GraphIs(s, g, at);
      OwnIs(s, g);
  }

  lemma NoLimit(s: Setting, at: set<Address>, d: BudgetDimension)
    requires IsRich(s)
    ensures !LimitBinds(s, ENTRY, at, d)
  {
    hide IsRich, Problem.FailureCause;
    forall code
      ensures !s.ProblemAt(ENTRY, at).FailureCause(code)
    {
      NothingAtAll(s, at, code);
    }
  }

  lemma FirstGraphFits(s: Setting, b: Book, g: Graph, d: BudgetDimension)
    requires IsRich(s) && IsOwn(s, g) && b.usage == NO_WORK
    requires b.records.Keys == {ENTRY} && b.pending == {} && b.seedCount == 1
    ensures !GraphRunsOut(s, b, g, d)
  {
    hide Ownable, TargetsOf, InRangeOf, EdgeCount, Capacity, ShortCode.HasRoom, INPUT;
    assert b.records.Keys + {ENTRY} == {ENTRY} && {ENTRY} - {} == {ENTRY};
  }

  lemma FirstStepFits(s: Setting, b: Book, d: BudgetDimension)
    requires IsFit(s) && IsRich(s) && Discovering(s, b, [], 0) && AtRound(0, b)
    ensures !StepRunsOut(s, b.(pending := {}, processed := {ENTRY}), ENTRY, b.known, d)
  {
    assert IsHome(s);
    hide IsFit, IsHome, IsRich, Discovering, GraphIsFrom, LimitBinds, GraphRunsOut, IsOwn;
    NothingCharged(s, b);
    NoLimit(s, b.known, d);
    forall g | GraphIsFrom(s, ENTRY, g, b.known)
      ensures !GraphRunsOut(s, b.(pending := {}, processed := {ENTRY}), g, d)
    {
      GraphIs(s, g, b.known);
      FirstGraphFits(s, b.(pending := {}, processed := {ENTRY}), g, d);
    }
  }

  lemma NothingCharged(s: Setting, b: Book)
    requires Discovering(s, b, [], 0) && AtRound(0, b)
    ensures b.usage == NO_WORK
  {
    hide Sound;
    RecordStands(s, b);
    forall e | e in b.records
      ensures b.records[e].cfg.None?
    {
      assert e in b.records.Keys;
    }
    NoGraphs(b.records);
  }

  lemma FirstWaveStaysIn(s: Setting, b: Book, graphs: seq<Result<Graph>>, i: nat, d: BudgetDimension)
    requires !StepRunsOut(s, b, ENTRY, b.known, d) && |graphs| == 1 && i < 1
    ensures !WaveRunsOut(s, b, [ENTRY], graphs, b.Knows(), i, d)
  {
    hide StepRunsOut, Process;
    assert [ENTRY][..0] == [] && graphs[..0] == [];
    OneStep(s, b, graphs, b.Knows());
  }

  lemma FirstRoundStaysIn(s: Setting, b: Book, d: BudgetDimension)
    requires IsFit(s) && IsRich(s) && Discovering(s, b, [], 0) && AtRound(0, b)
    ensures !RoundRunsOut(s, b, d)
  {
    FirstWaveIs(s.Width());
    assert b.pending == {ENTRY} && b.processed == {};
    hide IsFit, IsRich, Discovering, AtRound, Analyzes, StepRunsOut, WaveRunsOut, TakeWave;
    FirstStepFits(s, b, d);
    var c := b.(pending := {}, processed := {ENTRY});
    forall graphs, i | AnalyzesWave(s, [ENTRY], b.known, graphs) && 0 <= i < 1
      ensures !WaveRunsOut(s, c, [ENTRY], graphs, b.Knows(), i, d)
    {
      FirstWaveStaysIn(s, c, graphs, i, d);
    }
  }

  lemma NothingIsTaken(s: Setting, b: Book, n: nat)
    requires AtRound(n, b) && n > 0
    ensures NextWave(s, b).entries == []
  {
    if n == 1 {
      FirstWaveIs(s.Width());
    }
  }

  lemma RoundStaysIn(s: Setting, b: Book, n: nat, d: BudgetDimension)
    requires IsFit(s) && IsRich(s) && Discovering(s, b, [], 0) && AtRound(n, b)
    ensures !RoundRunsOut(s, b, d)
  {
    hide IsFit, IsRich, Discovering, Analyzes, WaveRunsOut, NextWave;
    if n == 0 {
      FirstRoundStaysIn(s, b, d);
    } else {
      NothingIsTaken(s, b, n);
    }
  }

  lemma DiscoveryStaysIn(s: Setting, start: Book, d: BudgetDimension)
    requires IsFit(s) && IsRich(s) && Discovering(s, start, [], 0) && AtRound(0, start)
    ensures !DiscoveryRunsOut(s, start, d)
  {
    assert IsHome(s);
    hide IsFit, IsHome, IsRich, Discovering, AtRound, WavesTo, RoundRunsOut, Grown;
    forall n, b | WavesTo(s, start, n, b)
      ensures !RoundRunsOut(s, b, d)
    {
      RoundsAre(s, start, n, b);
      WavesKeepDiscovering(s, start, n, b);
      RoundStaysIn(s, b, n, d);
    }
  }

  lemma SeedStaysIn(s: Setting, d: BudgetDimension)
    requires IsRich(s)
    ensures !SeedingRunsOut(s, d)
  {
    hide Capacity;
    assert AddSeeds(s, 0) == Done(EmptyBook(s));
  }

  /** One graph of the function, or none, is little work. */
  lemma LittleWork(s: Setting, graphs: map<Address, Graph>)
    requires forall e :: e in graphs ==> e == ENTRY && IsOwn(s, graphs[e])
    ensures NoMore(Total(graphs), Usage(2, 2, 4, 8))
  {
    hide Ownable, InRangeOf, TargetsOf, EdgeCount;
    if graphs != map[] {
      var e := Least(graphs.Keys);
      assert Without(graphs, e) == map[];
      assert IsOwn(s, graphs[e]);
    }
  }

  lemma RecordsAreOwn(s: Setting, b: Book)
    requires IsFit(s) && IsHome(s) && Sound(s, b, None) && b.records.Keys == {ENTRY}
    ensures forall e :: e in GraphsOf(b.records) ==> e == ENTRY && IsOwn(s, GraphsOf(b.records)[e])
  {
    hide IsFit, IsHome, Sound, IsOwn, IsBasis, GraphIsFrom, FailsFor;
    forall e | e in GraphsOf(b.records)
      ensures e == ENTRY && IsOwn(s, GraphsOf(b.records)[e])
    {
      assert e in b.records.Keys;
      RecallIs(s, b, e);
      GraphIs(s, b.records[e].cfg.value, b.basis[e].entries);
    }
  }

  lemma AgainAreOwn(s: Setting, b: Book)
    requires IsFit(s) && IsHome(s) && b.records.Keys == {ENTRY}
    ensures forall e :: e in GraphsAt(s, b.known, ToDo(b)) ==> e == ENTRY && IsOwn(s, GraphsAt(s, b.known, ToDo(b))[e])
  {
    hide IsFit, IsHome, IsOwn, GraphIsFrom, HasGraph, PassesOver;
    var graphs := GraphsAt(s, b.known, ToDo(b));
    forall e | e in graphs
      ensures e == ENTRY && IsOwn(s, graphs[e])
    {
      assert e in b.records.Keys;
      GraphIs(s, graphs[e], b.known);
    }
  }

  lemma TwiceIsLittle(s: Setting, b: Book)
    requires IsFit(s) && IsHome(s) && Sound(s, b, None) && Balanced(s, b) && b.records.Keys == {ENTRY}
    ensures NoMore(WorkAfter(s, b, ToDo(b)), Usage(4, 4, 8, 16))
  {
    hide IsFit, IsHome, Sound, Balanced, PassesOver, IsOwn, GraphsOf, GraphsAt, Total;
    RecordsAreOwn(s, b);
    AgainAreOwn(s, b);
    BalanceIs(s, b);
    LittleWork(s, GraphsOf(b.records));
    LittleWork(s, GraphsAt(s, b.known, ToDo(b)));
  }

  lemma LittleFits(s: Setting, u: Usage, d: BudgetDimension)
    requires IsRich(s) && NoMore(u, Usage(4, 4, 8, 16))
    ensures !Exceeds(u, s.budgets, d)
  {
  }

  lemma PassMeetsNone(s: Setting, b: Book, d: BudgetDimension)
    requires IsRich(s) && b.records.Keys == {ENTRY}
    ensures !PassMeetsLimit(s, b, d)
  {
    hide IsRich, LimitBinds, PassesOver;
    forall e | e in ToDo(b)
      ensures !LimitBinds(s, e, b.known, d)
    {
      assert e in b.records.Keys;
      NoLimit(s, b.known, d);
    }
  }

  /** Only the seeds run out in the pass. */
  lemma PassRunsOutOfSeeds(s: Setting, b: Book, d: BudgetDimension)
    requires IsFit(s) && IsRich(s) && IsDiscovered(s, b) && AtRound(2, b)
    requires PassExceeds(s, b, d) || PassMeetsLimit(s, b, d)
    ensures d.Seeds?
  {
    assert IsHome(s) && b.records.Keys == {ENTRY};
    hide IsFit, IsHome, IsRich, IsDiscovered, Discovering, Sound, Balanced, Still, CalledBy, WorkAfter, PassMeetsLimit, Exceeds,
         NoMore, AtRound;
    DiscoveredIs(s, b);
    TwiceIsLittle(s, b);
    LittleFits(s, WorkAfter(s, b, ToDo(b)), d);
    PassMeetsNone(s, b, d);
  }

  lemma WithinIs(s: Setting, o: Outcome<Book>)
    requires SettlesWithin(s, o) && o.OverBudget?
    ensures
      || SeedingRunsOut(s, o.dimension)
      || (Seeded(s).Done? && DiscoveryRunsOut(s, Seeded(s).value, o.dimension))
      || exists b :: IsDiscovered(s, b) && (PassExceeds(s, b, o.dimension) || PassMeetsLimit(s, b, o.dimension))
  {
    hide SeedingRunsOut, Seeded, DiscoveryRunsOut, IsDiscovered, PassExceeds, PassMeetsLimit;
  }

  lemma HomeFails(s: Setting, o: Outcome<Book>)
    requires IsFit(s) && IsRich(s) && s.budgets.NonZero() && Settles(s, o)
    ensures o.OverBudget?
  {
    assert IsHome(s);
    hide IsFit, IsHome, IsRich, IsShort, Confined, Settles, IsDiscovered, Seeded, MayFault, HasBadSeed, NothingIncluded,
         Sound, Rated, Calm, AllRest, AllSettled, SeedsAreRecorded;
    NothingSucceeds(s, o);
    SettlingIsSound(s, o);
    NoFault(s);
    TheSeedIs(s, iset{ENTRY});
  }

  lemma HomeOutcome(s: Setting, o: Outcome<Book>)
    requires IsFit(s) && IsRich(s) && s.budgets.NonZero() && Settles(s, o)
    ensures o == OverBudget(Seeds)
  {
    assert IsHome(s);
    HomeIsShort(s, {});
    hide *;
    HomeFails(s, o);
    SettlingFitsExactly(s, o);
    WithinIs(s, o);
    SeedsAre(s);
    SeededGives(s);
    SeedStaysIn(s, o.dimension);
    DiscoveryStaysIn(s, Seeded(s).value, o.dimension);
    var b :| IsDiscovered(s, b) && (PassExceeds(s, b, o.dimension) || PassMeetsLimit(s, b, o.dimension));
    DiscoveryUsesSeeds(s, b);
    PassRunsOutOfSeeds(s, b, o.dimension);
  }

  /** With budgets for all the work, every run of the build ends with the seed budget exhausted, whatever seed
      budget was requested. */
  lemma NoSeedBudgetIsEnough(options: BuildOptions, o: Outcome<Book>)
    requires IsGenerous(options) && Settles(At(options), o)
    ensures o == OverBudget(Seeds)
  {
    hide IsFit, IsHome, IsRich, Settles, At;
    SettingIs(options);
    NonZeroBudgets(options);
    HomeOutcome(At(options), o);
  }

  lemma NonZeroBudgets(options: BuildOptions)
    requires IsOpen(options)
    ensures At(options).budgets.NonZero()
  {
    BytesOfHome();
    ClampedIs(options);
    hide Clamped;
  }

  lemma NeverDone(options: BuildOptions, r: Outcome<FunctionMap>, b: Book)
    requires IsOpen(options)
    requires r.Done? ==> Settles(At(options), Done(b))
    requires r.OverBudget? ==> Settles(At(options), OverBudget(r.dimension))
    requires r.Fault? ==> Settles(At(options), Fault(r.code)) || Settles(At(options), Done(b))
    ensures !r.Done? && (IsGenerous(options) ==> r == OverBudget(Seeds))
  {
    hide IsFit, IsHome, IsRich, Settles, At, IsGenerous;
    SettingIs(options);
    NonZeroBudgets(options);
    if Settles(At(options), Done(b)) {
      NothingSucceeds(At(options), Done(b));
    }
    if IsGenerous(options) {
      match r
      case Done(_) =>
      case OverBudget(d) => NoSeedBudgetIsEnough(options, OverBudget(d));
      case Fault(code) =>
        if Settles(At(options), Fault(code)) {
          NoSeedBudgetIsEnough(options, Fault(code));
        }
    }
  }

  /** No choice of options that leaves the analysis to the whole range makes the build succeed, and with budgets for
      all the work it is the seed budget that it fails for. */
  method BuildNever(options: BuildOptions) returns (r: Outcome<FunctionMap>)
    requires IsOpen(options)
    ensures PermissionsAgree(INPUT) && !r.Done?
    ensures IsGenerous(options) ==> r == OverBudget(Seeds)
  {
    hide InputIsValid, GuestView.FetchesCode, PermissionsAgree, IsFit, IsHome, IsRich, Settles, SettingOf, HasBadSeed, MayFault,
         NothingIncluded, IsGenerous, Publishable, IsPublished, SettlesWithin, SettlingRunsOut, StartsConfined, CallsNothing,
         IsAmple, IsFaultless, OthersFailed, NoneShare, SeedsAreCanonical;
    InputIsAccepted(options.budgets);
    var builder := new FunctionMapBuilder(INPUT, options);
    r := builder.Build();
    NeverDone(options, r, builder.Now());
  }
}
