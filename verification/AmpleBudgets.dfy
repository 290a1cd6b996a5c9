/** Budgets that are enough: a condition on the input under which no budget of a build can run out. */
module AmpleBudgets {
  import opened Common
  import opened ControlFlow
  import opened CodeRanges
  import opened CfgTheorems
  import opened FunctionRecords
  import opened FunctionDiscovery
  import opened BuildSteps
  import opened BuildInvariant
  import opened BuildAccounts
  import opened BuildRuns
  import opened Finalization
  import opened PassBudgets

  // The size of a graph.

  lemma EndsAreFew(p: Problem, i: Instruction)
    ensures |p.Edges(i)| + |p.CallsOf(i)| <= 2
  {
  }

  lemma BlockIsSmall(p: Problem, g: Graph, s: Address)
    requires p.IsAnalysis(g) && s in g.blocks
    ensures |g.blocks[s].successors| + |g.blocks[s].calls| <= 2 && s in Addresses(g)
  {
    LastIsReached(p, g, s);
    EndsAreFew(p, g.blocks[s].Last());
    assert g.blocks[s].instructions[0].address == s;
  }

  lemma {:induction false} EdgesAreFew(blocks: map<Address, BasicBlock>, starts: set<Address>)
    requires starts <= blocks.Keys
    requires forall s :: s in starts ==> |blocks[s].successors| + |blocks[s].calls| <= 2
    ensures EdgeSum(blocks, starts) <= 2 * |starts|
    decreases starts
  {
    if starts != {} {
      EdgesAreFew(blocks, starts - {Least(starts)});
    }
  }

  function AddressesOfSome(unresolved: seq<Unresolved>): set<Address> {
    set i | 0 <= i < |unresolved| :: unresolved[i].address
  }

  lemma {:induction false} AllCount(unresolved: seq<Unresolved>)
    requires forall i, j :: 0 <= i < j < |unresolved| ==> unresolved[i].address != unresolved[j].address
    ensures |AddressesOfSome(unresolved)| == |unresolved|
  {
    if unresolved != [] {
      var front, last := unresolved[..|unresolved| - 1], unresolved[|unresolved| - 1];
      AllCount(front);
      assert AddressesOfSome(unresolved) == AddressesOfSome(front) + {last.address};
    }
  }

  lemma UnresolvedAreListed(p: Problem, g: Graph)
    requires p.IsAnalysis(g)
    ensures forall i, j :: 0 <= i < j < |g.unresolved| ==> g.unresolved[i].address != g.unresolved[j].address
    ensures AddressesOfSome(g.unresolved) <= Addresses(g)
  {
    hide Problem.BlockAt, Problem.IsMaximal, Problem.ListsCalls, Problem.Reaches, Problem.StartsBlock;
  }

  lemma UnresolvedAreFew(p: Problem, g: Graph)
    requires p.IsAnalysis(g)
    ensures |g.unresolved| <= |Addresses(g)|
  {
    hide Problem.IsAnalysis, AddressesOfSome;
    UnresolvedAreListed(p, g);
    AllCount(g.unresolved);
    SubsetIsSmaller(AddressesOfSome(g.unresolved), Addresses(g));
  }

  /** A graph has no more blocks than instructions, and at most two edges and calls a block. */
  lemma GraphIsBounded(p: Problem, g: Graph)
    requires p.IsAnalysis(g)
    ensures g.instructionCount == |Addresses(g)| && |g.blocks| <= |Addresses(g)|
    ensures EdgeCount(g) <= 2 * |g.blocks| + |g.unresolved| <= 3 * |Addresses(g)|
  {
    GraphSets(p, g);
    hide Problem.IsAnalysis, Problem.Reaches, Problem.StartsBlock;
    forall s | s in g.blocks
      ensures |g.blocks[s].successors| + |g.blocks[s].calls| <= 2 && s in Addresses(g)
    {
      BlockIsSmall(p, g, s);
    }
    SubsetIsSmaller(g.blocks.Keys, Addresses(g));
    EdgesAreFew(g.blocks, g.blocks.Keys);
    UnresolvedAreFew(p, g);
    assert |g.blocks| == |g.blocks.Keys|;
  }

  // What the input allows.

  /** The in-range functions that the one at `e` can call while no call has been followed up yet. */
  ghost function CallReach(s: Setting, e: Address): iset<Address> {
    iset t: Address | s.input.InRange(t) && exists a :: s.ProblemAt(e, FirstEntries(s)).Reaches(a) && CallsFrom(s.input.guest, a, t)
  }

  /** The function reaches at most `words` words and calls at most `calls` functions. */
  ghost predicate IsSmall(s: Setting, e: Address, words: nat, calls: nat) {
    !MoreThan(words, s.ProblemAt(e, FirstEntries(s)).Reach()) && !MoreThan(calls, CallReach(s, e))
  }

  /** Neither memory nor the decoder reports an error that stands for a budget. */
  ghost predicate ReportsNoBudget(guest: GuestView) {
    && (forall a :: guest.executable(a).Err? ==> CfgBudgetDimension(guest.executable(a).code).None?)
    && (forall a :: guest.fetch(a).Err? ==> CfgBudgetDimension(guest.fetch(a).code).None?)
  }

  /** `k` times `n`. */
  function Times(k: nat, n: nat): nat { k * n }

  /** The budgets cover two analyses of each of the functions, a charge for each seed and call, and one more for
      each function; the limits cover one analysis. */
  ghost predicate BudgetsCover(s: Setting, functions: nat, words: nat, calls: nat) {
    && words <= s.limits.maxInstructions && words <= s.limits.maxBasicBlocks && words <= s.limits.maxPendingTargets
    && functions <= s.budgets.maxFunctions
    && |s.input.seeds| + Times(functions, calls) + functions <= s.budgets.maxSeeds
    && 2 * Times(functions, words) <= s.budgets.maxInstructions && 2 * Times(functions, words) <= s.budgets.maxBlocks
    && 6 * Times(functions, words) <= s.budgets.maxEdges && 8 * Times(functions, words) <= s.budgets.maxBytes
  }

  /** All callable functions are among the given ones and small, and the budgets cover them. */
  ghost predicate IsAmpleFor(s: Setting, functions: set<Address>, words: nat, calls: nat) {
    && (forall e :: IsCallable(s, e) ==> e in functions && IsSmall(s, e, words, calls))
    && ReportsNoBudget(s.input.guest) && BudgetsCover(s, |functions|, words, calls)
  }

  ghost predicate IsAmple(s: Setting) { exists functions, words, calls :: IsAmpleFor(s, functions, words, calls) }

  // What that means for one analysis.

  lemma StartsAreReached(p: Problem, l: Address)
    requires p.StartsBlock(l)
    ensures p.Reaches(l)
  {
    if l != p.entry {
      var a :| p.Reaches(a) && l in p.LeaderTargets(a);
      assert l in p.Successors(a);
    }
  }

  lemma MoreThanLess(n: nat, m: nat, small: iset<Address>, large: iset<Address>)
    requires MoreThan(n, small) && m <= n && forall a :: a in small ==> a in large
    ensures MoreThan(m, large)
  {
    var t :| LargePart(n, small, t);
    assert LargePart(m, large, t);
  }

  lemma KnowsFirst(s: Setting, e: Address, at: set<Address>)
    requires forall x :: x in FirstEntries(s) ==> x in at
    ensures KnowsMore(s.ProblemAt(e, FirstEntries(s)), s.ProblemAt(e, at))
  {
    hide FirstEntries;
  }

  lemma ReachIsSmall(s: Setting, e: Address, at: set<Address>, words: nat, n: nat)
    requires s.input.guest.FetchesCode() && !MoreThan(words, s.ProblemAt(e, FirstEntries(s)).Reach()) && words <= n
    requires forall x :: x in FirstEntries(s) ==> x in at
    ensures !MoreThan(n, s.ProblemAt(e, at).Reach()) && !MoreThan(n, s.ProblemAt(e, at).Starts())
  {
    var p, q := s.ProblemAt(e, FirstEntries(s)), s.ProblemAt(e, at);
    KnowsFirst(s, e, at);
    assert p.guest == s.input.guest;
    hide FirstEntries, MoreThan, Problem.Reaches, Problem.StartsBlock, GuestView.FetchesCode;
    ReachShrinks(p, q);
    if MoreThan(n, q.Reach()) {
      MoreThanLess(n, words, q.Reach(), p.Reach());
    }
    if MoreThan(n, q.Starts()) {
      forall l | l in q.Starts()
        ensures l in p.Reach()
      {
        StartsAreReached(q, l);
      }
      MoreThanLess(n, words, q.Starts(), p.Reach());
    }
  }

  lemma StepReportsNoBudget(p: Problem, a: Address)
    requires ReportsNoBudget(p.guest)
    ensures p.StepError(a).Some? ==> CfgBudgetDimension(p.StepError(a).value).None?
    ensures p.EntryError().Some? ==> CfgBudgetDimension(p.EntryError().value).None?
  {
  }

  /** A single analysis cannot meet a limit. */
  lemma NoLimitBinds(s: Setting, e: Address, at: set<Address>, words: nat, calls: nat, functions: nat, d: BudgetDimension)
    requires s.input.guest.FetchesCode() && IsSmall(s, e, words, calls) && BudgetsCover(s, functions, words, calls)
    requires ReportsNoBudget(s.input.guest) && forall x :: x in FirstEntries(s) ==> x in at
    ensures !LimitBinds(s, e, at, d)
  {
    var p := s.ProblemAt(e, at);
    ReachIsSmall(s, e, at, words, s.limits.maxInstructions);
    ReachIsSmall(s, e, at, words, s.limits.maxBasicBlocks);
    ReachIsSmall(s, e, at, words, s.limits.maxPendingTargets);
    assert p.guest == s.input.guest && p.options.maxInstructions == s.limits.maxInstructions
           && p.options.maxBasicBlocks == s.limits.maxBasicBlocks && p.options.maxPendingTargets == s.limits.maxPendingTargets;
    hide FirstEntries, MoreThan, Problem.Reaches, Problem.StartsBlock, Problem.StepError, Problem.EntryError, ReportsNoBudget,
         Problem.TransfersTo, Problem.InFirstRun, GuestView.FetchesCode, IsSmall, BudgetsCover;
    forall a
      ensures p.StepError(a).Some? ==> CfgBudgetDimension(p.StepError(a).value).None?
      ensures p.EntryError().Some? ==> CfgBudgetDimension(p.EntryError().value).None?
    {
      StepReportsNoBudget(p, a);
    }
    NoLimitIsBlamed(p, d);
  }

  lemma NoLimitIsBlamed(p: Problem, d: BudgetDimension)
    requires forall a :: p.StepError(a).Some? ==> CfgBudgetDimension(p.StepError(a).value).None?
    requires p.EntryError().Some? ==> CfgBudgetDimension(p.EntryError().value).None?
    requires !MoreThan(p.options.maxInstructions, p.Reach()) && !MoreThan(p.options.maxBasicBlocks, p.Starts())
    requires !MoreThan(p.options.maxPendingTargets, p.Starts())
    ensures forall code :: CfgBudgetDimension(code) == Some(d) ==> !p.FailureCause(code)
  {
    hide MoreThan, Problem.Reaches, Problem.StartsBlock, Problem.StepError, Problem.EntryError, Problem.TransfersTo,
         Problem.InFirstRun;
  }

  /** The graph is no more work than `words` words can be, and asks for at most `calls` functions. */
  ghost predicate IsLight(s: Setting, g: Graph, words: nat, calls: nat) {
    g.instructionCount <= words && |g.blocks| <= words && EdgeCount(g) <= 3 * words && CallCount(s, g) <= calls
  }

  lemma LargeMeansMore(n: nat, s: iset<Address>, t: set<Address>)
    requires forall a :: a in t ==> a in s
    ensures |t| > n ==> MoreThan(n, s)
  {
    assert |t| > n ==> LargePart(n, s, t);
  }

  lemma FewWords(p: Problem, g: Graph, words: nat)
    requires p.IsAnalysis(g) && !MoreThan(words, p.Reach())
    ensures |Addresses(g)| <= words
  {
    GraphSets(p, g);
    hide Problem.IsAnalysis, Problem.Reaches, Problem.StartsBlock;
    LargeMeansMore(words, p.Reach(), Addresses(g));
  }

  lemma FewCalls(s: Setting, e: Address, g: Graph, at: set<Address>, calls: nat)
    requires s.input.guest.FetchesCode() && GraphIsFrom(s, e, g, at) && !MoreThan(calls, CallReach(s, e))
    requires forall x :: x in FirstEntries(s) ==> x in at
    ensures CallCount(s, g) <= calls
  {
    var p, q := s.ProblemAt(e, FirstEntries(s)), s.ProblemAt(e, at);
    KnowsFirst(s, e, at);
    FromAnalysis(s, e, g, at);
    assert p.guest == s.input.guest == q.guest;
    hide FirstEntries, Problem.Reaches, Problem.IsAnalysis, GraphIsFrom, CallsFrom, CallsDirectly, TargetsOf, KnowsMore,
         ModuleInput.InRange, GuestView.FetchesCode;
    ReachShrinks(p, q);
    forall t | t in InRangeOf(s, TargetsOf(g))
      ensures t in CallReach(s, e)
    {
      TargetIsCalled(g, t);
      CallsAreReached(q, g, t);
    }
    LargeMeansMore(calls, CallReach(s, e), InRangeOf(s, TargetsOf(g)));
  }

  lemma GraphIsLight(s: Setting, e: Address, g: Graph, at: set<Address>, words: nat, calls: nat)
    requires s.input.guest.FetchesCode() && IsSmall(s, e, words, calls) && GraphIsFrom(s, e, g, at)
    requires forall x :: x in FirstEntries(s) ==> x in at
    ensures IsLight(s, g, words, calls)
  {
    hide FirstEntries, MoreThan, Problem.Reaches, Problem.IsAnalysis, GraphIsFrom, CallReach, CallCount, EdgeCount,
         GuestView.FetchesCode;
    FromAnalysis(s, e, g, at);
    ReachIsSmall(s, e, at, words, words);
    GraphIsBounded(s.ProblemAt(e, at), g);
    FewWords(s.ProblemAt(e, at), g, words);
    FewCalls(s, e, g, at, calls);
  }

  // What it means for many.

  ghost predicate AllLight(s: Setting, graphs: map<Address, Graph>, words: nat, calls: nat) {
    forall e {:trigger graphs[e]} :: e in graphs ==> IsLight(s, graphs[e], words, calls)
  }

  /** The most work that `n` words can be. */
  function Most(n: nat): Usage { Usage(n, n, 3 * n, 4 * n) }

  lemma TimesOneMore(k: nat, n: nat)
    ensures Times(0, n) == 0 && Times(k + 1, n) == Times(k, n) + n
  {
  }

  lemma TimesGrows(k: nat, l: nat, n: nat)
    requires k <= l
    ensures Times(k, n) <= Times(l, n)
  {
  }

  lemma LightGraph(s: Setting, u: Usage, g: Graph, n: nat, words: nat, calls: nat)
    requires NoMore(u, Most(n)) && IsLight(s, g, words, calls)
    ensures NoMore(Consumed(u, g), Most(n + words))
  {
    hide EdgeCount, CallCount;
  }

  lemma {:induction false} LightGraphs(s: Setting, graphs: map<Address, Graph>, words: nat, calls: nat)
    requires AllLight(s, graphs, words, calls)
    ensures NoMore(Total(graphs), Most(Times(|graphs|, words))) && CallTotal(s, graphs) <= Times(|graphs|, calls)
    decreases |graphs|
  {
    hide Without, Consumed, CallCount, Most, EdgeCount, Times, IsLight;
    if graphs == map[] {
      TimesOneMore(0, words);
      TimesOneMore(0, calls);
      NothingIsLess(Most(Times(0, words)));
    } else {
      hide NoMore;
      var e := Least(graphs.Keys);
      var rest := Without(graphs, e);
      OneFewer(graphs, e);
      assert AllLight(s, rest, words, calls);
      LightGraphs(s, rest, words, calls);
      assert IsLight(s, graphs[e], words, calls);
      LightGraph(s, Total(rest), graphs[e], Times(|rest|, words), words, calls);
      LightCalls(s, graphs[e], words, calls);
      TimesOneMore(|rest|, words);
      TimesOneMore(|rest|, calls);
    }
  }

  lemma LightCalls(s: Setting, g: Graph, words: nat, calls: nat)
    requires IsLight(s, g, words, calls)
    ensures CallCount(s, g) <= calls
  {
  }

  lemma OneFewer(graphs: map<Address, Graph>, e: Address)
    requires e in graphs
    ensures |graphs| == |Without(graphs, e)| + 1
  {
    var rest := Without(graphs, e);
    forall x
      ensures x in graphs.Keys <==> x in rest.Keys + {e}
    {
      assert x in graphs <==> x in rest || x == e;
    }
    assert |graphs| == |graphs.Keys| && |rest| == |rest.Keys|;
    OneMore(rest.Keys, e);
    assert graphs.Keys == rest.Keys + {e};
  }

  lemma FewGraphs(graphs: map<Address, Graph>, functions: set<Address>)
    requires forall e :: e in graphs ==> e in functions
    ensures |graphs| <= |functions|
  {
    assert |graphs| == |graphs.Keys|;
    forall e | e in graphs.Keys
      ensures e in functions
    {
      assert e in graphs;
    }
    SubsetIsSmaller(graphs.Keys, functions);
  }

  lemma BasisKnowsFirst(s: Setting, b: Book, at: Knowledge)
    requires IsBasis(s, b.boundaries, at)
    ensures forall x :: x in FirstEntries(s) ==> x in at.entries
  {
    hide FirstEntries;
  }

  lemma CallableIsSmall(s: Setting, functions: set<Address>, words: nat, calls: nat, e: Address)
    requires IsAmpleFor(s, functions, words, calls) && IsCallable(s, e)
    ensures e in functions && IsSmall(s, e, words, calls)
  {
    hide IsCallable, IsSmall, BudgetsCover, ReportsNoBudget;
  }

  lemma RecordsAreLight(s: Setting, b: Book, functions: set<Address>, words: nat, calls: nat)
    requires IsFit(s) && Sound(s, b, None) && IsAmpleFor(s, functions, words, calls)
    ensures AllLight(s, GraphsOf(b.records), words, calls)
    ensures forall e :: e in b.records ==> e in functions
  {
    hide IsFit, IsAmpleFor, IsSmall, IsLight, IsCallable, GraphIsFrom, IsBasis, Proper, Counted, Traced, CheckpointsCount, Closed,
         ListsKnown, FailsFor;
    FitFetchesCode(s);
    forall e | e in b.records
      ensures e in functions && (e in GraphsOf(b.records) ==> IsLight(s, GraphsOf(b.records)[e], words, calls))
    {
      RecordIsCallable(s, b, e);
      CallableIsSmall(s, functions, words, calls, e);
      assert IsRecalled(s, b.boundaries, b.basis, e, b.records[e]);
      if b.records[e].cfg.Some? {
        BasisKnowsFirst(s, b, b.basis[e]);
        GraphIsLight(s, e, b.records[e].cfg.value, b.basis[e].entries, words, calls);
      }
    }
  }

  lemma OthersHaveGraphs(records: map<Address, FunctionRecord>, e: Address, functions: set<Address>)
    requires forall x :: x in records ==> x in functions
    requires e in records && records[e].cfg.None?
    ensures |GraphsOf(records)| < |functions|
  {
    FewGraphs(GraphsOf(records), functions - {e});
    assert |functions - {e}| == |functions| - 1;
  }

  lemma BalanceIs(s: Setting, b: Book)
    requires Balanced(s, b)
    ensures b.usage == Total(GraphsOf(b.records)) && b.seedCount <= |s.input.seeds| + CallTotal(s, GraphsOf(b.records))
  {
    hide Total, CallTotal, GraphsOf;
  }

  /** In discovery at most `n` graphs have been charged. */
  lemma ChargedAreLight(s: Setting, b: Book, n: nat, words: nat, calls: nat)
    requires Balanced(s, b) && AllLight(s, GraphsOf(b.records), words, calls) && |GraphsOf(b.records)| <= n
    ensures NoMore(b.usage, Most(Times(n, words))) && b.seedCount <= |s.input.seeds| + Times(n, calls)
  {
    hide GraphsOf, AllLight, Balanced, Total, CallTotal, Times, NoMore;
    var graphs := GraphsOf(b.records);
    BalanceIs(s, b);
    LightGraphs(s, graphs, words, calls);
    TimesGrows(|graphs|, n, words);
    TimesGrows(|graphs|, n, calls);
    MostGrows(b.usage, Times(|graphs|, words), Times(n, words));
  }

  /** What a light graph asks for when its function is one of `functions` and has no graph yet. */
  lemma GraphFits(s: Setting, b: Book, e: Address, g: Graph, functions: set<Address>, words: nat, calls: nat, d: BudgetDimension)
    requires Balanced(s, b) && AllLight(s, GraphsOf(b.records), words, calls) && IsLight(s, g, words, calls)
    requires forall x :: x in b.records ==> x in functions
    requires forall t :: t in InRangeOf(s, TargetsOf(g)) ==> t in functions
    requires e in b.records && b.records[e].cfg.None? && BudgetsCover(s, |functions|, words, calls)
    ensures !GraphRunsOut(s, b, g, d)
  {
    hide GraphsOf, AllLight, InRangeOf, TargetsOf, Ownable, Consumed, Balanced, Total, CallTotal, Times, BudgetsCover,
         IsLight, NoMore, Exceeds, CallsRunOut;
    OthersHaveGraphs(b.records, e, functions);
    ChargedAreLight(s, b, |functions| - 1, words, calls);
    TimesOneMore(|functions| - 1, words);
    TimesOneMore(|functions| - 1, calls);
    LightGraph(s, b.usage, g, Times(|functions| - 1, words), words, calls);
    LightCalls(s, g, words, calls);
    WorkFits(s, Consumed(b.usage, g), |functions|, words, calls, Times(|functions|, words), d);
    CallsFit(s, b, g, functions, words, calls, d);
  }

  lemma MostGrows(u: Usage, m: nat, n: nat)
    requires NoMore(u, Most(m)) && m <= n
    ensures NoMore(u, Most(n))
  {
  }

  lemma WorkFits(s: Setting, u: Usage, functions: nat, words: nat, calls: nat, n: nat, d: BudgetDimension)
    requires BudgetsCover(s, functions, words, calls) && NoMore(u, Most(n)) && n <= 2 * Times(functions, words)
    ensures !Exceeds(u, s.budgets, d)
  {
    hide Times;
  }

  lemma CallsFit(s: Setting, b: Book, g: Graph, functions: set<Address>, words: nat, calls: nat, d: BudgetDimension)
    requires CallCount(s, g) <= calls && BudgetsCover(s, |functions|, words, calls)
    requires b.seedCount + calls <= |s.input.seeds| + Times(|functions|, calls)
    requires forall x :: x in b.records ==> x in functions
    requires forall t :: t in InRangeOf(s, TargetsOf(g)) ==> t in functions
    ensures !CallsRunOut(s, b, TargetsOf(g), d)
  {
    hide InRangeOf, TargetsOf, Capacity, Times;
    var called := InRangeOf(s, TargetsOf(g));
    forall x | x in b.records.Keys + called
      ensures x in functions
    {
      assert x in b.records || x in called;
    }
    SubsetIsSmaller(b.records.Keys + called, functions);
    SubsetIsSmaller(called - b.pending, called);
  }

  // Seeding and discovery.

  /** In discovery the function at `e` cannot ask for more than the budgets allow. */
  lemma StepFits(s: Setting, b: Book, e: Address, at: Knowledge, functions: set<Address>, words: nat, calls: nat,
                 d: BudgetDimension)
    requires IsFit(s) && Sound(s, b, None) && Balanced(s, b) && IsBasis(s, b.boundaries, at)
    requires IsAmpleFor(s, functions, words, calls) && e in b.records && b.records[e].cfg.None?
    ensures !StepRunsOut(s, b, e, at.entries, d)
  {
    AmpleParts(s, functions, words, calls);
    RecordIsCallable(s, b, e);
    CallableIsSmall(s, functions, words, calls, e);
    hide IsFit, Sound, Balanced, IsBasis, IsAmpleFor, IsSmall, IsCallable, GraphIsFrom, GraphRunsOut, LimitBinds, BudgetsCover,
         ReportsNoBudget, AllLight, GraphsOf, TargetsOf, GuestView.FetchesCode;
    FitFetchesCode(s);
    BasisKnowsFirst(s, b, at);
    NoLimitBinds(s, e, at.entries, words, calls, |functions|, d);
    RecordsAreLight(s, b, functions, words, calls);
    forall g | GraphIsFrom(s, e, g, at.entries)
      ensures !GraphRunsOut(s, b, g, d)
    {
      GraphIsLight(s, e, g, at.entries, words, calls);
      TargetsAreAmong(s, e, g, at.entries, functions, words, calls);
      GraphFits(s, b, e, g, functions, words, calls, d);
    }
  }

  lemma AmpleParts(s: Setting, functions: set<Address>, words: nat, calls: nat)
    requires IsAmpleFor(s, functions, words, calls)
    ensures ReportsNoBudget(s.input.guest) && BudgetsCover(s, |functions|, words, calls)
  {
    hide IsCallable, IsSmall, BudgetsCover, ReportsNoBudget;
  }

  lemma TargetsAreAmong(s: Setting, e: Address, g: Graph, at: set<Address>, functions: set<Address>, words: nat, calls: nat)
    requires IsAmpleFor(s, functions, words, calls)
    requires IsCallable(s, e) && GraphIsFrom(s, e, g, at) && forall x :: x in FirstEntries(s) ==> x in at
    ensures forall t :: t in InRangeOf(s, TargetsOf(g)) ==> t in functions
  {
    hide IsAmpleFor, IsCallable, GraphIsFrom, TargetsOf, FirstEntries, ModuleInput.InRange;
    TargetsAreCallable(s, e, g, at);
    forall t | t in InRangeOf(s, TargetsOf(g))
      ensures t in functions
    {
      CallableIsSmall(s, functions, words, calls, t);
    }
  }

  lemma SeedsFit(s: Setting, j: nat, functions: set<Address>, words: nat, calls: nat, d: BudgetDimension)
    requires IsFit(s) && IsAmpleFor(s, functions, words, calls) && j < |s.input.seeds|
    ensures !SeedAtRunsOut(s, j, d)
  {
    hide IsFit, IsAmpleFor, IsCallable, AddSeeds, Capacity, BudgetsCover, ReportsNoBudget, SeedingRunsOut, HasBadSeed, SeededTo;
    SeedingIsSound(s, j);
    AmpleParts(s, functions, words, calls);
    if AddSeeds(s, j).Done? && s.options.Includes(s.input.seeds[j]) {
      var b, c := AddSeeds(s, j).value, s.input.seeds[j].Canonical();
      SeedIsCallable(s, j);
      SeededAreFew(s, b, j, c, functions, words, calls);
    }
  }

  lemma SeededAreFew(s: Setting, b: Book, j: nat, c: Address, functions: set<Address>, words: nat, calls: nat)
    requires j < |s.input.seeds| && SeededTo(s, b, j) && IsAmpleFor(s, functions, words, calls) && IsCallable(s, c)
    ensures b.seedCount < s.budgets.maxSeeds
    ensures c !in b.records ==> |b.records| < s.budgets.maxFunctions
  {
    hide IsCallable, IsSmall, Times, Proper, AllNew, SeededEntries, SeedsAreRecorded, ReportsNoBudget;
    forall x | x in b.records.Keys + {c}
      ensures x in functions
    {
      if x in b.records {
        assert b.records[x] == b.records[x];
      }
    }
    SubsetIsSmaller(b.records.Keys + {c}, functions);
    OneMore(b.records.Keys, c);
    assert |b.records| == |b.records.Keys|;
  }

  lemma WaitingHasNoGraph(s: Setting, b: Book, entries: seq<Address>, i: nat)
    requires Discovering(s, b, entries, i) && i < |entries| && entries[i] in b.processed
    ensures Sound(s, b, None) && Balanced(s, b) && entries[i] in b.records && b.records[entries[i]].cfg.None?
  {
    hide Sound, Balanced;
    WaitingIsDiscovered(b, entries, i);
    DiscoveredIsBare(s, b, entries[i]);
  }

  lemma WaveFits(s: Setting, b: Book, entries: seq<Address>, graphs: seq<Result<Graph>>, at: Knowledge, i: nat,
                 functions: set<Address>, words: nat, calls: nat, d: BudgetDimension)
    requires IsFit(s) && IsAmpleFor(s, functions, words, calls)
    requires Discovering(s, b, entries, 0) && AllProcessed(b, entries) && i < |entries|
    requires IsBasis(s, b.boundaries, at) && AnalyzesWave(s, entries, at.entries, graphs)
    ensures !WaveRunsOut(s, b, entries, graphs, at, i, d)
  {
    hide IsFit, IsAmpleFor, Discovering, IsBasis, ProcessWave, StepRunsOut, Analyzes, MayFault, WaveRunsOut, Sound, Balanced;
    WaveKeepsDiscovering(s, b, entries, graphs, at, i);
    var m := ProcessWave(s, b, entries[..i], graphs[..i], at);
    if m.Done? {
      BasisStays(s, b.boundaries, m.value.boundaries, at);
      WaitingHasNoGraph(s, m.value, entries, i);
      StepFits(s, m.value, entries[i], at, functions, words, calls, d);
    }
    WaveRunsOutIs(s, b, entries, graphs, at, i, d);
  }

  lemma WaveRunsOutIs(s: Setting, b: Book, entries: seq<Address>, graphs: seq<Result<Graph>>, at: Knowledge, i: nat,
                      d: BudgetDimension)
    requires i < |entries| && |graphs| == |entries|
    ensures
      var m := ProcessWave(s, b, entries[..i], graphs[..i], at);
      WaveRunsOut(s, b, entries, graphs, at, i, d) <==> m.Done? && StepRunsOut(s, m.value, entries[i], at.entries, d)
  {
    hide ProcessWave, StepRunsOut;
  }

  lemma RoundFits(s: Setting, b: Book, functions: set<Address>, words: nat, calls: nat, d: BudgetDimension)
    requires IsFit(s) && IsAmpleFor(s, functions, words, calls) && Discovering(s, b, [], 0)
    ensures !RoundRunsOut(s, b, d)
  {
    hide IsFit, IsAmpleFor, Discovering, IsBasis, Analyzes, WaveRunsOut, AllProcessed, TakeWave, Sound;
    var w := NextWave(s, b);
    TakingKeepsDiscovering(s, b);
    DiscoveringIsSound(s, b);
    SoundKnows(s, b);
    forall graphs, i | AnalyzesWave(s, w.entries, b.known, graphs) && 0 <= i < |w.entries|
      ensures !WaveRunsOut(s, AfterTaking(s, b), w.entries, graphs, b.Knows(), i, d)
    {
      WaveFits(s, AfterTaking(s, b), w.entries, graphs, b.Knows(), i, functions, words, calls, d);
    }
  }

  lemma DiscoveryFits(s: Setting, start: Book, functions: set<Address>, words: nat, calls: nat, d: BudgetDimension)
    requires IsFit(s) && IsAmpleFor(s, functions, words, calls) && Discovering(s, start, [], 0)
    ensures !DiscoveryRunsOut(s, start, d)
  {
    hide IsFit, IsAmpleFor, Discovering, WavesTo, RoundRunsOut, Grown;
    forall n, b | WavesTo(s, start, n, b)
      ensures !RoundRunsOut(s, b, d)
    {
      WavesKeepDiscovering(s, start, n, b);
      RoundFits(s, b, functions, words, calls, d);
    }
  }

  // The pass that follows.

  lemma PlusFits(u: Usage, v: Usage, n: nat)
    requires NoMore(u, Most(n)) && NoMore(v, Most(n))
    ensures NoMore(Plus(u, v), Most(2 * n))
  {
  }

  lemma GraphsAtAreLight(s: Setting, b: Book, part: set<Address>, functions: set<Address>, words: nat, calls: nat)
    requires IsFit(s) && Sound(s, b, None) && IsAmpleFor(s, functions, words, calls) && forall e :: e in part ==> e in b.records
    ensures AllLight(s, GraphsAt(s, b.known, part), words, calls) && |GraphsAt(s, b.known, part)| <= |functions|
  {
    hide IsFit, Sound, IsAmpleFor, IsSmall, IsLight, IsCallable, GraphIsFrom, HasGraph, IsBasis, GuestView.FetchesCode;
    FitFetchesCode(s);
    SoundKnows(s, b);
    BasisKnowsFirst(s, b, b.Knows());
    var graphs := GraphsAt(s, b.known, part);
    forall e | e in graphs
      ensures e in functions && IsLight(s, graphs[e], words, calls)
    {
      RecordIsCallable(s, b, e);
      CallableIsSmall(s, functions, words, calls, e);
      GraphIsLight(s, e, graphs[e], b.known, words, calls);
    }
    FewGraphs(graphs, functions);
  }

  lemma CalledAreFew(s: Setting, b: Book, part: set<Address>, functions: set<Address>)
    requires forall e :: e in b.records ==> e in functions
    ensures |CalledBy(s, b, part)| <= |functions|
  {
    hide SomeCalls, ModuleInput.InRange;
    SubsetIsSmaller(CalledBy(s, b, part), functions);
  }

  lemma WorkAfterFits(s: Setting, b: Book, functions: set<Address>, words: nat, calls: nat)
    requires IsFit(s) && Sound(s, b, None) && Balanced(s, b) && IsAmpleFor(s, functions, words, calls)
    ensures NoMore(WorkAfter(s, b, ToDo(b)), Most(2 * Times(|functions|, words)))
    ensures b.seedCount <= |s.input.seeds| + Times(|functions|, calls)
  {
    hide IsFit, Sound, Balanced, IsAmpleFor, AllLight, GraphsOf, GraphsAt, PassesOver, NoMore, Most, Times, Total;
    RecordsAreLight(s, b, functions, words, calls);
    FewGraphs(GraphsOf(b.records), functions) by {
      GraphsAreRecorded(b.records, functions);
    }
    ChargedAreLight(s, b, |functions|, words, calls);
    GraphsAtAreLight(s, b, ToDo(b), functions, words, calls);
    var graphs := GraphsAt(s, b.known, ToDo(b));
    LightGraphs(s, graphs, words, calls);
    TimesGrows(|graphs|, |functions|, words);
    MostGrows(Total(graphs), Times(|graphs|, words), Times(|functions|, words));
    PlusFits(b.usage, Total(graphs), Times(|functions|, words));
  }

  lemma GraphsAreRecorded(records: map<Address, FunctionRecord>, functions: set<Address>)
    requires forall e :: e in records ==> e in functions
    ensures forall e :: e in GraphsOf(records) ==> e in functions
  {
  }

  /** The pass after discovery cannot ask for more than the budgets allow. */
  lemma PassFitsAmply(s: Setting, b: Book, functions: set<Address>, words: nat, calls: nat, d: BudgetDimension)
    requires IsFit(s) && Sound(s, b, None) && Balanced(s, b) && IsAmpleFor(s, functions, words, calls)
    ensures !PassExceeds(s, b, d) && !PassMeetsLimit(s, b, d)
  {
    AmpleParts(s, functions, words, calls);
    hide IsFit, Sound, Balanced, IsAmpleFor, WorkAfter, CalledBy, Exceeds, LimitBinds, Most, NoMore, IsCallable, IsSmall,
         ReportsNoBudget, Times, AllLight, GraphsOf, IsBasis, PassesOver, GuestView.FetchesCode;
    FitFetchesCode(s);
    WorkAfterFits(s, b, functions, words, calls);
    WorkFits(s, WorkAfter(s, b, ToDo(b)), |functions|, words, calls, 2 * Times(|functions|, words), d);
    RecordsAreLight(s, b, functions, words, calls);
    CalledAreFew(s, b, ToDo(b), functions);
    SoundKnows(s, b);
    BasisKnowsFirst(s, b, b.Knows());
    forall e | e in ToDo(b)
      ensures !LimitBinds(s, e, b.known, d)
    {
      RecordIsCallable(s, b, e);
      CallableIsSmall(s, functions, words, calls, e);
      NoLimitBinds(s, e, b.known, words, calls, |functions|, d);
    }
  }

  // The whole run.

  /** No instruction calls a function directly. */
  ghost predicate CallsNothing(guest: GuestView) { forall a, t :: !CallsFrom(guest, a, t) }

  /** Discovery leaves nothing for the passes to find: analyses stay in one executable range, or nothing is called. */
  ghost predicate LeavesNothing(s: Setting) { Confined(s.input, s.limits) || CallsNothing(s.input.guest) }

  lemma CallFreeFindsNothing(s: Setting, b: Book, e: Address)
    requires CallsNothing(s.input.guest)
    ensures FindsNothing(s, b, e)
  {
    hide CallsFrom, GraphIsFrom, Ownable, TargetsOf, CallsDirectly, Problem.IsAnalysis;
    forall g | GraphIsFrom(s, e, g, b.known)
      ensures CallsAreKnown(s, b, TargetsOf(g))
    {
      FromAnalysis(s, e, g, b.known);
      assert s.ProblemAt(e, b.known).guest == s.input.guest;
      forall t
        ensures t !in TargetsOf(g)
      {
        TargetIsCalled(g, t);
        CallsAreReached(s.ProblemAt(e, b.known), g, t);
      }
    }
  }

  /** The state in which discovery ends. */
  lemma DiscoveredIs(s: Setting, b: Book)
    requires IsFit(s) && IsDiscovered(s, b)
    ensures Discovering(s, b, [], 0) && b.pending == {} && NoneWaiting(b.records)
    ensures Sound(s, b, None) && Balanced(s, b) && b.checkpoints == map[] && b.passes == 0
    ensures LeavesNothing(s) ==> Still(s, b)
  {
    hide Seeded, Discovers, Discovering, IsFit, Sound, Balanced, FindsNothing, Confined, CallsNothing, Calm, Grown;
    SeededGives(s);
    DiscoveryIsSound(s, Seeded(s).value, Done(b));
    DiscoveringIsSound(s, b);
    DiscoveringIsBalanced(s, b);
    if Confined(s.input, s.limits) {
      DiscoveredIsCalm(s, b);
      CalmIsStill(s, b);
    } else if CallsNothing(s.input.guest) {
      forall e | e in b.records && b.records[e].cfg.Some?
        ensures FindsNothing(s, b, e)
      {
        CallFreeFindsNothing(s, b, e);
      }
    }
  }

  lemma DiscoveringIsBalanced(s: Setting, b: Book)
    requires Discovering(s, b, [], 0)
    ensures Balanced(s, b)
  {
    hide Sound, Balanced;
  }

  lemma SeedingFits(s: Setting, functions: set<Address>, words: nat, calls: nat, d: BudgetDimension)
    requires IsFit(s) && IsAmpleFor(s, functions, words, calls)
    ensures !SeedingRunsOut(s, d)
  {
    hide IsFit, IsAmpleFor, SeedAtRunsOut;
    forall j | 0 <= j < |s.input.seeds|
      ensures !SeedAtRunsOut(s, j, d)
    {
      SeedsFit(s, j, functions, words, calls, d);
    }
  }

  /** With ample budgets, and nothing left for the passes to find, no budget runs out. */
  lemma AmpleIsEnough(s: Setting, o: Outcome<Book>)
    requires IsFit(s) && IsAmple(s) && LeavesNothing(s) && Settles(s, o)
    ensures !o.OverBudget?
  {
    hide IsFit, IsAmpleFor, LeavesNothing, Seeded, Discovers, Finalizes, Discovering, SeedingRunsOut, DiscoveryRunsOut, MayFault,
         HasBadSeed, NothingIncluded, Sound, Balanced, Still, PassExceeds, PassMeetsLimit, PassFits, WorkAfter, CalledBy;
    var functions, words, calls :| IsAmpleFor(s, functions, words, calls);
    SeededGives(s);
    if Seeded(s).Done? {
      var d :| Discovers(s, Seeded(s).value, d) && if d.IsFailure() then o == d else Finalizes(s, d.value, o);
      DiscoveryIsSound(s, Seeded(s).value, d);
      if d.OverBudget? {
        DiscoveryFits(s, Seeded(s).value, functions, words, calls, d.dimension);
      } else if d.Done? {
        DiscoveredIs(s, d.value);
        FinalizationFitsExactly(s, d.value, o);
        if o.OverBudget? {
          PassFitsAmply(s, d.value, functions, words, calls, o.dimension);
        }
      }
    } else if Seeded(s).OverBudget? {
      SeedingFits(s, functions, words, calls, Seeded(s).dimension);
    }
  }

  /** What the outcome says of the budgets when discovery leaves nothing for the passes to find: success means that
      the one pass after it fits, and failure that a seed, a function of discovery or that pass does not. */
  ghost predicate SettlesWithin(s: Setting, o: Outcome<Book>) {
    match o
    case Done(_) => exists b :: IsDiscovered(s, b) && StillPassGives(s, b, o)
    case OverBudget(d) =>
      || SeedingRunsOut(s, d)
      || (Seeded(s).Done? && DiscoveryRunsOut(s, Seeded(s).value, d))
      || exists b :: IsDiscovered(s, b) && (PassExceeds(s, b, d) || PassMeetsLimit(s, b, d))
    case Fault(_) => true
  }

  lemma SettlingFitsExactly(s: Setting, o: Outcome<Book>)
    requires IsFit(s) && LeavesNothing(s) && Settles(s, o)
    ensures SettlesWithin(s, o)
  {
    hide IsFit, LeavesNothing, Seeded, Discovers, Finalizes, Discovering, SeedingRunsOut, DiscoveryRunsOut, MayFault, HasBadSeed,
         NothingIncluded, Sound, Balanced, Still, PassExceeds, PassMeetsLimit, PassFits, WorkAfter, CalledBy;
    SeededGives(s);
    if Seeded(s).Done? {
      var d :| Discovers(s, Seeded(s).value, d) && if d.IsFailure() then o == d else Finalizes(s, d.value, o);
      DiscoveryIsSound(s, Seeded(s).value, d);
      if d.Done? {
        assert IsDiscovered(s, d.value);
        DiscoveredIs(s, d.value);
        FinalizationFitsExactly(s, d.value, o);
      }
    }
  }

  lemma SettledWithin(s: Setting, o: Outcome<Book>)
    requires IsFit(s) && Settles(s, o)
    ensures LeavesNothing(s) ==> SettlesWithin(s, o)
    ensures LeavesNothing(s) && IsAmple(s) ==> !o.OverBudget?
  {
    hide IsFit, LeavesNothing, IsAmple, Settles, SettlesWithin;
    if LeavesNothing(s) {
      SettlingFitsExactly(s, o);
      if IsAmple(s) {
        AmpleIsEnough(s, o);
      }
    }
  }

  lemma ProcessedAreCharged(s: Setting, b: Book)
    requires Discovering(s, b, [], 0) && b.pending == {}
    ensures |b.records| <= b.seedCount
  {
    hide Sound, Total, CallTotal, GraphsOf;
    forall e | e in b.records.Keys
      ensures e in b.processed
    {
      assert b.records[e] == b.records[e];
    }
    SubsetIsSmaller(b.records.Keys, b.processed);
    assert |b.records| == |b.records.Keys|;
  }

  /** A build can only succeed if the functions and, once more, those that are called fit the seed budget, however
      much of it was requested: it is cut down to the number of instruction slots. */
  lemma CallsNeedSlots(s: Setting, c: Book)
    requires IsFit(s) && LeavesNothing(s) && Settles(s, Done(c)) && s == SettingOf(s.input, s.options)
    ensures exists b :: IsDiscovered(s, b) && c.records.Keys == b.records.Keys && c.known == b.known
                        && |b.records| + |CalledBy(s, b, ToDo(b))| <= s.budgets.maxSeeds <= Capacity(s.input.executable)
  {
    SeedsAreSlots(s);
    hide IsFit, LeavesNothing, Settles, IsDiscovered, Discovering, CalledBy, WorkAfter, ToDo, Still, Sound, Balanced, SettingOf,
         Capacity;
    SettlingFitsExactly(s, Done(c));
    var b :| IsDiscovered(s, b) && StillPassGives(s, b, Done(c));
    DiscoveredIs(s, b);
    ProcessedAreCharged(s, b);
  }

  lemma SeedsAreSlots(s: Setting)
    requires IsFit(s) && s == SettingOf(s.input, s.options)
    ensures s.budgets.maxSeeds <= Capacity(s.input.executable)
  {
    forall i | 0 <= i < |s.input.executable|
      ensures IsCodeRange(s.input.executable[i])
    {
      assert RangeIsExecutable(s.input, s.input.executable[i]);
    }
    SumFits(s.input.executable);
  }
}
