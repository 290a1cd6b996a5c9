/** A build that publishes a stale graph, and with it a conflict between functions that share no code.

    The function at 0x1000 calls 0x1010 and then branches to 0x1008, which lies in another executable range
    and is not known to be a function yet: its graph cannot be owned, and its call is not followed up.  The
    function at 0x1008 calls itself, which makes it known, and then branches to 0x1010.  The first finalization
    pass repairs the first function, finds the boundary 0x1010, and only then stores the second graph, computed
    without that boundary but with a checkpoint that counts it.  The second pass keeps that graph. */
module StaleBuild {
  import opened Common
  import opened ControlFlow
  import opened CodeRanges
  import opened CfgTheorems
  import opened FunctionRecords
  import opened FunctionMaps
  import opened FunctionDiscovery
  import opened FreshGraphs
  import opened BuildSteps
  import opened BuildInvariant
  import opened BuildRuns
  import opened Finalization
  import AmpleBudgets
  import opened FunctionPublication
  import opened FunctionMapBuilder

  // The input.

  const FIRST := 0x1000
  const SECOND := 0x1008
  const LAST := 0x1010

  const CODE: map<Address, Result<Instruction>> := map[
    0x1000 := Ok(Instruction(0x1000, Flow(DirectCall, Some(0x1010), None))),
    0x1004 := Ok(Instruction(0x1004, Flow(DirectBranch, Some(0x1008), None))),
    0x1008 := Ok(Instruction(0x1008, Flow(DirectCall, Some(0x1008), None))),
    0x100C := Ok(Instruction(0x100C, Flow(DirectBranch, Some(0x1010), None))),
    0x1010 := Ok(Instruction(0x1010, Flow(Return, None, None)))]

  const GUEST := GuestView(map a | 0x1000 <= a <= 0x1010 :: Ok(true), CODE)

  const NARROW := Range(0x1000, 8)
  const WIDE := Range(0x1008, 12)

  const INPUT := ModuleInput("stale", GUEST, [NARROW, WIDE], map[NARROW := Ok(true), WIDE := Ok(true)],
                             [FunctionSeed(0x1000, Heuristic, Low, None), FunctionSeed(0x1008, Heuristic, Low, None)])

  /** The budgets are the largest that the five words allow. */
  const OPTIONS := BuildOptions(Budgets(5, 25, 25, 50, 5, 100, 4), AnalysisOptions(25, 25, 5, None, {}), None, true, 1, {})

  function Fixture(): Setting { Setting(INPUT, OPTIONS, OPTIONS.budgets, OPTIONS.cfg) }

  lemma GuestFetchesCode()
    ensures GUEST.FetchesCode()
  {
  }

  lemma InputIsAccepted()
    ensures InputIsValid(INPUT, OPTIONS.budgets) && PermissionsAgree(INPUT)
  {
    assert RangeIsExecutable(INPUT, NARROW) && RangeIsExecutable(INPUT, WIDE);
    assert Precedes(NARROW, WIDE);
  }

  lemma BudgetsAreKept(bytes: uint64)
    requires bytes == 20
    ensures Clamped(OPTIONS.budgets, bytes) == OPTIONS.budgets
  {
  }

  lemma InputIsFit()
    ensures InputIsValid(INPUT, OPTIONS.budgets) && IsFit(Fixture()) && SettingOf(INPUT, OPTIONS) == Fixture()
  {
    hide InputIsValid, GuestView.FetchesCode, Clamped;
    GuestFetchesCode();
    InputIsAccepted();
    SizesAdd([NARROW], WIDE);
    SizesAdd([], NARROW);
    BudgetsAreKept(20);
  }

  lemma SizesAdd(front: seq<Range>, r: Range)
    ensures SumSizes(front + [r]) == SumSizes(front) + r.size
  {
    assert (front + [r])[..|front|] == front;
  }

  // Its analyses.

  function At(entry: Address, known: set<Address>): Problem { Fixture().ProblemAt(entry, known) }

  lemma Ahead(entry: Address, known: set<Address>, a: Address)
    requires a in CODE
    ensures At(entry, known).Successors(a) == At(entry, known).Ahead(CODE[a].value)
    ensures At(entry, known).LeaderTargets(a) == At(entry, known).Successors(a)
  {
    At(entry, known).SuccessorsAhead(CODE[a].value);
  }

  /** The addresses an analysis reaches, as far as this guest goes. */
  ghost predicate Covers5(entry: Address, known: set<Address>, reach: set<Address>) {
    && entry in reach && reach <= CODE.Keys
    && forall a :: a in reach ==> At(entry, known).Successors(a) <= reach
  }

  lemma CoveredReach(entry: Address, known: set<Address>, reach: set<Address>)
    requires Covers5(entry, known, reach)
    ensures forall a :: At(entry, known).Reaches(a) ==> a in reach
    ensures forall l :: At(entry, known).StartsBlock(l) ==> l in reach
  {
    var p := At(entry, known);
    var s := iset a: Address | a in reach;
    assert p.ClosedUnderSuccessors(s) && p.entry in s;
    forall l | p.StartsBlock(l)
      ensures l in reach
    {
      if l != p.entry {
        var a :| p.Reaches(a) && l in p.LeaderTargets(a);
        Ahead(entry, known, a);
      }
    }
  }

  lemma WordsAreSound(entry: Address, known: set<Address>, a: Address)
    requires a in CODE
    ensures At(entry, known).StepError(a).None?
  {
  }

  lemma EntriesAreSound(entry: Address, known: set<Address>)
    requires entry in CODE
    ensures At(entry, known).EntryError().None?
  {
  }

  /** An analysis that stays on the guest's five words and transfers to no block of its own succeeds. */
  lemma AnalysisSucceeds(entry: Address, known: set<Address>, reach: set<Address>, r: Result<Graph>)
    requires Covers5(entry, known, reach) && |reach| <= 5 && Analyzes(Fixture(), entry, known, r)
    requires forall a :: a in reach ==> !At(entry, known).TransfersTo(a, At(entry, known).Starts())
    ensures r.Ok?
  {
    var p := At(entry, known);
    CoveredReach(entry, known, reach);
    EntriesAreSound(entry, known);
    forall a | a in reach
      ensures p.StepError(a).None?
    {
      WordsAreSound(entry, known, a);
    }
    hide Covers5, Problem.StepError, Problem.Reaches, Problem.StartsBlock, Problem.EntryError, Problem.TransfersTo,
         Problem.IsAnalysis;
    if r.Err? {
      SoundProblemsSucceed(p, reach, reach, r.code);
    }
  }

  /** Where control goes on after a word. */
  function NextOf(entry: Address, known: set<Address>, a: Address): set<Address> {
    if a == 0x1000 then {0x1004}
    else if a == 0x1004 && !(SECOND in known && entry != SECOND) then {SECOND}
    else if a == 0x1008 then {0x100C}
    else if a == 0x100C && !(LAST in known && entry != LAST) then {LAST}
    else {}
  }

  lemma NextIs(entry: Address, known: set<Address>, a: Address)
    requires a in CODE
    ensures At(entry, known).Successors(a) == NextOf(entry, known, a)
  {
    Ahead(entry, known, a);
  }

  ghost predicate GoesOn(entry: Address, known: set<Address>, chain: seq<Address>, i: nat)
    requires i < |chain|
  {
    chain[i] in CODE && NextOf(entry, known, chain[i]) == if i + 1 < |chain| then {chain[i + 1]} else {}
  }

  /** The words of a function, each followed by the next. */
  ghost predicate IsChain(entry: Address, known: set<Address>, chain: seq<Address>) {
    0 < |chain| <= 5 && chain[0] == entry && forall i :: 0 <= i < |chain| ==> GoesOn(entry, known, chain, i)
  }

  lemma {:induction false} ChainIsReached(entry: Address, known: set<Address>, chain: seq<Address>, i: nat)
    requires IsChain(entry, known, chain) && i < |chain|
    ensures At(entry, known).Reaches(chain[i])
  {
    if i > 0 {
      ChainIsReached(entry, known, chain, i - 1);
      assert GoesOn(entry, known, chain, i - 1);
      NextIs(entry, known, chain[i - 1]);
      assert chain[i] in At(entry, known).Successors(chain[i - 1]);
    }
  }

  function Members(chain: seq<Address>): set<Address> { set a | a in chain }

  lemma ChainIsCode(entry: Address, known: set<Address>, chain: seq<Address>)
    requires IsChain(entry, known, chain)
    ensures Members(chain) <= CODE.Keys
  {
    forall a | a in Members(chain)
      ensures a in CODE.Keys
    {
      var i :| 0 <= i < |chain| && chain[i] == a;
      assert GoesOn(entry, known, chain, i);
    }
  }

  lemma ChainIsReach(entry: Address, known: set<Address>, chain: seq<Address>)
    requires IsChain(entry, known, chain)
    ensures Covers5(entry, known, Members(chain))
    ensures forall a :: At(entry, known).Reaches(a) <==> a in chain
  {
    forall a | a in Members(chain)
      ensures At(entry, known).Successors(a) <= Members(chain)
    {
      var i :| 0 <= i < |chain| && chain[i] == a;
      assert GoesOn(entry, known, chain, i);
      NextIs(entry, known, a);
      assert i + 1 < |chain| ==> chain[i + 1] in chain;
    }
    assert chain[0] in Members(chain);
    ChainIsCode(entry, known, chain);
    CoveredReach(entry, known, Members(chain));
    forall a | a in chain
      ensures At(entry, known).Reaches(a)
    {
      var i :| 0 <= i < |chain| && chain[i] == a;
      ChainIsReached(entry, known, chain, i);
    }
  }

  lemma {:induction false} FewMembers(chain: seq<Address>)
    ensures |Members(chain)| <= |chain|
  {
    if chain != [] {
      FewMembers(chain[1..]);
      assert chain == [chain[0]] + chain[1..];
      assert Members(chain) == Members(chain[1..]) + {chain[0]};
    }
  }

  // What a graph of this guest uses up, and what it calls.

  lemma NoWordIsUnresolved(p: Problem, a: Address)
    requires p.guest == GUEST && a in CODE
    ensures p.guest.fetch(a).Ok? && p.UnresolvedOf(p.guest.fetch(a).value) == []
  {
  }

  lemma UnresolvedIsListed(p: Problem, g: Graph, u: Unresolved)
    requires p.IsAnalysis(g) && u in g.unresolved
    ensures u.address in Addresses(g)
    ensures p.guest.fetch(u.address).Ok? && p.UnresolvedOf(p.guest.fetch(u.address).value) == [u]
  {
    hide Problem.BlockAt, Problem.IsMaximal, Problem.ListsCalls, Problem.Reaches, Problem.StartsBlock;
  }

  lemma NothingUnresolved(p: Problem, g: Graph)
    requires p.guest == GUEST && p.IsAnalysis(g) && Addresses(g) <= CODE.Keys
    ensures g.unresolved == []
  {
    hide *;
    if |g.unresolved| > 0 {
      var u := g.unresolved[0];
      UnresolvedIsListed(p, g, u);
      NoWordIsUnresolved(p, u.address);
    }
  }

  lemma GraphIsOf(entry: Address, known: set<Address>, chain: seq<Address>, g: Graph)
    requires IsChain(entry, known, chain) && At(entry, known).IsAnalysis(g)
    ensures Addresses(g) == Members(chain) && g.blocks.Keys <= Members(chain) && g.instructionCount == |Members(chain)|
    ensures Members(chain) <= CODE.Keys
  {
    hide Problem.IsAnalysis, Problem.Reaches, Problem.StartsBlock, IsChain, Problem.Successors, NextOf;
    ChainIsReach(entry, known, chain);
    CoveredReach(entry, known, Members(chain));
    GraphSets(At(entry, known), g);
    forall l | l in g.blocks
      ensures l in Members(chain)
    {
      assert At(entry, known).StartsBlock(l);
    }
  }

  lemma GraphIsSmall(entry: Address, known: set<Address>, chain: seq<Address>, g: Graph)
    requires IsChain(entry, known, chain) && At(entry, known).IsAnalysis(g)
    ensures Addresses(g) == Members(chain) && g.instructionCount <= 5 && |g.blocks| <= 5 && EdgeCount(g) <= 10
  {
    assert At(entry, known).guest == GUEST && |chain| <= 5;
    hide *;
    GraphIsOf(entry, known, chain, g);
    FewMembers(chain);
    NothingUnresolved(At(entry, known), g);
    AmpleBudgets.GraphIsBounded(At(entry, known), g);
  }

  lemma CallsOfGraph(entry: Address, known: set<Address>, chain: seq<Address>, g: Graph, t: Address)
    requires IsChain(entry, known, chain) && At(entry, known).IsAnalysis(g)
    ensures CallsDirectly(g, t) <==> exists a :: a in chain && CallsFrom(GUEST, a, t)
  {
    CallsAreReached(At(entry, known), g, t);
    ChainIsReach(entry, known, chain);
    hide Problem.IsAnalysis, Problem.Reaches, CallsDirectly, CallsFrom, Covers5;
    if a :| At(entry, known).Reaches(a) && CallsFrom(At(entry, known).guest, a, t) {
      assert a in chain;
    }
  }

  /** The only call in a chain that starts at the second function or later, or stops before it. */
  lemma ChainCalls(chain: seq<Address>, a: Address, t: Address)
    requires a in CODE
    ensures CallsFrom(GUEST, a, t) <==> (a == 0x1000 && t == LAST) || (a == 0x1008 && t == SECOND)
  {
  }

  lemma TargetsIncrease(g: Graph)
    ensures |TargetsOf(g)| > 1 ==> TargetsOf(g)[0] < TargetsOf(g)[1]
  {
    TargetsAre(g);
    hide TargetsOf;
  }

  lemma OneTarget(g: Graph, t: Address)
    requires forall x :: CallsDirectly(g, x) <==> x == t
    ensures TargetsOf(g) == [t]
  {
    hide TargetsOf, CallsDirectly;
    var l := TargetsOf(g);
    TargetsIncrease(g);
    TargetIsCalled(g, t);
    forall i | 0 <= i < |l|
      ensures l[i] == t
    {
      TargetIsCalled(g, l[i]);
      assert l[i] in l;
    }
    assert l == [t];
  }

  lemma NoTarget(g: Graph)
    requires forall x :: !CallsDirectly(g, x)
    ensures TargetsOf(g) == []
  {
    hide TargetsOf, CallsDirectly;
    if |TargetsOf(g)| > 0 {
      TargetIsCalled(g, TargetsOf(g)[0]);
    }
  }

  // The five analyses of the build.

  const WHOLE: seq<Address> := [0x1000, 0x1004, 0x1008, 0x100C, 0x1010]
  const HEAD: seq<Address> := [0x1000, 0x1004]
  const TAIL: seq<Address> := [0x1008, 0x100C, 0x1010]
  const END: seq<Address> := [0x1010]

  lemma WholeIsChain()
    ensures IsChain(FIRST, {}, WHOLE)
  {
    assert NextOf(FIRST, {}, 0x1000) == {0x1004} && NextOf(FIRST, {}, 0x1004) == {0x1008};
    assert NextOf(FIRST, {}, 0x1008) == {0x100C} && NextOf(FIRST, {}, 0x100C) == {0x1010};
    assert GoesOn(FIRST, {}, WHOLE, 0) && GoesOn(FIRST, {}, WHOLE, 1) && GoesOn(FIRST, {}, WHOLE, 2)
           && GoesOn(FIRST, {}, WHOLE, 3) && GoesOn(FIRST, {}, WHOLE, 4);
  }

  lemma TailIsChain(known: set<Address>)
    requires LAST !in known
    ensures IsChain(SECOND, known, TAIL)
  {
    assert NextOf(SECOND, known, 0x1008) == {0x100C} && NextOf(SECOND, known, 0x100C) == {0x1010};
    assert GoesOn(SECOND, known, TAIL, 0) && GoesOn(SECOND, known, TAIL, 1) && GoesOn(SECOND, known, TAIL, 2);
  }

  lemma OthersAreChains()
    ensures IsChain(FIRST, {SECOND}, HEAD) && IsChain(LAST, {SECOND}, END)
  {
    assert NextOf(FIRST, {SECOND}, 0x1000) == {0x1004};
    assert GoesOn(FIRST, {SECOND}, HEAD, 0) && GoesOn(FIRST, {SECOND}, HEAD, 1) && GoesOn(LAST, {SECOND}, END, 0);
  }

  /** No branch of the function transfers to a word of its own. */
  ghost predicate StaysOut(entry: Address, known: set<Address>, chain: seq<Address>) {
    && (SECOND in known && entry != SECOND ==> SECOND !in chain)
    && (LAST in known && entry != LAST ==> LAST !in chain)
  }

  lemma NothingTransfers(entry: Address, known: set<Address>, chain: seq<Address>, a: Address)
    requires IsChain(entry, known, chain) && StaysOut(entry, known, chain) && a in chain
    ensures !At(entry, known).TransfersTo(a, At(entry, known).Starts())
  {
    ChainIsReach(entry, known, chain);
    CoveredReach(entry, known, Members(chain));
    hide Problem.StartsBlock, Problem.Reaches, Covers5;
    assert a in CODE;
  }

  /** What the analysis of a chain returns. */
  lemma ChainOutcome(entry: Address, known: set<Address>, chain: seq<Address>, r: Result<Graph>)
    requires IsChain(entry, known, chain) && StaysOut(entry, known, chain) && Analyzes(Fixture(), entry, known, r)
    ensures r.Ok? && GraphIsFrom(Fixture(), entry, r.value, known) && At(entry, known).IsAnalysis(r.value)
    ensures Addresses(r.value) == Members(chain)
    ensures r.value.instructionCount <= 5 && |r.value.blocks| <= 5 && EdgeCount(r.value) <= 10
  {
    hide IsChain, StaysOut, Analyzes, GraphIsFrom, Problem.IsAnalysis, Problem.TransfersTo, Problem.Starts, Covers5,
         EdgeCount;
    ChainIsReach(entry, known, chain);
    FewMembers(chain);
    ChainIsShort(entry, known, chain);
    forall a | a in Members(chain)
      ensures !At(entry, known).TransfersTo(a, At(entry, known).Starts())
    {
      NothingTransfers(entry, known, chain, a);
    }
    AnalysisSucceeds(entry, known, Members(chain), r);
    AnalyzesGraph(Fixture(), entry, known, r);
    FromAnalysis(Fixture(), entry, r.value, known);
    GraphIsSmall(entry, known, chain, r.value);
  }

  lemma ChainIsShort(entry: Address, known: set<Address>, chain: seq<Address>)
    requires IsChain(entry, known, chain)
    ensures |chain| <= 5
  {
  }

  /** The calls of the chains that are stored with success. */
  lemma ChainTargets(entry: Address, known: set<Address>, chain: seq<Address>, g: Graph)
    requires IsChain(entry, known, chain) && At(entry, known).IsAnalysis(g) && chain in {HEAD, TAIL, END}
    ensures TargetsOf(g) == if chain == HEAD then [LAST] else if chain == TAIL then [SECOND] else []
  {
    hide IsChain, Problem.IsAnalysis, CallsDirectly, CallsFrom, TargetsOf;
    forall t
      ensures CallsDirectly(g, t) <==> (chain == HEAD && t == LAST) || (chain == TAIL && t == SECOND)
    {
      CallsOfGraph(entry, known, chain, g, t);
      forall a | a in chain
        ensures CallsFrom(GUEST, a, t) <==> (a == 0x1000 && t == LAST) || (a == 0x1008 && t == SECOND)
      {
        ChainCalls(chain, a, t);
      }
      assert 0x1000 in HEAD && 0x1008 in TAIL;
    }
    if chain == HEAD {
      OneTarget(g, LAST);
    } else if chain == TAIL {
      OneTarget(g, SECOND);
    } else {
      NoTarget(g);
    }
  }

  lemma ChainIsOwnable(chain: seq<Address>, g: Graph)
    requires chain in {HEAD, TAIL, END} && Addresses(g) == Members(chain)
    ensures Ownable(g, INPUT.executable)
  {
    var home := if chain == HEAD then NARROW else WIDE;
    assert chain[0] in Addresses(g);
    assert StaysIn(g, home);
    assert INPUT.executable[0] == NARROW && INPUT.executable[1] == WIDE;
    StayingIsOwnable(g, INPUT.executable);
  }

  /** The whole chain is one piece of code across two executable ranges. */
  lemma WholeIsNotOwnable(g: Graph)
    requires Addresses(g) == Members(WHOLE)
    ensures !Ownable(g, INPUT.executable)
  {
    var rs := RangesOf(g);
    if Describes(g, rs) {
      forall x | 0x1000 <= x < 0x100C
        ensures Owns(rs, x)
      {
        var a := if x < 0x1004 then 0x1000 else if x < 0x1008 then 0x1004 else 0x1008;
        assert a in WHOLE && a in Addresses(g) && InGraph(g, x);
      }
      var k := IntervalIsCovered(rs, 0x1000, 0x100C);
      assert !NARROW.Holds(rs[k].base, rs[k].size) && !WIDE.Holds(rs[k].base, rs[k].size);
      assert !ContainsAny(INPUT.executable, rs[k].base, rs[k].size);
    }
  }

  // The steps of the build.

  /** No more work has been consumed than `n` small graphs need. */
  ghost predicate IsLight(u: Usage, n: nat) {
    u.instructions <= 5 * n && u.blocks <= 5 * n && u.edges <= 10 * n && u.bytes <= 20 * n
  }

  lemma SmallFits(u: Usage, n: nat, g: Graph)
    requires IsLight(u, n) && n < 5 && g.instructionCount <= 5 && |g.blocks| <= 5 && EdgeCount(g) <= 10
    ensures Overrun(u, g, OPTIONS.budgets).None? && IsLight(Consumed(u, g), n + 1)
  {
    hide EdgeCount;
  }

  lemma EntriesOfInput(a: Address)
    requires a in {FIRST, SECOND, LAST}
    ensures INPUT.IsEntry(a) && INPUT.InRange(a)
  {
    assert INPUT.executable[0] == NARROW && INPUT.executable[1] == WIDE;
    assert if a == FIRST then NARROW.Holds(a, 4) else WIDE.Holds(a, 4);
  }

  /** A function that owns its graph. */
  ghost predicate IsOwner(b: Book, e: Address, g: Graph) {
    && e in b.records && b.records[e].status.Analyzed? && b.records[e].cfg == Some(g) && b.records[e].ranges == RangesOf(g)
    && Describes(g, RangesOf(g)) && forall i :: 0 <= i < |b.records[e].dependencies| ==> b.records[e].dependencies[i] % 4 == 0
  }

  ghost predicate IsAlone(b: Book, e: Address) { e in b.records && b.records[e].entries == [e] }

  ghost predicate FewKnown(known: set<Address>) { known <= {SECOND, LAST} }

  lemma OwnedStore(b: Book, e: Address, g: Graph, at: Knowledge, n: nat)
    requires e in b.records && Ownable(g, INPUT.executable) && IsLight(b.usage, n) && n < 5 && FewKnown(b.known)
    requires g.instructionCount <= 5 && |g.blocks| <= 5 && EdgeCount(g) <= 10
    ensures
      var o := Store(Fixture(), b, e, g, at);
      && o.Done? && IsLight(o.value.usage, n + 1) && IsOwner(o.value, e, g)
      && o.value.records[e].directCalls == TargetsOf(g) && o.value.records[e].entries == b.records[e].entries
      && o.value == b.(records := b.records[e := o.value.records[e]], usage := o.value.usage, basis := b.basis[e := at])
  {
    CodeIsDescribed(g);
    SmallFits(b.usage, n, g);
    hide Ownable, RangesOf, Describes, HasCode, TargetsOf, Overrun, Consumed, EdgeCount, ContainsAny, IsLight;
    var deps := OwnedEntries(RangesOf(g), b.known);
    forall i | 0 <= i < |deps|
      ensures deps[i] % 4 == 0
    {
      assert deps[i] in deps;
    }
  }

  lemma NoCalls(b: Book)
    ensures AddCalls(Fixture(), b, []) == Done(b)
  {
  }

  lemma OneCall(b: Book, t: Address)
    requires t in {FIRST, SECOND, LAST}
    ensures AddCalls(Fixture(), b, [t]) == AddCall(Fixture(), b, t)
  {
    EntriesOfInput(t);
    assert [t][..0] == [];
    hide AddCall, ModuleInput.InRange;
    NoCalls(b);
  }

  /** A call of a function that is recorded. */
  lemma CallOfRecorded(b: Book, t: Address)
    requires t in {SECOND, LAST} && t in b.records && IsAlone(b, t) && t !in b.pending && b.seedCount < 5
    ensures
      var o := AddCall(Fixture(), b, t);
      && o.Done?
      && o.value == b.(records := b.records[t := o.value.records[t]], pending := b.pending + {t},
                       seedCount := b.seedCount + 1, known := b.known + {t},
                       boundaries := if t in b.known then b.boundaries else b.boundaries + [t])
      && SameFunction(b.records[t], o.value.records[t]) && IsAlone(o.value, t)
  {
    EntriesOfInput(t);
    if t in b.known {
      assert b.known + {t} == b.known;
    }
  }

  /** A call of a function that is not. */
  lemma CallOfNew(b: Book, t: Address)
    requires t in {SECOND, LAST} && t !in b.records && t !in b.pending && b.seedCount < 5 && |b.records| < 5
    requires t !in b.known
    ensures
      var o := AddCall(Fixture(), b, t);
      && o.Done?
      && o.value == b.(records := b.records[t := o.value.records[t]], pending := b.pending + {t},
                       seedCount := b.seedCount + 1, known := b.known + {t}, boundaries := b.boundaries + [t])
      && o.value.records[t].status.Discovered? && o.value.records[t].cfg.None? && IsAlone(o.value, t)
  {
    EntriesOfInput(t);
  }

  // Discovery.

  ghost predicate IsNew(b: Book, e: Address) {
    IsAlone(b, e) && b.records[e].status.Discovered? && b.records[e].cfg.None?
  }

  ghost predicate HasGraph(b: Book, e: Address) { IsAlone(b, e) && b.records[e].cfg.Some? }

  /** The counters and containers besides the records. */
  ghost predicate Stands(b: Book, pending: set<Address>, seeds: nat, boundaries: seq<Address>, n: nat) {
    && b.pending == pending && b.seedCount == seeds && b.boundaries == boundaries
    && b.known == Members(boundaries) && IsLight(b.usage, n)
  }

  ghost predicate BeforePasses(b: Book) { b.records.Keys == {FIRST, SECOND} && b.checkpoints == map[] && b.passes == 0 }

  ghost predicate AtStart(b: Book) {
    BeforePasses(b) && IsNew(b, FIRST) && IsNew(b, SECOND) && b.processed == {} && Stands(b, {FIRST, SECOND}, 2, [], 0)
  }

  ghost predicate AfterFirst(b: Book) {
    && BeforePasses(b) && HasGraph(b, FIRST) && IsNew(b, SECOND) && b.processed == {FIRST}
    && b.records[FIRST].status.Failed? && Stands(b, {SECOND}, 2, [], 1)
  }

  ghost predicate AfterSecond(b: Book, pending: set<Address>) {
    && BeforePasses(b) && HasGraph(b, FIRST) && HasGraph(b, SECOND) && b.processed == {FIRST, SECOND}
    && b.records[FIRST].status.Failed? && Stands(b, pending, 3, [SECOND], 2)
  }

  lemma SeedsGive()
    ensures Seeded(Fixture()).Done? && AtStart(Seeded(Fixture()).value)
  {
    hide AddSeed, AddSeeds, IsNew;
    var empty := EmptyBook(Fixture());
    SeedsAreAdded(0, empty);
    SeedIsNew(empty, INPUT.seeds[0]);
    var one := AddSeed(Fixture(), empty, INPUT.seeds[0]).value;
    SeedsAreAdded(1, one);
    SeedIsNew(one, INPUT.seeds[1]);
    var two := AddSeed(Fixture(), one, INPUT.seeds[1]).value;
    SeedsAreAdded(2, two);
    assert two.records.Keys == {FIRST, SECOND} && two.records[FIRST] == one.records[FIRST];
    StillNew(one, two, FIRST);
  }

  /** One more of the two seeds, neither of which is a known entry. */
  lemma SeedsAreAdded(k: nat, b: Book)
    requires k <= 2
    requires k == 0 ==> b == EmptyBook(Fixture())
    requires k > 0 ==>
               AddSeeds(Fixture(), k - 1).Done? && AddSeed(Fixture(), AddSeeds(Fixture(), k - 1).value, INPUT.seeds[k - 1]) == Done(b)
    ensures AddSeeds(Fixture(), k) == Done(b)
  {
    EntriesOfInput(FIRST);
    EntriesOfInput(SECOND);
    hide ModuleInput.IsEntry, AddSeed;
  }

  lemma SeedIsNew(b: Book, seed: FunctionSeed)
    requires seed in {INPUT.seeds[0], INPUT.seeds[1]} && |b.records| < 5 && b.seedCount < 5
    requires seed.entry !in b.records && seed.entry !in b.pending
    ensures
      var o := AddSeed(Fixture(), b, seed);
      && o.Done? && IsNew(o.value, seed.entry)
      && o.value == b.(records := b.records[seed.entry := o.value.records[seed.entry]], pending := b.pending + {seed.entry},
                       seedCount := b.seedCount + 1)
  {
    EntriesOfInput(seed.entry);
    hide ModuleInput.IsEntry;
  }

  lemma StillNew(b: Book, c: Book, e: Address)
    requires IsNew(b, e) && e in c.records && c.records[e] == b.records[e]
    ensures IsNew(c, e)
  {
  }

  lemma LeastOfTwo(a: Address, b: Address)
    requires a < b
    ensures Least({a, b}) == a && {a, b} - {a} == {b} && Least({b}) == b && {b} - {b} == {}
  {
  }

  /** A wave of one function is one step. */
  lemma OneStep(b: Book, e: Address, graphs: seq<Result<Graph>>, at: Knowledge)
    requires |graphs| == 1
    ensures ProcessWave(Fixture(), b, [e], graphs, at) == Process(Fixture(), b, e, graphs[0], at)
  {
    assert [e][..0] == [] && graphs[..0] == [];
    hide Process;
    assert ProcessWave(Fixture(), b, [], [], at) == Done(b);
  }

  lemma FirstWaveIs()
    ensures TakeWave({FIRST, SECOND}, {}, 1) == Wave([FIRST], {SECOND}, {FIRST})
  {
    LeastOfTwo(FIRST, SECOND);
    assert TakeWave({SECOND}, {} + {FIRST}, 0) == Wave([], {SECOND}, {FIRST});
  }

  lemma FirstWave(b: Book, o: Outcome<Book>)
    requires AtStart(b) && RunsWave(Fixture(), b, o)
    ensures o.Done? && AfterFirst(o.value)
  {
    FirstWaveIs();
    hide Analyzes, Process, ProcessWave, TakeWave, IsLight, IsNew, BeforePasses;
    var graphs :| AnalyzesWave(Fixture(), [FIRST], b.known, graphs)
      && o == ProcessWave(Fixture(), b.(pending := {SECOND}, processed := {FIRST}), [FIRST], graphs, b.Knows());
    OneStep(b.(pending := {SECOND}, processed := {FIRST}), FIRST, graphs, b.Knows());
    assert Analyzes(Fixture(), FIRST, b.known, graphs[0]);
    FirstStep(b, graphs[0], b.Knows());
  }

  /** A graph that cannot be owned stays in the record of a failed function. */
  lemma UnownedStep(b: Book, e: Address, g: Graph, at: Knowledge)
    requires e in b.records && !Ownable(g, INPUT.executable) && Overrun(b.usage, g, OPTIONS.budgets).None?
    ensures Process(Fixture(), b, e, Ok(g), at)
            == Done(Replace(b.(usage := Consumed(b.usage, g)), e, b.records[e].(cfg := Some(g), status := Failed), at))
  {
    hide Ownable, Overrun, Consumed, AddCalls;
  }

  lemma FirstFails(b: Book, g: Graph, at: Knowledge)
    requires AtStart(b) && IsLight(Consumed(b.usage, g), 1)
    ensures
      var c := b.(pending := {SECOND}, processed := {FIRST}, usage := Consumed(b.usage, g));
      AfterFirst(Replace(c, FIRST, c.records[FIRST].(cfg := Some(g), status := Failed), at))
  {
    hide Consumed, IsLight;
  }

  lemma StartIs(b: Book)
    requires AtStart(b)
    ensures b.known == {} && IsLight(b.usage, 0) && FIRST in b.records
  {
  }

  lemma FirstStep(b: Book, graph: Result<Graph>, at: Knowledge)
    requires AtStart(b) && Analyzes(Fixture(), FIRST, b.known, graph)
    ensures
      var o := Process(Fixture(), b.(pending := {SECOND}, processed := {FIRST}), FIRST, graph, at);
      o.Done? && AfterFirst(o.value)
  {
    WholeIsChain();
    assert StaysOut(FIRST, {}, WHOLE);
    hide *;
    StartIs(b);
    ChainOutcome(FIRST, {}, WHOLE, graph);
    WholeIsNotOwnable(graph.value);
    SmallFits(b.usage, 0, graph.value);
    UnownedStep(b.(pending := {SECOND}, processed := {FIRST}), FIRST, graph.value, at);
    FirstFails(b, graph.value, at);
  }

  lemma SecondWaveIs()
    ensures TakeWave({SECOND}, {FIRST}, 1) == Wave([SECOND], {}, {FIRST, SECOND})
    ensures TakeWave({SECOND}, {FIRST, SECOND}, 1) == Wave([], {}, {FIRST, SECOND})
  {
    LeastOfTwo(FIRST, SECOND);
    assert {FIRST} + {SECOND} == {FIRST, SECOND};
    assert TakeWave({}, {FIRST, SECOND}, 0) == Wave([], {}, {FIRST, SECOND});
    assert TakeWave({}, {FIRST, SECOND}, 1) == Wave([], {}, {FIRST, SECOND});
  }

  lemma SecondWave(b: Book, o: Outcome<Book>)
    requires AfterFirst(b) && RunsWave(Fixture(), b, o)
    ensures o.Done? && AfterSecond(o.value, {SECOND})
  {
    SecondWaveIs();
    hide Analyzes, Process, ProcessWave, TakeWave, IsLight, IsNew, HasGraph, BeforePasses;
    var graphs :| AnalyzesWave(Fixture(), [SECOND], b.known, graphs)
      && o == ProcessWave(Fixture(), b.(pending := {}, processed := {FIRST, SECOND}), [SECOND], graphs, b.Knows());
    OneStep(b.(pending := {}, processed := {FIRST, SECOND}), SECOND, graphs, b.Knows());
    assert Analyzes(Fixture(), SECOND, b.known, graphs[0]);
    SecondStep(b, graphs[0], b.Knows());
  }

  /** A graph that can be owned is stored, and its calls are followed up. */
  lemma OwnedStep(b: Book, e: Address, g: Graph, at: Knowledge)
    requires e in b.records && Store(Fixture(), b, e, g, at).Done?
    requires
      var c := Store(Fixture(), b, e, g, at).value;
      e in c.records && c.records[e].status.Analyzed? && c.records[e].directCalls == TargetsOf(g)
    ensures Process(Fixture(), b, e, Ok(g), at) == AddCalls(Fixture(), Store(Fixture(), b, e, g, at).value, TargetsOf(g))
  {
    hide Store, AddCalls, TargetsOf;
  }

  /** A function that calls itself, or another one that is recorded, and owns its graph. */
  lemma SecondCalls(b: Book, c: Book)
    requires AfterFirst(b) && SECOND in c.records && IsAlone(c, SECOND) && c.records[SECOND].cfg.Some?
    requires IsLight(c.usage, 2)
    requires c == b.(pending := {}, processed := {FIRST, SECOND}, records := b.records[SECOND := c.records[SECOND]],
                     usage := c.usage, basis := c.basis)
    ensures
      var o := AddCalls(Fixture(), c, [SECOND]);
      o.Done? && AfterSecond(o.value, {SECOND})
  {
    hide AddCall, AddCalls, IsLight;
    OneCall(c, SECOND);
    CallOfRecorded(c, SECOND);
    var d := AddCall(Fixture(), c, SECOND).value;
    assert d.records.Keys == {FIRST, SECOND} && d.boundaries == [SECOND];
  }

  lemma FirstIs(b: Book)
    requires AfterFirst(b)
    ensures b.known == {} && IsLight(b.usage, 1) && IsNew(b, SECOND)
  {
    hide IsLight;
  }

  lemma SecondStep(b: Book, graph: Result<Graph>, at: Knowledge)
    requires AfterFirst(b) && Analyzes(Fixture(), SECOND, b.known, graph)
    ensures
      var o := Process(Fixture(), b.(pending := {}, processed := {FIRST, SECOND}), SECOND, graph, at);
      o.Done? && AfterSecond(o.value, {SECOND})
  {
    TailIsChain({});
    assert StaysOut(SECOND, {}, TAIL) && FewKnown({});
    hide AfterFirst, AfterSecond, IsChain, StaysOut, Analyzes, Process, Store, AddCalls, Ownable, IsOwner, IsLight, EdgeCount,
         TargetsOf, Problem.IsAnalysis;
    FirstIs(b);
    ChainOutcome(SECOND, {}, TAIL, graph);
    ChainTargets(SECOND, {}, TAIL, graph.value);
    ChainIsOwnable(TAIL, graph.value);
    var c := b.(pending := {}, processed := {FIRST, SECOND});
    OwnedStore(c, SECOND, graph.value, at, 1);
    var stored := Store(Fixture(), c, SECOND, graph.value, at).value;
    OwnerIs(stored, SECOND, graph.value);
    OwnedStep(c, SECOND, graph.value, at);
    SecondCalls(b, stored);
  }

  lemma OwnerIs(b: Book, e: Address, g: Graph)
    requires IsOwner(b, e, g)
    ensures e in b.records && b.records[e].status.Analyzed? && b.records[e].cfg == Some(g)
  {
    hide Describes;
  }

  lemma ThirdWave(b: Book, o: Outcome<Book>)
    requires AfterSecond(b, {SECOND}) && RunsWave(Fixture(), b, o)
    ensures o.Done? && AfterSecond(o.value, {})
  {
    SecondWaveIs();
    hide Analyzes, TakeWave, IsLight, HasGraph, BeforePasses;
    var c := b.(pending := {}, processed := {FIRST, SECOND});
    var graphs :| AnalyzesWave(Fixture(), [], b.known, graphs)
      && o == ProcessWave(Fixture(), c, [], graphs, b.Knows());
    assert c == b.(pending := {});
    assert HasGraph(b, FIRST) ==> HasGraph(c, FIRST) by {
      SameGraphs(b, c, FIRST);
    }
    SameGraphs(b, c, SECOND);
    NoPassesYet(b, c);
  }

  lemma SameGraphs(b: Book, c: Book, e: Address)
    requires c.records == b.records
    ensures HasGraph(c, e) <==> HasGraph(b, e)
  {
  }

  lemma NoPassesYet(b: Book, c: Book)
    requires BeforePasses(b) && c.records == b.records && c.checkpoints == b.checkpoints && c.passes == b.passes
    ensures BeforePasses(c)
  {
  }

  /** The states that discovery goes through. */
  ghost predicate AtWave(n: nat, b: Book) {
    || (n == 0 && AtStart(b)) || (n == 1 && AfterFirst(b))
    || (n == 2 && AfterSecond(b, {SECOND})) || (n == 3 && AfterSecond(b, {}))
  }

  lemma NextWaveIs(n: nat, b: Book, o: Outcome<Book>)
    requires AtWave(n, b) && RunsWave(Fixture(), b, o)
    ensures o.Done? && AtWave(n + 1, o.value)
  {
    MoreIsPending(n, b, o);
    hide RunsWave, AtStart, AfterFirst, AfterSecond;
    if n == 0 {
      FirstWave(b, o);
    } else if n == 1 {
      SecondWave(b, o);
    } else {
      ThirdWave(b, o);
    }
  }

  lemma MoreIsPending(n: nat, b: Book, o: Outcome<Book>)
    requires AtWave(n, b) && RunsWave(Fixture(), b, o)
    ensures n < 3
  {
    hide IsNew, HasGraph, IsLight;
  }

  lemma {:induction false} WavesAre(start: Book, n: nat, b: Book)
    requires AtStart(start) && WavesTo(Fixture(), start, n, b)
    ensures AtWave(n, b)
  {
    hide RunsWave, AtStart, AfterFirst, AfterSecond;
    if n > 0 {
      var m :| WavesTo(Fixture(), start, n - 1, m) && RunsWave(Fixture(), m, Done(b));
      WavesAre(start, n - 1, m);
      NextWaveIs(n - 1, m, Done(b));
    }
  }

  lemma DiscoveryIs(start: Book, o: Outcome<Book>)
    requires AtStart(start) && Discovers(Fixture(), start, o)
    ensures o.Done? && AfterSecond(o.value, {})
  {
    hide RunsWave, AtWave, WavesTo, AtStart, AfterSecond;
    var n, b :| WavesTo(Fixture(), start, n, b)
      && if b.pending == {} then o == Done(b) else o.IsFailure() && RunsWave(Fixture(), b, o);
    WavesAre(start, n, b);
    if b.pending == {} {
      LastWave(n, b);
    } else {
      NextWaveIs(n, b, o);
    }
  }

  lemma LastWave(n: nat, b: Book)
    requires AtWave(n, b) && b.pending == {}
    ensures AfterSecond(b, {})
  {
    hide IsNew, HasGraph, IsLight;
  }

  // The first pass.

  /** The known entries at the start of the first pass. */
  const EARLY := Knowledge({SECOND}, 1)

  /** The function owns the words of the chain. */
  ghost predicate OwnsChain(b: Book, e: Address, chain: seq<Address>) {
    && IsAlone(b, e) && b.records[e].cfg.Some? && IsOwner(b, e, b.records[e].cfg.value)
    && Addresses(b.records[e].cfg.value) == Members(chain)
  }

  /** Nothing is left of discovery but two functions with graphs, of which one could not be owned. */
  ghost predicate BeforePass(b: Book) {
    && BeforePasses(b) && HasGraph(b, FIRST) && HasGraph(b, SECOND) && Stands(b, {}, 3, [SECOND], 2)
  }

  ghost predicate FirstVisited(b: Book) {
    && b.records.Keys == {FIRST, SECOND, LAST} && OwnsChain(b, FIRST, HEAD) && HasGraph(b, SECOND) && IsNew(b, LAST)
    && b.checkpoints == map[FIRST := 1] && b.passes == 0 && Stands(b, {LAST}, 4, [SECOND, LAST], 3)
  }

  ghost predicate SecondVisited(b: Book) {
    && b.records.Keys == {FIRST, SECOND, LAST} && OwnsChain(b, FIRST, HEAD) && OwnsChain(b, SECOND, TAIL) && IsNew(b, LAST)
    && b.checkpoints == map[FIRST := 1, SECOND := 2] && b.passes == 0
    && SECOND in b.basis && b.basis[SECOND] == EARLY && Stands(b, {SECOND, LAST}, 5, [SECOND, LAST], 4)
  }

  /** All three functions own their graphs; the second graph does not rest on the third function's entry. */
  ghost predicate AllVisited(b: Book) {
    && b.records.Keys == {FIRST, SECOND, LAST} && OwnsChain(b, FIRST, HEAD) && OwnsChain(b, SECOND, TAIL)
    && OwnsChain(b, LAST, END) && b.checkpoints == map[FIRST := 1, SECOND := 2, LAST := 2]
    && SECOND in b.basis && b.basis[SECOND] == EARLY && b.boundaries == [SECOND, LAST] && b.known == {SECOND, LAST}
  }

  lemma ReworksOwned(b: Book, e: Address, known: set<Address>, chain: seq<Address>, graph: Result<Graph>, n: nat)
    requires IsChain(e, known, chain) && StaysOut(e, known, chain) && known == EARLY.entries && chain in {HEAD, TAIL, END}
    requires e in b.records && IsAlone(b, e) && IsLight(b.usage, n) && n < 5 && FewKnown(b.known)
    requires Analyzes(Fixture(), e, known, graph)
    ensures graph.Ok?
    ensures
      var stored := Store(Fixture(), WithCheckpoint(b, e), e, graph.value, EARLY);
      && stored.Done? && OwnsChain(stored.value, e, chain) && IsLight(stored.value.usage, n + 1)
      && stored.value == b.(records := b.records[e := stored.value.records[e]], usage := stored.value.usage,
                            basis := b.basis[e := EARLY], checkpoints := b.checkpoints[e := |b.boundaries|])
      && Rework(Fixture(), b, e, graph, EARLY)
         == AddCalls(Fixture(), stored.value, if chain == HEAD then [LAST] else if chain == TAIL then [SECOND] else [])
  {
    hide IsChain, StaysOut, Analyzes, Store, AddCalls, Ownable, IsLight, EdgeCount, TargetsOf, RangesOf, IsOwner, Rework,
         HasCode, Describes, Problem.IsAnalysis;
    ChainOutcome(e, known, chain, graph);
    ChainTargets(e, known, chain, graph.value);
    ChainIsOwnable(chain, graph.value);
    CodeIsDescribed(graph.value);
    OwnedStore(WithCheckpoint(b, e), e, graph.value, EARLY, n);
    OwnerIs(Store(Fixture(), WithCheckpoint(b, e), e, graph.value, EARLY).value, e, graph.value);
    ReworkOwned(Fixture(), b, e, graph.value, EARLY);
  }

  lemma FirstFollows(b: Book, c: Book)
    requires BeforePass(b) && OwnsChain(c, FIRST, HEAD) && IsLight(c.usage, 3)
    requires c == b.(records := b.records[FIRST := c.records[FIRST]], usage := c.usage, basis := c.basis,
                     checkpoints := b.checkpoints[FIRST := |b.boundaries|])
    ensures
      var o := AddCalls(Fixture(), c, [LAST]);
      o.Done? && FirstVisited(o.value)
  {
    hide AddCall, AddCalls, IsLight, IsOwner;
    OneCall(c, LAST);
    assert c.records.Keys == {FIRST, SECOND} && |{FIRST, SECOND}| == 2;
    assert |c.records| == |c.records.Keys|;
    CallOfNew(c, LAST);
    var d := AddCall(Fixture(), c, LAST).value;
    assert d.records.Keys == {FIRST, SECOND, LAST} && d.boundaries == [SECOND, LAST];
    OwnsStill(c, d, FIRST, HEAD);
  }

  lemma OwnsStill(b: Book, c: Book, e: Address, chain: seq<Address>)
    requires OwnsChain(b, e, chain) && e in c.records && c.records[e] == b.records[e]
    ensures OwnsChain(c, e, chain)
  {
    hide Describes;
  }

  lemma VisitReworks(b: Book, at: Knowledge, e: Address, o: Outcome<Book>) returns (graph: Result<Graph>)
    requires e in b.records && Visits(Fixture(), b, at, e, o) && !PassesOver(b, e)
    ensures Analyzes(Fixture(), e, at.entries, graph) && o == Rework(Fixture(), b, e, graph, at)
  {
    hide Analyzes, Rework, PassesOver;
    graph :| Analyzes(Fixture(), e, at.entries, graph) && o == Rework(Fixture(), b, e, graph, at);
  }

  lemma FirstVisit(b: Book, o: Outcome<Book>)
    requires BeforePass(b) && FIRST in b.records && Visits(Fixture(), b, EARLY, FIRST, o)
    ensures o.Done? && FirstVisited(o.value)
  {
    OthersAreChains();
    assert StaysOut(FIRST, {SECOND}, HEAD) && FewKnown({SECOND});
    assert b.known == {SECOND} && !PassesOver(b, FIRST);
    hide Analyzes, Rework, Store, AddCalls, IsLight, IsChain, StaysOut, BoundaryChanged, OwnsChain, FirstVisited, Visits;
    var graph := VisitReworks(b, EARLY, FIRST, o);
    ReworksOwned(b, FIRST, {SECOND}, HEAD, graph, 2);
    FirstFollows(b, Store(Fixture(), WithCheckpoint(b, FIRST), FIRST, graph.value, EARLY).value);
  }

  lemma SecondFollows(b: Book, c: Book)
    requires FirstVisited(b) && OwnsChain(c, SECOND, TAIL) && IsLight(c.usage, 4)
    requires c == b.(records := b.records[SECOND := c.records[SECOND]], usage := c.usage,
                     basis := b.basis[SECOND := EARLY], checkpoints := b.checkpoints[SECOND := |b.boundaries|])
    ensures
      var o := AddCalls(Fixture(), c, [SECOND]);
      o.Done? && SecondVisited(o.value)
  {
    hide AddCall, AddCalls, IsLight, IsOwner;
    OneCall(c, SECOND);
    assert SECOND in Members(c.boundaries);
    CallOfRecorded(c, SECOND);
    var d := AddCall(Fixture(), c, SECOND).value;
    assert d.records.Keys == {FIRST, SECOND, LAST} && d.known == c.known;
    assert d.records[LAST] == b.records[LAST] && d.records[FIRST] == b.records[FIRST];
    OwnsStill(b, d, FIRST, HEAD);
    OwnsSame(c, d, SECOND, TAIL);
  }

  lemma OwnsSame(b: Book, c: Book, e: Address, chain: seq<Address>)
    requires OwnsChain(b, e, chain) && IsAlone(c, e) && SameFunction(b.records[e], c.records[e])
    ensures OwnsChain(c, e, chain)
  {
    hide Describes;
  }

  lemma SecondVisit(b: Book, o: Outcome<Book>)
    requires FirstVisited(b) && SECOND in b.records && Visits(Fixture(), b, EARLY, SECOND, o)
    ensures o.Done? && SecondVisited(o.value)
  {
    TailIsChain({SECOND});
    assert StaysOut(SECOND, {SECOND}, TAIL) && FewKnown(b.known);
    assert !PassesOver(b, SECOND);
    hide Analyzes, Rework, Store, AddCalls, IsLight, IsChain, StaysOut, BoundaryChanged, OwnsChain, SecondVisited;
    var graph :| Analyzes(Fixture(), SECOND, EARLY.entries, graph) && o == Rework(Fixture(), b, SECOND, graph, EARLY);
    ReworksOwned(b, SECOND, {SECOND}, TAIL, graph, 3);
    SecondFollows(b, Store(Fixture(), WithCheckpoint(b, SECOND), SECOND, graph.value, EARLY).value);
  }

  lemma LastFollows(b: Book, c: Book)
    requires SecondVisited(b) && OwnsChain(c, LAST, END)
    requires c == b.(records := b.records[LAST := c.records[LAST]], usage := c.usage,
                     basis := b.basis[LAST := EARLY], checkpoints := b.checkpoints[LAST := |b.boundaries|])
    ensures AllVisited(c) && c.passes == 0
  {
    hide IsOwner, IsLight;
    assert c.records.Keys == {FIRST, SECOND, LAST};
    assert c.records[FIRST] == b.records[FIRST] && c.records[SECOND] == b.records[SECOND];
    OwnsStill(b, c, FIRST, HEAD);
    OwnsStill(b, c, SECOND, TAIL);
  }

  lemma LastVisit(b: Book, o: Outcome<Book>)
    requires SecondVisited(b) && LAST in b.records && Visits(Fixture(), b, EARLY, LAST, o)
    ensures o.Done? && AllVisited(o.value) && o.value.passes == 0
  {
    OthersAreChains();
    assert StaysOut(LAST, {SECOND}, END) && FewKnown(b.known);
    assert !PassesOver(b, LAST);
    hide Analyzes, Rework, Store, IsLight, IsChain, StaysOut, BoundaryChanged, OwnsChain, AllVisited;
    var graph :| Analyzes(Fixture(), LAST, EARLY.entries, graph) && o == Rework(Fixture(), b, LAST, graph, EARLY);
    ReworksOwned(b, LAST, {SECOND}, END, graph, 4);
    var c := Store(Fixture(), WithCheckpoint(b, LAST), LAST, graph.value, EARLY).value;
    NoCalls(c);
    LastFollows(b, c);
  }

  lemma NextOfTwo(b: Book, cursor: Address)
    requires b.records.Keys == {FIRST, SECOND} && cursor < FIRST
    ensures Later(b.records, cursor) != {} && Least(Later(b.records, cursor)) == FIRST
  {
    assert FIRST in Later(b.records, cursor);
  }

  lemma NextOfThree(b: Book, cursor: Address)
    requires b.records.Keys == {FIRST, SECOND, LAST} && cursor in {FIRST, SECOND, LAST}
    ensures cursor == FIRST ==> Later(b.records, cursor) != {} && Least(Later(b.records, cursor)) == SECOND
    ensures cursor == SECOND ==> Later(b.records, cursor) != {} && Least(Later(b.records, cursor)) == LAST
    ensures cursor == LAST ==> Later(b.records, cursor) == {}
  {
    assert cursor < SECOND ==> SECOND in Later(b.records, cursor);
    assert cursor < LAST ==> LAST in Later(b.records, cursor);
  }

  /** The states that the first pass goes through. */
  ghost predicate AtVisit(n: nat, b: Book, cursor: Address) {
    || (n == 0 && BeforePass(b) && cursor == -1) || (n == 1 && FirstVisited(b) && cursor == FIRST)
    || (n == 2 && SecondVisited(b) && cursor == SECOND) || (n == 3 && AllVisited(b) && b.passes == 0 && cursor == LAST)
  }

  lemma VisitKeys(n: nat, b: Book, cursor: Address)
    requires AtVisit(n, b, cursor)
    ensures b.records.Keys == if n == 0 then {FIRST, SECOND} else {FIRST, SECOND, LAST}
    ensures n <= 3 && cursor == [-1, FIRST, SECOND, LAST][n]
  {
    hide HasGraph, OwnsChain, IsNew, IsLight;
  }

  lemma NextVisitIs(n: nat, b: Book, cursor: Address, o: Outcome<Book>)
    requires AtVisit(n, b, cursor) && VisitsNext(Fixture(), b, EARLY, cursor, o)
    ensures n < 3 && o.Done? && AtVisit(n + 1, o.value, Least(Later(b.records, cursor)))
  {
    hide Visits, BeforePass, FirstVisited, SecondVisited, AllVisited;
    VisitKeys(n, b, cursor);
    if n == 0 {
      NextOfTwo(b, cursor);
      FirstVisit(b, o);
    } else {
      NextOfThree(b, cursor);
      if n == 1 {
        SecondVisit(b, o);
      } else {
        LastVisit(b, o);
      }
    }
  }

  lemma {:induction false} VisitsAre(start: Book, n: nat, b: Book, cursor: Address)
    requires BeforePass(start) && VisitsTo(Fixture(), start, EARLY, n, b, cursor)
    ensures AtVisit(n, b, cursor)
  {
    hide Visits, BeforePass, FirstVisited, SecondVisited, AllVisited;
    if n > 0 {
      var m, c :| VisitsTo(Fixture(), start, EARLY, n - 1, m, c) && VisitsNext(Fixture(), m, EARLY, c, Done(b))
                  && cursor == Least(Later(m.records, c));
      VisitsAre(start, n - 1, m, c);
      NextVisitIs(n - 1, m, c, Done(b));
    }
  }

  lemma BeforePassKnows(b: Book)
    requires BeforePass(b)
    ensures b.Knows() == EARLY && |b.boundaries| == 1
  {
    hide HasGraph, IsLight;
  }

  lemma FirstPass(b: Book, o: Outcome<Book>)
    requires BeforePass(b) && RunsPass(Fixture(), b, o)
    ensures o.Done? && AllVisited(o.value) && o.value.passes == 1 && Changed(b, o.value)
  {
    hide VisitsTo, VisitsNext, BeforePass, AtVisit, AllVisited;
    BeforePassKnows(b);
    var n, c, cursor :| VisitsTo(Fixture(), b, EARLY, n, c, cursor)
      && if Later(c.records, cursor) == {} then o == Done(c.(pending := {}, passes := c.passes + 1))
         else o.IsFailure() && VisitsNext(Fixture(), c, EARLY, cursor, o);
    VisitsAre(b, n, c, cursor);
    if Later(c.records, cursor) == {} {
      FirstPassEnds(n, c, cursor);
    } else {
      NextVisitIs(n, c, cursor, o);
    }
  }

  lemma FirstPassEnds(n: nat, b: Book, cursor: Address)
    requires AtVisit(n, b, cursor) && Later(b.records, cursor) == {}
    ensures AllVisited(b.(pending := {}, passes := 1)) && b.passes == 0 && |b.boundaries| == 2
  {
    VisitKeys(n, b, cursor);
    if n == 0 {
      NextOfTwo(b, cursor);
    } else {
      NextOfThree(b, cursor);
      hide OwnsChain, IsLight, BeforePass, IsNew, HasGraph;
      StillVisited(b, b.(pending := {}, passes := 1));
    }
  }

  lemma StillVisited(b: Book, c: Book)
    requires AllVisited(b) && c == b.(pending := c.pending, passes := c.passes)
    ensures AllVisited(c)
  {
    hide IsOwner;
    OwnsStill(b, c, FIRST, HEAD);
    OwnsStill(b, c, SECOND, TAIL);
    OwnsStill(b, c, LAST, END);
  }

  // The second pass.

  /** The first function does not own the boundary found since, and the others have no newer one. */
  lemma AllAreKept(b: Book, e: Address)
    requires AllVisited(b) && e in b.records
    ensures PassesOver(b, e)
  {
    assert b.boundaries[1] == LAST;
    if e == FIRST {
      LastIsNotOwned(b);
    }
  }

  lemma LastIsNotOwned(b: Book)
    requires OwnsChain(b, FIRST, HEAD)
    ensures !ContainsAny(b.records[FIRST].ranges, LAST, 4)
  {
    var f := b.records[FIRST];
    if i :| 0 <= i < |f.ranges| && f.ranges[i].Holds(LAST, 4) {
      assert CodeRanges.Covers(f.ranges[i], LAST) && Owns(f.ranges, LAST);
      assert InGraph(f.cfg.value, LAST);
    }
  }

  lemma {:induction false} NothingChanges(start: Book, at: Knowledge, n: nat, b: Book, cursor: Address)
    requires AllVisited(start) && VisitsTo(Fixture(), start, at, n, b, cursor)
    ensures b == start
  {
    hide AllVisited, Visits;
    if n > 0 {
      var m, c :| VisitsTo(Fixture(), start, at, n - 1, m, c) && VisitsNext(Fixture(), m, at, c, Done(b))
                  && cursor == Least(Later(m.records, c));
      NothingChanges(start, at, n - 1, m, c);
      NextChangesNothing(start, at, c, Done(b));
    }
  }

  lemma NextChangesNothing(b: Book, at: Knowledge, cursor: Address, o: Outcome<Book>)
    requires AllVisited(b) && VisitsNext(Fixture(), b, at, cursor, o)
    ensures o == Done(b)
  {
    hide AllVisited, PassesOver, Rework, Analyzes;
    AllAreKept(b, Least(Later(b.records, cursor)));
  }

  lemma SecondPass(b: Book, o: Outcome<Book>)
    requires AllVisited(b) && RunsPass(Fixture(), b, o)
    ensures o == Done(b.(pending := {}, passes := b.passes + 1))
  {
    hide VisitsTo, VisitsNext, AllVisited;
    var n, c, cursor :| VisitsTo(Fixture(), b, b.Knows(), n, c, cursor)
      && if Later(c.records, cursor) == {} then o == Done(c.(pending := {}, passes := c.passes + 1))
         else o.IsFailure() && VisitsNext(Fixture(), c, b.Knows(), cursor, o);
    NothingChanges(b, b.Knows(), n, c, cursor);
    if Later(c.records, cursor) != {} {
      NextChangesNothing(b, b.Knows(), cursor, o);
    }
  }

  // The build.

  lemma FirstStarts(b: Book)
    requires AfterSecond(b, {})
    ensures BeforePass(b)
  {
    hide HasGraph, IsLight;
  }

  /** The passes that finalization goes through. */
  lemma {:induction false} PassesAre(start: Book, n: nat, b: Book)
    requires BeforePass(start) && PassesTo(Fixture(), start, n, b)
    ensures (n == 0 && b == start) || (n == 1 && AllVisited(b) && b.passes == 1)
  {
    hide RunsPass, BeforePass, AllVisited;
    if n > 0 {
      var m :| PassesTo(Fixture(), start, n - 1, m) && RunsPass(Fixture(), m, Done(b)) && Changed(m, b)
               && b.passes != OPTIONS.budgets.maxPasses;
      PassesAre(start, n - 1, m);
      if n == 1 {
        FirstPass(m, Done(b));
      } else {
        SecondPass(m, Done(b));
      }
    }
  }

  lemma FinalizationIs(start: Book, o: Outcome<Book>)
    requires BeforePass(start) && Finalizes(Fixture(), start, o)
    ensures o.Done? && AllVisited(o.value) && o.value.passes == 2
  {
    hide PassesTo, RunsPass, BeforePass, AllVisited;
    var n, b, last :| PassesTo(Fixture(), start, n, b) && RunsPass(Fixture(), b, last)
      && if last.Done? && Changed(b, last.value)
         then last.value.passes == OPTIONS.budgets.maxPasses && o == OverBudget(FinalizationPasses)
         else o == last;
    PassesAre(start, n, b);
    if n == 0 {
      FirstPass(b, last);
    } else {
      SecondPass(b, last);
      StillVisited(b, last.value);
    }
  }

  /** Every run of seeding, discovery and finalization on this input ends in one state, up to history and usage. */
  lemma TheBuildSettles(o: Outcome<Book>)
    requires Settles(Fixture(), o)
    ensures o.Done? && AllVisited(o.value) && o.value.passes == 2
  {
    hide Discovers, Finalizes, Seeded, AtStart, AllVisited, AfterSecond, BeforePass;
    SeedsGive();
    var d :| Discovers(Fixture(), Seeded(Fixture()).value, d)
      && if d.IsFailure() then o == d else Finalizes(Fixture(), d.value, o);
    DiscoveryIs(Seeded(Fixture()).value, d);
    FirstStarts(d.value);
    FinalizationIs(d.value, o);
  }

  /** The second function branches to the boundary its graph did not know and its checkpoint counts. */
  lemma SecondMisses(b: Book)
    requires AllVisited(b)
    ensures Misses(Fixture(), b, SECOND, |b.boundaries|)
  {
    TailIsChain({SECOND});
    ChainIsReach(SECOND, {SECOND}, TAIL);
    hide OwnsChain, IsChain, Problem.Reaches;
    assert 0x100C in TAIL;
    assert At(SECOND, {SECOND}).Reaches(0x100C) && IsBranchTo(At(SECOND, {SECOND}).guest.fetch(0x100C), LAST);
    assert BranchesTo(At(SECOND, {SECOND}), LAST);
    assert b.boundaries[1] == LAST;
  }

  lemma AllPublish(b: Book)
    requires AllVisited(b)
    ensures Publishable(Fixture(), b.records)
  {
    hide Describes;
    forall e | e in b.records
      ensures IsPresentable(Fixture(), b.records[e]) && b.records[e].entries == [e]
    {
      assert e in {FIRST, SECOND, LAST};
    }
  }

  /** The overlap that the stale graph causes. */
  lemma SecondOwnsLast(m: FunctionMap, b: Book) returns (k: nat)
    requires AllVisited(b) && IsValid(m) && Publishes(m.functions, b.records)
    ensures k < |m.conflicts| && m.conflicts[k].first == SECOND && m.conflicts[k].second == LAST
  {
    hide FunctionIsValid, PublishesRecord, Describes;
    RecordIsListed(m.functions, b.records, SECOND);
    RecordIsListed(m.functions, b.records, LAST);
    var i :| 0 <= i < |m.functions| && m.functions[i].entry == SECOND;
    var j :| 0 <= j < |m.functions| && m.functions[j].entry == LAST;
    PublishedOwns(m.functions[i], b, TAIL);
    PublishedOwns(m.functions[j], b, END);
    assert i < j;
    assert Overlap(m.functions[i].ranges, m.functions[j].ranges);
    assert Disputed(m.functions, i, j);
    k :| 0 <= k < |m.conflicts| && Names(m.conflicts[k], m.functions, i, j);
  }

  lemma PublishedOwns(f: FunctionRecord, b: Book, chain: seq<Address>)
    requires PublishesRecord(f, b.records) && OwnsChain(b, f.entry, chain) && LAST in chain
    ensures f.cfg.Some? && Owns(f.ranges, LAST)
  {
    var g := b.records[f.entry].cfg.value;
    assert LAST in Addresses(g) && InGraph(g, LAST);
  }

  /** The graph for the known entries stops before the last function. */
  lemma FreshStopsBefore(g: Graph)
    requires GraphIsFrom(Fixture(), SECOND, g, {SECOND, LAST})
    ensures LAST !in Addresses(g)
  {
    hide IsChain, GraphIsFrom, Problem.IsAnalysis;
    var chain: seq<Address> := [0x1008, 0x100C];
    ChainIsCut(chain);
    FromAnalysis(Fixture(), SECOND, g, {SECOND, LAST});
    GraphIsOf(SECOND, {SECOND, LAST}, chain, g);
  }

  lemma ChainIsCut(chain: seq<Address>)
    requires chain == [0x1008, 0x100C]
    ensures IsChain(SECOND, {SECOND, LAST}, chain)
  {
    assert NextOf(SECOND, {SECOND, LAST}, 0x1008) == {0x100C} && NextOf(SECOND, {SECOND, LAST}, 0x100C) == {};
    assert GoesOn(SECOND, {SECOND, LAST}, chain, 0) && GoesOn(SECOND, {SECOND, LAST}, chain, 1);
  }

  lemma KnownAtTheEnd(b: Book)
    requires AllVisited(b)
    ensures b.known == {SECOND, LAST}
  {
    hide OwnsChain;
  }

  /** No failure can be the outcome. */
  lemma SuccessIsForced(r: Outcome<FunctionMap>, b: Book)
    requires r.OverBudget? ==> Settles(Fixture(), OverBudget(r.dimension))
    requires r.Fault? ==> Settles(Fixture(), Fault(r.code)) || (Settles(Fixture(), Done(b)) && !Publishable(Fixture(), b.records))
    ensures r.Done?
  {
    hide Settles, AllVisited, Publishable;
    if r.OverBudget? {
      TheBuildSettles(OverBudget(r.dimension));
    } else if r.Fault? && Settles(Fixture(), Fault(r.code)) {
      TheBuildSettles(Fault(r.code));
    } else if r.Fault? {
      TheBuildSettles(Done(b));
      AllPublish(b);
    }
  }

  lemma SecondIsStale(m: FunctionMap, b: Book) returns (i: nat)
    requires AllVisited(b) && IsPublished(Fixture(), b, m)
    ensures i < |m.functions| && m.functions[i].entry == SECOND && m.functions[i].cfg.Some?
    ensures !GraphIsFrom(Fixture(), SECOND, m.functions[i].cfg.value, b.known)
  {
    assert SECOND in b.records && b.records[SECOND].cfg.Some?;
    hide AllVisited, IsValid, PublishesRecord, GraphIsFrom, Misses, WasAnalyzed, CallsArePublished, IsCallable;
    SecondMisses(b);
    RecordIsListed(m.functions, b.records, SECOND);
    i :| 0 <= i < |m.functions| && m.functions[i].entry == SECOND;
    PublishedRecordAt(m.functions, b.records, i);
    PublishedIsRecord(m.functions[i], b.records);
    assert IsPublishedFunction(Fixture(), b, m.functions, m.functions[i]);
  }

  lemma PublishedParts(b: Book, m: FunctionMap)
    requires IsPublished(Fixture(), b, m)
    ensures IsValid(m) && Publishes(m.functions, b.records)
  {
    hide IsValid, Publishes, SeedsArePublished, IsPublishedFunction;
  }

  /** The build succeeds after two passes and publishes for the second function a graph that is not the one for
      the known entries.  It records a conflict between that function and the one it branches to, which no
      graph for the known entries would share a word with. */
  method PublishStale() returns (m: FunctionMap, builder: FunctionMapBuilder, ghost i: nat, ghost k: nat)
    ensures PermissionsAgree(INPUT) && builder.input == INPUT && builder.Fixed() == Fixture() && builder.passes == 2
    ensures IsPublished(Fixture(), builder.Now(), m)
    ensures i < |m.functions| && m.functions[i].entry == SECOND && m.functions[i].cfg.Some?
    ensures !GraphIsFrom(Fixture(), SECOND, m.functions[i].cfg.value, builder.known)
    ensures k < |m.conflicts| && m.conflicts[k].first == SECOND && m.conflicts[k].second == LAST
    ensures forall g :: GraphIsFrom(Fixture(), SECOND, g, builder.known) ==> LAST !in Addresses(g)
  {
    hide InputIsValid, GuestView.FetchesCode, IsFit, Settles, AllVisited, Publishable, IsPublished, GraphIsFrom, SettingOf,
         Publishes, IsValid, OthersFailed, StartsConfined, MayFault, HasBadSeed, NothingIncluded;
    InputIsFit();
    InputIsAccepted();
    GuestFetchesCode();
    builder := new FunctionMapBuilder(INPUT, OPTIONS);
    var r := builder.Build();
    ghost var b := builder.Now();
    SuccessIsForced(r, b);
    m := r.value;
    TheBuildSettles(Done(b));
    PublishedParts(b, m);
    k := SecondOwnsLast(m, b);
    i := SecondIsStale(m, b);
    KnownAtTheEnd(b);
    forall g | GraphIsFrom(Fixture(), SECOND, g, builder.known)
      ensures LAST !in Addresses(g)
    {
      FreshStopsBefore(g);
    }
  }
}
