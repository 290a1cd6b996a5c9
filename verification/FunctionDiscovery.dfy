/** What function discovery is given, and what has to be true of the records it keeps. */
module FunctionDiscovery {
  import opened Common
  import opened ControlFlow
  import opened CodeRanges
  import opened FunctionRecords
  import opened CfgTheorems

  datatype BudgetDimension =
    Functions | Instructions | Blocks | Edges | Seeds | BytesAnalyzed | FinalizationPasses

  /** The outcome of a build step: a value, an exhausted budget, or another error. */
  datatype Outcome<+T> = Done(value: T) | OverBudget(dimension: BudgetDimension) | Fault(code: ErrorCode) {
    predicate IsFailure() { !Done? }

    function PropagateFailure<U>(): Outcome<U>
      requires IsFailure()
    {
      if OverBudget? then OverBudget(dimension) else Fault(code)
    }

    function Extract(): T
      requires !IsFailure()
    {
      value
    }
  }

  datatype Budgets = Budgets(
    maxFunctions: uint64,
    maxBlocks: uint64,
    maxInstructions: uint64,
    maxEdges: uint64,
    maxSeeds: uint64,
    maxBytes: uint64,
    maxPasses: uint64)
  {
    predicate NonZero() {
      && maxFunctions != 0 && maxBlocks != 0 && maxInstructions != 0 && maxEdges != 0
      && maxSeeds != 0 && maxBytes != 0 && maxPasses != 0
    }
  }

  /** Work consumed by all the graphs analyzed so far. */
  datatype Usage = Usage(instructions: nat, blocks: nat, edges: nat, bytes: nat)

  /** A module: its name, its executable ranges with the permission query of each, and its seeds. */
  datatype ModuleInput = ModuleInput(
    name: string,
    guest: GuestView,
    executable: seq<Range>,
    permissions: map<Range, Result<bool>>,
    seeds: seq<FunctionSeed>)
  {
    /** A place a function may be entered at: an aligned, executable word of an executable range. */
    predicate IsEntry(a: Address) {
      a % 4 == 0 && ContainsAny(executable, a, 4) && guest.executable(a) == Ok(true)
    }

    predicate InRange(a: Address) { ContainsAny(executable, a, 4) }
  }

  datatype BuildOptions = BuildOptions(
    budgets: Budgets,
    cfg: AnalysisOptions,
    closureRoots: Option<set<Address>>,
    continueAfterFailure: bool,
    workers: nat,
    newEntries: set<Address>)
  {
    /** Outside execution-closure analysis every seed is included. */
    predicate Includes(s: FunctionSeed) {
      closureRoots.None? || s.entry in closureRoots.value || s.Canonical() in closureRoots.value
    }
  }

  /** The permission query of a range and those of the words in it have one answer, as in a memory of regions. */
  ghost predicate PermissionsAgree(input: ModuleInput) {
    forall r, a :: r in input.permissions && input.permissions[r] == Ok(true) && r.Holds(a, 4) ==>
      input.guest.executable(a) == Ok(true)
  }

  // Input validation.

  ghost predicate RangeIsExecutable(input: ModuleInput, r: Range) {
    IsCodeRange(r) && r in input.permissions && input.permissions[r] == Ok(true)
  }

  ghost predicate InputIsValid(input: ModuleInput, budgets: Budgets) {
    && input.name != "" && input.executable != [] && budgets.NonZero()
    && (forall i {:trigger RangeIsExecutable(input, input.executable[i])} ::
          0 <= i < |input.executable| ==> RangeIsExecutable(input, input.executable[i]))
    && Disjoint(input.executable)
  }

  /** The code of a refusal says what is wrong: something is missing, a range is none or not executable, or two
      ranges are out of order. */
  ghost predicate IsInputFault(input: ModuleInput, budgets: Budgets, code: ErrorCode) {
    if input.name == "" || input.executable == [] || !budgets.NonZero() then code == InvalidArgument
    else
      || (code == InvalidGuestAddress
          && exists i {:trigger RangeIsExecutable(input, input.executable[i])} ::
               0 <= i < |input.executable| && !RangeIsExecutable(input, input.executable[i]))
      || (code == InvalidFormat && !Disjoint(input.executable))
  }

  /** `validate_input`. */
  method ValidateInput(input: ModuleInput, budgets: Budgets) returns (r: Outcome<()>)
    ensures r.Done? <==> InputIsValid(input, budgets)
    ensures !r.OverBudget?
    ensures r.Fault? ==> IsInputFault(input, budgets, r.code)
  {
    if input.name == "" || input.executable == [] || !budgets.NonZero() {
      return Fault(InvalidArgument);
    }
    var previousEnd := 0;
    for k := 0 to |input.executable|
      invariant forall i :: 0 <= i < k ==> RangeIsExecutable(input, input.executable[i])
      invariant forall i, j :: 0 <= i < j < k ==> input.executable[i].End() <= input.executable[j].base
      invariant k > 0 ==> previousEnd == input.executable[k - 1].End()
    {
      var range := input.executable[k];
      if range.size == 0 || range.base % 4 != 0 || range.size % 4 != 0 || CheckedAdd(range.base, range.size).Err? {
        assert !RangeIsExecutable(input, range);
        return Fault(InvalidGuestAddress);
      }
      if k > 0 && range.base < previousEnd {
        assert !Precedes(input.executable[k - 1], range);
        return Fault(InvalidFormat);
      }
      if range !in input.permissions || input.permissions[range] != Ok(true) {
        assert !RangeIsExecutable(input, range);
        return Fault(InvalidGuestAddress);
      }
      previousEnd := range.End();
    }
    return Done(());
  }

  // Structural budgets.

  /** The number of instruction slots in the executable ranges. */
  ghost function Capacity(executable: seq<Range>): nat { SumSizes(executable) / 4 }

  function Minimum(a: uint64, b: uint64): uint64 { if a <= b then a else b }

  function SaturatingMultiply(a: uint64, b: uint64): (r: uint64)
    ensures r == if a * b <= MAX64 then a * b else MAX64
  {
    if a * b <= MAX64 then a * b else MAX64
  }

  /** Budgets clamped to what `bytes` executable bytes can need over all the passes. */
  function Clamped(requested: Budgets, bytes: uint64): Budgets {
    var capacity := bytes / 4;
    var passes := if requested.maxPasses == MAX64 then MAX64 else requested.maxPasses + 1;
    var repeated := SaturatingMultiply(capacity, passes);
    Budgets(
      Minimum(requested.maxFunctions, capacity),
      Minimum(requested.maxBlocks, repeated),
      Minimum(requested.maxInstructions, repeated),
      Minimum(requested.maxEdges, SaturatingMultiply(repeated, 2)),
      Minimum(requested.maxSeeds, capacity),
      Minimum(requested.maxBytes, SaturatingMultiply(bytes, passes)),
      requested.maxPasses)
  }

  ghost function Lesser(a: int, b: int): int { if a < b then a else b }

  /** Each budget is what was asked for, or what the code can use if that is less: a function or a seed for each word,
      and in each pass, and before the first, an instruction, a block and two edges for each word, and every byte. */
  ghost predicate IsClamped(requested: Budgets, bytes: int, r: Budgets) {
    var words, rounds := bytes / 4, requested.maxPasses + 1;
    && r.maxFunctions == Lesser(requested.maxFunctions, words)
    && r.maxSeeds == Lesser(requested.maxSeeds, words)
    && r.maxInstructions == Lesser(requested.maxInstructions, words * rounds)
    && r.maxBlocks == Lesser(requested.maxBlocks, words * rounds)
    && r.maxEdges == Lesser(requested.maxEdges, 2 * (words * rounds))
    && r.maxBytes == Lesser(requested.maxBytes, bytes * rounds)
    && r.maxPasses == requested.maxPasses
  }

  lemma SaturationIsUnseen(request: uint64, a: uint64, passes: uint64)
    requires a > 0
    ensures
      var p := if passes == MAX64 then MAX64 else passes + 1;
      && Minimum(request, SaturatingMultiply(a, p)) == Lesser(request, a * (passes + 1))
      && Minimum(request, SaturatingMultiply(SaturatingMultiply(a, p), 2)) == Lesser(request, 2 * (a * (passes + 1)))
  {
    if passes == MAX64 {
      assert a * MAX64 >= MAX64 && a * (MAX64 + 1) >= MAX64 + 1;
    }
  }

  /** Saturation leaves no trace in the budgets. */
  lemma ClampedExactly(requested: Budgets, bytes: uint64)
    requires bytes >= 4
    ensures IsClamped(requested, bytes, Clamped(requested, bytes))
  {
    hide SaturatingMultiply;
    SaturationIsUnseen(requested.maxInstructions, bytes / 4, requested.maxPasses);
    SaturationIsUnseen(requested.maxBlocks, bytes / 4, requested.maxPasses);
    SaturationIsUnseen(requested.maxEdges, bytes / 4, requested.maxPasses);
    SaturationIsUnseen(requested.maxBytes, bytes, requested.maxPasses);
  }

  lemma ProductIsPositive(a: nat, b: nat)
    requires a > 0 && b > 0
    ensures a * b > 0
  {
  }

  /** Clamping never turns a usable budget into an unusable one. */
  lemma ClampedIsNonZero(requested: Budgets, bytes: uint64)
    requires requested.NonZero() && bytes >= 4
    ensures Clamped(requested, bytes).NonZero()
  {
    var passes := if requested.maxPasses == MAX64 then MAX64 else requested.maxPasses + 1;
    ProductIsPositive(bytes / 4, passes);
    ProductIsPositive(bytes, passes);
  }

  lemma ExecutableBytesFit(input: ModuleInput, budgets: Budgets, k: nat)
    requires InputIsValid(input, budgets) && k < |input.executable|
    ensures SumSizes(input.executable[..k]) + input.executable[k].size == SumSizes(input.executable[..k + 1])
    ensures 4 <= SumSizes(input.executable[..k + 1]) <= MAX64
  {
    var front := input.executable[..k + 1];
    assert front[..k] == input.executable[..k];
    SumFits(front);
    assert RangeIsExecutable(input, input.executable[k]);
  }

  /** `derive_structural_budgets`: on validated input both of its failures are unreachable. */
  method DeriveBudgets(input: ModuleInput, requested: Budgets) returns (r: Outcome<Budgets>)
    requires InputIsValid(input, requested)
    ensures r.Done?
    ensures SumSizes(input.executable) <= MAX64 && r.value == Clamped(requested, SumSizes(input.executable))
    ensures r.value.NonZero()
    ensures IsClamped(requested, SumSizes(input.executable), r.value)
    ensures r.value.maxFunctions < requested.maxFunctions ==> r.value.maxFunctions == Capacity(input.executable)
  {
    var bytes: uint64 := 0;
    for k := 0 to |input.executable|
      invariant bytes == SumSizes(input.executable[..k]) && (k > 0 ==> bytes >= 4)
    {
      ExecutableBytesFit(input, requested, k);
      if input.executable[k].size > MAX64 - bytes {
        assert false;
      }
      bytes := bytes + input.executable[k].size;
    }
    assert input.executable[..|input.executable|] == input.executable;
    if bytes / 4 == 0 {
      assert false;
    }
    ClampedIsNonZero(requested, bytes);
    ClampedExactly(requested, bytes);
    return Done(Clamped(requested, bytes));
  }

  // The structural bound on functions.

  ghost function SlotsFrom(base: int, n: nat): set<Address> {
    if n == 0 then {} else SlotsFrom(base, n - 1) + {base + 4 * (n - 1)}
  }

  lemma {:induction false} SlotsAreFew(base: int, n: nat)
    ensures |SlotsFrom(base, n)| <= n
  {
    if n > 0 {
      SlotsAreFew(base, n - 1);
    }
  }

  lemma {:induction false} SlotsHold(base: int, n: nat, a: Address)
    requires base % 4 == 0 && a % 4 == 0 && base <= a < base + 4 * n
    ensures a in SlotsFrom(base, n)
  {
    if a < base + 4 * (n - 1) {
      SlotsHold(base, n - 1, a);
    }
  }

  ghost function Slots(rs: seq<Range>): set<Address> {
    if rs == [] then {} else Slots(rs[..|rs| - 1]) + SlotsFrom(rs[|rs| - 1].base, rs[|rs| - 1].size / 4)
  }

  lemma {:induction false} SlotsWithinCapacity(rs: seq<Range>)
    requires forall i :: 0 <= i < |rs| ==> IsCodeRange(rs[i])
    ensures |Slots(rs)| <= SumSizes(rs) / 4 && SumSizes(rs) % 4 == 0
  {
    if rs != [] {
      SlotsWithinCapacity(rs[..|rs| - 1]);
      SlotsAreFew(rs[|rs| - 1].base, rs[|rs| - 1].size / 4);
      assert IsCodeRange(rs[|rs| - 1]);
    }
  }

  lemma {:induction false} EntriesAreSlots(rs: seq<Range>, i: nat, a: Address)
    requires forall i :: 0 <= i < |rs| ==> IsCodeRange(rs[i])
    requires i < |rs| && a % 4 == 0 && rs[i].Holds(a, 4)
    ensures a in Slots(rs)
  {
    var last := |rs| - 1;
    if i == last {
      SlotsHold(rs[i].base, rs[i].size / 4, a);
    } else {
      EntriesAreSlots(rs[..last], i, a);
    }
  }

  /** Distinct entries are distinct slots, so there is room for one more than are recorded. */
  lemma RoomForEntry(input: ModuleInput, budgets: Budgets, entries: set<Address>, a: Address)
    requires InputIsValid(input, budgets) && input.IsEntry(a) && a !in entries
    requires forall e :: e in entries ==> input.IsEntry(e)
    ensures |entries| < Capacity(input.executable)
  {
    var rs := input.executable;
    assert forall i :: 0 <= i < |rs| ==> RangeIsExecutable(input, rs[i]);
    SlotsWithinCapacity(rs);
    forall e | e in entries + {a}
      ensures e in Slots(rs)
    {
      var i :| 0 <= i < |rs| && rs[i].Holds(e, 4);
      EntriesAreSlots(rs, i, e);
    }
    SubsetIsSmaller(entries + {a}, Slots(rs));
  }

  // Accounting.

  function EdgeSum(blocks: map<Address, BasicBlock>, starts: set<Address>): nat
    requires starts <= blocks.Keys
    decreases starts
  {
    if starts == {} then 0
    else
      var s := Least(starts);
      |blocks[s].successors| + |blocks[s].calls| + EdgeSum(blocks, starts - {s})
  }

  /** Edges, calls and unresolved transfers all count as edges. */
  function EdgeCount(g: Graph): nat {
    |g.unresolved| + EdgeSum(g.blocks, g.blocks.Keys)
  }

  method CountEdges(g: Graph) returns (edges: nat)
    ensures edges == EdgeCount(g)
  {
    edges := |g.unresolved|;
    var remaining := g.blocks.Keys;
    while remaining != {}
      invariant remaining <= g.blocks.Keys && edges + EdgeSum(g.blocks, remaining) == EdgeCount(g)
      decreases remaining
    {
      var s := Least(remaining);
      edges := edges + |g.blocks[s].successors| + |g.blocks[s].calls|;
      remaining := remaining - {s};
    }
  }

  function Consumed(u: Usage, g: Graph): Usage {
    Usage(u.instructions + g.instructionCount, u.blocks + |g.blocks|, u.edges + EdgeCount(g),
          u.bytes + 4 * g.instructionCount)
  }

  predicate Affordable(u: Usage, b: Budgets) {
    u.instructions <= b.maxInstructions && u.blocks <= b.maxBlocks && u.edges <= b.maxEdges && u.bytes <= b.maxBytes
  }

  /** The first budget a graph would exceed, in the order of the checks. */
  function Overrun(u: Usage, g: Graph, b: Budgets): Option<BudgetDimension> {
    var next := Consumed(u, g);
    if next.instructions > MAX64 || next.blocks > MAX64 then Some(Instructions)
    else if next.edges > MAX64 then Some(Edges)
    else if next.bytes > MAX64 then Some(BytesAnalyzed)
    else if next.instructions > b.maxInstructions then Some(Instructions)
    else if next.blocks > b.maxBlocks then Some(Blocks)
    else if next.edges > b.maxEdges then Some(Edges)
    else if next.bytes > b.maxBytes then Some(BytesAnalyzed)
    else None
  }

  /** The total is more than the budget; a number of blocks beyond 64 bits is reported as instructions. */
  predicate Exceeds(u: Usage, b: Budgets, d: BudgetDimension) {
    match d
    case Instructions => u.instructions > b.maxInstructions || u.blocks > MAX64
    case Blocks => u.blocks > b.maxBlocks
    case Edges => u.edges > b.maxEdges
    case BytesAnalyzed => u.bytes > b.maxBytes
    case _ => false
  }

  /** A graph is accepted exactly when all four totals stay within budget, and refused for one that does not. */
  lemma OverrunIsExact(u: Usage, g: Graph, b: Budgets)
    ensures Overrun(u, g, b).None? <==> Affordable(Consumed(u, g), b)
    ensures Overrun(u, g, b).Some? ==> Exceeds(Consumed(u, g), b, Overrun(u, g, b).value)
  {
  }

  /** The totals with one more graph: the first budget that is exceeded is reported, unless a total does not fit into
      64 bits; that is reported before. */
  lemma OverrunIsFirst(u: Usage, g: Graph, b: Budgets)
    ensures
      var instructions, blocks := u.instructions + g.instructionCount, u.blocks + |g.blocks|;
      var edges, bytes := u.edges + EdgeCount(g), u.bytes + 4 * g.instructionCount;
      var fit := instructions <= MAX64 && blocks <= MAX64 && edges <= MAX64 && bytes <= MAX64;
      match Overrun(u, g, b)
      case None => instructions <= b.maxInstructions && blocks <= b.maxBlocks && edges <= b.maxEdges && bytes <= b.maxBytes
      case Some(Instructions) => instructions > MAX64 || blocks > MAX64 || (fit && instructions > b.maxInstructions)
      case Some(Blocks) => fit && instructions <= b.maxInstructions && blocks > b.maxBlocks
      case Some(Edges) =>
        && instructions <= MAX64 && blocks <= MAX64
        && (edges > MAX64 || (fit && instructions <= b.maxInstructions && blocks <= b.maxBlocks && edges > b.maxEdges))
      case Some(BytesAnalyzed) =>
        && instructions <= MAX64 && blocks <= MAX64 && edges <= MAX64
        && (bytes > MAX64 || (instructions <= b.maxInstructions && blocks <= b.maxBlocks && edges <= b.maxEdges
                              && bytes > b.maxBytes))
      case _ => false
  {
    hide EdgeCount;
  }

  /** The budget of the whole build that a failed analysis of one function has run into. */
  function CfgBudgetDimension(code: ErrorCode): Option<BudgetDimension> {
    match code
    case AnalysisInstructionLimitExceeded => Some(Instructions)
    case AnalysisBlockLimitExceeded => Some(Blocks)
    case AnalysisWorklistLimitExceeded => Some(Seeds)
    case _ => None
  }

  /** The limits and the range of every analysis of the build. */
  function AnalysisLimits(input: ModuleInput, cfg: AnalysisOptions, b: Budgets): AnalysisOptions {
    AnalysisOptions(
      if cfg.maxInstructions <= b.maxInstructions then cfg.maxInstructions else b.maxInstructions,
      if cfg.maxBasicBlocks <= b.maxBlocks then cfg.maxBasicBlocks else b.maxBlocks,
      if cfg.maxPendingTargets <= b.maxSeeds then cfg.maxPendingTargets else b.maxSeeds,
      if cfg.allowedRange.None? && |input.executable| == 1 then Some(input.executable[0]) else cfg.allowedRange,
      cfg.knownEntries)
  }

  // Evidence.

  function Trusting(s: FunctionSeed, otherwise: Trust): Trust {
    if s.IsBoundaryWorthy() then Trusted else otherwise
  }

  /** `add_evidence`: a seed can add an entry, raise the confidence and establish trust. */
  function AddEvidence(f: FunctionRecord, s: FunctionSeed): FunctionRecord {
    var stronger := s.confidence.Rank() > f.confidence.Rank();
    f.(entries := if s.entry in f.entries then f.entries else f.entries + [s.entry],
       confidence := if stronger then s.confidence else f.confidence,
       source := if stronger then s.source else f.source,
       trust := Trusting(s, f.trust))
  }

  function NewRecord(s: FunctionSeed): FunctionRecord {
    var canonical := s.Canonical();
    FunctionRecord(canonical, if s.entry == canonical then [canonical] else [canonical, s.entry], [], 0, 0,
                   s.source, s.confidence, Trusting(s, Candidate), Discovered, None, [], [])
  }

  /** The order in which two seeds of a function are met leaves no trace in its rank, trust or entries. */
  lemma EvidenceCommutes(f: FunctionRecord, s: FunctionSeed, t: FunctionSeed)
    ensures
      var a, b := AddEvidence(AddEvidence(f, s), t), AddEvidence(AddEvidence(f, t), s);
      && a.confidence.Rank() == b.confidence.Rank() && a.trust == b.trust
      && forall e :: e in a.entries <==> e in b.entries
  {
  }

  /** A single analysis may use up the budgets of the build at most, and follows control through the executable range
      when there is only one and none is given. */
  lemma LimitsAreLeast(input: ModuleInput, cfg: AnalysisOptions, b: Budgets)
    ensures
      var limits := AnalysisLimits(input, cfg, b);
      && limits.maxInstructions == Lesser(cfg.maxInstructions, b.maxInstructions)
      && limits.maxBasicBlocks == Lesser(cfg.maxBasicBlocks, b.maxBlocks)
      && limits.maxPendingTargets == Lesser(cfg.maxPendingTargets, b.maxSeeds)
      && limits.knownEntries == cfg.knownEntries
      && (cfg.allowedRange.Some? ==> limits.allowedRange == cfg.allowedRange)
      && (cfg.allowedRange == None ==>
            forall r :: limits.allowedRange == Some(r) <==> input.executable == [r])
  {
  }

  // One analysis of the build.

  /** The limit of a single analysis that the code reports, and the budget it stands for. */
  ghost predicate IsLimitOf(code: ErrorCode, d: BudgetDimension) {
    || (code == AnalysisInstructionLimitExceeded && d == Instructions)
    || (code == AnalysisBlockLimitExceeded && d == Blocks)
    || (code == AnalysisWorklistLimitExceeded && d == Seeds)
  }

  ghost predicate IsLimit(code: ErrorCode) {
    code in {AnalysisInstructionLimitExceeded, AnalysisBlockLimitExceeded, AnalysisWorklistLimitExceeded}
  }

  /** A function may be entered at an aligned, executable word that lies in one executable range. */
  lemma EntryExactly(input: ModuleInput, a: Address)
    ensures input.InRange(a) <==> InOneRange(input.executable, a, a + 4)
    ensures input.IsEntry(a) <==> a % 4 == 0 && input.guest.executable(a) == Ok(true) && InOneRange(input.executable, a, a + 4)
  {
    ContainsExactly(input.executable, a, 4);
  }

  /** What stays the same during a build: its input and options, and the budgets and limits derived from them. */
  datatype Setting = Setting(input: ModuleInput, options: BuildOptions, budgets: Budgets, limits: AnalysisOptions) {
    /** The analysis of `entry` with the entries in `known`. */
    function ProblemAt(entry: Address, known: set<Address>): Problem {
      Problem(input.guest, limits.(knownEntries := known), entry)
    }

    /** The number of analyses in a full wave. */
    function Width(): nat { if options.workers == 0 then 1 else options.workers }
  }

  /** The budgets and limits that a build chooses for its input and options. */
  ghost function SettingOf(input: ModuleInput, options: BuildOptions): Setting {
    var bytes: uint64 := if SumSizes(input.executable) <= MAX64 then SumSizes(input.executable) else MAX64;
    var budgets := Clamped(options.budgets, bytes);
    Setting(input, options, budgets, AnalysisLimits(input, options.cfg, budgets))
  }

  /** The graph is the result of an analysis that knew the entries in `at`. */
  ghost predicate GraphIsFrom(s: Setting, e: Address, g: Graph, at: set<Address>) {
    s.ProblemAt(e, at).IsAnalysis(g) && s.ProblemAt(e, at).EntryError().None?
  }

  /** The analysis that knew the entries in `at` fails, for a cause other than a limit. */
  ghost predicate FailsFor(s: Setting, e: Address, at: set<Address>) {
    exists code :: !IsLimit(code) && s.ProblemAt(e, at).FailureCause(code)
  }

  /** The analysis that knew the entries in `at` can fail for a limit that stands for a budget of the build. */
  ghost predicate LimitBinds(s: Setting, e: Address, at: set<Address>, d: BudgetDimension) {
    exists code :: IsLimitOf(code, d) && s.ProblemAt(e, at).FailureCause(code)
  }

  ghost predicate IsOutcome(s: Setting, e: Address, outcome: Option<Graph>, at: set<Address>) {
    if outcome.Some? then GraphIsFrom(s, e, outcome.value, at) else FailsFor(s, e, at)
  }

  /** What an analysis that knew the entries in `at` may return. */
  ghost predicate Analyzes(s: Setting, e: Address, at: set<Address>, r: Result<Graph>) {
    match r
    case Ok(g) => GraphIsFrom(s, e, g, at)
    case Err(code) => s.ProblemAt(e, at).FailureCause(code)
  }

  // The entries known before the first analysis.

  function InitialEntries(options: BuildOptions): set<Address> {
    (if options.closureRoots.None? then options.cfg.knownEntries
     else options.cfg.knownEntries * options.closureRoots.value) + options.newEntries
  }

  /** The entries known after the first `k` seeds: strong ones add themselves. */
  function SeededEntries(s: Setting, k: nat): set<Address>
    requires k <= |s.input.seeds|
  {
    if k == 0 then InitialEntries(s.options)
    else
      var seed := s.input.seeds[k - 1];
      SeededEntries(s, k - 1)
      + if s.options.Includes(seed) && seed.IsBoundaryWorthy() then {seed.Canonical(), seed.entry} else {}
  }

  function FirstEntries(s: Setting): set<Address> { SeededEntries(s, |s.input.seeds|) }

  // Where functions can come from.

  /** The in-range direct calls of the graph stay in the set. */
  ghost predicate CallsStayIn(s: Setting, g: Graph, c: iset<Address>) {
    forall t :: CallsDirectly(g, t) && s.input.InRange(t) ==> t in c
  }

  /** The set is closed under the calls of every analysis that knew at least the first entries. */
  ghost predicate IsCallClosed(s: Setting, c: iset<Address>) {
    forall e: Address, g: Graph, at: set<Address> {:trigger GraphIsFrom(s, e, g, at)} ::
      e in c && (forall x :: x in FirstEntries(s) ==> x in at) && GraphIsFrom(s, e, g, at) ==> CallsStayIn(s, g, c)
  }

  ghost predicate SeedsAreIn(s: Setting, c: iset<Address>) {
    forall k :: 0 <= k < |s.input.seeds| && s.options.Includes(s.input.seeds[k]) ==> s.input.seeds[k].Canonical() in c
  }

  /** The entry is a seed, or follows from the seeds by direct calls. */
  ghost predicate IsCallable(s: Setting, e: Address) {
    forall c: iset<Address> :: SeedsAreIn(s, c) && IsCallClosed(s, c) ==> e in c
  }

  lemma CallIsCallable(s: Setting, e: Address, g: Graph, at: set<Address>, t: Address)
    requires IsCallable(s, e) && GraphIsFrom(s, e, g, at) && forall x :: x in FirstEntries(s) ==> x in at
    requires CallsDirectly(g, t) && s.input.InRange(t)
    ensures IsCallable(s, t)
  {
    forall c: iset<Address> | SeedsAreIn(s, c) && IsCallClosed(s, c)
      ensures t in c
    {
      assert CallsStayIn(s, g, c);
    }
  }

  lemma SeedIsCallable(s: Setting, k: nat)
    requires k < |s.input.seeds| && s.options.Includes(s.input.seeds[k])
    ensures IsCallable(s, s.input.seeds[k].Canonical())
  {
  }

  // Functions that cannot leave the executable ranges.

  /** The range an analysis may follow control in lies inside one executable range. */
  ghost predicate Confined(input: ModuleInput, cfg: AnalysisOptions) {
    cfg.allowedRange.Some? && exists k :: 0 <= k < |input.executable| && Inside(cfg.allowedRange.value, input.executable[k])
  }

  ghost predicate Inside(r: Range, home: Range) {
    IsCodeRange(home) && home.base <= r.base && r.End() <= home.End()
  }

  lemma ReachedAreInternal(p: Problem, a: Address)
    requires p.Internal(p.entry) && p.guest.FetchesCode() && p.Reaches(a)
    ensures p.Internal(a)
  {
    var s := iset x: Address | p.Internal(x);
    forall x, y | x in s && y in p.Successors(x)
      ensures y in s
    {
      p.SuccessorsAhead(p.guest.fetch(x).value);
    }
    assert p.ClosedUnderSuccessors(s);
  }

  lemma ReachedIsCode(p: Problem, home: Range, a: Address)
    requires p.Internal(p.entry) && p.guest.FetchesCode() && p.Reaches(a) && p.StepError(a).None?
    requires p.options.allowedRange.Some? && Inside(p.options.allowedRange.value, home)
    ensures IsCodeWord(a) && home.base <= a && a + 4 <= home.End()
  {
    ReachedAreInternal(p, a);
    assert p.guest.fetch(a).Ok?;
  }

  lemma AddressIsReached(p: Problem, g: Graph, a: Address)
    requires p.IsAnalysis(g)
    ensures a in Addresses(g) <==> p.Reaches(a)
    ensures p.Reaches(a) ==> p.StepError(a).None?
  {
  }

  lemma AnalysisStaysInside(s: Setting, e: Address, g: Graph, at: set<Address>)
    requires s.input.guest.FetchesCode() && Confined(s.input, s.limits) && GraphIsFrom(s, e, g, at)
    ensures StaysInside(g, s.input.executable)
  {
    var k :| 0 <= k < |s.input.executable| && Inside(s.limits.allowedRange.value, s.input.executable[k]);
    AnalysisStaysIn(s.ProblemAt(e, at), g, s.input.executable[k]);
    assert StaysIn(g, s.input.executable[k]);
  }

  lemma AnalysisStaysIn(p: Problem, g: Graph, home: Range)
    requires p.IsAnalysis(g) && p.Internal(p.entry) && p.guest.FetchesCode()
    requires p.options.allowedRange.Some? && Inside(p.options.allowedRange.value, home)
    ensures StaysIn(g, home)
  {
    forall a | a in Addresses(g)
      ensures IsCodeWord(a) && home.base <= a && a + 4 <= home.End()
    {
      AddressIsReached(p, g, a);
      ReachedIsCode(p, home, a);
    }
    assert p.Reaches(p.entry);
    AddressIsReached(p, g, p.entry);
  }
}
