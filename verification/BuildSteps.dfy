/** The steps of a build, as functions and relations over the values it keeps. */
module BuildSteps {
  import opened Common
  import opened ControlFlow
  import opened FunctionRecords
  import opened FunctionDiscovery
  import opened FreshGraphs

  /** What an analysis knew: the entries, and how many boundaries had been found by then. */
  datatype Knowledge = Knowledge(entries: set<Address>, count: nat)

  /** The containers and counters of a build.  `basis` is history: what the analysis behind each record knew. */
  datatype Book = Book(
    records: map<Address, FunctionRecord>,
    pending: set<Address>,
    processed: set<Address>,
    seedCount: nat,
    known: set<Address>,
    boundaries: seq<Address>,
    checkpoints: map<Address, nat>,
    usage: Usage,
    passes: nat,
    basis: map<Address, Knowledge>)
  {
    ghost function Knows(): Knowledge { Knowledge(known, |boundaries|) }
  }

  // Seeds.

  function WithSeed(records: map<Address, FunctionRecord>, seed: FunctionSeed): map<Address, FunctionRecord> {
    var c := seed.Canonical();
    records[c := AddEvidence(if c in records then records[c] else NewRecord(seed), seed)]
  }

  /** `add_seed`. */
  function AddSeed(s: Setting, b: Book, seed: FunctionSeed): Outcome<Book> {
    var c := seed.Canonical();
    if !s.input.IsEntry(seed.entry) || !s.input.IsEntry(c) then Fault(InvalidGuestAddress)
    else if c !in b.records && |b.records| >= s.budgets.maxFunctions then OverBudget(Functions)
    else if c !in b.pending && b.seedCount >= s.budgets.maxSeeds then OverBudget(Seeds)
    else Done(b.(records := WithSeed(b.records, seed),
                 pending := b.pending + {c},
                 seedCount := if c in b.pending then b.seedCount else b.seedCount + 1))
  }

  function EmptyBook(s: Setting): Book {
    Book(map[], {}, {}, 0, InitialEntries(s.options), [], map[], Usage(0, 0, 0, 0), 0, map[])
  }

  /** The state after the first `k` supplied seeds. */
  function AddSeeds(s: Setting, k: nat): Outcome<Book>
    requires k <= |s.input.seeds|
  {
    if k == 0 then Done(EmptyBook(s))
    else
      var front, seed := AddSeeds(s, k - 1), s.input.seeds[k - 1];
      if front.IsFailure() then front
      else if !s.input.IsEntry(seed.entry) || !s.input.IsEntry(seed.Canonical()) then Fault(InvalidGuestAddress)
      else if !s.options.Includes(seed) then front
      else
        var added := AddSeed(s, front.value, seed);
        if added.IsFailure() || !seed.IsBoundaryWorthy() then added
        else Done(added.value.(known := added.value.known + {seed.Canonical(), seed.entry}))
  }

  // Calls.

  /** A call target becomes a function, and a boundary if it was not known before. */
  function AddCall(s: Setting, b: Book, target: Address): Outcome<Book> {
    var added := AddSeed(s, b, FunctionSeed(target, DirectCallSource, High, None));
    if added.IsFailure() || target in b.known then added
    else Done(added.value.(known := b.known + {target}, boundaries := b.boundaries + [target]))
  }

  /** Every in-range call target, in order. */
  function AddCalls(s: Setting, b: Book, targets: seq<Address>): Outcome<Book> {
    if targets == [] then Done(b)
    else
      var front, target := AddCalls(s, b, targets[..|targets| - 1]), targets[|targets| - 1];
      if front.IsFailure() || !s.input.InRange(target) then front else AddCall(s, front.value, target)
  }

  // Graphs.

  /** The record with a new graph: with what it owns and calls, or failed when it cannot be owned. */
  ghost function Described(s: Setting, known: set<Address>, f: FunctionRecord, g: Graph): FunctionRecord {
    if Ownable(g, s.input.executable) && RangesOf(g) != [] then
      WithCode(f, g).(status := Analyzed, dependencies := OwnedEntries(RangesOf(g), known))
    else f.(cfg := Some(g), status := Failed)
  }

  ghost function Replace(b: Book, e: Address, f: FunctionRecord, at: Knowledge): Book {
    b.(records := b.records[e := f], basis := b.basis[e := at])
  }

  /** A graph is charged to the budgets and stored. */
  ghost function Store(s: Setting, b: Book, e: Address, g: Graph, at: Knowledge): Outcome<Book>
    requires e in b.records
  {
    var dimension := Overrun(b.usage, g, s.budgets);
    if dimension.Some? then OverBudget(dimension.value)
    else Done(Replace(b.(usage := Consumed(b.usage, g)), e, Described(s, b.known, b.records[e], g), at))
  }

  // Discovery.

  /** `process_graph`: what becomes of the analysis of one discovered function. */
  ghost function Process(s: Setting, b: Book, e: Address, graph: Result<Graph>, at: Knowledge): Outcome<Book> {
    if e !in b.records then Fault(InvalidFormat)
    else
      match graph
      case Err(code) =>
        if CfgBudgetDimension(code).Some? then OverBudget(CfgBudgetDimension(code).value)
        else if !s.options.continueAfterFailure then Fault(code)
        else Done(Replace(b, e, b.records[e].(status := Failed), at))
      case Ok(g) =>
        var stored := Store(s, b, e, g, at);
        if stored.IsFailure() then stored
        else if stored.value.records[e].status.Analyzed? then
          AddCalls(s, stored.value, stored.value.records[e].directCalls)
        else if !s.options.continueAfterFailure then Fault(OwnershipError(g))
        else stored
  }

  datatype Wave = Wave(entries: seq<Address>, pending: set<Address>, processed: set<Address>)

  /** The smallest pending entries that are still unprocessed, at most `width`. */
  function TakeWave(pending: set<Address>, processed: set<Address>, width: nat): Wave {
    if pending == {} || width == 0 then Wave([], pending, processed)
    else
      var e := Least(pending);
      if e in processed then TakeWave(pending - {e}, processed, width)
      else
        var rest := TakeWave(pending - {e}, processed + {e}, width - 1);
        rest.(entries := [e] + rest.entries)
  }

  /** `analyze_wave`: the analyses of a wave see the same known entries, and none sees another. */
  ghost predicate AnalyzesWave(s: Setting, entries: seq<Address>, at: set<Address>, graphs: seq<Result<Graph>>) {
    |graphs| == |entries| && forall k :: 0 <= k < |entries| ==> Analyzes(s, entries[k], at, graphs[k])
  }

  /** The results of a wave, merged in the order of its entries. */
  ghost function ProcessWave(s: Setting, b: Book, entries: seq<Address>, graphs: seq<Result<Graph>>, at: Knowledge)
    : Outcome<Book>
    requires |graphs| == |entries|
  {
    if entries == [] then Done(b)
    else
      var last := |entries| - 1;
      var front := ProcessWave(s, b, entries[..last], graphs[..last], at);
      if front.IsFailure() then front else Process(s, front.value, entries[last], graphs[last], at)
  }

  function NextWave(s: Setting, b: Book): Wave { TakeWave(b.pending, b.processed, s.Width()) }

  /** One round of discovery. */
  ghost predicate RunsWave(s: Setting, b: Book, o: Outcome<Book>) {
    && b.pending != {}
    && var w := NextWave(s, b);
       exists graphs :: AnalyzesWave(s, w.entries, b.known, graphs)
         && o == ProcessWave(s, b.(pending := w.pending, processed := w.processed), w.entries, graphs, b.Knows())
  }

  /** `b` is the state after `n` rounds. */
  ghost predicate WavesTo(s: Setting, start: Book, n: nat, b: Book) {
    if n == 0 then b == start else exists m :: WavesTo(s, start, n - 1, m) && RunsWave(s, m, Done(b))
  }

  /** Rounds follow one another until nothing is pending, or one fails. */
  ghost predicate Discovers(s: Setting, start: Book, o: Outcome<Book>) {
    exists n, b :: WavesTo(s, start, n, b)
      && if b.pending == {} then o == Done(b) else o.IsFailure() && RunsWave(s, b, o)
  }

  // Finalization.

  /** The test by which a finalization pass leaves a function as it is. */
  predicate MayKeep(f: FunctionRecord, e: Address, boundaries: seq<Address>, checkpoints: map<Address, nat>) {
    f.cfg.Some? && f.status.Analyzed? && e in checkpoints && !BoundaryChanged(f, boundaries, checkpoints[e])
  }

  /** Functions without code that have been analyzed, and functions the test keeps, are passed over. */
  predicate PassesOver(b: Book, e: Address)
    requires e in b.records
  {
    var f := b.records[e];
    (f.cfg.None? && !f.status.Discovered?) || MayKeep(f, e, b.boundaries, b.checkpoints)
  }

  function Dropped(f: FunctionRecord): FunctionRecord {
    f.(cfg := None, ranges := [], rangeBegin := 0, rangeEnd := 0, directCalls := [], status := Failed)
  }

  /** What becomes of a second analysis.  The checkpoint counts every boundary found so far. */
  ghost function Rework(s: Setting, b: Book, e: Address, graph: Result<Graph>, at: Knowledge): Outcome<Book>
    requires e in b.records
  {
    match graph
    case Err(code) =>
      if CfgBudgetDimension(code).Some? then OverBudget(CfgBudgetDimension(code).value)
      else Done(Replace(b, e, Dropped(b.records[e]), at))
    case Ok(g) =>
      var stored := Store(s, b, e, g, at);
      if stored.IsFailure() || !stored.value.records[e].status.Analyzed? then stored
      else
        AddCalls(s, stored.value.(checkpoints := b.checkpoints[e := |b.boundaries|]),
                 stored.value.records[e].directCalls)
  }

  /** One function of a pass whose analyses know `at`. */
  ghost predicate Visits(s: Setting, b: Book, at: Knowledge, e: Address, o: Outcome<Book>)
    requires e in b.records
  {
    if PassesOver(b, e) then o == Done(b)
    else exists graph :: Analyzes(s, e, at.entries, graph) && o == Rework(s, b, e, graph, at)
  }

  /** The keys an iterator that stands at `cursor` has still to reach. */
  function Later(records: map<Address, FunctionRecord>, cursor: Address): set<Address> {
    set e | e in records && e > cursor
  }

  /** The iterator moves on to the next key. */
  ghost predicate VisitsNext(s: Setting, b: Book, at: Knowledge, cursor: Address, o: Outcome<Book>) {
    Later(b.records, cursor) != {} && Visits(s, b, at, Least(Later(b.records, cursor)), o)
  }

  /** `b` is the state after `n` visits, the last of them at `cursor`. */
  ghost predicate VisitsTo(s: Setting, start: Book, at: Knowledge, n: nat, b: Book, cursor: Address) {
    if n == 0 then b == start && cursor == -1
    else
      exists m, c :: VisitsTo(s, start, at, n - 1, m, c) && VisitsNext(s, m, at, c, Done(b))
                     && cursor == Least(Later(m.records, c))
  }

  /** One pass over all functions, also those recorded on the way ahead of the iterator. */
  ghost predicate RunsPass(s: Setting, start: Book, o: Outcome<Book>) {
    exists n, b, cursor :: VisitsTo(s, start, start.Knows(), n, b, cursor)
      && if Later(b.records, cursor) == {} then o == Done(b.(pending := {}, passes := b.passes + 1))
         else o.IsFailure() && VisitsNext(s, b, start.Knows(), cursor, o)
  }

  /** A pass found a new boundary, so another one must follow. */
  predicate Changed(before: Book, after: Book) { |after.boundaries| != |before.boundaries| }

  ghost predicate PassesTo(s: Setting, start: Book, n: nat, b: Book) {
    if n == 0 then b == start
    else
      exists m :: PassesTo(s, start, n - 1, m) && RunsPass(s, m, Done(b))
                  && Changed(m, b) && b.passes != s.budgets.maxPasses
  }

  /** Passes go on until one of them finds no new boundary. */
  ghost predicate Finalizes(s: Setting, start: Book, o: Outcome<Book>) {
    exists n, b, last :: PassesTo(s, start, n, b) && RunsPass(s, b, last)
      && if last.Done? && Changed(b, last.value)
         then last.value.passes == s.budgets.maxPasses && o == OverBudget(FinalizationPasses)
         else o == last
  }

  /** The outcome of seeding; there must be at least one function. */
  function Seeded(s: Setting): Outcome<Book> {
    var o := AddSeeds(s, |s.input.seeds|);
    if o.Done? && o.value.records == map[] then
      Fault(if s.options.closureRoots.Some? then AnalysisScopeViolation else InvalidArgument)
    else o
  }

  /** Seeding, discovery and finalization. */
  ghost predicate Settles(s: Setting, o: Outcome<Book>) {
    var seeded := Seeded(s);
    if seeded.IsFailure() then o == seeded
    else exists d :: Discovers(s, seeded.value, d) && if d.IsFailure() then o == d else Finalizes(s, d.value, o)
  }
}
