/** What holds of the finalization passes: when one is enough, and which graphs several of them leave stale. */
module Finalization {
  import opened Common
  import opened ControlFlow
  import opened CfgTheorems
  import opened FunctionRecords
  import opened FunctionDiscovery
  import opened FreshGraphs
  import opened BuildSteps
  import opened BuildInvariant
  import opened BuildAccounts
  import opened BuildRuns
  import opened Evidence

  // A function that is left as it is.

  lemma KnownGrows(s: Setting, boundaries: seq<Address>, m: nat, n: nat)
    requires m <= n <= |boundaries|
    ensures KnownBy(s, boundaries, m) <= KnownBy(s, boundaries, n)
  {
  }

  lemma BoundariesAreLearned(s: Setting, known: set<Address>, boundaries: seq<Address>, e: Address, m: nat, n: nat)
    requires Traced(s, known, boundaries) && m <= n <= |boundaries|
    ensures Learns(s.ProblemAt(e, KnownBy(s, boundaries, m)), s.ProblemAt(e, KnownBy(s, boundaries, n)), boundaries, m, n)
  {
    hide FirstEntries;
    KnownGrows(s, boundaries, m, n);
    forall k | m <= k < n
      ensures boundaries[k] in KnownBy(s, boundaries, n) && boundaries[k] !in KnownBy(s, boundaries, m)
    {
      KnownGrows(s, boundaries, m, k);
    }
  }

  /** The function at `e` branches to a boundary that its graph did not know and its checkpoint counts,
      or that lies outside the range of the analyses. */
  ghost predicate Misses(s: Setting, b: Book, e: Address, upTo: nat)
    requires upTo <= |b.boundaries|
  {
    && e in b.basis && e in b.checkpoints
    && Overlooked(s.ProblemAt(e, b.basis[e].entries), b.boundaries, b.basis[e].count, b.checkpoints[e], upTo)
  }

  lemma KeptRecord(s: Setting, b: Book, e: Address)
    requires Sound(s, b, None) && e in b.records && MayKeep(b.records[e], e, b.boundaries, b.checkpoints)
    ensures e in b.basis && IsBasis(s, b.boundaries, b.basis[e]) && OwnsItsGraph(b.records[e])
    ensures GraphIsFrom(s, e, b.records[e].cfg.value, b.basis[e].entries)
    ensures b.basis[e].count <= b.checkpoints[e]
  {
    ProperAt(s, b.records, e);
    assert IsRecalled(s, b.boundaries, b.basis, e, b.records[e]) && IsChecked(b, e);
    hide GraphIsFrom, IsBasis;
    CodeIsDescribed(b.records[e].cfg.value);
  }

  /** The exact condition, known before the function is passed over: the graph that the test keeps is not the
      one for the entries after `upTo` boundaries if, and only if, the function branches to a boundary found
      between the start of the pass that stored the graph and its storing. */
  lemma KeptIsStaleExactly(s: Setting, b: Book, e: Address, upTo: nat)
    requires IsFit(s) && Sound(s, b, None) && e in b.records
    requires MayKeep(b.records[e], e, b.boundaries, b.checkpoints)
    requires e in b.basis && b.basis[e].count <= upTo <= |b.boundaries|
    ensures !GraphIsFrom(s, e, b.records[e].cfg.value, KnownBy(s, b.boundaries, upTo)) <==> Misses(s, b, e, upTo)
  {
    assert s.ProblemAt(e, b.basis[e].entries).guest == s.input.guest;
    hide Sound, IsFit, MayKeep, IsBasis, OwnsItsGraph, GraphIsFrom, Learns, KnownBy, Overlooked, Misses, Problem.EntryError,
         Problem.IsAnalysis;
    KeptRecord(s, b, e);
    KnownIs(s, b, e, upTo);
    FitFetchesCode(s);
    var p, q := s.ProblemAt(e, b.basis[e].entries), s.ProblemAt(e, KnownBy(s, b.boundaries, upTo));
    FromAnalysis(s, e, b.records[e].cfg.value, b.basis[e].entries);
    SameEntryError(s, e, b.basis[e].entries, KnownBy(s, b.boundaries, upTo));
    KeptProblemIsStaleExactly(p, q, b.records[e], e, b.boundaries, b.checkpoints, b.basis[e].count, upTo);
    StaleMeansMisses(s, b, e, upTo, p, q);
  }

  lemma FitFetchesCode(s: Setting)
    requires IsFit(s)
    ensures s.input.guest.FetchesCode()
  {
    hide InputIsValid, GuestView.FetchesCode;
  }

  lemma FromAnalysis(s: Setting, e: Address, g: Graph, at: set<Address>)
    requires GraphIsFrom(s, e, g, at)
    ensures s.ProblemAt(e, at).IsAnalysis(g) && s.ProblemAt(e, at).EntryError().None?
  {
    hide Problem.IsAnalysis, Problem.EntryError;
  }

  lemma SameEntryError(s: Setting, e: Address, a: set<Address>, b: set<Address>)
    ensures s.ProblemAt(e, a).EntryError() == s.ProblemAt(e, b).EntryError()
  {
  }

  lemma KnownIs(s: Setting, b: Book, e: Address, upTo: nat)
    requires Sound(s, b, None) && e in b.basis && IsBasis(s, b.boundaries, b.basis[e])
    requires b.basis[e].count <= upTo <= |b.boundaries|
    ensures Learns(s.ProblemAt(e, b.basis[e].entries), s.ProblemAt(e, KnownBy(s, b.boundaries, upTo)), b.boundaries,
                   b.basis[e].count, upTo)
  {
    hide Proper, Counted, Recalled, CheckpointsCount, Closed, AllCallable, KnownBy, Learns, Traced;
    BoundariesAreLearned(s, b.known, b.boundaries, e, b.basis[e].count, upTo);
  }

  lemma KeptProblemIsStaleExactly(p: Problem, q: Problem, f: FunctionRecord, e: Address, boundaries: seq<Address>,
                                  checkpoints: map<Address, nat>, from: nat, upTo: nat)
    requires MayKeep(f, e, boundaries, checkpoints)
    requires upTo <= |boundaries| && Learns(p, q, boundaries, from, upTo)
    requires p.guest.FetchesCode() && OwnsItsGraph(f) && p.IsAnalysis(f.cfg.value)
    ensures q.IsAnalysis(f.cfg.value) <==> !Overlooked(p, boundaries, from, checkpoints[e], upTo)
  {
    hide Learns, OwnsItsGraph, Overlooked, BoundaryChanged, Problem.IsAnalysis, GuestView.FetchesCode;
    KeptExactly(p, q, f, boundaries, from, checkpoints[e], upTo);
  }

  lemma StaleMeansMisses(s: Setting, b: Book, e: Address, upTo: nat, p: Problem, q: Problem)
    requires e in b.records && MayKeep(b.records[e], e, b.boundaries, b.checkpoints)
    requires e in b.basis && b.basis[e].count <= upTo <= |b.boundaries|
    requires p == s.ProblemAt(e, b.basis[e].entries) && q == s.ProblemAt(e, KnownBy(s, b.boundaries, upTo))
    requires p.EntryError().None? && p.EntryError() == q.EntryError()
    requires q.IsAnalysis(b.records[e].cfg.value) <==>
             !Overlooked(p, b.boundaries, b.basis[e].count, b.checkpoints[e], upTo)
    ensures !GraphIsFrom(s, e, b.records[e].cfg.value, KnownBy(s, b.boundaries, upTo)) <==> Misses(s, b, e, upTo)
  {
    hide Overlooked, BoundaryChanged, Problem.IsAnalysis, KnownBy;
  }

  // One function of a pass.

  /** The outcome of a second analysis that worked: the graph rests on `at`, and the checkpoint of a function
      whose graph can be owned counts the boundaries found before its own calls are followed up. */
  lemma ReworkRecords(s: Setting, b: Book, e: Address, graph: Result<Graph>, at: Knowledge)
    requires IsFit(s) && Sound(s, b, None) && e in b.records && Rework(s, b, e, graph, at).Done?
    requires IsBasis(s, b.boundaries, at) && Analyzes(s, e, at.entries, graph)
    ensures
      var c := Rework(s, b, e, graph, at).value;
      && e in c.records && c.basis == b.basis[e := at]
      && c.checkpoints == (if c.records[e].status.Analyzed? then b.checkpoints[e := |b.boundaries|] else b.checkpoints)
      && c.records[e].cfg == (if graph.Ok? then Some(graph.value) else None)
      && (c.records[e].status.Analyzed? <==> graph.Ok? && Ownable(graph.value, s.input.executable))
      && (c.records[e].status.Analyzed? ==> c.records[e].dependencies == OwnedEntries(c.records[e].ranges, b.known))
  {
    hide Sound, GraphIsFrom, FailsFor, Ownable, IsBasis, IsFit, Analyzes, AddCalls, OwnedEntries, Overrun;
    AnalyzesGraph(s, e, at.entries, graph);
    if graph.Ok? && Ownable(graph.value, s.input.executable) {
      ReworkOwnedRecords(s, b, e, graph.value, at);
    }
  }

  lemma ReworkOwnedRecords(s: Setting, b: Book, e: Address, g: Graph, at: Knowledge)
    requires IsFit(s) && Sound(s, b, None) && e in b.records && Rework(s, b, e, Ok(g), at).Done?
    requires IsBasis(s, b.boundaries, at) && GraphIsFrom(s, e, g, at.entries) && Ownable(g, s.input.executable)
    ensures
      var c := Rework(s, b, e, Ok(g), at).value;
      && e in c.records && c.basis == b.basis[e := at] && c.checkpoints == b.checkpoints[e := |b.boundaries|]
      && c.records[e].cfg == Some(g) && c.records[e].status.Analyzed?
      && c.records[e].dependencies == OwnedEntries(c.records[e].ranges, b.known)
  {
    var c := WithCheckpoint(b, e);
    assert IsBasis(s, c.boundaries, at) && at.count <= c.checkpoints[e];
    assert c.records == b.records && c.basis == b.basis && c.known == b.known;
    CodeIsDescribed(g);
    CheckpointKeepsSound(s, b, e);
    ReworkOwned(s, b, e, g, at);
    hide Rework, Store, AddCalls, Sound, IsFit, IsBasis, Ownable, GraphIsFrom, Described;
    StoreIsStored(s, c, e, g, at);
    StoreKeepsCheckpoints(s, c, e, g, at);
    DescribedKeepsProper(s, c, e, g);
    DescribedLists(s, c.known, c.records[e], g);
    TargetsStay(s, Store(s, c, e, g, at).value, e);
  }

  lemma DescribedLists(s: Setting, known: set<Address>, f: FunctionRecord, g: Graph)
    requires Ownable(g, s.input.executable) && RangesOf(g) != []
    ensures Described(s, known, f, g).dependencies == OwnedEntries(Described(s, known, f, g).ranges, known)
  {
    hide Ownable, RangesOf, OwnedEntries, TargetsOf;
  }

  lemma StoreKeepsCheckpoints(s: Setting, b: Book, e: Address, g: Graph, at: Knowledge)
    requires e in b.records && Store(s, b, e, g, at).Done?
    ensures Store(s, b, e, g, at).value.checkpoints == b.checkpoints
    ensures Store(s, b, e, g, at).value.boundaries == b.boundaries
  {
    hide Described, Overrun;
  }

  // One visit.

  /** The graph of the function at `e`, if it has one, rests on `at`. */
  ghost predicate RestsOn(b: Book, e: Address, at: Knowledge) {
    e in b.records && b.records[e].cfg.Some? ==> e in b.basis && b.basis[e] == at
  }

  ghost predicate RestsOrIsKept(b: Book, e: Address, at: Knowledge) {
    RestsOn(b, e, at) || (e in b.records && MayKeep(b.records[e], e, b.boundaries, b.checkpoints))
  }

  /** What one visit gives. */
  ghost predicate VisitGives(s: Setting, b: Book, at: Knowledge, e: Address, o: Outcome<Book>) {
    match o
    case Done(c) =>
      && Sound(s, c, None) && Moves(b, c, e) && RestsOrIsKept(c, e, at)
      && (e !in b.checkpoints ==> RestsOn(c, e, at))
    case OverBudget(d) => StepRunsOut(s, b, e, at.entries, d)
    case Fault(code) => MayFault(s, code)
  }

  lemma NothingMoves(b: Book, e: Address)
    requires e in b.records
    ensures Moves(b, b, e)
  {
  }

  lemma VisitIsSound(s: Setting, b: Book, at: Knowledge, e: Address, o: Outcome<Book>)
    requires IsFit(s) && Sound(s, b, None) && IsBasis(s, b.boundaries, at) && e in b.records && Visits(s, b, at, e, o)
    ensures VisitGives(s, b, at, e, o)
  {
    hide Sound, IsFit, IsBasis, Analyzes, Rework, Moves, StepRunsOut, MayFault, BoundaryChanged;
    if PassesOver(b, e) {
      NothingMoves(b, e);
    } else {
      var graph :| Analyzes(s, e, at.entries, graph) && o == Rework(s, b, e, graph, at);
      ReworkKeeps(s, b, e, graph, at);
      if o.Done? {
        ReworkRecords(s, b, e, graph, at);
      }
    }
  }

  // One pass.

  ghost predicate KeepsCheckpointsBehind(b: Book, cursor: Address) { forall x :: x in b.checkpoints ==> x <= cursor }

  ghost predicate AllRestUpTo(b: Book, at: Knowledge, cursor: Address) {
    forall x {:trigger RestsOn(b, x, at)} :: x <= cursor ==> RestsOn(b, x, at)
  }

  ghost predicate AllSettledUpTo(b: Book, at: Knowledge, cursor: Address) {
    forall x {:trigger RestsOrIsKept(b, x, at)} :: x <= cursor ==> RestsOrIsKept(b, x, at)
  }

  /** The state within a pass that began in `start`, with the iterator at `cursor`. */
  ghost predicate InPass(s: Setting, start: Book, b: Book, cursor: Address) {
    && Sound(s, b, None) && Grown(start, b) && IsBasis(s, b.boundaries, start.Knows())
    && (start.checkpoints == map[] ==> AllRestUpTo(b, start.Knows(), cursor) && KeepsCheckpointsBehind(b, cursor))
    && (b.boundaries == start.boundaries ==> AllSettledUpTo(b, start.Knows(), cursor))
  }

  lemma MovingKeepsRests(b: Book, c: Book, e: Address, at: Knowledge, x: Address)
    requires Moves(b, c, e) && RestsOn(b, x, at) && x != e
    ensures RestsOn(c, x, at)
  {
    if x in b.records {
      StatusStays(b.records[x], c.records[x]);
    }
  }

  lemma MovingKeepsKept(b: Book, c: Book, e: Address, x: Address)
    requires Moves(b, c, e) && x != e && c.boundaries == b.boundaries && x in b.records
    requires MayKeep(b.records[x], x, b.boundaries, b.checkpoints)
    ensures x in c.records && MayKeep(c.records[x], x, c.boundaries, c.checkpoints)
  {
    assert SameFunction(b.records[x], c.records[x]);
  }

  lemma MovingKeepsSettled(b: Book, c: Book, e: Address, at: Knowledge, cursor: Address)
    requires Moves(b, c, e) && c.boundaries == b.boundaries && AllSettledUpTo(b, at, cursor) && RestsOrIsKept(c, e, at)
    requires forall x :: x in b.records && cursor < x ==> e <= x
    ensures AllSettledUpTo(c, at, e)
  {
    hide Moves, RestsOn, MayKeep;
    forall x | x <= e
      ensures RestsOrIsKept(c, x, at)
    {
      if x != e {
        assert x <= cursor || x !in b.records;
        if x <= cursor {
          assert RestsOrIsKept(b, x, at);
        } else {
          NoRecordRests(b, x, at);
        }
        if RestsOn(b, x, at) {
          MovingKeepsRests(b, c, e, at, x);
        } else {
          MovingKeepsKept(b, c, e, x);
        }
      }
    }
  }

  lemma NoRecordRests(b: Book, x: Address, at: Knowledge)
    requires x !in b.records
    ensures RestsOn(b, x, at)
  {
  }

  lemma MovingKeepsAllRest(b: Book, c: Book, e: Address, at: Knowledge, cursor: Address)
    requires Moves(b, c, e) && AllRestUpTo(b, at, cursor) && RestsOn(c, e, at)
    requires forall x :: x in b.records && cursor < x ==> e <= x
    ensures AllRestUpTo(c, at, e)
  {
    hide Moves, RestsOn;
    forall x | x <= e
      ensures RestsOn(c, x, at)
    {
      if x != e {
        assert x <= cursor || x !in b.records;
        if x > cursor {
          NoRecordRests(b, x, at);
        }
        assert RestsOn(b, x, at);
        MovingKeepsRests(b, c, e, at, x);
      }
    }
  }

  lemma MovingKeepsBehind(b: Book, c: Book, e: Address, cursor: Address)
    requires Moves(b, c, e) && KeepsCheckpointsBehind(b, cursor) && cursor < e
    ensures KeepsCheckpointsBehind(c, e)
  {
    hide SameFunction;
  }

  lemma NextIsLeast(b: Book, cursor: Address)
    requires Later(b.records, cursor) != {}
    ensures
      var e := Least(Later(b.records, cursor));
      e in b.records && cursor < e && forall x :: x in b.records && cursor < x ==> e <= x
  {
    assert forall x :: x in b.records && cursor < x ==> x in Later(b.records, cursor);
  }

  /** What the visit at `e` gives within a pass. */
  ghost predicate PassGoesOn(s: Setting, start: Book, b: Book, e: Address, o: Outcome<Book>) {
    match o
    case Done(c) => InPass(s, start, c, e)
    case OverBudget(d) => StepRunsOut(s, b, e, start.known, d)
    case Fault(code) => MayFault(s, code)
  }

  lemma VisitKeepsPass(s: Setting, start: Book, b: Book, cursor: Address, o: Outcome<Book>)
    requires IsFit(s) && InPass(s, start, b, cursor) && VisitsNext(s, b, start.Knows(), cursor, o)
    ensures PassGoesOn(s, start, b, Least(Later(b.records, cursor)), o)
    ensures o.Done? ==> Moves(b, o.value, Least(Later(b.records, cursor)))
  {
    hide Sound, IsFit, IsBasis, Visits, Moves, StepRunsOut, MayFault, RestsOn, RestsOrIsKept, AllRestUpTo, AllSettledUpTo;
    NextIsLeast(b, cursor);
    var e, at := Least(Later(b.records, cursor)), start.Knows();
    VisitIsSound(s, b, at, e, o);
    if o.Done? {
      var c := o.value;
      MovesIsGrown(b, c, e);
      BasisStays(s, b.boundaries, c.boundaries, at);
      if start.checkpoints == map[] {
        MovingKeepsAllRest(b, c, e, at, cursor);
        MovingKeepsBehind(b, c, e, cursor);
      }
      if c.boundaries == start.boundaries {
        MovingKeepsSettled(b, c, e, at, cursor);
      }
    }
  }

  lemma EntriesAreNatural(s: Setting, records: map<Address, FunctionRecord>)
    requires Proper(s, records)
    ensures forall x :: x in records ==> x >= 0
  {
    AllAreEntries(s, records);
    forall x | x in records
      ensures x >= 0
    {
      assert s.input.IsEntry(x);
    }
  }

  lemma PassBegins(s: Setting, start: Book)
    requires Sound(s, start, None)
    ensures InPass(s, start, start, -1)
  {
    SoundKnows(s, start);
    EntriesAreNatural(s, start.records);
    GrownItself(start);
    hide Sound, Grown, IsBasis;
    assert AllRestUpTo(start, start.Knows(), -1);
    if start.checkpoints == map[] {
      assert KeepsCheckpointsBehind(start, -1);
    }
  }

  lemma {:induction false} VisitsKeepPass(s: Setting, start: Book, n: nat, b: Book, cursor: Address)
    requires IsFit(s) && Sound(s, start, None) && VisitsTo(s, start, start.Knows(), n, b, cursor)
    ensures InPass(s, start, b, cursor)
  {
    hide InPass, Visits, Sound, IsFit;
    if n == 0 {
      PassBegins(s, start);
    } else {
      var m, c :| VisitsTo(s, start, start.Knows(), n - 1, m, c) && VisitsNext(s, m, start.Knows(), c, Done(b))
                  && cursor == Least(Later(m.records, c));
      VisitsKeepPass(s, start, n - 1, m, c);
      VisitKeepsPass(s, start, m, c, Done(b));
    }
  }

  // A build whose failed functions keep no graph needs one pass only.

  /** All functions are analyzed, or have failed and keep no graph. */
  ghost predicate Calm(b: Book) { FailuresAreBare(b.records) && NoneWaiting(b.records) }

  lemma LaterReachesLess(s: Setting, e: Address, g: Graph, h: Graph, at: set<Address>, known: set<Address>)
    requires s.input.guest.FetchesCode() && GraphIsFrom(s, e, g, at) && GraphIsFrom(s, e, h, known) && at <= known
    ensures Addresses(h) != {} && forall a :: a in Addresses(h) ==> a in Addresses(g)
    ensures forall t :: CallsDirectly(h, t) ==> CallsDirectly(g, t)
  {
    var p, q := s.ProblemAt(e, at), s.ProblemAt(e, known);
    ReachShrinks(p, q);
    assert q.Reaches(e) && e in Addresses(h);
    forall t | CallsDirectly(h, t)
      ensures CallsDirectly(g, t)
    {
      CallsShrink(p, q, g, h, t);
    }
  }

  /** A repeated analysis with more known entries can be owned too, and finds no call that was not found before. */
  lemma LaterIsLess(s: Setting, e: Address, g: Graph, h: Graph, at: set<Address>, known: set<Address>)
    requires s.input.guest.FetchesCode() && GraphIsFrom(s, e, g, at) && GraphIsFrom(s, e, h, known) && at <= known
    requires Ownable(g, s.input.executable)
    ensures Ownable(h, s.input.executable) && forall t :: t in TargetsOf(h) ==> t in TargetsOf(g)
  {
    LaterReachesLess(s, e, g, h, at, known);
    hide *;
    LessIsOwnable(g, h, s.input.executable);
    forall t | t in TargetsOf(h)
      ensures t in TargetsOf(g)
    {
      TargetIsCalled(h, t);
      TargetIsCalled(g, t);
    }
  }

  /** In a calm state a function that is not passed over has a graph, and its calls are known. */
  lemma CalmRecord(s: Setting, b: Book, e: Address)
    requires Sound(s, b, None) && Calm(b) && e in b.records && b.records[e].cfg.Some?
    ensures e in b.basis && IsBasis(s, b.boundaries, b.basis[e])
    ensures GraphIsFrom(s, e, b.records[e].cfg.value, b.basis[e].entries)
    ensures Ownable(b.records[e].cfg.value, s.input.executable)
    ensures CallsAreKnown(s, b, TargetsOf(b.records[e].cfg.value))
  {
    ProperAt(s, b.records, e);
    assert IsRecalled(s, b.boundaries, b.basis, e, b.records[e]);
    hide GraphIsFrom, IsBasis, Ownable, ModuleInput.InRange;
    assert b.records[e].status.Analyzed?;
  }

  ghost predicate AddsNothing(b: Book, c: Book) {
    c.boundaries == b.boundaries && c.known == b.known && c.records.Keys == b.records.Keys
  }

  lemma MovingKeepsCalm(b: Book, c: Book, e: Address)
    requires Calm(b) && Moves(b, c, e) && c.records.Keys == b.records.Keys
    requires !c.records[e].status.Discovered? && (c.records[e].status.Failed? ==> c.records[e].cfg.None?)
    ensures Calm(c)
  {
    MovingKeepsBare(b, c, e);
    forall x | x in c.records
      ensures !c.records[x].status.Discovered?
    {
      if x != e {
        assert x in b.records.Keys;
        assert SameFunction(b.records[x], c.records[x]);
      }
    }
  }

  lemma ReworkOfCalm(s: Setting, b: Book, e: Address, h: Graph, at: Knowledge)
    requires IsFit(s) && Sound(s, b, None) && Calm(b) && e in b.records && b.records[e].cfg.Some?
    requires IsBasis(s, b.boundaries, at) && at.count == |b.boundaries| && GraphIsFrom(s, e, h, at.entries)
    ensures Ownable(h, s.input.executable)
    ensures Rework(s, b, e, Ok(h), at).Done? ==> AddsNothing(b, Rework(s, b, e, Ok(h), at).value)
  {
    CalmRecord(s, b, e);
    var g := b.records[e].cfg.value;
    KnownGrows(s, b.boundaries, b.basis[e].count, at.count);
    LaterIsLess(s, e, g, h, b.basis[e].entries, at.entries);
    CodeIsDescribed(h);
    CheckpointKeepsSound(s, b, e);
    ReworkOwned(s, b, e, h, at);
    hide Rework, Sound, IsFit, Ownable, GraphIsFrom, Described, Store, TargetsOf, FailuresAreBare, NoneWaiting;
    var c := WithCheckpoint(b, e);
    StoreIsStored(s, c, e, h, at);
    if Store(s, c, e, h, at).Done? {
      StoredCallsAreKnown(s, b, c, Store(s, c, e, h, at).value, e, h, TargetsOf(g));
    }
  }

  lemma StoredCallsAreKnown(s: Setting, b: Book, c: Book, d: Book, e: Address, h: Graph, targets: seq<Address>)
    requires c == WithCheckpoint(b, e) && IsStored(s, c, d, e, h) && Ownable(h, s.input.executable) && IsFit(s)
    requires CallsAreKnown(s, b, targets) && forall t :: t in TargetsOf(h) ==> t in targets
    ensures AddCalls(s, d, TargetsOf(h)).Done? ==> AddsNothing(b, AddCalls(s, d, TargetsOf(h)).value)
  {
    hide AddCalls, Ownable, Described, TargetsOf, IsFit, Proper, Recalled, CheckpointsCount, Closed, AllCallable, Traced,
         ModuleInput.InRange;
    assert d.records.Keys == b.records.Keys;
    KnownCallsAddNothing(s, d, TargetsOf(h));
  }

  lemma VisitKeepsCalm(s: Setting, b: Book, at: Knowledge, e: Address, c: Book)
    requires IsFit(s) && Sound(s, b, None) && Calm(b) && IsBasis(s, b.boundaries, at) && at.count == |b.boundaries|
    requires e in b.records && Visits(s, b, at, e, Done(c))
    ensures Calm(c) && AddsNothing(b, c)
  {
    hide Sound, IsFit, IsBasis, Analyzes, Rework, Moves, StepRunsOut, MayFault, MayKeep, FailuresAreBare, Ownable;
    if !PassesOver(b, e) {
      var graph :| Analyzes(s, e, at.entries, graph) && Done(c) == Rework(s, b, e, graph, at);
      ReworkKeeps(s, b, e, graph, at);
      ReworkRecords(s, b, e, graph, at);
      AnalyzesGraph(s, e, at.entries, graph);
      if graph.Ok? {
        ReworkOfCalm(s, b, e, graph.value, at);
      } else {
        DroppedKeepsExtent(s, b, e, graph.code, at);
      }
      MovingKeepsCalm(b, c, e);
    }
  }

  lemma DroppedKeepsExtent(s: Setting, b: Book, e: Address, code: ErrorCode, at: Knowledge)
    requires e in b.records && Rework(s, b, e, Err(code), at).Done?
    ensures AddsNothing(b, Rework(s, b, e, Err(code), at).value)
  {
    assert b.records.Keys + {e} == b.records.Keys;
  }

  lemma NextVisitKeepsCalm(s: Setting, start: Book, b: Book, cursor: Address, c: Book)
    requires IsFit(s) && InPass(s, start, b, cursor) && Calm(b) && AddsNothing(start, b)
    requires VisitsNext(s, b, start.Knows(), cursor, Done(c))
    ensures Calm(c) && AddsNothing(start, c)
  {
    hide Calm, Visits, Sound, IsFit, IsBasis, InPass, Grown;
    InPassIsSound(s, start, b, cursor);
    NextIsLeast(b, cursor);
    VisitKeepsCalm(s, b, start.Knows(), Least(Later(b.records, cursor)), c);
  }

  lemma SameAsBefore(b: Book)
    ensures AddsNothing(b, b)
  {
  }

  lemma {:induction false} VisitsKeepCalm(s: Setting, start: Book, n: nat, b: Book, cursor: Address)
    requires IsFit(s) && Sound(s, start, None) && Calm(start) && VisitsTo(s, start, start.Knows(), n, b, cursor)
    ensures Calm(b) && AddsNothing(start, b)
  {
    hide Calm, Visits, Sound, IsFit, InPass, AddsNothing;
    if n == 0 {
      SameAsBefore(start);
    } else {
      var m, c :| VisitsTo(s, start, start.Knows(), n - 1, m, c) && VisitsNext(s, m, start.Knows(), c, Done(b))
                  && cursor == Least(Later(m.records, c));
      VisitsKeepCalm(s, start, n - 1, m, c);
      VisitsKeepPass(s, start, n - 1, m, c);
      NextVisitKeepsCalm(s, start, m, c, b);
    }
  }

  lemma InPassIsSound(s: Setting, start: Book, b: Book, cursor: Address)
    requires InPass(s, start, b, cursor)
    ensures Sound(s, b, None) && IsBasis(s, b.boundaries, start.Knows()) && Grown(start, b)
  {
  }

  // The end of a pass.

  ghost predicate AllRest(b: Book, at: Knowledge) { forall x {:trigger RestsOn(b, x, at)} :: RestsOn(b, x, at) }

  ghost predicate AllSettled(b: Book, at: Knowledge) {
    forall x {:trigger RestsOrIsKept(b, x, at)} :: RestsOrIsKept(b, x, at)
  }

  /** A pass gets to a function that asks for more than a budget allows. */
  ghost predicate PassRunsOut(s: Setting, start: Book, d: BudgetDimension) {
    exists n, b, cursor ::
      VisitsTo(s, start, start.Knows(), n, b, cursor) && Later(b.records, cursor) != {}
      && StepRunsOut(s, b, Least(Later(b.records, cursor)), start.known, d)
  }

  /** What a pass gives. */
  ghost predicate PassGives(s: Setting, start: Book, o: Outcome<Book>) {
    match o
    case Done(c) =>
      && Sound(s, c, None) && Grown(start, c.(passes := start.passes)) && c.passes == start.passes + 1
      && (start.checkpoints == map[] ==> AllRest(c, start.Knows()))
      && (!Changed(start, c) ==> c.Knows() == start.Knows() && AllSettled(c, start.Knows()))
      && (Calm(start) ==> Calm(c) && !Changed(start, c))
    case OverBudget(d) => PassRunsOut(s, start, d)
    case Fault(code) => MayFault(s, code)
  }

  lemma AllAreBehind(b: Book, at: Knowledge, cursor: Address)
    requires Later(b.records, cursor) == {}
    ensures AllRestUpTo(b, at, cursor) ==> AllRest(b, at)
    ensures AllSettledUpTo(b, at, cursor) ==> AllSettled(b, at)
  {
    hide MayKeep;
    forall x
      ensures x <= cursor || x !in b.records
    {
      assert x !in Later(b.records, cursor);
    }
    forall x | AllRestUpTo(b, at, cursor)
      ensures RestsOn(b, x, at)
    {
      assert x <= cursor ==> RestsOn(b, x, at);
    }
    forall x | AllSettledUpTo(b, at, cursor)
      ensures RestsOrIsKept(b, x, at)
    {
      assert x <= cursor ==> RestsOrIsKept(b, x, at);
    }
  }

  lemma EndKeeps(b: Book, c: Book, at: Knowledge)
    requires c == b.(pending := c.pending, passes := c.passes)
    ensures AllRest(b, at) ==> AllRest(c, at)
    ensures AllSettled(b, at) ==> AllSettled(c, at)
    ensures Calm(b) ==> Calm(c)
  {
    hide MayKeep;
    forall x
      ensures RestsOn(b, x, at) ==> RestsOn(c, x, at)
      ensures RestsOrIsKept(b, x, at) ==> RestsOrIsKept(c, x, at)
    {
    }
  }

  /** The boundaries only grow, so their number tells whether there is a new one. */
  lemma SameNumberSameKnowledge(s: Setting, start: Book, c: Book)
    requires Sound(s, start, None) && Sound(s, c, None) && start.boundaries <= c.boundaries
    requires |c.boundaries| == |start.boundaries|
    ensures c.boundaries == start.boundaries && c.Knows() == start.Knows()
  {
    hide Proper, Recalled, CheckpointsCount, Closed, AllCallable, KnownBy;
  }

  lemma PassIsSound(s: Setting, start: Book, o: Outcome<Book>)
    requires IsFit(s) && Sound(s, start, None) && RunsPass(s, start, o)
    ensures PassGives(s, start, o)
  {
    hide Sound, IsFit, InPass, VisitsTo, VisitsNext, StepRunsOut, MayFault, Calm, AllRest, AllSettled;
    var n, b, cursor :| VisitsTo(s, start, start.Knows(), n, b, cursor)
      && if Later(b.records, cursor) == {} then o == Done(b.(pending := {}, passes := b.passes + 1))
         else o.IsFailure() && VisitsNext(s, b, start.Knows(), cursor, o);
    VisitsKeepPass(s, start, n, b, cursor);
    if Later(b.records, cursor) == {} {
      PassEnds(s, start, b, cursor);
      if Calm(start) {
        VisitsKeepCalm(s, start, n, b, cursor);
        EndKeeps(b, o.value, start.Knows());
      }
    } else {
      VisitKeepsPass(s, start, b, cursor, o);
      assert o.OverBudget? ==> StepRunsOut(s, b, Least(Later(b.records, cursor)), start.known, o.dimension);
    }
  }

  lemma PassEnds(s: Setting, start: Book, b: Book, cursor: Address)
    requires Sound(s, start, None) && InPass(s, start, b, cursor) && Later(b.records, cursor) == {}
    ensures
      var c := b.(pending := {}, passes := b.passes + 1);
      && Sound(s, c, None) && Grown(start, c.(passes := start.passes)) && c.passes == start.passes + 1
      && (start.checkpoints == map[] ==> AllRest(c, start.Knows()))
      && (!Changed(start, c) ==> c.Knows() == start.Knows() && AllSettled(c, start.Knows()))
  {
    hide Sound, AllRestUpTo, AllSettledUpTo, AllRest, AllSettled;
    var c := b.(pending := {}, passes := b.passes + 1);
    TakingKeepsSound(s, b, {}, b.processed, b.passes + 1);
    AllAreBehind(b, start.Knows(), cursor);
    EndKeeps(b, c, start.Knows());
    if !Changed(start, c) {
      SameNumberSameKnowledge(s, start, c);
    }
  }

  // Several passes.

  /** Finalization gets to a pass that asks for more than a budget allows. */
  ghost predicate FinalizationRunsOut(s: Setting, start: Book, d: BudgetDimension) {
    exists n, b :: PassesTo(s, start, n, b) && PassRunsOut(s, b, d)
  }

  /** What finalization gives: the last pass added nothing to what its analyses knew, and every graph rests
      on that or was kept by the test; after a single pass, and so in a calm build, every graph rests on it. */
  ghost predicate FinalizationGives(s: Setting, start: Book, o: Outcome<Book>) {
    match o
    case Done(c) =>
      && Sound(s, c, None) && Grown(start, c.(passes := start.passes)) && start.passes < c.passes
      && AllSettled(c, c.Knows())
      && (start.checkpoints == map[] && c.passes == start.passes + 1 ==> AllRest(c, c.Knows()))
      && (Calm(start) ==> Calm(c) && c.passes == start.passes + 1)
    case OverBudget(d) => FinalizationRunsOut(s, start, d) || (d.FinalizationPasses? && !Calm(start))
    case Fault(code) => MayFault(s, code)
  }

  lemma {:induction false} PassesKeepSound(s: Setting, start: Book, n: nat, b: Book)
    requires IsFit(s) && Sound(s, start, None) && PassesTo(s, start, n, b)
    ensures Sound(s, b, None) && Grown(start, b.(passes := start.passes)) && b.passes == start.passes + n
    ensures n > 0 ==> !Calm(start)
  {
    hide Sound, IsFit, RunsPass, Calm, AllRest, AllSettled, Grown;
    if n > 0 {
      var m :| PassesTo(s, start, n - 1, m) && RunsPass(s, m, Done(b)) && Changed(m, b) && b.passes != s.budgets.maxPasses;
      PassesKeepSound(s, start, n - 1, m);
      PassIsSound(s, m, Done(b));
      GrownPast(start, m, b);
    } else {
      GrownItself(start);
    }
  }

  lemma FinalizationIsSound(s: Setting, start: Book, o: Outcome<Book>)
    requires IsFit(s) && Sound(s, start, None) && Finalizes(s, start, o)
    ensures FinalizationGives(s, start, o)
  {
    hide Sound, IsFit, RunsPass, PassesTo, Calm, AllRest, AllSettled, PassRunsOut, MayFault, Grown;
    var n, b, last :| PassesTo(s, start, n, b) && RunsPass(s, b, last)
      && if last.Done? && Changed(b, last.value)
         then last.value.passes == s.budgets.maxPasses && o == OverBudget(FinalizationPasses)
         else o == last;
    PassesKeepSound(s, start, n, b);
    PassIsSound(s, b, last);
    if last.Done? {
      GrownPast(start, b, last.value);
    }
    if n == 0 {
      assert b == start by {
        NoPass(s, start, b);
      }
    }
  }

  lemma NoPass(s: Setting, start: Book, b: Book)
    requires PassesTo(s, start, 0, b)
    ensures b == start
  {
  }

  // The whole run.

  ghost predicate NothingIncluded(s: Setting) {
    forall k :: 0 <= k < |s.input.seeds| ==> !s.options.Includes(s.input.seeds[k])
  }

  /** What has to be true of the seeds for seeding to fail with the code. */
  ghost predicate SeedingFaults(s: Setting, code: ErrorCode) {
    || (code == InvalidGuestAddress && HasBadSeed(s))
    || (code == (if s.options.closureRoots == None then InvalidArgument else AnalysisScopeViolation) && NothingIncluded(s))
  }

  /** A run gets to a seed, or to a function in discovery or in a pass, that asks for more than a budget allows. */
  ghost predicate SettlingRunsOut(s: Setting, d: BudgetDimension) {
    || SeedingRunsOut(s, d)
    || (Seeded(s).Done? && DiscoveryRunsOut(s, Seeded(s).value, d))
    || exists b :: IsDiscovered(s, b) && FinalizationRunsOut(s, b, d)
  }

  /** The state in which a run of discovery ends. */
  ghost predicate IsDiscovered(s: Setting, b: Book) { Seeded(s).Done? && Discovers(s, Seeded(s).value, Done(b)) }

  /** What seeding, discovery and finalization give. */
  ghost predicate SettlingGives(s: Setting, o: Outcome<Book>) {
    match o
    case Done(b) =>
      && Sound(s, b, None) && SeedsAreRecorded(s, b.records, |s.input.seeds|) && Rated(s, b)
      && b.passes > 0 && AllSettled(b, b.Knows())
      && (b.passes == 1 ==> AllRest(b, b.Knows()))
      && (Confined(s.input, s.limits) ==> b.passes == 1 && Calm(b))
    case OverBudget(d) => SettlingRunsOut(s, d) || (d.FinalizationPasses? && !Confined(s.input, s.limits))
    case Fault(code) => SeedingFaults(s, code) || MayFault(s, code)
  }

  lemma SeededGives(s: Setting)
    requires IsFit(s)
    ensures
      match Seeded(s)
      case Done(b) => Discovering(s, b, [], 0) && SeedsAreRecorded(s, b.records, |s.input.seeds|) && Rated(s, b)
      case OverBudget(d) => SeedingRunsOut(s, d)
      case Fault(code) => SeedingFaults(s, code)
  {
    hide AddSeeds, SeededTo, IsFit, SeedingRunsOut, HasBadSeed, Discovering, Rated;
    SeedingIsSound(s, |s.input.seeds|);
    var o := AddSeeds(s, |s.input.seeds|);
    if o.Done? {
      SeededIsDiscovering(s, o.value);
      SeedsStand(s, o.value);
      SeededIsRated(s, o.value);
    }
  }

  lemma SeedsStand(s: Setting, b: Book)
    requires SeededTo(s, b, |s.input.seeds|)
    ensures SeedsAreRecorded(s, b.records, |s.input.seeds|)
    ensures b.records == map[] ==> NothingIncluded(s)
  {
    hide Proper, Counted, AllNew, AllCallable, SeededEntries;
  }

  lemma SeedsStay(s: Setting, b: Book, c: Book)
    requires SeedsAreRecorded(s, b.records, |s.input.seeds|) && Rated(s, b) && Grown(b, c)
    ensures SeedsAreRecorded(s, c.records, |s.input.seeds|) && Rated(s, c)
  {
    hide Rated, IsRatedByCall, SameEvidence, IsCallee;
    RatedStays(s, b, c);
  }

  lemma PassesRateNothing(s: Setting, b: Book, passes: nat)
    requires Rated(s, b.(passes := passes))
    ensures Rated(s, b)
  {
    hide IsRated, SeedIsFor;
  }

  lemma DiscoveredIsCalm(s: Setting, b: Book)
    requires Discovering(s, b, [], 0) && NoneWaiting(b.records) && Confined(s.input, s.limits)
    ensures Calm(b)
  {
    hide Sound, Waiting, Balanced;
  }

  /** What holds of the end of every build. */
  lemma SettlingIsSound(s: Setting, o: Outcome<Book>)
    requires IsFit(s) && Settles(s, o)
    ensures SettlingGives(s, o)
  {
    hide Seeded, Discovers, Finalizes, Discovering, IsFit, SeedingRunsOut, DiscoveryRunsOut, FinalizationRunsOut, MayFault,
         HasBadSeed, NothingIncluded, Rated;
    SeededGives(s);
    var start := Seeded(s);
    if start.Done? {
      var d :| Discovers(s, start.value, d) && if d.IsFailure() then o == d else Finalizes(s, d.value, o);
      DiscoveryIsSound(s, start.value, d);
      if d.Done? {
        assert IsDiscovered(s, d.value);
        FinalizedGives(s, start.value, d.value, o);
      }
    }
  }

  lemma FinalizedGives(s: Setting, start: Book, d: Book, o: Outcome<Book>)
    requires IsFit(s) && Discovering(s, d, [], 0) && NoneWaiting(d.records) && Grown(start, d) && Finalizes(s, d, o)
    requires SeedsAreRecorded(s, start.records, |s.input.seeds|) && Rated(s, start) && IsDiscovered(s, d)
    ensures SettlingGives(s, o)
  {
    hide Finalizes, Discovering, IsFit, Sound, FinalizationRunsOut, SeedingRunsOut, DiscoveryRunsOut, MayFault, AllSettled,
         AllRest, SeedsAreRecorded, Calm, IsDiscovered, Rated;
    DiscoveringIsSound(s, d);
    if Confined(s.input, s.limits) {
      DiscoveredIsCalm(s, d);
    }
    FinalizationIsSound(s, d, o);
    if o.Done? {
      SeedsStay(s, start, d);
      SeedsStay(s, d, o.value.(passes := d.passes));
      PassesRateNothing(s, o.value, d.passes);
    }
  }

  // Which budgets can run out.

  /** Passes are no budget of a step, and the functions are one only below the structural bound. */
  ghost predicate IsBudget(s: Setting, d: BudgetDimension) {
    !d.FinalizationPasses? && (d.Functions? ==> s.budgets.maxFunctions < Capacity(s.input.executable))
  }

  lemma StepsHaveBudgets(s: Setting, b: Book, e: Address, at: set<Address>, d: BudgetDimension)
    requires StepRunsOut(s, b, e, at, d)
    ensures IsBudget(s, d)
  {
    hide Capacity, GraphIsFrom, Problem.FailureCause, Ownable, TargetsOf, InRangeOf, Consumed;
  }

  lemma SeedsHaveBudgets(s: Setting, d: BudgetDimension)
    requires SeedingRunsOut(s, d)
    ensures IsBudget(s, d)
  {
    hide Capacity, AddSeeds, Counted;
  }

  lemma RoundsHaveBudgets(s: Setting, start: Book, d: BudgetDimension)
    requires DiscoveryRunsOut(s, start, d)
    ensures IsBudget(s, d)
  {
    hide WavesTo, StepRunsOut, ProcessWave, Analyzes, IsBudget, NextWave;
    var n, b :| WavesTo(s, start, n, b) && RoundRunsOut(s, b, d);
    var w := NextWave(s, b);
    var graphs, i :| AnalyzesWave(s, w.entries, b.known, graphs) && 0 <= i < |w.entries|
                     && WaveRunsOut(s, AfterTaking(s, b), w.entries, graphs, b.Knows(), i, d);
    StepsHaveBudgets(s, ProcessWave(s, AfterTaking(s, b), w.entries[..i], graphs[..i], b.Knows()).value, w.entries[i], b.known, d);
  }

  lemma PassesHaveBudgets(s: Setting, start: Book, d: BudgetDimension)
    requires FinalizationRunsOut(s, start, d)
    ensures IsBudget(s, d)
  {
    hide PassesTo, VisitsTo, StepRunsOut, IsBudget;
    var n, m :| PassesTo(s, start, n, m) && PassRunsOut(s, m, d);
    var k, b, cursor :|
      VisitsTo(s, m, m.Knows(), k, b, cursor) && Later(b.records, cursor) != {}
      && StepRunsOut(s, b, Least(Later(b.records, cursor)), m.known, d);
    StepsHaveBudgets(s, b, Least(Later(b.records, cursor)), m.known, d);
  }

  lemma RunningOutHasBudgets(s: Setting, d: BudgetDimension)
    requires SettlingRunsOut(s, d)
    ensures IsBudget(s, d)
  {
    hide SeedingRunsOut, DiscoveryRunsOut, FinalizationRunsOut, IsBudget, Seeded, IsDiscovered;
    if SeedingRunsOut(s, d) {
      SeedsHaveBudgets(s, d);
    } else if Seeded(s).Done? && DiscoveryRunsOut(s, Seeded(s).value, d) {
      RoundsHaveBudgets(s, Seeded(s).value, d);
    } else {
      var b :| IsDiscovered(s, b) && FinalizationRunsOut(s, b, d);
      PassesHaveBudgets(s, b, d);
    }
  }

  /** The graphs a finished build leaves stale: exactly those of functions that branch to a boundary which
      their graph did not know and their checkpoint counts, or which lies outside the range of the analyses. */
  lemma StaleExactly(s: Setting, b: Book, e: Address)
    requires IsFit(s) && Sound(s, b, None) && AllSettled(b, b.Knows())
    requires e in b.records && b.records[e].cfg.Some?
    ensures !GraphIsFrom(s, e, b.records[e].cfg.value, b.known) <==> Misses(s, b, e, |b.boundaries|)
  {
    assert RestsOrIsKept(b, e, b.Knows());
    SoundKnows(s, b);
    if MayKeep(b.records[e], e, b.boundaries, b.checkpoints) {
      KeptRecord(s, b, e);
      KeptIsStaleExactly(s, b, e, |b.boundaries|);
    } else {
      hide GraphIsFrom, IsBasis, MayKeep;
      assert IsRecalled(s, b.boundaries, b.basis, e, b.records[e]);
    }
  }

  lemma RestingIsCurrent(s: Setting, b: Book, e: Address)
    requires Sound(s, b, None) && AllRest(b, b.Knows()) && e in b.records && b.records[e].cfg.Some?
    ensures GraphIsFrom(s, e, b.records[e].cfg.value, b.known)
  {
    hide GraphIsFrom, IsBasis;
    assert RestsOn(b, e, b.Knows());
    assert IsRecalled(s, b.boundaries, b.basis, e, b.records[e]);
  }

  // Counting the visits of a pass.

  lemma PassIsCounted(s: Setting, start: Book, b: Book, cursor: Address)
    requires InPass(s, start, b, cursor)
    ensures |b.records| <= s.budgets.maxFunctions
  {
    hide Proper, Traced, Recalled, CheckpointsCount, Closed, AllCallable, IsBasis, Grown;
  }

  /** The keys already visited are recorded, and none lies beyond the cursor. */
  ghost predicate Behind(records: map<Address, FunctionRecord>, visited: set<Address>, cursor: Address) {
    forall x :: x in visited ==> x in records && x <= cursor
  }

  lemma VisitedMore(b: Book, c: Book, visited: set<Address>, cursor: Address, e: Address)
    requires Behind(b.records, visited, cursor) && Moves(b, c, e) && cursor < e
    ensures Behind(c.records, visited + {e}, e) && |visited + {e}| == |visited| + 1
  {
    hide SameFunction;
  }

  lemma VisitedAreFew(records: map<Address, FunctionRecord>, visited: set<Address>, cursor: Address)
    requires Behind(records, visited, cursor)
    ensures |visited| <= |records|
  {
    forall x | x in visited
      ensures x in records.Keys
    {
    }
    SubsetIsSmaller(visited, records.Keys);
  }

  lemma PassStarts(s: Setting, start: Book)
    requires Sound(s, start, None)
    ensures VisitsTo(s, start, start.Knows(), 0, start, -1) && InPass(s, start, start, -1)
    ensures Behind(start.records, {}, -1)
  {
    hide Sound, InPass;
    PassBegins(s, start);
  }

  lemma VisitsOnce(s: Setting, start: Book, n: nat, b: Book, cursor: Address, c: Book)
    requires VisitsTo(s, start, start.Knows(), n, b, cursor) && VisitsNext(s, b, start.Knows(), cursor, Done(c))
    ensures Later(b.records, cursor) != {}
    ensures VisitsTo(s, start, start.Knows(), n + 1, c, Least(Later(b.records, cursor)))
  {
    hide Visits;
  }

  lemma PassRuns(s: Setting, start: Book, n: nat, b: Book, cursor: Address, o: Outcome<Book>)
    requires VisitsTo(s, start, start.Knows(), n, b, cursor)
    requires if Later(b.records, cursor) == {} then o == Done(b.(pending := {}, passes := b.passes + 1))
             else o.IsFailure() && VisitsNext(s, b, start.Knows(), cursor, o)
    ensures RunsPass(s, start, o)
  {
    hide VisitsTo, VisitsNext;
  }

  /** The function needs no new analysis: it has failed without a graph, or is analyzed and no boundary found since
      its checkpoint lies in its code. */
  ghost predicate IsLeft(b: Book, e: Address)
    requires e in b.records
  {
    var f := b.records[e];
    || (f.cfg == None && f.status != Discovered)
    || (f.cfg != None && f.status == Analyzed && e in b.checkpoints
        && forall k :: b.checkpoints[e] <= k < |b.boundaries| ==> !InOneRange(f.ranges, b.boundaries[k], b.boundaries[k] + 4))
  }

  lemma PassesOverExactly(b: Book, e: Address)
    requires e in b.records
    ensures PassesOver(b, e) <==> IsLeft(b, e)
  {
    forall x
      ensures ContainsAny(b.records[e].ranges, x, 4) <==> InOneRange(b.records[e].ranges, x, x + 4)
    {
      ContainsExactly(b.records[e].ranges, x, 4);
    }
    hide ContainsAny, InOneRange;
  }

  /** What one visit does to the record itself: a function that is passed over stays, and its graph is stale
      exactly when the function misses a boundary; a new graph rests on `at`, and the checkpoint of a function
      that owns its graph counts the boundaries found before its own calls are followed up. */
  ghost predicate VisitRecords(s: Setting, b: Book, at: Knowledge, e: Address, c: Book)
    requires e in b.records
  {
    && e in c.records
    && if IsLeft(b, e) then
         && c == b
         && (b.records[e].cfg.Some? ==>
               (!GraphIsFrom(s, e, b.records[e].cfg.value, b.known) <==> Misses(s, b, e, |b.boundaries|)))
       else
         && c.basis == b.basis[e := at]
         && c.checkpoints == if c.records[e].status.Analyzed? then b.checkpoints[e := |b.boundaries|] else b.checkpoints
  }

  lemma VisitIsRecorded(s: Setting, b: Book, at: Knowledge, e: Address, c: Book)
    requires IsFit(s) && Sound(s, b, None) && IsBasis(s, b.boundaries, at) && e in b.records
    requires Visits(s, b, at, e, Done(c))
    ensures VisitRecords(s, b, at, e, c)
  {
    hide Sound, IsFit, IsBasis, Analyzes, Rework, MayKeep, GraphIsFrom, Misses, KnownBy;
    PassesOverExactly(b, e);
    hide IsLeft;
    if PassesOver(b, e) {
      if MayKeep(b.records[e], e, b.boundaries, b.checkpoints) {
        KeptRecord(s, b, e);
        SoundKnows(s, b);
        BasisIs(s, b, e);
        KeptIsStaleExactly(s, b, e, |b.boundaries|);
      }
    } else {
      var graph :| Analyzes(s, e, at.entries, graph) && Done(c) == Rework(s, b, e, graph, at);
      ReworkRecords(s, b, e, graph, at);
    }
  }

  lemma BasisIs(s: Setting, b: Book, e: Address)
    requires IsBasis(s, b.boundaries, b.Knows()) && e in b.basis && IsBasis(s, b.boundaries, b.basis[e])
    ensures b.known == KnownBy(s, b.boundaries, |b.boundaries|) && b.basis[e].count <= |b.boundaries|
  {
    hide KnownBy;
  }

  lemma FinalizedSettles(s: Setting, start: Book, d: Book, o: Outcome<Book>)
    requires Seeded(s) == Done(start) && Discovers(s, start, Done(d)) && Finalizes(s, d, o)
    ensures Settles(s, o)
  {
    hide Seeded, Discovers, Finalizes;
    var discovered: Outcome<Book> := Done(d);
    assert Discovers(s, Seeded(s).value, discovered);
  }
}
