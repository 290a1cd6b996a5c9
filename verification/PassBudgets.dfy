/** When a finalization pass that finds nothing new stays within the budgets: an exact condition on the state
    before it. */
module PassBudgets {
  import opened Common
  import opened ControlFlow
  import opened CfgTheorems
  import opened FunctionRecords
  import opened FunctionDiscovery
  import opened FreshGraphs
  import opened BuildSteps
  import opened BuildInvariant
  import opened BuildAccounts
  import opened BuildRuns
  import opened Finalization

  // Two analyses of one function that know the same entries.

  /** A graph and a failure, limits apart, exclude each other. */
  lemma NotBoth(s: Setting, e: Address, g: Graph, at: set<Address>)
    requires GraphIsFrom(s, e, g, at)
    ensures !FailsFor(s, e, at)
  {
    var p := s.ProblemAt(e, at);
    hide Problem.IsAnalysis, Problem.Reaches, Problem.StepError, Problem.TransfersTo, Problem.FailureCause, Problem.EntryError;
    forall a | p.Reaches(a)
      ensures p.StepError(a).None? && !p.TransfersTo(a, p.Starts())
    {
      StaysOutside(p, g, a);
    }
    forall code | CfgBudgetDimension(code).None?
      ensures !p.FailureCause(code)
    {
      NothingToBlame(p, code);
    }
  }

  lemma NothingToBlame(p: Problem, code: ErrorCode)
    requires p.EntryError().None? && CfgBudgetDimension(code).None?
    requires forall a :: p.Reaches(a) ==> p.StepError(a).None? && !p.TransfersTo(a, p.Starts())
    ensures !p.FailureCause(code)
  {
    hide Problem.Reaches, Problem.StartsBlock, Problem.StepError, Problem.TransfersTo, Problem.EntryError, MoreThan;
  }

  lemma StaysOutside(p: Problem, g: Graph, a: Address)
    requires p.IsAnalysis(g) && p.Reaches(a)
    ensures p.StepError(a).None? && !p.TransfersTo(a, p.Starts())
  {
    var i := p.guest.fetch(a);
    if i.Ok? && p.IsTransfer(i.value) {
      var s := DiverterIsLast(p, g, a);
      assert g.blocks[s].successors == p.Edges(i.value) by {
        EdgesOfBlock(p, g, s);
      }
      assert g.blocks[s].successors[0].target in TransferTargets(g);
    }
  }

  lemma SameAddressesSameOwner(g: Graph, h: Graph, executable: seq<Range>)
    requires Addresses(g) == Addresses(h) && Ownable(g, executable)
    ensures Ownable(h, executable)
  {
    hide Describes, Fits, RangesOf;
    LessIsOwnable(g, h, executable);
  }

  lemma SameCalls(p: Problem, g: Graph, h: Graph)
    requires p.IsAnalysis(g) && p.IsAnalysis(h)
    ensures forall t :: t in TargetsOf(g) <==> t in TargetsOf(h)
  {
    hide Problem.IsAnalysis, TargetsOf, CallsDirectly, CallsFrom;
    forall t
      ensures t in TargetsOf(g) <==> t in TargetsOf(h)
    {
      TargetIsCalled(g, t);
      TargetIsCalled(h, t);
      CallsAreReached(p, g, t);
      CallsAreReached(p, h, t);
    }
  }

  lemma SameWork(p: Problem, g: Graph, h: Graph, u: Usage)
    requires p.guest.FetchesCode() && p.IsAnalysis(g) && p.IsAnalysis(h)
    ensures Consumed(u, g) == Consumed(u, h) && Addresses(g) == Addresses(h)
  {
    hide Problem.IsAnalysis, GuestView.FetchesCode;
    CanonicalResult(p, p, g, h);
    assert |g.unresolved| == |multiset(g.unresolved)| == |multiset(h.unresolved)| == |h.unresolved|;
  }

  /** The work, the code and the calls of a function do not depend on the order of an analysis. */
  lemma SameAnalysis(s: Setting, e: Address, g: Graph, h: Graph, at: set<Address>, u: Usage)
    requires s.input.guest.FetchesCode() && GraphIsFrom(s, e, g, at) && GraphIsFrom(s, e, h, at)
    ensures Consumed(u, g) == Consumed(u, h)
    ensures Ownable(g, s.input.executable) <==> Ownable(h, s.input.executable)
    ensures forall t :: t in TargetsOf(g) <==> t in TargetsOf(h)
  {
    var p := s.ProblemAt(e, at);
    FromAnalysis(s, e, g, at);
    FromAnalysis(s, e, h, at);
    hide GraphIsFrom, Problem.IsAnalysis, Consumed, Ownable, TargetsOf, GuestView.FetchesCode;
    SameWork(p, g, h, u);
    SameCalls(p, g, h);
    if Ownable(g, s.input.executable) {
      SameAddressesSameOwner(g, h, s.input.executable);
    } else if Ownable(h, s.input.executable) {
      SameAddressesSameOwner(h, g, s.input.executable);
    }
  }

  // What is due in a pass.

  ghost predicate HasGraph(s: Setting, e: Address, known: set<Address>) { exists g :: GraphIsFrom(s, e, g, known) }

  ghost function GraphAt(s: Setting, e: Address, known: set<Address>): (g: Graph)
    requires HasGraph(s, e, known)
    ensures GraphIsFrom(s, e, g, known)
  {
    var g :| GraphIsFrom(s, e, g, known);
    g
  }

  /** The function's graph for the known entries can be owned and calls `t` directly. */
  ghost predicate CallsAfresh(s: Setting, e: Address, known: set<Address>, t: Address) {
    exists g :: GraphIsFrom(s, e, g, known) && Ownable(g, s.input.executable) && t in TargetsOf(g)
  }

  ghost predicate SomeCalls(s: Setting, part: set<Address>, known: set<Address>, t: Address) {
    exists e :: e in part && CallsAfresh(s, e, known, t)
  }

  /** The functions that a pass works on again. */
  function ToDo(b: Book): set<Address> { set e | e in b.records && !PassesOver(b, e) }

  /** Those of them that it has visited when the iterator stands at `cursor`. */
  function Redone(b: Book, cursor: Address): set<Address> { set e | e in ToDo(b) && e <= cursor }

  ghost function GraphsAt(s: Setting, known: set<Address>, part: set<Address>): map<Address, Graph> {
    map e | e in part && HasGraph(s, e, known) :: GraphAt(s, e, known)
  }

  /** The consumed work after the functions in `part` have been analyzed for the known entries. */
  ghost function WorkAfter(s: Setting, b: Book, part: set<Address>): Usage {
    Plus(b.usage, Total(GraphsAt(s, b.known, part)))
  }

  function Plus(u: Usage, v: Usage): Usage {
    Usage(u.instructions + v.instructions, u.blocks + v.blocks, u.edges + v.edges, u.bytes + v.bytes)
  }

  /** The recorded functions that the functions in `part` call within the executable ranges. */
  ghost function CalledBy(s: Setting, b: Book, part: set<Address>): set<Address> {
    set t | t in b.records && s.input.InRange(t) && SomeCalls(s, part, b.known, t)
  }

  /** The pass stays within the budgets. */
  ghost predicate PassFits(s: Setting, b: Book) {
    && b.seedCount + |CalledBy(s, b, ToDo(b))| <= s.budgets.maxSeeds
    && Affordable(WorkAfter(s, b, ToDo(b)), s.budgets)
  }

  /** The pass asks for more than the budget allows. */
  ghost predicate PassExceeds(s: Setting, b: Book, d: BudgetDimension) {
    || (d.Seeds? && b.seedCount + |CalledBy(s, b, ToDo(b))| > s.budgets.maxSeeds)
    || Exceeds(WorkAfter(s, b, ToDo(b)), s.budgets, d)
  }

  /** A single analysis of the pass can meet a limit that stands for the budget. */
  ghost predicate PassMeetsLimit(s: Setting, b: Book, d: BudgetDimension) {
    exists e :: e in ToDo(b) && LimitBinds(s, e, b.known, d)
  }

  lemma FitsExactly(s: Setting, b: Book)
    ensures PassFits(s, b) <==> forall d :: !PassExceeds(s, b, d)
  {
    hide CalledBy, WorkAfter, ToDo;
    assert PassExceeds(s, b, Instructions) || PassExceeds(s, b, Blocks) || PassExceeds(s, b, Edges)
           || PassExceeds(s, b, BytesAnalyzed) || PassExceeds(s, b, Seeds) || PassFits(s, b);
  }

  // States in which a pass finds nothing new.

  /** The function's graph for the known entries calls nothing that is not known. */
  ghost predicate FindsNothing(s: Setting, b: Book, e: Address) {
    forall g :: GraphIsFrom(s, e, g, b.known) && Ownable(g, s.input.executable) ==> CallsAreKnown(s, b, TargetsOf(g))
  }

  /** No function waits to be analyzed, and none finds anything new. */
  ghost predicate Still(s: Setting, b: Book) {
    NoneWaiting(b.records) && forall e :: e in b.records && b.records[e].cfg.Some? ==> FindsNothing(s, b, e)
  }

  lemma BasisIsKnown(s: Setting, b: Book, at: Knowledge)
    requires Sound(s, b, None) && IsBasis(s, b.boundaries, at)
    ensures at.entries <= b.known
  {
    hide Proper, Counted, Recalled, CheckpointsCount, Closed, AllCallable;
    KnownGrows(s, b.boundaries, at.count, |b.boundaries|);
  }

  lemma CalmFindsNothing(s: Setting, b: Book, e: Address)
    requires IsFit(s) && Sound(s, b, None) && Calm(b) && e in b.records && b.records[e].cfg.Some?
    ensures FindsNothing(s, b, e)
  {
    hide Sound, IsFit, Ownable, GraphIsFrom, TargetsOf, Calm, IsBasis, CallsAreKnown, GuestView.FetchesCode;
    FitFetchesCode(s);
    CalmRecord(s, b, e);
    BasisIsKnown(s, b, b.basis[e]);
    forall h | GraphIsFrom(s, e, h, b.known) && Ownable(h, s.input.executable)
      ensures CallsAreKnown(s, b, TargetsOf(h))
    {
      LaterIsLess(s, e, b.records[e].cfg.value, h, b.basis[e].entries, b.known);
      FewerAreKnown(s, b, TargetsOf(b.records[e].cfg.value), TargetsOf(h));
    }
  }

  lemma FewerAreKnown(s: Setting, b: Book, targets: seq<Address>, fewer: seq<Address>)
    requires CallsAreKnown(s, b, targets) && forall t :: t in fewer ==> t in targets
    ensures CallsAreKnown(s, b, fewer)
  {
    hide ModuleInput.InRange;
  }

  /** When no failed function keeps a graph, a pass finds nothing new. */
  lemma CalmIsStill(s: Setting, b: Book)
    requires IsFit(s) && Sound(s, b, None) && Calm(b)
    ensures Still(s, b)
  {
    hide Sound, IsFit, FindsNothing, FailuresAreBare;
    forall e | e in b.records && b.records[e].cfg.Some?
      ensures FindsNothing(s, b, e)
    {
      CalmFindsNothing(s, b, e);
    }
  }

  // One function of such a pass.

  /** What of the graph's calls is followed up: all in-range ones, when the graph can be owned. */
  ghost function Followed(s: Setting, g: Graph): set<Address> {
    if Ownable(g, s.input.executable) then InRangeOf(s, TargetsOf(g)) else {}
  }

  /** The graph has been charged and the calls followed up, and nothing new has been found. */
  ghost predicate IsRedone(s: Setting, b: Book, c: Book, g: Graph) {
    && AddsNothing(b, c) && c.usage == Consumed(b.usage, g) && c.pending == b.pending + Followed(s, g)
    && c.seedCount == b.seedCount + |Followed(s, g) - b.pending|
  }

  lemma RedoneOwned(s: Setting, b: Book, e: Address, g: Graph, at: Knowledge)
    requires IsFit(s) && Sound(s, b, None) && e in b.records && IsBasis(s, b.boundaries, at)
    requires GraphIsFrom(s, e, g, at.entries) && Ownable(g, s.input.executable) && CallsAreKnown(s, b, TargetsOf(g))
    ensures
      var o := Rework(s, b, e, Ok(g), at);
      !o.Fault? && (o.Done? ==> IsRedone(s, b, o.value, g))
  {
    var c := WithCheckpoint(b, e);
    assert IsBasis(s, c.boundaries, at) && at.count <= c.checkpoints[e] && c.records.Keys == b.records.Keys;
    assert AddsNothing(b, c) && c.usage == b.usage && c.pending == b.pending && c.seedCount == b.seedCount;
    hide *;
    OwnableHasRanges(g, s.input.executable);
    CheckpointKeepsSound(s, b, e);
    ReworkOwned(s, b, e, g, at);
    StoreIsStored(s, c, e, g, at);
    StoredKnows(s, b, c, TargetsOf(g));
    var stored := Store(s, c, e, g, at);
    if stored.Done? {
      StoredIsOpen(s, c, stored.value, e, g);
      StoredKeepsExtent(s, c, stored.value, e, g, at);
      StoredKnows(s, c, stored.value, TargetsOf(g));
      FollowedOwned(s, stored.value, e, g);
      RedoneIsFollowed(s, b, c, stored.value, g);
    }
  }

  lemma OwnableHasRanges(g: Graph, executable: seq<Range>)
    requires Ownable(g, executable)
    ensures RangesOf(g) != []
  {
    CodeIsDescribed(g);
  }

  lemma StoredIsOpen(s: Setting, b: Book, c: Book, e: Address, g: Graph)
    requires IsStored(s, b, c, e, g) && Ownable(g, s.input.executable)
    ensures Sound(s, c, Some(e))
  {
    hide Sound, Changes, Described, Ownable, TargetsOf;
  }

  lemma FollowedOwned(s: Setting, b: Book, e: Address, g: Graph)
    requires IsFit(s) && Sound(s, b, Some(e)) && CallsAreKnown(s, b, TargetsOf(g)) && Ownable(g, s.input.executable)
    ensures
      var o := AddCalls(s, b, TargetsOf(g));
      && !o.Fault?
      && (o.Done? ==>
            && AddsNothing(b, o.value) && o.value.usage == b.usage && o.value.pending == b.pending + Followed(s, g)
            && o.value.seedCount == b.seedCount + |Followed(s, g) - b.pending|)
  {
    hide Sound, IsFit, Ownable, TargetsOf, AddCalls, CallsAreKnown, InRangeOf;
    SoundIsReady(s, b, Some(e));
    KnownCallsAddNothing(s, b, TargetsOf(g));
    FollowingIsCharged(s, b, TargetsOf(g));
    KnownCallsAreEntries(s, b, TargetsOf(g));
  }

  lemma RedoneIsFollowed(s: Setting, b: Book, c: Book, d: Book, g: Graph)
    requires AddsNothing(b, c) && c.usage == b.usage && c.pending == b.pending && c.seedCount == b.seedCount
    requires AddsNothing(c, d) && d.usage == Consumed(c.usage, g) && d.pending == c.pending && d.seedCount == c.seedCount
    ensures
      var o := AddCalls(s, d, TargetsOf(g));
      o.Done? && AddsNothing(d, o.value) && o.value.usage == d.usage && o.value.pending == d.pending + Followed(s, g)
      && o.value.seedCount == d.seedCount + |Followed(s, g) - d.pending|
      ==> IsRedone(s, b, o.value, g)
  {
    hide AddCalls, Followed, Consumed, TargetsOf;
  }

  lemma StoredKeepsExtent(s: Setting, b: Book, c: Book, e: Address, g: Graph, at: Knowledge)
    requires e in b.records && Store(s, b, e, g, at) == Done(c)
    ensures AddsNothing(b, c) && c.usage == Consumed(b.usage, g) && c.pending == b.pending && c.seedCount == b.seedCount
  {
    hide Described, Consumed, Overrun;
    assert b.records.Keys + {e} == b.records.Keys;
  }

  lemma StoredKnows(s: Setting, b: Book, c: Book, targets: seq<Address>)
    requires CallsAreKnown(s, b, targets) && AddsNothing(b, c)
    ensures CallsAreKnown(s, c, targets)
  {
    hide ModuleInput.InRange;
    forall t | t in targets && s.input.InRange(t)
      ensures t in c.records && t in c.known
    {
      assert t in b.records.Keys;
    }
  }

  lemma KnownCallsAreEntries(s: Setting, b: Book, targets: seq<Address>)
    requires IsFit(s) && Proper(s, b.records) && Counted(s, b) && Traced(s, b.known, b.boundaries)
    requires CallsAreKnown(s, b, targets)
    ensures !AddCalls(s, b, targets).Fault?
  {
    AllAreEntries(s, b.records);
    hide IsFit, Proper, Counted, Traced, AddCalls, ModuleInput.IsEntry, ModuleInput.InRange;
    AddCallsExtends(s, b, targets);
  }

  lemma RedoneUnowned(s: Setting, b: Book, e: Address, g: Graph, at: Knowledge)
    requires e in b.records && !Ownable(g, s.input.executable)
    ensures
      var o := Rework(s, b, e, Ok(g), at);
      !o.Fault? && (o.Done? ==> IsRedone(s, b, o.value, g))
  {
    hide Ownable, Consumed, Overrun, AddCalls;
    assert b.records.Keys + {e} == b.records.Keys && b.pending + {} == b.pending && |{} - b.pending| == 0;
  }

  /** In a still state a second analysis only charges for its work and its calls. */
  lemma RedoneIs(s: Setting, b: Book, e: Address, g: Graph, at: Knowledge)
    requires IsFit(s) && Sound(s, b, None) && e in b.records && IsBasis(s, b.boundaries, at)
    requires GraphIsFrom(s, e, g, at.entries)
    requires Ownable(g, s.input.executable) ==> CallsAreKnown(s, b, TargetsOf(g))
    ensures
      var o := Rework(s, b, e, Ok(g), at);
      !o.Fault? && (o.Done? ==> IsRedone(s, b, o.value, g))
  {
    hide *;
    if Ownable(g, s.input.executable) {
      RedoneOwned(s, b, e, g, at);
    } else {
      RedoneUnowned(s, b, e, g, at);
    }
  }

  // What is due, function by function.

  lemma OneMoreGraph(s: Setting, known: set<Address>, part: set<Address>, e: Address)
    requires e !in part && HasGraph(s, e, known)
    ensures e !in GraphsAt(s, known, part)
    ensures GraphsAt(s, known, part + {e}) == GraphsAt(s, known, part)[e := GraphAt(s, e, known)]
  {
    hide HasGraph, GraphAt;
  }

  lemma NoMoreGraph(s: Setting, known: set<Address>, part: set<Address>, e: Address)
    requires !HasGraph(s, e, known)
    ensures GraphsAt(s, known, part + {e}) == GraphsAt(s, known, part)
  {
    hide HasGraph, GraphAt;
  }

  lemma PlusConsumed(u: Usage, v: Usage, g: Graph)
    ensures Plus(u, Consumed(v, g)) == Consumed(Plus(u, v), g)
  {
    hide EdgeCount;
  }

  /** The work grows by that of any graph of the function for the known entries. */
  lemma MoreWork(s: Setting, b: Book, part: set<Address>, e: Address, g: Graph)
    requires s.input.guest.FetchesCode() && e !in part && GraphIsFrom(s, e, g, b.known)
    ensures WorkAfter(s, b, part + {e}) == Consumed(WorkAfter(s, b, part), g)
  {
    hide GraphsAt, GraphIsFrom, Consumed, Plus, GuestView.FetchesCode;
    assert HasGraph(s, e, b.known);
    OneMoreGraph(s, b.known, part, e);
    var h := GraphAt(s, e, b.known);
    TotalAdds(GraphsAt(s, b.known, part), e, h);
    PlusConsumed(b.usage, Total(GraphsAt(s, b.known, part)), h);
    SameAnalysis(s, e, g, h, b.known, WorkAfter(s, b, part));
  }

  lemma NoMoreWork(s: Setting, b: Book, part: set<Address>, e: Address)
    requires !HasGraph(s, e, b.known)
    ensures WorkAfter(s, b, part + {e}) == WorkAfter(s, b, part)
  {
    hide GraphsAt, HasGraph;
    NoMoreGraph(s, b.known, part, e);
  }

  lemma CallsAfreshAre(s: Setting, e: Address, known: set<Address>, g: Graph, t: Address)
    requires s.input.guest.FetchesCode() && GraphIsFrom(s, e, g, known)
    ensures CallsAfresh(s, e, known, t) <==> Ownable(g, s.input.executable) && t in TargetsOf(g)
  {
    hide GraphIsFrom, Ownable, TargetsOf, Consumed, GuestView.FetchesCode;
    if CallsAfresh(s, e, known, t) {
      var h :| GraphIsFrom(s, e, h, known) && Ownable(h, s.input.executable) && t in TargetsOf(h);
      SameAnalysis(s, e, g, h, known, NO_WORK);
    }
  }

  lemma SomeMoreCalls(s: Setting, part: set<Address>, e: Address, known: set<Address>, t: Address)
    ensures SomeCalls(s, part + {e}, known, t) <==> SomeCalls(s, part, known, t) || CallsAfresh(s, e, known, t)
  {
    hide CallsAfresh;
  }

  /** The functions called grow by those whose calls are followed up. */
  lemma MoreCalls(s: Setting, b: Book, part: set<Address>, e: Address, g: Graph)
    requires s.input.guest.FetchesCode() && GraphIsFrom(s, e, g, b.known)
    requires Ownable(g, s.input.executable) ==> CallsAreKnown(s, b, TargetsOf(g))
    ensures CalledBy(s, b, part + {e}) == CalledBy(s, b, part) + Followed(s, g)
  {
    hide GraphIsFrom, Ownable, TargetsOf, CallsAfresh, SomeCalls, ModuleInput.InRange, GuestView.FetchesCode;
    forall t
      ensures t in CalledBy(s, b, part + {e}) <==> t in CalledBy(s, b, part) || t in Followed(s, g)
    {
      SomeMoreCalls(s, part, e, b.known, t);
      CallsAfreshAre(s, e, b.known, g, t);
    }
  }

  lemma NoMoreCalls(s: Setting, b: Book, part: set<Address>, e: Address)
    requires !HasGraph(s, e, b.known)
    ensures CalledBy(s, b, part + {e}) == CalledBy(s, b, part)
  {
    hide ModuleInput.InRange, Ownable, GraphIsFrom, TargetsOf, SomeCalls;
    forall t
      ensures t in CalledBy(s, b, part + {e}) <==> t in CalledBy(s, b, part)
    {
      SomeMoreCalls(s, part, e, b.known, t);
    }
  }

  lemma PartOfGraphs(s: Setting, known: set<Address>, part: set<Address>, whole: set<Address>)
    requires part <= whole
    ensures NoMore(Total(GraphsAt(s, known, part)), Total(GraphsAt(s, known, whole)))
  {
    hide HasGraph, GraphAt, Total, NoMore;
    PartIsLess(GraphsAt(s, known, part), GraphsAt(s, known, whole));
  }

  lemma PartOfCalls(s: Setting, b: Book, part: set<Address>, whole: set<Address>)
    requires part <= whole
    ensures CalledBy(s, b, part) <= CalledBy(s, b, whole)
  {
    hide CallsAfresh, ModuleInput.InRange;
  }

  lemma PartIsDue(s: Setting, b: Book, part: set<Address>, whole: set<Address>, d: BudgetDimension)
    requires part <= whole
    ensures Exceeds(WorkAfter(s, b, part), s.budgets, d) ==> Exceeds(WorkAfter(s, b, whole), s.budgets, d)
    ensures CalledBy(s, b, part) <= CalledBy(s, b, whole)
  {
    hide GraphsAt, CalledBy, Total;
    PartOfGraphs(s, b.known, part, whole);
    PartOfCalls(s, b, part, whole);
  }

  // The whole pass.

  /** The functions ahead of the iterator, and their checkpoints, are as they were. */
  ghost predicate SameAhead(start: Book, b: Book, cursor: Address) {
    forall x {:trigger b.records[x]} {:trigger x in start.records} :: x in start.records && x > cursor ==>
      && x in b.records && SameFunction(start.records[x], b.records[x])
      && (x in b.checkpoints <==> x in start.checkpoints)
      && (x in b.checkpoints ==> b.checkpoints[x] == start.checkpoints[x])
  }

  /** What has been charged when the iterator stands at `cursor`. */
  ghost predicate Steady(s: Setting, start: Book, b: Book, cursor: Address) {
    && AddsNothing(start, b) && SameAhead(start, b, cursor) && NoneWaiting(b.records)
    && b.usage == WorkAfter(s, start, Redone(start, cursor))
    && b.pending == CalledBy(s, start, Redone(start, cursor))
    && b.seedCount == start.seedCount + |b.pending|
  }

  lemma SameTest(start: Book, b: Book, cursor: Address, e: Address)
    requires AddsNothing(start, b) && SameAhead(start, b, cursor) && e in start.records && e > cursor
    ensures e in b.records && (PassesOver(b, e) <==> PassesOver(start, e))
    ensures b.records[e].cfg == start.records[e].cfg && b.records[e].status == start.records[e].status
  {
    hide ContainsAny;
  }

  lemma NextRedone(start: Book, b: Book, cursor: Address)
    requires AddsNothing(start, b) && Later(b.records, cursor) != {}
    ensures
      var e := Least(Later(b.records, cursor));
      && e in start.records && e > cursor && e !in Redone(start, cursor)
      && Redone(start, e) == Redone(start, cursor) + if PassesOver(start, e) then {} else {e}
  {
    hide PassesOver;
    NextIsLeast(b, cursor);
    var e := Least(Later(b.records, cursor));
    assert e in b.records.Keys;
    forall x
      ensures x in start.records && cursor < x ==> e <= x
    {
      if x in start.records {
        assert x in b.records.Keys;
      }
    }
  }

  lemma AheadStays(start: Book, b: Book, c: Book, cursor: Address, e: Address)
    requires SameAhead(start, b, cursor) && Moves(b, c, e) && cursor < e
    ensures SameAhead(start, c, e)
  {
    hide SameFunction;
    forall x | x in start.records && x > e
      ensures x in c.records && SameFunction(start.records[x], c.records[x])
    {
      SameAgain(start.records[x], b.records[x], c.records[x]);
    }
  }

  lemma NoneWaitsStill(b: Book, c: Book, e: Address)
    requires NoneWaiting(b.records) && Moves(b, c, e) && AddsNothing(b, c) && !c.records[e].status.Discovered?
    ensures NoneWaiting(c.records)
  {
    hide SameFunction;
    forall x | x in c.records
      ensures !c.records[x].status.Discovered?
    {
      assert x in c.records.Keys;
      if x != e {
        StatusStays(b.records[x], c.records[x]);
      }
    }
  }

  lemma SteadyRedone(s: Setting, start: Book, b: Book, c: Book, cursor: Address, e: Address, g: Graph)
    requires s.input.guest.FetchesCode() && Steady(s, start, b, cursor) && IsRedone(s, b, c, g) && SameAhead(start, c, e)
    requires NoneWaiting(c.records)
    requires GraphIsFrom(s, e, g, start.known) && (Ownable(g, s.input.executable) ==> CallsAreKnown(s, start, TargetsOf(g)))
    requires e !in Redone(start, cursor) && Redone(start, e) == Redone(start, cursor) + {e}
    ensures Steady(s, start, c, e)
  {
    hide Redone, WorkAfter, CalledBy, Followed, SameAhead, GraphIsFrom, Ownable, CallsAreKnown, TargetsOf, Consumed,
         GuestView.FetchesCode;
    MoreWork(s, start, Redone(start, cursor), e, g);
    MoreCalls(s, start, Redone(start, cursor), e, g);
    assert c.pending == b.pending + (Followed(s, g) - b.pending);
  }

  lemma SteadyDropped(s: Setting, start: Book, b: Book, c: Book, cursor: Address, e: Address)
    requires Steady(s, start, b, cursor) && AddsNothing(b, c) && SameAhead(start, c, e) && !HasGraph(s, e, start.known)
    requires c.usage == b.usage && c.pending == b.pending && c.seedCount == b.seedCount && NoneWaiting(c.records)
    requires e !in Redone(start, cursor) && Redone(start, e) == Redone(start, cursor) + {e}
    ensures Steady(s, start, c, e)
  {
    hide Redone, WorkAfter, CalledBy, SameAhead, HasGraph;
    NoMoreWork(s, start, Redone(start, cursor), e);
    NoMoreCalls(s, start, Redone(start, cursor), e);
  }

  lemma SteadyExceeds(s: Setting, start: Book, b: Book, cursor: Address, e: Address, g: Graph, d: BudgetDimension)
    requires s.input.guest.FetchesCode() && Counted(s, b) && Steady(s, start, b, cursor) && GraphIsFrom(s, e, g, start.known)
    requires Ownable(g, s.input.executable) ==> CallsAreKnown(s, start, TargetsOf(g))
    requires e !in Redone(start, cursor) && Redone(start, e) == Redone(start, cursor) + {e}
    requires GraphRunsOut(s, b, g, d)
    ensures PassExceeds(s, start, d)
  {
    var part := Redone(start, cursor);
    assert part + {e} <= ToDo(start);
    hide Redone, ToDo, WorkAfter, CalledBy, SameAhead, GraphIsFrom, Ownable, TargetsOf, Consumed, Exceeds,
         InRangeOf, CallsAreKnown, GuestView.FetchesCode;
    MoreWork(s, start, part, e, g);
    MoreCalls(s, start, part, e, g);
    PartIsDue(s, start, part + {e}, ToDo(start), d);
    if !Exceeds(Consumed(b.usage, g), s.budgets, d) {
      CallsExceed(s, start, b, g, d, CalledBy(s, start, ToDo(start)));
    }
  }

  lemma CallsExceed(s: Setting, start: Book, b: Book, g: Graph, d: BudgetDimension, due: set<Address>)
    requires Counted(s, b) && AddsNothing(start, b) && CallsAreKnown(s, start, TargetsOf(g)) && CallsRunOut(s, b, TargetsOf(g), d)
    requires b.seedCount == start.seedCount + |b.pending| && b.pending + InRangeOf(s, TargetsOf(g)) <= due
    ensures d.Seeds? && start.seedCount + |due| > s.budgets.maxSeeds
  {
    KnownAreInside(s, start, TargetsOf(g));
    hide InRangeOf, TargetsOf, CallsAreKnown, Capacity;
    var called := InRangeOf(s, TargetsOf(g));
    assert |b.records| == |b.records.Keys|;
    SubsetIsSmaller(b.pending + called, due);
    assert b.pending + called == b.pending + (called - b.pending);
  }

  /** What one visit gives. */
  ghost predicate SteadyGives(s: Setting, start: Book, e: Address, o: Outcome<Book>) {
    match o
    case Done(c) => Steady(s, start, c, e)
    case OverBudget(d) => PassExceeds(s, start, d) || PassMeetsLimit(s, start, d)
    case Fault(_) => false
  }

  lemma MeetsLimit(s: Setting, start: Book, e: Address, d: BudgetDimension)
    requires e in start.records && !PassesOver(start, e) && LimitBinds(s, e, start.known, d)
    ensures PassMeetsLimit(s, start, d)
  {
    hide LimitBinds, PassesOver;
    assert e in ToDo(start);
  }

  /** The functions of a still state find nothing new in the whole pass. */
  lemma StillFindsNothing(s: Setting, start: Book, e: Address, g: Graph)
    requires Still(s, start) && e in start.records && !PassesOver(start, e) && GraphIsFrom(s, e, g, start.known)
    ensures Ownable(g, s.input.executable) ==> CallsAreKnown(s, start, TargetsOf(g))
  {
    hide GraphIsFrom, Ownable, CallsAreKnown, TargetsOf, MayKeep;
    assert start.records[e].cfg.Some?;
    assert FindsNothing(s, start, e);
  }

  lemma OutcomeOfGraph(s: Setting, start: Book, b: Book, cursor: Address, e: Address, g: Graph)
    requires IsFit(s) && Sound(s, b, None) && Still(s, start) && Steady(s, start, b, cursor)
    requires IsBasis(s, b.boundaries, start.Knows()) && e in b.records && e in start.records && !PassesOver(start, e)
    requires e > cursor && e !in Redone(start, cursor) && Redone(start, e) == Redone(start, cursor) + {e}
    requires GraphIsFrom(s, e, g, start.known)
    ensures SteadyGives(s, start, e, Rework(s, b, e, Ok(g), start.Knows()))
  {
    var o, at := Rework(s, b, e, Ok(g), start.Knows()), start.Knows();
    assert AddsNothing(start, b) && SameAhead(start, b, cursor) && NoneWaiting(b.records);
    hide *;
    FitFetchesCode(s);
    SoundIsReady(s, b, None);
    StillFindsNothing(s, start, e, g);
    KnownStays(s, start, b, TargetsOf(g));
    RedoneIs(s, b, e, g, at);
    KeepsGraph(s, b, e, g, at);
    if o.Done? {
      AheadStays(start, b, o.value, cursor, e);
      RedoneAddsNothing(s, b, o.value, g);
      NoneWaitsStill(b, o.value, e);
      SteadyRedone(s, start, b, o.value, cursor, e, g);
    } else if o.OverBudget? {
      OverBudgetOfGraph(s, start, b, cursor, e, o.dimension);
    }
    GivesSteady(s, start, e, o);
  }

  lemma RedoneAddsNothing(s: Setting, b: Book, c: Book, g: Graph)
    requires IsRedone(s, b, c, g)
    ensures AddsNothing(b, c)
  {
    hide Followed, Consumed;
  }

  lemma KnownStays(s: Setting, start: Book, b: Book, targets: seq<Address>)
    requires AddsNothing(start, b)
    ensures CallsAreKnown(s, start, targets) ==> CallsAreKnown(s, b, targets)
  {
    hide *;
    if CallsAreKnown(s, start, targets) {
      StoredKnows(s, start, b, targets);
    }
  }

  lemma KeepsGraph(s: Setting, b: Book, e: Address, g: Graph, at: Knowledge)
    requires IsFit(s) && Sound(s, b, None) && e in b.records
    requires IsBasis(s, b.boundaries, at) && GraphIsFrom(s, e, g, at.entries)
    ensures
      var o := Rework(s, b, e, Ok(g), at);
      && (o.Done? ==> Moves(b, o.value, e) && !o.value.records[e].status.Discovered?)
      && (o.OverBudget? ==> StepRunsOut(s, b, e, at.entries, o.dimension))
  {
    hide Sound, IsFit, IsBasis, GraphIsFrom, Rework, Moves, StepRunsOut;
    assert Analyzes(s, e, at.entries, Ok(g));
    ReworkKeeps(s, b, e, Ok(g), at);
  }

  lemma OverBudgetOfGraph(s: Setting, start: Book, b: Book, cursor: Address, e: Address, d: BudgetDimension)
    requires s.input.guest.FetchesCode() && Counted(s, b) && Still(s, start) && Steady(s, start, b, cursor)
    requires e in start.records && !PassesOver(start, e)
    requires e !in Redone(start, cursor) && Redone(start, e) == Redone(start, cursor) + {e}
    requires StepRunsOut(s, b, e, start.known, d)
    ensures PassExceeds(s, start, d) || PassMeetsLimit(s, start, d)
  {
    hide Counted, Still, Steady, Redone, PassesOver, PassExceeds, PassMeetsLimit, GraphRunsOut, GraphIsFrom, LimitBinds,
         Ownable, CallsAreKnown, GuestView.FetchesCode;
    if LimitBinds(s, e, start.known, d) {
      MeetsLimit(s, start, e, d);
    } else {
      var g :| GraphIsFrom(s, e, g, start.known) && GraphRunsOut(s, b, g, d);
      StillFindsNothing(s, start, e, g);
      SteadyExceeds(s, start, b, cursor, e, g, d);
    }
  }

  lemma GivesSteady(s: Setting, start: Book, e: Address, o: Outcome<Book>)
    requires !o.Fault? && (o.Done? ==> Steady(s, start, o.value, e))
    requires o.OverBudget? ==> PassExceeds(s, start, o.dimension) || PassMeetsLimit(s, start, o.dimension)
    ensures SteadyGives(s, start, e, o)
  {
    hide Steady, PassExceeds, PassMeetsLimit;
  }

  lemma OutcomeOfFailure(s: Setting, start: Book, b: Book, cursor: Address, e: Address, code: ErrorCode)
    requires IsFit(s) && Sound(s, b, None) && Steady(s, start, b, cursor)
    requires IsBasis(s, b.boundaries, start.Knows()) && e in b.records && e in start.records && !PassesOver(start, e)
    requires e > cursor && e !in Redone(start, cursor) && Redone(start, e) == Redone(start, cursor) + {e}
    requires Analyzes(s, e, start.known, Err(code))
    ensures SteadyGives(s, start, e, Rework(s, b, e, Err(code), start.Knows()))
  {
    var o, at := Rework(s, b, e, Err(code), start.Knows()), start.Knows();
    assert AddsNothing(start, b) && SameAhead(start, b, cursor) && NoneWaiting(b.records);
    hide *;
    ReworkKeeps(s, b, e, Err(code), at);
    if CfgBudgetDimension(code).Some? {
      BindsByFailure(s, b, e, code, at);
      MeetsLimit(s, start, e, CfgBudgetDimension(code).value);
    } else {
      DroppedIs(s, b, e, code, at);
      KeptMoves(s, b, e, at.entries, o);
      AheadStays(start, b, o.value, cursor, e);
      NoneWaitsStill(b, o.value, e);
      NoGraphWhenFailing(s, e, start.known, code);
      SteadyDropped(s, start, b, o.value, cursor, e);
    }
    GivesSteady(s, start, e, o);
  }

  lemma BindsByFailure(s: Setting, b: Book, e: Address, code: ErrorCode, at: Knowledge)
    requires e in b.records && Analyzes(s, e, at.entries, Err(code)) && CfgBudgetDimension(code).Some?
    ensures LimitBinds(s, e, at.entries, CfgBudgetDimension(code).value)
    ensures Rework(s, b, e, Err(code), at) == OverBudget(CfgBudgetDimension(code).value)
  {
    hide Problem.FailureCause;
  }

  lemma DroppedIs(s: Setting, b: Book, e: Address, code: ErrorCode, at: Knowledge)
    requires e in b.records && CfgBudgetDimension(code).None?
    ensures
      var o := Rework(s, b, e, Err(code), at);
      && o.Done? && AddsNothing(b, o.value)
      && o.value.usage == b.usage && o.value.pending == b.pending && o.value.seedCount == b.seedCount
  {
    assert b.records.Keys + {e} == b.records.Keys;
  }

  lemma KeptMoves(s: Setting, b: Book, e: Address, at: set<Address>, o: Outcome<Book>)
    requires Keeps(s, b, e, at, o) && o.Done?
    ensures Moves(b, o.value, e) && !o.value.records[e].status.Discovered?
  {
    hide Sound, SameFunction, KeepsEvidence;
  }

  lemma NoGraphWhenFailing(s: Setting, e: Address, known: set<Address>, code: ErrorCode)
    requires Analyzes(s, e, known, Err(code)) && CfgBudgetDimension(code).None?
    ensures !HasGraph(s, e, known)
  {
    hide GraphIsFrom, Problem.FailureCause;
    assert FailsFor(s, e, known);
    forall g | GraphIsFrom(s, e, g, known)
      ensures false
    {
      NotBoth(s, e, g, known);
    }
  }

  lemma SteadyVisit(s: Setting, start: Book, b: Book, cursor: Address, o: Outcome<Book>)
    requires IsFit(s) && Still(s, start) && InPass(s, start, b, cursor) && Steady(s, start, b, cursor)
    requires VisitsNext(s, b, start.Knows(), cursor, o)
    ensures SteadyGives(s, start, Least(Later(b.records, cursor)), o)
  {
    assert AddsNothing(start, b) && SameAhead(start, b, cursor);
    var e := Least(Later(b.records, cursor));
    hide IsFit, Still, InPass, Steady, Sound, IsBasis, Redone, PassesOver, AddsNothing, SameAhead, Analyzes, Rework,
         SteadyGives;
    InPassIsSound(s, start, b, cursor);
    NextIsLeast(b, cursor);
    NextRedone(start, b, cursor);
    SameTest(start, b, cursor, e);
    if PassesOver(b, e) {
      SteadyPassesOver(s, start, b, cursor, e);
      GivesSteady(s, start, e, o);
    } else {
      var graph :| Analyzes(s, e, start.known, graph) && o == Rework(s, b, e, graph, start.Knows());
      if graph.Ok? {
        AnalyzesGraph(s, e, start.known, graph);
        OutcomeOfGraph(s, start, b, cursor, e, graph.value);
      } else {
        OutcomeOfFailure(s, start, b, cursor, e, graph.code);
      }
    }
  }

  lemma SteadyPassesOver(s: Setting, start: Book, b: Book, cursor: Address, e: Address)
    requires Steady(s, start, b, cursor) && e > cursor && Redone(start, e) == Redone(start, cursor) + {}
    ensures Steady(s, start, b, e)
  {
    hide Redone, WorkAfter, CalledBy, SameFunction;
    assert Redone(start, e) == Redone(start, cursor);
  }

  lemma NothingIsDue(s: Setting, b: Book)
    requires forall e :: e in b.records ==> e >= 0
    ensures Redone(b, -1) == {} && WorkAfter(s, b, {}) == b.usage && CalledBy(s, b, {}) == {}
  {
    hide PassesOver, SomeCalls, HasGraph, ModuleInput.InRange;
    assert Redone(b, -1) == {};
    assert GraphsAt(s, b.known, {}) == map[];
    forall t
      ensures !SomeCalls(s, {}, b.known, t)
    {
      NothingCalls(s, b.known, t);
    }
  }

  lemma SameAsItself(b: Book, cursor: Address)
    ensures SameAhead(b, b, cursor) && AddsNothing(b, b)
  {
  }

  lemma SteadyBegins(s: Setting, start: Book)
    requires Sound(s, start, None) && start.pending == {} && NoneWaiting(start.records)
    ensures Steady(s, start, start, -1)
  {
    SoundIsProper(s, start);
    hide Sound, Proper, NoneWaiting, Redone, WorkAfter, CalledBy, SameAhead, AddsNothing;
    SameAsItself(start, -1);
    EntriesAreNatural(s, start.records);
    NothingIsDue(s, start);
  }

  lemma NothingCalls(s: Setting, known: set<Address>, t: Address)
    ensures !SomeCalls(s, {}, known, t)
  {
    hide CallsAfresh;
  }

  lemma StillIsDone(s: Setting, b: Book)
    requires Still(s, b)
    ensures NoneWaiting(b.records)
  {
    hide FindsNothing;
  }

  lemma {:induction false} VisitsAreSteady(s: Setting, start: Book, n: nat, b: Book, cursor: Address)
    requires IsFit(s) && Sound(s, start, None) && Still(s, start) && start.pending == {}
    requires VisitsTo(s, start, start.Knows(), n, b, cursor)
    ensures Steady(s, start, b, cursor)
  {
    hide IsFit, Sound, Still, Steady, InPass, Visits;
    if n == 0 {
      StillIsDone(s, start);
      SteadyBegins(s, start);
    } else {
      var m, c :| VisitsTo(s, start, start.Knows(), n - 1, m, c) && VisitsNext(s, m, start.Knows(), c, Done(b))
                  && cursor == Least(Later(m.records, c));
      VisitsAreSteady(s, start, n - 1, m, c);
      VisitsKeepPass(s, start, n - 1, m, c);
      SteadyVisit(s, start, m, c, Done(b));
    }
  }

  /** What a pass over a still state gives: it succeeds with exactly the work and the calls that are due, or there
      was more due than a budget allows, or a single analysis can meet a limit. */
  ghost predicate StillPassGives(s: Setting, start: Book, o: Outcome<Book>) {
    match o
    case Done(c) =>
      && PassFits(s, start) && AddsNothing(start, c) && NoneWaiting(c.records)
      && c.usage == WorkAfter(s, start, ToDo(start))
      && c.seedCount == start.seedCount + |CalledBy(s, start, ToDo(start))|
    case OverBudget(d) => PassExceeds(s, start, d) || PassMeetsLimit(s, start, d)
    case Fault(_) => false
  }

  lemma AllRedone(start: Book, b: Book, cursor: Address)
    requires AddsNothing(start, b) && Later(b.records, cursor) == {}
    ensures Redone(start, cursor) == ToDo(start)
  {
    hide PassesOver;
    forall e | e in ToDo(start)
      ensures e <= cursor
    {
      assert e in b.records.Keys;
      assert e !in Later(b.records, cursor);
    }
  }

  lemma StillPassEnds(s: Setting, start: Book, b: Book, cursor: Address)
    requires InPass(s, start, b, cursor) && Steady(s, start, b, cursor) && Later(b.records, cursor) == {}
    ensures StillPassGives(s, start, Done(b.(pending := {}, passes := b.passes + 1)))
  {
    InPassIsSound(s, start, b, cursor);
    SoundIsReady(s, b, None);
    AllRedone(start, b, cursor);
    hide InPass, Sound, SameAhead, WorkAfter, CalledBy, ToDo, Redone, Proper, Traced;
  }

  /** The budgets of a pass that finds nothing new, exactly. */
  lemma PassFitsExactly(s: Setting, start: Book, o: Outcome<Book>)
    requires IsFit(s) && Sound(s, start, None) && Still(s, start) && start.pending == {} && RunsPass(s, start, o)
    ensures StillPassGives(s, start, o)
    ensures (forall d :: !PassMeetsLimit(s, start, d)) ==> (o.Done? <==> PassFits(s, start))
  {
    hide IsFit, Sound, Still, InPass, Steady, VisitsTo, VisitsNext, PassExceeds, PassMeetsLimit, PassFits;
    var n, b, cursor :| VisitsTo(s, start, start.Knows(), n, b, cursor)
      && if Later(b.records, cursor) == {} then o == Done(b.(pending := {}, passes := b.passes + 1))
         else o.IsFailure() && VisitsNext(s, b, start.Knows(), cursor, o);
    VisitsKeepPass(s, start, n, b, cursor);
    VisitsAreSteady(s, start, n, b, cursor);
    if Later(b.records, cursor) == {} {
      StillPassEnds(s, start, b, cursor);
    } else {
      SteadyVisit(s, start, b, cursor, o);
    }
    FitsExactly(s, start);
  }

  lemma NothingChanged(s: Setting, b: Book, c: Book)
    requires StillPassGives(s, b, Done(c))
    ensures !Changed(b, c)
  {
    hide PassFits, WorkAfter, CalledBy;
  }

  lemma {:induction false} OnePass(s: Setting, start: Book, n: nat, b: Book)
    requires IsFit(s) && Sound(s, start, None) && Still(s, start) && start.pending == {} && PassesTo(s, start, n, b)
    ensures n == 0 && b == start
  {
    hide IsFit, Sound, Still, RunsPass, Changed, StillPassGives;
    if n > 0 {
      var m :| PassesTo(s, start, n - 1, m) && RunsPass(s, m, Done(b)) && Changed(m, b) && b.passes != s.budgets.maxPasses;
      OnePass(s, start, n - 1, m);
      PassFitsExactly(s, m, Done(b));
      NothingChanged(s, m, b);
    }
  }

  /** Finalization of a still state is one pass, and succeeds exactly when that stays within the budgets. */
  lemma FinalizationFitsExactly(s: Setting, start: Book, o: Outcome<Book>)
    requires IsFit(s) && Sound(s, start, None) && Still(s, start) && start.pending == {} && Finalizes(s, start, o)
    ensures StillPassGives(s, start, o)
    ensures (forall d :: !PassMeetsLimit(s, start, d)) ==> (o.Done? <==> PassFits(s, start))
  {
    hide IsFit, Sound, Still, RunsPass, PassesTo, Changed, StillPassGives, PassMeetsLimit, PassFits;
    var n, b, last :| PassesTo(s, start, n, b) && RunsPass(s, b, last)
      && if last.Done? && Changed(b, last.value)
         then last.value.passes == s.budgets.maxPasses && o == OverBudget(FinalizationPasses)
         else o == last;
    OnePass(s, start, n, b);
    PassFitsExactly(s, start, last);
    if last.Done? {
      NothingChanged(s, start, last.value);
    }
  }
}
