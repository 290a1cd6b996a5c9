/** A control-flow graph told instruction kind by instruction kind: where control goes, what leaves a block, which
    calls and unresolved transfers are listed, and which instructions are errors. */
module FlowTheorems {
  import opened Common
  import opened ControlFlow

  /** The range a function may extend over holds the address. */
  ghost predicate MayHold(range: Option<Range>, a: Address) {
    range.None? || (range.value.base <= a < range.value.base + range.value.size < TWO64)
  }

  /** Control may go from the instruction to `t` without leaving the function. */
  ghost predicate LeadsTo(o: AnalysisOptions, entry: Address, i: Instruction, t: Address) {
    && MayHold(o.allowedRange, t)
    && match i.flow.kind
       case Fallthrough => t == i.address + 4
       case DirectCall => t == i.address + 4
       case IndirectCall => t == i.address + 4
       case DirectBranch => i.flow.target == Some(t) && (t == entry || t !in o.knownEntries)
       case ConditionalBranch => i.flow.target == Some(t) || t == i.address + 4
       case _ => false
  }

  /** The edges that leave a block ending in the instruction. */
  ghost predicate LeavesBy(o: AnalysisOptions, entry: Address, i: Instruction, edges: seq<Edge>) {
    var a, next, inside := i.address, i.address + 4, MayHold(o.allowedRange, i.address + 4);
    match i.flow.kind
    case Fallthrough => edges == [Edge(a, next, FallthroughEdge, inside)]
    case DirectCall => edges == [Edge(a, next, FallthroughEdge, inside)]
    case IndirectCall => edges == [Edge(a, next, FallthroughEdge, inside)]
    case ConditionalBranch =>
      && i.flow.target.Some?
      && edges == [Edge(a, i.flow.target.value, ConditionalTaken, MayHold(o.allowedRange, i.flow.target.value)),
                   Edge(a, next, ConditionalNotTaken, inside)]
    case DirectBranch =>
      && i.flow.target.Some?
      && var t := i.flow.target.value;
         edges == if t in o.knownEntries && t != entry then [Edge(a, t, FunctionTransfer, false)]
                  else [Edge(a, t, BranchEdge, MayHold(o.allowedRange, t))]
    case _ => edges == []
  }

  /** The call site that the instruction makes. */
  ghost predicate MakesCall(i: Instruction, c: CallSite) {
    || (i.flow.kind.DirectCall? && c == CallSite(i.address, true, i.flow.target, i.flow.register))
    || (i.flow.kind.IndirectCall? && c == CallSite(i.address, false, i.flow.target, i.flow.register))
  }

  /** The transfer of control that the instruction leaves open. */
  ghost predicate LeavesOpen(i: Instruction, u: Unresolved) {
    && (i.flow.kind.IndirectBranch? || i.flow.kind.IndirectCall? || i.flow.kind.Unknown?)
    && u == Unresolved(i.address, i.flow.kind, i.flow.register)
  }

  ghost predicate IsClosed(guest: GuestView, o: AnalysisOptions, entry: Address, s: iset<Address>) {
    forall a, t {:trigger guest.fetch(a), t in s} ::
      a in s && guest.fetch(a).Ok? && LeadsTo(o, entry, guest.fetch(a).value, t) ==> t in s
  }

  /** A block has to start at `l`: there the function is entered, or a reached instruction that ends a block leads to it. */
  ghost predicate IsTarget(guest: GuestView, o: AnalysisOptions, entry: Address, reached: set<Address>, l: Address) {
    l == entry || exists a :: a in reached && JumpsTo(guest, o, entry, a, l)
  }

  ghost predicate JumpsTo(guest: GuestView, o: AnalysisOptions, entry: Address, a: Address, l: Address) {
    var i := guest.fetch(a);
    i.Ok? && !i.value.flow.kind.Fallthrough? && LeadsTo(o, entry, i.value, l)
  }

  /** Every instruction that can be reached, once, in blocks that start where they must and leave as they must. */
  ghost predicate DescribesCode(guest: GuestView, o: AnalysisOptions, entry: Address, g: Graph) {
    && g.entry == entry
    && IsClosed(guest, o, entry, iset a | a in Addresses(g)) && entry in Addresses(g)
    && (forall s :: IsClosed(guest, o, entry, s) && entry in s ==> forall a :: a in Addresses(g) ==> a in s)
    && (forall l :: l in g.blocks <==> IsTarget(guest, o, entry, Addresses(g), l))
    && (forall s :: s in g.blocks ==> IsBlock(guest, o, entry, s, g.blocks[s]) && IsWhole(o, g.blocks.Keys, g.blocks[s]))
    && g.instructionCount == |Addresses(g)|
    && (forall c :: c in g.calls <==> exists a :: a in Addresses(g) && CallsAt(guest, a, c))
    && (forall u :: u in g.unresolved <==> exists a :: a in Addresses(g) && OpenAt(guest, a, u))
  }

  ghost predicate CallsAt(guest: GuestView, a: Address, c: CallSite) {
    guest.fetch(a).Ok? && MakesCall(guest.fetch(a).value, c)
  }

  ghost predicate OpenAt(guest: GuestView, a: Address, u: Unresolved) {
    guest.fetch(a).Ok? && LeavesOpen(guest.fetch(a).value, u)
  }

  /** Consecutive instructions of the guest, with what the last of them leaves. */
  ghost predicate IsBlock(guest: GuestView, o: AnalysisOptions, entry: Address, s: Address, b: BasicBlock) {
    && b.start == s && b.instructions != []
    && (forall k :: 0 <= k < |b.instructions| ==> guest.fetch(s + 4 * k) == Ok(b.instructions[k]))
    && (forall k :: 0 <= k < |b.instructions| - 1 ==> b.instructions[k].flow.kind.Fallthrough?)
    && LeavesBy(o, entry, b.instructions[|b.instructions| - 1], b.successors)
    && (forall c :: c in b.calls <==> MakesCall(b.instructions[|b.instructions| - 1], c)) && |b.calls| <= 1
  }

  /** No block starts inside it, and it goes on to the next one, unless control leaves it or the function. */
  ghost predicate IsWhole(o: AnalysisOptions, starts: set<Address>, b: BasicBlock) {
    && b.instructions != []
    && (forall k :: 0 < k < |b.instructions| ==> b.start + 4 * k !in starts)
    && (b.instructions[|b.instructions| - 1].flow.kind.Fallthrough? && MayHold(o.allowedRange, b.start + 4 * |b.instructions|) ==>
          b.start + 4 * |b.instructions| in starts)
  }

  // That an analysis describes the code follows from its being one.

  lemma SuccessorsAre(p: Problem, a: Address, t: Address)
    requires p.guest.FetchesCode()
    ensures t in p.Successors(a) <==> p.guest.fetch(a).Ok? && LeadsTo(p.options, p.entry, p.guest.fetch(a).value, t)
    ensures t in p.LeaderTargets(a) <==> JumpsTo(p.guest, p.options, p.entry, a, t)
  {
    if p.guest.fetch(a).Ok? {
      p.SuccessorsAhead(p.guest.fetch(a).value);
    }
  }

  lemma ClosureIs(p: Problem, s: iset<Address>)
    requires p.guest.FetchesCode()
    ensures IsClosed(p.guest, p.options, p.entry, s) <==> p.ClosedUnderSuccessors(s)
  {
    hide Problem.Successors, Problem.LeaderTargets, LeadsTo;
    forall a, t
      ensures t in p.Successors(a) <==> p.guest.fetch(a).Ok? && LeadsTo(p.options, p.entry, p.guest.fetch(a).value, t)
    {
      SuccessorsAre(p, a, t);
    }
  }

  lemma EdgesAre(p: Problem, i: Instruction)
    requires p.ErrorAfter(i).None? && (i.flow.kind.Fallthrough? ==> i.address + 4 < TWO64)
    ensures LeavesBy(p.options, p.entry, i, p.Edges(i))
  {
  }

  lemma CallsAre(p: Problem, i: Instruction)
    ensures |p.CallsOf(i)| <= 1 && forall c :: c in p.CallsOf(i) <==> MakesCall(i, c)
    ensures |p.UnresolvedOf(i)| <= 1 && forall u :: u in p.UnresolvedOf(i) <==> LeavesOpen(i, u)
  {
  }

  lemma BlockIs(p: Problem, s: Address, b: BasicBlock)
    requires p.guest.FetchesCode() && p.BlockAt(s, b) && p.StepError(b.Last().address).None?
    ensures IsBlock(p.guest, p.options, p.entry, s, b)
  {
    var last := |b.instructions| - 1;
    assert b.instructions[last].address == s + 4 * last;
    assert b.Last() == b.instructions[last];
    EdgesAre(p, b.Last());
    CallsAre(p, b.Last());
    hide LeavesBy, MakesCall, Problem.Edges, Problem.CallsOf;
    forall k | 0 <= k < |b.instructions|
      ensures p.guest.fetch(s + 4 * k) == Ok(b.instructions[k])
    {
      assert b.instructions[k].address == s + 4 * k;
    }
  }

  lemma BlockIsWhole(p: Problem, s: Address, b: BasicBlock, starts: set<Address>)
    requires p.BlockAt(s, b) && p.IsMaximal(b) && forall l :: l in starts ==> p.StartsBlock(l)
    requires forall l :: p.StartsBlock(l) ==> l in starts
    ensures IsWhole(p.options, starts, b)
  {
    hide Problem.StartsBlock, Problem.Edges, Problem.CallsOf;
    assert b.Last() == b.instructions[|b.instructions| - 1];
    forall k | 0 < k < |b.instructions|
      ensures b.start + 4 * k !in starts
    {
      assert !p.StartsBlock(b.start + 4 * k);
    }
  }

  lemma BlocksAre(p: Problem, g: Graph, s: Address)
    requires p.guest.FetchesCode() && p.IsAnalysis(g) && s in g.blocks
    ensures IsBlock(p.guest, p.options, p.entry, s, g.blocks[s]) && IsWhole(p.options, g.blocks.Keys, g.blocks[s])
  {
    assert p.BlockAt(s, g.blocks[s]) && p.IsMaximal(g.blocks[s]);
    assert forall l :: l in g.blocks <==> p.StartsBlock(l);
    BlockIsWhole(p, s, g.blocks[s], g.blocks.Keys);
    var last := |g.blocks[s].instructions| - 1;
    assert g.blocks[s].instructions[last].address in Addresses(g);
    hide Problem.BlockAt, Problem.Reaches, Problem.StepError, Problem.StartsBlock, Problem.IsMaximal, IsBlock, IsWhole;
    BlockIs(p, s, g.blocks[s]);
  }

  lemma StartsAre(p: Problem, g: Graph, l: Address)
    requires p.guest.FetchesCode() && p.IsAnalysis(g)
    ensures l in g.blocks <==> IsTarget(p.guest, p.options, p.entry, Addresses(g), l)
  {
    assert l in g.blocks <==> p.StartsBlock(l);
    assert forall a :: a in Addresses(g) <==> p.Reaches(a);
    hide Problem.IsAnalysis, Problem.Reaches, Problem.LeaderTargets, JumpsTo, Problem.Successors;
    if a :| p.Reaches(a) && l in p.LeaderTargets(a) {
      SuccessorsAre(p, a, l);
    }
    if a :| a in Addresses(g) && JumpsTo(p.guest, p.options, p.entry, a, l) {
      SuccessorsAre(p, a, l);
    }
  }

  lemma ReachedIsFetched(p: Problem, g: Graph, a: Address)
    requires p.guest.FetchesCode() && p.IsAnalysis(g) && a in Addresses(g)
    ensures p.guest.fetch(a).Ok? && p.guest.fetch(a).value.address == a
  {
    assert p.Reaches(a);
    hide Problem.Reaches, Problem.StartsBlock, Problem.BlockAt, Problem.IsMaximal;
    assert p.StepError(a).None?;
  }

  lemma SitesAre(p: Problem, s: set<Address>, g: Graph)
    requires p.guest.FetchesCode() && p.ListsCalls(s, g.calls) && p.ListsUnresolved(s, g.unresolved)
    requires forall a :: a in s ==> p.guest.fetch(a).Ok? && p.guest.fetch(a).value.address == a
    ensures forall c :: c in g.calls <==> exists a :: a in s && CallsAt(p.guest, a, c)
    ensures forall u :: u in g.unresolved <==> exists a :: a in s && OpenAt(p.guest, a, u)
  {
    forall a
      ensures p.guest.fetch(a).Ok? ==> forall c :: c in p.CallsOf(p.guest.fetch(a).value) <==> CallsAt(p.guest, a, c)
      ensures p.guest.fetch(a).Ok? ==> forall u :: u in p.UnresolvedOf(p.guest.fetch(a).value) <==> OpenAt(p.guest, a, u)
    {
      if p.guest.fetch(a).Ok? {
        CallsAre(p, p.guest.fetch(a).value);
      }
    }
    hide Problem.CallsOf, Problem.UnresolvedOf, CallsAt, OpenAt;
    forall c | c in g.calls
      ensures c.address in s && CallsAt(p.guest, c.address, c)
    {
      assert c in p.CallsOf(p.guest.fetch(c.address).value);
    }
    forall u | u in g.unresolved
      ensures u.address in s && OpenAt(p.guest, u.address, u)
    {
      assert u in p.UnresolvedOf(p.guest.fetch(u.address).value);
    }
  }

  lemma ReachIs(p: Problem, g: Graph)
    requires p.guest.FetchesCode() && p.IsAnalysis(g)
    ensures IsClosed(p.guest, p.options, p.entry, iset a | a in Addresses(g)) && p.entry in Addresses(g)
    ensures forall s :: IsClosed(p.guest, p.options, p.entry, s) && p.entry in s ==> forall a :: a in Addresses(g) ==> a in s
  {
    assert forall a :: a in Addresses(g) <==> p.Reaches(a);
    hide Problem.IsAnalysis, IsClosed, Problem.Successors, Addresses;
    var reach := iset a | a in Addresses(g);
    assert p.ClosedUnderSuccessors(reach);
    ClosureIs(p, reach);
    forall s | IsClosed(p.guest, p.options, p.entry, s) && p.entry in s
      ensures forall a :: a in Addresses(g) ==> a in s
    {
      ClosureIs(p, s);
    }
  }

  lemma SitesOf(p: Problem, g: Graph)
    requires p.guest.FetchesCode() && p.IsAnalysis(g)
    ensures g.entry == p.entry && g.instructionCount == |Addresses(g)|
    ensures forall c :: c in g.calls <==> exists a :: a in Addresses(g) && CallsAt(p.guest, a, c)
    ensures forall u :: u in g.unresolved <==> exists a :: a in Addresses(g) && OpenAt(p.guest, a, u)
  {
    assert p.ListsCalls(Addresses(g), g.calls) && p.ListsUnresolved(Addresses(g), g.unresolved);
    forall a | a in Addresses(g)
      ensures p.guest.fetch(a).Ok? && p.guest.fetch(a).value.address == a
    {
      ReachedIsFetched(p, g, a);
    }
    hide *;
    SitesAre(p, Addresses(g), g);
  }

  /** What every successful analysis returns, told kind by kind. */
  lemma AnalysisDescribesCode(p: Problem, g: Graph)
    requires p.guest.FetchesCode() && p.IsAnalysis(g)
    ensures DescribesCode(p.guest, p.options, p.entry, g)
  {
    hide Problem.IsAnalysis, IsClosed, IsTarget, IsBlock, IsWhole, CallsAt, OpenAt, Addresses, GuestView.FetchesCode, GuestView.fetch;
    ReachIs(p, g);
    forall l
      ensures l in g.blocks <==> IsTarget(p.guest, p.options, p.entry, Addresses(g), l)
    {
      StartsAre(p, g, l);
    }
    forall s | s in g.blocks
      ensures IsBlock(p.guest, p.options, p.entry, s, g.blocks[s]) && IsWhole(p.options, g.blocks.Keys, g.blocks[s])
    {
      BlocksAre(p, g, s);
    }
    SitesOf(p, g);
  }

  // Errors.

  /** The target of the branch is an aligned, executable word. */
  ghost predicate HasTarget(guest: GuestView, i: Instruction) {
    i.flow.target.Some? && i.flow.target.value % 4 == 0 && guest.executable(i.flow.target.value) == Ok(true)
  }

  /** What follows the instruction belongs to the function, and is not executable. */
  ghost predicate RunsOut(guest: GuestView, o: AnalysisOptions, i: Instruction) {
    MayHold(o.allowedRange, i.address + 4) && guest.executable(i.address + 4) != Ok(true)
  }

  /** The instruction is one at which the analysis has to stop with the code. */
  ghost predicate IsError(guest: GuestView, o: AnalysisOptions, i: Instruction, code: ErrorCode) {
    match i.flow.kind
    case DirectBranch => code == InvalidBranchTarget && !HasTarget(guest, i)
    case ConditionalBranch =>
      || (code == InvalidBranchTarget && !HasTarget(guest, i))
      || (code == InstructionFetchFailed && HasTarget(guest, i) && RunsOut(guest, o, i))
    case DirectCall => code == InstructionFetchFailed && RunsOut(guest, o, i)
    case IndirectCall => code == InstructionFetchFailed && RunsOut(guest, o, i)
    case _ => false
  }

  /** An address is an error exactly when it cannot be fetched, or holds an instruction that is one. */
  lemma ErrorsAre(p: Problem, a: Address, code: ErrorCode)
    requires p.guest.FetchesCode()
    ensures
      var i := p.guest.fetch(a);
      p.StepError(a) == Some(code) <==> if i.Err? then i.code == code else IsError(p.guest, p.options, i.value, code)
  {
  }

  /** The entry is accepted exactly when the options make sense and it is an aligned, executable word of the range. */
  lemma EntryIsAccepted(p: Problem)
    ensures
      var o := p.options;
      p.EntryError().None? <==>
      && o.maxInstructions != 0 && o.maxBasicBlocks != 0 && o.maxPendingTargets != 0
      && (o.allowedRange.Some? ==> o.allowedRange.value.size != 0 && o.allowedRange.value.End() < TWO64)
      && p.entry % 4 == 0 && MayHold(o.allowedRange, p.entry) && p.guest.executable(p.entry) == Ok(true)
  {
  }

  /** What each refusal of the entry says. */
  lemma RefusalsAre(p: Problem, code: ErrorCode)
    requires p.EntryError() == Some(code)
    ensures p.entry % 4 == 0 && MayHold(p.options.allowedRange, p.entry) ==>
              || code == InvalidArgument || code == ArithmeticOverflow || p.guest.executable(p.entry) == Err(code)
              || (code == NonExecutableAddress && p.guest.executable(p.entry) == Ok(false))
    ensures p.entry % 4 != 0 ==> code in {InvalidArgument, ArithmeticOverflow, MisalignedInstructionAddress}
    ensures p.entry % 4 == 0 && !MayHold(p.options.allowedRange, p.entry) ==>
              code in {InvalidArgument, ArithmeticOverflow, AnalysisScopeViolation}
  {
  }
}
