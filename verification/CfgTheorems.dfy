/** What a control-flow analysis promises its callers, whatever order the work was done in. */
module CfgTheorems {
  import opened Common
  import opened ControlFlow
  import opened FlowTheorems
  import opened GraphValidation
  import BuilderResult
  import GraphBuilder

  /** `analyze_control_flow`: the one way the rest of the system obtains a graph. */
  method AnalyzeControlFlow(guest: Guest, entry: Address, options: AnalysisOptions) returns (r: Result<Graph>)
    ensures Problem(guest, options, entry).Returns(r)
    ensures r.Ok? ==> DescribesCode(guest, options, entry, r.value)
  {
    var builder := new GraphBuilder.GraphBuilder(guest, options);
    r := builder.Run(entry);
  }

  /** Two problems that differ in their limits only. */
  ghost predicate SameCode(p: Problem, q: Problem) {
    && p.guest == q.guest && p.entry == q.entry
    && p.options.allowedRange == q.options.allowedRange
    && p.options.knownEntries == q.options.knownEntries
  }

  // Known entries cut functions short, and do nothing else.

  /** `q` knows at least the entries `p` knows. */
  ghost predicate KnowsMore(p: Problem, q: Problem) {
    && p.guest == q.guest && p.entry == q.entry
    && p.options.allowedRange == q.options.allowedRange
    && (forall e :: e in p.options.knownEntries ==> e in q.options.knownEntries)
  }

  lemma FewerSuccessors(p: Problem, q: Problem, a: Address)
    requires KnowsMore(p, q) && p.guest.FetchesCode()
    ensures q.Successors(a) <= p.Successors(a)
    ensures q.LeaderTargets(a) <= p.LeaderTargets(a)
    ensures q.StepError(a) == p.StepError(a)
  {
    if p.guest.fetch(a).Ok? {
      var i := p.guest.fetch(a).value;
      p.SuccessorsAhead(i);
      q.SuccessorsAhead(i);
    }
  }

  /** Enlarging the known-entry set can only shrink what a function reaches. */
  lemma ReachShrinks(p: Problem, q: Problem)
    requires KnowsMore(p, q) && p.guest.FetchesCode()
    ensures forall a :: q.Reaches(a) ==> p.Reaches(a)
    ensures forall l :: q.StartsBlock(l) ==> p.StartsBlock(l)
  {
    var s := p.Reach();
    forall a | a in s
      ensures forall b :: b in q.Successors(a) ==> b in s
    {
      FewerSuccessors(p, q, a);
    }
    assert q.ClosedUnderSuccessors(s) && q.entry in s;
    forall l | q.StartsBlock(l)
      ensures p.StartsBlock(l)
    {
      if l != q.entry {
        var a :| q.Reaches(a) && l in q.LeaderTargets(a);
        FewerSuccessors(p, q, a);
      }
    }
  }

  /** A graph's direct calls are those of the instructions its function reaches. */
  lemma CallsAreReached(p: Problem, g: Graph, t: Address)
    requires p.IsAnalysis(g)
    ensures CallsDirectly(g, t) <==> exists a :: p.Reaches(a) && CallsFrom(p.guest, a, t)
  {
    hide Problem.BlockAt, Problem.IsMaximal, Problem.Reaches, Problem.StartsBlock, Problem.ListsUnresolved,
         Problem.ListsCalls;
    if CallsDirectly(g, t) {
      var c :| c in g.calls && c.direct && c.target == Some(t);
      CallIsFrom(p, Addresses(g), g.calls, c, t);
    }
    if a :| p.Reaches(a) && CallsFrom(p.guest, a, t) {
      assert a in Addresses(g);
      CallIsListed(p, Addresses(g), g.calls, a);
    }
  }

  lemma CallIsFrom(p: Problem, s: set<Address>, calls: seq<CallSite>, c: CallSite, t: Address)
    requires p.ListsCalls(s, calls) && c in calls && c.direct && c.target == Some(t)
    ensures c.address in s && CallsFrom(p.guest, c.address, t)
  {
    assert p.CallsOf(p.guest.fetch(c.address).value) == [c];
  }

  ghost predicate CallsFrom(guest: GuestView, a: Address, t: Address) {
    var i := guest.fetch(a);
    i.Ok? && i.value.flow.kind.DirectCall? && i.value.flow.target == Some(t)
  }

  lemma CallIsListed(p: Problem, s: set<Address>, calls: seq<CallSite>, a: Address)
    requires p.ListsCalls(s, calls) && a in s && p.guest.fetch(a).Ok?
    requires p.guest.fetch(a).value.flow.kind.DirectCall?
    ensures exists c :: c in calls && c.direct && c.target == p.guest.fetch(a).value.flow.target
  {
    var i := p.guest.fetch(a).value;
    var c := CallSite(i.address, true, i.flow.target, i.flow.register);
    assert c in p.CallsOf(i);
  }

  lemma CallsShrink(p: Problem, q: Problem, g: Graph, h: Graph, t: Address)
    requires KnowsMore(p, q) && p.guest.FetchesCode()
    requires p.IsAnalysis(g) && q.IsAnalysis(h) && CallsDirectly(h, t)
    ensures CallsDirectly(g, t)
  {
    CallsAreReached(p, g, t);
    CallsAreReached(q, h, t);
    ReachShrinks(p, q);
  }

  // The result is canonical.

  lemma SameSets(p: Problem, q: Problem)
    requires SameCode(p, q) && p.guest.FetchesCode()
    ensures forall a :: p.Reaches(a) <==> q.Reaches(a)
    ensures forall l :: p.StartsBlock(l) <==> q.StartsBlock(l)
  {
    ReachShrinks(p, q);
    ReachShrinks(q, p);
  }

  /** A block goes on exactly as long as no block must start. */
  lemma InteriorContinues(p: Problem, b: BasicBlock, n: nat)
    requires p.BlockAt(b.start, b) && p.IsMaximal(b) && 0 < n < |b.instructions|
    ensures b.instructions[n - 1].flow.kind.Fallthrough? && p.Internal(b.start + 4 * n)
    ensures !p.StartsBlock(b.start + 4 * n)
  {
    assert b.instructions[n - 1].address == b.start + 4 * (n - 1);
    assert b.instructions[n].address == b.start + 4 * n;
  }

  lemma MaximalRunsAgree(p: Problem, s: Address, b: BasicBlock, c: BasicBlock)
    requires p.BlockAt(s, b) && p.BlockAt(s, c) && p.IsMaximal(b) && p.IsMaximal(c)
    requires |b.instructions| <= |c.instructions|
    ensures b == c
  {
    forall i | 0 <= i < |b.instructions|
      ensures b.instructions[i] == c.instructions[i]
    {
      assert b.instructions[i].address == s + 4 * i == c.instructions[i].address;
    }
    if |b.instructions| < |c.instructions| {
      InteriorContinues(p, c, |b.instructions|);
    } else {
      assert b.instructions == c.instructions;
    }
  }

  lemma SameBlock(p: Problem, q: Problem, s: Address, b: BasicBlock)
    requires SameCode(p, q) && p.guest.FetchesCode() && q.BlockAt(s, b) && q.IsMaximal(b)
    ensures p.BlockAt(s, b) && p.IsMaximal(b)
  {
    SameSets(p, q);
    assert p.IsRun(s, b.instructions);
    assert p.Edges(b.Last()) == q.Edges(b.Last());
  }

  ghost predicate AllMaximal(p: Problem, blocks: map<Address, BasicBlock>) {
    forall s {:trigger p.BlockAt(s, blocks[s])} :: s in blocks ==> p.BlockAt(s, blocks[s]) && p.IsMaximal(blocks[s])
  }

  lemma SameMaps(p: Problem, q: Problem, b: map<Address, BasicBlock>, c: map<Address, BasicBlock>)
    requires SameCode(p, q) && p.guest.FetchesCode() && b.Keys == c.Keys
    requires AllMaximal(p, b) && AllMaximal(q, c)
    ensures b == c
  {
    forall s | s in b
      ensures b[s] == c[s]
    {
      assert p.BlockAt(s, b[s]) && q.BlockAt(s, c[s]);
      SameBlock(p, q, s, c[s]);
      if |b[s].instructions| <= |c[s].instructions| {
        MaximalRunsAgree(p, s, b[s], c[s]);
      } else {
        MaximalRunsAgree(p, s, c[s], b[s]);
      }
    }
  }

  lemma SameExtent(p: Problem, q: Problem, g: Graph, h: Graph)
    requires SameCode(p, q) && p.guest.FetchesCode() && p.IsAnalysis(g) && q.IsAnalysis(h)
    ensures Addresses(g) == Addresses(h) && g.blocks.Keys == h.blocks.Keys
    ensures AllMaximal(p, g.blocks) && AllMaximal(q, h.blocks)
  {
    SameSets(p, q);
    forall s
      ensures s in g.blocks.Keys <==> s in h.blocks.Keys
    {
      assert s in g.blocks <==> p.StartsBlock(s);
    }
  }

  /** Limits and the order of the worklist leave no trace: blocks, edges and calls are the same. */
  lemma CanonicalResult(p: Problem, q: Problem, g: Graph, h: Graph)
    requires SameCode(p, q) && p.guest.FetchesCode() && p.IsAnalysis(g) && q.IsAnalysis(h)
    ensures g.blocks == h.blocks && g.instructionCount == h.instructionCount
    ensures multiset(g.calls) == multiset(h.calls) && multiset(g.unresolved) == multiset(h.unresolved)
  {
    SameExtent(p, q, g, h);
    SameMaps(p, q, g.blocks, h.blocks);
    SameCalls(p, q, g, h);
    SameUnresolved(p, q, g, h);
  }

  lemma OnceEach<T>(s: seq<T>, x: T)
    requires forall i, j :: 0 <= i < j < |s| ==> s[i] != s[j]
    ensures multiset(s)[x] == if x in s then 1 else 0
  {
    if x in s {
      var i :| 0 <= i < |s| && s[i] == x;
      assert s == s[..i] + [x] + s[i + 1..];
      assert multiset(s) == multiset(s[..i]) + multiset([x]) + multiset(s[i + 1..]);
    }
  }

  lemma SameCalls(p: Problem, q: Problem, g: Graph, h: Graph)
    requires SameCode(p, q) && p.IsAnalysis(g) && q.IsAnalysis(h) && Addresses(g) == Addresses(h)
    ensures multiset(g.calls) == multiset(h.calls)
  {
    forall c
      ensures multiset(g.calls)[c] == multiset(h.calls)[c]
    {
      OnceEach(g.calls, c);
      OnceEach(h.calls, c);
      if c in g.calls {
        assert q.CallsOf(q.guest.fetch(c.address).value) == [c];
      }
      if c in h.calls {
        assert p.CallsOf(p.guest.fetch(c.address).value) == [c];
      }
    }
  }

  lemma SameUnresolved(p: Problem, q: Problem, g: Graph, h: Graph)
    requires SameCode(p, q) && p.IsAnalysis(g) && q.IsAnalysis(h) && Addresses(g) == Addresses(h)
    ensures multiset(g.unresolved) == multiset(h.unresolved)
  {
    forall c
      ensures multiset(g.unresolved)[c] == multiset(h.unresolved)[c]
    {
      OnceEach(g.unresolved, c);
      OnceEach(h.unresolved, c);
      if c in g.unresolved {
        assert q.UnresolvedOf(q.guest.fetch(c.address).value) == [c];
      }
      if c in h.unresolved {
        assert p.UnresolvedOf(p.guest.fetch(c.address).value) == [c];
      }
    }
  }

  // Partition, limits and success.

  /** Every instruction is stored once, in one block, and no block start lies inside a block. */
  lemma ExactlyOnce(p: Problem, g: Graph, s: Address, t: Address, i: nat, j: nat)
    requires p.IsAnalysis(g) && s in g.blocks && t in g.blocks
    requires i < |g.blocks[s].instructions| && j < |g.blocks[t].instructions|
    requires g.blocks[s].instructions[i].address == g.blocks[t].instructions[j].address
    ensures s == t && i == j
  {
    var b, c := g.blocks[s], g.blocks[t];
    assert p.BlockAt(s, b) && p.BlockAt(t, c) && p.IsMaximal(b) && p.IsMaximal(c);
    assert b.instructions[i].address == s + 4 * i && c.instructions[j].address == t + 4 * j;
  }

  /** The instructions, block starts and count of a graph. */
  lemma GraphSets(p: Problem, g: Graph)
    requires p.IsAnalysis(g)
    ensures forall a :: a in Addresses(g) <==> p.Reaches(a)
    ensures forall l :: l in g.blocks <==> p.StartsBlock(l)
    ensures g.instructionCount == |Addresses(g)|
  {
    hide Problem.BlockAt, Problem.IsMaximal, Problem.ListsCalls, Problem.ListsUnresolved, Problem.Reaches,
         Problem.StartsBlock;
  }

  /** The last instruction of a block, which its edges come from, is reached. */
  lemma LastIsReached(p: Problem, g: Graph, s: Address)
    requires p.IsAnalysis(g) && s in g.blocks
    ensures p.BlockAt(s, g.blocks[s]) && p.IsMaximal(g.blocks[s]) && p.Reaches(g.blocks[s].Last().address)
    ensures p.guest.fetch(g.blocks[s].Last().address) == Ok(g.blocks[s].Last())
  {
    var b := g.blocks[s];
    assert p.BlockAt(s, b);
    var last := |b.instructions| - 1;
    assert b.instructions[last].address in Addresses(g);
  }

  lemma EdgeStartsBlock(p: Problem, b: BasicBlock, t: Address)
    requires p.BlockAt(b.start, b) && p.IsMaximal(b) && p.Reaches(b.Last().address)
    requires p.guest.fetch(b.Last().address) == Ok(b.Last()) && t in p.Ahead(b.Last())
    ensures p.StartsBlock(t)
  {
    p.SuccessorsAhead(b.Last());
    assert b.Last().address + 4 == b.End();
  }

  lemma AnalyzedBlockFits(p: Problem, g: Graph, s: Address)
    requires p.IsAnalysis(g) && s in g.blocks
    ensures BlockShape(g.blocks.Keys, s, g.blocks[s])
  {
    LastIsReached(p, g, s);
    var b := g.blocks[s];
    assert p.StepError(b.Last().address).None?;
    BuilderResult.TerminatorFits(p, b);
    forall i | 0 <= i < |b.successors|
      ensures EdgeShape(g.blocks.Keys, b, b.successors[i])
    {
      var e := b.successors[i];
      assert e in p.Edges(b.Last());
      BuilderResult.EdgesFromLast(p, b.Last(), e);
      if e.internal {
        EdgeStartsBlock(p, b, e.target);
      }
      assert e.kind.FunctionTransfer? ==> e.target in TransferTargets(g);
    }
  }

  /** The graph of every analysis passes the validator. */
  lemma AnalysisIsWellFormed(p: Problem, g: Graph)
    requires p.IsAnalysis(g)
    ensures WellFormed(g)
  {
    forall s | s in g.blocks
      ensures BlockShape(g.blocks.Keys, s, g.blocks[s])
    {
      AnalyzedBlockFits(p, g, s);
    }
    forall s, t | s in g.blocks && t in g.blocks && s != t
      ensures AddressesOf(g.blocks[s]) !! AddressesOf(g.blocks[t])
    {
      forall i, j | 0 <= i < |g.blocks[s].instructions| && 0 <= j < |g.blocks[t].instructions|
        ensures g.blocks[s].instructions[i].address != g.blocks[t].instructions[j].address
      {
        if g.blocks[s].instructions[i].address == g.blocks[t].instructions[j].address {
          ExactlyOnce(p, g, s, t, i, j);
        }
      }
    }
  }

  lemma NotMoreThan(n: nat, s: iset<Address>, t: set<Address>)
    requires |t| <= n && forall a :: a in s ==> a in t
    ensures !MoreThan(n, s)
  {
    if MoreThan(n, s) {
      var u :| LargePart(n, s, u);
      assert forall a :: a in u ==> a in t;
      SubsetIsSmaller(u, t);
    }
  }

  /** A graph holds more instructions, or blocks, than a number says exactly when the reach, or the starts, do. */
  lemma CountsAreExact(p: Problem, g: Graph, n: nat)
    requires p.IsAnalysis(g)
    ensures MoreThan(n, p.Reach()) <==> g.instructionCount > n
    ensures MoreThan(n, p.Starts()) <==> |g.blocks| > n
  {
    assert |g.blocks| == |g.blocks.Keys|;
    if g.instructionCount > n {
      assert LargePart(n, p.Reach(), Addresses(g));
    } else {
      NotMoreThan(n, p.Reach(), Addresses(g));
    }
    if |g.blocks| > n {
      assert LargePart(n, p.Starts(), g.blocks.Keys);
    } else {
      NotMoreThan(n, p.Starts(), g.blocks.Keys);
    }
  }

  /** Nothing but a limit can make the analysis fail. */
  ghost predicate IsSound(p: Problem) {
    p.EntryError().None? && forall a :: p.Reaches(a) ==> p.StepError(a).None? && !p.TransfersTo(a, p.Starts())
  }

  /** The instruction limit is exact: where no other limit is met, the error is returned when, and only when,
      more instructions than the limit are reached. */
  lemma InstructionLimitIsExact(p: Problem, r: Result<Graph>)
    requires p.Returns(r) && IsSound(p)
    requires !MoreThan(p.options.maxBasicBlocks, p.Starts()) && !MoreThan(p.options.maxPendingTargets, p.Starts())
    ensures r == Err(AnalysisInstructionLimitExceeded) <==> MoreThan(p.options.maxInstructions, p.Reach())
    ensures r.Ok? <==> !MoreThan(p.options.maxInstructions, p.Reach())
  {
    hide Problem.IsAnalysis, MoreThan;
    if r.Ok? {
      CountsAreExact(p, r.value, p.options.maxInstructions);
    }
  }

  /** The block limit holds up to one block: more than one above it fail, and so, beyond the first straight run,
      may one; no more than the limit never fail. */
  lemma BlockLimitIsMet(p: Problem, r: Result<Graph>)
    requires p.Returns(r) && IsSound(p)
    requires !MoreThan(p.options.maxInstructions, p.Reach()) && !MoreThan(p.options.maxPendingTargets, p.Starts())
    ensures MoreThan(p.options.maxBasicBlocks + 1, p.Starts()) ==> r == Err(AnalysisBlockLimitExceeded)
    ensures r == Err(AnalysisBlockLimitExceeded) ==>
              MoreThan(p.options.maxBasicBlocks, p.Starts()) && p.SomeStartIsBeyond(p.Starts())
    ensures r.Ok? || r == Err(AnalysisBlockLimitExceeded)
  {
    hide Problem.IsAnalysis, MoreThan, Problem.InFirstRun;
    if r.Ok? {
      CountsAreExact(p, r.value, p.options.maxBasicBlocks + 1);
    }
  }

  /** A sound problem with room for its reach cannot fail: every failure has a cause in the code. */
  lemma SoundProblemsSucceed(p: Problem, reach: set<Address>, starts: set<Address>, c: ErrorCode)
    requires p.EntryError().None?
    requires forall a :: p.Reaches(a) ==> a in reach && p.StepError(a).None? && !p.TransfersTo(a, p.Starts())
    requires forall l :: p.StartsBlock(l) ==> l in starts
    requires |reach| <= p.options.maxInstructions
    requires |starts| <= p.options.maxBasicBlocks && |starts| <= p.options.maxPendingTargets
    ensures !p.FailureCause(c)
  {
    NotMoreThan(p.options.maxInstructions, p.Reach(), reach);
    NotMoreThan(p.options.maxBasicBlocks, p.Starts(), starts);
    NotMoreThan(p.options.maxPendingTargets, p.Starts(), starts);
  }

  // The block limit can be exceeded by one: the branch at 0x1004 leads back to itself, and the one
  // run that is decoded from 0x1000 is published as two blocks.

  const LOOP := GuestView(
    map[0x1000 := Ok(true), 0x1004 := Ok(true)],
    map[0x1000 := Ok(Instruction(0x1000, Flow(Fallthrough, None, None))),
        0x1004 := Ok(Instruction(0x1004, Flow(DirectBranch, Some(0x1004), None)))])

  const ONE_BLOCK := Problem(LOOP, AnalysisOptions(2, 1, 2, None, {}), 0x1000)

  lemma LoopFetchesCode()
    ensures LOOP.FetchesCode() && ONE_BLOCK.EntryError().None?
  {
  }

  lemma LoopSteps()
    ensures ONE_BLOCK.Successors(0x1000) == {0x1004} == ONE_BLOCK.Successors(0x1004)
    ensures ONE_BLOCK.LeaderTargets(0x1000) == {} && ONE_BLOCK.LeaderTargets(0x1004) == {0x1004}
    ensures ONE_BLOCK.StepError(0x1000).None? && ONE_BLOCK.StepError(0x1004).None?
  {
    ONE_BLOCK.SuccessorsAhead(LOOP.code[0x1000].value);
    ONE_BLOCK.SuccessorsAhead(LOOP.code[0x1004].value);
  }

  lemma LoopReach()
    ensures forall a :: ONE_BLOCK.Reaches(a) <==> a in {0x1000, 0x1004}
    ensures forall l :: ONE_BLOCK.StartsBlock(l) <==> l in {0x1000, 0x1004}
  {
    LoopSteps();
    hide Problem.Successors, Problem.LeaderTargets, Problem.StepError;
    var both := iset{0x1000, 0x1004};
    assert ONE_BLOCK.ClosedUnderSuccessors(both) && ONE_BLOCK.entry in both;
    assert ONE_BLOCK.Reaches(0x1000);
    assert ONE_BLOCK.Reaches(0x1004) by {
      assert 0x1004 in ONE_BLOCK.Successors(0x1000);
    }
    assert ONE_BLOCK.StartsBlock(0x1004) by {
      assert 0x1004 in ONE_BLOCK.LeaderTargets(0x1004);
    }
    assert ONE_BLOCK.StartsBlock(0x1000);
  }

  lemma LoopIsOneRun()
    ensures ONE_BLOCK.InFirstRun(0x1000) && ONE_BLOCK.InFirstRun(0x1004)
  {
    forall b | 0x1000 <= b < 0x1004 && (b - 0x1000) % 4 == 0
      ensures LOOP.fetch(b).Ok? && LOOP.fetch(b).value.flow.kind.Fallthrough? && ONE_BLOCK.Internal(b + 4)
    {
      assert b == 0x1000;
    }
    assert ONE_BLOCK.guest == LOOP && ONE_BLOCK.entry == 0x1000;
  }

  lemma LoopIsSound()
    ensures IsSound(ONE_BLOCK)
    ensures !MoreThan(2, ONE_BLOCK.Reach()) && !MoreThan(2, ONE_BLOCK.Starts())
  {
    LoopFetchesCode();
    LoopReach();
    LoopSteps();
    hide Problem.Reaches, Problem.StartsBlock, Problem.EntryError, Problem.StepError;
    NotMoreThan(2, ONE_BLOCK.Reach(), {0x1000, 0x1004});
    NotMoreThan(2, ONE_BLOCK.Starts(), {0x1000, 0x1004});
  }

  /** The limit is one block, and the analysis succeeds with two. */
  method OneBlockTooMany() returns (g: Graph)
    ensures ONE_BLOCK.options.maxBasicBlocks == 1 && ONE_BLOCK.IsAnalysis(g) && |g.blocks| == 2
  {
    hide Problem.IsAnalysis, GuestView.FetchesCode, MoreThan, IsSound, Problem.InFirstRun, Problem.Reaches,
         Problem.StartsBlock, Problem.EntryError;
    LoopFetchesCode();
    var r := AnalyzeControlFlow(LOOP, 0x1000, ONE_BLOCK.options);
    LoopIsSound();
    LoopReach();
    LoopIsOneRun();
    BlockLimitIsMet(ONE_BLOCK, r);
    g := r.value;
    TwoBlocks(g);
  }

  lemma TwoBlocks(g: Graph)
    requires ONE_BLOCK.IsAnalysis(g)
    ensures |g.blocks| == 2
  {
    hide Problem.IsAnalysis, Problem.Reaches, Problem.StartsBlock;
    LoopReach();
    GraphSets(ONE_BLOCK, g);
    forall l
      ensures l in g.blocks.Keys <==> l in {0x1000, 0x1004}
    {
      assert l in g.blocks <==> ONE_BLOCK.StartsBlock(l);
    }
    assert g.blocks.Keys == {0x1000, 0x1004};
    assert |g.blocks| == |g.blocks.Keys| == |{0x1000, 0x1004}|;
  }
}
