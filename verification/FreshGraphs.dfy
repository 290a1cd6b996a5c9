/** When a graph computed with fewer known entries is still the one to publish. */
module FreshGraphs {
  import opened Common
  import opened ControlFlow
  import opened CfgTheorems
  import opened CodeRanges
  import opened FunctionRecords

  /** The branch at `a` leaves the function under `q`, and did not under `p`. */
  ghost predicate NewlyCut(p: Problem, q: Problem, a: Address) {
    p.guest.fetch(a).Ok? && q.IsTransfer(p.guest.fetch(a).value) && !p.IsTransfer(p.guest.fetch(a).value)
  }

  ghost predicate NothingCut(p: Problem, q: Problem) {
    forall a {:trigger p.Reaches(a)} :: p.Reaches(a) ==> !NewlyCut(p, q, a)
  }

  lemma UncutEdges(p: Problem, q: Problem, a: Address)
    requires KnowsMore(p, q) && !NewlyCut(p, q, a)
    ensures p.guest.fetch(a).Ok? ==> p.Edges(p.guest.fetch(a).value) == q.Edges(p.guest.fetch(a).value)
    ensures p.Successors(a) == q.Successors(a) && p.LeaderTargets(a) == q.LeaderTargets(a)
    ensures p.StepError(a) == q.StepError(a)
  {
  }

  /** While no reached branch is newly cut, new entries change neither the reach nor the block starts. */
  lemma UncutSets(p: Problem, q: Problem)
    requires KnowsMore(p, q) && p.guest.FetchesCode() && NothingCut(p, q)
    ensures forall a :: p.Reaches(a) <==> q.Reaches(a)
    ensures forall l :: p.StartsBlock(l) <==> q.StartsBlock(l)
  {
    ReachShrinks(p, q);
    var s := q.Reach();
    forall a | a in s
      ensures forall b :: b in p.Successors(a) ==> b in s
      ensures forall l :: l in p.LeaderTargets(a) ==> q.StartsBlock(l)
    {
      assert p.Reaches(a);
      UncutEdges(p, q, a);
    }
    assert p.ClosedUnderSuccessors(s) && p.entry in s;
  }

  lemma SameStartsSameBlock(p: Problem, q: Problem, s: Address, b: BasicBlock)
    requires KnowsMore(p, q) && p.BlockAt(s, b) && p.IsMaximal(b) && p.Edges(b.Last()) == q.Edges(b.Last())
    requires forall l :: p.StartsBlock(l) <==> q.StartsBlock(l)
    ensures q.BlockAt(s, b) && q.IsMaximal(b)
  {
    assert q.IsRun(s, b.instructions);
  }

  lemma BlockStaysFresh(p: Problem, q: Problem, g: Graph, s: Address)
    requires KnowsMore(p, q) && p.guest.FetchesCode() && NothingCut(p, q) && p.IsAnalysis(g) && s in g.blocks
    ensures q.BlockAt(s, g.blocks[s]) && q.IsMaximal(g.blocks[s])
  {
    LastIsReached(p, g, s);
    UncutEdges(p, q, g.blocks[s].Last().address);
    UncutSets(p, q);
    SameStartsSameBlock(p, q, s, g.blocks[s]);
  }

  lemma UncutSteps(p: Problem, q: Problem, g: Graph)
    requires KnowsMore(p, q) && p.guest.FetchesCode() && NothingCut(p, q) && p.IsAnalysis(g)
    ensures forall a :: a in Addresses(g) <==> q.Reaches(a)
    ensures forall a :: q.Reaches(a) ==> q.StepError(a).None?
    ensures forall s :: s in g.blocks <==> q.StartsBlock(s)
  {
    UncutSets(p, q);
    forall a | q.Reaches(a)
      ensures q.StepError(a).None?
    {
      assert p.Reaches(a);
      UncutEdges(p, q, a);
    }
  }

  lemma SameCallLists(p: Problem, q: Problem, s: set<Address>, calls: seq<CallSite>)
    requires p.guest == q.guest && p.ListsCalls(s, calls)
    ensures q.ListsCalls(s, calls)
  {
    forall i: Instruction
      ensures p.CallsOf(i) == q.CallsOf(i)
    {
    }
  }

  lemma SameUnresolvedLists(p: Problem, q: Problem, s: set<Address>, unresolved: seq<Unresolved>)
    requires p.guest == q.guest && p.ListsUnresolved(s, unresolved)
    ensures q.ListsUnresolved(s, unresolved)
  {
    forall i: Instruction
      ensures p.UnresolvedOf(i) == q.UnresolvedOf(i)
    {
    }
  }

  lemma StaysFresh(p: Problem, q: Problem, g: Graph)
    requires KnowsMore(p, q) && p.guest.FetchesCode() && NothingCut(p, q) && p.IsAnalysis(g)
    ensures q.IsAnalysis(g)
  {
    UncutSteps(p, q, g);
    SameCallLists(p, q, Addresses(g), g.calls);
    SameUnresolvedLists(p, q, Addresses(g), g.unresolved);
    forall s | s in g.blocks
      ensures q.BlockAt(s, g.blocks[s]) && q.IsMaximal(g.blocks[s])
    {
      BlockStaysFresh(p, q, g, s);
    }
  }

  /** An instruction that diverts control ends its block. */
  lemma DiverterIsLast(p: Problem, g: Graph, a: Address) returns (s: Address)
    requires p.IsAnalysis(g) && p.Reaches(a)
    requires p.guest.fetch(a).Ok? && !p.guest.fetch(a).value.flow.kind.Fallthrough?
    ensures s in g.blocks && g.blocks[s].instructions != [] && g.blocks[s].Last() == p.guest.fetch(a).value
    ensures g.blocks[s].successors == p.Edges(g.blocks[s].Last())
  {
    assert a in Addresses(g);
    var t, i :| t in g.blocks && 0 <= i < |g.blocks[t].instructions| && g.blocks[t].instructions[i].address == a;
    s := t;
    var b := g.blocks[s];
    assert p.BlockAt(s, b);
    assert p.guest.fetch(b.instructions[i].address) == Ok(b.instructions[i]);
    assert i == |b.instructions| - 1;
  }

  /** A newly cut branch ends a block, and its edge must change. */
  lemma GoesStale(p: Problem, q: Problem, g: Graph, a: Address)
    requires KnowsMore(p, q) && p.IsAnalysis(g) && p.Reaches(a) && NewlyCut(p, q, a)
    ensures !q.IsAnalysis(g)
  {
    var s := DiverterIsLast(p, g, a);
    var i := p.guest.fetch(a).value;
    assert p.Edges(i)[0] != q.Edges(i)[0];
    if q.IsAnalysis(g) {
      EdgesOfBlock(q, g, s);
    }
  }

  lemma EdgesOfBlock(p: Problem, g: Graph, s: Address)
    requires p.IsAnalysis(g) && s in g.blocks
    ensures g.blocks[s].instructions != [] && g.blocks[s].successors == p.Edges(g.blocks[s].Last())
  {
    assert p.BlockAt(s, g.blocks[s]);
  }

  /** The exact condition: a graph survives new entries when, and only when, none of them is the
      target of an unconditional branch the function reaches. */
  lemma FreshExactly(p: Problem, q: Problem, g: Graph)
    requires KnowsMore(p, q) && p.guest.FetchesCode() && p.IsAnalysis(g)
    ensures q.IsAnalysis(g) <==> NothingCut(p, q)
  {
    if NothingCut(p, q) {
      StaysFresh(p, q, g);
    } else {
      var a :| p.Reaches(a) && NewlyCut(p, q, a);
      GoesStale(p, q, g, a);
    }
  }

  // The test that lets a finalization pass keep a graph.

  /** A boundary found after the checkpoint lies in the function's own code. */
  predicate BoundaryChanged(f: FunctionRecord, boundaries: seq<Address>, checkpoint: nat) {
    exists k :: checkpoint <= k < |boundaries| && ContainsAny(f.ranges, boundaries[k], 4)
  }

  ghost predicate OwnsItsGraph(f: FunctionRecord) {
    f.cfg.Some? && HasCode(f.cfg.value) && Describes(f.cfg.value, f.ranges)
  }

  lemma OwnWordIsContained(f: FunctionRecord, a: Address)
    requires OwnsItsGraph(f) && a in Addresses(f.cfg.value)
    ensures ContainsAny(f.ranges, a, 4)
  {
    assert InGraph(f.cfg.value, a) && Owns(f.ranges, a);
    var i :| 0 <= i < |f.ranges| && Covers(f.ranges[i], a);
    assert IsCodeWord(a) && IsCodeRange(f.ranges[i]);
    assert f.ranges[i].Holds(a, 4);
  }

  /** The function reaches an unconditional branch to `t`, which is not its own entry. */
  ghost predicate BranchesTo(p: Problem, t: Address) {
    t != p.entry && exists a :: p.Reaches(a) && IsBranchTo(p.guest.fetch(a), t)
  }

  ghost predicate IsBranchTo(i: Result<Instruction>, t: Address) {
    i.Ok? && i.value.flow.kind.DirectBranch? && i.value.flow.target == Some(t)
  }

  /** A boundary the graph did not know is the target of one of its branches, and the test cannot see it:
      it was counted by the checkpoint, or it lies outside the range that analyses stay in. */
  ghost predicate Overlooked(p: Problem, boundaries: seq<Address>, from: nat, checkpoint: nat, upTo: nat)
    requires upTo <= |boundaries|
  {
    exists k :: from <= k < upTo && (k < checkpoint || !p.Internal(boundaries[k])) && BranchesTo(p, boundaries[k])
  }

  /** `q` knows what `p` knows and the boundaries found since. */
  ghost predicate Learns(p: Problem, q: Problem, boundaries: seq<Address>, from: nat, upTo: nat)
    requires upTo <= |boundaries|
  {
    && KnowsMore(p, q)
    && (forall e :: e in q.options.knownEntries ==>
          e in p.options.knownEntries || exists k :: from <= k < upTo && boundaries[k] == e)
    && (forall k :: from <= k < upTo ==>
          boundaries[k] in q.options.knownEntries && boundaries[k] !in p.options.knownEntries)
  }

  /** The target of a branch inside the range is part of the function that branches there. */
  lemma BranchTargetIsOwned(p: Problem, f: FunctionRecord, a: Address, t: Address)
    requires p.guest.FetchesCode() && OwnsItsGraph(f) && p.IsAnalysis(f.cfg.value)
    requires p.Reaches(a) && IsBranchTo(p.guest.fetch(a), t) && !p.IsTransfer(p.guest.fetch(a).value) && p.Internal(t)
    ensures ContainsAny(f.ranges, t, 4)
  {
    var i := p.guest.fetch(a).value;
    p.SuccessorsAhead(i);
    assert t in p.Successors(a);
    assert p.Reaches(t) && t in Addresses(f.cfg.value);
    OwnWordIsContained(f, t);
  }

  lemma OverlookedIsCut(p: Problem, q: Problem, boundaries: seq<Address>, from: nat, checkpoint: nat, upTo: nat)
    requires upTo <= |boundaries| && Learns(p, q, boundaries, from, upTo)
    requires Overlooked(p, boundaries, from, checkpoint, upTo)
    ensures !NothingCut(p, q)
  {
    var k :| from <= k < upTo && (k < checkpoint || !p.Internal(boundaries[k])) && BranchesTo(p, boundaries[k]);
    var a :| p.Reaches(a) && IsBranchTo(p.guest.fetch(a), boundaries[k]);
    assert NewlyCut(p, q, a);
  }

  lemma CutIsOverlooked(p: Problem, q: Problem, f: FunctionRecord, boundaries: seq<Address>, from: nat, checkpoint: nat,
                        upTo: nat)
    requires upTo <= |boundaries| && Learns(p, q, boundaries, from, upTo)
    requires p.guest.FetchesCode() && OwnsItsGraph(f) && p.IsAnalysis(f.cfg.value)
    requires !BoundaryChanged(f, boundaries, checkpoint) && !NothingCut(p, q)
    ensures Overlooked(p, boundaries, from, checkpoint, upTo)
  {
    var a :| p.Reaches(a) && NewlyCut(p, q, a);
    var t := p.guest.fetch(a).value.flow.target.value;
    var k :| from <= k < upTo && boundaries[k] == t;
    assert IsBranchTo(p.guest.fetch(a), t) && BranchesTo(p, t);
    if p.Internal(t) {
      BranchTargetIsOwned(p, f, a, t);
    }
  }

  /** The exact condition for the test: a graph it keeps is stale when, and only when, it overlooks a boundary. */
  lemma KeptExactly(p: Problem, q: Problem, f: FunctionRecord, boundaries: seq<Address>, from: nat, checkpoint: nat,
                    upTo: nat)
    requires upTo <= |boundaries| && Learns(p, q, boundaries, from, upTo)
    requires p.guest.FetchesCode() && OwnsItsGraph(f) && p.IsAnalysis(f.cfg.value)
    requires !BoundaryChanged(f, boundaries, checkpoint)
    ensures q.IsAnalysis(f.cfg.value) <==> !Overlooked(p, boundaries, from, checkpoint, upTo)
  {
    FreshExactly(p, q, f.cfg.value);
    if Overlooked(p, boundaries, from, checkpoint, upTo) {
      OverlookedIsCut(p, q, boundaries, from, checkpoint, upTo);
    } else if !NothingCut(p, q) {
      CutIsOverlooked(p, q, f, boundaries, from, checkpoint, upTo);
    }
  }
}
