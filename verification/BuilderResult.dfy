/** A finished worklist leaves exactly the graph the problem defines. */
module BuilderResult {
  import opened Common
  import opened ControlFlow
  import opened GraphValidation
  import opened BuilderInvariant

  /** The tables when no work is left: every leader is a block and everything decoded is published. */
  ghost predicate Finished(p: Problem, reach: iset<Address>, starts: iset<Address>,
                           blocks: map<Address, BasicBlock>, leaders: set<Address>, decoded: set<Address>) {
    && Partition(blocks, leaders)
    && Genuine(p, blocks, leaders)
    && Seeded(p, starts, leaders)
    && (forall l :: l in leaders ==> l in blocks)
    && (forall a :: a in decoded <==> CoveredBy(blocks, a))
    && (forall a :: a in decoded ==> a in reach)
  }

  lemma WorkIsDone(p: Problem, reach: iset<Address>, starts: iset<Address>, blocks: map<Address, BasicBlock>,
                   leaders: set<Address>, pending: set<Address>, decoded: set<Address>, count: nat, at: int)
    requires Consistent(p, starts, blocks, leaders, pending, [], {})
    requires Logged(p, reach, blocks, decoded, count, at, at)
    ensures Finished(p, reach, starts, blocks, leaders, decoded)
  {
  }

  /** A covered address holds one of the block's own instructions. */
  lemma CoveredIsIndexed(p: Problem, b: BasicBlock, a: Address) returns (i: nat)
    requires p.BlockAt(b.start, b) && Covers(b, a)
    ensures i < |b.instructions| && b.instructions[i].address == a && a == b.start + 4 * i
    ensures p.guest.fetch(a) == Ok(b.instructions[i])
  {
    assert b.instructions[0].address == b.start;
    i := (a - b.start) / 4;
  }

  /** Every step out of a decoded instruction is accounted for. */
  lemma DecodedStep(p: Problem, reach: iset<Address>, starts: iset<Address>, blocks: map<Address, BasicBlock>,
                    leaders: set<Address>, decoded: set<Address>, a: Address)
    requires Finished(p, reach, starts, blocks, leaders, decoded) && a in decoded
    ensures p.guest.fetch(a).Ok? && p.StepError(a).None?
    ensures forall b :: b in p.Successors(a) ==> b in decoded
    ensures forall l :: l in p.LeaderTargets(a) ==> l in leaders
  {
    var s :| s in blocks && Covers(blocks[s], a);
    var b := blocks[s];
    assert p.BlockAt(s, b) && Settled(p, b, leaders);
    var k := CoveredIsIndexed(p, b, a);
    var i := b.instructions[k];
    p.SuccessorsAhead(i);
    if k < |b.instructions| - 1 {
      assert i.flow.kind.Fallthrough?;
      assert Covers(b, a + 4) && CoveredBy(blocks, a + 4);
    } else {
      assert i == b.Last();
      forall l | l in leaders
        ensures l in decoded
      {
        assert p.BlockAt(l, blocks[l]);
        assert Covers(blocks[l], l);
      }
    }
  }

  /** The decoded addresses are the least set that holds the entry and is closed. */
  lemma DecodedIsReach(p: Problem, starts: iset<Address>, blocks: map<Address, BasicBlock>, leaders: set<Address>,
                       decoded: set<Address>)
    requires Finished(p, p.Reach(), starts, blocks, leaders, decoded)
    ensures forall a :: a in decoded <==> p.Reaches(a)
  {
    var s := iset a | a in decoded;
    forall a | a in s
      ensures forall b :: b in p.Successors(a) ==> b in s
    {
      DecodedStep(p, p.Reach(), starts, blocks, leaders, decoded, a);
    }
    assert p.BlockAt(p.entry, blocks[p.entry]);
    assert Covers(blocks[p.entry], p.entry);
    assert p.ClosedUnderSuccessors(s) && p.entry in s;
  }

  lemma LeadersAreStarts(p: Problem, blocks: map<Address, BasicBlock>, leaders: set<Address>, decoded: set<Address>)
    requires Finished(p, p.Reach(), p.Starts(), blocks, leaders, decoded)
    ensures forall l :: l in leaders <==> p.StartsBlock(l)
  {
    DecodedIsReach(p, p.Starts(), blocks, leaders, decoded);
    forall l | p.StartsBlock(l)
      ensures l in leaders
    {
      if l != p.entry {
        var a :| p.Reaches(a) && l in p.LeaderTargets(a);
        DecodedStep(p, p.Reach(), p.Starts(), blocks, leaders, decoded, a);
      }
    }
  }

  lemma BlockIsMaximal(p: Problem, b: BasicBlock, leaders: set<Address>)
    requires p.BlockAt(b.start, b) && Settled(p, b, leaders)
    requires forall l :: p.StartsBlock(l) ==> l in leaders
    requires forall l :: l in leaders ==> p.StartsBlock(l)
    requires forall l :: l in leaders ==> !StrictlyInside(b, l)
    ensures p.IsMaximal(b)
  {
    assert b.Last().address == b.start + 4 * (|b.instructions| - 1);
    if b.Last().flow.kind.Fallthrough? && p.Internal(b.End()) {
      assert b.End() in p.Ahead(b.Last());
    }
  }

  lemma BlocksAreMaximal(p: Problem, blocks: map<Address, BasicBlock>, leaders: set<Address>, decoded: set<Address>,
                         s: Address)
    requires Finished(p, p.Reach(), p.Starts(), blocks, leaders, decoded) && s in blocks
    ensures p.BlockAt(s, blocks[s]) && p.IsMaximal(blocks[s])
  {
    LeadersAreStarts(p, blocks, leaders, decoded);
    assert p.BlockAt(s, blocks[s]) && Settled(p, blocks[s], leaders);
    assert forall l :: l in leaders ==> !StrictlyInside(blocks[s], l);
    BlockIsMaximal(p, blocks[s], leaders);
  }

  lemma AddressesAreDecoded(p: Problem, reach: iset<Address>, starts: iset<Address>, leaders: set<Address>,
                            decoded: set<Address>, g: Graph)
    requires Finished(p, reach, starts, g.blocks, leaders, decoded)
    ensures Addresses(g) == decoded
  {
    forall a | a in decoded
      ensures a in Addresses(g)
    {
      var s :| s in g.blocks && Covers(g.blocks[s], a);
      assert p.BlockAt(s, g.blocks[s]);
      var i := CoveredIsIndexed(p, g.blocks[s], a);
    }
    forall a | a in Addresses(g)
      ensures a in decoded
    {
      var s, i :| s in g.blocks && 0 <= i < |g.blocks[s].instructions| && g.blocks[s].instructions[i].address == a;
      assert p.BlockAt(s, g.blocks[s]);
      assert Covers(g.blocks[s], a);
    }
  }

  /** The finished graph is the analysis, unless the validator objects to a transfer. */
  lemma FinishedIsAnalysis(p: Problem, leaders: set<Address>, decoded: set<Address>, g: Graph)
    requires Finished(p, p.Reach(), p.Starts(), g.blocks, leaders, decoded)
    requires g.entry == p.entry && g.instructionCount == |decoded|
    requires p.ListsCalls(decoded, g.calls) && p.ListsUnresolved(decoded, g.unresolved)
    requires TransferTargets(g) !! g.blocks.Keys
    ensures p.IsAnalysis(g)
  {
    AddressesAreDecoded(p, p.Reach(), p.Starts(), leaders, decoded, g);
    DecodedIsReach(p, p.Starts(), g.blocks, leaders, decoded);
    LeadersAreStarts(p, g.blocks, leaders, decoded);
    forall s | s in g.blocks
      ensures p.BlockAt(s, g.blocks[s]) && p.IsMaximal(g.blocks[s])
    {
      BlocksAreMaximal(p, g.blocks, leaders, decoded, s);
    }
    forall a | p.Reaches(a)
      ensures p.StepError(a).None?
    {
      DecodedStep(p, p.Reach(), p.Starts(), g.blocks, leaders, decoded, a);
    }
    forall s
      ensures s in g.blocks <==> p.StartsBlock(s)
    {
      assert s in g.blocks ==> g.blocks[s].start == s;
    }
  }

  // The validator.

  lemma EdgesFromLast(p: Problem, i: Instruction, e: Edge)
    requires e in p.Edges(i)
    ensures e.source == i.address && (e.internal ==> e.target in p.Ahead(i))
    ensures e.kind.FunctionTransfer? ==> p.IsTransfer(i) && !e.internal && e.target == i.flow.target.value
  {
  }

  lemma TerminatorFits(p: Problem, b: BasicBlock)
    requires p.BlockAt(b.start, b) && p.ErrorAfter(b.Last()).None?
    ensures TerminatorShape(b)
  {
    var i := b.Last();
    if i.flow.kind.ConditionalBranch? {
      assert b.successors == p.TakenEdges(i) + p.FallthroughEdges(i.address, ConditionalNotTaken);
      assert EdgeHasKind(b.successors[0], ConditionalTaken) && EdgeHasKind(b.successors[1], ConditionalNotTaken);
    }
  }

  /** A published block passes every check but the one on transfer targets. */
  lemma BlockFits(p: Problem, starts: iset<Address>, g: Graph, leaders: set<Address>, decoded: set<Address>,
                  reach: iset<Address>, s: Address)
    requires Finished(p, reach, starts, g.blocks, leaders, decoded) && s in g.blocks
    requires TransferTargets(g) !! g.blocks.Keys
    ensures BlockShape(g.blocks.Keys, s, g.blocks[s])
  {
    var b := g.blocks[s];
    assert p.BlockAt(s, b) && Settled(p, b, leaders);
    TerminatorFits(p, b);
    forall i | 0 <= i < |b.successors|
      ensures EdgeShape(g.blocks.Keys, b, b.successors[i])
    {
      var e := b.successors[i];
      EdgesFromLast(p, b.Last(), e);
      assert e.kind.FunctionTransfer? ==> e.target in TransferTargets(g);
    }
  }

  lemma BlocksShareNothing(p: Problem, g: Graph, leaders: set<Address>, s: Address, t: Address)
    requires Partition(g.blocks, leaders) && Genuine(p, g.blocks, leaders)
    requires s in g.blocks && t in g.blocks && s < t
    ensures AddressesOf(g.blocks[s]) !! AddressesOf(g.blocks[t])
  {
    assert p.BlockAt(s, g.blocks[s]) && p.BlockAt(t, g.blocks[t]);
    assert !StrictlyInside(g.blocks[s], t);
  }

  /** The finished graph passes the validator exactly when no transfer leads back into it. */
  lemma FinishedIsWellFormed(p: Problem, reach: iset<Address>, starts: iset<Address>, leaders: set<Address>,
                             decoded: set<Address>, g: Graph)
    requires Finished(p, reach, starts, g.blocks, leaders, decoded)
    ensures WellFormed(g) <==> TransferTargets(g) !! g.blocks.Keys
    ensures !Overflows(g)
  {
    forall s | s in g.blocks
      ensures g.blocks[s].End() < TWO64
    {
      assert p.BlockAt(s, g.blocks[s]);
    }
    if TransferTargets(g) !! g.blocks.Keys {
      forall s | s in g.blocks
        ensures BlockShape(g.blocks.Keys, s, g.blocks[s])
      {
        BlockFits(p, starts, g, leaders, decoded, reach, s);
      }
      forall s, t | s in g.blocks && t in g.blocks && s != t
        ensures AddressesOf(g.blocks[s]) !! AddressesOf(g.blocks[t])
      {
        if s < t {
          BlocksShareNothing(p, g, leaders, s, t);
        } else {
          BlocksShareNothing(p, g, leaders, t, s);
        }
      }
    } else {
      var a :| a in TransferTargets(g) && a in g.blocks;
      var s, i :| s in g.blocks && 0 <= i < |g.blocks[s].successors|
                  && g.blocks[s].successors[i].kind.FunctionTransfer? && g.blocks[s].successors[i].target == a;
      assert g.blocks[s].instructions != [] ==> !EdgeShape(g.blocks.Keys, g.blocks[s], g.blocks[s].successors[i]);
    }
  }

  /** A rejected graph has a reached transfer whose target starts one of its own blocks. */
  lemma RejectionCause(p: Problem, reach: iset<Address>, starts: iset<Address>, leaders: set<Address>,
                       decoded: set<Address>, g: Graph)
    requires Finished(p, reach, starts, g.blocks, leaders, decoded)
    requires !(TransferTargets(g) !! g.blocks.Keys)
    ensures p.Cause(reach, starts, InvalidFormat)
  {
    var a :| a in TransferTargets(g) && a in g.blocks;
    var s, i :| s in g.blocks && 0 <= i < |g.blocks[s].successors|
                && g.blocks[s].successors[i].kind.FunctionTransfer? && g.blocks[s].successors[i].target == a;
    var b := g.blocks[s];
    assert p.BlockAt(s, b);
    EdgesFromLast(p, b.Last(), b.successors[i]);
    assert b.instructions[|b.instructions| - 1] == b.Last();
    assert Covers(b, b.Last().address) && CoveredBy(g.blocks, b.Last().address);
    assert g.blocks[a].start == a;
    assert p.TransfersTo(b.Last().address, starts);
  }
}
