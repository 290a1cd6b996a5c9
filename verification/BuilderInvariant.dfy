/** What the graph builder's tables mean, and what each of its steps does to them. */
module BuilderInvariant {
  import opened Common
  import opened ControlFlow

  // `reach` and `starts` stand for the two sets that
  // define the result: the addresses reached, and those that start a block.

  ghost predicate Covers(b: BasicBlock, a: Address) {
    a % 4 == 0 && b.start <= a < b.End()
  }

  ghost predicate StrictlyInside(b: BasicBlock, a: Address) {
    b.start < a < b.End()
  }

  /** Blocks are kept at their own start, and no block start lies strictly inside one. */
  ghost predicate Partition(blocks: map<Address, BasicBlock>, leaders: set<Address>) {
    && (forall s {:trigger blocks[s]} :: s in blocks ==> s in leaders)
    && (forall s {:trigger blocks[s]} :: s in blocks ==> blocks[s].start == s && blocks[s].instructions != [])
    && (forall s, l {:trigger StrictlyInside(blocks[s], l)} ::
          s in blocks && l in leaders ==> !StrictlyInside(blocks[s], l))
  }

  /** The step out of the block succeeded, and everything it leads to starts a block. */
  ghost predicate Settled(p: Problem, b: BasicBlock, leaders: set<Address>) {
    && b.instructions != []
    && p.ErrorAfter(b.Last()).None?
    && (forall l {:trigger l in p.Ahead(b.Last())} :: l in p.Ahead(b.Last()) ==> l in leaders)
  }

  ghost predicate Genuine(p: Problem, blocks: map<Address, BasicBlock>, leaders: set<Address>) {
    && (forall s {:trigger p.BlockAt(s, blocks[s])} :: s in blocks ==> p.BlockAt(s, blocks[s]))
    && (forall s {:trigger Settled(p, blocks[s], leaders)} :: s in blocks ==> Settled(p, blocks[s], leaders))
  }

  ghost predicate Seeded(p: Problem, starts: iset<Address>, leaders: set<Address>) {
    && p.entry in leaders
    && forall l :: l in leaders ==> l in starts && p.CanFetch(l) && p.Internal(l)
  }

  /** The worklist lists the pending set without repetition, and no leader is forgotten. */
  ghost predicate Queued(blocks: map<Address, BasicBlock>, leaders: set<Address>, pending: set<Address>,
                         worklist: seq<Address>, extra: set<Address>) {
    && (forall l {:trigger l in pending} :: l in pending ==> l in leaders)
    && (forall l {:trigger l in leaders} :: l in leaders ==> l in blocks || l in pending || l in extra)
    && (forall i, j :: 0 <= i < j < |worklist| ==> worklist[i] != worklist[j])
    && (forall a :: a in worklist <==> a in pending)
  }

  /** No published block meets the addresses `[lo, hi)` of the block being decoded. */
  ghost predicate Apart(blocks: map<Address, BasicBlock>, lo: int, hi: int) {
    forall s :: s in blocks ==> blocks[s].End() <= lo || hi <= blocks[s].start
  }

  ghost predicate CoveredBy(blocks: map<Address, BasicBlock>, a: Address) {
    exists s :: s in blocks && Covers(blocks[s], a)
  }

  /** `decoded` is what the published blocks and the open run `[lo, hi)` cover. */
  ghost predicate Covered(blocks: map<Address, BasicBlock>, lo: int, hi: int, decoded: set<Address>) {
    forall a: Address :: a in decoded <==> (a % 4 == 0 && lo <= a < hi) || CoveredBy(blocks, a)
  }

  ghost predicate Cuts(blocks: map<Address, BasicBlock>, t: Address) {
    exists k :: k in blocks && StrictlyInside(blocks[k], t)
  }

  /** What a cut at `t` leaves: the blocks as they were, or the one around `t` in two. */
  ghost predicate IsCut(before: map<Address, BasicBlock>, after: map<Address, BasicBlock>, t: Address) {
    if Cuts(before, t) then
      && t !in before
      && after.Keys == before.Keys + {t}
      && exists k :: k in before && StrictlyInside(before[k], t) && CutAt(before, after, k, t)
    else after == before
  }

  ghost predicate CutAt(before: map<Address, BasicBlock>, after: map<Address, BasicBlock>, k: Address, t: Address)
    requires k in before && t in after && before.Keys <= after.Keys
  {
    && after[k].start == before[k].start && after[k].End() == t
    && after[t].start == t && after[t].End() == before[k].End()
    && forall s :: s in before && s != k ==> after[s] == before[s]
  }

  function CallsWithin(calls: seq<CallSite>, lo: int, hi: int): seq<CallSite> {
    if calls == [] then []
    else (if lo <= calls[0].address < hi then [calls[0]] else []) + CallsWithin(calls[1..], lo, hi)
  }

  lemma CallsWithinOne(c: CallSite, lo: int, hi: int)
    ensures CallsWithin([c], lo, hi) == if lo <= c.address < hi then [c] else []
    ensures CallsWithin([], lo, hi) == []
  {
    assert [c][1..] == [];
  }

  /** The first `n` instructions of a block, closed by an edge to the rest. */
  function Prefix(b: BasicBlock, n: nat): BasicBlock
    requires 0 < n < |b.instructions|
  {
    var cut := b.instructions[n].address;
    BasicBlock(b.start, b.instructions[..n],
               [Edge(b.instructions[n - 1].address, cut, FallthroughEdge, true)],
               CallsWithin(b.calls, 0, cut))
  }

  function Suffix(b: BasicBlock, n: nat): BasicBlock
    requires n < |b.instructions|
  {
    var cut := b.instructions[n].address;
    BasicBlock(cut, b.instructions[n..], b.successors, CallsWithin(b.calls, cut, TWO64))
  }

  lemma CutCalls(p: Problem, b: BasicBlock, lo: int, hi: int)
    requires p.BlockAt(b.start, b)
    ensures CallsWithin(b.calls, lo, hi) == if lo <= b.Last().address < hi then b.calls else []
  {
    if b.calls != [] {
      CallsWithinOne(b.calls[0], lo, hi);
      assert b.calls == [b.calls[0]] && b.calls[0].address == b.Last().address;
    }
  }

  lemma RunSlice(p: Problem, s: Address, run: seq<Instruction>, i: nat, j: nat)
    requires p.IsRun(s, run) && i < j <= |run|
    ensures run[i].address == s + 4 * i && p.IsRun(run[i].address, run[i..j])
  {
    var slice := run[i..j];
    forall k | 0 <= k < |slice|
      ensures slice[k].address == s + 4 * i + 4 * k && p.guest.fetch(slice[k].address) == Ok(slice[k])
    {
      assert slice[k] == run[i + k] && run[i + k].address == s + 4 * (i + k);
    }
    forall k | 0 <= k < |slice| - 1
      ensures slice[k].flow.kind.Fallthrough? && p.Internal(slice[k].address + 4)
    {
      assert slice[k] == run[i + k];
    }
  }

  lemma PrefixIsBlock(p: Problem, b: BasicBlock, n: nat)
    requires p.BlockAt(b.start, b) && 0 < n < |b.instructions|
    ensures p.BlockAt(b.start, Prefix(b, n)) && Prefix(b, n).End() == b.instructions[n].address
    ensures Settled(p, Prefix(b, n), {b.instructions[n].address})
  {
    RunSlice(p, b.start, b.instructions, 0, n);
    CutCalls(p, b, 0, b.instructions[n].address);
    var last := b.instructions[n - 1];
    assert last.flow.kind.Fallthrough? && p.Internal(last.address + 4);
    assert p.Edges(last) == p.FallthroughEdges(last.address, FallthroughEdge);
    assert Prefix(b, n).Last() == last;
  }

  lemma SuffixIsBlock(p: Problem, b: BasicBlock, n: nat)
    requires p.BlockAt(b.start, b) && 0 < n < |b.instructions|
    ensures p.BlockAt(b.instructions[n].address, Suffix(b, n)) && Suffix(b, n).End() == b.End()
    ensures Suffix(b, n).Last() == b.Last()
  {
    RunSlice(p, b.start, b.instructions, n, |b.instructions|);
    CutCalls(p, b, b.instructions[n].address, TWO64);
    assert Suffix(b, n).Last() == b.Last();
  }

  /** The invariant of the block table and the queue; leaders in `extra` may be in neither. */
  ghost predicate Consistent(p: Problem, starts: iset<Address>, blocks: map<Address, BasicBlock>,
                             leaders: set<Address>, pending: set<Address>, worklist: seq<Address>,
                             extra: set<Address>) {
    && Partition(blocks, leaders)
    && Genuine(p, blocks, leaders)
    && Seeded(p, starts, leaders)
    && Queued(blocks, leaders, pending, worklist, extra)
  }

  /** The invariant of the instruction log, while `[lo, hi)` is decoded but unpublished. */
  ghost predicate Logged(p: Problem, reach: iset<Address>, blocks: map<Address, BasicBlock>, decoded: set<Address>,
                         count: nat, lo: int, hi: int) {
    && Apart(blocks, lo, hi)
    && Covered(blocks, lo, hi, decoded)
    && (forall a :: a in decoded ==> a in reach)
    && count == |decoded| <= p.options.maxInstructions
  }

  lemma LoggedGives(p: Problem, reach: iset<Address>, blocks: map<Address, BasicBlock>, decoded: set<Address>,
                    count: nat, lo: int, hi: int)
    requires Logged(p, reach, blocks, decoded, count, lo, hi)
    ensures Apart(blocks, lo, hi) && forall a :: a in decoded ==> a in reach
  {
    hide Covered;
  }

  /** A decoded run that ends in `i` and has no edges yet. */
  ghost predicate OpenRun(p: Problem, block: BasicBlock, i: Instruction) {
    && block.instructions != [] && block.Last() == i
    && p.guest.fetch(i.address) == Ok(i) && i.address + 4 == block.End() && i.address % 4 == 0
    && p.IsRun(block.start, block.instructions)
    && block.successors == [] && block.calls == []
  }

  lemma ExtendRun(blocks: map<Address, BasicBlock>, lo: int, hi: int, decoded: set<Address>)
    requires lo <= hi && hi % 4 == 0
    requires Covered(blocks, lo, hi, decoded) && Apart(blocks, lo, hi + 4)
    ensures hi !in decoded && Covered(blocks, lo, hi + 4, decoded + {hi})
  {
  }

  lemma InstructionOverflow(p: Problem, reach: iset<Address>, starts: iset<Address>, s: set<Address>)
    requires |s| > p.options.maxInstructions && forall a :: a in s ==> a in reach
    ensures p.Cause(reach, starts, AnalysisInstructionLimitExceeded)
  {
    assert LargePart(p.options.maxInstructions, reach, s);
  }

  lemma StepCause(p: Problem, reach: iset<Address>, starts: iset<Address>, a: Address)
    requires a in reach && p.StepError(a).Some?
    ensures p.Cause(reach, starts, p.StepError(a).value)
  {
  }

  /** A complete run: its last instruction diverts control, meets a block start or leaves the range. */
  ghost predicate EndsRun(p: Problem, block: BasicBlock, leaders: set<Address>) {
    && block.instructions != []
    && OpenRun(p, block, block.Last())
    && (block.Last().flow.kind.Fallthrough? ==> block.End() in leaders || !p.Internal(block.End()))
    && forall l :: l in leaders ==> !StrictlyInside(block, l)
  }

  ghost predicate CutIfTaken(p: Problem, i: Instruction, before: map<Address, BasicBlock>,
                             after: map<Address, BasicBlock>) {
    if p.TakenTarget(i) == {} then after == before else IsCut(before, after, i.flow.target.value)
  }

  /** The taken target may cut a block; then the address after `i` may. */
  ghost predicate CutsPassed(p: Problem, i: Instruction, before: map<Address, BasicBlock>,
                             mid: map<Address, BasicBlock>, after: map<Address, BasicBlock>) {
    && (mid == before || (p.TakenTarget(i) != {} && CutIfTaken(p, i, before, mid)))
    && (after == mid || IsCut(mid, after, i.address + 4))
  }

  /** The end of the open run is not inside any published block, even after a cut. */
  lemma NothingToCutAfter(before: map<Address, BasicBlock>, mid: map<Address, BasicBlock>, after: map<Address, BasicBlock>,
                          lo: int, hi: int, t: Address)
    requires lo < hi && Apart(before, lo, hi)
    requires IsCut(before, mid, t) && IsCut(mid, after, hi)
    ensures after == mid
  {
    CutKeepsApart(before, mid, lo, hi, t);
  }

  lemma CutKeepsApart(before: map<Address, BasicBlock>, after: map<Address, BasicBlock>, lo: int, hi: int, t: Address)
    requires lo <= hi && Apart(before, lo, hi) && IsCut(before, after, t)
    ensures Apart(after, lo, hi)
  {
  }

  lemma GenuineMonotone(p: Problem, blocks: map<Address, BasicBlock>, less: set<Address>, more: set<Address>)
    requires Genuine(p, blocks, less) && less <= more
    ensures Genuine(p, blocks, more)
  {
    forall s | s in blocks
      ensures Settled(p, blocks[s], more)
    {
      assert Settled(p, blocks[s], less);
    }
  }

  /** Blocks are apart, so only the nearest one below `a` can be the one around it. */
  lemma NearestOnly(blocks: map<Address, BasicBlock>, leaders: set<Address>, start: Address, a: Address)
    requires Partition(blocks, leaders)
    requires start in blocks && start <= a && forall s :: s in blocks && s <= a ==> s <= start
    ensures forall s :: s in blocks && StrictlyInside(blocks[s], a) ==> s == start
  {
    forall s | s in blocks && StrictlyInside(blocks[s], a)
      ensures s == start
    {
      assert !StrictlyInside(blocks[s], start);
    }
  }

  lemma InsideIsIndexed(p: Problem, b: BasicBlock, a: Address) returns (i: nat)
    requires p.BlockAt(b.start, b) && a % 4 == 0 && StrictlyInside(b, a)
    ensures 0 < i < |b.instructions| && b.instructions[i].address == a
  {
    assert b.instructions[0].address == b.start;
    i := (a - b.start) / 4;
  }

  lemma NothingBelow(p: Problem, blocks: map<Address, BasicBlock>, leaders: set<Address>, a: Address)
    requires Partition(blocks, leaders) && Genuine(p, blocks, leaders)
    requires forall s :: s in blocks ==> a < s
    ensures IsCut(blocks, blocks, a) && Genuine(p, blocks, leaders + {a})
  {
    GenuineMonotone(p, blocks, leaders, leaders + {a});
  }

  lemma NothingToCut(p: Problem, blocks: map<Address, BasicBlock>, leaders: set<Address>, start: Address, a: Address)
    requires Partition(blocks, leaders) && Genuine(p, blocks, leaders) && a % 4 == 0
    requires start in blocks && start <= a && forall s :: s in blocks && s <= a ==> s <= start
    requires start == a || forall i :: 0 <= i < |blocks[start].instructions| ==> blocks[start].instructions[i].address != a
    ensures IsCut(blocks, blocks, a) && Genuine(p, blocks, leaders + {a})
  {
    GenuineMonotone(p, blocks, leaders, leaders + {a});
    NearestOnly(blocks, leaders, start, a);
    if start != a && StrictlyInside(blocks[start], a) {
      var i := InsideIsIndexed(p, blocks[start], a);
    }
  }

  lemma CutBlock(p: Problem, blocks: map<Address, BasicBlock>, leaders: set<Address>, k: Address, n: nat)
    requires Partition(blocks, leaders) && Genuine(p, blocks, leaders)
    requires k in blocks && n < |blocks[k].instructions| && blocks[k].instructions[n].address != k
    ensures 0 < n
    ensures
      var a := blocks[k].instructions[n].address;
      var after := blocks[k := Prefix(blocks[k], n)][a := Suffix(blocks[k], n)];
      IsCut(blocks, after, a) && Genuine(p, after, leaders + {a})
  {
    var b := blocks[k];
    assert p.BlockAt(k, b) && b.instructions[0].address == k;
    var a := b.instructions[n].address;
    var after := blocks[k := Prefix(b, n)][a := Suffix(b, n)];
    PrefixIsBlock(p, b, n);
    SuffixIsBlock(p, b, n);
    assert StrictlyInside(b, a);
    assert a !in blocks;
    assert CutAt(blocks, after, k, a);
    forall s | s in after
      ensures p.BlockAt(s, after[s]) && Settled(p, after[s], leaders + {a})
    {
      if s == a {
        assert Settled(p, b, leaders);
      } else if s != k {
        assert after[s] == blocks[s] && Settled(p, blocks[s], leaders);
      }
    }
  }

  lemma QueueOverflow(p: Problem, reach: iset<Address>, starts: iset<Address>, queue: set<Address>)
    requires |queue| > p.options.maxPendingTargets && forall l :: l in queue ==> l in starts
    ensures p.Cause(reach, starts, AnalysisWorklistLimitExceeded)
  {
    assert LargePart(p.options.maxPendingTargets, starts, queue);
  }

  lemma CutKeepsPartition(before: map<Address, BasicBlock>, after: map<Address, BasicBlock>,
                          leaders: set<Address>, a: Address)
    requires Partition(before, leaders) && IsCut(before, after, a)
    ensures Partition(after, leaders + {a})
  {
    if Cuts(before, a) {
      var k :| k in before && StrictlyInside(before[k], a) && CutAt(before, after, k, a);
      forall s, l | s in after && l in leaders + {a}
        ensures !StrictlyInside(after[s], l)
      {
        if s in before && s != k {
          assert !StrictlyInside(before[s], k) && !StrictlyInside(before[k], s);
        } else if l != a {
          assert !StrictlyInside(before[k], l);
        }
        assert l == a || s == a || !StrictlyInside(before[s], l);
      }
    } else {
      forall s, l | s in after && l in leaders + {a}
        ensures !StrictlyInside(after[s], l)
      {
        assert !StrictlyInside(before[s], l);
      }
    }
  }

  // Decoding a block.

  /** The run decoded so far: plain instructions only, and no block start after its first. */
  ghost predicate Growing(p: Problem, block: BasicBlock, leaders: set<Address>) {
    && p.IsRun(block.start, block.instructions)
    && (block.instructions != [] ==> block.Last().flow.kind.Fallthrough? && p.Internal(block.End()))
    && block.successors == [] && block.calls == []
    && forall l :: l in leaders ==> l <= block.start || block.End() < l
  }

  lemma AppendToRun(p: Problem, block: BasicBlock, leaders: set<Address>, i: Instruction)
    requires Growing(p, block, leaders) && p.guest.FetchesCode()
    requires p.guest.fetch(block.End()) == Ok(i)
    ensures OpenRun(p, block.(instructions := block.instructions + [i]), i)
  {
    var run := block.instructions + [i];
    forall k | 0 <= k < |run|
      ensures run[k].address == block.start + 4 * k && p.guest.fetch(run[k].address) == Ok(run[k])
    {
      assert k < |block.instructions| ==> run[k] == block.instructions[k];
    }
    forall k | 0 <= k < |run| - 1
      ensures run[k].flow.kind.Fallthrough? && p.Internal(run[k].address + 4)
    {
      assert run[k] == block.instructions[k];
    }
  }

  /** The run either stops at `i`, for one of the three reasons, or goes on growing. */
  lemma StepRun(p: Problem, block: BasicBlock, leaders: set<Address>, i: Instruction)
    requires Growing(p, block, leaders) && p.guest.FetchesCode()
    requires p.guest.fetch(block.End()) == Ok(i)
    requires forall l :: l in leaders ==> l % 4 == 0
    ensures
      var longer := block.(instructions := block.instructions + [i]);
      if i.flow.kind.Fallthrough? && block.End() + 4 !in leaders && p.Internal(block.End() + 4)
      then Growing(p, longer, leaders)
      else EndsRun(p, longer, leaders)
  {
    AppendToRun(p, block, leaders, i);
    var longer := block.(instructions := block.instructions + [i]);
    assert longer.Last() == i && longer.End() == block.End() + 4;
  }

  lemma LeadersAreAligned(p: Problem, starts: iset<Address>, leaders: set<Address>)
    requires Seeded(p, starts, leaders)
    ensures forall l :: l in leaders ==> l % 4 == 0
  {
  }

  lemma LeaderIsMapped(p: Problem, starts: iset<Address>, leaders: set<Address>, l: Address)
    requires Seeded(p, starts, leaders) && l in leaders && p.guest.FetchesCode()
    ensures l < TWO64
  {
  }

  /** No published block begins at the next address, so none covers it. */
  lemma NextIsApart(p: Problem, starts: iset<Address>, blocks: map<Address, BasicBlock>, leaders: set<Address>,
                    lo: int, hi: int)
    requires Partition(blocks, leaders) && Seeded(p, starts, leaders)
    requires Apart(blocks, lo, hi) && lo <= hi && hi % 4 == 0
    requires forall l :: l in leaders ==> l <= lo || hi < l
    requires lo !in blocks
    ensures Apart(blocks, lo, hi + 4)
  {
    forall s | s in blocks
      ensures blocks[s].End() <= lo || hi + 4 <= blocks[s].start
    {
      assert s in leaders && s % 4 == 0;
    }
  }

  lemma CompleteBlock(p: Problem, block: BasicBlock, i: Instruction, closed: BasicBlock, leaders: set<Address>)
    requires OpenRun(p, block, i) && closed == block.(successors := p.Edges(i), calls := p.CallsOf(i))
    requires p.ErrorAfter(i).None? && p.Ahead(i) <= leaders
    ensures p.BlockAt(block.start, closed) && Settled(p, closed, leaders)
  {
  }

  /** Decoding one block adds at most one block start inside a block, published or open. */
  ghost predicate OneCut(before: map<Address, BasicBlock>, after: map<Address, BasicBlock>, block: BasicBlock,
                         leaders: set<Address>) {
    || (after == before
        && forall l, m :: l in leaders && m in leaders && StrictlyInside(block, l) && StrictlyInside(block, m) ==> l == m)
    || (|after| == |before| + 1 && forall l :: l in leaders ==> !StrictlyInside(block, l))
  }

  lemma CutsAreOne(p: Problem, block: BasicBlock, i: Instruction, before: map<Address, BasicBlock>,
                   mid: map<Address, BasicBlock>, after: map<Address, BasicBlock>,
                   known: set<Address>, leaders: set<Address>)
    requires CutsPassed(p, i, before, mid, after)
    requires Apart(before, block.start, block.End()) && i.address + 4 == block.End() && block.instructions != []
    requires forall l :: l in known ==> !StrictlyInside(block, l)
    requires leaders == known + p.Ahead(i)
    ensures after == mid
    ensures OneCut(before, after, block, leaders)
  {
    assert forall l :: l in leaders && StrictlyInside(block, l) ==> p.TakenTarget(i) == {l};
    if mid != before {
      var t := i.flow.target.value;
      NothingToCutAfter(before, mid, after, block.start, block.End(), t);
      assert after.Keys == before.Keys + {t} && |after.Keys| == |before.Keys| + 1;
    }
  }

  lemma CutKeepsCovered(before: map<Address, BasicBlock>, after: map<Address, BasicBlock>, t: Address,
                        lo: int, hi: int, decoded: set<Address>)
    requires IsCut(before, after, t) && Covered(before, lo, hi, decoded)
    ensures Covered(after, lo, hi, decoded)
  {
    if Cuts(before, t) {
      var k :| k in before && StrictlyInside(before[k], t) && CutAt(before, after, k, t);
      forall a
        ensures CoveredBy(before, a) <==> CoveredBy(after, a)
      {
        if s :| s in before && Covers(before[s], a) {
          assert Covers(after[if s == k && t <= a then t else s], a);
        }
        if s :| s in after && Covers(after[s], a) {
          assert Covers(before[if s == t then k else s], a);
        }
      }
    }
  }

  lemma CutsKeepLog(p: Problem, reach: iset<Address>, i: Instruction, before: map<Address, BasicBlock>,
                    mid: map<Address, BasicBlock>, decoded: set<Address>, count: nat, lo: int, hi: int)
    requires Logged(p, reach, before, decoded, count, lo, hi) && lo <= hi
    requires CutsPassed(p, i, before, mid, mid)
    ensures Logged(p, reach, mid, decoded, count, lo, hi)
  {
    if mid != before {
      CutKeepsApart(before, mid, lo, hi, i.flow.target.value);
      CutKeepsCovered(before, mid, i.flow.target.value, lo, hi, decoded);
    }
  }

  lemma NextIsReached(p: Problem, reach: iset<Address>, i: Instruction)
    requires p.ClosedUnderSuccessors(reach) && i.address in reach && p.guest.fetch(i.address) == Ok(i)
    requires i.flow.kind.Fallthrough? && i.address + 4 < TWO64 && p.Internal(i.address + 4)
    ensures i.address + 4 in reach
  {
    p.SuccessorsAhead(i);
  }

  /** `t` adds only plain instructions to `s`. */
  ghost predicate AddsPlain(p: Problem, s: set<Address>, t: set<Address>) {
    && (forall a {:trigger a in s} :: a in s ==> a in t)
    && (forall a {:trigger a in t} :: a in t ==>
          a in s || (p.guest.fetch(a).Ok? && p.guest.fetch(a).value.flow.kind.Fallthrough?))
  }

  lemma ListsGrowPlain(p: Problem, s: set<Address>, t: set<Address>, calls: seq<CallSite>, unresolved: seq<Unresolved>)
    requires p.ListsCalls(s, calls) && p.ListsUnresolved(s, unresolved) && AddsPlain(p, s, t)
    ensures p.ListsCalls(t, calls) && p.ListsUnresolved(t, unresolved)
  {
  }

  lemma ListsGrow(p: Problem, s: set<Address>, t: set<Address>, i: Instruction, calls: seq<CallSite>,
                  unresolved: seq<Unresolved>)
    requires p.ListsCalls(s, calls) && p.ListsUnresolved(s, unresolved)
    requires p.guest.fetch(i.address) == Ok(i) && i.address !in s && t == s + {i.address}
    ensures p.ListsCalls(t, calls + p.CallsOf(i))
    ensures p.ListsUnresolved(t, unresolved + p.UnresolvedOf(i))
  {
  }

  // Publishing a block.

  /** The instructions `[first, end)` of a decoded block, as the block they are published in. */
  function Segment(b: BasicBlock, first: nat, end: nat): BasicBlock
    requires first < end <= |b.instructions|
  {
    var start := b.instructions[first].address;
    var last := b.instructions[end - 1].address;
    BasicBlock(start, b.instructions[first..end],
               if end == |b.instructions| then b.successors
               else [Edge(last, b.instructions[end].address, FallthroughEdge, true)],
               CallsWithin(b.calls, start, last + 1))
  }

  lemma SegmentIsBlock(p: Problem, b: BasicBlock, first: nat, end: nat, leaders: set<Address>)
    requires p.BlockAt(b.start, b) && Settled(p, b, leaders)
    requires first < end <= |b.instructions|
    requires end < |b.instructions| ==> b.instructions[end].address in leaders
    ensures
      var segment := Segment(b, first, end);
      && segment.start == b.start + 4 * first && segment.End() == b.start + 4 * end
      && p.BlockAt(segment.start, segment) && Settled(p, segment, leaders)
  {
    var segment := Segment(b, first, end);
    RunSlice(p, b.start, b.instructions, first, end);
    CutCalls(p, b, segment.start, b.instructions[end - 1].address + 1);
    assert segment.Last() == b.instructions[end - 1];
    if end < |b.instructions| {
      assert b.instructions[end].address == segment.Last().address + 4;
    }
  }

  /** Storing a block at the front of the open run `[lo, hi)` keeps everything else as it was. */
  lemma PublishKeepsTable(p: Problem, blocks: map<Address, BasicBlock>, leaders: set<Address>, b: BasicBlock, hi: int)
    requires Partition(blocks, leaders) && Genuine(p, blocks, leaders)
    requires p.BlockAt(b.start, b) && Settled(p, b, leaders) && b.start in leaders
    requires forall l :: l in leaders ==> !StrictlyInside(b, l)
    requires Apart(blocks, b.start, hi) && b.End() <= hi
    ensures b.start !in blocks
    ensures Partition(blocks[b.start := b], leaders) && Genuine(p, blocks[b.start := b], leaders)
    ensures Apart(blocks[b.start := b], b.End(), hi)
  {
  }

  lemma PublishKeepsCovered(blocks: map<Address, BasicBlock>, b: BasicBlock, hi: int, decoded: set<Address>)
    requires Covered(blocks, b.start, hi, decoded) && b.start <= b.End() <= hi && b.start !in blocks
    ensures Covered(blocks[b.start := b], b.End(), hi, decoded)
  {
    var after := blocks[b.start := b];
    forall a
      ensures CoveredBy(after, a) <==> CoveredBy(blocks, a) || Covers(b, a)
    {
      if s :| s in blocks && Covers(blocks[s], a) {
        assert after[s] == blocks[s];
      }
      if Covers(b, a) {
        assert Covers(after[b.start], a);
      }
    }
  }

  /** Where a decoded block must be cut: at every later instruction that starts a block, and at its end. */
  ghost predicate SplitsAtLeaders(b: BasicBlock, leaders: set<Address>, points: seq<nat>, upto: nat) {
    && (forall k :: 0 <= k < |points| ==> 0 < points[k] < upto <= |b.instructions|)
    && (forall j, k :: 0 <= j < k < |points| ==> points[j] < points[k])
    && (forall k :: 0 <= k < |points| ==> b.instructions[points[k]].address in leaders)
    && (forall i :: 0 < i < upto <= |b.instructions| && b.instructions[i].address in leaders ==> i in points)
  }

  function SegmentStart(points: seq<nat>, k: nat): nat
    requires k <= |points|
  {
    if k == 0 then 0 else points[k - 1]
  }

  function SegmentEnd(b: BasicBlock, points: seq<nat>, k: nat): nat {
    if k < |points| then points[k] else |b.instructions|
  }

  lemma SegmentsAreClear(p: Problem, b: BasicBlock, leaders: set<Address>, points: seq<nat>, k: nat)
    requires p.BlockAt(b.start, b) && b.start in leaders && forall l :: l in leaders ==> l % 4 == 0
    requires SplitsAtLeaders(b, leaders, points, |b.instructions|) && k <= |points|
    ensures
      var first, end := SegmentStart(points, k), SegmentEnd(b, points, k);
      && first < end <= |b.instructions|
      && b.instructions[first].address in leaders
      && b.instructions[first].address == b.start + 4 * first
      && (end < |b.instructions| ==> b.instructions[end].address in leaders)
      && forall l :: l in leaders ==> !StrictlyInside(Segment(b, first, end), l)
  {
    var first, end := SegmentStart(points, k), SegmentEnd(b, points, k);
    assert b.instructions[first].address == b.start + 4 * first;
    forall l | l in leaders
      ensures !StrictlyInside(Segment(b, first, end), l)
    {
      if StrictlyInside(Segment(b, first, end), l) {
        var i := InsideIsIndexed(p, b, l);
      }
    }
  }

  lemma PointIsInside(p: Problem, b: BasicBlock, leaders: set<Address>, points: seq<nat>, k: nat)
    requires p.BlockAt(b.start, b) && SplitsAtLeaders(b, leaders, points, |b.instructions|) && k < |points|
    ensures b.instructions[points[k]].address == b.start + 4 * points[k]
    ensures StrictlyInside(b, b.instructions[points[k]].address) && b.instructions[points[k]].address in leaders
  {
  }

  lemma FewPoints(p: Problem, before: map<Address, BasicBlock>, after: map<Address, BasicBlock>, b: BasicBlock,
                  leaders: set<Address>, points: seq<nat>)
    requires p.BlockAt(b.start, b) && OneCut(before, after, b, leaders)
    requires SplitsAtLeaders(b, leaders, points, |b.instructions|)
    ensures |after| + |points| <= |before| + 1
  {
    if |points| > 0 {
      PointIsInside(p, b, leaders, points, 0);
      if |points| > 1 {
        PointIsInside(p, b, leaders, points, 1);
      }
    }
  }

  lemma MoreExtra(p: Problem, starts: iset<Address>, blocks: map<Address, BasicBlock>, leaders: set<Address>,
                  pending: set<Address>, worklist: seq<Address>, less: set<Address>, more: set<Address>)
    requires Consistent(p, starts, blocks, leaders, pending, worklist, less) && less <= more
    ensures Consistent(p, starts, blocks, leaders, pending, worklist, more)
  {
  }

  /** The start of the next segment is a leader that is not yet a block, so it is pending. */
  lemma NextIsQueued(p: Problem, starts: iset<Address>, blocks: map<Address, BasicBlock>, leaders: set<Address>,
                     pending: set<Address>, worklist: seq<Address>, b: BasicBlock, first: nat, end: nat)
    requires p.BlockAt(b.start, b) && first < end < |b.instructions|
    requires Consistent(p, starts, blocks, leaders, pending, worklist, {b.instructions[first].address})
    requires Apart(blocks, b.instructions[first].address, b.End()) && b.instructions[end].address in leaders
    ensures b.instructions[end].address in pending
  {
    assert b.instructions[first].address == b.start + 4 * first;
    var next := b.instructions[end].address;
    assert next == b.start + 4 * end;
    assert next !in blocks;
  }

  /** Each published segment leaves a shorter open run, and nothing new to queue. */
  lemma PublishStep(p: Problem, reach: iset<Address>, starts: iset<Address>, blocks: map<Address, BasicBlock>,
                    leaders: set<Address>, pending: set<Address>, worklist: seq<Address>, decoded: set<Address>,
                    count: nat, b: BasicBlock, hi: int)
    requires Consistent(p, starts, blocks, leaders, pending, worklist, {b.start})
    requires Logged(p, reach, blocks, decoded, count, b.start, hi)
    requires p.BlockAt(b.start, b) && Settled(p, b, leaders) && b.start in leaders && b.End() <= hi
    requires forall l :: l in leaders ==> !StrictlyInside(b, l)
    ensures b.start !in blocks
    ensures Consistent(p, starts, blocks[b.start := b], leaders, pending, worklist, {})
    ensures Logged(p, reach, blocks[b.start := b], decoded, count, b.End(), hi)
  {
    PublishKeepsTable(p, blocks, leaders, b, hi);
    PublishKeepsCovered(blocks, b, hi, decoded);
  }

  // The worklist loop.

  lemma StartKeepsQueue(p: Problem, starts: iset<Address>)
    requires p.EntryError().None? && p.entry in starts
    ensures p.options.maxPendingTargets > 0 && p.options.maxBasicBlocks > 0
    ensures Consistent(p, starts, map[], {p.entry}, {}, [], {p.entry})
  {
  }

  lemma PopKeepsQueue(p: Problem, starts: iset<Address>, blocks: map<Address, BasicBlock>, leaders: set<Address>,
                      pending: set<Address>, worklist: seq<Address>)
    requires Consistent(p, starts, blocks, leaders, pending, worklist, {}) && worklist != []
    ensures worklist[0] in leaders && worklist[0] in starts
    ensures Consistent(p, starts, blocks, leaders, pending - {worklist[0]}, worklist[1..], {worklist[0]})
    ensures worklist[0] in blocks ==>
              Consistent(p, starts, blocks, leaders, pending - {worklist[0]}, worklist[1..], {})
  {
    var start := worklist[0];
    assert start in worklist && start in pending;
    assert forall a :: a in worklist[1..] ==> a in worklist;
    assert forall a :: a in worklist ==> a == start || a in worklist[1..];
  }

  /** A leader that is not yet a block opens an empty run apart from every block. */
  lemma RunOpens(p: Problem, reach: iset<Address>, starts: iset<Address>, blocks: map<Address, BasicBlock>,
                 leaders: set<Address>, decoded: set<Address>, count: nat, at: int, start: Address)
    requires Logged(p, reach, blocks, decoded, count, at, at)
    requires Partition(blocks, leaders) && start in leaders
    ensures Logged(p, reach, blocks, decoded, count, start, start)
  {
    forall s | s in blocks
      ensures blocks[s].End() <= start || start <= blocks[s].start
    {
      assert !StrictlyInside(blocks[s], start);
    }
  }

  /** What is straight ahead of the entry has been decoded, unless nothing has. */
  ghost predicate FirstRunIsDecoded(p: Problem, leaders: set<Address>, decoded: set<Address>) {
    if decoded == {} then leaders == {p.entry} else forall a :: p.InFirstRun(a) ==> a in decoded
  }

  /** The first run that is decoded goes as far as plain instructions lead. */
  lemma FirstRunIsCovered(p: Problem, block: BasicBlock)
    requires EndsRun(p, block, {p.entry}) && block.start == p.entry
    ensures forall a :: p.InFirstRun(a) ==> a % 4 == 0 && block.start <= a < block.End()
  {
    forall a | p.InFirstRun(a)
      ensures a % 4 == 0 && block.start <= a < block.End()
    {
      var last := block.Last();
      assert p.guest.fetch(last.address) == Ok(last) && last.address + 4 == block.End();
      assert block.instructions[0].address == block.start;
    }
  }

  /** A leader that is not a block has not been decoded. */
  lemma NotDecodedYet(p: Problem, reach: iset<Address>, blocks: map<Address, BasicBlock>, leaders: set<Address>,
                      decoded: set<Address>, count: nat, at: int, start: Address)
    requires Logged(p, reach, blocks, decoded, count, at, at)
    requires Partition(blocks, leaders) && start in leaders && start !in blocks
    ensures start !in decoded
  {
    forall s | s in blocks
      ensures !Covers(blocks[s], start)
    {
      assert !StrictlyInside(blocks[s], start);
    }
  }

  lemma BlocksAreDecoded(p: Problem, reach: iset<Address>, blocks: map<Address, BasicBlock>, leaders: set<Address>,
                         decoded: set<Address>, count: nat, at: int)
    requires Logged(p, reach, blocks, decoded, count, at, at)
    requires Partition(blocks, leaders) && Genuine(p, blocks, leaders) && |blocks| > 0
    ensures decoded != {}
  {
    var s := Least(blocks.Keys);
    assert p.BlockAt(s, blocks[s]);
    assert CoveredBy(blocks, s);
  }

  lemma BlockOverflow(p: Problem, reach: iset<Address>, starts: iset<Address>, blocks: map<Address, BasicBlock>,
                      leaders: set<Address>, start: Address)
    requires Partition(blocks, leaders) && Seeded(p, starts, leaders) && !p.InFirstRun(start)
    requires start in leaders && start !in blocks && |blocks| >= p.options.maxBasicBlocks
    ensures p.Cause(reach, starts, AnalysisBlockLimitExceeded)
  {
    var s := blocks.Keys + {start};
    assert |s| == |blocks.Keys| + 1;
    forall a | a in s
      ensures a in starts
    {
      assert a in blocks ==> blocks[a].start == a;
    }
    assert LargePart(p.options.maxBasicBlocks, starts, s);
  }

  /** The two least sets hold the entry and are closed. */
  lemma LeastSets(p: Problem)
    ensures p.entry in p.Reach() && p.entry in p.Starts()
    ensures p.ClosedUnderSuccessors(p.Reach())
    ensures forall a, l :: a in p.Reach() && l in p.LeaderTargets(a) ==> l in p.Starts()
    ensures forall l :: l in p.Starts() ==> l in p.Reach()
  {
  }

  /** The block limit is met only after the first run, so the leader that finds no room lies beyond it. */
  lemma LateOverflow(p: Problem, reach: iset<Address>, starts: iset<Address>, blocks: map<Address, BasicBlock>,
                     leaders: set<Address>, pending: set<Address>, worklist: seq<Address>, decoded: set<Address>,
                     count: nat, at: int, start: Address)
    requires Consistent(p, starts, blocks, leaders, pending, worklist, {start})
    requires Logged(p, reach, blocks, decoded, count, at, at) && FirstRunIsDecoded(p, leaders, decoded)
    requires start in leaders && start !in blocks && |blocks| >= p.options.maxBasicBlocks > 0
    ensures p.Cause(reach, starts, AnalysisBlockLimitExceeded)
  {
    hide Logged, Partition, Genuine, Seeded, Queued, Problem.InFirstRun, Problem.Cause;
    NotDecodedYet(p, reach, blocks, leaders, decoded, count, at, start);
    BlocksAreDecoded(p, reach, blocks, leaders, decoded, count, at);
    BlockOverflow(p, reach, starts, blocks, leaders, start);
  }

  /** A complete run is decoded, and with it, if it is the first one, all that lies straight ahead of the entry. */
  lemma RunIsDecoded(p: Problem, reach: iset<Address>, block: BasicBlock, leaders: set<Address>,
                     blocks: map<Address, BasicBlock>, before: set<Address>, earlier: set<Address>, decoded: set<Address>,
                     count: nat)
    requires EndsRun(p, block, leaders) && Logged(p, reach, blocks, decoded, count, block.start, block.End())
    requires AddsPlain(p, before, earlier) && decoded == earlier + {block.Last().address}
    ensures before <= decoded && decoded != {}
    ensures block.start == p.entry && leaders == {p.entry} ==> forall a :: p.InFirstRun(a) ==> a in decoded
  {
    hide Problem.InFirstRun, Apart;
    forall a | a in before
      ensures a in decoded
    {
    }
    if block.start == p.entry && leaders == {p.entry} {
      FirstRunIsCovered(p, block);
    }
  }

  lemma FirstRunStays(p: Problem, before: set<Address>, leaders: set<Address>, earlier: set<Address>, decoded: set<Address>,
                      start: Address)
    requires FirstRunIsDecoded(p, before, earlier) && start in before && earlier <= decoded && decoded != {}
    requires start == p.entry && before == {start} ==> forall a :: p.InFirstRun(a) ==> a in decoded
    ensures FirstRunIsDecoded(p, leaders, decoded)
  {
    hide Problem.InFirstRun;
  }

  lemma EntryCause(p: Problem, code: ErrorCode)
    requires p.EntryError() == Some(code)
    ensures p.FailureCause(code)
  {
  }

  lemma NothingIsLogged(p: Problem, reach: iset<Address>)
    ensures Logged(p, reach, map[], {}, 0, 0, 0) && p.ListsCalls({}, []) && p.ListsUnresolved({}, [])
    ensures FirstRunIsDecoded(p, {p.entry}, {})
  {
  }
}
