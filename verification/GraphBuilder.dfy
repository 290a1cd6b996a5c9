/** The worklist machine that grows one control-flow graph from an entry. */
module GraphBuilder {
  import opened Common
  import opened ControlFlow
  import opened GraphValidation
  import opened BuilderInvariant
  import opened BuilderResult
  import opened FlowTheorems

  class GraphBuilder {
    const guest: GuestView
    const options: AnalysisOptions
    var entry: Address
    var blocks: map<Address, BasicBlock>
    var calls: seq<CallSite>
    var unresolved: seq<Unresolved>
    var instructionCount: nat
    var leaders: set<Address>
    var pending: set<Address>
    var worklist: seq<Address>
    ghost var decoded: set<Address>
    ghost var goal: Problem
    ghost var reach: iset<Address>
    ghost var starts: iset<Address>

    constructor (guest: GuestView, options: AnalysisOptions)
      ensures this.guest == guest && this.options == options
      ensures blocks == map[] && calls == [] && unresolved == [] && instructionCount == 0
      ensures leaders == {} && pending == {} && worklist == []
    {
      this.guest, this.options := guest, options;
      blocks, calls, unresolved, instructionCount := map[], [], [], 0;
      leaders, pending, worklist := {}, {}, [];
    }

    /** The invariant of the block table and the queue; leaders in `extra` may be in neither. */
    ghost predicate Work(extra: set<Address>)
      reads this`entry, this`blocks, this`leaders, this`pending, this`worklist, this`goal, this`starts
    {
      && goal == Problem(guest, options, entry)
      && Consistent(goal, starts, blocks, leaders, pending, worklist, extra)
    }

    method Enqueue(a: Address, ghost extra: set<Address>) returns (r: Result<()>)
      requires Queued(blocks, leaders, pending, worklist, extra)
      requires a in leaders && goal.options == options && forall l :: l in leaders ==> l in starts
      modifies this`pending, this`worklist
      ensures r.Ok? ==> Queued(blocks, leaders, pending, worklist, extra - {a})
      ensures a in old(pending) || a in blocks ==> r.Ok? && pending == old(pending) && worklist == old(worklist)
      ensures r.Err? ==> goal.Cause(reach, starts, r.code)
    {
      if a in pending || a in blocks {
        return Ok(());
      }
      if |pending| >= options.maxPendingTargets {
        QueueOverflow(goal, reach, starts, pending + {a});
        return Err(AnalysisWorklistLimitExceeded);
      }
      pending := pending + {a};
      worklist := worklist + [a];
      return Ok(());
    }

    method MarkLeader(a: Address, ghost extra: set<Address>)
      requires Work(extra)
      requires a in starts && goal.CanFetch(a) && goal.Internal(a)
      modifies this`leaders, this`blocks
      ensures Work(extra + {a})
      ensures leaders == old(leaders) + {a}
      ensures IsCut(old(blocks), blocks, a)
    {
      ghost var before := leaders;
      leaders := leaders + {a};
      SplitExistingBlock(a, before);
      CutKeepsPartition(old(blocks), blocks, before, a);
    }

    /** Every internal target is marked and then queued. */
    method AddLeader(a: Address, ghost extra: set<Address>) returns (r: Result<()>)
      requires Work(extra)
      requires a in starts && goal.CanFetch(a) && goal.Internal(a)
      modifies this`leaders, this`blocks, this`pending, this`worklist
      ensures r.Ok? ==> Work(extra) && leaders == old(leaders) + {a} && IsCut(old(blocks), blocks, a)
      ensures r.Err? ==> goal.Cause(reach, starts, r.code)
    {
      MarkLeader(a, extra);
      r := Enqueue(a, extra + {a});
    }

    method SplitExistingBlock(a: Address, ghost before: set<Address>)
      requires a % 4 == 0
      requires Partition(blocks, before) && Genuine(goal, blocks, before)
      modifies this`blocks
      ensures IsCut(old(blocks), blocks, a)
      ensures Genuine(goal, blocks, before + {a})
    {
      var floor := Floor(blocks.Keys, a);
      if floor.None? {
        NothingBelow(goal, blocks, before, a);
        return;
      }
      var start := floor.value;
      if start == a {
        NothingToCut(goal, blocks, before, start, a);
        return;
      }
      var block := blocks[start];
      var index := IndexOf(block, a);
      if index == |block.instructions| {
        NothingToCut(goal, blocks, before, start, a);
        return;
      }
      CutBlock(goal, blocks, before, start, index);
      blocks := blocks[start := Prefix(block, index)][a := Suffix(block, index)];
    }

    method ValidateDirectTarget(target: Address, transfer: bool, ghost extra: set<Address>) returns (r: Result<bool>)
      requires Work(extra)
      requires !transfer && goal.Internal(target) ==> target in starts
      modifies this`leaders, this`blocks, this`pending, this`worklist
      ensures r.Ok? ==> Work(extra) && goal.CanFetch(target) && r.value == (!transfer && goal.Internal(target))
      ensures r.Ok? && r.value ==> leaders == old(leaders) + {target} && IsCut(old(blocks), blocks, target)
      ensures r.Ok? && !r.value ==> leaders == old(leaders) && blocks == old(blocks)
      ensures r.Err? ==> (r.code == InvalidBranchTarget && !goal.CanFetch(target)) || goal.Cause(reach, starts, r.code)
    {
      if target % 4 != 0 {
        return Err(InvalidBranchTarget);
      }
      var executable := guest.executable(target);
      if executable.Err? || !executable.value {
        return Err(InvalidBranchTarget);
      }
      var internal := !transfer && options.Internal(target);
      if internal {
        var queued := AddLeader(target, extra);
        if queued.Err? {
          return Err(queued.code);
        }
      }
      return Ok(internal);
    }

    method AddFallthroughEdge(block: BasicBlock, source: Address, kind: EdgeKind, ghost extra: set<Address>)
      returns (r: Result<bool>, updated: BasicBlock)
      requires Work(extra) && source % 4 == 0
      requires forall l :: l in goal.FallthroughTarget(source) ==> l in starts
      modifies this`leaders, this`blocks, this`pending, this`worklist
      ensures r.Ok? ==>
                && Work(extra)
                && goal.FallthroughError(source).None?
                && r.value == goal.Internal(source + 4)
                && updated == block.(successors := block.successors + goal.FallthroughEdges(source, kind))
      ensures r.Ok? ==> leaders == old(leaders) + goal.FallthroughTarget(source)
      ensures r.Ok? && r.value ==> IsCut(old(blocks), blocks, source + 4)
      ensures r.Ok? && !r.value ==> blocks == old(blocks)
      ensures r.Err? ==> goal.FallthroughError(source) == Some(r.code) || goal.Cause(reach, starts, r.code)
    {
      updated := block;
      if source + 4 >= TWO64 {
        return Err(ArithmeticOverflow), updated;
      }
      var target := source + 4;
      var inside := options.Internal(target);
      if inside {
        var followed := FollowFallthrough(target, extra);
        if followed.Err? {
          return Err(followed.code), updated;
        }
      }
      updated := block.(successors := block.successors + [Edge(source, target, kind, inside)]);
      return Ok(inside), updated;
    }

    /** A fallthrough target inside the range must be executable, and becomes a leader. */
    method FollowFallthrough(target: Address, ghost extra: set<Address>) returns (r: Result<()>)
      requires Work(extra) && target % 4 == 0 && goal.Internal(target) && target in starts
      modifies this`leaders, this`blocks, this`pending, this`worklist
      ensures r.Ok? ==>
                && Work(extra) && goal.CanFetch(target)
                && leaders == old(leaders) + {target} && IsCut(old(blocks), blocks, target)
      ensures r.Err? ==>
                || (r.code == InstructionFetchFailed && guest.executable(target) != Ok(true))
                || goal.Cause(reach, starts, r.code)
    {
      var executable := guest.executable(target);
      if executable.Err? || !executable.value {
        return Err(InstructionFetchFailed);
      }
      r := AddLeader(target, extra);
    }

    /** The taken side of a direct branch: the edge it adds, once its target is accepted. */
    method FollowTarget(i: Instruction, ghost extra: set<Address>) returns (r: Result<Edge>)
      requires Work(extra) && (i.flow.kind.DirectBranch? || i.flow.kind.ConditionalBranch?)
      requires forall l :: l in goal.TakenTarget(i) ==> l in starts
      modifies this`leaders, this`blocks, this`pending, this`worklist
      ensures r.Ok? ==> Work(extra) && goal.TargetError(i).None? && [r.value] == goal.TakenEdges(i)
      ensures r.Ok? ==> leaders == old(leaders) + goal.TakenTarget(i)
      ensures r.Ok? && goal.TakenTarget(i) == {} ==> blocks == old(blocks)
      ensures r.Ok? && goal.TakenTarget(i) != {} ==> IsCut(old(blocks), blocks, i.flow.target.value)
      ensures r.Err? ==> goal.TargetError(i) == Some(r.code) || goal.Cause(reach, starts, r.code)
    {
      if i.flow.target.None? {
        return Err(InvalidBranchTarget);
      }
      var target := i.flow.target.value;
      var conditional := i.flow.kind.ConditionalBranch?;
      var transfer := !conditional && target != entry && target in options.knownEntries;
      var branch := ValidateDirectTarget(target, transfer, extra);
      if branch.Err? {
        return Err(branch.code);
      }
      var kind := if conditional then ConditionalTaken else if transfer then FunctionTransfer else BranchEdge;
      return Ok(Edge(i.address, target, kind, branch.value));
    }

    method EndWithBranch(block: BasicBlock, i: Instruction, ghost extra: set<Address>)
      returns (r: Result<BasicBlock>, ghost mid: map<Address, BasicBlock>)
      requires Work(extra) && i.address % 4 == 0 && block.successors == []
      requires i.flow.kind.DirectBranch? || i.flow.kind.ConditionalBranch?
      requires forall l :: l in goal.TakenTarget(i) ==> l in starts
      requires i.flow.kind.ConditionalBranch? ==> forall l :: l in goal.FallthroughTarget(i.address) ==> l in starts
      modifies this`leaders, this`blocks, this`pending, this`worklist
      ensures r.Ok? ==> Work(extra) && goal.TargetError(i).None? && r.value == block.(successors := goal.Edges(i))
      ensures r.Ok? ==> CutIfTaken(goal, i, old(blocks), mid)
      ensures r.Ok? && i.flow.kind.DirectBranch? ==> blocks == mid && leaders == old(leaders) + goal.TakenTarget(i)
      ensures r.Ok? && i.flow.kind.ConditionalBranch? ==>
                && goal.FallthroughError(i.address).None?
                && leaders == old(leaders) + goal.TakenTarget(i) + goal.FallthroughTarget(i.address)
                && (blocks == mid || IsCut(mid, blocks, i.address + 4))
      ensures r.Err? ==>
                || goal.TargetError(i) == Some(r.code)
                || (i.flow.kind.ConditionalBranch? && goal.TargetError(i).None?
                    && goal.FallthroughError(i.address) == Some(r.code))
                || goal.Cause(reach, starts, r.code)
    {
      hide Consistent, Problem.Cause, IsCut;
      mid := blocks;
      var taken := FollowTarget(i, extra);
      mid := blocks;
      if taken.Err? {
        return Err(taken.code), mid;
      }
      var updated := block.(successors := block.successors + [taken.value]);
      if i.flow.kind.ConditionalBranch? {
        var fallthrough;
        fallthrough, updated := AddFallthroughEdge(updated, i.address, ConditionalNotTaken, extra);
        if fallthrough.Err? {
          return Err(fallthrough.code), mid;
        }
      }
      return Ok(updated), mid;
    }

    method AddUnresolved(i: Instruction)
      modifies this`unresolved
      ensures unresolved == old(unresolved) + [Unresolved(i.address, i.flow.kind, i.flow.register)]
    {
      unresolved := unresolved + [Unresolved(i.address, i.flow.kind, i.flow.register)];
    }

    /** What decoding does with an instruction that is not a plain one. */
    method EndBlock(block: BasicBlock, i: Instruction, ghost extra: set<Address>)
      returns (r: Result<BasicBlock>, ghost mid: map<Address, BasicBlock>)
      requires Work(extra) && i.address % 4 == 0 && block.successors == [] && block.calls == []
      requires !i.flow.kind.Fallthrough?
      requires forall l :: l in goal.Ahead(i) ==> l in starts
      modifies this`leaders, this`blocks, this`pending, this`worklist, this`calls, this`unresolved
      ensures r.Ok? ==>
                && Work(extra) && goal.ErrorAfter(i).None?
                && r.value == block.(successors := goal.Edges(i), calls := goal.CallsOf(i))
                && calls == old(calls) + goal.CallsOf(i)
                && unresolved == old(unresolved) + goal.UnresolvedOf(i)
      ensures r.Ok? ==> LeavesBy(options, entry, i, r.value.successors) && forall c :: c in r.value.calls <==> MakesCall(i, c)
      ensures r.Ok? ==> leaders == old(leaders) + goal.Ahead(i)
      ensures r.Ok? ==> CutsPassed(goal, i, old(blocks), mid, blocks)
      ensures r.Err? ==> goal.ErrorAfter(i) == Some(r.code) || goal.Cause(reach, starts, r.code)
    {
      hide Consistent, Problem.Cause, IsCut;
      mid := blocks;
      var kind := i.flow.kind;
      if kind.DirectBranch? || kind.ConditionalBranch? {
        r, mid := EndWithBranch(block, i, extra);
      } else if kind.IsCall() {
        var call := CallSite(i.address, kind.DirectCall?, i.flow.target, i.flow.register);
        calls := calls + [call];
        var fallthrough, updated := AddFallthroughEdge(block.(calls := [call]), i.address, FallthroughEdge, extra);
        r := if fallthrough.Err? then Err(fallthrough.code) else Ok(updated);
      } else {
        r := Ok(block);
      }
      if r.Ok? && kind.IsUnresolved() {
        AddUnresolved(i);
      }
      if r.Ok? {
        hide *;
        EdgesAre(goal, i);
        CallsAre(goal, i);
      }
    }

    /** `reach` holds the entry and is closed, and `starts` holds every target it leads to. */
    ghost predicate Fixed()
      reads this`goal, this`reach, this`starts
    {
      && goal.ClosedUnderSuccessors(reach)
      && forall a, l :: a in reach && l in goal.LeaderTargets(a) ==> l in starts
    }

    /** The invariant of the instruction log, while `[lo, hi)` is decoded but unpublished. */
    ghost predicate Log(lo: int, hi: int)
      reads this`goal, this`blocks, this`instructionCount, this`decoded, this`reach
    {
      Logged(goal, reach, blocks, decoded, instructionCount, lo, hi)
    }

    ghost predicate Listed(s: set<Address>)
      reads this`goal, this`calls, this`unresolved
    {
      goal.ListsCalls(s, calls) && goal.ListsUnresolved(s, unresolved)
    }

    /** Counts and decodes the instruction after the open run; it cannot have been decoded before. */
    method DecodeNext(current: Address, ghost lo: int) returns (r: Result<Instruction>)
      requires goal.options == options && goal.guest == guest
      requires lo <= current && current % 4 == 0 && current in reach
      requires Log(lo, current) && Apart(blocks, lo, current + 4)
      modifies this`instructionCount, this`decoded
      ensures r.Ok? ==>
                && r == guest.fetch(current)
                && current !in old(decoded) && decoded == old(decoded) + {current}
                && instructionCount == old(instructionCount) + 1
                && Log(lo, current + 4)
      ensures r.Err? ==> goal.Cause(reach, starts, r.code)
    {
      ExtendRun(blocks, lo, current, decoded);
      if instructionCount >= options.maxInstructions {
        InstructionOverflow(goal, reach, starts, decoded + {current});
        return Err(AnalysisInstructionLimitExceeded);
      }
      r := guest.fetch(current);
      if r.Err? {
        StepCause(goal, reach, starts, current);
        return;
      }
      instructionCount := instructionCount + 1;
      decoded := decoded + {current};
    }

    /** Ends the open run at `i`: at a boundary after a plain instruction, or where control diverts. */
    method CloseBlock(block: BasicBlock, i: Instruction)
      returns (r: Result<BasicBlock>, ghost mid: map<Address, BasicBlock>)
      requires Work({block.start}) && Fixed() && i.address in reach
      requires EndsRun(goal, block, leaders) && i == block.Last()
      modifies this`leaders, this`blocks, this`pending, this`worklist, this`calls, this`unresolved
      ensures r.Ok? ==>
                && Work({block.start}) && goal.ErrorAfter(i).None?
                && r.value == block.(successors := goal.Edges(i), calls := goal.CallsOf(i))
                && calls == old(calls) + goal.CallsOf(i)
                && unresolved == old(unresolved) + goal.UnresolvedOf(i)
                && leaders == old(leaders) + goal.Ahead(i)
      ensures r.Ok? ==> CutsPassed(goal, i, old(blocks), mid, blocks)
      ensures r.Err? ==> goal.Cause(reach, starts, r.code)
    {
      goal.SuccessorsAhead(i);
      mid := blocks;
      if i.flow.kind.Fallthrough? {
        var edge, updated := AddFallthroughEdge(block, i.address, FallthroughEdge, {block.start});
        if edge.Err? {
          return Err(edge.code), mid;
        }
        r := Ok(updated);
      } else {
        r, mid := EndBlock(block, i, {block.start});
        if r.Err? && goal.ErrorAfter(i) == Some(r.code) {
          StepCause(goal, reach, starts, i.address);
        }
      }
    }

    /** The decoded block is complete, and decoding it made at most one new cut. */
    ghost predicate Decoded(block: BasicBlock, before: map<Address, BasicBlock>)
      reads this
    {
      && Work({block.start}) && Log(block.start, block.End()) && Listed(decoded)
      && goal.BlockAt(block.start, block) && Settled(goal, block, leaders)
      && OneCut(before, blocks, block, leaders)
    }

    /** Decodes one more instruction of the open run, which then goes on or ends. */
    method GrowRun(block: BasicBlock) returns (r: Result<BasicBlock>)
      requires Work({block.start}) && Log(block.start, block.End()) && guest.FetchesCode()
      requires Growing(goal, block, leaders) && block.End() in reach && block.start !in blocks
      requires block.instructions != [] ==> block.End() !in leaders
      modifies this`instructionCount, this`decoded
      ensures r.Ok? ==>
                var longer := r.value;
                && longer.instructions != [] && goal.guest.fetch(block.End()) == Ok(longer.Last())
                && longer == block.(instructions := block.instructions + [longer.Last()])
                && longer.Last().address == block.End()
                && Log(block.start, longer.End())
                && block.End() !in old(decoded) && decoded == old(decoded) + {block.End()}
                && instructionCount == old(instructionCount) + 1
                && if longer.Last().flow.kind.Fallthrough? && longer.End() !in leaders && goal.Internal(longer.End())
                   then Growing(goal, longer, leaders)
                   else EndsRun(goal, longer, leaders)
      ensures r.Err? ==> goal.Cause(reach, starts, r.code)
    {
      var current := block.End();
      LeadersAreAligned(goal, starts, leaders);
      NextIsApart(goal, starts, blocks, leaders, block.start, current);
      var fetched := DecodeNext(current, block.start);
      if fetched.Err? {
        return Err(fetched.code);
      }
      StepRun(goal, block, leaders, fetched.value);
      return Ok(block.(instructions := block.instructions + [fetched.value]));
    }

    /** Decodes plain instructions from a block start up to the one that must end the block. */
    method DecodeRun(start: Address) returns (r: Result<BasicBlock>, ghost earlier: set<Address>)
      requires Work({start}) && Log(start, start) && Fixed() && guest.FetchesCode()
      requires start in leaders && start in reach && start !in blocks
      modifies this`instructionCount, this`decoded
      ensures r.Ok? ==> EndsRun(goal, r.value, leaders) && r.value.start == start
      ensures r.Ok? ==> Log(start, r.value.End())
      ensures r.Ok? ==>
                && r.value.Last().address !in earlier && decoded == earlier + {r.value.Last().address}
                && AddsPlain(goal, old(decoded), earlier)
      ensures r.Ok? ==> instructionCount > old(instructionCount)
      ensures r.Err? ==> goal.Cause(reach, starts, r.code)
    {
      hide Partition, Genuine, Queued, Problem.Cause, Apart, Covered, Problem.ClosedUnderSuccessors, GuestView.FetchesCode;
      var block := BasicBlock(start, [], [], []);
      earlier := decoded;
      LeaderIsMapped(goal, starts, leaders, start);
      LeadersAreAligned(goal, starts, leaders);
      while true
        invariant block.start == start && block.End() in reach && Growing(goal, block, leaders)
        invariant Log(start, block.End()) && AddsPlain(goal, old(decoded), decoded)
        invariant instructionCount == old(instructionCount) + |block.instructions|
        decreases options.maxInstructions - instructionCount
      {
        if block.instructions != [] && block.End() in leaders {
          assert false;
        }
        earlier := decoded;
        r := GrowRun(block);
        if r.Err? {
          return;
        }
        block := r.value;
        var i := block.Last();
        if !i.flow.kind.Fallthrough? || i.address + 4 in leaders || !options.Internal(i.address + 4) {
          return;
        }
        NextIsReached(goal, reach, i);
      }
    }

    method DecodeBlock(start: Address) returns (r: Result<BasicBlock>)
      requires Work({start}) && Log(start, start) && Listed(decoded) && Fixed() && guest.FetchesCode()
      requires start in leaders && start in reach && start !in blocks
      modifies this`leaders, this`blocks, this`pending, this`worklist, this`calls, this`unresolved,
               this`instructionCount, this`decoded
      ensures r.Ok? ==> r.value.start == start && start in leaders && Decoded(r.value, old(blocks))
      ensures r.Ok? ==> instructionCount > old(instructionCount) && old(decoded) <= decoded != {}
      ensures r.Ok? && start == goal.entry && old(leaders) == {start} ==> forall a :: goal.InFirstRun(a) ==> a in decoded
      ensures r.Err? ==> goal.Cause(reach, starts, r.code)
    {
      hide Consistent, Growing, AddsPlain, OneCut, Settled, Covered, Problem.BlockAt, Problem.Cause, Problem.InFirstRun,
           Problem.ListsCalls, Problem.ListsUnresolved, Problem.IsRun, CutsPassed, GuestView.FetchesCode, IsCut, Logged, Apart, LeavesBy;
      ghost var earlier;
      r, earlier := DecodeRun(start);
      if r.Err? {
        return;
      }
      var block := r.value;
      RunIsDecoded(goal, reach, block, leaders, blocks, old(decoded), earlier, decoded, instructionCount);
      var i := block.Last();
      LoggedGives(goal, reach, blocks, decoded, instructionCount, start, block.End());
      ListsGrowPlain(goal, old(decoded), earlier, calls, unresolved);
      ListsGrow(goal, earlier, decoded, i, calls, unresolved);
      ghost var known := leaders;
      ghost var mid;
      r, mid := CloseBlock(block, i);
      if r.Ok? {
        CutsAreOne(goal, r.value, i, old(blocks), mid, blocks, known, leaders);
        CutsKeepLog(goal, reach, i, old(blocks), mid, decoded, instructionCount, start, block.End());
        CompleteBlock(goal, block, i, r.value, leaders);
      }
    }

    /** Publishes one segment; a following one is already in the queue. */
    method PublishSegment(block: BasicBlock, first: nat, end: nat, ghost extra: set<Address>)
      requires goal.BlockAt(block.start, block) && Settled(goal, block, leaders)
      requires first < end <= |block.instructions|
      requires block.instructions[first].address in leaders
      requires end < |block.instructions| ==> block.instructions[end].address in leaders
      requires forall l :: l in leaders ==> !StrictlyInside(Segment(block, first, end), l)
      requires Work(extra) && extra <= {block.instructions[first].address} && Log(block.start + 4 * first, block.End())
      modifies this`blocks, this`pending, this`worklist
      ensures Work({}) && Log(block.start + 4 * end, block.End())
      ensures |blocks| == |old(blocks)| + 1
    {
      var segment := Segment(block, first, end);
      MoreExtra(goal, starts, blocks, leaders, pending, worklist, extra, {segment.start});
      SegmentIsBlock(goal, block, first, end, leaders);
      if end != |block.instructions| {
        NextIsQueued(goal, starts, blocks, leaders, pending, worklist, block, first, end);
        var queued := Enqueue(block.instructions[end].address, {segment.start});
        if queued.Err? {
          assert false;
        }
      }
      PublishStep(goal, reach, starts, blocks, leaders, pending, worklist, decoded, instructionCount, segment, block.End());
      if segment.start in blocks {
        assert false;
      }
      blocks := blocks[segment.start := segment];
    }

    method SplitPoints(block: BasicBlock) returns (points: seq<nat>)
      requires block.instructions != []
      ensures SplitsAtLeaders(block, leaders, points, |block.instructions|)
    {
      points := [];
      for index := 1 to |block.instructions|
        invariant SplitsAtLeaders(block, leaders, points, index)
      {
        if block.instructions[index].address in leaders {
          points := points + [index];
        }
      }
    }

    /** A decoded block, and the positions inside it that have become leaders. */
    ghost predicate Splitting(block: BasicBlock, points: seq<nat>)
      reads this`goal, this`leaders
    {
      && goal.BlockAt(block.start, block) && Settled(goal, block, leaders) && block.start in leaders
      && SplitsAtLeaders(block, leaders, points, |block.instructions|)
    }

    /** The piece between two neighbouring split points. */
    method PublishPiece(block: BasicBlock, points: seq<nat>, k: nat, first: nat, ghost extra: set<Address>)
      returns (end: nat)
      requires Splitting(block, points)
      requires k <= |points| && first == SegmentStart(points, k)
      requires extra == (if k == 0 then {block.start} else {}) && Work(extra)
      requires Log(block.start + 4 * first, block.End())
      modifies this`blocks, this`pending, this`worklist
      ensures end == SegmentEnd(block, points, k)
      ensures Work({}) && Log(block.start + 4 * end, block.End()) && |blocks| == |old(blocks)| + 1
    {
      LeadersAreAligned(goal, starts, leaders);
      SegmentsAreClear(goal, block, leaders, points, k);
      end := SegmentEnd(block, points, k);
      PublishSegment(block, first, end, extra);
    }

    method PublishSegments(block: BasicBlock, points: seq<nat>)
      requires Splitting(block, points)
      requires Work({block.start}) && Log(block.start, block.End())
      modifies this`blocks, this`pending, this`worklist
      ensures Work({}) && Log(block.End(), block.End())
      ensures |blocks| == |old(blocks)| + |points| + 1
    {
      hide Consistent, Apart, Covered, Settled, Problem.BlockAt, Logged;
      var first := 0;
      ghost var extra := {block.start};
      for k := 0 to |points| + 1
        invariant first == if k == 0 then 0 else SegmentEnd(block, points, k - 1)
        invariant extra == if k == 0 then {block.start} else {}
        invariant Work(extra) && Log(block.start + 4 * first, block.End())
        invariant |blocks| == |old(blocks)| + k
      {
        first := PublishPiece(block, points, k, first, extra);
        extra := {};
      }
    }

    /** Stores a decoded block, cut wherever one of its later instructions has become a leader. */
    method PublishBlock(block: BasicBlock, ghost before: map<Address, BasicBlock>)
      requires Decoded(block, before) && block.start in leaders
      modifies this`blocks, this`pending, this`worklist
      ensures Work({}) && Log(block.End(), block.End())
      ensures |blocks| <= |before| + 2
    {
      var points := SplitPoints(block);
      FewPoints(goal, before, blocks, block, leaders, points);
      PublishSegments(block, points);
    }

    /** One round of the worklist: a pending leader that is not yet a block is decoded and published. */
    method TakeNext(ghost at: int) returns (r: Result<()>, ghost next: int)
      requires Work({}) && Log(at, at) && Listed(decoded) && Fixed() && guest.FetchesCode()
      requires FirstRunIsDecoded(goal, leaders, decoded) && options.maxBasicBlocks > 0
      requires worklist != [] && |blocks| <= options.maxBasicBlocks + 1 && forall l :: l in starts ==> l in reach
      modifies this`leaders, this`blocks, this`pending, this`worklist, this`calls, this`unresolved,
               this`instructionCount, this`decoded
      ensures r.Ok? ==> Work({}) && Log(next, next) && Listed(decoded) && |blocks| <= options.maxBasicBlocks + 1
      ensures r.Ok? ==> FirstRunIsDecoded(goal, leaders, decoded)
      ensures r.Ok? ==>
                || instructionCount > old(instructionCount)
                || (instructionCount == old(instructionCount) && |worklist| < |old(worklist)|)
      ensures r.Err? ==> goal.Cause(reach, starts, r.code)
    {
      hide Consistent, Logged, Queued, Partition, Genuine, Problem.BlockAt, Problem.Cause, Problem.InFirstRun, Settled, OneCut,
           Problem.ListsCalls, Problem.ListsUnresolved, FirstRunIsDecoded, GuestView.FetchesCode;
      next := at;
      var start := worklist[0];
      PopKeepsQueue(goal, starts, blocks, leaders, pending, worklist);
      worklist := worklist[1..];
      pending := pending - {start};
      if start in blocks {
        return Ok(()), at;
      }
      if |blocks| >= options.maxBasicBlocks {
        LateOverflow(goal, reach, starts, blocks, leaders, pending, worklist, decoded, instructionCount, at, start);
        return Err(AnalysisBlockLimitExceeded), at;
      }
      RunOpens(goal, reach, starts, blocks, leaders, decoded, instructionCount, at, start);
      ghost var before := blocks;
      var block := DecodeBlock(start);
      if block.Err? {
        return Err(block.code), at;
      }
      PublishBlock(block.value, before);
      FirstRunStays(goal, old(leaders), leaders, old(decoded), decoded, start);
      return Ok(()), block.value.End();
    }

    /** The worklist loop.  Each round decodes an instruction, or only shortens the worklist. */
    method Drain() returns (r: Result<()>, ghost at: int)
      requires Work({}) && Log(0, 0) && Listed(decoded) && Fixed() && guest.FetchesCode()
      requires |blocks| <= options.maxBasicBlocks + 1 && forall l :: l in starts ==> l in reach
      requires FirstRunIsDecoded(goal, leaders, decoded) && options.maxBasicBlocks > 0
      modifies this`leaders, this`blocks, this`pending, this`worklist, this`calls, this`unresolved,
               this`instructionCount, this`decoded
      ensures r.Ok? ==>
                && worklist == [] && Work({}) && Log(at, at) && Listed(decoded)
                && |blocks| <= options.maxBasicBlocks + 1
      ensures r.Err? ==> goal.Cause(reach, starts, r.code)
    {
      hide Consistent, Apart, Covered, Problem.Cause, Problem.InFirstRun, Problem.ListsCalls, Problem.ListsUnresolved,
           FirstRunIsDecoded, GuestView.FetchesCode;
      at := 0;
      while worklist != []
        invariant Work({}) && Log(at, at) && Listed(decoded) && FirstRunIsDecoded(goal, leaders, decoded)
        invariant |blocks| <= options.maxBasicBlocks + 1
        decreases options.maxInstructions - instructionCount, |worklist|
      {
        r, at := TakeNext(at);
        if r.Err? {
          return;
        }
      }
      r := Ok(());
    }

    /** The finished tables make a graph, which is validated. */
    method Finish(ghost at: int) returns (r: Result<Graph>)
      requires Work({}) && Log(at, at) && Listed(decoded) && worklist == [] && |blocks| <= options.maxBasicBlocks + 1
      requires reach == goal.Reach() && starts == goal.Starts() && goal.EntryError().None?
      ensures goal.Returns(r)
    {
      var graph := Graph(entry, blocks, calls, unresolved, instructionCount);
      hide Consistent, Apart, Covered, Finished, WellFormed, Overflows, Problem.IsAnalysis, Problem.Cause, Problem.EntryError,
           Problem.ListsCalls, Problem.ListsUnresolved, TransferTargets;
      WorkIsDone(goal, reach, starts, blocks, leaders, pending, decoded, instructionCount, at);
      FinishedIsWellFormed(goal, reach, starts, leaders, decoded, graph);
      var valid := ValidateControlFlowGraph(graph);
      if valid.Err? {
        RejectionCause(goal, reach, starts, leaders, decoded, graph);
        return Err(valid.code);
      }
      FinishedIsAnalysis(goal, leaders, decoded, graph);
      return Ok(graph);
    }

    /** The entry becomes the first leader. */
    method Start(entry: Address) returns (r: Result<()>)
      requires Problem(guest, options, entry).EntryError().None?
      requires blocks == map[] && leaders == {} && pending == {} && worklist == []
      requires calls == [] && unresolved == [] && instructionCount == 0
      modifies this
      ensures goal == Problem(guest, options, entry) && reach == goal.Reach() && starts == goal.Starts()
      ensures options.maxBasicBlocks > 0 && (forall l :: l in starts ==> l in reach) && Fixed()
      ensures r.Ok? ==> Work({}) && Log(0, 0) && Listed(decoded) && blocks == map[]
      ensures r.Ok? ==> FirstRunIsDecoded(goal, leaders, decoded)
      ensures r.Err? ==> goal.Cause(reach, starts, r.code)
    {
      hide Partition, Genuine, Seeded, Logged, Problem.ListsCalls, Problem.ListsUnresolved, Problem.Cause, Problem.Reach,
           Problem.Starts, Problem.EntryError, FirstRunIsDecoded, Problem.ClosedUnderSuccessors;
      this.entry := entry;
      goal := Problem(guest, options, entry);
      reach, starts, decoded := goal.Reach(), goal.Starts(), {};
      leaders := {entry};
      LeastSets(goal);
      StartKeepsQueue(goal, starts);
      NothingIsLogged(goal, reach);
      r := Enqueue(entry, {entry});
    }

    /** Grows the graph of `entry` until the worklist is empty, then validates it. */
    method Run(entry: Address) returns (r: Result<Graph>)
      requires guest.FetchesCode()
      requires blocks == map[] && calls == [] && unresolved == [] && instructionCount == 0
      requires leaders == {} && pending == {} && worklist == []
      modifies this
      ensures Problem(guest, options, entry).Returns(r)
      ensures r.Ok? ==> DescribesCode(guest, options, entry, r.value)
    {
      hide Consistent, Logged, Problem.Cause, Problem.EntryError, Problem.ListsCalls, Problem.ListsUnresolved, Problem.Reach,
           Problem.Starts, FirstRunIsDecoded, GuestView.FetchesCode, Problem.IsAnalysis, Problem.WithinLimits;
      var invalid := Problem(guest, options, entry).EntryError();
      if invalid.Some? {
        EntryCause(Problem(guest, options, entry), invalid.value);
        return Err(invalid.value);
      }
      var started := Start(entry);
      if started.Err? {
        return Err(started.code);
      }
      var drained;
      ghost var at;
      drained, at := Drain();
      if drained.Err? {
        return Err(drained.code);
      }
      r := Finish(at);
      if r.Ok? {
        AnalysisDescribesCode(Problem(guest, options, entry), r.value);
      }
    }
  }

  /** The position of the instruction at `a`, or the block's length when it is not there. */
  method IndexOf(b: BasicBlock, a: Address) returns (index: nat)
    ensures index <= |b.instructions|
    ensures index < |b.instructions| ==> b.instructions[index].address == a
    ensures forall i :: 0 <= i < index ==> b.instructions[i].address != a
  {
    index := 0;
    while index < |b.instructions| && b.instructions[index].address != a
      invariant index <= |b.instructions|
      invariant forall i :: 0 <= i < index ==> b.instructions[i].address != a
    {
      index := index + 1;
    }
  }
}
