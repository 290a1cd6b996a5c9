# Verified model of the static analysis pipeline

This project models, and proves correct, the part of the recompiler that turns executable guest memory
into knowledge about functions: the control-flow graph builder, the algebra of code ranges, function
discovery with boundary finalization, the validation of finished function maps, the process-wide index
over them, the placement of modules, the parallel coverage scan, and the arithmetic underneath.

Code that works in place in the program is imperative here as well. `GraphBuilder` and `FunctionMapBuilder`
are classes with the fields of the originals; the range merges, the index construction, the layout loop, the
worker loops and the limb arithmetic are methods with loops or reassignments, proved against specifications.

| file | subject |
|---|---|
| `Common.dfy`, `Arithmetic.dfy`, `Sorting.dfy`, `Names.dfy` | addresses, checked arithmetic, multiplication facts, `std::sort`, string order |
| `ControlFlow.dfy`, `GraphValidation.dfy` | instructions, blocks, graphs; what an analysis must produce; the graph validator |
| `BuilderInvariant.dfy`, `GraphBuilder.dfy`, `BuilderResult.dfy` | the worklist machine, its invariants, and what they give when it stops |
| `FlowTheorems.dfy`, `CfgTheorems.dfy`, `FreshGraphs.dfy` | graphs told kind by kind, canonical results, exact limits, the effect of known entries, stale graphs |
| `CodeRanges.dfy` | normalization, overlap, intersection, byte counts |
| `FunctionRecords.dfy`, `FunctionMaps.dfy` | ownership, boundary conflicts, lookups, map validation |
| `FunctionDiscovery.dfy`, `Evidence.dfy`, `BuildSteps.dfy` | what a build is given, and what its seeds say; its steps as functions and relations over the values it keeps |
| `BuildInvariant.dfy`, `BuildAccounts.dfy`, `BuildRuns.dfy`, `Finalization.dfy` | what every step keeps and charges; whole runs of seeding, discovery and finalization |
| `PassBudgets.dfy`, `AmpleBudgets.dfy`, `GraphCharges.dfy` | when a pass stays within the budgets, exactly; budgets that are enough; what graphs are charged |
| `FunctionPublication.dfy`, `PublishedEvidence.dfy`, `FunctionMapBuilder.dfy` | what is published, and when; what the seeds mean for it; the builder, which performs the steps |
| `StaleBuild.dfy`, `SeedBudget.dfy`, `Rejections.dfy`, `ShortCode.dfy` | builds of concrete inputs: a stale graph, a seed budget that is never enough, the three causes of rejection |
| `ProcessIndex.dfy`, `ModuleLayout.dfy` | the process-wide interval index; module placement |
| `PortableArithmetic.dfy`, `BranchTargets.dfy`, `Coverage.dfy` | high multiplication, branch targets, the coverage scan |

`dafny verify dfyconfig.toml` checks everything.

## Main results

* **The graph is determined by the code.** `Problem.IsAnalysis` describes a function's graph without
  any worklist: its instructions are the least set that holds the entry and is closed under internal successors, its
  blocks start exactly at the entry and at the internal targets, and they are maximal. The worklist machine
  returns that graph or fails for a cause that holds of the code (`GraphBuilder.GraphBuilder.Run`,
  `CfgTheorems.CanonicalResult`). `FlowTheorems.DescribesCode` says the same once more without a word of the
  builder's own functions, kind of instruction by kind.
* **When a published graph is stale, exactly.** If discovery leaves no failed function that keeps a graph, which
  is so for every build confined to one executable range, finalization takes exactly one pass, the failure for too
  many passes cannot occur, and every published graph is the one for the final known entries
  (`Finalization.FinalizationIsSound`, `FunctionMapBuilder.FunctionMapBuilder.Build`). In all other builds the stale
  graphs are exactly those of functions that branch to a boundary found in the pass that stored the graph, before
  its storing, or to one outside the range of the analyses (`Finalization.StaleExactly`).
* **A build succeeds exactly when** its run of seeding, discovery and finalization does and its records can be
  published; publication fails only for shared entries, for failed functions that keep a graph, and for misaligned
  entries given from outside that lie in a function (`FunctionPublication.ValidExactly`). Every fault has a cause in
  the input, and every exhausted budget one at the seed or the function where the run stopped
  (`Finalization.SettlingIsSound`). In a confined build the pass after discovery succeeds exactly when the
  work and the calls of the functions for the known entries fit the budgets, limits of single analyses apart
  (`PassBudgets.PassFitsExactly`), and budgets are enough
  under a condition on the input (`AmpleBudgets.AmpleIsEnough`). With enough of them, a confined build of an input
  without faults succeeds if and only if no two functions share an entry, which only seeds can bring about
  (`FunctionPublication.SharesExactly`).
* **The functions are bounded from both sides, for every number of workers.** No function is published that does not
  follow from the seeds by direct calls, and every in-range direct call of a published graph leads to a published
  function.
* **What the seeds say holds of the published map.** The entries of strong seeds cut every other function at
  unconditional branches, stale graphs included, their functions and all functions called are trusted, and every
  function is rated by its strongest evidence (`PublishedEvidence.SettledTells`).
* **The conflict set is exact**, and the validators accept exactly what they are documented to accept.
* **The process index answers like a scan**, and an incremental replacement gives the very process map, or
  the very error, that a full rebuild gives; a replacement changes the answers for its own module only
  (`ProcessIndex.ReplacedAnswers`).
* **The parallel coverage scan equals the serial one** for every number of workers.

## Where the code and its description part

* The comment at `function_map.cpp:1752-1755` says that no stale graph survives finalization. That holds after a
  single pass. With several passes the checkpoint at `function_map.cpp:1855` counts boundaries found earlier in the
  same pass, which the graph being stored did not know, so the test at `function_map.cpp:1769-1788` keeps the
  graph later. `StaleBuild.PublishStale` is a build that succeeds and publishes such a graph together with a
  conflict between functions that share no code; `Finalization.KeptIsStaleExactly` gives the exact condition.
* The block limit is checked before a block is decoded, and one decoded block may be published as two, so the
  limit can be exceeded by one: `CfgTheorems.OneBlockTooMany`. `CfgTheorems.CountsAreExact` says when a graph
  exceeds it, and `CfgTheorems.BlockLimitIsMet` when the error is returned.
* An automatic module base is aligned only until it has to be moved past an explicit module:
  `ModuleLayout.UnalignedLayout`. `ModuleLayout.LayoutUnalignedExactly` gives the exact condition.
* A misaligned entry among the preset known entries is not rejected at the start, but makes the final validation
  fail when it lies in the code of a function with a graph (`FunctionPublication.ValidExactly`). So do seeds that share
  an entry, and functions across two executable ranges, although failures are allowed: `Rejections.BuildRejected`.
* The seed budget is cut down to the number of instruction slots (`function_map.cpp:413-414`), but it is charged for
  every insertion into the pending set, also when the function has long been processed, and again in finalization
  (`function_map.cpp:637-649`). So there are modules for which no seed budget is enough: `SeedBudget.BuildNever`.
  `PassBudgets.PassFitsExactly` gives the exact condition for the pass, and `AmpleBudgets.CallsNeedSlots` says what
  every successful confined build has in common.

## Model

| member | source | states |
|---|---|---|
| `ControlFlow.MakeGuest` | src/switchrecomp/aarch64/decoder.cpp:1386-1431 | Every memory and every decoder make a guest of the model: a word is fetched only where it is aligned, executable and in the address space, with the errors in the order of the checks |
| `CfgTheorems.AnalyzeControlFlow` | src/switchrecomp/analysis/cfg_analyzer.cpp:540-558 | A returned graph is the one fixed, up to the order of its call lists, by the code, the range, the known entries and the entry (`IsAnalysis`) and keeps within the limits, and it is told kind by kind (`DescribesCode`): a conditional branch leaves a taken edge to its target and a not-taken edge to the next word, a direct branch one edge, a function transfer exactly when its target is another known entry, plain instructions and calls one fallthrough edge, everything else none; a failure has a cause in the code or in a limit that the reach or the block starts really exceed |
| `GraphBuilder.GraphBuilder.Run` | src/switchrecomp/analysis/cfg_analyzer.cpp:41-112 | The worklist machine from an empty builder: `Ok` gives exactly the reachable instructions in maximal blocks that start at the canonical starts, at most `max_instructions` instructions and `max_basic_blocks + 1` blocks; `Err` names a cause that holds of the problem, and for the block limit some block start must lie beyond the first straight run; edges, their kinds and targets, calls and unresolved transfers are those that `DescribesCode` writes out for each kind of instruction |
| `GraphBuilder.GraphBuilder.Drain` | src/switchrecomp/analysis/cfg_analyzer.cpp:79-104 | The worklist loop ends, by the lexicographic measure of instructions still allowed and worklist length, with an empty worklist and the table and log invariants intact |
| `GraphBuilder.GraphBuilder.TakeNext` | src/switchrecomp/analysis/cfg_analyzer.cpp:79-104 | One round either decodes an instruction or shortens the worklist, and leaves at most `max_basic_blocks + 1` blocks |
| `GraphBuilder.GraphBuilder.Enqueue` | src/switchrecomp/analysis/cfg_analyzer.cpp:147-162 | The worklist stays a duplicate-free listing of the pending set; an overflow means that more than `max_pending_targets` block starts exist |
| `GraphBuilder.GraphBuilder.MarkLeader` | src/switchrecomp/analysis/cfg_analyzer.cpp:164-168 | A new leader cuts the block that holds it, and the published blocks stay disjoint runs with no leader inside one |
| `GraphBuilder.GraphBuilder.SplitExistingBlock` | src/switchrecomp/analysis/cfg_analyzer.cpp:170-223 | The block whose interior holds the address becomes its prefix and its suffix, with edges and calls where they belong; every other block is untouched |
| `GraphBuilder.GraphBuilder.ValidateDirectTarget` | src/switchrecomp/analysis/cfg_analyzer.cpp:225-268 | An accepted target is aligned and executable; it becomes a leader exactly when it is internal and not a function transfer |
| `GraphBuilder.GraphBuilder.AddFallthroughEdge` | src/switchrecomp/analysis/cfg_analyzer.cpp:270-312 | The fallthrough edge, its internal flag and the new leader it may create, or the overflow or fetch error |
| `GraphBuilder.GraphBuilder.DecodeNext` | src/switchrecomp/analysis/cfg_analyzer.cpp:340-353 | No instruction is decoded twice; the counter grows by one and never passes its limit |
| `GraphBuilder.GraphBuilder.DecodeRun` | src/switchrecomp/analysis/cfg_analyzer.cpp:322-470 | Decoding goes on through plain instructions up to the first one that diverts control, reaches a leader or leaves the range |
| `GraphBuilder.GraphBuilder.EndBlock` | src/switchrecomp/analysis/cfg_analyzer.cpp:388-467 | Edges, calls and unresolved transfers of the last instruction, and the leaders it adds; the edges are also those that `LeavesBy` writes out for each kind of instruction |
| `GraphBuilder.GraphBuilder.DecodeBlock` | src/switchrecomp/analysis/cfg_analyzer.cpp:322-470 | The decoded block is complete and maximal for the current leaders, and decoding it cut at most one published block |
| `GraphBuilder.GraphBuilder.PublishBlock` | src/switchrecomp/analysis/cfg_analyzer.cpp:472-527 | The block is published in pieces, one more than the leaders found inside it, which are at most one: the table grows by at most two blocks |
| `GraphBuilder.GraphBuilder.PublishSegment` | src/switchrecomp/analysis/cfg_analyzer.cpp:485-525 | A published piece is new, starts at a leader and contains none; the piece after it is already queued |
| `FlowTheorems.AnalysisDescribesCode` | src/switchrecomp/analysis/cfg_analyzer.cpp:225-470 | Every analysis, told in instruction kinds, targets, the range and the known entries alone: the instructions are the least set closed under where control leads, blocks start exactly at the entry and where jumps lead, each leaves by exactly the edges of its last instruction, kinds and internal flags included, and the call sites and unresolved transfers are those of the reached instructions |
| `FlowTheorems.ErrorsAre` | src/switchrecomp/analysis/cfg_analyzer.cpp:225-312 | A reached address is an error, with a given code, if and only if it cannot be fetched for that reason, or holds a branch to no aligned executable word, or a call or conditional branch whose next word is in the range and not executable |
| `FlowTheorems.EntryIsAccepted` | src/switchrecomp/analysis/cfg_analyzer.cpp:41-77 | The entry is accepted if and only if the limits are not zero, the range is non-empty and representable, and the entry is an aligned executable word of it |
| `BuilderInvariant.CutKeepsPartition` | src/switchrecomp/analysis/cfg_analyzer.cpp:170-223 | Cutting at a new leader keeps the blocks disjoint, contiguous and free of leaders inside |
| `BuilderInvariant.FewPoints` | src/switchrecomp/analysis/cfg_analyzer.cpp:474-482 | A freshly decoded block holds at most one leader, so the error for more than two pieces cannot occur |
| `BuilderInvariant.PublishStep` | src/switchrecomp/analysis/cfg_analyzer.cpp:485-525 | Publishing a piece keeps the queue and table invariants and the count of decoded instructions |
| `BuilderResult.DecodedIsReach` | src/switchrecomp/analysis/cfg_analyzer.cpp:225-312 | When the worklist is empty the decoded addresses are the least set that holds the entry and is closed under internal successors |
| `BuilderResult.LeadersAreStarts` | src/switchrecomp/analysis/cfg_analyzer.cpp:164-168 | When the worklist is empty the leaders are exactly the entry and the internal targets that must start a block |
| `BuilderResult.FinishedIsAnalysis` | src/switchrecomp/analysis/cfg_analyzer.cpp:106-111 | The final state of the machine is the graph described without any order of work |
| `BuilderResult.FinishedIsWellFormed` | src/switchrecomp/analysis/cfg_analyzer.cpp:106-111 | Every clause of the graph validator but one is implied by the builder's invariant: the final check accepts exactly when no function-transfer target is also a block of the graph |
| `GraphValidation.ValidateControlFlowGraph` | src/switchrecomp/analysis/control_flow_graph.cpp:64-164 | The validator accepts exactly the well-formed graphs: contiguous aligned runs, edges from the last instruction, internal targets present, terminators that fit, and no instruction in two blocks |
| `GraphValidation.CheckRun` | src/switchrecomp/analysis/control_flow_graph.cpp:70-101 | The instruction loop accepts exactly new, contiguous, representable runs and returns the grown address set |
| `GraphValidation.CheckBlock` | src/switchrecomp/analysis/control_flow_graph.cpp:67-161 | One block is accepted exactly when its run, its edges and its terminator are |
| `GraphValidation.TerminatorPassesExactly` | src/switchrecomp/analysis/control_flow_graph.cpp:119-161 | The terminator test passes exactly when transfers come from direct branches only, terminal instructions have no edge, direct branches do not fall through, and conditional branches have both a taken and a not-taken edge |
| `CfgTheorems.ReachShrinks` | src/switchrecomp/analysis/cfg_analyzer.cpp:398-418 | Enlarging the set of known entries can only shrink the reachable instructions and the block starts |
| `CfgTheorems.CallsAreReached` | src/switchrecomp/analysis/cfg_analyzer.cpp:432-441 | A graph's direct calls are those of the instructions its function reaches |
| `CfgTheorems.CallsShrink` | src/switchrecomp/analysis/cfg_analyzer.cpp:398-418 | Enlarging the set of known entries can only remove direct calls |
| `CfgTheorems.CanonicalResult` | src/switchrecomp/analysis/cfg_analyzer.cpp:79-104 | Two successful analyses of the same code agree on blocks, edges, counts and call lists, whatever their limits and their worklist order |
| `CfgTheorems.ExactlyOnce` | src/switchrecomp/analysis/cfg_analyzer.cpp:329-353 | No instruction is stored twice, in one block or in two |
| `CfgTheorems.AnalysisIsWellFormed` | src/switchrecomp/analysis/control_flow_graph.cpp:64-164 | The graph of every successful analysis passes the graph validator |
| `CfgTheorems.CountsAreExact` | src/switchrecomp/analysis/cfg_analyzer.cpp:79-104 | For every number, a graph has more instructions, or more blocks, than it if and only if the reach, or the set of block starts, has |
| `CfgTheorems.InstructionLimitIsExact` | src/switchrecomp/analysis/cfg_analyzer.cpp:340-352 | Where no other limit is met and the code is sound, the analysis returns the instruction-limit error if and only if more instructions than the limit are reached, and succeeds otherwise |
| `CfgTheorems.BlockLimitIsMet` | src/switchrecomp/analysis/cfg_analyzer.cpp:79-104 | On sound code within the other limits: more than one block start above the limit always gives the block-limit error, and the error is returned only when there are more block starts than the limit, one of them beyond the first straight run |
| `CfgTheorems.OneBlockTooMany` | src/switchrecomp/analysis/cfg_analyzer.cpp:79-104 | A guest on which the analysis succeeds with two blocks although the limit is one |
| `CfgTheorems.SoundProblemsSucceed` | src/switchrecomp/analysis/cfg_analyzer.cpp:41-112 | An analysis of code without faults, with limits that cover its reach and its starts, cannot fail |
| `FreshGraphs.FreshExactly` | src/switchrecomp/analysis/cfg_analyzer.cpp:398-418 | A graph stays correct under more known entries if and only if no reachable unconditional branch goes to a new one |
| `FreshGraphs.KeptExactly` | src/switchrecomp/analysis/function_map.cpp:1769-1788 | A graph that the test keeps is not the one for the known entries if and only if a reached unconditional branch goes to a boundary that the graph did not know and that the checkpoint counts or that lies outside the range of the analyses |
| `CodeRanges.NormalizeRanges` | src/switchrecomp/analysis/function_map.cpp:857-908 | Succeeds exactly on aligned, non-empty, representable ranges; the result is sorted without touching ranges and owns the same bytes |
| `CodeRanges.NormalizeAddresses` | src/switchrecomp/analysis/function_map.cpp:797-848 | The same for the four-byte words at a list of instruction addresses, in any order and with repetitions |
| `CodeRanges.NormalFormIsCanonical` | src/switchrecomp/analysis/function_map.cpp:857-908 | Two normalized lists are equal if and only if they own the same bytes |
| `CodeRanges.OwnedRangesOverlap` | src/switchrecomp/analysis/function_map.cpp:917-945 | On normalized lists the two-pointer scan decides whether they share a byte |
| `CodeRanges.IntersectOwnedRanges` | src/switchrecomp/analysis/function_map.cpp:947-992 | The result owns exactly the common bytes and is already normalized |
| `CodeRanges.IntersectionIsUnique` | src/switchrecomp/analysis/function_map.cpp:947-992 | The intersection does not depend on the order of the arguments or on how the ranges are written |
| `CodeRanges.OverlapIsNonEmptyIntersection` | src/switchrecomp/analysis/function_map.cpp:917-992 | Two lists overlap if and only if their intersection is not empty |
| `CodeRanges.PreciseOwnedByteCount` | src/switchrecomp/analysis/function_map.cpp:994-1013 | The count is the number of distinct bytes owned, and its overflow branch is unreachable |
| `CodeRanges.CountsAddUp` | src/switchrecomp/analysis/function_map.cpp:947-1013 | count(A) + count(B) = count(A and B) + count(A followed by B) |
| `FunctionRecords.PopulateOwnership` | src/switchrecomp/analysis/function_map.cpp:653-738 | Succeeds exactly on graphs of aligned words whose every contiguous piece lies in one executable range; ownership is then the normal form of the instructions, the call targets are sorted and unique, and the error otherwise says which check failed |
| `FunctionRecords.LessIsOwnable` | src/switchrecomp/analysis/function_map.cpp:678-690 | A part of code that can be owned can be owned too |
| `FunctionRecords.OwnableExactly` | src/switchrecomp/analysis/function_map.cpp:653-738 | Code can be owned if and only if there is some, it consists of aligned words of the address space, and every contiguous stretch of its bytes lies in one executable range |
| `FunctionRecords.CollectDependencies` | src/switchrecomp/analysis/function_map.cpp:740-749 | The known entries that lie in the owned ranges, in increasing order |
| `FunctionMaps.FindsTheFunction` | src/switchrecomp/analysis/function_map.cpp:1145-1153 | The binary search finds a function exactly when the sorted map holds it |
| `FunctionMaps.MakeConflict` | src/switchrecomp/analysis/function_map.cpp:751-787 | Two overlapping functions give a conflict that names them in order, lists exactly the bytes they share, and keeps their envelopes, sources and confidences |
| `FunctionMaps.ComputeConflicts` | src/switchrecomp/analysis/function_map.cpp:1968-1995 | The pairwise pass records every overlapping pair with graphs once, in sorted order, and nothing else |
| `FunctionMaps.MarkConflicts` | src/switchrecomp/analysis/function_map.cpp:1996-2024 | Exactly the functions named by a conflict are marked, and nothing else changes |
| `FunctionMaps.ConflictPassIsValid` | src/switchrecomp/analysis/function_map.cpp:1968-2024 | What the conflict pass and the marking produce always satisfies the validator's conflict checks |
| `FunctionMaps.ValidateFunctionMap` | src/switchrecomp/analysis/function_map.cpp:2083-2294 | The validator accepts exactly the valid maps: sorted, with unique entries in range, exact ownership, owned dependencies, well-formed graphs, and exactly the conflicts that the ownership implies; the error code is that of the first check that fails |
| `FunctionMaps.CheckFunctions` | src/switchrecomp/analysis/function_map.cpp:2090-2195 | The per-function half: sorted entries, entries in range and unique over all functions, ownership equal to the normal form of the graph, dependencies sorted and owned, well-formed graphs |
| `FunctionMaps.CheckConflicts` | src/switchrecomp/analysis/function_map.cpp:2197-2248 | Accepts exactly sorted lists of conflicts that each name two overlapping functions and their exact overlap |
| `FunctionMaps.CheckOverlaps` | src/switchrecomp/analysis/function_map.cpp:2249-2293 | Given exact conflicts, accepts exactly when every overlap is recorded and both its functions are marked |
| `FunctionMaps.SharedCodeIsRecorded` | src/switchrecomp/analysis/function_map.cpp:1015-1027 | On a valid map two functions with graphs both own an aligned address if and only if a conflict names them and lists it |
| `FunctionDiscovery.ValidateInput` | src/switchrecomp/analysis/function_map.cpp:461-527 | Accepts exactly named modules with non-zero budgets and sorted, disjoint, aligned, executable ranges; the code of a refusal says which of these is missing |
| `FunctionDiscovery.DeriveBudgets` | src/switchrecomp/analysis/function_map.cpp:372-448 | On validated input neither failure can occur; every budget is the lesser of what was requested and what the code can use in the passes allowed, exactly and without saturation (`IsClamped`), and none becomes zero |
| `FunctionDiscovery.RoomForEntry` | src/switchrecomp/analysis/function_map.cpp:605-631 | Distinct recorded entries and one more fit into the instruction slots of the executable ranges |
| `FunctionDiscovery.OverrunIsExact` | src/switchrecomp/analysis/function_map.cpp:1450-1540 | A graph passes the budget checks exactly when all four totals stay within budget |
| `FunctionDiscovery.OverrunIsFirst` | src/switchrecomp/analysis/function_map.cpp:1450-1540 | Which budget a refused graph is reported for: the first one exceeded by the totals with its instructions, blocks, edges and bytes, in the order of the checks |
| `FunctionDiscovery.LimitsAreLeast` | src/switchrecomp/analysis/function_map.cpp:1418-1427 | Each limit of a single analysis is the lesser of the option and the budget, and the only executable range confines it when no range is given |
| `FunctionDiscovery.EntryExactly` | src/switchrecomp/analysis/function_map.cpp:529-556 | A function may be entered exactly at aligned, executable words that lie in one executable range |
| `GraphCharges.ChargeIsExact` | src/switchrecomp/analysis/function_map.cpp:1450-1540 | The edges charged for a graph are its blocks, plus its conditional branches and calls, plus its unresolved transfers, minus its instructions without a successor |
| `GraphCharges.TotalIsExact` | src/switchrecomp/analysis/function_map.cpp:1450-1540 | The instructions, blocks and bytes charged for several graphs are the numbers of pairs of a graph and an instruction or a block start of it, and four bytes for each instruction |
| `FunctionDiscovery.AnalysisStaysInside` | src/switchrecomp/analysis/function_map.cpp:1424-1427 | When analyses are confined to one executable range, every graph lies inside it |
| `FunctionDiscovery.EvidenceCommutes` | src/switchrecomp/analysis/function_map.cpp:558-592 | The order in which two seeds of a function are met leaves no trace in its confidence rank, its trust or its set of entries |
| `FunctionDiscovery.CallIsCallable` | src/switchrecomp/analysis/function_map.cpp:1698-1721 | The least set that holds the seeds and is closed under the calls of analyses that know the first entries contains the in-range calls of its members |
| `Evidence.FirstEntriesExactly` | src/switchrecomp/analysis/function_map.cpp:1029-1047 | Known before any analysis are exactly the entries the caller gives (in an execution closure only new ones and roots) and both addresses of every included seed that is an observed indirect target, or no guess and either a manual override or of manual, confirmed or high confidence; no other seed adds one |
| `Evidence.RatingGrows` | src/switchrecomp/analysis/function_map.cpp:558-592 | One more seed of a recorded function: the record is rated by its strongest seed, the first of equal ones, and trusted if and only if some seed of it is strong |
| `Evidence.RatingBegins` | src/switchrecomp/analysis/function_map.cpp:594-651 | The same for the first seed of a function |
| `BuildInvariant.AddSeedExtends` | src/switchrecomp/analysis/function_map.cpp:594-651 | A seed adds evidence or one new function, its entry, and a pending entry, and changes no code; it is refused if and only if one of its addresses is no valid entry, and exhausts a budget only when it needs a new function and the function budget, below the structural bound, is used up, or a new pending entry and the seed budget is used up |
| `BuildInvariant.AddCallsExtends` | src/switchrecomp/analysis/function_map.cpp:1698-1721 | Following up calls makes every in-range target a function and a known entry, adds nothing else, records each new boundary once, and fails only if a target is no valid entry or the targets that are new to the container ask for more functions or seeds than the budget allows |
| `BuildInvariant.KnownCallsAddNothing` | src/switchrecomp/analysis/function_map.cpp:1859-1890 | Following up calls that are known already adds no boundary and no function |
| `BuildInvariant.CallsRate` | src/switchrecomp/analysis/function_map.cpp:1698-1721 | Following up calls changes what is said of their in-range targets only: each becomes a trusted function known as an entry, rated as a direct call of high confidence unless it was rated at least as high before |
| `BuildInvariant.ProcessKeeps` | src/switchrecomp/analysis/function_map.cpp:1621-1723 | Every outcome of processing one analysis keeps the invariant of the build: graphs and failures are outcomes of analyses that knew a prefix of the boundaries, ownership and call lists are exact, in-range calls are closed, every function follows from the seeds, listed entries are those known at storing; a fault has a cause in the input, and an exhausted budget one in the state: the consumed work and this analysis exceed it, the calls ask for too much, or a limit of the analysis binds |
| `BuildInvariant.ReworkKeeps` | src/switchrecomp/analysis/function_map.cpp:1789-1891 | Every outcome of analyzing a function again in a finalization pass keeps the same invariant, and an exhausted budget has the same kinds of cause |
| `BuildAccounts.TotalAdds` | src/switchrecomp/analysis/function_map.cpp:1450-1540 | The order in which graphs are charged leaves no trace in the totals |
| `BuildAccounts.ProcessBalances` | src/switchrecomp/analysis/function_map.cpp:1621-1723 | In discovery the consumed work is exactly that of the graphs kept, and the seeds charged lie between the entries taken or waiting and the seeds and calls met |
| `BuildRuns.SeedingIsSound` | src/switchrecomp/analysis/function_map.cpp:1361-1410 | The included seeds become functions with their entries, rated by the strongest of them, and the strong ones exactly the first known entries (`Evidence.FirstEntriesExactly`); seeding fails only for an invalid seed, or at a seed that asks for more than a budget allows |
| `BuildRuns.TakesAWave` | src/switchrecomp/analysis/function_map.cpp:1727-1734 | A wave takes unprocessed entries in increasing order, all below what stays pending, and is full unless nothing is left |
| `BuildRuns.WaveFitsWorkers` | src/switchrecomp/analysis/function_map.cpp:1725-1734 | A wave has an entry for every worker, and at least one, unless the pending entries run out |
| `BuildRuns.RatedStays` | src/switchrecomp/analysis/function_map.cpp:558-592 | Whatever steps follow seeding, every function stays rated by its strongest seed, or as the target of a call where that is higher, and trusted if it has a strong seed |
| `BuildRuns.RunningKeepsDiscovering` | src/switchrecomp/analysis/function_map.cpp:1725-1750 | Every round of discovery keeps the invariant and uses up seed budget, which is why discovery ends |
| `BuildRuns.DiscoveryIsSound` | src/switchrecomp/analysis/function_map.cpp:1725-1750 | For every run of discovery: at its end nothing is pending and every function is analyzed or failed; an exhausted budget has its cause in a function of some round |
| `Finalization.KeptIsStaleExactly` | src/switchrecomp/analysis/function_map.cpp:1769-1788 | Before a function is passed over: the graph that the test keeps is stale if and only if the function branches to a boundary found after the start of the pass that stored the graph and before its storing (or to a later one outside the range of the analyses) |
| `Finalization.PassesOverExactly` | src/switchrecomp/analysis/function_map.cpp:1764-1788 | A pass leaves a function as it is if and only if it has failed without a graph, or is analyzed and no boundary found since its checkpoint lies in its code |
| `Finalization.ReworkRecords` | src/switchrecomp/analysis/function_map.cpp:1842-1855 | A graph stored by a pass rests on what was known at the start of the pass, its checkpoint counts all boundaries found by the time of storing, and it lists the entries known then |
| `Finalization.LaterIsLess` | src/switchrecomp/analysis/function_map.cpp:1789-1854 | A second analysis with more known entries gives a graph that can be owned if the first one could, and finds no new call |
| `Finalization.VisitKeepsCalm` | src/switchrecomp/analysis/function_map.cpp:1761-1891 | While no failed function keeps a graph, a visit adds no boundary and no function |
| `Finalization.PassIsSound` | src/switchrecomp/analysis/function_map.cpp:1756-1892 | For every run of a pass: a first pass leaves all graphs resting on the entries known at its start; a pass without a new boundary leaves each graph so, or kept by the test |
| `Finalization.FinalizationIsSound` | src/switchrecomp/analysis/function_map.cpp:1752-1907 | For every run of finalization: if discovery left no failed function with a graph, it takes exactly one pass and cannot run out of passes; after a single pass no graph is stale |
| `Finalization.SettlingIsSound` | src/switchrecomp/analysis/function_map.cpp:1361-1907 | For every run up to publication: confined builds take one pass and never exhaust the passes, an exhausted budget has its cause at a seed, in a round of discovery or in a visit of a pass, and a fault one in the input, which its code names |
| `Finalization.StaleExactly` | src/switchrecomp/analysis/function_map.cpp:1752-1755 | After any number of passes a graph is stale if and only if its function branches to a boundary that its graph did not know and its checkpoint counts (or one outside the range of the analyses) |
| `PassBudgets.SameAnalysis` | src/switchrecomp/analysis/function_map.cpp:1450-1540 | What a function costs, owns and calls does not depend on the order in which it was analyzed |
| `PassBudgets.CalmIsStill` | src/switchrecomp/analysis/function_map.cpp:1752-1755 | When no failed function keeps a graph, the graphs for the known entries call nothing that is not known |
| `PassBudgets.PassFitsExactly` | src/switchrecomp/analysis/function_map.cpp:1756-1892 | A pass that finds nothing new succeeds if and only if the seeds charged and the functions called by those it works on again fit the seed budget, and the work consumed and theirs fits the other four, unless a limit of an analysis binds; it leaves exactly these totals, and an exhausted budget is one that is exceeded |
| `PassBudgets.FinalizationFitsExactly` | src/switchrecomp/analysis/function_map.cpp:1752-1907 | The same of the whole of finalization, which is then one pass |
| `AmpleBudgets.GraphIsBounded` | src/switchrecomp/analysis/function_map.cpp:1450-1540 | A graph has no more blocks than instructions, and no more edges, calls and unresolved transfers than three for each instruction |
| `AmpleBudgets.AmpleIsEnough` | src/switchrecomp/analysis/function_map.cpp:372-448 | For a confined or call-free build, a condition on the input under which no budget can run out: the callable functions, the words and the calls of each, before any call is followed up, are bounded, and the budgets cover two analyses of each function, the seeds, the calls and one more charge for each function |
| `AmpleBudgets.SettlingFitsExactly` | src/switchrecomp/analysis/function_map.cpp:1361-1907 | In a confined or call-free build success means that the one pass after discovery fits the budgets, with the exact totals, and an exhausted budget that a seed, a function of discovery or that pass does not |
| `AmpleBudgets.CallsNeedSlots` | src/switchrecomp/analysis/function_map.cpp:411-414 | Such a build succeeds only if the functions, and once more those that are called, fit the instruction slots, however large a seed budget was requested |
| `FunctionPublication.FirstAreListed` | src/switchrecomp/analysis/function_map.cpp:740-749 | An analyzed function lists in order exactly the entries in its code that were known at storing: every first entry there, and besides only aligned boundaries |
| `FunctionPublication.EntriesAreExact` | src/switchrecomp/analysis/function_map.cpp:558-631 | A recorded function has its own entry, those that included seeds give it, and no others |
| `FunctionPublication.SharesExactly` | src/switchrecomp/analysis/function_map.cpp:2116-2126 | Two functions share an entry if and only if included seeds give them one |
| `FunctionPublication.MarkingPublishes` | src/switchrecomp/analysis/function_map.cpp:1945-2024 | Sorting and marking lose no record, and only functions with graphs are marked |
| `FunctionPublication.ValidExactly` | src/switchrecomp/analysis/function_map.cpp:2072-2195 | The final validation accepts if and only if no two functions share an entry, no failed function has kept a graph, and no misaligned first entry lies in the code of a function with a graph |
| `FunctionPublication.CalmIsPublishable` | src/switchrecomp/analysis/function_map.cpp:2072-2195 | In a settled build whose first entries are aligned, the final validation accepts if and only if no two functions share an entry |
| `FunctionPublication.SettledIsPublished` | src/switchrecomp/analysis/function_map.cpp:1945-2081 | Of every published map: entries follow from the seeds, graphs and failures are outcomes of analyses, in-range calls are known and published, stale graphs are exactly those that miss a boundary, and none is stale after a single pass |
| `FunctionPublication.CalmIsSettled` | src/switchrecomp/analysis/function_map.cpp:1945-1966 | When all is settled, a published function without a graph has failed |
| `PublishedEvidence.AllAreCut` | src/switchrecomp/analysis/function_map.cpp:1029-1047 | No published graph, fresh or stale, goes on at an entry known from the start that is not its own: an unconditional branch to an entry of a strong seed is a function transfer |
| `PublishedEvidence.StrongFunctionIsTrusted` | src/switchrecomp/analysis/function_map.cpp:1029-1047 | A published function with an included strong seed is trusted, or in a conflict |
| `PublishedEvidence.CalleeIsTrusted` | src/switchrecomp/analysis/function_map.cpp:1698-1721 | So is every published function that a published graph calls |
| `PublishedEvidence.FunctionIsRated` | src/switchrecomp/analysis/function_map.cpp:558-592 | Source and confidence of a published function are those of its strongest seed, the first of equal ones, or of a direct call where that is stronger; a marked function keeps the source |
| `PublishedEvidence.FunctionIsEntered` | src/switchrecomp/analysis/function_map.cpp:1945-1966 | The entries of a published function are its own address and those its included seeds give it, in increasing order; without a graph it owns nothing |
| `PublishedEvidence.MarkingMarksDisputes` | src/switchrecomp/analysis/function_map.cpp:1968-2024 | A published function is marked if and only if it shares code with another one |
| `PublishedEvidence.SettledTells` | src/switchrecomp/analysis/function_map.cpp:1945-2081 | All of this holds of every published map, and each of its graphs is told kind by kind for the entries known when it was made |
| `FunctionMapBuilder.FunctionMapBuilder.AddSeed` | src/switchrecomp/analysis/function_map.cpp:594-651 | Outcome and new state are those of the step `AddSeed`, about which `AddSeedExtends` is proved |
| `FunctionMapBuilder.FunctionMapBuilder.ExpandCalls` | src/switchrecomp/analysis/function_map.cpp:1698-1721 | Outcome and new state are those of following up the calls in order; tells exactly whether a boundary was new |
| `FunctionMapBuilder.FunctionMapBuilder.Account` | src/switchrecomp/analysis/function_map.cpp:1450-1540 | The first exceeded budget in the order of the checks, or the new totals |
| `FunctionMapBuilder.FunctionMapBuilder.StoreGraph` | src/switchrecomp/analysis/function_map.cpp:1671-1690 | The graph is charged, and the record owns it with exact ranges, calls and dependencies, or has failed and keeps it |
| `FunctionMapBuilder.FunctionMapBuilder.ProcessGraph` | src/switchrecomp/analysis/function_map.cpp:1621-1723 | Outcome and new state are those of the step `Process`, and the graph builder learns the new entries |
| `FunctionMapBuilder.FunctionMapBuilder.PopWave` | src/switchrecomp/analysis/function_map.cpp:1727-1734 | The wave and what remains are those of `TakeWave` |
| `FunctionMapBuilder.FunctionMapBuilder.AnalyzeWave` | src/switchrecomp/analysis/function_map.cpp:1541-1619 | All analyses of a wave see the entries known at its start |
| `FunctionMapBuilder.FunctionMapBuilder.Discover` | src/switchrecomp/analysis/function_map.cpp:1725-1750 | The rounds form a run of discovery, and they end |
| `FunctionMapBuilder.FunctionMapBuilder.FinalizeRecord` | src/switchrecomp/analysis/function_map.cpp:1761-1891 | One function of a pass: passed over exactly when the test says so, and then its graph is stale if and only if it misses a boundary; otherwise dropped or computed anew, resting on the entries known at the start of the pass, with a checkpoint that counts every boundary found so far |
| `FunctionMapBuilder.FunctionMapBuilder.FinalizeAll` | src/switchrecomp/analysis/function_map.cpp:1756-1892 | The visits form a run over the growing container by increasing entry, and they end |
| `FunctionMapBuilder.FunctionMapBuilder.Finalize` | src/switchrecomp/analysis/function_map.cpp:1752-1907 | The passes form a run of finalization that stops at the first one without a new boundary, or at the limit |
| `FunctionMapBuilder.FunctionMapBuilder.Publish` | src/switchrecomp/analysis/function_map.cpp:1945-2072 | Succeeds if and only if the records can be published, and then lists every record by entry with exact conflicts in a valid map |
| `FunctionMapBuilder.FunctionMapBuilder.Build` | src/switchrecomp/analysis/function_map.cpp:1198-2081 | A fresh build: its outcome is that of a run of seeding, discovery and finalization, and it succeeds exactly when that run does and the records can be published; what it publishes is described by `IsPublished` and, in seeds, instructions and addresses alone, by `TellsTheBuild`: which branches leave their function, which functions are trusted, marked and how rated, and where they may be entered; confined builds take exactly one pass and never run out of passes; the function budget is never exhausted at the structural bound; every fault, code by code, and every exhausted budget has a named cause; a confined build is settled within its budgets exactly as `SettlesWithin` says; with ample budgets none runs out, and a confined build of a faultless input then succeeds if and only if no two functions share an entry, and always when every included seed names its function by its own entry |
| `Rejections.CaseIsRejected` | src/switchrecomp/analysis/function_map.cpp:2083-2195 | Three inputs whose every run settles in a state that the final validation rejects: a misaligned preset entry inside a function, two seeds that share an entry, a function across two executable ranges with failures allowed |
| `Rejections.BuildRejected` | src/switchrecomp/analysis/function_map.cpp:2066-2072 | On each of them the builder fails, and fails in the final validation |
| `SeedBudget.NoSeedBudgetIsEnough` | src/switchrecomp/analysis/function_map.cpp:637-649 | A function that calls itself and fills the executable range: with budgets for all the work every run ends with the seed budget exhausted, whatever seed budget of at least two is requested |
| `SeedBudget.BuildNever` | src/switchrecomp/analysis/function_map.cpp:411-414 | No open choice of options, whatever the budgets and the workers, makes the build of that input succeed |
| `StaleBuild.TheBuildSettles` | src/switchrecomp/analysis/function_map.cpp:1725-1907 | On this input every run of the build ends in the same functions, boundaries and checkpoints, after two passes |
| `StaleBuild.PublishStale` | src/switchrecomp/analysis/function_map.cpp:1752-1755 | An input on which the build succeeds, publishes a graph that is not the one for the known entries, and records a conflict between two functions whose graphs for the known entries share no instruction |
| `ProcessIndex.FromStorage` | src/switchrecomp/analysis/process_image.cpp:1292-1357 | The outcome of the full build, error by error: frozen maps, distinct names, unclaimed entries, representable ranges, and the interval index |
| `ProcessIndex.IndexOfIsSound` | src/switchrecomp/analysis/process_image.cpp:1340-1355 | The index is sorted by base, holds the running maximum of the ends, and lists exactly the non-empty executable ranges |
| `ProcessIndex.SearchBackward` | src/switchrecomp/analysis/process_image.cpp:1359-1381 | Pruning at the running maximum misses no range that holds the entry |
| `ProcessIndex.FindMapIndex` | src/switchrecomp/analysis/process_image.cpp:1359-1381 | Module i is returned if and only if map i holds the canonical entry in its executable ranges, also where ranges overlap; so the map found is the one that answers for the entry |
| `ProcessIndex.OneMapClaims` | src/switchrecomp/analysis/process_image.cpp:1323-1334 | In a built process map no entry is claimed by two modules, so the answer is unique |
| `ProcessIndex.ServesIsClaims` | src/switchrecomp/analysis/process_image.cpp:1359-1381 | For maps as the builder publishes them the index answers exactly like a scan of all maps |
| `ProcessIndex.Build` | src/switchrecomp/analysis/process_image.cpp:1198-1224 | Sorting by name, then the duplicate and frozen checks, then the full build: it succeeds if and only if the names differ, every map is frozen with representable ranges and entries that differ, and no two maps share an entry; the result holds exactly these maps in lexicographic order of their names |
| `ProcessIndex.BuildIgnoresOrder` | src/switchrecomp/analysis/process_image.cpp:1198-1224 | The process map does not depend on the order in which the maps are supplied |
| `ProcessIndex.FastRebuild` | src/switchrecomp/analysis/process_image.cpp:1249-1273 | With unchanged executable ranges a rebuild fails exactly when another module holds an entry of the replacement, and otherwise keeps the index |
| `ProcessIndex.CheckReplacement` | src/switchrecomp/analysis/process_image.cpp:1252-1266 | The fast path's test finds exactly the entries held by another module |
| `ProcessIndex.ReplaceModule` | src/switchrecomp/analysis/process_image.cpp:1226-1290 | With or without the fast path the outcome, errors included, is that of the full rebuild; it succeeds if and only if the replacement is frozen, has the name, has representable ranges and no entry of another module, and then the result holds the replacement, no other map of that name, and of all other names exactly the maps there were |
| `ProcessIndex.ReplacementSucceedsExactly` | src/switchrecomp/analysis/process_image.cpp:1226-1290 | When a full rebuild with a replacement succeeds, which maps it then holds, and what each of its errors means |
| `ProcessIndex.ReplacedAnswers` | src/switchrecomp/analysis/process_image.cpp:1226-1290 | After a replacement a lookup answers every entry of the replacement with it, and every entry of another module as before |
| `Names.NameLeqIsLexicographic` | src/switchrecomp/analysis/process_image.cpp:1198-1205 | Names are ordered by the first character in which they differ, a prefix first |
| `ModuleLayout.PowerTest` | src/switchrecomp/analysis/process_image.cpp:49-53 | The bit test accepts exactly the powers of two |
| `ModuleLayout.MaskIsRight` | src/switchrecomp/analysis/process_image.cpp:54-59 | Masking rounds down to a multiple of the alignment |
| `ModuleLayout.AlignUpIsLeast` | src/switchrecomp/analysis/process_image.cpp:47-60 | The result is the least multiple of the alignment that is not below the value |
| `ModuleLayout.SpanIsMaximum` | src/switchrecomp/analysis/process_image.cpp:62-85 | The span is the largest segment end, and fails exactly when a segment end overflows |
| `ModuleLayout.AvoidExplicit` | src/switchrecomp/analysis/process_image.cpp:769-788 | The collision loop ends, hits the ranges listed by `Hits` and settles where the specification says |
| `ModuleLayout.CollideExactly` | src/switchrecomp/analysis/process_image.cpp:87-91 | The comparison of bounds finds exactly the pairs of ranges that share an address, or of which one is empty and strictly inside the other |
| `ModuleLayout.ExplicitAreListed` | src/switchrecomp/analysis/process_image.cpp:738-757 | The ranges to avoid are exactly those of the modules with a base of their own, each aligned and as long as the image |
| `ModuleLayout.HitsAreDistinct` | src/switchrecomp/analysis/process_image.cpp:769-788 | The loop hits no explicit range twice |
| `ModuleLayout.MovesAreFew` | src/switchrecomp/analysis/process_image.cpp:769-788 | The loop moves at most once for each explicit range |
| `ModuleLayout.AvoidedIsClear` | src/switchrecomp/analysis/process_image.cpp:769-788 | The settled base is not below the starting base, and the module shares no address with an explicit range; neither is empty and strictly inside the other |
| `ModuleLayout.AvoidedIsPastLastHit` | src/switchrecomp/analysis/process_image.cpp:780-784 | The settled base is the starting base, or one gap past the last range hit |
| `ModuleLayout.PlaceModule` | src/switchrecomp/analysis/process_image.cpp:760-791 | Explicit modules stay where they were asked to be; an automatic base is unaligned if and only if it was moved and one gap past the last range hit is unaligned |
| `ModuleLayout.Layout` | src/switchrecomp/analysis/process_image.cpp:738-821 | The outcome, errors included, of the layout described without loops; on success no address lies in two modules, or in a module and the reserved stack, and no empty image strictly inside another range; an overlap error means that the next module has such an address or lies so with respect to one laid out before it or the stack; without explicit modules and stack no overlap error can occur |
| `ModuleLayout.AutomaticLayout` | src/switchrecomp/analysis/process_image.cpp:759-806 | With automatic modules only, every base is aligned and images are at least a gap apart |
| `ModuleLayout.LayoutUnalignedExactly` | src/switchrecomp/analysis/process_image.cpp:764-788 | An automatic module of a layout has an unaligned base if and only if its search was moved by an explicit module and one gap past the last such module is unaligned |
| `ModuleLayout.AllAligned` | src/switchrecomp/analysis/process_image.cpp:764-788 | When one gap past every explicit module is aligned, every base is |
| `ModuleLayout.UnalignedLayout` | src/switchrecomp/analysis/process_image.cpp:780-784 | A layout with an explicit and an automatic module whose automatic base is not aligned |
| `PortableArithmetic.MultiplyHighUnsigned` | include/switchrecomp/common/portable_arithmetic.hpp:12-36 | The upper 64 bits of the product, as UMULH requires (section C6.2 of the Arm Architecture Reference Manual, DDI 0487) |
| `PortableArithmetic.AddCarries` | include/switchrecomp/common/portable_arithmetic.hpp:26-36 | No carry out of the low word is lost, and the last sum does not wrap |
| `PortableArithmetic.MultiplyHighSigned` | include/switchrecomp/common/portable_arithmetic.hpp:38-49 | The floor of the signed product over 2^64, modulo 2^64, as SMULH requires (section C6.2 of the Arm Architecture Reference Manual, DDI 0487) |
| `PortableArithmetic.SignedFloor` | include/switchrecomp/common/portable_arithmetic.hpp:44-48 | How far the signed upper half falls short of the unsigned one |
| `BranchTargets.CheckedAddSignedIsExact` | include/switchrecomp/common/checked_arithmetic.hpp:70-86 | The checked sum is the exact one, or the error on the side where it leaves the address space |
| `BranchTargets.ScaledSignedIsExact` | src/switchrecomp/aarch64/decoder.cpp:42-70 | The scaled immediate is exact in the signed 64-bit range, with the right error on either side, the smallest value included |
| `BranchTargets.SignExtendExactly` | src/switchrecomp/aarch64/decoder.cpp:31-40 | The extension is the one number in the signed range of the field that agrees with the value in its low bits |
| `BranchTargets.RelativeTargetIsExact` | src/switchrecomp/aarch64/decoder.cpp:72-86 | A target is computed exactly when it and its distance can be represented |
| `BranchTargets.FieldRoundTrip` | src/switchrecomp/aarch64/decoder.cpp:31-40 | Sign extension reads back the number a field was made from |
| `BranchTargets.BranchRoundTrip` | src/switchrecomp/aarch64/decoder.cpp:930-941 | Every word-aligned target in reach of a direct branch is decoded from its 26-bit field |
| `BranchTargets.PageRoundTrip` | src/switchrecomp/aarch64/decoder.cpp:88-93 | Every page in reach of an `ADRP` is decoded from its 21-bit field, wherever in its page the instruction stands |
| `Coverage.ChunksPartition` | src/switchrecomp/analysis/coverage.cpp:304-307 | Every index belongs to exactly one worker's chunk |
| `Coverage.ScanRange` | src/switchrecomp/analysis/coverage.cpp:298-340 | One worker reports exactly the counts, frequencies and first unsupported indices of its chunk |
| `Coverage.SummarizeSplits` | src/switchrecomp/analysis/coverage.cpp:392-423 | The counts of adjacent pieces add up, name by name, to the counts of the whole |
| `Coverage.UnsupportedSplits` | src/switchrecomp/analysis/coverage.cpp:392-423 | The unsupported words of adjacent pieces, one list after the other, are those of the whole, in order |
| `Coverage.UnsupportedAreCounted` | src/switchrecomp/analysis/coverage.cpp:328-338 | As many indices are listed as unsupported words are counted |
| `Coverage.ScanAll` | src/switchrecomp/analysis/coverage.cpp:341-423 | Merged in worker order, the reports of all chunks are the report of the whole range |
| `Coverage.ScanCoverage` | src/switchrecomp/analysis/coverage.cpp:246-434 | Succeeds exactly on aligned, executable, representable ranges within the limit, otherwise with the code of the first objection; the report does not depend on the number of workers, and it is told word by word (`TellsTheWords`) |
| `Coverage.CoverageTells` | src/switchrecomp/analysis/coverage.cpp:298-434 | The report by single words: the numbers of undecodable, liftable and other words, each opcode with the number of its words, larger numbers first and equal ones by name, and the addresses base + 4 k of the first sixteen decodable words k that cannot be lifted, increasing and with none skipped |
| `Coverage.CoverageIsUnique` | src/switchrecomp/analysis/coverage.cpp:295-434 | For every number of workers the report is the same, lists and their order included |
| `Coverage.CoverageBalances` | src/switchrecomp/analysis/coverage.cpp:309-340 | Decoded words and failures add up to size / 4; liftable and unsupported words add up to the decoded ones |
| `Coverage.IndicesAreRight` | src/switchrecomp/analysis/coverage.cpp:326-338 | The unsupported words, and no others, are listed by increasing index |

## Left out

- The decoder and guest memory: tabulated, for each address, as the outcome of the four-byte permission query and of fetching and decoding; only aligned executable words decode, as `fetch_instruction` ensures. Reading a word and looking up regions are not modelled.
- The permission query of a whole range (`validate_input`, `scan_coverage`) is an input of the model.
- Building on an earlier map (`reuse_map`), and with it the invalidation of reused records.
- FunctionMaps.ValidateFunctionMap: the module name of a record or a conflict and the synthetic identifier, which a build always sets to the map's own name and to a non-empty text, are not modelled.
- FunctionMaps.CheckFunctions: the same identity clauses are not modelled.
- FunctionMaps.MakeConflict: the module name and the constant resolution text of a conflict are not modelled.
- FunctionRecords.PopulateOwnership: the sorted indirect calls and the unresolved transfers that the record copies from its graph are not modelled; the graph's own lists are.
- FunctionMaps.CheckConflicts: the module name of a conflict is not modelled.
- CfgTheorems.BlockLimitIsMet: for exactly one block start above the limit the outcome depends on the order of the worklist, so only the case of a single straight run is decided.
- Names, notes, evidence lists, diagnostics, accounting by seed source, and the text of errors; the terminator text of a block.
- GraphBuilder.GraphBuilder.Run: the builder's counters and limits are unbounded numbers, not `std::size_t`; the guest addresses and ranges are 64-bit.
- FunctionMapBuilder.FunctionMapBuilder.Build: bounds the set of discovered functions from both sides but does not determine it, because it depends on the number of workers; a wave is a list of isolated analyses, and failures to create threads or decoders are not modelled.
- FunctionMapBuilder.FunctionMapBuilder.Build: the budget's consumed and pending figures in an error are left out; the exhausted dimension is modelled.
- ProcessIndex.FromStorage: shared pointers are values, so null maps do not exist.
- ModuleLayout.Layout: file parsing, memory loading and symbol work of `load_process_image` are left out; a module is its list of segments and an optional base.
- Coverage.ScanCoverage: threads are isolated scans merged in worker order; which words are liftable is an input.
- Callable-entry and owner lookups (`find_exact_entry`, `find_precise_owners`), symbol providers, relocations, rendering, file formats, the interpreter and the lifter.
