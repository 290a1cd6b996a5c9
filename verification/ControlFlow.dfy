/** Decoded control flow, basic blocks and graphs, and what a control-flow
    analysis of a guest is required to produce. */
module ControlFlow {
  import opened Common

  datatype FlowKind =
    | Fallthrough
    | DirectBranch
    | ConditionalBranch
    | DirectCall
    | IndirectBranch
    | IndirectCall
    | Return
    | Trap
    | Exception
    | Unknown
  {
    predicate IsCall() { DirectCall? || IndirectCall? }
    predicate IsUnresolved() { IndirectBranch? || IndirectCall? || Unknown? }
    predicate HasNoSuccessor() { Return? || IndirectBranch? || Trap? || Exception? || Unknown? }
  }

  datatype Flow = Flow(kind: FlowKind, target: Option<Address>, register: Option<nat>)
  datatype Instruction = Instruction(address: Address, flow: Flow)

  datatype EdgeKind =
    | FallthroughEdge
    | BranchEdge
    | FunctionTransfer
    | ConditionalTaken
    | ConditionalNotTaken

  datatype Edge = Edge(source: Address, target: Address, kind: EdgeKind, internal: bool)
  datatype CallSite = CallSite(address: Address, direct: bool, target: Option<Address>, register: Option<nat>)
  datatype Unresolved = Unresolved(address: Address, kind: FlowKind, register: Option<nat>)

  datatype BasicBlock =
    BasicBlock(start: Address, instructions: seq<Instruction>, successors: seq<Edge>, calls: seq<CallSite>)
  {
    function End(): int { start + 4 * |instructions| }

    function Last(): Instruction
      requires instructions != []
    {
      instructions[|instructions| - 1]
    }
  }

  datatype Graph = Graph(
    entry: Address,
    blocks: map<Address, BasicBlock>,
    calls: seq<CallSite>,
    unresolved: seq<Unresolved>,
    instructionCount: nat)

  /** The addresses of all the instructions stored in a graph's blocks. */
  function Addresses(g: Graph): set<Address> {
    set s, i | s in g.blocks && 0 <= i < |g.blocks[s].instructions| :: g.blocks[s].instructions[i].address
  }

  /** The graph holds a direct call of `t`. */
  ghost predicate CallsDirectly(g: Graph, t: Address) {
    exists c :: c in g.calls && c.direct && c.target == Some(t)
  }

  function TransferTargets(g: Graph): set<Address> {
    set s, i | s in g.blocks && 0 <= i < |g.blocks[s].successors| && g.blocks[s].successors[i].kind.FunctionTransfer?
      :: g.blocks[s].successors[i].target
  }

  /** Guest memory and the instruction decoder, tabulated: the four-byte permission query at an
      address, and the outcome of reading and decoding the instruction there. */
  datatype GuestView = GuestView(permissions: map<Address, Result<bool>>, code: map<Address, Result<Instruction>>) {
    function executable(a: Address): Result<bool> {
      if a in permissions then permissions[a] else Err(UnmappedMemory)
    }

    function fetch(a: Address): Result<Instruction> {
      if a in code then code[a] else Err(UnmappedMemory)
    }

    ghost predicate FetchesCode() {
      && (forall a: Address :: executable(a) == Ok(true) ==> 0 <= a && a + 4 < TWO64)
      && (forall a: Address :: fetch(a).Ok? ==> a % 4 == 0 && executable(a) == Ok(true) && fetch(a).value.address == a)
    }
  }

  /** Only aligned, executable words that lie in the address space can be fetched. */
  type Guest = g: GuestView | g.FetchesCode() witness GuestView(map[], map[])

  /** `is_executable(a, 4)`, given the permission lookup of the region that maps `a`. */
  function IsExecutable(permission: Address -> Result<bool>, a: Address): Result<bool> {
    if a < 0 || a + 4 >= TWO64 then Err(ArithmeticOverflow) else permission(a)
  }

  /** `fetch_and_decode`, given the permission lookup and the decoder. */
  function FetchAndDecode(permission: Address -> Result<bool>, decode: Address -> Result<Flow>, a: Address)
    : Result<Instruction>
  {
    if a % 4 != 0 then Err(MisalignedInstructionAddress)
    else
      var executable := IsExecutable(permission, a);
      if executable.Err? then Err(executable.code)
      else if !executable.value then Err(NonExecutableAddress)
      else
        var flow := decode(a);
        if flow.Err? then Err(flow.code) else Ok(Instruction(a, flow.value))
  }

  /** Any memory and any decoder make a guest. */
  function MakeGuest(permission: Address -> Result<bool>, decode: Address -> Result<Flow>): (g: Guest)
    ensures forall a :: 0 <= a < TWO64 ==> g.fetch(a) == FetchAndDecode(permission, decode, a)
    ensures forall a :: 0 <= a < TWO64 ==> g.executable(a) == IsExecutable(permission, a)
    ensures forall a, flow :: 0 <= a < TWO64 ==>
              (g.fetch(a) == Ok(Instruction(a, flow)) <==>
               a % 4 == 0 && a + 4 < TWO64 && permission(a) == Ok(true) && decode(a) == Ok(flow))
    ensures forall a, code :: 0 <= a < TWO64 ==>
              (g.fetch(a) == Err(code) <==>
               if a % 4 != 0 then code == MisalignedInstructionAddress
               else if a + 4 >= TWO64 then code == ArithmeticOverflow
               else if permission(a).Err? then code == permission(a).code
               else if !permission(a).value then code == NonExecutableAddress
               else decode(a).Err? && code == decode(a).code)
  {
    GuestView(map a | 0 <= a < TWO64 :: a := IsExecutable(permission, a),
              map a | 0 <= a < TWO64 :: a := FetchAndDecode(permission, decode, a))
  }

  datatype AnalysisOptions = AnalysisOptions(
    maxInstructions: nat,
    maxBasicBlocks: nat,
    maxPendingTargets: nat,
    allowedRange: Option<Range>,
    knownEntries: set<Address>)
  {
    predicate Internal(a: Address) {
      allowedRange.None? || allowedRange.value.Contains(a)
    }
  }

  /** One analysis: a guest, the options and the entry the graph is grown from. */
  datatype Problem = Problem(guest: GuestView, options: AnalysisOptions, entry: Address) {
    predicate Internal(a: Address) { options.Internal(a) }

    predicate CanFetch(a: Address) {
      a % 4 == 0 && guest.executable(a) == Ok(true)
    }

    /** An unconditional branch to another function's known entry leaves the function. */
    predicate IsTransfer(i: Instruction) {
      && i.flow.kind.DirectBranch?
      && i.flow.target.Some?
      && i.flow.target.value != entry
      && i.flow.target.value in options.knownEntries
    }

    function FallthroughEdges(a: Address, kind: EdgeKind): seq<Edge> {
      if a + 4 < TWO64 then [Edge(a, a + 4, kind, Internal(a + 4))] else []
    }

    function TakenEdges(i: Instruction): seq<Edge> {
      if i.flow.target.None? then []
      else
        var t := i.flow.target.value;
        var kind :=
          if i.flow.kind.ConditionalBranch? then ConditionalTaken
          else if IsTransfer(i) then FunctionTransfer
          else BranchEdge;
        [Edge(i.address, t, kind, !IsTransfer(i) && Internal(t))]
    }

    /** The outgoing edges of a block that ends in `i`. */
    function Edges(i: Instruction): seq<Edge> {
      match i.flow.kind
      case Fallthrough => FallthroughEdges(i.address, FallthroughEdge)
      case DirectCall => FallthroughEdges(i.address, FallthroughEdge)
      case IndirectCall => FallthroughEdges(i.address, FallthroughEdge)
      case DirectBranch => TakenEdges(i)
      case ConditionalBranch => TakenEdges(i) + FallthroughEdges(i.address, ConditionalNotTaken)
      case _ => []
    }

    /** Where control may continue inside the function after the instruction at `a`. */
    ghost function Successors(a: Address): set<Address> {
      var i := guest.fetch(a);
      if i.Err? then {} else set e | e in Edges(i.value) && e.internal :: e.target
    }

    /** The successors that must start a block: all but those of plain instructions. */
    ghost function LeaderTargets(a: Address): set<Address> {
      var i := guest.fetch(a);
      if i.Err? || i.value.flow.kind.Fallthrough? then {} else Successors(a)
    }

    ghost function TakenTarget(i: Instruction): set<Address> {
      if i.flow.target.Some? && !IsTransfer(i) && Internal(i.flow.target.value) then {i.flow.target.value} else {}
    }

    ghost function FallthroughTarget(a: Address): set<Address> {
      if a + 4 < TWO64 && Internal(a + 4) then {a + 4} else {}
    }

    /** The internal targets of `i`, kind by kind. */
    ghost function Ahead(i: Instruction): set<Address> {
      match i.flow.kind
      case Fallthrough => FallthroughTarget(i.address)
      case DirectCall => FallthroughTarget(i.address)
      case IndirectCall => FallthroughTarget(i.address)
      case DirectBranch => TakenTarget(i)
      case ConditionalBranch => TakenTarget(i) + FallthroughTarget(i.address)
      case _ => {}
    }

    lemma SuccessorsAhead(i: Instruction)
      requires guest.fetch(i.address) == Ok(i)
      ensures Successors(i.address) == Ahead(i)
      ensures LeaderTargets(i.address) == if i.flow.kind.Fallthrough? then {} else Ahead(i)
    {
      var edges := Edges(i);
      if edges != [] {
        assert edges[0] in edges;
        if |edges| == 2 {
          assert edges == [edges[0], edges[1]];
        } else {
          assert edges == [edges[0]];
        }
      }
    }

    function TargetError(i: Instruction): Option<ErrorCode> {
      if i.flow.target.Some? && CanFetch(i.flow.target.value) then None else Some(InvalidBranchTarget)
    }

    function FallthroughError(a: Address): Option<ErrorCode> {
      if a + 4 >= TWO64 then Some(ArithmeticOverflow)
      else if Internal(a + 4) && guest.executable(a + 4) != Ok(true) then Some(InstructionFetchFailed)
      else None
    }

    function ErrorAfter(i: Instruction): Option<ErrorCode> {
      match i.flow.kind
      case DirectBranch => TargetError(i)
      case ConditionalBranch => if TargetError(i).Some? then TargetError(i) else FallthroughError(i.address)
      case DirectCall => FallthroughError(i.address)
      case IndirectCall => FallthroughError(i.address)
      case _ => None
    }

    /** The error the analysis must report when it meets the instruction at `a`. */
    function StepError(a: Address): Option<ErrorCode> {
      var i := guest.fetch(a);
      if i.Err? then Some(i.code) else ErrorAfter(i.value)
    }

    ghost predicate ClosedUnderSuccessors(s: iset<Address>) {
      forall a :: a in s ==> forall b :: b in Successors(a) ==> b in s
    }

    /** Membership of the least set that holds the entry and is closed under internal successors. */
    ghost predicate Reaches(a: Address) {
      forall s: iset<Address> :: ClosedUnderSuccessors(s) && entry in s ==> a in s
    }

    /** The addresses at which blocks must start, whatever order the work is done in. */
    ghost predicate StartsBlock(l: Address) {
      l == entry || exists a :: Reaches(a) && l in LeaderTargets(a)
    }

    ghost function Reach(): iset<Address> { iset a: Address | Reaches(a) }
    ghost function Starts(): iset<Address> { iset a: Address | StartsBlock(a) }

    function CallsOf(i: Instruction): seq<CallSite> {
      if i.flow.kind.IsCall()
      then [CallSite(i.address, i.flow.kind.DirectCall?, i.flow.target, i.flow.register)]
      else []
    }

    function UnresolvedOf(i: Instruction): seq<Unresolved> {
      if i.flow.kind.IsUnresolved() then [Unresolved(i.address, i.flow.kind, i.flow.register)] else []
    }

    /** A straight run of the guest's own instructions: only the last may divert control. */
    ghost predicate IsRun(s: Address, run: seq<Instruction>) {
      && s % 4 == 0 && s + 4 * |run| < TWO64
      && (forall i :: 0 <= i < |run| ==>
            run[i].address == s + 4 * i && guest.fetch(run[i].address) == Ok(run[i]))
      && (forall i :: 0 <= i < |run| - 1 ==> run[i].flow.kind.Fallthrough? && Internal(run[i].address + 4))
    }

    /** A run kept as a block, with the edges and the calls of its last instruction. */
    ghost predicate BlockAt(s: Address, b: BasicBlock) {
      && b.start == s
      && b.instructions != []
      && IsRun(s, b.instructions)
      && b.successors == Edges(b.Last())
      && b.calls == CallsOf(b.Last())
    }

    /** A block stops exactly where it must: before the next block start, or where the run ends. */
    ghost predicate IsMaximal(b: BasicBlock)
      requires b.instructions != [] && b.End() < TWO64
    {
      && (forall l: Address :: b.start < l < b.End() && l % 4 == 0 ==> !StartsBlock(l))
      && (b.Last().flow.kind.Fallthrough? && Internal(b.End()) ==> StartsBlock(b.End()))
    }

    /** The call sites listed are those of the instructions in `s`, each once. */
    ghost predicate ListsCalls(s: set<Address>, calls: seq<CallSite>) {
      && (forall i, j :: 0 <= i < j < |calls| ==> calls[i].address != calls[j].address)
      && (forall c :: c in calls ==>
            c.address in s
            && guest.fetch(c.address).Ok?
            && CallsOf(guest.fetch(c.address).value) == [c])
      && (forall a :: a in s && guest.fetch(a).Ok? ==>
            forall c :: c in CallsOf(guest.fetch(a).value) ==> c in calls)
    }

    ghost predicate ListsUnresolved(s: set<Address>, unresolved: seq<Unresolved>) {
      && (forall i, j :: 0 <= i < j < |unresolved| ==> unresolved[i].address != unresolved[j].address)
      && (forall c :: c in unresolved ==>
            c.address in s
            && guest.fetch(c.address).Ok?
            && UnresolvedOf(guest.fetch(c.address).value) == [c])
      && (forall a :: a in s && guest.fetch(a).Ok? ==>
            forall c :: c in UnresolvedOf(guest.fetch(a).value) ==> c in unresolved)
    }

    /** The graph a successful analysis returns, described without any order of work. */
    ghost predicate IsAnalysis(g: Graph) {
      && g.entry == entry
      && (forall a :: a in Addresses(g) <==> Reaches(a))
      && (forall a :: Reaches(a) ==> StepError(a).None?)
      && (forall s :: s in g.blocks <==> StartsBlock(s))
      && (forall s :: s in g.blocks ==> BlockAt(s, g.blocks[s]) && IsMaximal(g.blocks[s]))
      && TransferTargets(g) !! g.blocks.Keys
      && g.instructionCount == |Addresses(g)|
      && ListsCalls(Addresses(g), g.calls)
      && ListsUnresolved(Addresses(g), g.unresolved)
    }

    ghost predicate WithinLimits(g: Graph) {
      && g.instructionCount <= options.maxInstructions
      && |g.blocks| <= options.maxBasicBlocks + 1
    }

    /** The checks made before any instruction is decoded, in their order. */
    function EntryError(): Option<ErrorCode> {
      if options.maxInstructions == 0 || options.maxBasicBlocks == 0 || options.maxPendingTargets == 0 then
        Some(InvalidArgument)
      else if options.allowedRange.Some? && options.allowedRange.value.End() >= TWO64 then Some(ArithmeticOverflow)
      else if options.allowedRange.Some? && options.allowedRange.value.size == 0 then Some(InvalidArgument)
      else if entry % 4 != 0 then Some(MisalignedInstructionAddress)
      else if !Internal(entry) then Some(AnalysisScopeViolation)
      else if guest.executable(entry).Err? then Some(guest.executable(entry).code)
      else if !guest.executable(entry).value then Some(NonExecutableAddress)
      else None
    }

    /** Plain instructions lead straight from the entry to `a`. */
    ghost predicate InFirstRun(a: Address) {
      && entry <= a && (a - entry) % 4 == 0
      && forall b {:trigger guest.fetch(b)} :: entry <= b < a && (b - entry) % 4 == 0 ==>
           guest.fetch(b).Ok? && guest.fetch(b).value.flow.kind.Fallthrough? && Internal(b + 4)
    }

    ghost predicate SomeStartIsBeyond(starts: iset<Address>) { exists l :: l in starts && !InFirstRun(l) }

    /** What has to be true of the problem for the analysis to fail with code `c`. */
    ghost predicate FailureCause(c: ErrorCode) {
      Cause(Reach(), Starts(), c)
    }

    ghost predicate Cause(reach: iset<Address>, starts: iset<Address>, c: ErrorCode) {
      || EntryError() == Some(c)
      || (exists a :: a in reach && StepError(a) == Some(c))
      || (c == AnalysisInstructionLimitExceeded && MoreThan(options.maxInstructions, reach))
      || (c == AnalysisBlockLimitExceeded && MoreThan(options.maxBasicBlocks, starts) && SomeStartIsBeyond(starts))
      || (c == AnalysisWorklistLimitExceeded && MoreThan(options.maxPendingTargets, starts))
      || (c == InvalidFormat && exists a :: a in reach && TransfersTo(a, starts))
    }

    /** What an analysis may return: the graph of the problem, within the limits, or an error that has a cause. */
    ghost predicate Returns(r: Result<Graph>) {
      match r
      case Ok(g) => IsAnalysis(g) && WithinLimits(g) && EntryError().None?
      case Err(code) => FailureCause(code)
    }

    /** The instruction at `a` is a function transfer into a block of the same function. */
    ghost predicate TransfersTo(a: Address, starts: iset<Address>) {
      var i := guest.fetch(a);
      i.Ok? && IsTransfer(i.value) && i.value.flow.target.value in starts
    }
  }

  ghost predicate LargePart(n: nat, s: iset<Address>, t: set<Address>) {
    |t| > n && forall a :: a in t ==> a in s
  }

  ghost predicate MoreThan(n: nat, s: iset<Address>) {
    exists t: set<Address> :: LargePart(n, s, t)
  }
}
