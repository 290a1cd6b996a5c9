/** Guests of a few words for concrete builds: the first word goes on to the next one, and perhaps calls itself, and
    every other word returns. */
module ShortCode {
  import opened Common
  import opened ControlFlow
  import opened CfgTheorems
  import opened CodeRanges
  import opened FunctionRecords
  import opened FunctionDiscovery
  import opened BuildInvariant
  import opened Finalization
  import AmpleBudgets

  const ENTRY := 0x1000
  const NEXT := 0x1004

  datatype First = GoesOn | CallsItself

  function FlowOf(first: First): Flow {
    match first
    case GoesOn => Flow(Fallthrough, None, None)
    case CallsItself => Flow(DirectCall, Some(ENTRY), None)
  }

  function Word(first: First, a: Address): Instruction {
    Instruction(a, if a == ENTRY then FlowOf(first) else Flow(Return, None, None))
  }

  /** Every address is executable. */
  function Permission(a: Address): Result<bool> { Ok(true) }

  /** `words` words from the entry on. */
  function GuestOf(first: First, words: nat): GuestView {
    GuestView(map a | ENTRY <= a <= ENTRY + 4 * (words - 1) :: Permission(a),
              map a | ENTRY <= a < ENTRY + 4 * words && a % 4 == 0 :: Ok(Word(first, a)))
  }

  lemma GuestFetchesCode(first: First, words: nat)
    requires words <= 8
    ensures GuestOf(first, words).FetchesCode()
  {
  }

  /** The analysis may follow the first word to the next one. */
  ghost predicate IsShort(p: Problem, first: First, words: nat) {
    && 2 <= words <= 8 && p.guest == GuestOf(first, words) && p.Internal(ENTRY) && p.Internal(NEXT)
    && p.entry in {ENTRY, NEXT}
  }

  lemma FetchIs(p: Problem, first: First, words: nat, a: Address)
    requires IsShort(p, first, words) && a in {ENTRY, NEXT}
    ensures p.guest.fetch(a) == Ok(Word(first, a)) && p.guest.executable(a) == Ok(true)
  {
  }

  lemma AheadIs(p: Problem, first: First, a: Address)
    requires p.Internal(NEXT) && a in {ENTRY, NEXT}
    ensures p.Ahead(Word(first, a)) == if a == ENTRY then {NEXT} else {}
  {
  }

  lemma StepsAre(p: Problem, first: First, words: nat, a: Address)
    requires IsShort(p, first, words) && a in {ENTRY, NEXT}
    ensures p.Successors(a) == if a == ENTRY then {NEXT} else {}
    ensures p.StepError(a).None?
    ensures p.guest.fetch(a) == Ok(Word(first, a)) && !p.IsTransfer(Word(first, a))
  {
    FetchIs(p, first, words, a);
    FetchIs(p, first, words, NEXT);
    AheadIs(p, first, a);
    p.SuccessorsAhead(Word(first, a));
    hide GuestOf, Problem.Successors, Problem.Ahead, Problem.LeaderTargets;
  }

  /** The words that the function at `e` has. */
  function WordsFrom(e: Address): set<Address> { if e == ENTRY then {ENTRY, NEXT} else {NEXT} }

  lemma ReachIs(p: Problem, first: First, words: nat)
    requires IsShort(p, first, words)
    ensures forall a :: p.Reaches(a) <==> a in WordsFrom(p.entry)
    ensures forall l :: p.StartsBlock(l) ==> l in WordsFrom(p.entry)
  {
    StepsAre(p, first, words, ENTRY);
    StepsAre(p, first, words, NEXT);
    hide GuestOf, Problem.Successors, Problem.StepError, Problem.IsTransfer;
    var s := iset a: Address | a in WordsFrom(p.entry);
    assert p.ClosedUnderSuccessors(s) && p.entry in s;
    assert p.Reaches(p.entry);
    if p.entry == ENTRY {
      assert NEXT in p.Successors(ENTRY);
      assert p.Reaches(NEXT);
    }
    forall l | p.StartsBlock(l)
      ensures p.Reaches(l)
    {
      StartIsReached(p, l);
    }
  }

  lemma StartIsReached(p: Problem, l: Address)
    requires p.StartsBlock(l)
    ensures p.Reaches(l)
  {
    if l != p.entry {
      var a :| p.Reaches(a) && l in p.LeaderTargets(a);
      assert l in p.Successors(a);
    }
  }

  /** The limits are no smaller than the code. */
  ghost predicate HasRoom(options: AnalysisOptions) {
    options.maxInstructions >= 2 && options.maxBasicBlocks >= 2 && options.maxPendingTargets >= 2
  }

  lemma EntryIsFine(p: Problem, first: First, words: nat)
    requires IsShort(p, first, words) && HasRoom(p.options)
    requires p.options.allowedRange.Some? ==> p.options.allowedRange.value.End() < TWO64
    ensures p.EntryError().None?
  {
    FetchIs(p, first, words, p.entry);
    hide GuestOf;
  }

  /** The analysis cannot fail. */
  lemma NothingFails(p: Problem, first: First, words: nat, code: ErrorCode)
    requires IsShort(p, first, words) && HasRoom(p.options)
    requires p.options.allowedRange.Some? ==> p.options.allowedRange.value.End() < TWO64
    ensures !p.FailureCause(code)
  {
    ReachIs(p, first, words);
    EntryIsFine(p, first, words);
    forall a | p.Reaches(a)
      ensures p.StepError(a).None? && !p.TransfersTo(a, p.Starts())
    {
      StepsAre(p, first, words, a);
    }
    var reach := WordsFrom(p.entry);
    assert |reach| <= 2;
    hide GuestOf, IsShort, Problem.Reaches, Problem.StartsBlock, Problem.StepError, Problem.TransfersTo, Problem.EntryError,
         Problem.FailureCause, WordsFrom;
    SoundProblemsSucceed(p, reach, reach, code);
  }

  lemma WordsAre(p: Problem, first: First, words: nat, g: Graph)
    requires IsShort(p, first, words) && p.IsAnalysis(g)
    ensures Addresses(g) == WordsFrom(p.entry)
  {
    ReachIs(p, first, words);
    GraphSets(p, g);
    hide IsShort, GuestOf, Addresses, Problem.IsAnalysis, Problem.Reaches, Problem.StartsBlock, WordsFrom;
  }

  /** A graph holds exactly the words of its function. */
  lemma GraphHolds(p: Problem, first: First, words: nat, g: Graph)
    requires IsShort(p, first, words) && p.IsAnalysis(g)
    ensures Addresses(g) == WordsFrom(p.entry)
    ensures g.instructionCount <= 2 && |g.blocks| <= 2 && EdgeCount(g) <= 4
  {
    hide IsShort, GuestOf, Addresses, Problem.IsAnalysis, EdgeCount;
    WordsAre(p, first, words, g);
    NothingIsUnresolved(p, first, words, g);
    AmpleBudgets.GraphIsBounded(p, g);
    assert |WordsFrom(p.entry)| <= 2;
  }

  lemma NothingIsUnresolved(p: Problem, first: First, words: nat, g: Graph)
    requires IsShort(p, first, words) && p.IsAnalysis(g) && Addresses(g) == WordsFrom(p.entry)
    ensures g.unresolved == []
  {
    hide IsShort, GuestOf, Addresses, Problem.IsAnalysis;
    if g.unresolved != [] {
      var u := g.unresolved[0];
      UnresolvedIsListed(p, g, u);
      FetchIs(p, first, words, u.address);
    }
  }

  lemma UnresolvedIsListed(p: Problem, g: Graph, u: Unresolved)
    requires p.IsAnalysis(g) && u in g.unresolved
    ensures u.address in Addresses(g)
    ensures p.guest.fetch(u.address).Ok? && p.UnresolvedOf(p.guest.fetch(u.address).value) == [u]
  {
    hide Problem.BlockAt, Problem.IsMaximal, Problem.ListsCalls, Problem.Reaches, Problem.StartsBlock;
  }

  lemma CallsAre(first: First, words: nat, a: Address, t: Address)
    requires 2 <= words <= 8
    ensures CallsFrom(GuestOf(first, words), a, t) <==> first.CallsItself? && a == ENTRY && t == ENTRY
  {
  }

  lemma ReachedCalls(p: Problem, first: First, words: nat, t: Address)
    requires IsShort(p, first, words)
    ensures (exists a :: p.Reaches(a) && CallsFrom(p.guest, a, t)) <==>
            first.CallsItself? && p.entry == ENTRY && t == ENTRY
  {
    ReachIs(p, first, words);
    assert p.guest == GuestOf(first, words) && 2 <= words <= 8;
    assert ENTRY in WordsFrom(p.entry) <==> p.entry == ENTRY;
    hide IsShort, GuestOf, Problem.Reaches, Problem.StartsBlock, CallsFrom, WordsFrom;
    CallsAre(first, words, ENTRY, t);
    if a :| p.Reaches(a) && CallsFrom(p.guest, a, t) {
      CallsAre(first, words, a, t);
    }
  }

  /** The function at the entry calls itself, or nothing is called. */
  lemma CalledAre(p: Problem, first: First, words: nat, g: Graph, t: Address)
    requires IsShort(p, first, words) && p.IsAnalysis(g)
    ensures t in TargetsOf(g) <==> first.CallsItself? && p.entry == ENTRY && t == ENTRY
  {
    hide IsShort, GuestOf, Problem.IsAnalysis, Problem.Reaches, CallsDirectly, CallsFrom, TargetsOf;
    TargetIsCalled(g, t);
    CallsAreReached(p, g, t);
    ReachedCalls(p, first, words, t);
  }
}
