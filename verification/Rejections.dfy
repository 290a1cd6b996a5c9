/** Three inputs that are built without a fault and then rejected by the final validation, one for each of its
    causes: a misaligned entry among the preset ones that lies in a function, two seeds that give functions the same
    entry, and a function that lies across two executable ranges, with failures allowed. */
module Rejections {
  import opened Common
  import opened ControlFlow
  import opened CodeRanges
  import opened CfgTheorems
  import opened FunctionRecords
  import opened FunctionMaps
  import opened FunctionDiscovery
  import opened BuildSteps
  import opened BuildInvariant
  import opened BuildAccounts
  import opened BuildRuns
  import opened Finalization
  import opened PassBudgets
  import opened AmpleBudgets
  import opened FunctionPublication
  import opened ShortCode
  import opened FunctionMapBuilder

  // The inputs.

  datatype Case = Misaligned | Shared | Unowned

  const WHOLE := Range(ENTRY, 32)
  const FRONT := Range(ENTRY, 4)
  const BACK := Range(NEXT, 28)

  /** An address within the first word. */
  const INSIDE := 0x1002

  const OWN_SEED := FunctionSeed(ENTRY, ModuleEntry, Confirmed, None)

  function SeedsOf(c: Case): seq<FunctionSeed> {
    if c.Shared? then [FunctionSeed(NEXT, ModuleEntry, Confirmed, Some(ENTRY)), FunctionSeed(NEXT, ModuleEntry, Confirmed, None)]
    else [OWN_SEED]
  }

  function RangesFor(c: Case): seq<Range> { if c.Unowned? then [FRONT, BACK] else [WHOLE] }

  function InputOf(c: Case): ModuleInput {
    ModuleInput("rejected", GuestOf(GoesOn, 8), RangesFor(c), map[WHOLE := Ok(true), FRONT := Ok(true), BACK := Ok(true)],
                SeedsOf(c))
  }

  const BUDGETS := Budgets(8, 32, 32, 64, 8, 128, 3)

  function OptionsOf(c: Case): BuildOptions {
    BuildOptions(BUDGETS, AnalysisOptions(32, 32, 8, None, if c.Misaligned? then {INSIDE} else {}), None, true, 1, {})
  }

  lemma InputIsAccepted(c: Case)
    ensures InputIsValid(InputOf(c), BUDGETS) && PermissionsAgree(InputOf(c)) && InputOf(c).guest.FetchesCode()
  {
    GuestFetchesCode(GoesOn, 8);
    assert RangeIsExecutable(InputOf(c), if c.Unowned? then FRONT else WHOLE);
    assert c.Unowned? ==> RangeIsExecutable(InputOf(c), BACK) && Precedes(FRONT, BACK);
  }

  lemma BytesAre(c: Case)
    ensures SumSizes(RangesFor(c)) == 32
  {
    assert [WHOLE][..0] == [] && [FRONT][..0] == [] && [FRONT, BACK][..1] == [FRONT];
    assert SumSizes([FRONT]) == 4;
  }

  ghost function SettingFor(c: Case): Setting { SettingOf(InputOf(c), OptionsOf(c)) }

  /** What the setting of the input is. */
  ghost predicate IsCase(s: Setting, c: Case) {
    && s.input == InputOf(c) && s.options == OptionsOf(c) && s.budgets == BUDGETS
    && s.limits.allowedRange == (if c.Unowned? then None else Some(WHOLE))
    && s.limits.maxInstructions == 32 && s.limits.maxBasicBlocks == 32 && s.limits.maxPendingTargets == 8
  }

  lemma SettingIs(c: Case)
    ensures IsCase(SettingFor(c), c) && IsFit(SettingFor(c))
  {
    InputIsAccepted(c);
    BytesAre(c);
    assert Clamped(BUDGETS, 32) == BUDGETS;
    hide Clamped, InputIsValid, GuestOf, GuestView.FetchesCode;
  }

  lemma EntriesAreFine(c: Case)
    ensures InputOf(c).IsEntry(ENTRY) && InputOf(c).IsEntry(NEXT)
  {
    var rs := InputOf(c).executable;
    assert rs[0].Holds(ENTRY, 4);
    assert (if c.Unowned? then rs[1] else rs[0]).Holds(NEXT, 4);
  }

  // Their analyses.

  lemma CaseIsShort(s: Setting, c: Case, e: Address, known: set<Address>)
    requires IsCase(s, c) && e in {ENTRY, NEXT}
    ensures
      var p := s.ProblemAt(e, known);
      && IsShort(p, GoesOn, 8) && HasRoom(p.options) && p.entry == e
      && (p.options.allowedRange.Some? ==> p.options.allowedRange.value.End() < TWO64)
  {
    hide GuestOf;
  }

  lemma GraphIs(s: Setting, c: Case, e: Address, g: Graph, known: set<Address>)
    requires IsCase(s, c) && e in {ENTRY, NEXT} && GraphIsFrom(s, e, g, known)
    ensures Addresses(g) == WordsFrom(e)
  {
    CaseIsShort(s, c, e, known);
    FromAnalysis(s, e, g, known);
    hide IsCase, IsShort, GraphIsFrom, Problem.IsAnalysis, Addresses, WordsFrom;
    GraphHolds(s.ProblemAt(e, known), GoesOn, 8, g);
  }

  lemma NeverFails(s: Setting, c: Case, e: Address, known: set<Address>)
    requires IsCase(s, c) && e in {ENTRY, NEXT}
    ensures !FailsFor(s, e, known)
  {
    CaseIsShort(s, c, e, known);
    hide IsCase, IsShort, Problem.FailureCause;
    forall code
      ensures !s.ProblemAt(e, known).FailureCause(code)
    {
      NothingFails(s.ProblemAt(e, known), GoesOn, 8, code);
    }
  }

  lemma NothingIsCalled(s: Setting, c: Case)
    requires IsCase(s, c)
    ensures CallsNothing(s.input.guest)
  {
    assert s.input.guest == GuestOf(GoesOn, 8);
    hide GuestOf, CallsFrom;
    forall a, t
      ensures !CallsFrom(s.input.guest, a, t)
    {
      CallsAre(GoesOn, 8, a, t);
    }
  }

  lemma GraphCallsNothing(s: Setting, e: Address, g: Graph, at: set<Address>)
    requires CallsNothing(s.input.guest) && GraphIsFrom(s, e, g, at)
    ensures forall t :: !CallsDirectly(g, t)
  {
    FromAnalysis(s, e, g, at);
    hide GraphIsFrom, CallsFrom, CallsDirectly, Problem.IsAnalysis;
    assert s.ProblemAt(e, at).guest == s.input.guest;
    forall t
      ensures !CallsDirectly(g, t)
    {
      CallsAreReached(s.ProblemAt(e, at), g, t);
    }
  }

  /** Only the seeds are functions. */
  lemma CallableAre(s: Setting, c: Case, e: Address)
    requires IsCase(s, c) && IsCallable(s, e)
    ensures e in {ENTRY, NEXT}
  {
    NothingIsCalled(s, c);
    var own := iset{ENTRY, NEXT};
    assert SeedsAreIn(s, own);
    hide IsCase, GraphIsFrom, CallsNothing, CallsDirectly, SeedsAreIn, FirstEntries, ModuleInput.InRange;
    forall x: Address, g, at: set<Address> | x in own && GraphIsFrom(s, x, g, at)
      ensures CallsStayIn(s, g, own)
    {
      GraphCallsNothing(s, x, g, at);
    }
    assert IsCallClosed(s, own);
  }

  // The build ends.

  lemma EntryIsSmall(s: Setting, c: Case, e: Address)
    requires IsCase(s, c) && e in {ENTRY, NEXT}
    ensures IsSmall(s, e, 2, 0)
  {
    var p := s.ProblemAt(e, FirstEntries(s));
    CaseIsShort(s, c, e, FirstEntries(s));
    NothingIsCalled(s, c);
    ReachIs(p, GoesOn, 8);
    assert |WordsFrom(e)| <= 2;
    hide IsCase, IsShort, Problem.Reaches, Problem.StartsBlock, WordsFrom, MoreThan, CallsFrom, ModuleInput.InRange, FirstEntries;
    NotMoreThan(2, p.Reach(), WordsFrom(e));
    NotMoreThan(0, CallReach(s, e), {});
  }

  lemma CaseIsCovered(s: Setting, c: Case)
    requires IsCase(s, c)
    ensures BudgetsCover(s, 2, 2, 0) && ReportsNoBudget(s.input.guest)
  {
    assert Times(2, 0) == 0 && Times(2, 2) == 4;
    assert s.input.guest == GuestOf(GoesOn, 8);
  }

  lemma BudgetsAreAmple(s: Setting, c: Case)
    requires IsCase(s, c)
    ensures IsAmple(s)
  {
    CaseIsCovered(s, c);
    hide IsCase, IsCallable, IsSmall, BudgetsCover, ReportsNoBudget;
    var functions: set<Address> := {ENTRY, NEXT};
    assert |functions| == 2;
    forall e | IsCallable(s, e)
      ensures e in functions && IsSmall(s, e, 2, 0)
    {
      CallableAre(s, c, e);
      EntryIsSmall(s, c, e);
    }
    assert IsAmpleFor(s, functions, 2, 0);
  }

  lemma SeedsAreFine(s: Setting, c: Case)
    requires IsCase(s, c)
    ensures !HasBadSeed(s) && !NothingIncluded(s)
  {
    EntriesAreFine(c);
    hide ModuleInput.IsEntry;
    assert s.options.Includes(s.input.seeds[0]);
  }

  lemma NothingFaults(s: Setting, c: Case)
    requires IsCase(s, c)
    ensures forall code :: !MayFault(s, code)
  {
    EntriesAreFine(c);
    assert s.input == InputOf(c) && s.options.continueAfterFailure;
    hide IsCase, IsCallable, LosesAFunction, ModuleInput.IsEntry, InputOf;
    forall e | IsCallable(s, e)
      ensures s.input.IsEntry(e)
    {
      CallableAre(s, c, e);
    }
  }

  /** Seeding, discovery and finalization succeed. */
  lemma CaseSettles(s: Setting, c: Case, o: Outcome<Book>)
    requires IsFit(s) && IsCase(s, c) && Settles(s, o)
    ensures o.Done?
  {
    hide IsFit, IsCase, Settles, IsAmple, CallsNothing, HasBadSeed, NothingIncluded, MayFault, Sound;
    BudgetsAreAmple(s, c);
    NothingIsCalled(s, c);
    AmpleIsEnough(s, o);
    SettlingIsSound(s, o);
    SeedsAreFine(s, c);
    NothingFaults(s, c);
  }

  // Its records cannot be published.

  lemma SettledWell(s: Setting, c: Case, b: Book)
    requires IsFit(s) && IsCase(s, c) && Settles(s, Done(b))
    ensures Sound(s, b, None) && SeedsAreRecorded(s, b.records, |s.input.seeds|) && NoneWaiting(b.records)
  {
    hide IsFit, IsCase, Settles, CallsNothing, Sound, IsDiscovered, PassFits, WorkAfter, CalledBy, SeedsAreRecorded,
         AllSettled, Calm, AllRest;
    NothingIsCalled(s, c);
    SettlingIsSound(s, Done(b));
    SettlingFitsExactly(s, Done(b));
  }

  /** The function at the entry has a graph of both words. */
  lemma EntryHasGraph(s: Setting, c: Case, b: Book)
    requires IsCase(s, c) && Sound(s, b, None) && NoneWaiting(b.records) && ENTRY in b.records
    ensures b.records[ENTRY].cfg.Some? && Addresses(b.records[ENTRY].cfg.value) == {ENTRY, NEXT}
  {
    ProperAt(s, b.records, ENTRY);
    hide IsCase, Sound, Ownable, GraphIsFrom, FailsFor, IsBasis, Addresses;
    RecallIs(s, b, ENTRY);
    NeverFails(s, c, ENTRY, b.basis[ENTRY].entries);
    GraphIs(s, c, ENTRY, b.records[ENTRY].cfg.value, b.basis[ENTRY].entries);
  }

  /** One range holds what the function owns between the two addresses. */
  lemma BothWordsInOne(g: Graph, lo: int, hi: int) returns (k: nat)
    requires Addresses(g) == {ENTRY, NEXT} && Describes(g, RangesOf(g)) && ENTRY <= lo < hi <= NEXT + 4
    ensures k < |RangesOf(g)| && RangesOf(g)[k].base <= lo && hi <= RangesOf(g)[k].End() && IsCodeRange(RangesOf(g)[k])
  {
    hide RangesOf, Addresses;
    forall x | lo <= x < hi
      ensures Owns(RangesOf(g), x)
    {
      var a := if x < NEXT then ENTRY else NEXT;
      assert a in Addresses(g) && InGraph(g, x);
    }
    k := IntervalIsCovered(RangesOf(g), lo, hi);
  }

  lemma InsideIsOwned(g: Graph)
    requires Addresses(g) == {ENTRY, NEXT} && Describes(g, RangesOf(g))
    ensures ContainsAny(RangesOf(g), INSIDE, 4)
  {
    hide RangesOf, Addresses, Describes;
    var k := BothWordsInOne(g, INSIDE, INSIDE + 4);
    assert RangesOf(g)[k].Holds(INSIDE, 4);
  }

  lemma AnalyzedOwns(s: Setting, b: Book, e: Address)
    requires Sound(s, b, None) && e in b.records && b.records[e].status.Analyzed?
    ensures b.records[e].cfg.Some? && b.records[e].ranges == RangesOf(b.records[e].cfg.value)
    ensures Describes(b.records[e].cfg.value, RangesOf(b.records[e].cfg.value))
  {
    ProperAt(s, b.records, e);
    hide Sound, EntriesAreGiven, Fits, HasCode, TargetsOf, RangesOf;
  }

  lemma MisalignedIsRejected(s: Setting, b: Book)
    requires IsCase(s, Misaligned) && Sound(s, b, None) && NoneWaiting(b.records) && ENTRY in b.records
    ensures !IsPresentable(s, b.records[ENTRY])
  {
    hide IsCase, Sound, NoneWaiting, FirstEntries, ContainsAny, Describes, RangesOf, Addresses;
    EntryHasGraph(s, Misaligned, b);
    InsideIsFirst(s);
    var f := b.records[ENTRY];
    if f.status.Analyzed? {
      AnalyzedOwns(s, b, ENTRY);
      InsideIsOwned(f.cfg.value);
    } else {
      UnanalyzedIsFailed(s, b, ENTRY);
    }
  }

  lemma UnanalyzedIsFailed(s: Setting, b: Book, e: Address)
    requires Sound(s, b, None) && NoneWaiting(b.records) && e in b.records && !b.records[e].status.Analyzed?
    ensures b.records[e].status.Failed?
  {
    ProperAt(s, b.records, e);
    hide Sound, EntriesAreGiven, Normalized;
  }

  lemma InsideIsFirst(s: Setting)
    requires IsCase(s, Misaligned)
    ensures INSIDE in FirstEntries(s)
  {
    assert INSIDE in InitialEntries(s.options);
    assert INSIDE in SeededEntries(s, 0);
  }

  lemma UnownedIsRejected(s: Setting, b: Book)
    requires IsCase(s, Unowned) && Sound(s, b, None) && NoneWaiting(b.records) && ENTRY in b.records
    ensures !IsPresentable(s, b.records[ENTRY])
  {
    EntryHasGraph(s, Unowned, b);
    ProperAt(s, b.records, ENTRY);
    assert s.input.executable == [FRONT, BACK];
    hide IsCase, Sound, NoneWaiting, FirstEntries, EntriesAreGiven, HasCode, TargetsOf;
    var f := b.records[ENTRY];
    if f.status.Analyzed? {
      AcrossIsNotOwned(f.cfg.value);
    }
  }

  lemma AcrossIsNotOwned(g: Graph)
    requires Addresses(g) == {ENTRY, NEXT}
    ensures !Ownable(g, [FRONT, BACK])
  {
    hide RangesOf, Addresses, HasCode;
    if Describes(g, RangesOf(g)) {
      var k := BothWordsInOne(g, ENTRY, NEXT + 4);
      assert !FRONT.Holds(RangesOf(g)[k].base, RangesOf(g)[k].size) && !BACK.Holds(RangesOf(g)[k].base, RangesOf(g)[k].size);
      assert !ContainsAny([FRONT, BACK], RangesOf(g)[k].base, RangesOf(g)[k].size);
    }
  }

  lemma SharedIsRejected(s: Setting, b: Book)
    requires IsCase(s, Shared) && SeedsAreRecorded(s, b.records, |s.input.seeds|)
    ensures !NoneShare(b.records)
  {
    assert IsEntered(s.input.seeds[0], b.records) && IsEntered(s.input.seeds[1], b.records);
    assert ShareAnEntry(b.records[ENTRY], b.records[NEXT]);
  }

  lemma EntryIsRecorded(s: Setting, c: Case, b: Book)
    requires IsCase(s, c) && SeedsAreRecorded(s, b.records, |s.input.seeds|)
    ensures ENTRY in b.records
  {
    assert IsEntered(s.input.seeds[0], b.records);
  }

  /** Every run on one of the inputs ends well, in a state that the final validation rejects for the input's cause. */
  lemma CaseIsRejected(c: Case, o: Outcome<Book>)
    requires Settles(SettingFor(c), o)
    ensures o.Done? && !Publishable(SettingFor(c), o.value.records)
    ensures c.Shared? ==> !NoneShare(o.value.records)
    ensures !c.Shared? ==> ENTRY in o.value.records && !IsPresentable(SettingFor(c), o.value.records[ENTRY])
  {
    var s := SettingFor(c);
    SettingIs(c);
    hide SettingFor, IsFit, IsCase, Settles, Sound, NoneShare, IsPresentable, NoneWaiting, SeedsAreRecorded;
    CaseSettles(s, c, o);
    SettledWell(s, c, o.value);
    EntryIsRecorded(s, c, o.value);
    match c
    case Misaligned => MisalignedIsRejected(s, o.value);
    case Shared => SharedIsRejected(s, o.value);
    case Unowned => UnownedIsRejected(s, o.value);
  }

  /** The builder fails, and fails in the final validation. */
  method BuildRejected(c: Case) returns (r: Outcome<FunctionMap>, builder: FunctionMapBuilder)
    ensures PermissionsAgree(InputOf(c)) && builder.input == InputOf(c) && builder.Fixed() == SettingFor(c)
    ensures r.Fault? && Settles(SettingFor(c), Done(builder.Now())) && !Publishable(SettingFor(c), builder.records)
  {
    hide InputIsValid, GuestView.FetchesCode, PermissionsAgree, IsFit, IsCase, Settles, SettingOf, HasBadSeed, MayFault, InputOf,
         NothingIncluded, Publishable, IsPublished, SettlesWithin, SettlingRunsOut, StartsConfined, CallsNothing, IsAmple,
         IsFaultless, OthersFailed, NoneShare, SeedsAreCanonical, IsPresentable;
    InputIsAccepted(c);
    builder := new FunctionMapBuilder(InputOf(c), OptionsOf(c));
    r := builder.Build();
    CannotSucceed(c, r, builder.Now());
  }

  lemma CannotSucceed(c: Case, r: Outcome<FunctionMap>, b: Book)
    requires r.Done? ==> Settles(SettingFor(c), Done(b)) && Publishable(SettingFor(c), b.records)
    requires r.OverBudget? ==> Settles(SettingFor(c), OverBudget(r.dimension))
    requires r.Fault? ==>
               Settles(SettingFor(c), Fault(r.code)) || (Settles(SettingFor(c), Done(b)) && !Publishable(SettingFor(c), b.records))
    ensures r.Fault? && Settles(SettingFor(c), Done(b)) && !Publishable(SettingFor(c), b.records)
  {
    hide SettingFor, Settles, Publishable, NoneShare, IsPresentable;
    match r
    case Done(_) => CaseIsRejected(c, Done(b));
    case OverBudget(d) => CaseIsRejected(c, OverBudget(d));
    case Fault(code) =>
      if Settles(SettingFor(c), Fault(code)) {
        CaseIsRejected(c, Fault(code));
      }
  }
}
