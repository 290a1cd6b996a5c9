/** What every step of a build keeps. */
module BuildInvariant {
  import opened Common
  import opened ControlFlow
  import opened CodeRanges
  import opened FunctionRecords
  import opened FunctionDiscovery
  import opened BuildSteps

  // The records.

  /** An included seed gives the function at `e` the entry `x`. */
  ghost predicate IsSeedEntry(s: Setting, e: Address, x: Address) {
    exists k :: 0 <= k < |s.input.seeds| && IsSeedOf(s, s.input.seeds[k], e, x)
  }

  ghost predicate IsSeedOf(s: Setting, seed: FunctionSeed, e: Address, x: Address) {
    s.options.Includes(seed) && seed.Canonical() == e && seed.entry == x
  }

  /** The seed adds no entry to its function but its own, or is an included one. */
  ghost predicate IsGiven(s: Setting, seed: FunctionSeed) {
    seed.entry == seed.Canonical() || IsSeedEntry(s, seed.Canonical(), seed.entry)
  }

  /** Besides its own entry a function has only those that included seeds give it. */
  ghost predicate EntriesAreGiven(s: Setting, e: Address, f: FunctionRecord) {
    e in f.entries && forall x :: x in f.entries ==> s.input.IsEntry(x) && (x == e || IsSeedEntry(s, e, x))
  }

  ghost predicate OwnsNothing(f: FunctionRecord) {
    f.ranges == [] && f.rangeBegin == 0 && f.rangeEnd == 0 && f.directCalls == []
  }

  /** A function without a graph owns nothing. An analyzed one owns exactly what its graph holds; a failed one has a graph only if the graph
      cannot be owned. */
  ghost predicate RecordIsProper(s: Setting, e: Address, f: FunctionRecord) {
    && f.entry == e && EntriesAreGiven(s, e, f)
    && Normalized(f.ranges) && !f.trust.ConflictTrust? && (f.cfg == None ==> OwnsNothing(f))
    && match f.status
       case Discovered => f.cfg.None?
       case Analyzed =>
         && f.cfg.Some? && Ownable(f.cfg.value, s.input.executable) && RangesOf(f.cfg.value) != []
         && f == WithCode(f, f.cfg.value)
       case Failed => f.cfg.Some? ==> !Ownable(f.cfg.value, s.input.executable)
       case ConflictStatus => false
  }

  ghost predicate Proper(s: Setting, records: map<Address, FunctionRecord>) {
    forall e {:trigger records[e]} :: e in records ==> RecordIsProper(s, e, records[e])
  }

  /** The function is trusted, and rated at least as high as a call rates its target. */
  ghost predicate IsCallee(f: FunctionRecord) { f.trust == Trusted && f.confidence !in {Low, Medium} }

  ghost predicate KeepsEvidence(f: FunctionRecord, g: FunctionRecord) {
    (forall x :: x in f.entries ==> x in g.entries) && (IsCallee(f) ==> IsCallee(g))
  }

  /** The records say the same about their code, and no entry is lost. */
  ghost predicate SameFunction(f: FunctionRecord, g: FunctionRecord) {
    && f.entry == g.entry && f.status == g.status && f.cfg == g.cfg && f.directCalls == g.directCalls
    && f.ranges == g.ranges && f.rangeBegin == g.rangeBegin && f.rangeEnd == g.rangeEnd
    && f.dependencies == g.dependencies && KeepsEvidence(f, g)
  }

  /** Seeds add evidence and new, still unknown functions; they change no code. */
  ghost predicate Grows(before: map<Address, FunctionRecord>, after: map<Address, FunctionRecord>) {
    && (forall e {:trigger after[e]} {:trigger e in before} :: e in before ==>
          e in after && SameFunction(before[e], after[e]))
    && (forall e {:trigger after[e]} :: e in after && e !in before ==>
          after[e].status.Discovered? && after[e].cfg.None?)
  }

  lemma GrowsOn(a: map<Address, FunctionRecord>, b: map<Address, FunctionRecord>, c: map<Address, FunctionRecord>)
    requires Grows(a, b) && Grows(b, c)
    ensures Grows(a, c)
  {
    hide SameFunction;
    forall e | e in a
      ensures e in c && SameFunction(a[e], c[e])
    {
      assert e in b;
      SameAgain(a[e], b[e], c[e]);
    }
    forall e | e in c && e !in a
      ensures c[e].status.Discovered? && c[e].cfg.None?
    {
      if e in b {
        StatusStays(b[e], c[e]);
      }
    }
  }

  lemma SameAgain(f: FunctionRecord, g: FunctionRecord, h: FunctionRecord)
    requires SameFunction(f, g) && SameFunction(g, h)
    ensures SameFunction(f, h)
  {
  }

  lemma StatusStays(f: FunctionRecord, g: FunctionRecord)
    requires SameFunction(f, g)
    ensures f.status == g.status && f.cfg == g.cfg && f.directCalls == g.directCalls && KeepsEvidence(f, g)
  {
  }

  ghost predicate SameEvidence(f: FunctionRecord, g: FunctionRecord) {
    f.entries == g.entries && f.source == g.source && f.confidence == g.confidence && f.trust == g.trust
  }

  /** A call has rated the function: as its target, unless it was rated at least as high before. */
  ghost predicate IsRatedByCall(b: Book, c: Book, x: Address)
    requires x in c.records
  {
    && x in c.known && IsCallee(c.records[x])
    && if x in b.records && b.records[x].confidence !in {Low, Medium}
       then c.records[x].source == b.records[x].source && c.records[x].confidence == b.records[x].confidence
       else c.records[x].source == DirectCallSource && c.records[x].confidence == High
  }

  /** Calls, and nothing else, have changed what is said of functions. */
  ghost predicate CallsAdd(b: Book, c: Book) {
    && b.known <= c.known && (forall x :: x in b.records ==> x in c.records)
    && forall x {:trigger c.records[x]} :: x in c.records ==>
         (x in b.records && SameEvidence(b.records[x], c.records[x])) || IsRatedByCall(b, c, x)
  }

  lemma CallsAddOn(a: Book, b: Book, c: Book)
    requires CallsAdd(a, b) && CallsAdd(b, c)
    ensures CallsAdd(a, c)
  {
    hide IsCallee;
    forall x | x in c.records
      ensures (x in a.records && SameEvidence(a.records[x], c.records[x])) || IsRatedByCall(a, c, x)
    {
      CalledOn(a, b, c, x);
    }
  }

  lemma CalledOn(a: Book, b: Book, c: Book, x: Address)
    requires CallsAdd(a, b) && CallsAdd(b, c) && x in c.records
    ensures (x in a.records && SameEvidence(a.records[x], c.records[x])) || IsRatedByCall(a, c, x)
  {
    assert (x in b.records && SameEvidence(b.records[x], c.records[x])) || IsRatedByCall(b, c, x);
    if x in b.records {
      assert (x in a.records && SameEvidence(a.records[x], b.records[x])) || IsRatedByCall(a, b, x);
    }
  }

  ghost predicate AllCallees(s: Setting, records: map<Address, FunctionRecord>, targets: seq<Address>) {
    forall t :: t in targets && s.input.InRange(t) ==> t in records && IsCallee(records[t])
  }

  lemma CallAdds(s: Setting, b: Book, t: Address)
    requires AddCall(s, b, t).Done?
    ensures CallsAdd(b, AddCall(s, b, t).value)
    ensures t in AddCall(s, b, t).value.records && IsCallee(AddCall(s, b, t).value.records[t])
  {
    hide ModuleInput.IsEntry;
    var seed := FunctionSeed(t, DirectCallSource, High, None);
    var c := AddCall(s, b, t).value;
    assert c.records == WithSeed(b.records, seed) && t in c.known;
    CallIsRated(b, c, t);
    forall x | x in c.records
      ensures (x in b.records && SameEvidence(b.records[x], c.records[x])) || IsRatedByCall(b, c, x)
    {
      if x != t {
        assert c.records[x] == b.records[x];
      }
    }
  }

  lemma CallIsRated(b: Book, c: Book, t: Address)
    requires c.records == WithSeed(b.records, FunctionSeed(t, DirectCallSource, High, None)) && t in c.known
    ensures t in c.records && IsRatedByCall(b, c, t)
  {
  }

  lemma CalleesStay(s: Setting, b: Book, c: Book, targets: seq<Address>)
    requires AllCallees(s, b.records, targets) && CallsAdd(b, c)
    ensures AllCallees(s, c.records, targets)
  {
    hide ModuleInput.InRange;
  }

  /** Following up calls rates the targets, and no other function. */
  lemma {:induction false} CallsRate(s: Setting, b: Book, targets: seq<Address>)
    requires AddCalls(s, b, targets).Done?
    ensures CallsAdd(b, AddCalls(s, b, targets).value) && AllCallees(s, AddCalls(s, b, targets).value.records, targets)
    decreases |targets|
  {
    hide AddCall, ModuleInput.InRange, CallsAdd, IsCallee;
    if targets == [] {
      NothingIsAdded(b);
    } else {
      var front, t := targets[..|targets| - 1], targets[|targets| - 1];
      CallsRate(s, b, front);
      var c := AddCalls(s, b, front).value;
      if s.input.InRange(t) {
        CallAdds(s, c, t);
        CalleesStay(s, c, AddCall(s, c, t).value, front);
        CallsAddOn(b, c, AddCall(s, c, t).value);
      }
      assert targets == front + [t];
    }
  }

  lemma NothingIsAdded(b: Book)
    ensures CallsAdd(b, b)
  {
  }

  // Seeds and calls keep everything but the size of the containers.

  /** Functions, seeds and consumed work are within their budgets. */
  ghost predicate Counted(s: Setting, b: Book) {
    |b.records| <= s.budgets.maxFunctions && b.seedCount <= s.budgets.maxSeeds && Affordable(b.usage, s.budgets)
  }

  /** The entries that are known after `n` boundaries. */
  ghost function KnownBy(s: Setting, boundaries: seq<Address>, n: nat): set<Address>
    requires n <= |boundaries|
  {
    FirstEntries(s) + set k: nat | k < n :: boundaries[k]
  }

  /** The known entries are the first ones and the boundaries, each of which was new when it was found. */
  ghost predicate Traced(s: Setting, known: set<Address>, boundaries: seq<Address>) {
    && known == KnownBy(s, boundaries, |boundaries|)
    && forall k :: 0 <= k < |boundaries| ==> boundaries[k] !in KnownBy(s, boundaries, k) && boundaries[k] % 4 == 0
  }

  /** The state has grown by functions, boundaries and pending work; nothing else has changed. */
  ghost predicate Extends(b: Book, c: Book) {
    && Grows(b.records, c.records) && b.boundaries <= c.boundaries && b.known <= c.known
    && c.processed == b.processed && c.checkpoints == b.checkpoints && c.usage == b.usage
    && c.passes == b.passes && c.basis == b.basis
    && b.pending <= c.pending && c.seedCount - |c.pending| == b.seedCount - |b.pending|
    && (forall e :: e in c.pending && e !in b.pending ==> e in c.records)
    && (forall e :: e in c.records && e !in b.records ==> e in c.pending)
  }

  lemma ExtendsOn(a: Book, b: Book, c: Book)
    requires Extends(a, b) && Extends(b, c)
    ensures Extends(a, c)
  {
    hide Grows;
    GrowsOn(a.records, b.records, c.records);
    GrowingKeeps(b.records, c.records);
    GrowingKeeps(a.records, b.records);
  }

  lemma GrowingKeeps(before: map<Address, FunctionRecord>, after: map<Address, FunctionRecord>)
    requires Grows(before, after)
    ensures forall e :: e in before ==> e in after
  {
  }

  ghost predicate IsFit(s: Setting) {
    InputIsValid(s.input, s.options.budgets) && s.input.guest.FetchesCode()
  }

  lemma SeedKeepsProper(s: Setting, records: map<Address, FunctionRecord>, seed: FunctionSeed)
    requires Proper(s, records) && s.input.IsEntry(seed.entry) && s.input.IsEntry(seed.Canonical()) && IsGiven(s, seed)
    ensures Proper(s, WithSeed(records, seed)) && Grows(records, WithSeed(records, seed))
    ensures WithSeed(records, seed).Keys == records.Keys + {seed.Canonical()}
  {
    hide Ownable, Normalized, IsGiven, EntriesAreGiven;
    var c, more := seed.Canonical(), WithSeed(records, seed);
    forall e | e in more
      ensures RecordIsProper(s, e, more[e])
    {
      if e == c {
        SeededRecord(s, records, seed);
      } else {
        assert more[e] == records[e];
      }
    }
    forall e | e in records
      ensures SameFunction(records[e], more[e])
    {
      if e != c {
        assert more[e] == records[e];
      }
    }
  }

  lemma SeededRecord(s: Setting, records: map<Address, FunctionRecord>, seed: FunctionSeed)
    requires Proper(s, records) && s.input.IsEntry(seed.entry) && s.input.IsEntry(seed.Canonical()) && IsGiven(s, seed)
    ensures RecordIsProper(s, seed.Canonical(), WithSeed(records, seed)[seed.Canonical()])
  {
    hide Ownable, ModuleInput.IsEntry, IsSeedEntry;
    var c := seed.Canonical();
    if c in records {
      assert RecordIsProper(s, c, records[c]);
    }
  }

  ghost predicate Stays(s: Setting, b: Book, c: Book) {
    Extends(b, c) && Proper(s, c.records) && Counted(s, c)
  }

  /** What has to be true before a seed for `c` for it to exhaust a budget: there is a new function to record, or
      a new entry to wait for, and the budget is used up. */
  ghost predicate SeedRunsOut(s: Setting, b: Book, c: Address, d: BudgetDimension) {
    || (d.Functions? && c !in b.records && |b.records| == s.budgets.maxFunctions < Capacity(s.input.executable))
    || (d.Seeds? && c !in b.pending && b.seedCount == s.budgets.maxSeeds)
  }

  /** An accepted seed adds a function or evidence, and is charged for entering the pending set. */
  lemma AddSeedExtends(s: Setting, b: Book, seed: FunctionSeed)
    requires IsFit(s) && Proper(s, b.records) && Counted(s, b) && IsGiven(s, seed)
    ensures
      var o := AddSeed(s, b, seed);
      && (o.Done? ==>
            && Stays(s, b, o.value) && o.value.records.Keys == b.records.Keys + {seed.Canonical()}
            && o.value.pending == b.pending + {seed.Canonical()}
            && o.value.known == b.known && o.value.boundaries == b.boundaries
            && seed.entry in o.value.records[seed.Canonical()].entries)
      && (o.Fault? <==> !s.input.IsEntry(seed.entry) || !s.input.IsEntry(seed.Canonical()))
      && (o.Fault? ==> o.code == InvalidGuestAddress)
      && (o.OverBudget? ==> SeedRunsOut(s, b, seed.Canonical(), o.dimension))
  {
    hide Stays, Proper, IsFit, Grows, WithSeed, ModuleInput.IsEntry, Capacity, InputIsValid, IsGiven;
    var c := seed.Canonical();
    if s.input.IsEntry(seed.entry) && s.input.IsEntry(c) {
      SeedKeepsProper(s, b.records, seed);
      NoRoomMeansFull(s, b, c);
      if AddSeed(s, b, seed).Done? {
        AddedSeedExtends(s, b, seed);
        SeedIsEntered(b.records, seed);
      }
    }
  }

  lemma SeedIsEntered(records: map<Address, FunctionRecord>, seed: FunctionSeed)
    ensures seed.Canonical() in WithSeed(records, seed)
    ensures seed.entry in WithSeed(records, seed)[seed.Canonical()].entries
  {
  }

  lemma NoRoomMeansFull(s: Setting, b: Book, c: Address)
    requires IsFit(s) && Proper(s, b.records) && s.input.IsEntry(c)
    ensures c !in b.records && |b.records| >= s.budgets.maxFunctions ==> s.budgets.maxFunctions < Capacity(s.input.executable)
  {
    hide Proper, InputIsValid, GuestView.FetchesCode, Capacity, ModuleInput.IsEntry;
    if c !in b.records {
      AllAreEntries(s, b.records);
      assert |b.records| == |b.records.Keys|;
      RoomForEntry(s.input, s.options.budgets, b.records.Keys, c);
    }
  }

  lemma AddedSeedExtends(s: Setting, b: Book, seed: FunctionSeed)
    requires Counted(s, b) && AddSeed(s, b, seed).Done?
    requires Proper(s, WithSeed(b.records, seed)) && Grows(b.records, WithSeed(b.records, seed))
    requires WithSeed(b.records, seed).Keys == b.records.Keys + {seed.Canonical()}
    ensures Stays(s, b, AddSeed(s, b, seed).value)
  {
    hide Proper, Grows, WithSeed, Extends, ModuleInput.IsEntry;
    var c, more := seed.Canonical(), WithSeed(b.records, seed);
    assert |more| == |more.Keys| && |b.records| == |b.records.Keys|;
    OneMore(b.records.Keys, c);
    ExtendsBySeed(b, AddSeed(s, b, seed).value, c);
  }

  lemma ExtendsBySeed(b: Book, d: Book, c: Address)
    requires Grows(b.records, d.records) && d.records.Keys == b.records.Keys + {c}
    requires d == b.(records := d.records, pending := b.pending + {c}, seedCount := d.seedCount)
    requires d.seedCount == if c in b.pending then b.seedCount else b.seedCount + 1
    ensures Extends(b, d)
  {
    hide Grows;
    OneMore(b.pending, c);
    GrownKeys(b.records, d.records, c);
    PrefixOfItself(b.boundaries);
  }

  lemma PrefixOfItself(s: seq<Address>)
    ensures s <= s
  {
  }

  lemma GrownKeys(before: map<Address, FunctionRecord>, after: map<Address, FunctionRecord>, c: Address)
    requires after.Keys == before.Keys + {c}
    ensures forall e :: e in after ==> e in before || e == c
  {
    forall e | e in after
      ensures e in before || e == c
    {
      assert e in after.Keys;
    }
  }

  // Calls.

  lemma TraceOneMore(s: Setting, known: set<Address>, boundaries: seq<Address>, t: Address)
    requires Traced(s, known, boundaries) && t !in known && t % 4 == 0
    ensures Traced(s, known + {t}, boundaries + [t])
  {
    var more := boundaries + [t];
    forall k: nat | k <= |boundaries|
      ensures KnownBy(s, more, k) == KnownBy(s, boundaries, k)
    {
      assert forall j: nat :: j < k ==> more[j] == boundaries[j];
    }
    forall x
      ensures x in KnownBy(s, more, |more|) <==> x in KnownBy(s, boundaries, |boundaries|) || x == t
    {
      assert more[|boundaries|] == t;
      assert forall j: nat :: j < |boundaries| ==> more[j] == boundaries[j];
    }
  }

  lemma AddCallExtends(s: Setting, b: Book, t: Address)
    requires IsFit(s) && Proper(s, b.records) && Counted(s, b) && Traced(s, b.known, b.boundaries)
    ensures
      var o := AddCall(s, b, t);
      && (o.Done? ==>
            && Stays(s, b, o.value) && Traced(s, o.value.known, o.value.boundaries)
            && o.value.records.Keys == b.records.Keys + {t} && o.value.known == b.known + {t}
            && o.value.pending == b.pending + {t}
            && (t in b.known ==> o.value.boundaries == b.boundaries))
      && (o.Fault? ==> !s.input.IsEntry(t) && o.code == InvalidGuestAddress)
      && (o.OverBudget? ==> SeedRunsOut(s, b, t, o.dimension))
  {
    hide AddSeed, Stays, Proper, Counted, Traced, SeedRunsOut, IsFit, ModuleInput.IsEntry;
    var seed := FunctionSeed(t, DirectCallSource, High, None);
    AddSeedExtends(s, b, seed);
    if t in b.known {
      assert b.known + {t} == b.known;
    } else if AddSeed(s, b, seed).Done? {
      AddedIsAligned(s, b, seed);
      TraceOneMore(s, b.known, b.boundaries, t);
      BoundaryStays(s, b, AddSeed(s, b, seed).value, t);
    }
  }

  lemma AddedIsAligned(s: Setting, b: Book, seed: FunctionSeed)
    requires AddSeed(s, b, seed).Done?
    ensures seed.Canonical() % 4 == 0
  {
  }

  lemma BoundaryStays(s: Setting, b: Book, c: Book, t: Address)
    requires Stays(s, b, c) && c.known == b.known && c.boundaries == b.boundaries
    ensures Stays(s, b, c.(known := b.known + {t}, boundaries := b.boundaries + [t]))
  {
    hide Grows, Proper;
  }

  /** The in-range targets are functions and known. */
  ghost predicate CallsAreKnown(s: Setting, b: Book, targets: seq<Address>) {
    forall t :: t in targets && s.input.InRange(t) ==> t in b.records && t in b.known
  }

  ghost predicate CallsAreEntries(s: Setting, targets: seq<Address>) {
    forall t :: t in targets && s.input.InRange(t) ==> s.input.IsEntry(t)
  }

  function InRangeOf(s: Setting, targets: seq<Address>): set<Address> {
    set t | t in targets && s.input.InRange(t)
  }

  /** The in-range targets, and nothing else, have become functions, known entries and pending work. */
  ghost predicate FollowsUp(s: Setting, b: Book, c: Book, targets: seq<Address>) {
    && c.records.Keys == b.records.Keys + InRangeOf(s, targets)
    && c.known == b.known + InRangeOf(s, targets)
    && c.pending == b.pending + InRangeOf(s, targets)
  }

  /** Following up the calls asks for more functions, or more waiting entries, than a budget allows. */
  ghost predicate CallsRunOut(s: Setting, b: Book, targets: seq<Address>, d: BudgetDimension) {
    || (d.Functions? && s.budgets.maxFunctions < |b.records.Keys + InRangeOf(s, targets)|
        && s.budgets.maxFunctions < Capacity(s.input.executable))
    || (d.Seeds? && b.seedCount + |InRangeOf(s, targets) - b.pending| > s.budgets.maxSeeds)
  }

  lemma {:induction false} AddCallsExtends(s: Setting, b: Book, targets: seq<Address>)
    requires IsFit(s) && Proper(s, b.records) && Counted(s, b) && Traced(s, b.known, b.boundaries)
    ensures
      var o := AddCalls(s, b, targets);
      && (o.Done? ==>
            Stays(s, b, o.value) && Traced(s, o.value.known, o.value.boundaries) && FollowsUp(s, b, o.value, targets))
      && (o.Fault? ==> !CallsAreEntries(s, targets) && o.code == InvalidGuestAddress)
      && (o.OverBudget? ==> CallsRunOut(s, b, targets, o.dimension))
    decreases |targets|
  {
    hide AddCall, Proper, Grows, Traced, IsFit, Counted, FollowsUp, CallsRunOut, InRangeOf, Stays, ModuleInput.IsEntry,
         ModuleInput.InRange;
    if targets == [] {
      StaysItself(s, b);
      NothingToFollow(s, b);
    } else {
      var front, t := targets[..|targets| - 1], targets[|targets| - 1];
      AddCallsExtends(s, b, front);
      var o := AddCalls(s, b, front);
      assert targets == front + [t];
      CallsGrow(s, b, front, t);
      if o.Done? {
        if s.input.InRange(t) {
          FollowOneMore(s, b, o.value, front, t);
        } else {
          SkipOutside(s, b, o.value, front, t);
        }
      }
    }
  }

  lemma NothingToFollow(s: Setting, b: Book)
    ensures FollowsUp(s, b, b, [])
  {
    assert InRangeOf(s, []) == {};
  }

  lemma InRangeOfMore(s: Setting, front: seq<Address>, t: Address)
    ensures InRangeOf(s, front + [t]) == InRangeOf(s, front) + if s.input.InRange(t) then {t} else {}
  {
    hide ModuleInput.InRange;
  }

  lemma SkipOutside(s: Setting, b: Book, c: Book, front: seq<Address>, t: Address)
    requires FollowsUp(s, b, c, front) && !s.input.InRange(t)
    ensures FollowsUp(s, b, c, front + [t])
  {
    InRangeOfMore(s, front, t);
    hide InRangeOf, ModuleInput.InRange;
    assert InRangeOf(s, front + [t]) == InRangeOf(s, front);
  }

  /** One call asks for no more than all of them. */
  lemma CallsGrow(s: Setting, b: Book, front: seq<Address>, t: Address)
    ensures forall d :: CallsRunOut(s, b, front, d) ==> CallsRunOut(s, b, front + [t], d)
    ensures !CallsAreEntries(s, front) ==> !CallsAreEntries(s, front + [t])
  {
    InRangeOfMore(s, front, t);
    hide InRangeOf, ModuleInput.InRange, ModuleInput.IsEntry, Capacity;
    SubsetIsSmaller(b.records.Keys + InRangeOf(s, front), b.records.Keys + InRangeOf(s, front + [t]));
    SubsetIsSmaller(InRangeOf(s, front) - b.pending, InRangeOf(s, front + [t]) - b.pending);
    if !CallsAreEntries(s, front) {
      var x :| x in front && s.input.InRange(x) && !s.input.IsEntry(x);
      assert x in front + [t];
    }
  }

  lemma FollowOneMore(s: Setting, b: Book, c: Book, front: seq<Address>, t: Address)
    requires IsFit(s) && Stays(s, b, c) && Traced(s, c.known, c.boundaries) && FollowsUp(s, b, c, front)
    requires s.input.InRange(t)
    ensures
      var o := AddCall(s, c, t);
      && (o.Done? ==>
            Stays(s, b, o.value) && Traced(s, o.value.known, o.value.boundaries) && FollowsUp(s, b, o.value, front + [t]))
      && (o.Fault? ==> !CallsAreEntries(s, front + [t]) && o.code == InvalidGuestAddress)
      && (o.OverBudget? ==> CallsRunOut(s, b, front + [t], o.dimension))
  {
    hide AddCall, Proper, Extends, Traced, Counted, IsFit, FollowsUp, SeedRunsOut, CallsRunOut, ModuleInput.IsEntry,
         ModuleInput.InRange;
    AddCallExtends(s, c, t);
    var o := AddCall(s, c, t);
    if o.Done? {
      ExtendsOn(b, c, o.value);
      FollowedOneMore(s, b, c, o.value, front, t);
    } else if o.OverBudget? {
      OneCallTooMany(s, b, c, front, t, o.dimension);
    } else {
      assert t in front + [t];
    }
  }

  lemma FollowedOneMore(s: Setting, b: Book, c: Book, d: Book, front: seq<Address>, t: Address)
    requires FollowsUp(s, b, c, front) && s.input.InRange(t)
    requires d.records.Keys == c.records.Keys + {t} && d.known == c.known + {t} && d.pending == c.pending + {t}
    ensures FollowsUp(s, b, d, front + [t])
  {
    InRangeOfMore(s, front, t);
    hide InRangeOf, ModuleInput.InRange;
  }

  lemma OneCallTooMany(s: Setting, b: Book, c: Book, front: seq<Address>, t: Address, d: BudgetDimension)
    requires Stays(s, b, c) && FollowsUp(s, b, c, front) && s.input.InRange(t) && SeedRunsOut(s, c, t, d)
    ensures CallsRunOut(s, b, front + [t], d)
  {
    InRangeOfMore(s, front, t);
    hide InRangeOf, ModuleInput.InRange, Proper, Grows, Capacity;
    var before, after := InRangeOf(s, front), InRangeOf(s, front + [t]);
    if d.Seeds? {
      MoreAreWaiting(b.pending, before, after, t);
      assert |c.pending| == |b.pending + before|;
    } else {
      assert b.records.Keys + after == c.records.Keys + {t} && |c.records| == |c.records.Keys|;
      OneMore(c.records.Keys, t);
    }
  }

  lemma MoreAreWaiting(pending: set<Address>, before: set<Address>, after: set<Address>, t: Address)
    requires after == before + {t} && t !in pending + before
    ensures |after - pending| == |pending + before| - |pending| + 1
  {
    assert after - pending == (before - pending) + {t};
    assert pending + before == pending + (before - pending);
  }

  lemma FollowedIsKnown(s: Setting, b: Book, c: Book, targets: seq<Address>)
    requires FollowsUp(s, b, c, targets)
    ensures CallsAreKnown(s, c, targets)
    ensures forall e :: e in c.records && e !in b.records ==> e in targets && s.input.InRange(e)
  {
    hide ModuleInput.InRange;
    forall t | t in targets && s.input.InRange(t)
      ensures t in c.records && t in c.known
    {
      assert t in InRangeOf(s, targets) && t in c.records.Keys;
    }
    forall e | e in c.records && e !in b.records
      ensures e in targets && s.input.InRange(e)
    {
      assert e in c.records.Keys;
    }
  }

  lemma StaysItself(s: Setting, b: Book)
    requires Proper(s, b.records) && Counted(s, b)
    ensures Stays(s, b, b)
  {
  }

  /** Calls that are known already add evidence and pending work only. */
  lemma KnownCallsAddNothing(s: Setting, b: Book, targets: seq<Address>)
    requires IsFit(s) && Proper(s, b.records) && Counted(s, b) && Traced(s, b.known, b.boundaries)
    requires CallsAreKnown(s, b, targets)
    ensures
      var o := AddCalls(s, b, targets);
      o.Done? ==>
        && o.value.known == b.known && o.value.boundaries == b.boundaries && o.value.records.Keys == b.records.Keys
        && o.value.pending == b.pending + InRangeOf(s, targets)
  {
    hide AddCalls, Proper, Traced, IsFit, Counted, CallsAreKnown, InRangeOf;
    AddCallsExtends(s, b, targets);
    var o := AddCalls(s, b, targets);
    if o.Done? {
      KnownAreInside(s, b, targets);
      PrefixOf(s, b, o.value);
      assert o.value.known == b.known;
      NoNewBoundary(s, b.known, b.boundaries, o.value.boundaries);
    }
  }

  lemma KnownAreInside(s: Setting, b: Book, targets: seq<Address>)
    requires CallsAreKnown(s, b, targets)
    ensures b.known + InRangeOf(s, targets) == b.known && b.records.Keys + InRangeOf(s, targets) == b.records.Keys
  {
    hide ModuleInput.InRange;
  }

  lemma PrefixOf(s: Setting, b: Book, c: Book)
    requires Stays(s, b, c)
    ensures b.boundaries <= c.boundaries
  {
    hide Grows, Proper;
  }

  /** Every boundary was new when it was found. */
  lemma NoNewBoundary(s: Setting, known: set<Address>, boundaries: seq<Address>, more: seq<Address>)
    requires Traced(s, known, boundaries) && Traced(s, known, more) && boundaries <= more
    ensures boundaries == more
  {
    SameKnown(s, boundaries, more, |boundaries|);
  }

  lemma AllAreEntries(s: Setting, records: map<Address, FunctionRecord>)
    requires Proper(s, records)
    ensures forall e :: e in records ==> s.input.IsEntry(e)
  {
    forall e | e in records
      ensures s.input.IsEntry(e)
    {
      assert RecordIsProper(s, e, records[e]);
    }
  }

  // The invariant.

  ghost predicate IsBasis(s: Setting, boundaries: seq<Address>, at: Knowledge) {
    at.count <= |boundaries| && at.entries == KnownBy(s, boundaries, at.count)
  }

  /** The function lists exactly the entries in its ranges that were known after `m` boundaries. */
  ghost predicate ListsKnown(s: Setting, boundaries: seq<Address>, f: FunctionRecord, m: nat) {
    m <= |boundaries| && f.dependencies == OwnedEntries(f.ranges, KnownBy(s, boundaries, m))
  }

  /** Every graph, and every failure, is the outcome of an analysis that knew the first of the boundaries; a
      graph that is owned was stored when at least these were known, with the list of entries known then. */
  ghost predicate IsRecalled(s: Setting, boundaries: seq<Address>, basis: map<Address, Knowledge>, e: Address,
                             f: FunctionRecord) {
    && (f.cfg.Some? || f.status.Failed? ==>
          e in basis && IsBasis(s, boundaries, basis[e]) && IsOutcome(s, e, f.cfg, basis[e].entries))
    && (f.status.Analyzed? ==> exists m: nat :: e in basis && basis[e].count <= m && ListsKnown(s, boundaries, f, m))
  }

  ghost predicate Recalled(s: Setting, b: Book) {
    forall e {:trigger b.records[e]} :: e in b.records ==> IsRecalled(s, b.boundaries, b.basis, e, b.records[e])
  }

  /** A checkpoint counts at least the boundaries that the graph it was set for knew. */
  ghost predicate IsChecked(b: Book, e: Address) {
    e in b.checkpoints ==>
      && b.checkpoints[e] <= |b.boundaries|
      && (e in b.records && b.records[e].status.Analyzed? ==> e in b.basis && b.basis[e].count <= b.checkpoints[e])
  }

  ghost predicate CheckpointsCount(b: Book) { forall e :: IsChecked(b, e) }

  /** The in-range calls of every analyzed function, but perhaps that at `open`, are trusted functions and known. */
  ghost predicate Closed(s: Setting, b: Book, open: Option<Address>) {
    forall e {:trigger b.records[e]} :: e in b.records && b.records[e].status.Analyzed? && open != Some(e) ==>
      CallsAreKnown(s, b, b.records[e].directCalls) && AllCallees(s, b.records, b.records[e].directCalls)
  }

  ghost predicate AllCallable(s: Setting, records: map<Address, FunctionRecord>) {
    forall e {:trigger records[e]} :: e in records ==> IsCallable(s, e)
  }

  ghost predicate Sound(s: Setting, b: Book, open: Option<Address>) {
    && Proper(s, b.records) && Counted(s, b) && Traced(s, b.known, b.boundaries)
    && Recalled(s, b) && CheckpointsCount(b) && Closed(s, b, open) && AllCallable(s, b.records)
  }

  lemma BasisStays(s: Setting, boundaries: seq<Address>, more: seq<Address>, at: Knowledge)
    requires IsBasis(s, boundaries, at) && boundaries <= more
    ensures IsBasis(s, more, at)
  {
    SameKnown(s, boundaries, more, at.count);
  }

  lemma ExtendingKeepsRecalled(s: Setting, b: Book, c: Book)
    requires Extends(b, c) && Recalled(s, b)
    ensures Recalled(s, c)
  {
    hide IsRecalled, SameFunction;
    forall e | e in c.records
      ensures IsRecalled(s, c.boundaries, c.basis, e, c.records[e])
    {
      if e in b.records {
        RecallStays(s, b.boundaries, c.boundaries, b.basis, e, b.records[e], c.records[e]);
      } else {
        NothingToRecall(s, c.boundaries, c.basis, e, c.records[e]);
      }
    }
  }

  lemma NothingToRecall(s: Setting, boundaries: seq<Address>, basis: map<Address, Knowledge>, e: Address, f: FunctionRecord)
    requires f.status.Discovered? && f.cfg.None?
    ensures IsRecalled(s, boundaries, basis, e, f)
  {
  }

  lemma RecallStays(s: Setting, boundaries: seq<Address>, more: seq<Address>, basis: map<Address, Knowledge>, e: Address,
                    f: FunctionRecord, g: FunctionRecord)
    requires IsRecalled(s, boundaries, basis, e, f) && boundaries <= more && SameFunction(f, g)
    ensures IsRecalled(s, more, basis, e, g)
  {
    hide IsOutcome, IsBasis, KnownBy, OwnedEntries;
    if e in basis && IsBasis(s, boundaries, basis[e]) {
      BasisStays(s, boundaries, more, basis[e]);
    }
    if f.status.Analyzed? {
      var m: nat :| e in basis && basis[e].count <= m && ListsKnown(s, boundaries, f, m);
      SameKnown(s, boundaries, more, m);
      assert ListsKnown(s, more, g, m);
    }
  }

  lemma RecallIs(s: Setting, b: Book, e: Address)
    requires Sound(s, b, None) && e in b.records && (b.records[e].cfg.Some? || b.records[e].status.Failed?)
    ensures e in b.basis && IsBasis(s, b.boundaries, b.basis[e]) && IsOutcome(s, e, b.records[e].cfg, b.basis[e].entries)
  {
    hide IsBasis, IsOutcome, ListsKnown;
    assert IsRecalled(s, b.boundaries, b.basis, e, b.records[e]);
  }

  lemma SameKnown(s: Setting, boundaries: seq<Address>, more: seq<Address>, m: nat)
    requires m <= |boundaries| && boundaries <= more
    ensures KnownBy(s, more, m) == KnownBy(s, boundaries, m)
  {
    assert forall k: nat :: k < m ==> more[k] == boundaries[k];
  }

  lemma ExtendingKeepsChecked(b: Book, c: Book)
    requires Extends(b, c) && CheckpointsCount(b)
    ensures CheckpointsCount(c)
  {
    hide SameFunction;
    forall e
      ensures IsChecked(c, e)
    {
      assert IsChecked(b, e);
      if e in b.records {
        StatusStays(b.records[e], c.records[e]);
      }
    }
  }

  lemma ExtendingKeepsClosed(s: Setting, b: Book, c: Book, open: Option<Address>)
    requires Extends(b, c) && Closed(s, b, open)
    ensures Closed(s, c, open)
  {
    hide SameFunction, ModuleInput.InRange;
    forall e | e in c.records && c.records[e].status.Analyzed? && open != Some(e)
      ensures CallsAreKnown(s, c, c.records[e].directCalls) && AllCallees(s, c.records, c.records[e].directCalls)
    {
      StatusStays(b.records[e], c.records[e]);
      CalledStay(s, b, c, b.records[e].directCalls);
    }
  }

  lemma CalledStay(s: Setting, b: Book, c: Book, targets: seq<Address>)
    requires Extends(b, c) && CallsAreKnown(s, b, targets) && AllCallees(s, b.records, targets)
    ensures CallsAreKnown(s, c, targets) && AllCallees(s, c.records, targets)
  {
    hide SameFunction, ModuleInput.InRange, IsCallee;
    forall t | t in targets && s.input.InRange(t)
      ensures t in c.records && t in c.known && IsCallee(c.records[t])
    {
      StatusStays(b.records[t], c.records[t]);
    }
  }

  /** Following up the calls of the function at `e` keeps the invariant and closes the function. */
  lemma FollowingKeepsSound(s: Setting, b: Book, e: Address)
    requires IsFit(s) && Sound(s, b, Some(e)) && e in b.records
    requires forall t :: t in b.records[e].directCalls && s.input.InRange(t) ==> IsCallable(s, t)
    ensures
      var o := AddCalls(s, b, b.records[e].directCalls);
      && (o.Done? ==> Stays(s, b, o.value) && Sound(s, o.value, None) && CallsAdd(b, o.value))
      && (o.Fault? ==> !CallsAreEntries(s, b.records[e].directCalls) && o.code == InvalidGuestAddress)
      && (o.OverBudget? ==> CallsRunOut(s, b, b.records[e].directCalls, o.dimension))
  {
    var targets := b.records[e].directCalls;
    AddCallsExtends(s, b, targets);
    var o := AddCalls(s, b, targets);
    hide *;
    if o.Done? {
      CallsRate(s, b, targets);
      FollowedIsSound(s, b, o.value, e);
    }
  }

  lemma FollowedIsSound(s: Setting, b: Book, c: Book, e: Address)
    requires Sound(s, b, Some(e)) && e in b.records
    requires Stays(s, b, c) && Traced(s, c.known, c.boundaries) && FollowsUp(s, b, c, b.records[e].directCalls)
    requires AllCallees(s, c.records, b.records[e].directCalls)
    requires forall t :: t in b.records[e].directCalls && s.input.InRange(t) ==> IsCallable(s, t)
    ensures Sound(s, c, None)
  {
    hide Grows, SameFunction, Proper, Traced, IsRecalled, IsChecked, IsCallable, FollowsUp, ModuleInput.InRange, AllCallees;
    FollowedIsKnown(s, b, c, b.records[e].directCalls);
    ExtendingKeepsRecalled(s, b, c);
    ExtendingKeepsChecked(b, c);
    ExtendingKeepsClosed(s, b, c, Some(e));
    RecordStays(b.records, c.records, e);
    OpenIsClosed(s, c, e);
    forall x | x in c.records
      ensures IsCallable(s, x)
    {
      if x in b.records {
        assert b.records[x] == b.records[x];
      }
    }
  }

  lemma RecordStays(before: map<Address, FunctionRecord>, after: map<Address, FunctionRecord>, e: Address)
    requires Grows(before, after) && e in before
    ensures e in after && SameFunction(before[e], after[e])
    ensures after[e].directCalls == before[e].directCalls && after[e].status == before[e].status
    ensures after[e].cfg == before[e].cfg
  {
  }

  lemma OpenIsClosed(s: Setting, b: Book, e: Address)
    requires Closed(s, b, Some(e)) && e in b.records && CallsAreKnown(s, b, b.records[e].directCalls)
    requires AllCallees(s, b.records, b.records[e].directCalls)
    ensures Closed(s, b, None)
  {
  }

  // One record is replaced.

  lemma ReplaceKeepsProper(s: Setting, records: map<Address, FunctionRecord>, e: Address, f: FunctionRecord)
    requires Proper(s, records) && RecordIsProper(s, e, f)
    ensures Proper(s, records[e := f])
  {
    hide RecordIsProper;
    var after := records[e := f];
    forall x | x in after
      ensures RecordIsProper(s, x, after[x])
    {
      if x != e {
        assert after[x] == records[x];
      }
    }
  }

  lemma ReplaceKeepsRecalled(s: Setting, b: Book, e: Address, f: FunctionRecord, at: Knowledge)
    requires Recalled(s, b) && IsBasis(s, b.boundaries, at) && IsOutcome(s, e, f.cfg, at.entries)
    requires f.status.Analyzed? ==> ListsKnown(s, b.boundaries, f, |b.boundaries|)
    ensures Recalled(s, Replace(b, e, f, at))
  {
    hide IsOutcome, ListsKnown, KnownBy;
    var after := Replace(b, e, f, at);
    forall x | x in after.records
      ensures IsRecalled(s, after.boundaries, after.basis, x, after.records[x])
    {
      if x != e {
        assert after.records[x] == b.records[x];
        assert IsRecalled(s, b.boundaries, b.basis, x, b.records[x]);
      }
    }
  }

  lemma ReplaceKeepsChecked(b: Book, e: Address, f: FunctionRecord, at: Knowledge)
    requires CheckpointsCount(b) && (f.status.Analyzed? && e in b.checkpoints ==> at.count <= b.checkpoints[e])
    ensures CheckpointsCount(Replace(b, e, f, at))
  {
    var after := Replace(b, e, f, at);
    forall x
      ensures IsChecked(after, x)
    {
      assert IsChecked(b, x);
    }
  }

  lemma ReplaceKeepsClosed(s: Setting, b: Book, e: Address, f: FunctionRecord, at: Knowledge)
    requires Closed(s, b, None) && e in b.records && SameEvidence(b.records[e], f)
    ensures Closed(s, Replace(b, e, f, at), Some(e))
    ensures !f.status.Analyzed? ==> Closed(s, Replace(b, e, f, at), None)
  {
    hide ModuleInput.InRange;
    var after := Replace(b, e, f, at);
    forall x | x in after.records && after.records[x].status.Analyzed? && x != e
      ensures CallsAreKnown(s, after, after.records[x].directCalls)
      ensures AllCallees(s, after.records, after.records[x].directCalls)
    {
      assert after.records[x] == b.records[x];
      assert CallsAreKnown(s, b, b.records[x].directCalls);
    }
  }

  /** A record may be replaced by what an analysis with known entries gives. */
  lemma ReplaceKeepsSound(s: Setting, b: Book, e: Address, f: FunctionRecord, at: Knowledge)
    requires Sound(s, b, None) && e in b.records && RecordIsProper(s, e, f)
    requires IsBasis(s, b.boundaries, at) && IsOutcome(s, e, f.cfg, at.entries)
    requires f.status.Analyzed? ==> f.dependencies == OwnedEntries(f.ranges, b.known)
    requires f.status.Analyzed? && e in b.checkpoints ==> at.count <= b.checkpoints[e]
    requires SameEvidence(b.records[e], f)
    ensures Sound(s, Replace(b, e, f, at), if f.status.Analyzed? then Some(e) else None)
  {
    hide RecordIsProper, Proper, Recalled, CheckpointsCount, Closed, IsBasis, IsOutcome, Traced, AllCallable, ListsKnown,
         OwnedEntries;
    ReplaceKeepsProper(s, b.records, e, f);
    ListsAll(s, b, f);
    ReplaceKeepsRecalled(s, b, e, f, at);
    ReplaceKeepsChecked(b, e, f, at);
    ReplaceKeepsClosed(s, b, e, f, at);
    ReplaceKeepsCallable(s, b.records, e, f);
    assert Replace(b, e, f, at).records.Keys == b.records.Keys;
  }

  lemma ListsAll(s: Setting, b: Book, f: FunctionRecord)
    requires Traced(s, b.known, b.boundaries)
    ensures f.dependencies == OwnedEntries(f.ranges, b.known) ==> ListsKnown(s, b.boundaries, f, |b.boundaries|)
  {
    hide KnownBy, OwnedEntries;
  }

  lemma ReplaceKeepsCallable(s: Setting, records: map<Address, FunctionRecord>, e: Address, f: FunctionRecord)
    requires AllCallable(s, records) && e in records
    ensures AllCallable(s, records[e := f])
  {
    hide IsCallable;
    forall x | x in records[e := f]
      ensures IsCallable(s, x)
    {
      assert records[x] == records[x];
    }
  }

  // A new graph.

  lemma DescribedIsProper(s: Setting, known: set<Address>, e: Address, f: FunctionRecord, g: Graph)
    requires RecordIsProper(s, e, f)
    ensures RecordIsProper(s, e, Described(s, known, f, g)) && Described(s, known, f, g).cfg == Some(g)
    ensures Described(s, known, f, g).status == if Ownable(g, s.input.executable) then Analyzed else Failed
    ensures Ownable(g, s.input.executable) ==>
              && Described(s, known, f, g).directCalls == TargetsOf(g)
              && Described(s, known, f, g).dependencies == OwnedEntries(Described(s, known, f, g).ranges, known)
    ensures SameEvidence(f, Described(s, known, f, g))
  {
    hide OwnedEntries, TargetsOf, RangesOf, HasCode, ModuleInput.IsEntry, IsSeedEntry;
    if Ownable(g, s.input.executable) {
      CodeIsDescribed(g);
    }
  }

  lemma FirstAreKnown(s: Setting, boundaries: seq<Address>, at: Knowledge)
    requires IsBasis(s, boundaries, at)
    ensures forall x :: x in FirstEntries(s) ==> x in at.entries
  {
  }

  /** The in-range calls of a callable function are callable. */
  lemma TargetsAreCallable(s: Setting, e: Address, g: Graph, at: set<Address>)
    requires IsCallable(s, e) && GraphIsFrom(s, e, g, at) && forall x :: x in FirstEntries(s) ==> x in at
    ensures forall t :: t in TargetsOf(g) && s.input.InRange(t) ==> IsCallable(s, t)
  {
    hide *;
    forall t | t in TargetsOf(g) && s.input.InRange(t)
      ensures IsCallable(s, t)
    {
      TargetIsCalled(g, t);
      CallIsCallable(s, e, g, at, t);
    }
  }

  lemma TargetIsCalled(g: Graph, t: Address)
    ensures t in TargetsOf(g) <==> CallsDirectly(g, t)
  {
    TargetsAre(g);
  }

  /** A stored graph keeps the invariant, up to the calls of its function. */
  lemma StoreKeepsSound(s: Setting, b: Book, e: Address, g: Graph, at: Knowledge)
    requires Sound(s, b, None) && e in b.records && IsBasis(s, b.boundaries, at) && GraphIsFrom(s, e, g, at.entries)
    requires Ownable(g, s.input.executable) && e in b.checkpoints ==> at.count <= b.checkpoints[e]
    ensures
      var o := Store(s, b, e, g, at);
      && (o.Done? ==>
            && Sound(s, o.value, if Ownable(g, s.input.executable) then Some(e) else None)
            && e in o.value.records && o.value.records[e] == Described(s, b.known, b.records[e], g)
            && o.value == Replace(b.(usage := Consumed(b.usage, g)), e, Described(s, b.known, b.records[e], g), at))
      && !o.Fault? && (o.OverBudget? ==> Exceeds(Consumed(b.usage, g), s.budgets, o.dimension))
  {
    assert RecordIsProper(s, e, b.records[e]);
    DescribedIsProper(s, b.known, e, b.records[e], g);
    var f := Described(s, b.known, b.records[e], g);
    assert IsOutcome(s, e, f.cfg, at.entries);
    hide *;
    StoreIs(s, b, e, g, at);
    if Store(s, b, e, g, at).Done? {
      UsageKeepsSound(s, b, Consumed(b.usage, g));
      ReplaceKeepsSound(s, b.(usage := Consumed(b.usage, g)), e, f, at);
    }
  }

  lemma StoreIs(s: Setting, b: Book, e: Address, g: Graph, at: Knowledge)
    requires e in b.records
    ensures
      var o := Store(s, b, e, g, at);
      && (o.Done? ==>
            && o.value == Replace(b.(usage := Consumed(b.usage, g)), e, Described(s, b.known, b.records[e], g), at)
            && e in o.value.records && o.value.records[e] == Described(s, b.known, b.records[e], g)
            && Affordable(Consumed(b.usage, g), s.budgets))
      && !o.Fault? && (o.OverBudget? ==> Exceeds(Consumed(b.usage, g), s.budgets, o.dimension))
  {
    hide Described, Consumed, Overrun;
    OverrunIsExact(b.usage, g, s.budgets);
  }

  lemma UsageKeepsSound(s: Setting, b: Book, usage: Usage)
    requires Sound(s, b, None) && Affordable(usage, s.budgets)
    ensures Sound(s, b.(usage := usage), None)
  {
    hide Proper, Traced, IsRecalled, AllCallable, ModuleInput.InRange;
    var c := b.(usage := usage);
    forall e
      ensures IsChecked(c, e)
    {
      assert IsChecked(b, e);
    }
  }

  function WithCheckpoint(b: Book, e: Address): Book { b.(checkpoints := b.checkpoints[e := |b.boundaries|]) }

  lemma CheckpointKeepsSound(s: Setting, b: Book, e: Address)
    requires Sound(s, b, None) && e in b.records
    ensures Sound(s, WithCheckpoint(b, e), None)
  {
    hide Proper, Traced, AllCallable, IsOutcome, ModuleInput.InRange;
    var c := WithCheckpoint(b, e);
    assert IsRecalled(s, b.boundaries, b.basis, e, b.records[e]);
    assert RecordIsProper(s, e, b.records[e]) by {
      ProperAt(s, b.records, e);
    }
    forall x
      ensures IsChecked(c, x)
    {
      assert IsChecked(b, x);
    }
  }

  lemma ProperAt(s: Setting, records: map<Address, FunctionRecord>, e: Address)
    requires Proper(s, records) && e in records
    ensures RecordIsProper(s, e, records[e])
  {
  }

  // What a step does to the functions around it.

  /** The function at `e` may have changed in any way; otherwise the state has only grown. */
  ghost predicate Moves(b: Book, c: Book, e: Address) {
    && e in b.records && e in c.records && KeepsEvidence(b.records[e], c.records[e])
    && (forall x {:trigger c.records[x]} {:trigger x in b.records} :: x in b.records && x != e ==>
          x in c.records && SameFunction(b.records[x], c.records[x]))
    && (forall x {:trigger c.records[x]} :: x in c.records && x !in b.records ==>
          c.records[x].status.Discovered? && c.records[x].cfg.None?)
    && b.boundaries <= c.boundaries && CallsAdd(b, c)
    && c.processed == b.processed && c.passes == b.passes
    && b.pending <= c.pending && c.seedCount - |c.pending| == b.seedCount - |b.pending|
    && (forall x :: x in c.pending && x !in b.pending ==> x in c.records)
    && (forall x :: x in c.records && x !in b.records ==> x in c.pending)
    && (forall x :: x != e ==> (x in c.checkpoints <==> x in b.checkpoints)
                               && (x in c.checkpoints ==> c.checkpoints[x] == b.checkpoints[x]))
    && (forall x :: x != e ==> (x in c.basis <==> x in b.basis) && (x in c.basis ==> c.basis[x] == b.basis[x]))
  }

  /** One record, its history, its checkpoint and the consumed work have changed. */
  ghost predicate Changes(b: Book, c: Book, e: Address) {
    && e in b.records && e in c.records && SameEvidence(b.records[e], c.records[e])
    && c == b.(records := b.records[e := c.records[e]], basis := c.basis, checkpoints := c.checkpoints, usage := c.usage)
    && (forall x :: x != e ==> (x in c.checkpoints <==> x in b.checkpoints)
                               && (x in c.checkpoints ==> c.checkpoints[x] == b.checkpoints[x]))
    && (forall x :: x != e ==> (x in c.basis <==> x in b.basis) && (x in c.basis ==> c.basis[x] == b.basis[x]))
  }

  lemma ChangesMoves(b: Book, c: Book, e: Address)
    requires Changes(b, c, e)
    ensures Moves(b, c, e)
  {
    forall x | x in b.records && x != e
      ensures x in c.records && SameFunction(b.records[x], c.records[x])
    {
      assert c.records[x] == b.records[x];
    }
  }

  lemma MovesOn(b: Book, c: Book, d: Book, e: Address)
    requires Moves(b, c, e) && Extends(c, d) && CallsAdd(c, d)
    ensures Moves(b, d, e)
  {
    hide SameFunction, CallsAdd;
    CallsAddOn(b, c, d);
    StatusStays(c.records[e], d.records[e]);
    forall x | x in b.records && x != e
      ensures x in d.records && SameFunction(b.records[x], d.records[x])
    {
      assert x in c.records;
      SameAgain(b.records[x], c.records[x], d.records[x]);
    }
    forall x | x in d.records && x !in b.records
      ensures d.records[x].status.Discovered? && d.records[x].cfg.None?
    {
      if x in c.records {
        StatusStays(c.records[x], d.records[x]);
      }
    }
  }

  /** Some callable function has no graph that could be owned, for the reason that the code gives. */
  ghost predicate LosesAFunction(s: Setting, code: ErrorCode) {
    exists e, at, r :: IsCallable(s, e) && Analyzes(s, e, at, r) && IsLost(s, r, code)
  }

  /** The outcome of an analysis is an error other than a limit, or a graph that cannot be owned: one without code,
      or one with code that is not executable. */
  ghost predicate IsLost(s: Setting, r: Result<Graph>, code: ErrorCode) {
    match r
    case Err(error) => code == error && !IsLimit(error)
    case Ok(g) =>
      !Ownable(g, s.input.executable) && code == if Addresses(g) == {} then InvalidControlFlow else InvalidGuestAddress
  }

  /** What has to be true of the input for a step of discovery or finalization to fail with the code. */
  ghost predicate MayFault(s: Setting, code: ErrorCode) {
    || (code == InvalidGuestAddress && exists e :: IsCallable(s, e) && !s.input.IsEntry(e))
    || (!s.options.continueAfterFailure && LosesAFunction(s, code))
  }

  lemma NoEntryMeansFault(s: Setting, targets: seq<Address>)
    requires !CallsAreEntries(s, targets)
    requires forall t :: t in targets && s.input.InRange(t) ==> IsCallable(s, t)
    ensures MayFault(s, InvalidGuestAddress)
  {
    hide IsCallable, ModuleInput.IsEntry, ModuleInput.InRange, LosesAFunction;
    var t :| t in targets && s.input.InRange(t) && !s.input.IsEntry(t);
    assert IsCallable(s, t) && !s.input.IsEntry(t);
  }

  /** The graph is more work than the budgets allow, or its calls ask for too much. */
  ghost predicate GraphRunsOut(s: Setting, b: Book, g: Graph, d: BudgetDimension) {
    || Exceeds(Consumed(b.usage, g), s.budgets, d)
    || (Ownable(g, s.input.executable) && CallsRunOut(s, b, TargetsOf(g), d))
  }

  /** What has to be true of the state before the function at `e` is analyzed for a budget to be exhausted. */
  ghost predicate StepRunsOut(s: Setting, b: Book, e: Address, at: set<Address>, d: BudgetDimension) {
    || LimitBinds(s, e, at, d)
    || exists g :: GraphIsFrom(s, e, g, at) && GraphRunsOut(s, b, g, d)
  }

  /** What every step does: it keeps the invariant, and fails only for a cause. */
  ghost predicate Keeps(s: Setting, b: Book, e: Address, at: set<Address>, o: Outcome<Book>) {
    match o
    case Done(c) => Sound(s, c, None) && Moves(b, c, e) && !c.records[e].status.Discovered?
    case OverBudget(d) => StepRunsOut(s, b, e, at, d)
    case Fault(code) => MayFault(s, code)
  }

  /** The calls of a graph just stored. */
  lemma FollowingKeeps(s: Setting, b: Book, c: Book, e: Address, g: Graph, at: set<Address>)
    requires IsFit(s) && Sound(s, c, Some(e)) && Changes(b, c, e) && !c.records[e].status.Discovered?
    requires c.records[e].directCalls == TargetsOf(g) && GraphIsFrom(s, e, g, at) && Ownable(g, s.input.executable)
    requires forall x :: x in FirstEntries(s) ==> x in at
    ensures Keeps(s, b, e, at, AddCalls(s, c, c.records[e].directCalls))
  {
    var targets := c.records[e].directCalls;
    assert c.records[e] == c.records[e] && IsCallable(s, e);
    hide *;
    TargetsAreCallable(s, e, g, at);
    FollowingKeepsSound(s, c, e);
    var o := AddCalls(s, c, targets);
    if o.Done? {
      ChangesMoves(b, c, e);
      FollowedKeeps(s, b, c, o.value, e);
    } else if o.Fault? {
      NoEntryMeansFault(s, targets);
    } else {
      SameDemand(s, b, c, e, targets, o.dimension);
      GraphMakesRunOut(s, b, e, g, at, o.dimension);
    }
    KeepsIs(s, b, e, at, o);
  }

  lemma SameDemand(s: Setting, b: Book, c: Book, e: Address, targets: seq<Address>, d: BudgetDimension)
    requires Changes(b, c, e) && CallsRunOut(s, c, targets, d)
    ensures CallsRunOut(s, b, targets, d)
  {
    hide InRangeOf, Capacity;
    assert c.records.Keys == b.records.Keys;
  }

  lemma GraphMakesRunOut(s: Setting, b: Book, e: Address, g: Graph, at: set<Address>, d: BudgetDimension)
    requires GraphIsFrom(s, e, g, at)
    requires Exceeds(Consumed(b.usage, g), s.budgets, d)
             || (Ownable(g, s.input.executable) && CallsRunOut(s, b, TargetsOf(g), d))
    ensures StepRunsOut(s, b, e, at, d)
  {
    hide GraphIsFrom, Exceeds, CallsRunOut, Ownable, TargetsOf, Consumed;
    assert GraphRunsOut(s, b, g, d);
  }

  lemma FollowedKeeps(s: Setting, b: Book, c: Book, d: Book, e: Address)
    requires Moves(b, c, e) && Stays(s, c, d) && CallsAdd(c, d) && e in c.records && !c.records[e].status.Discovered?
    ensures Moves(b, d, e) && !d.records[e].status.Discovered?
  {
    hide Moves, SameFunction;
    MovesOn(b, c, d, e);
    RecordStays(c.records, d.records, e);
  }

  lemma KeepsIs(s: Setting, b: Book, e: Address, at: set<Address>, o: Outcome<Book>)
    requires o.Done? ==> Sound(s, o.value, None) && Moves(b, o.value, e) && e in o.value.records
    requires o.Done? ==> !o.value.records[e].status.Discovered?
    requires o.OverBudget? ==> StepRunsOut(s, b, e, at, o.dimension)
    requires o.Fault? ==> MayFault(s, o.code)
    ensures Keeps(s, b, e, at, o)
  {
    hide Sound, Moves, StepRunsOut, MayFault;
  }

  lemma LimitMakesRunOut(s: Setting, b: Book, e: Address, at: set<Address>, code: ErrorCode)
    requires Analyzes(s, e, at, Err(code)) && CfgBudgetDimension(code).Some?
    ensures StepRunsOut(s, b, e, at, CfgBudgetDimension(code).value)
  {
    hide GraphRunsOut, Problem.FailureCause;
  }

  lemma AnalyzesGraph(s: Setting, e: Address, at: set<Address>, graph: Result<Graph>)
    requires Analyzes(s, e, at, graph)
    ensures graph.Ok? ==> GraphIsFrom(s, e, graph.value, at)
  {
    hide GraphIsFrom;
  }

  /** Every outcome of `process_graph` keeps the invariant. */
  lemma ProcessKeeps(s: Setting, b: Book, e: Address, graph: Result<Graph>, at: Knowledge)
    requires IsFit(s) && Sound(s, b, None) && e in b.records && b.records[e].status.Discovered? && e !in b.checkpoints
    requires IsBasis(s, b.boundaries, at) && Analyzes(s, e, at.entries, graph)
    ensures Keeps(s, b, e, at.entries, Process(s, b, e, graph, at))
  {
    hide *;
    AnalyzesGraph(s, e, at.entries, graph);
    if graph.Ok? {
      ProcessGraphKeeps(s, b, e, graph.value, at);
    } else {
      ProcessFailureKeeps(s, b, e, graph.code, at);
    }
  }

  lemma FailedIsProper(s: Setting, b: Book, e: Address)
    requires Sound(s, b, None) && e in b.records && b.records[e].status.Discovered?
    ensures RecordIsProper(s, e, b.records[e].(status := Failed)) && b.records[e].cfg.None? && IsCallable(s, e)
  {
    hide Ownable, IsCallable, ModuleInput.IsEntry;
    ProperAt(s, b.records, e);
  }

  lemma LosesByFailure(s: Setting, e: Address, at: set<Address>, code: ErrorCode)
    requires IsCallable(s, e) && Analyzes(s, e, at, Err(code))
    ensures !IsLimit(code) ==> LosesAFunction(s, code)
  {
    hide IsCallable, Analyzes;
    assert !IsLimit(code) ==> IsLost(s, Err(code), code);
  }

  lemma ProcessFailureKeeps(s: Setting, b: Book, e: Address, code: ErrorCode, at: Knowledge)
    requires Sound(s, b, None) && e in b.records && b.records[e].status.Discovered?
    requires IsBasis(s, b.boundaries, at) && Analyzes(s, e, at.entries, Err(code))
    ensures Keeps(s, b, e, at.entries, Process(s, b, e, Err(code), at))
  {
    hide Sound, IsBasis, Moves, IsCallable, LosesAFunction, RecordIsProper, StepRunsOut;
    FailedIsProper(s, b, e);
    LosesByFailure(s, e, at.entries, code);
    if CfgBudgetDimension(code).Some? {
      LimitMakesRunOut(s, b, e, at.entries, code);
    } else if s.options.continueAfterFailure {
      var f := b.records[e].(status := Failed);
      ReplaceKeepsSound(s, b, e, f, at);
      ReplaceMoves(b, e, f, at);
    }
  }

  lemma ReplaceMoves(b: Book, e: Address, f: FunctionRecord, at: Knowledge)
    requires e in b.records && SameEvidence(b.records[e], f)
    ensures Moves(b, Replace(b, e, f, at), e) && Replace(b, e, f, at).records[e] == f
    ensures Changes(b, Replace(b, e, f, at), e)
  {
    assert Changes(b, Replace(b, e, f, at), e);
    ChangesMoves(b, Replace(b, e, f, at), e);
  }

  lemma LosesByGraph(s: Setting, e: Address, at: set<Address>, g: Graph)
    requires IsCallable(s, e) && GraphIsFrom(s, e, g, at) && !Ownable(g, s.input.executable)
    ensures LosesAFunction(s, OwnershipError(g))
  {
    hide IsCallable, GraphIsFrom, Ownable;
    assert Analyzes(s, e, at, Ok(g)) && IsLost(s, Ok(g), OwnershipError(g));
  }

  /** What is known of a graph that was stored at `e`. */
  ghost predicate IsStored(s: Setting, b: Book, c: Book, e: Address, g: Graph) {
    && Changes(b, c, e) && c.records[e] == Described(s, b.known, b.records[e], g)
    && c.records[e].status == (if Ownable(g, s.input.executable) then Analyzed else Failed)
    && (Ownable(g, s.input.executable) ==> c.records[e].directCalls == TargetsOf(g))
    && Sound(s, c, if Ownable(g, s.input.executable) then Some(e) else None)
  }

  lemma ReplaceChanges(b: Book, e: Address, f: FunctionRecord, at: Knowledge, usage: Usage)
    requires e in b.records && SameEvidence(b.records[e], f)
    ensures Changes(b, Replace(b.(usage := usage), e, f, at), e)
    ensures Replace(b.(usage := usage), e, f, at).basis == b.basis[e := at]
  {
  }

  lemma DescribedKeepsProper(s: Setting, b: Book, e: Address, g: Graph)
    requires Sound(s, b, None) && e in b.records
    ensures RecordIsProper(s, e, Described(s, b.known, b.records[e], g)) && Described(s, b.known, b.records[e], g).cfg == Some(g)
    ensures Described(s, b.known, b.records[e], g).status == if Ownable(g, s.input.executable) then Analyzed else Failed
    ensures Ownable(g, s.input.executable) ==> Described(s, b.known, b.records[e], g).directCalls == TargetsOf(g)
  {
    hide RecordIsProper, Described, Ownable, Recalled, CheckpointsCount, AllCallable, TargetsOf, Traced;
    ProperAt(s, b.records, e);
    DescribedIsProper(s, b.known, e, b.records[e], g);
  }

  lemma DescribedKeepsEvidence(s: Setting, known: set<Address>, f: FunctionRecord, g: Graph)
    ensures SameEvidence(f, Described(s, known, f, g))
  {
    hide Ownable, RangesOf, OwnedEntries, TargetsOf;
  }

  lemma StoreIsStored(s: Setting, b: Book, e: Address, g: Graph, at: Knowledge)
    requires Sound(s, b, None) && e in b.records && IsBasis(s, b.boundaries, at) && GraphIsFrom(s, e, g, at.entries)
    requires Ownable(g, s.input.executable) && e in b.checkpoints ==> at.count <= b.checkpoints[e]
    ensures
      var o := Store(s, b, e, g, at);
      && (o.Done? ==> IsStored(s, b, o.value, e, g) && o.value.basis == b.basis[e := at])
      && !o.Fault? && (o.OverBudget? ==> Exceeds(Consumed(b.usage, g), s.budgets, o.dimension))
  {
    hide *;
    DescribedKeepsProper(s, b, e, g);
    StoreKeepsSound(s, b, e, g, at);
    var o := Store(s, b, e, g, at);
    if o.Done? {
      DescribedKeepsEvidence(s, b.known, b.records[e], g);
      ReplaceChanges(b, e, Described(s, b.known, b.records[e], g), at, Consumed(b.usage, g));
      StoredIs(s, b, o.value, e, g);
    }
  }

  lemma StoredIs(s: Setting, b: Book, c: Book, e: Address, g: Graph)
    requires Changes(b, c, e) && c.records[e] == Described(s, b.known, b.records[e], g)
    requires c.records[e].status == (if Ownable(g, s.input.executable) then Analyzed else Failed)
    requires Ownable(g, s.input.executable) ==> c.records[e].directCalls == TargetsOf(g)
    requires Sound(s, c, if Ownable(g, s.input.executable) then Some(e) else None)
    ensures IsStored(s, b, c, e, g)
  {
    hide Changes, Described, Ownable, TargetsOf, Sound;
  }

  lemma RecordIsCallable(s: Setting, b: Book, e: Address)
    requires Sound(s, b, None) && e in b.records
    ensures IsCallable(s, e)
  {
    hide IsCallable;
    assert b.records[e] == b.records[e];
  }

  lemma ProcessGraphKeeps(s: Setting, b: Book, e: Address, g: Graph, at: Knowledge)
    requires IsFit(s) && Sound(s, b, None) && e in b.records && e !in b.checkpoints
    requires IsBasis(s, b.boundaries, at) && GraphIsFrom(s, e, g, at.entries)
    ensures Keeps(s, b, e, at.entries, Process(s, b, e, Ok(g), at))
  {
    hide Sound, GraphIsFrom, Ownable, IsFit, IsBasis, LosesAFunction, Changes, Moves, IsCallable, Store, AddCalls,
         StepRunsOut, Exceeds, TargetsOf, Described;
    StoreIsStored(s, b, e, g, at);
    RecordIsCallable(s, b, e);
    FirstAreKnown(s, b.boundaries, at);
    var stored := Store(s, b, e, g, at);
    if stored.OverBudget? {
      GraphMakesRunOut(s, b, e, g, at.entries, stored.dimension);
    } else if stored.Done? {
      ChangesMoves(b, stored.value, e);
      if Ownable(g, s.input.executable) {
        FollowingKeeps(s, b, stored.value, e, g, at.entries);
      } else {
        LosesByGraph(s, e, at.entries, g);
      }
    }
  }

  /** Every outcome of one function of a finalization pass keeps the invariant. */
  lemma ReworkKeeps(s: Setting, b: Book, e: Address, graph: Result<Graph>, at: Knowledge)
    requires IsFit(s) && Sound(s, b, None) && e in b.records
    requires IsBasis(s, b.boundaries, at) && Analyzes(s, e, at.entries, graph)
    ensures Keeps(s, b, e, at.entries, Rework(s, b, e, graph, at))
  {
    hide *;
    AnalyzesGraph(s, e, at.entries, graph);
    if graph.Ok? {
      ReworkGraphKeeps(s, b, e, graph.value, at);
    } else {
      ReworkFailureKeeps(s, b, e, graph.code, at);
    }
  }

  lemma SoundIsProper(s: Setting, b: Book)
    requires Sound(s, b, None)
    ensures Proper(s, b.records)
  {
  }

  lemma DroppedIsProper(s: Setting, b: Book, e: Address)
    requires Sound(s, b, None) && e in b.records
    ensures RecordIsProper(s, e, Dropped(b.records[e]))
  {
    SoundIsProper(s, b);
    hide Sound, Proper, RecordIsProper;
    ProperAt(s, b.records, e);
    DropKeepsProper(s, e, b.records[e]);
  }

  lemma DropKeepsProper(s: Setting, e: Address, f: FunctionRecord)
    requires RecordIsProper(s, e, f)
    ensures RecordIsProper(s, e, Dropped(f))
  {
    hide Ownable, ModuleInput.IsEntry, IsSeedEntry, WithCode, RangesOf;
  }

  lemma ReworkFailureKeeps(s: Setting, b: Book, e: Address, code: ErrorCode, at: Knowledge)
    requires Sound(s, b, None) && e in b.records
    requires IsBasis(s, b.boundaries, at) && Analyzes(s, e, at.entries, Err(code))
    ensures Keeps(s, b, e, at.entries, Rework(s, b, e, Err(code), at))
  {
    hide Sound, IsBasis, Moves, IsCallable, LosesAFunction, RecordIsProper, StepRunsOut;
    if CfgBudgetDimension(code).Some? {
      LimitMakesRunOut(s, b, e, at.entries, code);
    } else {
      var f := Dropped(b.records[e]);
      DroppedIsProper(s, b, e);
      ReplaceKeepsSound(s, b, e, f, at);
      ReplaceMoves(b, e, f, at);
    }
  }

  lemma ReworkGraphKeeps(s: Setting, b: Book, e: Address, g: Graph, at: Knowledge)
    requires IsFit(s) && Sound(s, b, None) && e in b.records
    requires IsBasis(s, b.boundaries, at) && GraphIsFrom(s, e, g, at.entries)
    ensures Keeps(s, b, e, at.entries, Rework(s, b, e, Ok(g), at))
  {
    hide *;
    if Ownable(g, s.input.executable) {
      CheckpointKeepsSound(s, b, e);
      ReworkOwnedKeeps(s, b, e, g, at);
    } else {
      ReworkUnownedKeeps(s, b, e, g, at);
    }
  }

  lemma ReworkUnownedKeeps(s: Setting, b: Book, e: Address, g: Graph, at: Knowledge)
    requires Sound(s, b, None) && e in b.records && !Ownable(g, s.input.executable)
    requires IsBasis(s, b.boundaries, at) && GraphIsFrom(s, e, g, at.entries)
    ensures Keeps(s, b, e, at.entries, Rework(s, b, e, Ok(g), at))
  {
    hide Sound, GraphIsFrom, Ownable, IsBasis, Changes, Moves, Store, StepRunsOut, Exceeds, Described, AddCalls, MayFault,
         TargetsOf;
    StoreIsStored(s, b, e, g, at);
    var stored := Store(s, b, e, g, at);
    if stored.OverBudget? {
      GraphMakesRunOut(s, b, e, g, at.entries, stored.dimension);
    } else {
      ChangesMoves(b, stored.value, e);
    }
  }

  lemma ReworkOwned(s: Setting, b: Book, e: Address, g: Graph, at: Knowledge)
    requires e in b.records && Ownable(g, s.input.executable) && RangesOf(g) != []
    ensures
      var stored := Store(s, WithCheckpoint(b, e), e, g, at);
      Rework(s, b, e, Ok(g), at) ==
      if stored.IsFailure() then stored else AddCalls(s, stored.value, TargetsOf(g))
  {
    hide Ownable, RangesOf, AddCalls, Overrun, OwnedEntries;
  }

  lemma ReworkOwnedKeeps(s: Setting, b: Book, e: Address, g: Graph, at: Knowledge)
    requires IsFit(s) && Sound(s, WithCheckpoint(b, e), None) && e in b.records && Ownable(g, s.input.executable)
    requires IsBasis(s, b.boundaries, at) && GraphIsFrom(s, e, g, at.entries)
    ensures Keeps(s, b, e, at.entries, Rework(s, b, e, Ok(g), at))
  {
    CodeIsDescribed(g);
    var c := WithCheckpoint(b, e);
    assert IsBasis(s, c.boundaries, at) && at.count <= c.checkpoints[e];
    assert c.records == b.records && c.known == b.known && c.usage == b.usage;
    hide *;
    StoreIsStored(s, c, e, g, at);
    FirstAreKnown(s, b.boundaries, at);
    ReworkOwned(s, b, e, g, at);
    var stored := Store(s, c, e, g, at);
    if stored.Done? {
      StoredAfterCheckpoint(s, b, stored.value, e, g);
      FollowingKeeps(s, b, stored.value, e, g, at.entries);
    } else {
      GraphMakesRunOut(s, b, e, g, at.entries, stored.dimension);
      KeepsIs(s, b, e, at.entries, stored);
    }
  }

  lemma StoredAfterCheckpoint(s: Setting, b: Book, c: Book, e: Address, g: Graph)
    requires e in b.records && IsStored(s, WithCheckpoint(b, e), c, e, g) && Ownable(g, s.input.executable)
    ensures Changes(b, c, e) && !c.records[e].status.Discovered? && c.records[e].directCalls == TargetsOf(g)
    ensures Sound(s, c, Some(e))
  {
    hide Sound, Described, Ownable, TargetsOf;
  }
}
