/** What the seeds say of a function: whether it cuts other functions short, and how much it is trusted. */
module Evidence {
  import opened Common
  import opened FunctionRecords
  import opened FunctionDiscovery

  /** An observed indirect target; or any seed but a guess that is manual, or of confirmed or high confidence. */
  ghost predicate IsStrong(seed: FunctionSeed) {
    || seed.source == ObservedIndirectTarget
    || (seed.source !in {TextStartCandidate, Heuristic}
        && (seed.source == ManualOverride || seed.confidence in {Manual, Confirmed, High}))
  }

  /** Low, medium, high, confirmed, manual, conflict. */
  ghost predicate IsWeaker(a: Confidence, b: Confidence) {
    match a
    case Low => b != Low
    case Medium => b !in {Low, Medium}
    case High => b in {Confirmed, Manual, ConflictConfidence}
    case Confirmed => b in {Manual, ConflictConfidence}
    case Manual => b == ConflictConfidence
    case ConflictConfidence => false
  }

  lemma StrongIsWorthy(seed: FunctionSeed)
    ensures seed.IsBoundaryWorthy() <==> IsStrong(seed)
  {
  }

  lemma RanksAre(a: Confidence, b: Confidence)
    ensures a.Rank() < b.Rank() <==> IsWeaker(a, b)
    ensures a.Rank() == b.Rank() <==> a == b
  {
  }

  /** The build includes the seed: it has no roots to start from, or the seed names one of them. */
  ghost predicate IsIncluded(options: BuildOptions, seed: FunctionSeed) {
    || options.closureRoots == None
    || seed.entry in options.closureRoots.value
    || (seed.canonicalEntry.Some? && seed.canonicalEntry.value in options.closureRoots.value)
  }

  /** The seed is for the function at `e`. */
  ghost predicate IsFor(seed: FunctionSeed, e: Address) {
    seed.canonicalEntry == Some(e) || (seed.canonicalEntry == None && seed.entry == e)
  }

  /** The `k`-th seed is included and is for the function at `e`. */
  ghost predicate SeedIsFor(s: Setting, k: int, e: Address) {
    0 <= k < |s.input.seeds| && IsIncluded(s.options, s.input.seeds[k]) && IsFor(s.input.seeds[k], e)
  }

  lemma IncludedIs(options: BuildOptions, seed: FunctionSeed)
    ensures options.Includes(seed) <==> IsIncluded(options, seed)
    ensures forall e :: seed.Canonical() == e <==> IsFor(seed, e)
  {
  }

  // The entries known before any analysis.

  /** The caller gives the entry: as a new one, or as a known one that is a root where there are roots. */
  ghost predicate IsPreset(options: BuildOptions, x: Address) {
    || x in options.newEntries
    || (x in options.cfg.knownEntries && (options.closureRoots == None || x in options.closureRoots.value))
  }

  /** The `k`-th seed is included and strong, and `x` is one of its entries. */
  ghost predicate IsStrongEntry(s: Setting, k: int, x: Address) {
    && 0 <= k < |s.input.seeds| && IsIncluded(s.options, s.input.seeds[k]) && IsStrong(s.input.seeds[k])
    && (x == s.input.seeds[k].entry || IsFor(s.input.seeds[k], x))
  }

  lemma {:induction false} SeededAre(s: Setting, n: nat, x: Address)
    requires n <= |s.input.seeds|
    ensures x in SeededEntries(s, n) <==> IsPreset(s.options, x) || exists k :: k < n && IsStrongEntry(s, k, x)
  {
    hide IsStrong, IsIncluded, IsFor, FunctionSeed.IsBoundaryWorthy, FunctionSeed.Canonical, BuildOptions.Includes;
    if n == 0 {
      NothingSeeded(s, x);
    } else {
      SeededAre(s, n - 1, x);
      StrongIsWorthy(s.input.seeds[n - 1]);
      IncludedIs(s.options, s.input.seeds[n - 1]);
      assert IsStrongEntry(s, n - 1, x) <==>
             && s.options.Includes(s.input.seeds[n - 1]) && s.input.seeds[n - 1].IsBoundaryWorthy()
             && x in {s.input.seeds[n - 1].Canonical(), s.input.seeds[n - 1].entry};
    }
  }

  lemma NothingSeeded(s: Setting, x: Address)
    ensures x in SeededEntries(s, 0) <==> IsPreset(s.options, x)
    ensures !exists k :: k < 0 && IsStrongEntry(s, k, x)
  {
  }

  /** The entries known from the start are those the caller gives and those of the strong seeds, and no others. */
  lemma FirstEntriesExactly(s: Setting, x: Address)
    ensures x in FirstEntries(s) <==> IsPreset(s.options, x) || exists k :: IsStrongEntry(s, k, x)
  {
    hide IsPreset, IsStrong, IsIncluded, IsFor, SeededEntries;
    SeededAre(s, |s.input.seeds|, x);
  }

  // The rating of a function.

  ghost predicate SameRating(f: FunctionRecord, source: Source, confidence: Confidence) {
    f.source == source && f.confidence == confidence
  }

  /** Of the first `n` seeds, the `k`-th is the strongest for the function at `e`, and the first as strong. */
  ghost predicate IsStrongest(s: Setting, n: nat, e: Address, k: int) {
    && k < n && SeedIsFor(s, k, e)
    && forall j {:trigger SeedIsFor(s, j, e)} :: j < n && SeedIsFor(s, j, e) && j != k ==>
         var a, b := s.input.seeds[j].confidence, s.input.seeds[k].confidence;
         IsWeaker(a, b) || (j > k && a == b)
  }

  /** A strong seed, of the first `n`, is for the function at `e`. */
  ghost predicate HasStrongSeed(s: Setting, n: nat, e: Address) {
    exists k {:trigger SeedIsFor(s, k, e)} :: k < n && SeedIsFor(s, k, e) && IsStrong(s.input.seeds[k])
  }

  /** The function is rated as the first n seeds say. */
  ghost predicate IsRatedBySeeds(s: Setting, n: nat, e: Address, f: FunctionRecord) {
    && (exists k :: IsStrongest(s, n, e, k) && SameRating(f, s.input.seeds[k].source, s.input.seeds[k].confidence))
    && f.trust == if HasStrongSeed(s, n, e) then Trusted else Candidate
  }

  ghost predicate AllRatedBySeeds(s: Setting, n: nat, records: map<Address, FunctionRecord>) {
    forall e {:trigger records[e]} :: e in records ==> IsRatedBySeeds(s, n, e, records[e])
  }

  /** No seed, of the first `n`, is for a function that is not recorded. */
  ghost predicate OthersHaveNoSeed(s: Setting, n: nat, records: map<Address, FunctionRecord>) {
    forall k, e {:trigger SeedIsFor(s, k, e)} :: k < n && SeedIsFor(s, k, e) ==> e in records
  }

  lemma RatingStays(s: Setting, n: nat, e: Address, f: FunctionRecord)
    requires n < |s.input.seeds| && !SeedIsFor(s, n, e) && IsRatedBySeeds(s, n, e, f)
    ensures IsRatedBySeeds(s, n + 1, e, f)
  {
    hide IsWeaker, IsStrong, IsIncluded, IsFor;
    var k :| IsStrongest(s, n, e, k) && SameRating(f, s.input.seeds[k].source, s.input.seeds[k].confidence);
    assert IsStrongest(s, n + 1, e, k);
    if HasStrongSeed(s, n + 1, e) {
      var j :| j < n + 1 && SeedIsFor(s, j, e) && IsStrong(s.input.seeds[j]);
      assert j < n && HasStrongSeed(s, n, e);
    }
  }

  /** One more seed: what it adds to a function that is recorded. */
  lemma RatingGrows(s: Setting, n: nat, e: Address, f: FunctionRecord)
    requires n < |s.input.seeds| && SeedIsFor(s, n, e) && IsRatedBySeeds(s, n, e, f)
    ensures IsRatedBySeeds(s, n + 1, e, AddEvidence(f, s.input.seeds[n]))
  {
    var seed := s.input.seeds[n];
    var k :| IsStrongest(s, n, e, k) && SameRating(f, s.input.seeds[k].source, s.input.seeds[k].confidence);
    StrongIsWorthy(seed);
    RanksAre(f.confidence, seed.confidence);
    WeakerIsOrder(f.confidence, seed.confidence);
    hide IsStrong, IsIncluded, IsFor, FunctionSeed.IsBoundaryWorthy, Confidence.Rank, IsWeaker;
    if IsWeaker(f.confidence, seed.confidence) {
      forall j | j < n + 1 && SeedIsFor(s, j, e) && j != n
        ensures IsWeaker(s.input.seeds[j].confidence, seed.confidence)
      {
        WeakerThanBoth(s.input.seeds[j].confidence, f.confidence, seed.confidence);
      }
      assert IsStrongest(s, n + 1, e, n);
    } else {
      assert IsStrongest(s, n + 1, e, k);
    }
    StrongOneMore(s, n, e);
  }

  lemma WeakerIsOrder(a: Confidence, b: Confidence)
    ensures IsWeaker(a, b) || IsWeaker(b, a) || a == b
    ensures !(IsWeaker(a, b) && IsWeaker(b, a)) && !IsWeaker(a, a)
  {
  }

  lemma WeakerThanBoth(a: Confidence, b: Confidence, c: Confidence)
    requires (IsWeaker(a, b) || a == b) && IsWeaker(b, c)
    ensures IsWeaker(a, c)
  {
  }

  lemma StrongOneMore(s: Setting, n: nat, e: Address)
    requires n < |s.input.seeds| && SeedIsFor(s, n, e)
    ensures HasStrongSeed(s, n + 1, e) <==> HasStrongSeed(s, n, e) || IsStrong(s.input.seeds[n])
  {
    hide IsStrong, IsIncluded, IsFor;
    if k :| k < n && SeedIsFor(s, k, e) && IsStrong(s.input.seeds[k]) {
      assert k < n + 1;
    }
  }

  /** One more seed: the function it makes when it is the first one for it. */
  lemma RatingBegins(s: Setting, n: nat, e: Address)
    requires n < |s.input.seeds| && SeedIsFor(s, n, e) && forall k :: k < n ==> !SeedIsFor(s, k, e)
    ensures IsRatedBySeeds(s, n + 1, e, AddEvidence(NewRecord(s.input.seeds[n]), s.input.seeds[n]))
  {
    var seed := s.input.seeds[n];
    StrongIsWorthy(seed);
    hide IsStrong, IsIncluded, IsFor, FunctionSeed.IsBoundaryWorthy, Confidence.Rank, FunctionSeed.Canonical;
    assert IsStrongest(s, n + 1, e, n);
    if HasStrongSeed(s, n + 1, e) {
      var k :| k < n + 1 && SeedIsFor(s, k, e) && IsStrong(s.input.seeds[k]);
      assert k == n;
    }
  }

  // What direct calls add.

  /** The strongest seed of the function is at least as strong as a call. */
  ghost predicate IsRatedHigh(s: Setting, e: Address) {
    exists k :: IsStrongest(s, |s.input.seeds|, e, k) && s.input.seeds[k].confidence !in {Low, Medium}
  }

  /** A call has rated the function: as its target, unless a seed rates it at least as high. */
  ghost predicate IsRatedAsCalled(s: Setting, known: set<Address>, e: Address, f: FunctionRecord) {
    && e in known && f.trust == Trusted
    && if IsRatedHigh(s, e)
       then exists k :: IsStrongest(s, |s.input.seeds|, e, k) && s.input.seeds[k].confidence !in {Low, Medium}
                        && SameRating(f, s.input.seeds[k].source, s.input.seeds[k].confidence)
       else SameRating(f, DirectCallSource, High)
  }

  ghost predicate IsRated(s: Setting, known: set<Address>, e: Address, f: FunctionRecord) {
    IsRatedBySeeds(s, |s.input.seeds|, e, f) || IsRatedAsCalled(s, known, e, f)
  }

  lemma StrongestIsOne(s: Setting, n: nat, e: Address, j: int, k: int)
    requires IsStrongest(s, n, e, j) && IsStrongest(s, n, e, k)
    ensures j == k
  {
    if j != k {
      WeakerIsOrder(s.input.seeds[j].confidence, s.input.seeds[k].confidence);
    }
  }

  /** A rating says which seed it comes from, when it is high. */
  lemma HighRatingHasSeed(s: Setting, known: set<Address>, e: Address, f: FunctionRecord)
    requires IsRated(s, known, e, f) && f.confidence !in {Low, Medium} && e in known
    ensures forall g: FunctionRecord :: SameRating(g, f.source, f.confidence) && g.trust == Trusted ==>
              IsRatedAsCalled(s, known, e, g) || IsRatedBySeeds(s, |s.input.seeds|, e, g)
  {
    hide IsWeaker, IsStrong, SeedIsFor, IsStrongest, HasStrongSeed;
  }

  /** A call changes a low rating only. */
  lemma LowRatingHasNoHighSeed(s: Setting, known: set<Address>, e: Address, f: FunctionRecord)
    requires IsRated(s, known, e, f) && f.confidence in {Low, Medium}
    ensures !IsRatedHigh(s, e)
  {
    hide IsWeaker, IsStrong, HasStrongSeed;
    if j :| IsStrongest(s, |s.input.seeds|, e, j) && s.input.seeds[j].confidence !in {Low, Medium} {
      if k :| IsStrongest(s, |s.input.seeds|, e, k) && SameRating(f, s.input.seeds[k].source, s.input.seeds[k].confidence) {
        StrongestIsOne(s, |s.input.seeds|, e, j, k);
      }
    }
  }

  lemma UnseededIsUnrated(s: Setting, e: Address)
    requires forall k :: !SeedIsFor(s, k, e)
    ensures !IsRatedHigh(s, e)
  {
    hide IsWeaker;
  }

  lemma RatingKnowsMore(s: Setting, known: set<Address>, more: set<Address>, e: Address, f: FunctionRecord, g: FunctionRecord)
    requires IsRated(s, known, e, f) && known <= more
    requires f.source == g.source && f.confidence == g.confidence && f.trust == g.trust
    ensures IsRated(s, more, e, g)
  {
    hide IsStrongest, HasStrongSeed;
  }

  /** The strong seeds of a rated function show in its trust. */
  lemma StrongIsTrusted(s: Setting, known: set<Address>, k: int, e: Address, f: FunctionRecord)
    requires IsRated(s, known, e, f) && SeedIsFor(s, k, e) && IsStrong(s.input.seeds[k])
    ensures f.trust == Trusted
  {
    hide IsStrongest, IsIncluded, IsFor, IsStrong;
  }
}
