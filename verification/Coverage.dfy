/** The parallel coverage scan of a range of code, and its ordered merge. */
module Coverage {
  import opened Arithmetic
  import opened Common
  import opened Names
  import opened Sorting

  /** What fetching and decoding one instruction word gives: its name, and whether it can be lifted. */
  datatype Word = Undecodable | Decodable(name: string, liftable: bool)

  datatype OpcodeCount = OpcodeCount(opcode: string, count: nat)

  datatype WorkerReport = WorkerReport(
    decoded: nat,
    liftable: nat,
    unsupported: nat,
    failures: nat,
    frequency: map<string, nat>,
    unsupportedFrequency: map<string, nat>,
    first: seq<nat>)

  datatype CoverageReport = CoverageReport(
    base: uint64,
    size: uint64,
    decoded: nat,
    liftable: nat,
    unsupported: nat,
    failures: nat,
    frequency: seq<OpcodeCount>,
    unsupportedFrequency: seq<OpcodeCount>,
    first: seq<Address>)

  // What a scan has to find out about a piece of code: the counts, and where the unsupported words are.

  datatype Summary = Summary(
    decoded: nat,
    liftable: nat,
    unsupported: nat,
    failures: nat,
    names: multiset<string>,
    unsupportedNames: multiset<string>)
  {
    function Add(s: Summary): Summary {
      Summary(decoded + s.decoded, liftable + s.liftable, unsupported + s.unsupported, failures + s.failures,
              names + s.names, unsupportedNames + s.unsupportedNames)
    }
  }

  const NOTHING := Summary(0, 0, 0, 0, multiset{}, multiset{})

  function OfWord(w: Word): Summary {
    match w
    case Undecodable => Summary(0, 0, 0, 1, multiset{}, multiset{})
    case Decodable(name, true) => Summary(1, 1, 0, 0, multiset{name}, multiset{})
    case Decodable(name, false) => Summary(1, 0, 1, 0, multiset{name}, multiset{name})
  }

  function OfIndex(w: Word, index: nat): seq<nat> {
    if w.Decodable? && !w.liftable then [index] else []
  }

  /** The summary of the words with indices from `lo` up to `hi`. */
  function Summarize(code: seq<Word>, lo: nat, hi: nat): Summary
    requires lo <= hi <= |code|
    decreases hi
  {
    if lo == hi then NOTHING else Summarize(code, lo, hi - 1).Add(OfWord(code[hi - 1]))
  }

  /** The indices of the unsupported words from `lo` up to `hi`. */
  function Unsupported(code: seq<Word>, lo: nat, hi: nat): seq<nat>
    requires lo <= hi <= |code|
    decreases hi
  {
    if lo == hi then [] else Unsupported(code, lo, hi - 1) + OfIndex(code[hi - 1], hi - 1)
  }

  lemma AddAssociates(a: Summary, b: Summary, c: Summary)
    ensures a.Add(b).Add(c) == a.Add(b.Add(c))
  {
  }

  lemma AddNothing(a: Summary)
    ensures a.Add(NOTHING) == a
  {
    assert a.names + multiset{} == a.names && a.unsupportedNames + multiset{} == a.unsupportedNames;
  }

  /** The summary of adjacent pieces is the sum of their summaries. */
  lemma {:induction false} SummarizeSplits(code: seq<Word>, lo: nat, mid: nat, hi: nat)
    requires lo <= mid <= hi <= |code|
    ensures Summarize(code, lo, hi) == Summarize(code, lo, mid).Add(Summarize(code, mid, hi))
    decreases hi
  {
    if mid == hi {
      AddNothing(Summarize(code, lo, mid));
    } else {
      SummarizeSplits(code, lo, mid, hi - 1);
      AddAssociates(Summarize(code, lo, mid), Summarize(code, mid, hi - 1), OfWord(code[hi - 1]));
    }
  }

  lemma {:induction false} UnsupportedSplits(code: seq<Word>, lo: nat, mid: nat, hi: nat)
    requires lo <= mid <= hi <= |code|
    ensures Unsupported(code, lo, hi) == Unsupported(code, lo, mid) + Unsupported(code, mid, hi)
    decreases hi
  {
    if mid < hi {
      UnsupportedSplits(code, lo, mid, hi - 1);
      AppendAssociates(Unsupported(code, lo, mid), Unsupported(code, mid, hi - 1), OfIndex(code[hi - 1], hi - 1));
    }
  }

  lemma AppendAssociates(a: seq<nat>, b: seq<nat>, c: seq<nat>)
    ensures a + b + c == a + (b + c)
  {
  }

  /** Words are decoded or not, decoded words are liftable or not, and each is counted under one name. */
  ghost predicate Balanced(s: Summary, words: int) {
    && s.decoded + s.failures == words && s.liftable + s.unsupported == s.decoded
    && |s.names| == s.decoded && |s.unsupportedNames| == s.unsupported
  }

  lemma StaysBalanced(s: Summary, words: int, w: Word)
    requires Balanced(s, words)
    ensures Balanced(s.Add(OfWord(w)), words + 1)
  {
  }

  lemma {:induction false} SummaryBalances(code: seq<Word>, lo: nat, hi: nat)
    requires lo <= hi <= |code|
    ensures Balanced(Summarize(code, lo, hi), hi - lo)
    decreases hi
  {
    if lo < hi {
      SummaryBalances(code, lo, hi - 1);
      StaysBalanced(Summarize(code, lo, hi - 1), hi - lo - 1, code[hi - 1]);
    }
  }

  lemma {:induction false} UnsupportedAreCounted(code: seq<Word>, lo: nat, hi: nat)
    requires lo <= hi <= |code|
    ensures |Unsupported(code, lo, hi)| == Summarize(code, lo, hi).unsupported
    decreases hi
  {
    if lo < hi {
      UnsupportedAreCounted(code, lo, hi - 1);
    }
  }

  ghost predicate UnsupportedAt(code: seq<Word>, k: int) {
    0 <= k < |code| && code[k].Decodable? && !code[k].liftable
  }

  ghost predicate ListsUnsupported(code: seq<Word>, lo: nat, hi: nat, s: seq<nat>) {
    && (forall i, j :: 0 <= i < j < |s| ==> s[i] < s[j])
    && (forall k :: k in s <==> lo <= k < hi && UnsupportedAt(code, k))
  }

  lemma ListNext(code: seq<Word>, lo: nat, hi: nat, s: seq<nat>)
    requires lo <= hi < |code| && ListsUnsupported(code, lo, hi, s)
    ensures ListsUnsupported(code, lo, hi + 1, s + OfIndex(code[hi], hi))
  {
    var t := OfIndex(code[hi], hi);
    forall i | 0 <= i < |s|
      ensures s[i] < hi
    {
      assert s[i] in s;
    }
    forall k
      ensures k in s + t <==> lo <= k < hi + 1 && UnsupportedAt(code, k)
    {
      assert k in t <==> k == hi && UnsupportedAt(code, k);
    }
  }

  /** The unsupported words, and nothing else, are listed by increasing index. */
  lemma {:induction false} IndicesAreRight(code: seq<Word>, lo: nat, hi: nat)
    requires lo <= hi <= |code|
    ensures ListsUnsupported(code, lo, hi, Unsupported(code, lo, hi))
    decreases hi
  {
    if lo < hi {
      IndicesAreRight(code, lo, hi - 1);
      ListNext(code, lo, hi - 1, Unsupported(code, lo, hi - 1));
    }
  }

  // How a worker stores a summary.

  /** The map counts the names in the multiset, and has no other keys. */
  ghost predicate CountsOf(f: map<string, nat>, m: multiset<string>) {
    forall x :: (x in f <==> m[x] > 0) && (x in f ==> f[x] == m[x])
  }

  function FirstFew(s: seq<nat>): seq<nat> { if |s| <= 16 then s else s[..16] }

  ghost predicate CountsMatch(r: WorkerReport, s: Summary) {
    && r.decoded == s.decoded && r.liftable == s.liftable && r.unsupported == s.unsupported && r.failures == s.failures
    && CountsOf(r.frequency, s.names) && CountsOf(r.unsupportedFrequency, s.unsupportedNames)
  }

  ghost predicate Reports(r: WorkerReport, s: Summary, indices: seq<nat>) {
    CountsMatch(r, s) && r.first == FirstFew(indices)
  }

  function Bump(f: map<string, nat>, name: string): map<string, nat> {
    f[name := if name in f then f[name] + 1 else 1]
  }

  lemma BumpCounts(f: map<string, nat>, m: multiset<string>, name: string)
    requires CountsOf(f, m)
    ensures CountsOf(Bump(f, name), m + multiset{name})
  {
  }

  /** The report after one more word. */
  function AfterWord(r: WorkerReport, w: Word, index: nat): WorkerReport {
    match w
    case Undecodable => r.(failures := r.failures + 1)
    case Decodable(name, liftable) =>
      var counted := r.(decoded := r.decoded + 1, frequency := Bump(r.frequency, name));
      if liftable then counted.(liftable := r.liftable + 1)
      else counted.(unsupported := r.unsupported + 1,
                    unsupportedFrequency := Bump(r.unsupportedFrequency, name),
                    first := if |r.first| < 16 then r.first + [index] else r.first)
  }

  lemma AfterUndecodable(r: WorkerReport, s: Summary, index: nat)
    requires CountsMatch(r, s)
    ensures CountsMatch(AfterWord(r, Undecodable, index), s.Add(OfWord(Undecodable)))
  {
    SameCounts(r.frequency, s.names);
    SameCounts(r.unsupportedFrequency, s.unsupportedNames);
  }

  lemma AfterLiftable(r: WorkerReport, s: Summary, name: string, index: nat)
    requires CountsMatch(r, s)
    ensures CountsMatch(AfterWord(r, Decodable(name, true), index), s.Add(OfWord(Decodable(name, true))))
  {
    BumpCounts(r.frequency, s.names, name);
    SameCounts(r.unsupportedFrequency, s.unsupportedNames);
  }

  lemma AfterUnsupported(r: WorkerReport, s: Summary, name: string, index: nat)
    requires CountsMatch(r, s)
    ensures CountsMatch(AfterWord(r, Decodable(name, false), index), s.Add(OfWord(Decodable(name, false))))
  {
    BumpCounts(r.frequency, s.names, name);
    BumpCounts(r.unsupportedFrequency, s.unsupportedNames, name);
  }

  lemma AfterWordReports(r: WorkerReport, s: Summary, indices: seq<nat>, w: Word, index: nat)
    requires Reports(r, s, indices)
    ensures Reports(AfterWord(r, w, index), s.Add(OfWord(w)), indices + OfIndex(w, index))
  {
    FirstOfNext(indices, w, index);
    match w
    case Undecodable =>
      AfterUndecodable(r, s, index);
    case Decodable(name, true) =>
      AfterLiftable(r, s, name, index);
    case Decodable(name, false) =>
      AfterUnsupported(r, s, name, index);
  }

  lemma SameCounts(f: map<string, nat>, m: multiset<string>)
    requires CountsOf(f, m)
    ensures CountsOf(f, m + multiset{})
  {
    assert m + multiset{} == m;
  }

  lemma FirstOfNext(indices: seq<nat>, w: Word, index: nat)
    ensures FirstFew(indices + OfIndex(w, index)) ==
            if w.Decodable? && !w.liftable && |FirstFew(indices)| < 16 then FirstFew(indices) + [index]
            else FirstFew(indices)
  {
  }

  // Chunks.

  /** The first index of a worker's chunk: the quotient each, and one more for the first few workers. */
  function ChunkBegin(n: nat, workers: nat, worker: nat): nat
    requires workers > 0
  {
    worker * (n / workers) + if worker < n % workers then worker else n % workers
  }

  lemma ChunkGrows(n: nat, workers: nat, worker: nat)
    requires workers > 0
    ensures ChunkBegin(n, workers, worker + 1) ==
            ChunkBegin(n, workers, worker) + n / workers + if worker < n % workers then 1 else 0
  {
    Distributes(worker, 1, n / workers);
  }

  lemma {:induction false} ChunksEndInOrder(n: nat, workers: nat, worker: nat)
    requires worker <= workers && workers > 0
    ensures ChunkBegin(n, workers, 0) == 0 && ChunkBegin(n, workers, workers) == n
    ensures ChunkBegin(n, workers, worker) <= n
    decreases workers - worker
  {
    if worker < workers {
      ChunkGrows(n, workers, worker);
      ChunksEndInOrder(n, workers, worker + 1);
    } else {
      assert n == workers * (n / workers) + n % workers;
    }
  }

  lemma ChunkEnds(n: nat, workers: nat, worker: nat)
    requires worker < workers
    ensures ChunkBegin(n, workers, worker) + n / workers + (if worker < n % workers then 1 else 0)
            == ChunkBegin(n, workers, worker + 1) <= n
  {
    ChunkGrows(n, workers, worker);
    ChunksEndInOrder(n, workers, worker + 1);
  }

  /** Every index belongs to exactly one worker. */
  lemma {:induction false} ChunksPartition(n: nat, workers: nat, k: nat, index: nat) returns (worker: nat)
    requires workers > 0 && k <= workers && index < ChunkBegin(n, workers, k)
    ensures worker < k && ChunkBegin(n, workers, worker) <= index < ChunkBegin(n, workers, worker + 1)
    ensures forall other: nat ::
              ChunkBegin(n, workers, other) <= index < ChunkBegin(n, workers, other + 1) ==> other == worker
  {
    ChunksEndInOrder(n, workers, 0);
    ChunkGrows(n, workers, k - 1);
    if index < ChunkBegin(n, workers, k - 1) {
      worker := ChunksPartition(n, workers, k - 1, index);
    } else {
      worker := k - 1;
      forall other: nat | ChunkBegin(n, workers, other) <= index < ChunkBegin(n, workers, other + 1)
        ensures other == worker
      {
        if other < worker {
          ChunksAreOrdered(n, workers, other + 1, worker);
        } else if worker < other {
          ChunksAreOrdered(n, workers, worker + 1, other);
        }
      }
    }
  }

  lemma {:induction false} ChunksAreOrdered(n: nat, workers: nat, i: nat, j: nat)
    requires workers > 0 && i <= j
    ensures ChunkBegin(n, workers, i) <= ChunkBegin(n, workers, j)
    decreases j - i
  {
    if i < j {
      ChunkGrows(n, workers, i);
      ChunksAreOrdered(n, workers, i + 1, j);
    }
  }

  ghost predicate ChunkReported(code: seq<Word>, begin: nat, end: nat, r: WorkerReport) {
    begin <= end <= |code| && Reports(r, Summarize(code, begin, end), Unsupported(code, begin, end))
  }

  lemma OneMoreWord(code: seq<Word>, begin: nat, index: nat, r: WorkerReport)
    requires ChunkReported(code, begin, index, r) && index < |code|
    ensures ChunkReported(code, begin, index + 1, AfterWord(r, code[index], index))
  {
    AfterWordReports(r, Summarize(code, begin, index), Unsupported(code, begin, index), code[index], index);
  }

  /** The worker loop of `scan_range`. */
  method ScanChunk(code: seq<Word>, begin: nat, end: nat) returns (r: WorkerReport)
    requires begin <= end <= |code|
    ensures ChunkReported(code, begin, end, r)
  {
    r := WorkerReport(0, 0, 0, 0, map[], map[], []);
    for index := begin to end
      invariant ChunkReported(code, begin, index, r)
    {
      OneMoreWord(code, begin, index, r);
      r := AfterWord(r, code[index], index);
    }
  }

  /** `scan_range`: the chunk of one worker. */
  method ScanRange(code: seq<Word>, workers: nat, worker: nat) returns (r: WorkerReport)
    requires worker < workers
    ensures ChunkReported(code, ChunkBegin(|code|, workers, worker), ChunkBegin(|code|, workers, worker + 1), r)
  {
    var quotient, remainder := |code| / workers, |code| % workers;
    var begin := ChunkBegin(|code|, workers, worker);
    var end := begin + quotient + if worker < remainder then 1 else 0;
    ChunkEnds(|code|, workers, worker);
    r := ScanChunk(code, begin, end);
  }

  // The ordered merge.

  lemma FirstFewOfBoth(a: seq<nat>, b: seq<nat>)
    ensures FirstFew(FirstFew(a) + FirstFew(b)) == FirstFew(a + b)
  {
  }

  /** Adds one worker's counts to the process-wide ones, key by key. */
  method MergeCounts(f: map<string, nat>, g: map<string, nat>, ghost m: multiset<string>, ghost n: multiset<string>)
    returns (r: map<string, nat>)
    requires CountsOf(f, m) && CountsOf(g, n)
    ensures CountsOf(r, m + n)
  {
    r := f;
    var remaining := g.Keys;
    while remaining != {}
      invariant remaining <= g.Keys
      invariant forall x :: x in remaining ==> (x in r <==> x in f) && (x in r ==> r[x] == f[x])
      invariant forall x :: x !in remaining ==> (x in r <==> (m + n)[x] > 0) && (x in r ==> r[x] == (m + n)[x])
      decreases remaining
    {
      var x :| x in remaining;
      r := r[x := (if x in r then r[x] else 0) + g[x]];
      remaining := remaining - {x};
    }
  }

  /** Appends to the list of first indices until it is full. */
  method MergeFirst(first: seq<nat>, more: seq<nat>) returns (r: seq<nat>)
    requires |first| <= 16
    ensures r == FirstFew(first + more)
  {
    r := first;
    for k := 0 to |more|
      invariant r == FirstFew(first + more[..k])
    {
      if |r| == 16 {
        assert (first + more)[..16] == (first + more[..k])[..16];
        return;
      }
      assert first + more[..k + 1] == first + more[..k] + [more[k]];
      r := r + [more[k]];
    }
    assert more[..|more|] == more;
  }

  /** One worker's report joins those of the workers before it. */
  method MergeReport(sum: WorkerReport, r: WorkerReport, ghost s: Summary, ghost t: Summary,
                     ghost before: seq<nat>, ghost more: seq<nat>)
    returns (merged: WorkerReport)
    requires Reports(sum, s, before) && Reports(r, t, more)
    ensures Reports(merged, s.Add(t), before + more)
  {
    var frequency := MergeCounts(sum.frequency, r.frequency, s.names, t.names);
    var unsupportedFrequency := MergeCounts(sum.unsupportedFrequency, r.unsupportedFrequency,
                                            s.unsupportedNames, t.unsupportedNames);
    var first := MergeFirst(sum.first, r.first);
    FirstFewOfBoth(before, more);
    return WorkerReport(sum.decoded + r.decoded, sum.liftable + r.liftable, sum.unsupported + r.unsupported,
                        sum.failures + r.failures, frequency, unsupportedFrequency, first);
  }

  method MergeChunk(code: seq<Word>, ghost begin: nat, ghost end: nat, sum: WorkerReport, r: WorkerReport)
    returns (merged: WorkerReport)
    requires ChunkReported(code, 0, begin, sum) && ChunkReported(code, begin, end, r)
    ensures ChunkReported(code, 0, end, merged)
  {
    SummarizeSplits(code, 0, begin, end);
    UnsupportedSplits(code, 0, begin, end);
    merged := MergeReport(sum, r, Summarize(code, 0, begin), Summarize(code, begin, end),
                          Unsupported(code, 0, begin), Unsupported(code, begin, end));
  }

  /** All workers, each on its own, and their reports merged in worker order. */
  method ScanAll(code: seq<Word>, workers: nat) returns (merged: WorkerReport)
    requires workers > 0
    ensures ChunkReported(code, 0, |code|, merged)
  {
    var reports: seq<WorkerReport> := [];
    for worker := 0 to workers
      invariant |reports| == worker
      invariant forall k :: 0 <= k < worker ==>
                  ChunkReported(code, ChunkBegin(|code|, workers, k), ChunkBegin(|code|, workers, k + 1), reports[k])
    {
      var r := ScanRange(code, workers, worker);
      reports := reports + [r];
    }
    merged := WorkerReport(0, 0, 0, 0, map[], map[], []);
    ChunksEndInOrder(|code|, workers, 0);
    for worker := 0 to workers
      invariant ChunkReported(code, 0, ChunkBegin(|code|, workers, worker), merged)
    {
      merged := MergeChunk(code, ChunkBegin(|code|, workers, worker), ChunkBegin(|code|, workers, worker + 1),
                           merged, reports[worker]);
    }
  }

  // The report.

  predicate CountLeq(a: OpcodeCount, b: OpcodeCount) {
    a.count > b.count || (a.count == b.count && NameLeq(a.opcode, b.opcode))
  }

  lemma CountsAreTotal()
    ensures TotalPreorder(CountLeq)
  {
    forall a: OpcodeCount, b: OpcodeCount
      ensures CountLeq(a, b) || CountLeq(b, a)
    {
      NamesAreTotal(a.opcode, b.opcode);
    }
    forall a: OpcodeCount, b: OpcodeCount, c: OpcodeCount | CountLeq(a, b) && CountLeq(b, c)
      ensures CountLeq(a, c)
    {
      if a.count == b.count == c.count {
        NamesAreTransitive(a.opcode, b.opcode, c.opcode);
      }
    }
  }

  lemma CountsAreAntisymmetric(a: OpcodeCount, b: OpcodeCount)
    requires CountLeq(a, b) && CountLeq(b, a)
    ensures a == b
  {
    NamesAreTotal(a.opcode, b.opcode);
  }

  ghost predicate InCountOrder(l: seq<OpcodeCount>) {
    forall i, j :: 0 <= i < j < |l| ==> CountLeq(l[i], l[j]) && l[i] != l[j]
  }

  /** The opcodes by falling count, each with its exact count. */
  ghost predicate IsFrequencyList(l: seq<OpcodeCount>, m: multiset<string>) {
    && InCountOrder(l)
    && forall e :: e in l <==> m[e.opcode] > 0 && e.count == m[e.opcode]
  }

  lemma {:induction false} OneOrder(a: seq<OpcodeCount>, b: seq<OpcodeCount>)
    requires InCountOrder(a) && InCountOrder(b) && forall e :: e in a <==> e in b
    ensures a == b
  {
    if a != [] {
      NotEmpty(a, b);
    }
    if b != [] {
      NotEmpty(b, a);
      SameHead(a, b);
      forall e
        ensures e in a[1..] <==> e in b[1..]
      {
        TailElements(a, e);
        TailElements(b, e);
      }
      OneOrder(a[1..], b[1..]);
      assert a == [a[0]] + a[1..] && b == [b[0]] + b[1..];
    }
  }

  lemma NotEmpty(a: seq<OpcodeCount>, b: seq<OpcodeCount>)
    requires a != [] && forall e :: e in a <==> e in b
    ensures b != []
  {
    assert a[0] in b;
  }

  lemma SameHead(a: seq<OpcodeCount>, b: seq<OpcodeCount>)
    requires InCountOrder(a) && InCountOrder(b) && a != [] && b != []
    requires forall e :: e in a <==> e in b
    ensures a[0] == b[0]
  {
    assert a[0] in b && b[0] in a;
    var i :| 0 <= i < |a| && a[i] == b[0];
    var j :| 0 <= j < |b| && b[j] == a[0];
    if i > 0 && j > 0 {
      assert CountLeq(a[0], a[i]) && CountLeq(b[0], b[j]);
      CountsAreAntisymmetric(a[0], b[0]);
    }
  }

  lemma TailElements(a: seq<OpcodeCount>, e: OpcodeCount)
    requires InCountOrder(a) && a != []
    ensures e in a[1..] <==> e in a && e != a[0]
  {
    if e in a[1..] {
      var i :| 0 <= i < |a| - 1 && a[1..][i] == e;
      assert a[i + 1] == e;
    }
    if e in a && e != a[0] {
      var i :| 0 <= i < |a| && a[i] == e;
      assert a[1..][i - 1] == e;
    }
  }

  function SortCounts(l: seq<OpcodeCount>): (s: seq<OpcodeCount>)
    ensures forall i, j :: 0 <= i < j < |s| ==> CountLeq(s[i], s[j])
    ensures multiset(s) == multiset(l)
  {
    CountsAreTotal();
    SortIsSorted(l, CountLeq);
    Sort(l, CountLeq)
  }

  /** The sorted list of a map's counts. */
  method ListCounts(f: map<string, nat>, ghost m: multiset<string>) returns (l: seq<OpcodeCount>)
    requires CountsOf(f, m)
    ensures IsFrequencyList(l, m)
  {
    var unsorted: seq<OpcodeCount> := [];
    var remaining := f.Keys;
    while remaining != {}
      invariant remaining <= f.Keys
      invariant forall e :: e in unsorted <==> e.opcode in f && e.opcode !in remaining && e.count == f[e.opcode]
      invariant Distinct(unsorted)
      decreases remaining
    {
      var x :| x in remaining;
      unsorted := unsorted + [OpcodeCount(x, f[x])];
      remaining := remaining - {x};
    }
    l := SortCounts(unsorted);
    SameElements(l, unsorted);
    StaysDistinct(unsorted, l);
  }

  function ToAddresses(base: uint64, indices: seq<nat>): seq<Address> {
    if indices == [] then [] else ToAddresses(base, indices[..|indices| - 1]) + [base + 4 * indices[|indices| - 1]]
  }

  /** The report the code calls for; nothing in it depends on how the work was divided. */
  ghost predicate IsCoverage(code: seq<Word>, base: uint64, size: uint64, r: CoverageReport) {
    var s := Summarize(code, 0, |code|);
    && r.base == base && r.size == size
    && r.decoded == s.decoded && r.liftable == s.liftable && r.unsupported == s.unsupported && r.failures == s.failures
    && IsFrequencyList(r.frequency, s.names) && IsFrequencyList(r.unsupportedFrequency, s.unsupportedNames)
    && r.first == ToAddresses(base, FirstFew(Unsupported(code, 0, |code|)))
  }

  /** The code of a refusal: earlier objections come first. */
  ghost predicate IsScanError(executable: Result<bool>, base: uint64, size: uint64, maxInstructions: nat, code: ErrorCode) {
    if base % 4 != 0 || size % 4 != 0 || size == 0 then code == InvalidArgument
    else if base + size >= TWO64 then code == ArithmeticOverflow
    else if executable.Err? then code == executable.code
    else if !executable.value then code == NonExecutableAddress
    else size / 4 > maxInstructions && code == AnalysisInstructionLimitExceeded
  }

  /** `scan_coverage`, with the decoder's answers for the words of the range given. */
  method ScanCoverage(code: seq<Word>, executable: Result<bool>, base: uint64, size: uint64,
                      maxInstructions: nat, workers: nat)
    returns (r: Result<CoverageReport>)
    requires |code| == size / 4
    ensures r.Ok? <==>
            && base % 4 == 0 && size % 4 == 0 && size != 0 && base + size < TWO64
            && executable == Ok(true) && size / 4 <= maxInstructions
    ensures r.Ok? ==> IsCoverage(code, base, size, r.value) && TellsTheWords(code, base, r.value)
    ensures r.Err? ==> IsScanError(executable, base, size, maxInstructions, r.code)
  {
    if base % 4 != 0 || size % 4 != 0 || size == 0 {
      return Err(InvalidArgument);
    }
    if CheckedAdd(base, size).Err? {
      return Err(ArithmeticOverflow);
    }
    if executable.Err? {
      return Err(executable.code);
    }
    if !executable.value {
      return Err(NonExecutableAddress);
    }
    if size / 4 > maxInstructions {
      return Err(AnalysisInstructionLimitExceeded);
    }
    var wanted := if workers == 0 then 1 else workers;
    var count := if wanted < size / 4 then wanted else size / 4;
    var merged := ScanAll(code, count);
    ghost var s := Summarize(code, 0, |code|);
    var frequency := ListCounts(merged.frequency, s.names);
    var unsupportedFrequency := ListCounts(merged.unsupportedFrequency, s.unsupportedNames);
    var report := CoverageReport(base, size, merged.decoded, merged.liftable, merged.unsupported, merged.failures,
                                 frequency, unsupportedFrequency, ToAddresses(base, merged.first));
    CoverageTells(code, base, size, report);
    return Ok(report);
  }

  /** For every number of workers the report is the same. */
  lemma CoverageIsUnique(code: seq<Word>, base: uint64, size: uint64, a: CoverageReport, b: CoverageReport)
    requires IsCoverage(code, base, size, a) && IsCoverage(code, base, size, b)
    ensures a == b
  {
    OneOrder(a.frequency, b.frequency);
    OneOrder(a.unsupportedFrequency, b.unsupportedFrequency);
  }

  lemma CoverageBalances(code: seq<Word>, base: uint64, size: uint64, r: CoverageReport)
    requires IsCoverage(code, base, size, r) && |code| == size / 4
    ensures r.decoded + r.failures == size / 4 && r.liftable + r.unsupported == r.decoded
    ensures |r.first| == if r.unsupported < 16 then r.unsupported else 16
  {
    SummaryBalances(code, 0, |code|);
    UnsupportedAreCounted(code, 0, |code|);
    AddressesAre(base, FirstFew(Unsupported(code, 0, |code|)));
  }

  // The report said once more, word by word.

  /** The indices of the words, of the first `n`, that are as `p` says. */
  ghost function Where(code: seq<Word>, n: nat, p: Word -> bool): set<int>
    requires n <= |code|
  {
    set k | 0 <= k < n && p(code[k])
  }

  lemma WhereNext(code: seq<Word>, n: nat, p: Word -> bool)
    requires n < |code|
    ensures |Where(code, n + 1, p)| == |Where(code, n, p)| + OneIf(p(code[n]))
  {
    var before, after := Where(code, n, p), Where(code, n + 1, p);
    if p(code[n]) {
      assert after == before + {n};
    } else {
      assert after == before;
    }
  }

  ghost function Failing(): Word -> bool { (w: Word) => w.Undecodable? }
  ghost function Lifting(): Word -> bool { (w: Word) => w.Decodable? && w.liftable }
  ghost function Missing(): Word -> bool { (w: Word) => w.Decodable? && !w.liftable }
  ghost function Named(x: string): Word -> bool { (w: Word) => w.Decodable? && w.name == x }
  ghost function MissingNamed(x: string): Word -> bool { (w: Word) => w.Decodable? && w.name == x && !w.liftable }

  lemma NowhereYet(code: seq<Word>, p: Word -> bool)
    ensures |Where(code, 0, p)| == 0
  {
  }

  ghost function OneIf(b: bool): nat { if b then 1 else 0 }

  lemma WordCounts(w: Word)
    ensures OfWord(w).failures == OneIf(Failing()(w))
    ensures OfWord(w).liftable == OneIf(Lifting()(w))
    ensures OfWord(w).unsupported == OneIf(Missing()(w))
  {
  }

  lemma WordNames(w: Word, x: string)
    ensures OfWord(w).names[x] == OneIf(Named(x)(w))
    ensures OfWord(w).unsupportedNames[x] == OneIf(MissingNamed(x)(w))
  {
  }

  lemma SummaryNext(code: seq<Word>, n: nat)
    requires 0 < n <= |code|
    ensures Summarize(code, 0, n) == Summarize(code, 0, n - 1).Add(OfWord(code[n - 1]))
  {
    hide OfWord, Summary.Add;
  }

  lemma {:induction false} SummaryCounts(code: seq<Word>, n: nat)
    requires n <= |code|
    ensures Summarize(code, 0, n).failures == |Where(code, n, Failing())|
    ensures Summarize(code, 0, n).liftable == |Where(code, n, Lifting())|
    ensures Summarize(code, 0, n).unsupported == |Where(code, n, Missing())|
  {
    hide Where, Failing, Lifting, Missing, OfWord;
    if n == 0 {
      NowhereYet(code, Failing());
      NowhereYet(code, Lifting());
      NowhereYet(code, Missing());
    } else {
      hide Summarize;
      SummaryCounts(code, n - 1);
      SummaryNext(code, n);
      WordCounts(code[n - 1]);
      WhereNext(code, n - 1, Failing());
      WhereNext(code, n - 1, Lifting());
      WhereNext(code, n - 1, Missing());
    }
  }

  lemma {:induction false} NamesAreCounted(code: seq<Word>, n: nat, x: string)
    requires n <= |code|
    ensures Summarize(code, 0, n).names[x] == |Where(code, n, Named(x))|
    ensures Summarize(code, 0, n).unsupportedNames[x] == |Where(code, n, MissingNamed(x))|
  {
    hide Where, Named, MissingNamed, OfWord;
    if n == 0 {
      NowhereYet(code, Named(x));
      NowhereYet(code, MissingNamed(x));
    } else {
      hide Summarize;
      NamesAreCounted(code, n - 1, x);
      SummaryNext(code, n);
      WordNames(code[n - 1], x);
      WhereNext(code, n - 1, Named(x));
      WhereNext(code, n - 1, MissingNamed(x));
    }
  }

  /** The list holds exactly the names that occur, each with the number of its words: larger numbers first, and
      equal ones in the order of the names. */
  ghost predicate RanksNames(code: seq<Word>, l: seq<OpcodeCount>, named: string -> (Word -> bool)) {
    && (forall x, n :: OpcodeCount(x, n) in l <==> n > 0 && n == |Where(code, |code|, named(x))|)
    && (forall i, j :: 0 <= i < j < |l| ==>
          l[i].count > l[j].count || (l[i].count == l[j].count && ComesBefore(l[i].opcode, l[j].opcode)))
  }

  /** The first sixteen decodable words that cannot be lifted, by increasing address and without a gap. */
  ghost predicate ListsFirst(code: seq<Word>, base: uint64, first: seq<Address>) {
    && |first| == (var n := |Where(code, |code|, Missing())|; if n < 16 then n else 16)
    && (forall i, j :: 0 <= i < j < |first| ==> first[i] < first[j])
    && (forall i :: 0 <= i < |first| ==> IsMissingAt(code, base, first[i]))
    && (forall i, a :: 0 <= i < |first| && a < first[i] && IsMissingAt(code, base, a) ==> a in first)
  }

  /** The word at the address is decodable and cannot be lifted. */
  ghost predicate IsMissingAt(code: seq<Word>, base: uint64, a: Address) {
    exists k :: 0 <= k < |code| && a == base + 4 * k && code[k].Decodable? && !code[k].liftable
  }

  /** What the report says of each word. */
  ghost predicate TellsTheWords(code: seq<Word>, base: uint64, r: CoverageReport) {
    && r.failures == |Where(code, |code|, Failing())|
    && r.liftable == |Where(code, |code|, Lifting())|
    && r.unsupported == |Where(code, |code|, Missing())|
    && r.decoded == r.liftable + r.unsupported
    && RanksNames(code, r.frequency, Named) && RanksNames(code, r.unsupportedFrequency, MissingNamed)
    && ListsFirst(code, base, r.first)
  }

  lemma ListRanks(code: seq<Word>, l: seq<OpcodeCount>, m: multiset<string>, named: string -> (Word -> bool))
    requires IsFrequencyList(l, m) && forall x :: m[x] == |Where(code, |code|, named(x))|
    ensures RanksNames(code, l, named)
  {
    forall i, j | 0 <= i < j < |l|
      ensures l[i].count > l[j].count || (l[i].count == l[j].count && ComesBefore(l[i].opcode, l[j].opcode))
    {
      assert CountLeq(l[i], l[j]) && l[i] != l[j];
      NameLeqIsLexicographic(l[i].opcode, l[j].opcode);
    }
  }

  lemma {:induction false} AddressesAre(base: uint64, indices: seq<nat>)
    ensures |ToAddresses(base, indices)| == |indices|
    ensures forall i :: 0 <= i < |indices| ==> ToAddresses(base, indices)[i] == base + 4 * indices[i]
  {
    if indices != [] {
      AddressesAre(base, indices[..|indices| - 1]);
    }
  }

  lemma FirstAreListed(code: seq<Word>, base: uint64, indices: seq<nat>)
    requires ListsUnsupported(code, 0, |code|, indices) && |indices| == |Where(code, |code|, Missing())|
    ensures ListsFirst(code, base, ToAddresses(base, FirstFew(indices)))
  {
    var few := FirstFew(indices);
    var first := ToAddresses(base, few);
    AddressesAre(base, few);
    forall i | 0 <= i < |first|
      ensures IsMissingAt(code, base, first[i])
    {
      assert indices[i] in indices;
      assert UnsupportedAt(code, indices[i]);
    }
    forall i, a | 0 <= i < |first| && a < first[i] && IsMissingAt(code, base, a)
      ensures a in first
    {
      var k :| 0 <= k < |code| && a == base + 4 * k && code[k].Decodable? && !code[k].liftable;
      assert UnsupportedAt(code, k) && k in indices;
      var j :| 0 <= j < |indices| && indices[j] == k;
      assert j < i && first[j] == a;
    }
  }

  /** The report, its counts, lists and addresses, as they follow from the single words. */
  lemma CoverageTells(code: seq<Word>, base: uint64, size: uint64, r: CoverageReport)
    requires IsCoverage(code, base, size, r)
    ensures TellsTheWords(code, base, r)
  {
    SummaryCounts(code, |code|);
    SummaryBalances(code, 0, |code|);
    forall x
      ensures Summarize(code, 0, |code|).names[x] == |Where(code, |code|, Named(x))|
      ensures Summarize(code, 0, |code|).unsupportedNames[x] == |Where(code, |code|, MissingNamed(x))|
    {
      NamesAreCounted(code, |code|, x);
    }
    IndicesAreRight(code, 0, |code|);
    UnsupportedAreCounted(code, 0, |code|);
    hide Where, Summarize, Unsupported, ListsUnsupported, RanksNames, ListsFirst, IsFrequencyList;
    ListRanks(code, r.frequency, Summarize(code, 0, |code|).names, Named);
    ListRanks(code, r.unsupportedFrequency, Summarize(code, 0, |code|).unsupportedNames, MissingNamed);
    FirstAreListed(code, base, Unsupported(code, 0, |code|));
  }
}
