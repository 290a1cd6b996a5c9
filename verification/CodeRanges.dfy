/** Lists of code ranges, and the sets of guest bytes they stand for. */
module CodeRanges {
  import opened Common
  import opened Sorting

  // Meaning.

  ghost predicate Covers(r: Range, x: int) {
    r.base <= x < r.End()
  }

  /** The byte `x` belongs to one of the ranges. */
  ghost predicate Owns(rs: seq<Range>, x: int) {
    exists i :: 0 <= i < |rs| && Covers(rs[i], x)
  }

  /** The byte `x` belongs to the four-byte word at one of the addresses. */
  ghost predicate OwnsWord(addresses: seq<Address>, x: int) {
    exists i :: 0 <= i < |addresses| && addresses[i] <= x < addresses[i] + 4
  }

  predicate IsCodeRange(r: Range) {
    r.size != 0 && r.base % 4 == 0 && r.size % 4 == 0 && r.End() < TWO64
  }

  predicate IsCodeWord(a: Address) {
    0 <= a && a % 4 == 0 && a + 4 < TWO64
  }

  /** Sorted, aligned, non-empty, and with a gap between any two ranges. */
  ghost predicate Normalized(rs: seq<Range>) {
    && (forall i :: 0 <= i < |rs| ==> IsCodeRange(rs[i]))
    && (forall i, j :: 0 <= i < j < |rs| ==> rs[i].End() < rs[j].base)
  }

  ghost predicate SameBytes(a: seq<Range>, b: seq<Range>) {
    forall x :: Owns(a, x) <==> Owns(b, x)
  }

  /** The order code ranges are sorted in: by base, then by size. */
  predicate RangeLeq(a: Range, b: Range) {
    a.base < b.base || (a.base == b.base && a.size <= b.size)
  }

  predicate AddressLeq(a: Address, b: Address) { a <= b }

  function SortRanges(rs: seq<Range>): (s: seq<Range>)
    ensures forall i, j :: 0 <= i < j < |s| ==> s[i].base <= s[j].base
    ensures forall r :: r in s <==> r in rs
  {
    SortIsSorted(rs, RangeLeq);
    Sort(rs, RangeLeq)
  }

  function SortAddresses(rs: seq<Address>): (s: seq<Address>)
    ensures forall i, j :: 0 <= i < j < |s| ==> s[i] <= s[j]
    ensures forall a :: a in s <==> a in rs
  {
    SortIsSorted(rs, AddressLeq);
    Sort(rs, AddressLeq)
  }

  // Merging.

  /** Adds a range that starts no earlier than the last one, merging it when they meet. */
  function Merge(rs: seq<Range>, r: Range): seq<Range>
    requires r.End() < TWO64
  {
    if rs == [] then [r]
    else
      var last := rs[|rs| - 1];
      if r.base > last.End() then rs + [r]
      else if r.End() > last.End() then
        rs[..|rs| - 1] + [Range(last.base, r.End() - last.base)]
      else rs
  }

  lemma MergeIsNormalized(rs: seq<Range>, r: Range)
    requires Normalized(rs) && IsCodeRange(r)
    requires rs != [] ==> rs[|rs| - 1].base <= r.base
    ensures Normalized(Merge(rs, r)) && Merge(rs, r) != []
    ensures Merge(rs, r)[|Merge(rs, r)| - 1].base <= r.base
  {
    if rs != [] && r.base <= rs[|rs| - 1].End() < r.End() {
      var last := rs[|rs| - 1];
      MergedIsCodeRange(last, r);
      LastIsReplaced(rs, Range(last.base, r.End() - last.base));
    }
  }

  lemma MergedIsCodeRange(last: Range, r: Range)
    requires IsCodeRange(last) && IsCodeRange(r) && last.base <= r.base && last.End() < r.End()
    ensures IsCodeRange(Range(last.base, r.End() - last.base))
  {
  }

  lemma LastIsReplaced(rs: seq<Range>, r: Range)
    requires Normalized(rs) && rs != [] && IsCodeRange(r) && r.base == rs[|rs| - 1].base
    ensures Normalized(rs[..|rs| - 1] + [r])
  {
    hide IsCodeRange;
    var out := rs[..|rs| - 1] + [r];
    forall i, j | 0 <= i < j < |out|
      ensures out[i].End() < out[j].base
    {
      assert out[i] == rs[i] && out[j].base == rs[j].base;
    }
  }

  lemma MergeOwns(rs: seq<Range>, r: Range, x: int)
    requires rs != [] ==> rs[|rs| - 1].base <= r.base
    requires r.End() < TWO64
    ensures Owns(Merge(rs, r), x) <==> Owns(rs, x) || Covers(r, x)
  {
    var out := Merge(rs, r);
    if Owns(rs, x) {
      var i :| 0 <= i < |rs| && Covers(rs[i], x);
      assert Covers(out[i], x);
    }
    if Covers(r, x) {
      assert Covers(out[|out| - 1], x);
    }
    if Owns(out, x) {
      var i :| 0 <= i < |out| && Covers(out[i], x);
      assert Covers(r, x) || Covers(rs[i], x);
    }
  }

  /** `normalize_code_ranges` on ranges. */
  method NormalizeRanges(input: seq<Range>) returns (r: Result<seq<Range>>)
    ensures r.Ok? <==> forall i :: 0 <= i < |input| ==> IsCodeRange(input[i])
    ensures r.Ok? ==> Normalized(r.value) && SameBytes(r.value, input)
    ensures r.Err? ==> r.code == InvalidGuestAddress
  {
    var ranges := SortRanges(input);
    var normalized: seq<Range> := [];
    for k := 0 to |ranges|
      invariant forall i :: 0 <= i < k ==> IsCodeRange(ranges[i])
      invariant Normalized(normalized)
      invariant normalized != [] ==> k > 0 && normalized[|normalized| - 1].base <= ranges[k - 1].base
      invariant forall x :: Owns(normalized, x) <==> Owns(ranges[..k], x)
    {
      var range := ranges[k];
      if range.size == 0 || range.base % 4 != 0 || range.size % 4 != 0 || CheckedAdd(range.base, range.size).Err? {
        assert ranges[k] in input;
        return Err(InvalidGuestAddress);
      }
      MergeRange(normalized, ranges, k);
      normalized := Merge(normalized, range);
    }
    AllRanges(ranges, input);
    return Ok(normalized);
  }

  lemma MergeRange(normalized: seq<Range>, ranges: seq<Range>, k: nat)
    requires k < |ranges| && IsCodeRange(ranges[k])
    requires Normalized(normalized) && (normalized != [] ==> normalized[|normalized| - 1].base <= ranges[k].base)
    requires forall x :: Owns(normalized, x) <==> Owns(ranges[..k], x)
    ensures
      var merged := Merge(normalized, ranges[k]);
      && Normalized(merged) && merged != [] && merged[|merged| - 1].base <= ranges[k].base
      && forall x :: Owns(merged, x) <==> Owns(ranges[..k + 1], x)
  {
    MergeIsNormalized(normalized, ranges[k]);
    OwnsOneMore(ranges, k);
    forall x
      ensures Owns(Merge(normalized, ranges[k]), x) <==> Owns(ranges[..k + 1], x)
    {
      MergeOwns(normalized, ranges[k], x);
    }
  }

  lemma AllRanges(ranges: seq<Range>, input: seq<Range>)
    requires forall r :: r in ranges <==> r in input
    requires forall i :: 0 <= i < |ranges| ==> IsCodeRange(ranges[i])
    ensures forall i :: 0 <= i < |input| ==> IsCodeRange(input[i])
    ensures SameBytes(ranges[..|ranges|], input)
  {
    assert ranges[..|ranges|] == ranges;
    OwnsByElements(ranges, input);
    forall i | 0 <= i < |input|
      ensures IsCodeRange(input[i])
    {
      assert input[i] in input;
    }
  }

  lemma OwnsOneMore(rs: seq<Range>, k: nat)
    requires k < |rs|
    ensures forall x :: Owns(rs[..k + 1], x) <==> Owns(rs[..k], x) || Covers(rs[k], x)
  {
    forall x
      ensures Owns(rs[..k + 1], x) <==> Owns(rs[..k], x) || Covers(rs[k], x)
    {
      if Owns(rs[..k], x) {
        var i :| 0 <= i < k && Covers(rs[..k][i], x);
        assert Covers(rs[..k + 1][i], x);
      }
      if Covers(rs[k], x) {
        assert Covers(rs[..k + 1][k], x);
      }
      if Owns(rs[..k + 1], x) {
        var i :| 0 <= i < k + 1 && Covers(rs[..k + 1][i], x);
        assert i < k ==> Covers(rs[..k][i], x);
      }
    }
  }

  lemma OwnsByElements(a: seq<Range>, b: seq<Range>)
    requires forall r :: r in a <==> r in b
    ensures SameBytes(a, b)
  {
    forall x
      ensures Owns(a, x) <==> Owns(b, x)
    {
      if Owns(a, x) {
        var i :| 0 <= i < |a| && Covers(a[i], x);
        assert a[i] in b;
        var j :| 0 <= j < |b| && b[j] == a[i];
      }
      if Owns(b, x) {
        var i :| 0 <= i < |b| && Covers(b[i], x);
        assert b[i] in a;
        var j :| 0 <= j < |a| && a[j] == b[i];
      }
    }
  }

  /** `std::unique`: drops each element equal to the one before it. */
  function Unique(s: seq<Address>): seq<Address> {
    if |s| <= 1 then s
    else if s[0] == s[1] then Unique(s[1..])
    else [s[0]] + Unique(s[1..])
  }

  lemma {:induction false} UniqueKeeps(s: seq<Address>)
    requires forall i, j :: 0 <= i < j < |s| ==> s[i] <= s[j]
    ensures forall a :: a in Unique(s) <==> a in s
    ensures forall i, j :: 0 <= i < j < |Unique(s)| ==> Unique(s)[i] < Unique(s)[j]
    ensures s != [] ==> Unique(s) != [] && Unique(s)[0] == s[0]
  {
    if |s| > 1 {
      UniqueKeeps(s[1..]);
      assert forall a :: a in s <==> a == s[0] || a in s[1..];
      if s[0] != s[1] {
        forall j | 0 <= j < |Unique(s[1..])|
          ensures s[0] < Unique(s[1..])[j]
        {
          assert Unique(s[1..])[j] in s[1..];
        }
      }
    }
  }

  /** `normalize_code_ranges` on instruction addresses. */
  method NormalizeAddresses(input: seq<Address>) returns (r: Result<seq<Range>>)
    ensures r.Ok? <==> forall i :: 0 <= i < |input| ==> IsCodeWord(input[i])
    ensures r.Ok? ==> Normalized(r.value) && forall x :: Owns(r.value, x) <==> OwnsWord(input, x)
    ensures r.Err? ==> r.code == InvalidGuestAddress
  {
    var sorted := SortAddresses(input);
    UniqueKeeps(sorted);
    var addresses := Unique(sorted);
    var ranges: seq<Range> := [];
    for k := 0 to |addresses|
      invariant forall i :: 0 <= i < k ==> IsCodeWord(addresses[i])
      invariant Normalized(ranges)
      invariant ranges != [] ==> k > 0 && ranges[|ranges| - 1].base <= addresses[k - 1]
      invariant forall x :: Owns(ranges, x) <==> OwnsWord(addresses[..k], x)
    {
      var address := addresses[k];
      assert address in input;
      if address % 4 != 0 || address < 0 || address + 4 >= TWO64 {
        return Err(InvalidGuestAddress);
      }
      MergeWord(ranges, addresses, k);
      ranges := Merge(ranges, Range(address, 4));
    }
    AllWords(addresses, input);
    return Ok(ranges);
  }

  lemma MergeWord(ranges: seq<Range>, addresses: seq<Address>, k: nat)
    requires k < |addresses| && IsCodeWord(addresses[k])
    requires Normalized(ranges) && (ranges != [] ==> ranges[|ranges| - 1].base <= addresses[k])
    requires forall x :: Owns(ranges, x) <==> OwnsWord(addresses[..k], x)
    ensures
      var merged := Merge(ranges, Range(addresses[k], 4));
      && Normalized(merged) && merged != [] && merged[|merged| - 1].base <= addresses[k]
      && forall x :: Owns(merged, x) <==> OwnsWord(addresses[..k + 1], x)
  {
    var word := Range(addresses[k], 4);
    MergeIsNormalized(ranges, word);
    forall x
      ensures Owns(Merge(ranges, word), x) <==> OwnsWord(addresses[..k + 1], x)
    {
      MergeOwns(ranges, word, x);
      OwnsOneMoreWord(addresses, k, x);
    }
  }

  lemma AllWords(addresses: seq<Address>, input: seq<Address>)
    requires forall a :: a in addresses <==> a in input
    requires forall i :: 0 <= i < |addresses| ==> IsCodeWord(addresses[i])
    ensures forall i :: 0 <= i < |input| ==> IsCodeWord(input[i])
    ensures forall x :: OwnsWord(addresses[..|addresses|], x) <==> OwnsWord(input, x)
  {
    assert addresses[..|addresses|] == addresses;
    forall x
      ensures OwnsWord(addresses, x) <==> OwnsWord(input, x)
    {
      OwnsWordByElements(addresses, input, x);
    }
    WordsOf(addresses, input);
  }

  lemma WordsOf(s: seq<Address>, t: seq<Address>)
    requires forall a :: a in s <==> a in t
    requires forall i :: 0 <= i < |s| ==> IsCodeWord(s[i])
    ensures forall i :: 0 <= i < |t| ==> IsCodeWord(t[i])
  {
    forall i | 0 <= i < |t|
      ensures IsCodeWord(t[i])
    {
      assert t[i] in t;
    }
  }

  lemma OwnsOneMoreWord(s: seq<Address>, k: nat, x: int)
    requires k < |s|
    ensures OwnsWord(s[..k + 1], x) <==> OwnsWord(s[..k], x) || s[k] <= x < s[k] + 4
  {
    if OwnsWord(s[..k], x) {
      var i :| 0 <= i < k && s[..k][i] <= x < s[..k][i] + 4;
      assert s[..k + 1][i] == s[..k][i];
    }
    if s[k] <= x < s[k] + 4 {
      assert s[..k + 1][k] == s[k];
    }
    if OwnsWord(s[..k + 1], x) {
      var i :| 0 <= i < k + 1 && s[..k + 1][i] <= x < s[..k + 1][i] + 4;
      assert i < k ==> s[..k][i] == s[i];
    }
  }

  lemma OwnsWordByElements(s: seq<Address>, t: seq<Address>, x: int)
    requires forall a :: a in s <==> a in t
    ensures OwnsWord(s, x) <==> OwnsWord(t, x)
  {
    if OwnsWord(s, x) {
      var i :| 0 <= i < |s| && s[i] <= x < s[i] + 4;
      assert s[i] in t;
    }
    if OwnsWord(t, x) {
      var i :| 0 <= i < |t| && t[i] <= x < t[i] + 4;
      assert t[i] in s;
    }
  }

  // The normal form is canonical.

  /** In a normalized list each byte has one owner, and bytes between ranges have none. */
  lemma NormalOwner(rs: seq<Range>, i: nat, x: int)
    requires Normalized(rs) && i < |rs| && Owns(rs, x)
    ensures rs[i].base <= x <= rs[i].End() ==> Covers(rs[i], x)
    ensures i == 0 ==> rs[0].base <= x
  {
    var k :| 0 <= k < |rs| && Covers(rs[k], x);
  }

  lemma FirstByteIsOwned(rs: seq<Range>)
    requires Normalized(rs) && rs != []
    ensures Owns(rs, rs[0].base)
  {
    assert Covers(rs[0], rs[0].base);
  }

  lemma FirstRangesAgree(a: seq<Range>, b: seq<Range>)
    requires Normalized(a) && Normalized(b) && SameBytes(a, b) && a != [] && b != []
    requires a[0].base <= b[0].base
    ensures a[0] == b[0]
  {
    assert Covers(a[0], a[0].base) && Owns(a, a[0].base);
    assert Owns(b, a[0].base);
    NormalOwner(b, 0, a[0].base);
    assert a[0].base == b[0].base;
    if a[0].End() < b[0].End() {
      assert Covers(b[0], a[0].End()) && Owns(b, a[0].End());
      NormalOwner(a, 0, a[0].End());
    } else if b[0].End() < a[0].End() {
      assert Covers(a[0], b[0].End()) && Owns(a, b[0].End());
      NormalOwner(b, 0, b[0].End());
    }
  }

  lemma TailOwns(rs: seq<Range>, x: int)
    requires Normalized(rs) && rs != []
    ensures Owns(rs[1..], x) <==> Owns(rs, x) && !Covers(rs[0], x)
  {
    if Owns(rs[1..], x) {
      var i :| 0 <= i < |rs| - 1 && Covers(rs[1..][i], x);
      assert Covers(rs[i + 1], x);
    }
    if Owns(rs, x) && !Covers(rs[0], x) {
      var i :| 0 <= i < |rs| && Covers(rs[i], x);
      assert Covers(rs[1..][i - 1], x);
    }
  }

  /** Two normalized lists are equal exactly when they stand for the same bytes. */
  lemma {:induction false} NormalFormIsCanonical(a: seq<Range>, b: seq<Range>)
    requires Normalized(a) && Normalized(b)
    ensures a == b <==> SameBytes(a, b)
  {
    if SameBytes(a, b) {
      if a == [] || b == [] {
        if a != [] {
          FirstByteIsOwned(a);
        }
        if b != [] {
          FirstByteIsOwned(b);
        }
      } else {
        if a[0].base <= b[0].base {
          FirstRangesAgree(a, b);
        } else {
          FirstRangesAgree(b, a);
        }
        forall x
          ensures Owns(a[1..], x) <==> Owns(b[1..], x)
        {
          TailOwns(a, x);
          TailOwns(b, x);
        }
        NormalFormIsCanonical(a[1..], b[1..]);
        assert a == [a[0]] + a[1..] && b == [b[0]] + b[1..];
      }
    }
  }

  // Overlap and intersection.

  ghost predicate Overlap(left: seq<Range>, right: seq<Range>) {
    exists x :: Owns(left, x) && Owns(right, x)
  }

  predicate Meets(a: Range, b: Range) {
    a.base < b.End() && b.base < a.End()
  }

  lemma OverlapMeansMeeting(left: seq<Range>, right: seq<Range>)
    requires Normalized(left) && Normalized(right)
    ensures Overlap(left, right) <==>
            exists i, j :: 0 <= i < |left| && 0 <= j < |right| && Meets(left[i], right[j])
  {
    if x :| Owns(left, x) && Owns(right, x) {
      var i :| 0 <= i < |left| && Covers(left[i], x);
      var j :| 0 <= j < |right| && Covers(right[j], x);
      assert Meets(left[i], right[j]);
    }
    if i, j :| 0 <= i < |left| && 0 <= j < |right| && Meets(left[i], right[j]) {
      var x := if left[i].base < right[j].base then right[j].base else left[i].base;
      assert Covers(left[i], x) && Covers(right[j], x);
      assert Owns(left, x) && Owns(right, x);
    }
  }

  /** `owned_ranges_overlap`: on normalized lists it decides whether they share a byte. */
  method OwnedRangesOverlap(left: seq<Range>, right: seq<Range>) returns (r: bool)
    ensures Normalized(left) && Normalized(right) ==> (r <==> Overlap(left, right))
  {
    var i, j := 0, 0;
    while i < |left| && j < |right|
      invariant i <= |left| && j <= |right|
      invariant Normalized(left) && Normalized(right) ==>
                  forall a, b :: 0 <= a < |left| && 0 <= b < |right| && (a < i || b < j) ==> !Meets(left[a], right[b])
      decreases |left| - i + |right| - j
    {
      if CheckedAdd(left[i].base, left[i].size).Err? || CheckedAdd(right[j].base, right[j].size).Err? {
        return false;
      }
      if Meets(left[i], right[j]) {
        if Normalized(left) && Normalized(right) {
          OverlapMeansMeeting(left, right);
        }
        return true;
      }
      if left[i].End() <= right[j].End() {
        i := i + 1;
      } else {
        j := j + 1;
      }
    }
    if Normalized(left) && Normalized(right) {
      OverlapMeansMeeting(left, right);
    }
    return false;
  }

  ghost predicate IsIntersection(left: seq<Range>, right: seq<Range>, both: seq<Range>) {
    Normalized(both) && forall x :: Owns(both, x) <==> Owns(left, x) && Owns(right, x)
  }

  /** The pieces found once the first `i` and the first `j` ranges are used up. */
  ghost predicate Intersected(left: seq<Range>, right: seq<Range>, i: nat, j: nat, pieces: seq<Range>)
    requires i <= |left| && j <= |right|
  {
    && Normalized(pieces)
    && (forall x :: Owns(pieces, x) <==>
          Owns(left, x) && Owns(right, x) && (Owns(left[..i], x) || Owns(right[..j], x)))
    && (pieces != [] && i < |left| && j < |right| ==>
          pieces[|pieces| - 1].End() < left[i].base || pieces[|pieces| - 1].End() < right[j].base)
  }

  function SharedPart(a: Range, b: Range): seq<Range> {
    var begin := if a.base < b.base then b.base else a.base;
    var end := if a.End() <= b.End() then a.End() else b.End();
    if begin < end then [Range(begin, end - begin)] else []
  }

  lemma SharedPartOwns(a: Range, b: Range, x: int)
    requires a.End() < TWO64 && b.End() < TWO64
    ensures Owns(SharedPart(a, b), x) <==> Covers(a, x) && Covers(b, x)
  {
    var part := SharedPart(a, b);
    if Covers(a, x) && Covers(b, x) {
      assert Covers(part[0], x);
    }
  }

  lemma SharedPartCommutes(a: Range, b: Range)
    requires a.End() < TWO64 && b.End() < TWO64
    ensures SharedPart(a, b) == SharedPart(b, a)
  {
  }

  lemma OwnsAppend(a: seq<Range>, b: seq<Range>, x: int)
    ensures Owns(a + b, x) <==> Owns(a, x) || Owns(b, x)
  {
    if Owns(a, x) {
      var i :| 0 <= i < |a| && Covers(a[i], x);
      assert Covers((a + b)[i], x);
    }
    if Owns(b, x) {
      var i :| 0 <= i < |b| && Covers(b[i], x);
      assert Covers((a + b)[|a| + i], x);
    }
    if Owns(a + b, x) {
      var i :| 0 <= i < |a + b| && Covers((a + b)[i], x);
      assert if i < |a| then Covers(a[i], x) else Covers(b[i - |a|], x);
    }
  }

  /** The range that ends first meets nothing beyond its partner. */
  lemma NothingBeyond(left: seq<Range>, right: seq<Range>, i: nat, j: nat, x: int)
    requires Normalized(left) && Normalized(right) && i < |left| && j < |right|
    requires left[i].End() <= right[j].End() && Covers(left[i], x) && Owns(right, x)
    ensures Owns(right[..j], x) || Covers(right[j], x)
  {
    var b :| 0 <= b < |right| && Covers(right[b], x);
    if b < j {
      assert Covers(right[..j][b], x);
    }
  }

  lemma PiecesGrow(left: seq<Range>, right: seq<Range>, i: nat, j: nat, pieces: seq<Range>)
    requires Normalized(left) && Normalized(right) && i < |left| && j < |right|
    requires left[i].End() <= right[j].End()
    requires Intersected(left, right, i, j, pieces)
    ensures
      var more := pieces + SharedPart(left[i], right[j]);
      && Normalized(more)
      && (more != [] && i + 1 < |left| ==>
            more[|more| - 1].End() < left[i + 1].base || more[|more| - 1].End() < right[j].base)
  {
  }

  lemma AdvanceLeft(left: seq<Range>, right: seq<Range>, i: nat, j: nat, pieces: seq<Range>)
    requires Normalized(left) && Normalized(right) && i < |left| && j < |right|
    requires left[i].End() <= right[j].End()
    requires Intersected(left, right, i, j, pieces)
    ensures Intersected(left, right, i + 1, j, pieces + SharedPart(left[i], right[j]))
  {
    PiecesGrow(left, right, i, j, pieces);
    var part := SharedPart(left[i], right[j]);
    forall x
      ensures Owns(pieces + part, x) <==>
              Owns(left, x) && Owns(right, x) && (Owns(left[..i + 1], x) || Owns(right[..j], x))
    {
      OwnsAppend(pieces, part, x);
      SharedPartOwns(left[i], right[j], x);
      OwnsOneMore(left, i);
      if Covers(left[i], x) && Owns(right, x) {
        NothingBeyond(left, right, i, j, x);
      }
    }
  }

  lemma SwapIntersected(left: seq<Range>, right: seq<Range>, i: nat, j: nat, pieces: seq<Range>)
    requires i <= |left| && j <= |right| && Intersected(left, right, i, j, pieces)
    ensures Intersected(right, left, j, i, pieces)
  {
  }

  lemma AdvanceRight(left: seq<Range>, right: seq<Range>, i: nat, j: nat, pieces: seq<Range>)
    requires Normalized(left) && Normalized(right) && i < |left| && j < |right|
    requires right[j].End() < left[i].End()
    requires Intersected(left, right, i, j, pieces)
    ensures Intersected(left, right, i, j + 1, pieces + SharedPart(left[i], right[j]))
  {
    var more := pieces + SharedPart(right[j], left[i]);
    SwapIntersected(left, right, i, j, pieces);
    AdvanceLeft(right, left, j, i, pieces);
    SwapIntersected(right, left, j + 1, i, more);
    SharedPartCommutes(left[i], right[j]);
  }

  lemma AllIntersected(left: seq<Range>, right: seq<Range>, i: nat, j: nat, pieces: seq<Range>)
    requires i <= |left| && j <= |right| && (i == |left| || j == |right|)
    requires Intersected(left, right, i, j, pieces)
    ensures IsIntersection(left, right, pieces)
  {
    assert left[..|left|] == left && right[..|right|] == right;
  }

  /** `intersect_owned_ranges`: the output needs no merging step to be normalized. */
  method IntersectOwnedRanges(left: seq<Range>, right: seq<Range>) returns (r: Result<seq<Range>>)
    ensures r.Ok? <==>
            && (forall i :: 0 <= i < |left| ==> IsCodeRange(left[i]))
            && (forall i :: 0 <= i < |right| ==> IsCodeRange(right[i]))
    ensures r.Ok? ==> IsIntersection(left, right, r.value)
    ensures r.Err? ==> r.code == InvalidGuestAddress
  {
    var normalizedLeft := NormalizeRanges(left);
    if normalizedLeft.Err? {
      return normalizedLeft;
    }
    var normalizedRight := NormalizeRanges(right);
    if normalizedRight.Err? {
      return normalizedRight;
    }
    var a, b := normalizedLeft.value, normalizedRight.value;
    var pieces: seq<Range> := [];
    var i, j := 0, 0;
    while i < |a| && j < |b|
      invariant i <= |a| && j <= |b|
      invariant Intersected(a, b, i, j, pieces)
      decreases |a| - i + |b| - j
    {
      if CheckedAdd(a[i].base, a[i].size).Err? || CheckedAdd(b[j].base, b[j].size).Err? {
        assert false;
      }
      var part := SharedPart(a[i], b[j]);
      if a[i].End() <= b[j].End() {
        AdvanceLeft(a, b, i, j, pieces);
        i := i + 1;
      } else {
        AdvanceRight(a, b, i, j, pieces);
        j := j + 1;
      }
      pieces := pieces + part;
    }
    AllIntersected(a, b, i, j, pieces);
    return Ok(pieces);
  }

  /** The intersection does not depend on the order of its arguments, nor on how they are written. */
  lemma IntersectionIsUnique(a: seq<Range>, b: seq<Range>, c: seq<Range>, d: seq<Range>,
                             p: seq<Range>, q: seq<Range>)
    requires IsIntersection(a, b, p) && IsIntersection(d, c, q)
    requires SameBytes(a, c) && SameBytes(b, d)
    ensures p == q
  {
    NormalFormIsCanonical(p, q);
  }

  lemma OverlapIsNonEmptyIntersection(a: seq<Range>, b: seq<Range>, p: seq<Range>)
    requires IsIntersection(a, b, p)
    ensures Overlap(a, b) <==> p != []
  {
    if p != [] {
      FirstByteIsOwned(p);
    }
  }

  // Counting bytes.

  /** The guest bytes a list stands for. */
  ghost function Bytes(rs: seq<Range>): set<int> {
    set x | 0 <= x < TWO64 && Owns(rs, x)
  }

  ghost predicate Between(lo: int, x: int, hi: int) { lo <= x < hi }

  ghost function Interval(lo: int, hi: int): set<int> {
    set x | lo <= x < hi && Between(lo, x, hi)
  }

  lemma {:induction false} IntervalSize(lo: int, hi: int)
    requires lo <= hi
    ensures |Interval(lo, hi)| == hi - lo
    decreases hi - lo
  {
    if lo < hi {
      IntervalSize(lo, hi - 1);
      assert Interval(lo, hi) == Interval(lo, hi - 1) + {hi - 1};
    } else {
      assert Interval(lo, hi) == {};
    }
  }

  ghost function SumSizes(rs: seq<Range>): nat {
    if rs == [] then 0 else SumSizes(rs[..|rs| - 1]) + rs[|rs| - 1].size
  }

  /** Sorted and without overlap; neighbours may touch. */
  ghost predicate Disjoint(rs: seq<Range>) {
    forall i, j {:trigger Precedes(rs[i], rs[j])} :: 0 <= i < j < |rs| ==> Precedes(rs[i], rs[j])
  }

  ghost predicate Precedes(a: Range, b: Range) { a.End() <= b.base }

  lemma {:induction false} SumFits(rs: seq<Range>)
    requires Disjoint(rs) && rs != []
    ensures SumSizes(rs) <= rs[|rs| - 1].End() - rs[0].base
  {
    if |rs| > 1 {
      var front := rs[..|rs| - 1];
      assert forall i, j :: 0 <= i < j < |front| ==> Precedes(rs[i], rs[j]) && front[i] == rs[i] && front[j] == rs[j];
      SumFits(front);
      assert Precedes(rs[|rs| - 2], rs[|rs| - 1]);
    }
  }

  lemma LastBytes(rs: seq<Range>)
    requires Normalized(rs) && rs != []
    ensures
      var front, last := rs[..|rs| - 1], rs[|rs| - 1];
      && Bytes(rs) == Bytes(front) + Interval(last.base, last.End())
      && Bytes(front) !! Interval(last.base, last.End())
  {
    var front, last := rs[..|rs| - 1], rs[|rs| - 1];
    assert rs[..|rs| - 1 + 1] == rs;
    OwnsOneMore(rs, |rs| - 1);
    forall x
      ensures x in Bytes(rs) <==> x in Bytes(front) || x in Interval(last.base, last.End())
    {
      assert Covers(last, x) <==> Between(last.base, x, last.End());
    }
    forall x | x in Bytes(front)
      ensures x !in Interval(last.base, last.End())
    {
      var i :| 0 <= i < |front| && Covers(front[i], x);
      assert front[i] == rs[i];
    }
  }

  lemma {:induction false} SumCountsBytes(rs: seq<Range>)
    requires Normalized(rs)
    ensures |Bytes(rs)| == SumSizes(rs)
  {
    if rs == [] {
      assert Bytes(rs) == {};
    } else {
      SumCountsBytes(rs[..|rs| - 1]);
      IntervalSize(rs[|rs| - 1].base, rs[|rs| - 1].End());
      LastBytes(rs);
    }
  }

  /** `precise_owned_byte_count`: overlapping or unsorted, every byte counts once. */
  method PreciseOwnedByteCount(ranges: seq<Range>) returns (r: Result<uint64>)
    ensures r.Ok? <==> forall i :: 0 <= i < |ranges| ==> IsCodeRange(ranges[i])
    ensures r.Ok? ==> r.value == |Bytes(ranges)|
    ensures r.Err? ==> r.code == InvalidGuestAddress
  {
    var normalized := NormalizeRanges(ranges);
    if normalized.Err? {
      return Err(normalized.code);
    }
    var rs := normalized.value;
    var total: uint64 := 0;
    for k := 0 to |rs|
      invariant total == SumSizes(rs[..k])
    {
      assert rs[..k + 1][..k] == rs[..k];
      SumFits(rs[..k + 1]);
      if rs[k].size > MAX64 - total {
        assert false;
      }
      total := total + rs[k].size;
    }
    assert rs[..|rs|] == rs;
    SumCountsBytes(rs);
    assert Bytes(rs) == Bytes(ranges);
    return Ok(total);
  }

  /** Inclusion and exclusion: what two lists share is counted twice by their separate counts. */
  lemma CountsAddUp(a: seq<Range>, b: seq<Range>, both: seq<Range>)
    requires IsIntersection(a, b, both)
    ensures |Bytes(a)| + |Bytes(b)| == |Bytes(both)| + |Bytes(a + b)|
  {
    forall x
      ensures Owns(a + b, x) <==> Owns(a, x) || Owns(b, x)
    {
      OwnsAppend(a, b, x);
    }
    assert Bytes(both) == Bytes(a) * Bytes(b);
    assert Bytes(a + b) == Bytes(a) + Bytes(b);
  }
}
