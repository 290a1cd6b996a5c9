/** Guest addresses, checked arithmetic and result values shared by every component. */
module Common {
  const TWO64 := 0x1_0000_0000_0000_0000
  const MAX64 := 0xFFFF_FFFF_FFFF_FFFF

  /** A `std::uint64_t`: guest sizes, range bounds and raw bit patterns. */
  type uint64 = x: int | 0 <= x < 0x1_0000_0000_0000_0000

  /** A guest address.  Guests answer only for 64-bit ones, and ranges hold only those. */
  type Address = int

  datatype Option<+T> = None | Some(value: T)

  datatype ErrorCode =
    | InvalidArgument
    | ArithmeticOverflow
    | ArithmeticUnderflow
    | InvalidFormat
    | InvalidControlFlow
    | UnmappedMemory
    | DecodeFailed
    | InstructionFetchFailed
    | MisalignedInstructionAddress
    | NonExecutableAddress
    | InvalidBranchTarget
    | InvalidGuestAddress
    | AnalysisInstructionLimitExceeded
    | AnalysisBlockLimitExceeded
    | AnalysisWorklistLimitExceeded
    | AnalysisScopeViolation
    | FunctionBoundaryConflict
    | DuplicateModuleIdentity
    | ModuleAddressOverlap
    | ModuleLayoutOverflow

  datatype Result<+T> = Ok(value: T) | Err(code: ErrorCode)

  function CheckedAdd(left: uint64, right: uint64): Result<uint64> {
    if right > MAX64 - left then Err(ArithmeticOverflow) else Ok(left + right)
  }

  /** A half-open range `[base, base + size)`; nothing rules out an overflowing end. */
  datatype Range = Range(base: uint64, size: uint64) {
    function End(): int { base + size }

    predicate Contains(a: Address) {
      CheckedAdd(base, size).Ok? && base <= a < End()
    }

    /** The sized containment test: all of `[a, a + length)` lies in the range. */
    predicate Holds(a: Address, length: uint64) {
      && CheckedAdd(base, size).Ok?
      && a + length < TWO64
      && base <= a
      && a + length <= End()
    }
  }

  // Ordered containers.  `std::set` and `std::map` hand out their smallest key
  // first and can be searched from a key downwards.

  lemma LeastExists(s: set<Address>)
    requires s != {}
    ensures exists x :: x in s && forall y :: y in s ==> x <= y
  {
    var m := LeastOf(s);
  }

  lemma {:induction false} LeastOf(s: set<Address>) returns (m: Address)
    requires s != {}
    ensures m in s && forall y :: y in s ==> m <= y
  {
    assert (forall x :: x !in s) ==> s == {};
    m :| m in s;
    var rest := s - {m};
    assert forall y :: y in s ==> y == m || y in rest;
    if rest != {} {
      var least := LeastOf(rest);
      m := if least < m then least else m;
    }
  }

  function Least(s: set<Address>): (x: Address)
    requires s != {}
    ensures x in s && forall y :: y in s ==> x <= y
  {
    LeastExists(s);
    var x :| x in s && forall y :: y in s ==> x <= y;
    x
  }

  lemma GreatestExists(s: set<Address>)
    requires s != {}
    ensures exists x :: x in s && forall y :: y in s ==> y <= x
  {
    var m := GreatestOf(s);
  }

  lemma {:induction false} GreatestOf(s: set<Address>) returns (m: Address)
    requires s != {}
    ensures m in s && forall y :: y in s ==> y <= m
  {
    assert (forall x :: x !in s) ==> s == {};
    m :| m in s;
    var rest := s - {m};
    assert forall y :: y in s ==> y == m || y in rest;
    if rest != {} {
      var greatest := GreatestOf(rest);
      m := if greatest < m then m else greatest;
    }
  }

  /** The largest key not above `a`: the one before `upper_bound(a)` in an ordered container. */
  function Floor(s: set<Address>, a: Address): (r: Option<Address>)
    ensures r.None? ==> forall y :: y in s ==> a < y
    ensures r.Some? ==> r.value in s && r.value <= a && forall y :: y in s && y <= a ==> y <= r.value
  {
    var below := set y | y in s && y <= a;
    assert forall y :: y in s && y <= a ==> y in below;
    if below == {} then None
    else
      GreatestExists(below);
      var x :| x in below && forall y :: y in below ==> y <= x;
      Some(x)
  }

  // Sizes of sets.

  lemma {:induction false} SubsetIsSmaller<T>(s: set<T>, t: set<T>)
    requires s <= t
    ensures |s| <= |t|
  {
    if s != {} {
      var x :| x in s;
      SubsetIsSmaller(s - {x}, t - {x});
    }
  }

  lemma OneMore<T>(s: set<T>, x: T)
    ensures |s + {x}| == if x in s then |s| else |s| + 1
  {
    if x in s {
      assert s + {x} == s;
    }
  }
}
