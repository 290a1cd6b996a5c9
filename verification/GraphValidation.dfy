/** The executable well-formedness check every published control-flow graph must pass. */
module GraphValidation {
  import opened Common
  import opened ControlFlow

  ghost predicate RunShape(s: Address, b: BasicBlock) {
    && s % 4 == 0
    && b.start == s
    && b.instructions != []
    && b.End() < TWO64
    && forall i :: 0 <= i < |b.instructions| ==> b.instructions[i].address == s + 4 * i
  }

  ghost predicate EdgeShape(keys: set<Address>, b: BasicBlock, e: Edge)
    requires b.instructions != []
  {
    && e.source == b.Last().address
    && (e.internal ==> e.target in keys)
    && (e.kind.FunctionTransfer? ==> !e.internal && e.target !in keys)
  }

  predicate HasKind(b: BasicBlock, kind: EdgeKind) {
    exists i :: 0 <= i < |b.successors| && b.successors[i].kind == kind
  }

  /** The test on the last instruction and the kinds of the edges. */
  predicate TerminatorPasses(b: BasicBlock)
    requires b.instructions != []
  {
    var kind := b.Last().flow.kind;
    && (HasKind(b, FunctionTransfer) ==> kind.DirectBranch?)
    && (kind.HasNoSuccessor() ==> b.successors == [])
    && (kind.DirectBranch? ==> !HasKind(b, FallthroughEdge) && !HasKind(b, ConditionalNotTaken))
    && (kind.ConditionalBranch? ==> HasKind(b, ConditionalTaken) && HasKind(b, ConditionalNotTaken))
  }

  ghost predicate EdgeHasKind(e: Edge, kind: EdgeKind) { e.kind == kind }

  /** Function transfers come from direct branches only; a terminator without successors has none, a direct branch
      does not fall through, and a conditional branch goes both ways. */
  ghost predicate TerminatorShape(b: BasicBlock)
    requires b.instructions != []
  {
    && (b.Last().flow.kind != DirectBranch ==> forall e :: e in b.successors ==> !EdgeHasKind(e, FunctionTransfer))
    && (b.Last().flow.kind in {Return, IndirectBranch, Trap, Exception, Unknown} ==> b.successors == [])
    && (b.Last().flow.kind == DirectBranch ==> forall e :: e in b.successors ==>
          !EdgeHasKind(e, FallthroughEdge) && !EdgeHasKind(e, ConditionalNotTaken))
    && (b.Last().flow.kind == ConditionalBranch ==>
          && (exists e :: e in b.successors && EdgeHasKind(e, ConditionalTaken))
          && (exists e :: e in b.successors && EdgeHasKind(e, ConditionalNotTaken)))
  }

  lemma KindsAre(b: BasicBlock, kind: EdgeKind)
    ensures HasKind(b, kind) <==> exists e :: e in b.successors && EdgeHasKind(e, kind)
  {
    if i :| 0 <= i < |b.successors| && b.successors[i].kind == kind {
      assert b.successors[i] in b.successors && EdgeHasKind(b.successors[i], kind);
    }
  }

  lemma TerminatorPassesExactly(b: BasicBlock)
    requires b.instructions != []
    ensures TerminatorPasses(b) <==> TerminatorShape(b)
  {
    KindsAre(b, FunctionTransfer);
    KindsAre(b, FallthroughEdge);
    KindsAre(b, ConditionalTaken);
    KindsAre(b, ConditionalNotTaken);
  }

  ghost predicate BlockShape(keys: set<Address>, s: Address, b: BasicBlock) {
    && RunShape(s, b)
    && (forall i :: 0 <= i < |b.successors| ==> EdgeShape(keys, b, b.successors[i]))
    && TerminatorShape(b)
  }

  function AddressesOf(b: BasicBlock): set<Address> {
    set i | 0 <= i < |b.instructions| :: b.instructions[i].address
  }

  ghost predicate WellFormed(g: Graph) {
    && (forall s :: s in g.blocks ==> BlockShape(g.blocks.Keys, s, g.blocks[s]))
    && (forall s, t :: s in g.blocks && t in g.blocks && s != t ==>
          AddressesOf(g.blocks[s]) !! AddressesOf(g.blocks[t]))
  }

  ghost predicate Overflows(g: Graph) {
    exists s :: s in g.blocks && g.blocks[s].End() >= TWO64
  }

  /** The instruction loop of the check: the run must be new, contiguous and in range. */
  method CheckRun(b: BasicBlock, seen: set<Address>) returns (r: Result<set<Address>>)
    requires b.instructions != []
    ensures r.Ok? <==> b.start % 4 == 0 && RunShape(b.start, b) && AddressesOf(b) !! seen
    ensures r.Ok? ==> r.value == seen + AddressesOf(b)
    ensures r.Err? ==> r.code == InvalidFormat || (r.code == ArithmeticOverflow && b.End() >= TWO64)
  {
    var addresses := seen;
    var expected: Address := b.start;
    for k := 0 to |b.instructions|
      invariant expected == b.start + 4 * k && (k > 0 ==> expected < TWO64)
      invariant forall i :: 0 <= i < k ==>
                  && b.instructions[i].address == b.start + 4 * i
                  && b.instructions[i].address % 4 == 0
                  && b.instructions[i].address !in seen
      invariant addresses == seen + set i | 0 <= i < k :: b.instructions[i].address
    {
      var a := b.instructions[k].address;
      assert a in AddressesOf(b);
      if a != expected || a % 4 != 0 || a in addresses {
        return Err(InvalidFormat);
      }
      addresses := addresses + {a};
      if expected + 4 >= TWO64 {
        return Err(ArithmeticOverflow);
      }
      expected := expected + 4;
    }
    assert b.instructions[0].address == b.start;
    return Ok(addresses);
  }

  method CheckEdges(b: BasicBlock, keys: set<Address>) returns (ok: bool)
    requires b.instructions != []
    ensures ok <==> forall i :: 0 <= i < |b.successors| ==> EdgeShape(keys, b, b.successors[i])
  {
    for k := 0 to |b.successors|
      invariant forall i :: 0 <= i < k ==> EdgeShape(keys, b, b.successors[i])
    {
      var e := b.successors[k];
      if e.source != b.Last().address
         || (e.internal && e.target !in keys)
         || (e.kind.FunctionTransfer? && (e.internal || e.target in keys)) {
        assert !EdgeShape(keys, b, b.successors[k]);
        return false;
      }
    }
    return true;
  }

  /** The checks on one block, given the addresses of the blocks before it. */
  method CheckBlock(keys: set<Address>, s: Address, b: BasicBlock, seen: set<Address>)
    returns (r: Result<set<Address>>)
    ensures r.Ok? <==> BlockShape(keys, s, b) && AddressesOf(b) !! seen
    ensures r.Ok? ==> r.value == seen + AddressesOf(b)
    ensures r.Err? ==> r.code == InvalidFormat || (r.code == ArithmeticOverflow && b.End() >= TWO64)
  {
    if s % 4 != 0 || b.start != s || b.instructions == [] {
      return Err(InvalidFormat);
    }
    r := CheckRun(b, seen);
    if r.Err? {
      return;
    }
    var edges := CheckEdges(b, keys);
    TerminatorPassesExactly(b);
    if !edges || !TerminatorPasses(b) {
      return Err(InvalidFormat);
    }
  }

  method ValidateControlFlowGraph(g: Graph) returns (r: Result<()>)
    ensures r.Ok? <==> WellFormed(g)
    ensures r.Err? ==> r.code == InvalidFormat || (r.code == ArithmeticOverflow && Overflows(g))
  {
    var remaining := g.blocks.Keys;
    var addresses: set<Address> := {};
    while remaining != {}
      invariant remaining <= g.blocks.Keys
      invariant Checked(g, g.blocks.Keys - remaining, addresses)
      decreases remaining
    {
      var s := Least(remaining);
      var checked := CheckBlock(g.blocks.Keys, s, g.blocks[s], addresses);
      if checked.Err? {
        RejectBlock(g, g.blocks.Keys - remaining, addresses, s);
        return Err(checked.code);
      }
      AcceptBlock(g, g.blocks.Keys - remaining, addresses, s);
      assert g.blocks.Keys - (remaining - {s}) == g.blocks.Keys - remaining + {s};
      addresses := checked.value;
      remaining := remaining - {s};
    }
    assert g.blocks.Keys - remaining == g.blocks.Keys;
    return Ok(());
  }

  /** The blocks `done` passed every check, and `seen` holds their instructions. */
  ghost predicate Checked(g: Graph, done: set<Address>, seen: set<Address>) {
    && done <= g.blocks.Keys
    && (forall s :: s in done ==> BlockShape(g.blocks.Keys, s, g.blocks[s]) && AddressesOf(g.blocks[s]) <= seen)
    && (forall a :: a in seen ==> exists s :: s in done && a in AddressesOf(g.blocks[s]))
    && (forall s, t :: s in done && t in done && s != t ==> AddressesOf(g.blocks[s]) !! AddressesOf(g.blocks[t]))
  }

  lemma AcceptBlock(g: Graph, done: set<Address>, seen: set<Address>, s: Address)
    requires Checked(g, done, seen)
    requires s in g.blocks && BlockShape(g.blocks.Keys, s, g.blocks[s]) && AddressesOf(g.blocks[s]) !! seen
    ensures Checked(g, done + {s}, seen + AddressesOf(g.blocks[s]))
  {
    hide BlockShape, AddressesOf;
    forall t | t in done && t != s
      ensures AddressesOf(g.blocks[s]) !! AddressesOf(g.blocks[t])
    {
    }
    forall a | a in seen + AddressesOf(g.blocks[s])
      ensures exists t :: t in done + {s} && a in AddressesOf(g.blocks[t])
    {
      if a in seen {
        var t :| t in done && a in AddressesOf(g.blocks[t]);
        assert t in done + {s};
      } else {
        assert s in done + {s};
      }
    }
  }

  lemma RejectBlock(g: Graph, done: set<Address>, seen: set<Address>, s: Address)
    requires Checked(g, done, seen)
    requires s in g.blocks && s !in done
    requires !BlockShape(g.blocks.Keys, s, g.blocks[s]) || !(AddressesOf(g.blocks[s]) !! seen)
    ensures !WellFormed(g)
  {
    if BlockShape(g.blocks.Keys, s, g.blocks[s]) {
      var a :| a in AddressesOf(g.blocks[s]) && a in seen;
      var t :| t in done && a in AddressesOf(g.blocks[t]);
      assert !(AddressesOf(g.blocks[s]) !! AddressesOf(g.blocks[t]));
    }
  }
}
