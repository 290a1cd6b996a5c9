/** What graphs are charged against the budgets, counted by their instructions. */
module GraphCharges {
  import opened Common
  import opened ControlFlow
  import opened CfgTheorems
  import opened FunctionDiscovery
  import opened BuildAccounts
  import opened AmpleBudgets

  /** The addresses at which instructions of these kinds lie. */
  ghost function OfKinds(guest: GuestView, s: set<Address>, kinds: set<FlowKind>): set<Address> {
    set a | a in s && guest.fetch(a).Ok? && guest.fetch(a).value.flow.kind in kinds
  }

  /** Two edges or an edge and a call, instead of one edge. */
  const DOUBLE := {ConditionalBranch, DirectCall, IndirectCall}
  const LEFT_OPEN := {IndirectBranch, IndirectCall, FlowKind.Unknown}
  const LAST := {Return, IndirectBranch, Trap, Exception, FlowKind.Unknown}

  /** The blocks that end in an instruction of these kinds. */
  ghost function EndingIn(blocks: map<Address, BasicBlock>, starts: set<Address>, kinds: set<FlowKind>): set<Address> {
    set s | s in starts && s in blocks && blocks[s].instructions != [] && blocks[s].Last().flow.kind in kinds
  }

  lemma OneMoreEnds(blocks: map<Address, BasicBlock>, starts: set<Address>, s: Address, kinds: set<FlowKind>)
    requires s in starts && s in blocks && blocks[s].instructions != []
    ensures |EndingIn(blocks, starts, kinds)| ==
            |EndingIn(blocks, starts - {s}, kinds)| + if blocks[s].Last().flow.kind in kinds then 1 else 0
  {
    var all, rest := EndingIn(blocks, starts, kinds), EndingIn(blocks, starts - {s}, kinds);
    if blocks[s].Last().flow.kind in kinds {
      assert all == rest + {s};
    } else {
      assert all == rest;
    }
  }

  ghost predicate IsCharged(b: BasicBlock) {
    && b.instructions != []
    && |b.successors| + |b.calls| ==
       1 + (if b.Last().flow.kind in DOUBLE then 1 else 0) - (if b.Last().flow.kind in LAST then 1 else 0)
  }

  lemma {:induction false} SumIsExact(blocks: map<Address, BasicBlock>, starts: set<Address>)
    requires starts <= blocks.Keys && forall s :: s in starts ==> IsCharged(blocks[s])
    ensures EdgeSum(blocks, starts) == |starts| + |EndingIn(blocks, starts, DOUBLE)| - |EndingIn(blocks, starts, LAST)|
    decreases starts
  {
    if starts == {} {
      assert EndingIn(blocks, starts, DOUBLE) == {} && EndingIn(blocks, starts, LAST) == {};
    } else {
      var s := Least(starts);
      SumIsExact(blocks, starts - {s});
      OneMoreEnds(blocks, starts, s, DOUBLE);
      OneMoreEnds(blocks, starts, s, LAST);
    }
  }

  lemma EdgesAreCharged(p: Problem, i: Instruction)
    requires p.ErrorAfter(i).None? && (i.flow.kind.Fallthrough? ==> i.address + 4 < TWO64)
    ensures |p.Edges(i)| + |p.CallsOf(i)| ==
            1 + (if i.flow.kind in DOUBLE then 1 else 0) - (if i.flow.kind in LAST then 1 else 0)
  {
  }

  lemma BlockIsCharged(p: Problem, g: Graph, s: Address)
    requires p.guest.FetchesCode() && p.IsAnalysis(g) && s in g.blocks
    ensures IsCharged(g.blocks[s])
  {
    LastIsReached(p, g, s);
    assert p.StepError(g.blocks[s].Last().address).None?;
    hide Problem.IsAnalysis, Problem.Reaches, Problem.IsMaximal, Problem.Edges, Problem.CallsOf;
    EdgesAreCharged(p, g.blocks[s].Last());
  }

  ghost function Ends(blocks: map<Address, BasicBlock>, starts: set<Address>): set<Address> {
    set s | s in starts && s in blocks && blocks[s].instructions != [] :: blocks[s].Last().address
  }

  lemma {:induction false} EndsAreDifferent(blocks: map<Address, BasicBlock>, starts: set<Address>)
    requires forall s :: s in starts ==> s in blocks && blocks[s].instructions != []
    requires forall s, t :: s in starts && t in starts && blocks[s].Last().address == blocks[t].Last().address ==> s == t
    ensures |Ends(blocks, starts)| == |starts|
    decreases starts
  {
    if starts == {} {
      assert Ends(blocks, starts) == {};
    } else {
      var s := Least(starts);
      EndsAreDifferent(blocks, starts - {s});
      assert Ends(blocks, starts) == Ends(blocks, starts - {s}) + {blocks[s].Last().address};
    }
  }

  lemma LastIsUnique(p: Problem, g: Graph, s: Address, t: Address)
    requires p.IsAnalysis(g) && s in g.blocks && t in g.blocks
    requires g.blocks[s].instructions != [] && g.blocks[t].instructions != []
    requires g.blocks[s].Last().address == g.blocks[t].Last().address
    ensures s == t
  {
    hide Problem.IsAnalysis;
    ExactlyOnce(p, g, s, t, |g.blocks[s].instructions| - 1, |g.blocks[t].instructions| - 1);
  }

  /** An instruction that is not a plain one ends its block. */
  lemma JumpIsLast(p: Problem, g: Graph, a: Address) returns (s: Address)
    requires p.IsAnalysis(g) && a in Addresses(g)
    requires p.guest.fetch(a).Ok? ==> !p.guest.fetch(a).value.flow.kind.Fallthrough?
    ensures s in g.blocks && g.blocks[s].instructions != [] && g.blocks[s].Last().address == a
    ensures p.guest.fetch(a) == Ok(g.blocks[s].Last())
  {
    var i;
    s, i :| s in g.blocks && 0 <= i < |g.blocks[s].instructions| && g.blocks[s].instructions[i].address == a;
    assert p.BlockAt(s, g.blocks[s]);
  }

  lemma EndIsOfKind(p: Problem, g: Graph, s: Address)
    requires p.IsAnalysis(g) && s in g.blocks
    ensures g.blocks[s].instructions != [] && g.blocks[s].Last().address in Addresses(g)
    ensures p.guest.fetch(g.blocks[s].Last().address) == Ok(g.blocks[s].Last())
  {
    LastIsReached(p, g, s);
    assert forall a :: a in Addresses(g) <==> p.Reaches(a);
  }

  /** There are as many blocks that end in these kinds as instructions of them. */
  lemma EndsAreOfKind(p: Problem, g: Graph, kinds: set<FlowKind>)
    requires p.IsAnalysis(g) && Fallthrough !in kinds
    ensures |EndingIn(g.blocks, g.blocks.Keys, kinds)| == |OfKinds(p.guest, Addresses(g), kinds)|
  {
    hide Problem.IsAnalysis, Addresses;
    var ending := EndingIn(g.blocks, g.blocks.Keys, kinds);
    forall s, t | s in ending && t in ending && g.blocks[s].Last().address == g.blocks[t].Last().address
      ensures s == t
    {
      LastIsUnique(p, g, s, t);
    }
    EndsAreDifferent(g.blocks, ending);
    forall a
      ensures a in Ends(g.blocks, ending) <==> a in OfKinds(p.guest, Addresses(g), kinds)
    {
      EndOfKind(p, g, kinds, a);
    }
    assert Ends(g.blocks, ending) == OfKinds(p.guest, Addresses(g), kinds);
  }

  lemma EndOfKind(p: Problem, g: Graph, kinds: set<FlowKind>, a: Address)
    requires p.IsAnalysis(g) && Fallthrough !in kinds
    ensures a in Ends(g.blocks, EndingIn(g.blocks, g.blocks.Keys, kinds)) <==> a in OfKinds(p.guest, Addresses(g), kinds)
  {
    hide Problem.IsAnalysis, Addresses;
    if a in OfKinds(p.guest, Addresses(g), kinds) {
      var s := JumpIsLast(p, g, a);
      assert s in EndingIn(g.blocks, g.blocks.Keys, kinds);
    }
    if a in Ends(g.blocks, EndingIn(g.blocks, g.blocks.Keys, kinds)) {
      var s :| s in EndingIn(g.blocks, g.blocks.Keys, kinds) && g.blocks[s].Last().address == a;
      EndIsOfKind(p, g, s);
    }
  }

  lemma OpenAreListed(p: Problem, g: Graph)
    requires p.guest.FetchesCode() && p.IsAnalysis(g)
    ensures |g.unresolved| == |OfKinds(p.guest, Addresses(g), LEFT_OPEN)|
  {
    assert p.ListsUnresolved(Addresses(g), g.unresolved);
    assert forall a :: a in Addresses(g) <==> p.Reaches(a);
    assert forall a :: p.Reaches(a) ==> p.StepError(a).None?;
    hide Problem.IsAnalysis, Problem.Reaches, Addresses;
    AllCount(g.unresolved);
    forall a
      ensures a in AddressesOfSome(g.unresolved) <==> a in OfKinds(p.guest, Addresses(g), LEFT_OPEN)
    {
      OpenIsListed(p, Addresses(g), g.unresolved, a);
    }
    assert AddressesOfSome(g.unresolved) == OfKinds(p.guest, Addresses(g), LEFT_OPEN);
  }

  lemma OpenIsListed(p: Problem, s: set<Address>, unresolved: seq<Unresolved>, a: Address)
    requires p.guest.FetchesCode() && p.ListsUnresolved(s, unresolved)
    ensures a in AddressesOfSome(unresolved) <==> a in OfKinds(p.guest, s, LEFT_OPEN)
  {
    if a in AddressesOfSome(unresolved) {
      var i :| 0 <= i < |unresolved| && unresolved[i].address == a;
      assert unresolved[i] in unresolved;
      assert p.UnresolvedOf(p.guest.fetch(a).value) == [unresolved[i]];
    }
    if a in OfKinds(p.guest, s, LEFT_OPEN) {
      var i := p.guest.fetch(a).value;
      var u := Unresolved(i.address, i.flow.kind, i.flow.register);
      assert u in p.UnresolvedOf(i);
      assert u in unresolved && u.address == a;
    }
  }

  /** A graph is charged an edge for every block, one more for a conditional branch or a call, one for every transfer
      left open, and none for the end of a block that goes nowhere. */
  lemma ChargeIsExact(p: Problem, g: Graph)
    requires p.guest.FetchesCode() && p.IsAnalysis(g)
    ensures EdgeCount(g) == |g.blocks| + |OfKinds(p.guest, Addresses(g), DOUBLE)| + |OfKinds(p.guest, Addresses(g), LEFT_OPEN)|
                            - |OfKinds(p.guest, Addresses(g), LAST)|
  {
    hide Problem.IsAnalysis, EdgeSum, OfKinds, EndingIn, Addresses;
    forall s | s in g.blocks
      ensures IsCharged(g.blocks[s])
    {
      BlockIsCharged(p, g, s);
    }
    SumIsExact(g.blocks, g.blocks.Keys);
    EndsAreOfKind(p, g, DOUBLE);
    EndsAreOfKind(p, g, LAST);
    OpenAreListed(p, g);
    assert |g.blocks| == |g.blocks.Keys|;
  }

  // Several graphs.

  /** The addresses that the graphs hold, each with the entry of its graph. */
  ghost function Held(graphs: map<Address, Graph>, part: Graph -> set<Address>): set<(Address, Address)> {
    set e, a | e in graphs && a in part(graphs[e]) :: (e, a)
  }

  ghost function Starts(): Graph -> set<Address> { (g: Graph) => g.blocks.Keys }

  ghost function WithEntry(e: Address, s: set<Address>): set<(Address, Address)> { set a | a in s :: (e, a) }

  lemma {:induction false} SameSize(e: Address, s: set<Address>)
    ensures |WithEntry(e, s)| == |s|
    decreases s
  {
    if s == {} {
      assert WithEntry(e, s) == {};
    } else {
      var a := Least(s);
      SameSize(e, s - {a});
      assert WithEntry(e, s) == WithEntry(e, s - {a}) + {(e, a)};
    }
  }

  lemma HeldAdds(graphs: map<Address, Graph>, e: Address, part: Graph -> set<Address>)
    requires e in graphs
    ensures |Held(graphs, part)| == |Held(Without(graphs, e), part)| + |part(graphs[e])|
  {
    SameSize(e, part(graphs[e]));
    hide Without;
    var rest, own := Held(Without(graphs, e), part), WithEntry(e, part(graphs[e]));
    assert Held(graphs, part) == rest + own;
    assert rest !! own;
  }

  /** The work of several graphs is the number of their instructions and of their blocks, each graph counted by
      itself, and four bytes for every instruction. */
  lemma {:induction false} TotalIsExact(graphs: map<Address, Graph>)
    requires forall e :: e in graphs ==> graphs[e].instructionCount == |Addresses(graphs[e])|
    ensures Total(graphs).instructions == |Held(graphs, Addresses)| && Total(graphs).blocks == |Held(graphs, Starts())|
    ensures Total(graphs).bytes == 4 * |Held(graphs, Addresses)|
    decreases |graphs|
  {
    hide Addresses, Held, Without, EdgeCount;
    if graphs == map[] {
      NothingIsHeld(graphs, Addresses);
      NothingIsHeld(graphs, Starts());
    } else {
      var e := Least(graphs.Keys);
      TotalIsExact(Without(graphs, e));
      HeldAdds(graphs, e, Addresses);
      HeldAdds(graphs, e, Starts());
      assert |graphs[e].blocks| == |graphs[e].blocks.Keys|;
    }
  }

  lemma NothingIsHeld(graphs: map<Address, Graph>, part: Graph -> set<Address>)
    requires graphs == map[]
    ensures |Held(graphs, part)| == 0
  {
    assert Held(graphs, part) == {};
  }

  /** One more graph adds its own edges, and those of the others stay. */
  lemma EdgesAdd(graphs: map<Address, Graph>, e: Address, g: Graph)
    requires e !in graphs
    ensures Total(graphs[e := g]).edges == Total(graphs).edges + EdgeCount(g) && Total(map[]).edges == 0
  {
    TotalAdds(graphs, e, g);
    hide EdgeCount;
  }
}
