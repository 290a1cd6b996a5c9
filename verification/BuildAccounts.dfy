/** The work and the calls of the graphs that a build has made, added up. */
module BuildAccounts {
  import opened Common
  import opened ControlFlow
  import opened FunctionRecords
  import opened FunctionDiscovery
  import opened BuildSteps
  import opened BuildInvariant

  const NO_WORK := Usage(0, 0, 0, 0)

  /** All the work of the graphs. */
  function Total(graphs: map<Address, Graph>): Usage
    decreases |graphs|
  {
    if graphs == map[] then NO_WORK
    else
      var e := Least(graphs.Keys);
      Consumed(Total(Without(graphs, e)), graphs[e])
  }

  function Without(graphs: map<Address, Graph>, e: Address): (r: map<Address, Graph>)
    ensures e in graphs ==> |r| < |graphs|
    ensures forall x :: x in r <==> x in graphs && x != e
    ensures forall x :: x in r ==> r[x] == graphs[x]
  {
    var r := graphs - {e};
    assert r.Keys == graphs.Keys - {e} && |r| == |r.Keys| && |graphs| == |graphs.Keys|;
    r
  }

  lemma AddedIsWithout(graphs: map<Address, Graph>, e: Address, g: Graph)
    requires e !in graphs
    ensures Without(graphs[e := g], e) == graphs
  {
    hide Without;
  }

  lemma WithoutMore(graphs: map<Address, Graph>, e: Address, g: Graph, x: Address)
    requires x != e
    ensures Without(graphs[e := g], x) == Without(graphs, x)[e := g]
  {
    hide Without;
  }

  lemma LeastOfMore(graphs: map<Address, Graph>, e: Address, g: Graph)
    requires e !in graphs
    ensures graphs[e := g].Keys == graphs.Keys + {e} && graphs[e := g] != map[]
    ensures
      var x := Least(graphs[e := g].Keys);
      x == e || (x in graphs && graphs != map[] && x == Least(graphs.Keys))
  {
    var more := graphs[e := g];
    assert e in more.Keys && e in more;
    var x := Least(more.Keys);
    if x != e {
      assert graphs.Keys == more.Keys - {e};
    }
  }

  lemma ConsumedCommutes(u: Usage, g: Graph, h: Graph)
    ensures Consumed(Consumed(u, g), h) == Consumed(Consumed(u, h), g)
  {
    hide EdgeCount;
  }

  lemma ConsumedIsMore(u: Usage, v: Usage, g: Graph)
    requires NoMore(u, v)
    ensures NoMore(Consumed(u, g), Consumed(v, g))
  {
    hide EdgeCount;
  }

  lemma NothingIsLess(u: Usage)
    ensures NoMore(NO_WORK, u)
  {
  }

  /** The order in which graphs are charged leaves no trace. */
  lemma {:induction false} TotalAdds(graphs: map<Address, Graph>, e: Address, g: Graph)
    requires e !in graphs
    ensures Total(graphs[e := g]) == Consumed(Total(graphs), g)
    decreases |graphs|
  {
    hide Without, Least, Consumed;
    LeastOfMore(graphs, e, g);
    var x := Least(graphs[e := g].Keys);
    if x == e {
      AddedIsWithout(graphs, e, g);
    } else {
      WithoutMore(graphs, e, g, x);
      TotalAdds(Without(graphs, x), e, g);
      ConsumedCommutes(Total(Without(graphs, x)), graphs[x], g);
    }
  }

  /** How many in-range functions the graphs call, each graph counted by itself. */
  function CallTotal(s: Setting, graphs: map<Address, Graph>): nat
    decreases |graphs|
  {
    if graphs == map[] then 0
    else
      var e := Least(graphs.Keys);
      CallTotal(s, Without(graphs, e)) + CallCount(s, graphs[e])
  }

  function CallCount(s: Setting, g: Graph): nat { |InRangeOf(s, TargetsOf(g))| }

  lemma {:induction false} CallTotalAdds(s: Setting, graphs: map<Address, Graph>, e: Address, g: Graph)
    requires e !in graphs
    ensures CallTotal(s, graphs[e := g]) == CallTotal(s, graphs) + CallCount(s, g)
    decreases |graphs|
  {
    hide CallCount;
    hide Without, Least;
    LeastOfMore(graphs, e, g);
    var x := Least(graphs[e := g].Keys);
    if x == e {
      AddedIsWithout(graphs, e, g);
    } else {
      WithoutMore(graphs, e, g, x);
      CallTotalAdds(s, Without(graphs, x), e, g);
    }
  }

  predicate NoMore(u: Usage, v: Usage) {
    u.instructions <= v.instructions && u.blocks <= v.blocks && u.edges <= v.edges && u.bytes <= v.bytes
  }

  /** Some of the graphs are no more work than all of them. */
  lemma {:induction false} PartIsLess(part: map<Address, Graph>, graphs: map<Address, Graph>)
    requires forall x :: x in part ==> x in graphs && graphs[x] == part[x]
    ensures NoMore(Total(part), Total(graphs))
    decreases |part|
  {
    hide Consumed, NoMore, Least, Without;
    if part == map[] {
      NothingIsLess(Total(graphs));
    } else {
      var e := Least(part.Keys);
      var rest := Without(graphs, e);
      AddedAgain(graphs, e);
      TotalAdds(rest, e, graphs[e]);
      PartIsLess(Without(part, e), rest);
      ConsumedIsMore(Total(Without(part, e)), Total(rest), graphs[e]);
    }
  }

  lemma AddedAgain(graphs: map<Address, Graph>, e: Address)
    requires e in graphs
    ensures Without(graphs, e)[e := graphs[e]] == graphs
  {
    hide Without;
  }

  /** The graphs that the records keep. */
  function GraphsOf(records: map<Address, FunctionRecord>): map<Address, Graph> {
    map e | e in records && records[e].cfg.Some? :: records[e].cfg.value
  }

  lemma GraphsOfReplaced(records: map<Address, FunctionRecord>, e: Address, f: FunctionRecord)
    requires e in records && records[e].cfg.None?
    ensures e !in GraphsOf(records)
    ensures GraphsOf(records[e := f]) == if f.cfg.Some? then GraphsOf(records)[e := f.cfg.value] else GraphsOf(records)
  {
  }

  lemma NoGraphs(records: map<Address, FunctionRecord>)
    requires forall e :: e in records ==> records[e].cfg.None?
    ensures GraphsOf(records) == map[]
  {
    var none: map<Address, Graph> := map[];
    forall e
      ensures e in GraphsOf(records) <==> e in none
    {
    }
    assert GraphsOf(records) == none;
  }

  lemma GraphsStay(before: map<Address, FunctionRecord>, after: map<Address, FunctionRecord>)
    requires Grows(before, after)
    ensures GraphsOf(after) == GraphsOf(before)
  {
    forall e
      ensures e in GraphsOf(after) <==> e in GraphsOf(before)
      ensures e in GraphsOf(before) ==> e in GraphsOf(after) && GraphsOf(after)[e] == GraphsOf(before)[e]
    {
    }
  }

  /** In discovery the consumed work is that of the graphs kept, and the seed budget has been charged at least for
      the entries taken or waiting, and at most for the seeds and the calls. */
  ghost predicate Balanced(s: Setting, b: Book) {
    && b.usage == Total(GraphsOf(b.records))
    && |b.processed| + |b.pending| <= b.seedCount <= |s.input.seeds| + CallTotal(s, GraphsOf(b.records))
  }

  /** What following up calls charges. */
  lemma FollowingIsCharged(s: Setting, b: Book, targets: seq<Address>)
    requires IsFit(s) && Proper(s, b.records) && Counted(s, b) && Traced(s, b.known, b.boundaries)
    ensures
      var o := AddCalls(s, b, targets);
      o.Done? ==>
        && GraphsOf(o.value.records) == GraphsOf(b.records) && o.value.usage == b.usage
        && o.value.processed == b.processed && o.value.pending == b.pending + InRangeOf(s, targets)
        && o.value.seedCount == b.seedCount + |InRangeOf(s, targets) - b.pending|
  {
    hide AddCalls, IsFit, Proper, Counted, Traced, InRangeOf;
    AddCallsExtends(s, b, targets);
    var o := AddCalls(s, b, targets);
    if o.Done? {
      ExtensionIsCharged(b, o.value, InRangeOf(s, targets)) by {
        hide Grows;
      }
    }
  }

  lemma ExtensionIsCharged(b: Book, c: Book, t: set<Address>)
    requires Extends(b, c) && c.pending == b.pending + t
    ensures GraphsOf(c.records) == GraphsOf(b.records) && c.usage == b.usage && c.processed == b.processed
    ensures c.seedCount == b.seedCount + |t - b.pending|
  {
    hide GraphsOf, Grows;
    GraphsStay(b.records, c.records);
    assert c.pending == b.pending + (t - b.pending);
  }

  lemma StoreIsCharged(s: Setting, b: Book, e: Address, g: Graph, at: Knowledge)
    requires e in b.records && b.records[e].cfg.None? && Store(s, b, e, g, at).Done?
    ensures
      var c := Store(s, b, e, g, at).value;
      && c.usage == Consumed(b.usage, g) && GraphsOf(c.records) == GraphsOf(b.records)[e := g] && e !in GraphsOf(b.records)
      && c.processed == b.processed && c.pending == b.pending && c.seedCount == b.seedCount
  {
    assert Described(s, b.known, b.records[e], g).cfg == Some(g) by {
      hide Ownable, RangesOf, OwnedEntries, TargetsOf;
    }
    hide Described, Overrun, Consumed, GraphsOf;
    GraphsOfReplaced(b.records, e, Described(s, b.known, b.records[e], g));
  }

  lemma StoringBalances(s: Setting, b: Book, c: Book, e: Address, g: Graph, waiting: set<Address>)
    requires Balanced(s, b) && e !in GraphsOf(b.records)
    requires GraphsOf(c.records) == GraphsOf(b.records)[e := g] && c.usage == Consumed(b.usage, g)
    requires c.processed == b.processed && c.pending == b.pending + waiting
    requires c.seedCount == b.seedCount + |waiting - b.pending| && |waiting| <= CallCount(s, g)
    ensures Balanced(s, c)
  {
    hide GraphsOf, Consumed, CallCount;
    TotalAdds(GraphsOf(b.records), e, g);
    CallTotalAdds(s, GraphsOf(b.records), e, g);
    assert c.pending == b.pending + (waiting - b.pending);
    SubsetIsSmaller(waiting - b.pending, waiting);
  }

  /** `process_graph` charges exactly the work of the graph it keeps. */
  lemma ProcessBalances(s: Setting, b: Book, e: Address, graph: Result<Graph>, at: Knowledge)
    requires IsFit(s) && Sound(s, b, None) && e in b.records && b.records[e].cfg.None? && e !in b.checkpoints
    requires IsBasis(s, b.boundaries, at) && Analyzes(s, e, at.entries, graph)
    requires Balanced(s, b) && Process(s, b, e, graph, at).Done?
    ensures Balanced(s, Process(s, b, e, graph, at).value)
  {
    hide Sound, IsFit, IsBasis, Balanced, Described, Store, AddCalls, Ownable, GraphIsFrom, TargetsOf, Problem.FailureCause;
    var o := Process(s, b, e, graph, at);
    if graph.Ok? {
      ProcessGraphBalances(s, b, e, graph.value, at);
    } else {
      FailureBalances(s, b, o.value, e);
    }
  }

  lemma FailureBalances(s: Setting, b: Book, c: Book, e: Address)
    requires Balanced(s, b) && e in b.records && b.records[e].cfg.None?
    requires e in c.records && c.records[e].cfg.None?
    requires c == b.(records := b.records[e := c.records[e]], basis := c.basis)
    ensures Balanced(s, c)
  {
    hide GraphsOf, Total, CallTotal;
    GraphsOfReplaced(b.records, e, c.records[e]);
  }

  lemma ProcessGraphBalances(s: Setting, b: Book, e: Address, g: Graph, at: Knowledge)
    requires IsFit(s) && Sound(s, b, None) && e in b.records && b.records[e].cfg.None? && e !in b.checkpoints
    requires IsBasis(s, b.boundaries, at) && GraphIsFrom(s, e, g, at.entries)
    requires Balanced(s, b) && Process(s, b, e, Ok(g), at).Done?
    ensures Balanced(s, Process(s, b, e, Ok(g), at).value)
  {
    hide Sound, IsFit, IsBasis, Balanced, Described, Store, AddCalls, Ownable, GraphIsFrom, GraphsOf, Consumed, InRangeOf;
    StoreIsStored(s, b, e, g, at);
    StoreIsCharged(s, b, e, g, at);
    var stored := Store(s, b, e, g, at).value;
    var c := Process(s, b, e, Ok(g), at).value;
    if Ownable(g, s.input.executable) {
      SoundIsReady(s, stored, Some(e));
      FollowingIsCharged(s, stored, TargetsOf(g));
      StoringBalances(s, b, c, e, g, InRangeOf(s, TargetsOf(g)));
    } else {
      assert stored.pending == b.pending + {};
      StoringBalances(s, b, c, e, g, {});
    }
  }

  lemma SoundIsReady(s: Setting, b: Book, open: Option<Address>)
    requires Sound(s, b, open)
    ensures Proper(s, b.records) && Counted(s, b) && Traced(s, b.known, b.boundaries)
  {
    hide Proper, Counted, Traced, Recalled, CheckpointsCount, Closed, AllCallable;
  }
}
