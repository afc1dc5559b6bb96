/**
 * The entities the global scheduler's metric handlers read and write: execution
 * vertices and DAGs, per-group information with its metrics, the group map and
 * the process-wide metric holders.
 */
module GlobalSched {

  /** An execution vertex, tagged by its type; an operator chain carries its queued-event count. */
  datatype ExecutionVertex =
    | Source
    | OperatorChain(numberOfEvents: nat)
    | Sink

  datatype ExecutionDag = ExecutionDag(vertices: seq<ExecutionVertex>)

  /** The tick published on the event bus; it carries nothing. */
  datatype MetricTrackEvent = MetricTrackEvent

  /** The queued events a vertex contributes to its group's count: only operator chains count. */
  function VertexEvents(v: ExecutionVertex): nat {
    match v
    case OperatorChain(n) => n
    case _ => 0
  }

  /** The sum of VertexEvents over a vertex collection. */
  function SumVertexEvents(vs: seq<ExecutionVertex>): nat {
    if vs == [] then 0 else SumVertexEvents(vs[..|vs| - 1]) + VertexEvents(vs[|vs| - 1])
  }

  /** The event count of a group: the chains' queued events summed over all its DAGs. */
  function SumDagEvents(dags: seq<ExecutionDag>): nat {
    if dags == [] then 0 else SumDagEvents(dags[..|dags| - 1]) + SumVertexEvents(dags[|dags| - 1].vertices)
  }

  /** The operator chains of a vertex collection, in order. */
  function Chains(vs: seq<ExecutionVertex>): seq<ExecutionVertex> {
    if vs == [] then []
    else Chains(vs[..|vs| - 1]) + (if vs[|vs| - 1].OperatorChain? then [vs[|vs| - 1]] else [])
  }

  lemma {:induction false} SumVertexEventsAppend(a: seq<ExecutionVertex>, b: seq<ExecutionVertex>)
    ensures SumVertexEvents(a + b) == SumVertexEvents(a) + SumVertexEvents(b)
  {
    if b == [] {
      assert a + b == a;
    } else {
      SumVertexEventsAppend(a, b[..|b| - 1]);
      assert (a + b)[..|a + b| - 1] == a + b[..|b| - 1];
    }
  }

  /** Sources and sinks contribute nothing: a collection counts exactly as its operator chains do. */
  lemma {:induction false} OnlyChainsCount(vs: seq<ExecutionVertex>)
    ensures SumVertexEvents(vs) == SumVertexEvents(Chains(vs))
  {
    if vs != [] {
      var init, last := vs[..|vs| - 1], vs[|vs| - 1];
      OnlyChainsCount(init);
      if last.OperatorChain? {
        assert Chains(vs) == Chains(init) + [last];
        assert (Chains(init) + [last])[..|Chains(init)|] == Chains(init);
      } else {
        assert Chains(vs) == Chains(init) + [];
        assert Chains(vs) == Chains(init);
      }
    }
  }

  /** Chains keeps operator chains of the collection only. */
  lemma {:induction false} ChainsAreChains(vs: seq<ExecutionVertex>)
    ensures forall v :: v in Chains(vs) ==> v in vs && v.OperatorChain?
  {
    if vs != [] {
      var init := vs[..|vs| - 1];
      ChainsAreChains(init);
      assert vs == init + [vs[|vs| - 1]];
    }
  }

  /** Adding a source or a sink to a DAG leaves its count unchanged. */
  lemma NonChainAddsNothing(vs: seq<ExecutionVertex>, v: ExecutionVertex)
    requires !v.OperatorChain?
    ensures SumVertexEvents(vs + [v]) == SumVertexEvents(vs)
  {
    assert (vs + [v])[..|vs|] == vs;
  }

  /** The information of one group; its execution DAGs are only read by the metric handlers. */
  class GroupInfo {
    const executionDags: seq<ExecutionDag>
    /** The samples the group's numEvents EWMA metric has received, oldest first. */
    var numEventsSamples: seq<nat>
    /** The value of the group's weight metric. */
    var weight: real

    constructor (executionDags: seq<ExecutionDag>)
      ensures this.executionDags == executionDags
      ensures numEventsSamples == [] && weight == 0.0
    {
      this.executionDags := executionDags;
      numEventsSamples := [];
      weight := 0.0;
    }
  }

  /** True iff the groups are pairwise distinct objects. */
  predicate DistinctGroups(gs: seq<GroupInfo>) {
    forall i, j :: 0 <= i < j < |gs| ==> gs[i] != gs[j]
  }

  /** The sum of the groups' event counts. */
  function SumGroupEvents(gs: seq<GroupInfo>): nat {
    if gs == [] then 0 else SumGroupEvents(gs[..|gs| - 1]) + SumDagEvents(gs[|gs| - 1].executionDags)
  }

  /** The sum of the groups' weights. */
  function SumWeights(gs: seq<GroupInfo>): real
    reads set g | g in gs
  {
    if gs == [] then 0.0 else SumWeights(gs[..|gs| - 1]) + gs[|gs| - 1].weight
  }

  function SumReals(xs: seq<real>): real {
    if xs == [] then 0.0 else SumReals(xs[..|xs| - 1]) + xs[|xs| - 1]
  }

  /** The sum of the groups' weights is the sum of the list of their weights. */
  lemma {:induction false} SumWeightsOf(gs: seq<GroupInfo>, ws: seq<real>)
    requires |gs| == |ws|
    requires forall j :: 0 <= j < |gs| ==> gs[j].weight == ws[j]
    ensures SumWeights(gs) == SumReals(ws)
  {
    if gs != [] {
      SumWeightsOf(gs[..|gs| - 1], ws[..|ws| - 1]);
    }
  }

  /**
   * The group map (group id to group information). Only its values matter to the
   * metric handlers; they are held in the order the map's values() iterates them.
   */
  class GroupInfoMap {
    var values: seq<GroupInfo>

    ghost predicate Valid()
      reads this
    {
      DistinctGroups(values)
    }

    function Size(): (n: nat)
      reads this
    {
      |values|
    }

    constructor (values: seq<GroupInfo>)
      requires DistinctGroups(values)
      ensures this.values == values && Valid()
    {
      this.values := values;
    }
  }

  /** The process-wide metric holder written by the event-number-and-weight handler. */
  class GlobalMetrics {
    /** The samples the global numEvents EWMA metric has received, oldest first. */
    var numEventsSamples: seq<nat>
    /** The value of the global weight metric. */
    var weight: real

    constructor ()
      ensures numEventsSamples == [] && weight == 0.0
    {
      numEventsSamples := [];
      weight := 0.0;
    }
  }

  /** The process-wide metric holder written by the number-of-groups handler. */
  class GlobalSchedGlobalMetrics {
    var numGroups: nat

    constructor ()
      ensures numGroups == 0
    {
      numGroups := 0;
    }
  }
}
