// The distribution network: transformers, distributed generators and lines
// registered in dictionaries and in an undirected graph, a placeholder power
// flow per timestamp over the graph's edges, and the performance summary with
// its loss factor and transformer loading.

module DistributionNetwork {
  import opened Common
  import opened NetworkGraph

  datatype DistributionLine = DistributionLine(
    fromNode: string,
    toNode: string,
    capacity: real,     // kW
    resistance: real,   // ohm/km
    reactance: real,    // ohm/km
    length: real,       // km
    voltage: real)      // kV

  datatype DistributionTransformer = DistributionTransformer(
    name: string,
    location: string,
    capacity: real,           // kVA
    primaryVoltage: real,     // kV
    secondaryVoltage: real,   // kV
    loadServed: real,         // kW
    efficiency: real)

  datatype DistributedGenerator = DistributedGenerator(
    name: string,
    location: string,
    technology: string,
    capacity: real,           // kW
    voltage: real,            // kV
    powerFactor: real,
    availability: real)

  /** A time series keyed by its timestamps. */
  type Series = seq<(int, real)>

  /** One row of the power-flow table: a line's flow at one timestamp. */
  datatype TimedFlow = TimedFlow(timestamp: int, row: FlowRow)

  /** The row of one edge: the line's clipped flow, and losses of
      flow² × resistance × length. */
  function LineRowOf(e: Edge, line: DistributionLine): (r: Result<FlowRow>)
    ensures r.Ok? <==> LineFlow(line.reactance, line.voltage, line.capacity).Ok?
    ensures r.Ok? ==> r.value.fromNode == e.0 && r.value.toNode == e.1
  {
    match LineFlow(line.reactance, line.voltage, line.capacity)
    case Err(err) => Err(err)
    case Ok(f) =>
      Ok(FlowRow(e.0, e.1, f.powerFlow, f.powerFlow * f.powerFlow * line.resistance * line.length, f.utilization))
  }

  /** A line with a reactance and a positive capacity carries at most its
      capacity, is at most fully utilized, and loses no negative power when
      its resistance and length are not negative. */
  lemma LineRowBounds(e: Edge, line: DistributionLine)
    requires line.reactance != 0.0 && line.capacity > 0.0
    ensures var r := LineRowOf(e, line);
      r.Ok? && Abs(r.value.powerFlow) <= line.capacity &&
      r.value.utilization.Some? && 0.0 <= r.value.utilization.value <= 1.0 &&
      (line.resistance >= 0.0 && line.length >= 0.0 ==> r.value.losses >= 0.0)
  {
    LineFlowClipped(line.reactance, line.voltage, line.capacity);
    LineFlowUtilization(line.reactance, line.voltage, line.capacity);
    var f := LineFlow(line.reactance, line.voltage, line.capacity).value.powerFlow;
    assert f * f >= 0.0;
    if line.resistance >= 0.0 && line.length >= 0.0 {
      ScaleMonotone(0.0, f * f, line.resistance);
      ScaleMonotone(0.0, f * f * line.resistance, line.length);
    }
  }

  /** The injection read of one node at t: a generator node reads its
      generation profile, any other node its load profile; a missing profile
      is a KeyError, a missing timestamp a row KeyError. */
  function InjectionRead(generators: seq<(string, DistributedGenerator)>, loadProfile: seq<(string, Series)>,
                         generationProfile: seq<(string, Series)>, node: string, t: int): Outcome
  {
    var profiles := if Find(generators, node).Some? then generationProfile else loadProfile;
    match Find(profiles, node)
    case None => Fail(KeyError(node))
    case Some(series) => if Find(series, t).Some? then Pass else Fail(RowKeyError(t))
  }

  /** The injection reads of all nodes at t, stopping at the first failure. */
  function InjectionsRead(nodes: seq<string>, generators: seq<(string, DistributedGenerator)>,
                          loadProfile: seq<(string, Series)>, generationProfile: seq<(string, Series)>, t: int): Outcome
  {
    if |nodes| == 0 then Pass
    else
      var k := |nodes| - 1;
      match InjectionsRead(nodes[..k], generators, loadProfile, generationProfile, t)
      case Fail(err) => Fail(err)
      case Pass => InjectionRead(generators, loadProfile, generationProfile, nodes[k], t)
  }

  /** The reads pass exactly when every node's own profile has the timestamp. */
  lemma {:induction false} InjectionsReadExact(nodes: seq<string>, generators: seq<(string, DistributedGenerator)>,
                                               loadProfile: seq<(string, Series)>, generationProfile: seq<(string, Series)>, t: int)
    ensures InjectionsRead(nodes, generators, loadProfile, generationProfile, t).Pass? <==>
      forall i :: 0 <= i < |nodes| ==> InjectionRead(generators, loadProfile, generationProfile, nodes[i], t).Pass?
  {
    if |nodes| > 0 {
      var k := |nodes| - 1;
      InjectionsReadExact(nodes[..k], generators, loadProfile, generationProfile, t);
      assert forall i :: 0 <= i < k ==> nodes[..k][i] == nodes[i];
    }
  }

  /** The rows of the edges listed at one timestamp. */
  function EdgeRows(lines: seq<(Edge, DistributionLine)>, edges: seq<Edge>, t: int): Result<seq<TimedFlow>>
  {
    if |edges| == 0 then Ok([])
    else
      var k := |edges| - 1;
      match EdgeRows(lines, edges[..k], t)
      case Err(err) => Err(err)
      case Ok(rows) =>
        match LineOf(lines, edges[k])
        case None => Err(EdgeKeyError(edges[k].0, edges[k].1))
        case Some(line) =>
          match LineRowOf(edges[k], line)
          case Err(err) => Err(err)
          case Ok(row) => Ok(rows + [TimedFlow(t, row)])
  }

  /** One row per edge, in edge order, each the row of that edge's line at t. */
  lemma {:induction false} EdgeRowsExact(lines: seq<(Edge, DistributionLine)>, edges: seq<Edge>, t: int)
    ensures EdgeRows(lines, edges, t).Ok? ==>
      var rows := EdgeRows(lines, edges, t).value;
      |rows| == |edges| &&
      forall j :: 0 <= j < |edges| ==>
        LineOf(lines, edges[j]).Some? && LineRowOf(edges[j], LineOf(lines, edges[j]).value) == Ok(rows[j].row) &&
        rows[j].timestamp == t
  {
    if |edges| > 0 {
      var k := |edges| - 1;
      EdgeRowsExact(lines, edges[..k], t);
      assert forall j :: 0 <= j < k ==> edges[..k][j] == edges[j];
    }
  }

  /** With every line keyed, no edge misses its line. */
  lemma {:induction false} EdgeRowsCovered(lines: seq<(Edge, DistributionLine)>, edges: seq<Edge>, g: Graph, t: int)
    requires LinesCover(lines, g.edges)
    requires forall i :: 0 <= i < |edges| ==> HasEdge(g.edges, edges[i].0, edges[i].1)
    ensures EdgeRows(lines, edges, t).Err? ==> EdgeRows(lines, edges, t).error == ZeroDivisionError
  {
    if |edges| > 0 {
      var k := |edges| - 1;
      EdgeRowsCovered(lines, edges[..k], g, t);
      LineOfEdge(lines, g.edges, edges[k].0, edges[k].1);
    }
  }

  /** The rows of the edges listed at one timestamp, each line looked up as
      `lines[(from_node, to_node)]` in the orientation the graph reports. */
  function EdgeRowsAsWritten(lines: seq<(Edge, DistributionLine)>, edges: seq<Edge>, t: int): Result<seq<TimedFlow>>
  {
    if |edges| == 0 then Ok([])
    else
      var k := |edges| - 1;
      match EdgeRowsAsWritten(lines, edges[..k], t)
      case Err(err) => Err(err)
      case Ok(rows) =>
        match LineAsWritten(lines, edges[k])
        case None => Err(EdgeKeyError(edges[k].0, edges[k].1))
        case Some(line) =>
          match LineRowOf(edges[k], line)
          case Err(err) => Err(err)
          case Ok(row) => Ok(rows + [TimedFlow(t, row)])
  }

  /** Where the lookup as written succeeds, and whenever every edge is keyed
      the way it is reported, it gives the same rows as the lookup under
      either orientation. */
  lemma {:induction false} EdgeRowsAsWrittenAgrees(lines: seq<(Edge, DistributionLine)>, edges: seq<Edge>, t: int)
    ensures EdgeRowsAsWritten(lines, edges, t).Ok? ==> EdgeRows(lines, edges, t) == EdgeRowsAsWritten(lines, edges, t)
    ensures (forall i :: 0 <= i < |edges| ==> edges[i] in Keys(lines)) ==>
              EdgeRows(lines, edges, t) == EdgeRowsAsWritten(lines, edges, t)
  {
    if |edges| > 0 {
      var k := |edges| - 1;
      EdgeRowsAsWrittenAgrees(lines, edges[..k], t);
      assert forall i :: 0 <= i < k ==> edges[..k][i] == edges[i];
      FindPresent(lines, edges[k]);
    }
  }

  /** Transformer B, then the line A -> B: the graph reports the edge as
      (B, A), so the lookup as written raises KeyError, while the line is
      found under the reversed key and its row is computed. */
  lemma ReversedDistributionLine(line: DistributionLine, t: int)
    requires line.fromNode == "A" && line.toNode == "B"
    requires line.reactance != 0.0 && line.capacity > 0.0
    ensures var g := AddEdge(AddNode(Graph([], []), "B"), line.fromNode, line.toNode);
            var lines := Put([], (line.fromNode, line.toNode), line);
            EdgeRowsAsWritten(lines, ReportedEdges(g), t) == Err(EdgeKeyError("B", "A")) &&
            EdgeRows(lines, ReportedEdges(g), t).Ok?
  {
    ReversedLineMissed(line);
    var lines := Put([], ("A", "B"), line);
    assert lines == [(("A", "B"), line)];
    var edges := [("B", "A")];
    assert edges[..0] == [];
    LineRowBounds(("B", "A"), line);
  }

  /** One timestamp: the injection reads, then the edge rows. */
  function FlowsAt(g: Graph, generators: seq<(string, DistributedGenerator)>, lines: seq<(Edge, DistributionLine)>,
                   loadProfile: seq<(string, Series)>, generationProfile: seq<(string, Series)>, t: int): Result<seq<TimedFlow>>
  {
    match InjectionsRead(g.nodes, generators, loadProfile, generationProfile, t)
    case Fail(err) => Err(err)
    case Pass => EdgeRows(lines, ReportedEdges(g), t)
  }

  /** The timestamps listed, in order, each contributing its rows. */
  function Flows(g: Graph, generators: seq<(string, DistributedGenerator)>, lines: seq<(Edge, DistributionLine)>,
                 loadProfile: seq<(string, Series)>, generationProfile: seq<(string, Series)>, timestamps: seq<int>): Result<seq<TimedFlow>>
  {
    if |timestamps| == 0 then Ok([])
    else
      var k := |timestamps| - 1;
      match Flows(g, generators, lines, loadProfile, generationProfile, timestamps[..k])
      case Err(err) => Err(err)
      case Ok(rows) =>
        match FlowsAt(g, generators, lines, loadProfile, generationProfile, timestamps[k])
        case Err(err) => Err(err)
        case Ok(more) => Ok(rows + more)
  }

  /** `calculate_power_flow`: the timestamps are those of the first load
      profile; with no load profile at all, `next` raises StopIteration. */
  function DistributionFlows(g: Graph, generators: seq<(string, DistributedGenerator)>, lines: seq<(Edge, DistributionLine)>,
                             loadProfile: seq<(string, Series)>, generationProfile: seq<(string, Series)>): Result<seq<TimedFlow>>
  {
    if |loadProfile| == 0 then Err(StopIteration)
    else Flows(g, generators, lines, loadProfile, generationProfile, Keys(loadProfile[0].1))
  }

  /** The position of row (i, j) in a grid of rows n wide. */
  function Cell(i: int, j: int, n: int): int
  {
    i * n + j
  }

  lemma GridIndexBelow(i: int, j: int, k: int, n: int)
    requires 0 <= i < k && 0 <= j < n
    ensures 0 <= Cell(i, j, n) < k * n
  {
    assert (k - i - 1) * n >= 0;
    assert k * n == i * n + n + (k - i - 1) * n;
  }

  /** Row i × |edges| + j of the table is edge j's line at timestamp i. */
  predicate IsGrid(rows: seq<TimedFlow>, timestamps: seq<int>, edges: seq<Edge>, lines: seq<(Edge, DistributionLine)>)
  {
    |rows| == |timestamps| * |edges| &&
    forall i, j :: 0 <= i < |timestamps| && 0 <= j < |edges| ==>
      0 <= Cell(i, j, |edges|) < |rows| &&
      rows[Cell(i, j, |edges|)].timestamp == timestamps[i] &&
      LineOf(lines, edges[j]).Some? && LineRowOf(edges[j], LineOf(lines, edges[j]).value) == Ok(rows[Cell(i, j, |edges|)].row)
  }

  /** The table is a timestamp-by-edge grid: row i × |edges| + j is edge j's
      line at timestamp i, the same whatever the load and generation values. */
  lemma {:induction false} FlowsGrid(g: Graph, generators: seq<(string, DistributedGenerator)>, lines: seq<(Edge, DistributionLine)>,
                                     loadProfile: seq<(string, Series)>, generationProfile: seq<(string, Series)>, timestamps: seq<int>)
    requires Flows(g, generators, lines, loadProfile, generationProfile, timestamps).Ok?
    ensures IsGrid(Flows(g, generators, lines, loadProfile, generationProfile, timestamps).value, timestamps, ReportedEdges(g), lines)
  {
    if |timestamps| > 0 {
      var k := |timestamps| - 1;
      FlowsGrid(g, generators, lines, loadProfile, generationProfile, timestamps[..k]);
      EdgeRowsExact(lines, ReportedEdges(g), timestamps[k]);
      GridAppend(Flows(g, generators, lines, loadProfile, generationProfile, timestamps[..k]).value,
                 FlowsAt(g, generators, lines, loadProfile, generationProfile, timestamps[k]).value,
                 timestamps, ReportedEdges(g), lines);
    }
  }

  lemma GridCell(rows: seq<TimedFlow>, timestamps: seq<int>, edges: seq<Edge>, lines: seq<(Edge, DistributionLine)>, i: int, j: int)
    requires IsGrid(rows, timestamps, edges, lines) && 0 <= i < |timestamps| && 0 <= j < |edges|
    ensures 0 <= Cell(i, j, |edges|) < |rows| && rows[Cell(i, j, |edges|)].timestamp == timestamps[i] &&
      LineOf(lines, edges[j]).Some? && LineRowOf(edges[j], LineOf(lines, edges[j]).value) == Ok(rows[Cell(i, j, |edges|)].row)
  {
  }

  lemma GridAppend(rows: seq<TimedFlow>, more: seq<TimedFlow>, timestamps: seq<int>, edges: seq<Edge>,
                   lines: seq<(Edge, DistributionLine)>)
    requires |timestamps| > 0 && IsGrid(rows, timestamps[..|timestamps| - 1], edges, lines)
    requires |more| == |edges|
    requires forall j :: 0 <= j < |edges| ==>
      LineOf(lines, edges[j]).Some? && LineRowOf(edges[j], LineOf(lines, edges[j]).value) == Ok(more[j].row) &&
      more[j].timestamp == timestamps[|timestamps| - 1]
    ensures IsGrid(rows + more, timestamps, edges, lines)
  {
    var k := |timestamps| - 1;
    var n := |edges|;
    var all := rows + more;
    assert |all| == |timestamps| * n by {
      assert |timestamps| * n == k * n + n;
    }
    forall i, j | 0 <= i < |timestamps| && 0 <= j < n
      ensures 0 <= Cell(i, j, n) < |all| &&
        all[Cell(i, j, n)].timestamp == timestamps[i] &&
        LineOf(lines, edges[j]).Some? && LineRowOf(edges[j], LineOf(lines, edges[j]).value) == Ok(all[Cell(i, j, n)].row)
    {
      if i < k {
        GridIndexBelow(i, j, k, n);
        GridCell(rows, timestamps[..k], edges, lines, i, j);
        assert all[Cell(i, j, n)] == rows[Cell(i, j, n)];
      } else {
        assert i == k && Cell(i, j, n) == |rows| + j;
        assert all[Cell(i, j, n)] == more[j];
      }
    }
  }

  /** Only a missing profile, a missing timestamp or a division by zero can
      stop the flow over a graph whose lines are all keyed. */
  lemma {:induction false} FlowsErrors(g: Graph, generators: seq<(string, DistributedGenerator)>, lines: seq<(Edge, DistributionLine)>,
                                       loadProfile: seq<(string, Series)>, generationProfile: seq<(string, Series)>, timestamps: seq<int>)
    requires LinesCover(lines, g.edges)
    ensures var r := Flows(g, generators, lines, loadProfile, generationProfile, timestamps);
      r.Err? ==> r.error.KeyError? || r.error.RowKeyError? || r.error == ZeroDivisionError
  {
    if |timestamps| > 0 {
      var k := |timestamps| - 1;
      FlowsErrors(g, generators, lines, loadProfile, generationProfile, timestamps[..k]);
      var t := timestamps[k];
      InjectionReadErrors(g.nodes, generators, loadProfile, generationProfile, t);
      ReportedCovered(g);
      EdgeRowsCovered(lines, ReportedEdges(g), g, t);
    }
  }

  lemma {:induction false} InjectionReadErrors(nodes: seq<string>, generators: seq<(string, DistributedGenerator)>,
                                               loadProfile: seq<(string, Series)>, generationProfile: seq<(string, Series)>, t: int)
    ensures var o := InjectionsRead(nodes, generators, loadProfile, generationProfile, t);
      o.Fail? ==> o.error.KeyError? || o.error == RowKeyError(t)
  {
    if |nodes| > 0 {
      InjectionReadErrors(nodes[..|nodes| - 1], generators, loadProfile, generationProfile, t);
    }
  }

  /** The flow rows of a table, without their timestamps. */
  function Rows(flows: seq<TimedFlow>): (r: seq<FlowRow>)
    ensures |r| == |flows| && forall i :: 0 <= i < |flows| ==> r[i] == flows[i].row
  {
    seq(|flows|, i requires 0 <= i < |flows| => flows[i].row)
  }

  predicate Touches(row: FlowRow, name: string)
  {
    row.fromNode == name || row.toNode == name
  }

  /** The rows whose line starts or ends at the named node. */
  function Touching(rows: seq<FlowRow>, name: string): seq<FlowRow>
  {
    if |rows| == 0 then []
    else
      var k := |rows| - 1;
      Touching(rows[..k], name) + (if Touches(rows[k], name) then [rows[k]] else [])
  }

  lemma {:induction false} TouchingExact(rows: seq<FlowRow>, name: string, row: FlowRow)
    ensures row in Touching(rows, name) <==> row in rows && Touches(row, name)
  {
    if |rows| > 0 {
      var k := |rows| - 1;
      TouchingExact(rows[..k], name, row);
      assert rows == rows[..k] + [rows[k]];
    }
  }

  /** A transformer's loading: the mean |flow| of the rows touching it over
      its capacity. No touching row gives the mean of nothing, NaN; a zero
      capacity divides a numpy value by zero, also not finite: both None. */
  function Loading(rows: seq<FlowRow>, name: string, capacity: real): (r: Option<real>)
    ensures r.Some? <==> |Touching(rows, name)| > 0 && capacity != 0.0
  {
    match Mean(AbsFlows(Touching(rows, name)))
    case None => None
    case Some(m) => if capacity == 0.0 then None else Some(m / capacity)
  }

  /** Under a positive capacity a touched transformer's loading is its mean
      |flow| over its capacity, never negative. */
  lemma LoadingMean(rows: seq<FlowRow>, name: string, capacity: real)
    requires |Touching(rows, name)| > 0 && capacity > 0.0
    ensures var flows := AbsFlows(Touching(rows, name));
      Loading(rows, name, capacity) == Some(Sum(flows) / |flows| as real / capacity) &&
      Loading(rows, name, capacity).value >= 0.0
  {
    var flows := AbsFlows(Touching(rows, name));
    SumNonNegative(flows);
    assert Sum(flows) / |flows| as real >= 0.0;
  }

  /** `_calculate_transformer_loading`: one entry per transformer, in
      registration order. */
  function TransformerLoading(transformers: seq<(string, DistributionTransformer)>, flows: seq<TimedFlow>): (r: seq<(string, Option<real>)>)
    ensures Keys(r) == Keys(transformers)
    ensures forall i :: 0 <= i < |r| ==>
      r[i].1 == Loading(Rows(flows), transformers[i].0, transformers[i].1.capacity)
  {
    var rows := Rows(flows);
    seq(|transformers|, i requires 0 <= i < |transformers| =>
      (transformers[i].0, Loading(rows, transformers[i].0, transformers[i].1.capacity)))
  }

  datatype VoltageProfile = VoltageProfile(minVoltage: real, maxVoltage: real, avgVoltage: real, voltageViolations: int)

  /** The placeholder voltage profile. */
  const PlaceholderVoltageProfile: VoltageProfile := VoltageProfile(0.95, 1.05, 1.0, 0)

  datatype DgImpact = DgImpact(lossReduction: real, voltageImprovement: real, capacityRelease: real)

  /** The placeholder impact of distributed generation. */
  const PlaceholderDgImpact: DgImpact := DgImpact(0.0, 0.0, 0.0)

  datatype Performance = Performance(
    voltageProfile: VoltageProfile,
    totalLosses: real,
    lossFactor: real,
    transformerLoading: seq<(string, Option<real>)>,
    dgImpact: DgImpact)

  /** `analyze_network_performance`. A table built from no rows has no losses
      column (KeyError). */
  function PerformanceOf(transformers: seq<(string, DistributionTransformer)>, flows: seq<TimedFlow>): (r: Result<Performance>)
    ensures r.Err? <==> |flows| == 0
    ensures r.Ok? ==> r.value.totalLosses == Sum(Losses(Rows(flows)))
    ensures r.Ok? && Sum(AbsFlows(Rows(flows))) == 0.0 ==> r.value.lossFactor == 0.0
    ensures r.Ok? && Sum(AbsFlows(Rows(flows))) > 0.0 ==>
      r.value.lossFactor * Sum(AbsFlows(Rows(flows))) == r.value.totalLosses
  {
    if |flows| == 0 then Err(KeyError("losses"))
    else
      var rows := Rows(flows);
      var totalLosses := Sum(Losses(rows));
      var totalFlow := Sum(AbsFlows(rows));
      Ok(Performance(PlaceholderVoltageProfile, totalLosses, LossFactor(totalLosses, totalFlow),
                     TransformerLoading(transformers, flows), PlaceholderDgImpact))
  }

  /** Non-negative losses give a loss factor that is not negative. */
  lemma PerformanceLossFactor(transformers: seq<(string, DistributionTransformer)>, flows: seq<TimedFlow>)
    requires |flows| > 0 && forall i :: 0 <= i < |flows| ==> flows[i].row.losses >= 0.0
    ensures PerformanceOf(transformers, flows).Ok? && PerformanceOf(transformers, flows).value.lossFactor >= 0.0
  {
    SumNonNegative(Losses(Rows(flows)));
  }

  class DistributionNetworkModel {
    var network: Graph
    var transformers: seq<(string, DistributionTransformer)>
    var lines: seq<(Edge, DistributionLine)>
    var distributedGenerators: seq<(string, DistributedGenerator)>

    /** The graph is well formed and every edge has a line under the key it
        was first added with. */
    ghost predicate Valid()
      reads this
    {
      WellFormed(network) && LinesCover(lines, network.edges)
    }

    constructor()
      ensures network == Graph([], []) && transformers == [] && lines == [] && distributedGenerators == []
      ensures Valid()
    {
      network := Graph([], []);
      transformers := [];
      lines := [];
      distributedGenerators := [];
    }

    /** `add_transformer`: stored under its name, and its node added. */
    method AddTransformer(transformer: DistributionTransformer)
      requires Valid()
      modifies this
      ensures transformers == Put(old(transformers), transformer.name, transformer)
      ensures network == AddNode(old(network), transformer.name)
      ensures lines == old(lines) && distributedGenerators == old(distributedGenerators)
      ensures Valid()
    {
      transformers := Put(transformers, transformer.name, transformer);
      AddNodeWellFormed(network, transformer.name);
      network := AddNode(network, transformer.name);
    }

    /** `add_distribution_line`: stored under (from, to), and its edge added. */
    method AddDistributionLine(line: DistributionLine)
      requires Valid()
      modifies this
      ensures lines == Put(old(lines), (line.fromNode, line.toNode), line)
      ensures network == AddEdge(old(network), line.fromNode, line.toNode)
      ensures transformers == old(transformers) && distributedGenerators == old(distributedGenerators)
      ensures Valid()
    {
      LinesCoverAdd(lines, network, line.fromNode, line.toNode, line);
      AddEdgeWellFormed(network, line.fromNode, line.toNode);
      lines := Put(lines, (line.fromNode, line.toNode), line);
      network := AddEdge(network, line.fromNode, line.toNode);
    }

    /** `add_distributed_generator`: stored under its name, and its node added. */
    method AddDistributedGenerator(generator: DistributedGenerator)
      requires Valid()
      modifies this
      ensures distributedGenerators == Put(old(distributedGenerators), generator.name, generator)
      ensures network == AddNode(old(network), generator.name)
      ensures lines == old(lines) && transformers == old(transformers)
      ensures Valid()
    {
      distributedGenerators := Put(distributedGenerators, generator.name, generator);
      AddNodeWellFormed(network, generator.name);
      network := AddNode(network, generator.name);
    }

    /** The injection reads at one timestamp, node by node. */
    method ReadInjections(loadProfile: seq<(string, Series)>, generationProfile: seq<(string, Series)>, t: int)
      returns (o: Outcome)
      ensures o == InjectionsRead(network.nodes, distributedGenerators, loadProfile, generationProfile, t)
    {
      var nodes := network.nodes;
      var k := 0;
      while k < |nodes|
        invariant 0 <= k <= |nodes|
        invariant InjectionsRead(nodes[..k], distributedGenerators, loadProfile, generationProfile, t) == Pass
      {
        assert nodes[..k + 1][..k] == nodes[..k];
        var node := nodes[k];
        var profiles := if Find(distributedGenerators, node).Some? then generationProfile else loadProfile;
        var series := Find(profiles, node);
        if series.None? {
          InjectionsReadPrefix(nodes, distributedGenerators, loadProfile, generationProfile, t, k + 1);
          return Fail(KeyError(node));
        }
        if Find(series.value, t).None? {
          InjectionsReadPrefix(nodes, distributedGenerators, loadProfile, generationProfile, t, k + 1);
          return Fail(RowKeyError(t));
        }
        k := k + 1;
      }
      assert nodes[..k] == nodes;
      o := Pass;
    }

    /** The rows of every reported edge at one timestamp, each line found
        under either orientation. */
    method EdgeRowsAt(t: int) returns (r: Result<seq<TimedFlow>>)
      ensures r == EdgeRows(lines, ReportedEdges(network), t)
    {
      var edges := ReportedEdges(network);
      var rows: seq<TimedFlow> := [];
      var k := 0;
      while k < |edges|
        invariant 0 <= k <= |edges|
        invariant EdgeRows(lines, edges[..k], t) == Ok(rows)
      {
        assert edges[..k + 1][..k] == edges[..k];
        var line := LineOf(lines, edges[k]);
        if line.None? {
          EdgeRowsPrefix(lines, edges, t, k + 1);
          return Err(EdgeKeyError(edges[k].0, edges[k].1));
        }
        var row := LineRowOf(edges[k], line.value);
        if row.Err? {
          EdgeRowsPrefix(lines, edges, t, k + 1);
          return Err(row.error);
        }
        rows := rows + [TimedFlow(t, row.value)];
        k := k + 1;
      }
      assert edges[..k] == edges;
      r := Ok(rows);
    }

    /** `calculate_power_flow`, timestamp by timestamp. With every line
        registered, a missing line is never the failure. */
    method CalculatePowerFlow(loadProfile: seq<(string, Series)>, generationProfile: seq<(string, Series)>)
      returns (r: Result<seq<TimedFlow>>)
      requires Valid()
      ensures r == DistributionFlows(network, distributedGenerators, lines, loadProfile, generationProfile)
      ensures r.Err? ==> r.error == StopIteration || r.error.KeyError? || r.error.RowKeyError? || r.error == ZeroDivisionError
    {
      if |loadProfile| == 0 {
        return Err(StopIteration);
      }
      var timestamps := Keys(loadProfile[0].1);
      FlowsErrors(network, distributedGenerators, lines, loadProfile, generationProfile, timestamps);
      var results: seq<TimedFlow> := [];
      var k := 0;
      while k < |timestamps|
        invariant 0 <= k <= |timestamps|
        invariant Flows(network, distributedGenerators, lines, loadProfile, generationProfile, timestamps[..k]) == Ok(results)
      {
        assert timestamps[..k + 1][..k] == timestamps[..k];
        var injections := ReadInjections(loadProfile, generationProfile, timestamps[k]);
        if injections.Fail? {
          FlowsPrefix(network, distributedGenerators, lines, loadProfile, generationProfile, timestamps, k + 1);
          return Err(injections.error);
        }
        var rows := EdgeRowsAt(timestamps[k]);
        if rows.Err? {
          FlowsPrefix(network, distributedGenerators, lines, loadProfile, generationProfile, timestamps, k + 1);
          return Err(rows.error);
        }
        results := results + rows.value;
        k := k + 1;
      }
      assert timestamps[..k] == timestamps;
      r := Ok(results);
    }

    /** `_calculate_transformer_loading`, transformer by transformer. */
    method CalculateTransformerLoading(powerFlows: seq<TimedFlow>) returns (r: Result<seq<(string, Option<real>)>>)
      ensures |powerFlows| == 0 && |transformers| > 0 ==> r == Err(KeyError("from_node"))
      ensures |powerFlows| > 0 || |transformers| == 0 ==> r == Ok(TransformerLoading(transformers, powerFlows))
    {
      if |powerFlows| == 0 && |transformers| > 0 {
        // a table built from no rows has no columns to filter on
        return Err(KeyError("from_node"));
      }
      var rows := Rows(powerFlows);
      var loading: seq<(string, Option<real>)> := [];
      var k := 0;
      while k < |transformers|
        invariant 0 <= k <= |transformers|
        invariant |loading| == k
        invariant forall i :: 0 <= i < k ==>
          loading[i] == (transformers[i].0, Loading(rows, transformers[i].0, transformers[i].1.capacity))
      {
        var (name, transformer) := transformers[k];
        loading := loading + [(name, Loading(rows, name, transformer.capacity))];
        k := k + 1;
      }
      assert loading == TransformerLoading(transformers, powerFlows);
      r := Ok(loading);
    }

    /** `analyze_network_performance`. */
    method AnalyzeNetworkPerformance(powerFlows: seq<TimedFlow>) returns (r: Result<Performance>)
      ensures r == PerformanceOf(transformers, powerFlows)
    {
      if |powerFlows| == 0 {
        return Err(KeyError("losses"));
      }
      var rows := Rows(powerFlows);
      var totalLosses := Sum(Losses(rows));
      var totalFlow := Sum(AbsFlows(rows));
      var lossFactor := if totalFlow > 0.0 then totalLosses / totalFlow else 0.0;
      var loading := CalculateTransformerLoading(powerFlows);
      r := Ok(Performance(PlaceholderVoltageProfile, totalLosses, lossFactor, loading.value, PlaceholderDgImpact));
    }
  }

  lemma {:induction false} InjectionsReadPrefix(nodes: seq<string>, generators: seq<(string, DistributedGenerator)>,
                                                loadProfile: seq<(string, Series)>, generationProfile: seq<(string, Series)>,
                                                t: int, m: nat)
    requires m <= |nodes| && InjectionsRead(nodes[..m], generators, loadProfile, generationProfile, t).Fail?
    ensures InjectionsRead(nodes, generators, loadProfile, generationProfile, t) ==
            InjectionsRead(nodes[..m], generators, loadProfile, generationProfile, t)
  {
    if m < |nodes| {
      var k := |nodes| - 1;
      assert nodes[..k][..m] == nodes[..m];
      InjectionsReadPrefix(nodes[..k], generators, loadProfile, generationProfile, t, m);
    } else {
      assert nodes[..m] == nodes;
    }
  }

  lemma {:induction false} EdgeRowsPrefix(lines: seq<(Edge, DistributionLine)>, edges: seq<Edge>, t: int, m: nat)
    requires m <= |edges| && EdgeRows(lines, edges[..m], t).Err?
    ensures EdgeRows(lines, edges, t) == EdgeRows(lines, edges[..m], t)
  {
    if m < |edges| {
      var k := |edges| - 1;
      assert edges[..k][..m] == edges[..m];
      EdgeRowsPrefix(lines, edges[..k], t, m);
    } else {
      assert edges[..m] == edges;
    }
  }

  lemma {:induction false} FlowsPrefix(g: Graph, generators: seq<(string, DistributedGenerator)>, lines: seq<(Edge, DistributionLine)>,
                                       loadProfile: seq<(string, Series)>, generationProfile: seq<(string, Series)>,
                                       timestamps: seq<int>, m: nat)
    requires m <= |timestamps| && Flows(g, generators, lines, loadProfile, generationProfile, timestamps[..m]).Err?
    ensures Flows(g, generators, lines, loadProfile, generationProfile, timestamps) ==
            Flows(g, generators, lines, loadProfile, generationProfile, timestamps[..m])
  {
    if m < |timestamps| {
      var k := |timestamps| - 1;
      assert timestamps[..k][..m] == timestamps[..m];
      FlowsPrefix(g, generators, lines, loadProfile, generationProfile, timestamps[..k], m);
    } else {
      assert timestamps[..m] == timestamps;
    }
  }
}
