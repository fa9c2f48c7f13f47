// The transmission network: substations and lines registered in dictionaries
// and in an undirected graph, a placeholder DC power flow over the graph's
// edges, the bottleneck filter, the loss summary and the expansion screen.

module TransmissionNetwork {
  import opened Common
  import opened NetworkGraph

  datatype TransmissionLine = TransmissionLine(
    fromNode: string,
    toNode: string,
    capacity: real,     // MW
    reactance: real,    // p.u.
    resistance: real,   // p.u.
    length: real,       // km
    voltage: real)      // kV

  datatype Substation = Substation(
    name: string,
    location: (real, real),      // latitude, longitude
    voltageLevels: seq<real>,    // kV
    capacity: real,              // MVA
    loadServed: real)            // MW

  /** The row of one edge: the line's clipped flow, and losses of
      flow² × resistance. */
  function FlowRowOf(e: Edge, line: TransmissionLine): (r: Result<FlowRow>)
    ensures r.Ok? <==> LineFlow(line.reactance, line.voltage, line.capacity).Ok?
    ensures r.Ok? ==> r.value.fromNode == e.0 && r.value.toNode == e.1
  {
    match LineFlow(line.reactance, line.voltage, line.capacity)
    case Err(err) => Err(err)
    case Ok(f) => Ok(FlowRow(e.0, e.1, f.powerFlow, f.powerFlow * f.powerFlow * line.resistance, f.utilization))
  }

  /** A line with a reactance and a positive capacity carries at most its
      capacity, is at most fully utilized, and loses no negative power when
      its resistance is not negative. */
  lemma FlowRowBounds(e: Edge, line: TransmissionLine)
    requires line.reactance != 0.0 && line.capacity > 0.0
    ensures var r := FlowRowOf(e, line);
      r.Ok? && Abs(r.value.powerFlow) <= line.capacity &&
      r.value.utilization.Some? && 0.0 <= r.value.utilization.value <= 1.0 &&
      (line.resistance >= 0.0 ==> r.value.losses >= 0.0)
  {
    LineFlowClipped(line.reactance, line.voltage, line.capacity);
    LineFlowUtilization(line.reactance, line.voltage, line.capacity);
    var f := LineFlow(line.reactance, line.voltage, line.capacity).value.powerFlow;
    assert f * f >= 0.0;
    if line.resistance >= 0.0 {
      ScaleMonotone(0.0, f * f, line.resistance);
    }
  }

  /** `calculate_power_flow` over the edges listed, stopping at the first
      edge without a line or with a division by zero. */
  function PowerFlows(lines: seq<(Edge, TransmissionLine)>, edges: seq<Edge>): Result<seq<FlowRow>>
  {
    if |edges| == 0 then Ok([])
    else
      var k := |edges| - 1;
      match PowerFlows(lines, edges[..k])
      case Err(err) => Err(err)
      case Ok(rows) =>
        match LineOf(lines, edges[k])
        case None => Err(EdgeKeyError(edges[k].0, edges[k].1))
        case Some(line) =>
          match FlowRowOf(edges[k], line)
          case Err(err) => Err(err)
          case Ok(row) => Ok(rows + [row])
  }

  /** The table has one row per edge, in edge order, each the row of that
      edge's line; it is produced exactly when every edge has a line whose
      row can be computed. */
  lemma {:induction false} PowerFlowsRows(lines: seq<(Edge, TransmissionLine)>, edges: seq<Edge>)
    ensures PowerFlows(lines, edges).Ok? <==>
      forall i :: 0 <= i < |edges| ==>
        LineOf(lines, edges[i]).Some? && FlowRowOf(edges[i], LineOf(lines, edges[i]).value).Ok?
    ensures PowerFlows(lines, edges).Ok? ==>
      var rows := PowerFlows(lines, edges).value;
      |rows| == |edges| &&
      forall i :: 0 <= i < |edges| ==> Ok(rows[i]) == FlowRowOf(edges[i], LineOf(lines, edges[i]).value)
  {
    if |edges| > 0 {
      var k := |edges| - 1;
      PowerFlowsRows(lines, edges[..k]);
      assert forall i :: 0 <= i < k ==> edges[..k][i] == edges[i];
    }
  }

  lemma PowerFlowsRowAt(lines: seq<(Edge, TransmissionLine)>, edges: seq<Edge>, j: int)
    requires PowerFlows(lines, edges).Ok? && 0 <= j < |PowerFlows(lines, edges).value|
    ensures var row := PowerFlows(lines, edges).value[j];
      LineOf(lines, (row.fromNode, row.toNode)).Some?
  {
    PowerFlowsRows(lines, edges);
    var row := PowerFlows(lines, edges).value[j];
    assert FlowRowOf(edges[j], LineOf(lines, edges[j]).value) == Ok(row);
    assert (row.fromNode, row.toNode) == edges[j];
  }

  /** With every line keyed, the only error left is a division by zero. */
  lemma {:induction false} PowerFlowsCovered(lines: seq<(Edge, TransmissionLine)>, edges: seq<Edge>, g: Graph)
    requires LinesCover(lines, g.edges)
    requires forall i :: 0 <= i < |edges| ==> HasEdge(g.edges, edges[i].0, edges[i].1)
    ensures PowerFlows(lines, edges).Err? ==> PowerFlows(lines, edges).error == ZeroDivisionError
  {
    if |edges| > 0 {
      var k := |edges| - 1;
      PowerFlowsCovered(lines, edges[..k], g);
      LineOfEdge(lines, g.edges, edges[k].0, edges[k].1);
    }
  }

  lemma ReportedPowerFlowsErrors(lines: seq<(Edge, TransmissionLine)>, g: Graph)
    requires LinesCover(lines, g.edges)
    ensures var r := PowerFlows(lines, ReportedEdges(g)); r.Err? ==> r.error == ZeroDivisionError
  {
    ReportedCovered(g);
    PowerFlowsCovered(lines, ReportedEdges(g), g);
  }

  /** A NaN utilization compares false, so only a known utilization above
      0.8 marks a bottleneck. */
  predicate Busy(row: FlowRow)
  {
    row.utilization.Some? && row.utilization.value > 0.8
  }

  /** `power_flows[power_flows['utilization'] > 0.8]`. */
  function HighUtilization(rows: seq<FlowRow>): seq<FlowRow>
  {
    if |rows| == 0 then []
    else
      var k := |rows| - 1;
      HighUtilization(rows[..k]) + (if Busy(rows[k]) then [rows[k]] else [])
  }

  /** The filter keeps exactly the busy rows. */
  lemma {:induction false} HighUtilizationExact(rows: seq<FlowRow>, row: FlowRow)
    ensures row in HighUtilization(rows) <==> row in rows && Busy(row)
  {
    if |rows| > 0 {
      var k := |rows| - 1;
      HighUtilizationExact(rows[..k], row);
      assert rows == rows[..k] + [rows[k]];
    }
  }

  datatype Bottleneck = Bottleneck(
    fromNode: string,
    toNode: string,
    utilization: real,
    powerFlow: real,
    capacity: real)

  /** The bottleneck record of a busy row, or None when its line is missing. */
  function BottleneckOf(lines: seq<(Edge, TransmissionLine)>, row: FlowRow): Option<Bottleneck>
    requires Busy(row)
  {
    match LineOf(lines, (row.fromNode, row.toNode))
    case None => None
    case Some(line) => Some(Bottleneck(row.fromNode, row.toNode, row.utilization.value, row.powerFlow, line.capacity))
  }

  function BottleneckRows(lines: seq<(Edge, TransmissionLine)>, busy: seq<FlowRow>): Result<seq<Bottleneck>>
    requires forall i :: 0 <= i < |busy| ==> Busy(busy[i])
  {
    if |busy| == 0 then Ok([])
    else
      var k := |busy| - 1;
      match BottleneckRows(lines, busy[..k])
      case Err(err) => Err(err)
      case Ok(found) =>
        match BottleneckOf(lines, busy[k])
        case None => Err(EdgeKeyError(busy[k].fromNode, busy[k].toNode))
        case Some(b) => Ok(found + [b])
  }

  lemma {:induction false} HighUtilizationBusy(rows: seq<FlowRow>)
    ensures forall i :: 0 <= i < |HighUtilization(rows)| ==> Busy(HighUtilization(rows)[i])
  {
    if |rows| > 0 {
      HighUtilizationBusy(rows[..|rows| - 1]);
    }
  }

  /** `identify_bottlenecks`. A table built from no rows has no columns, so
      reading its utilization column raises KeyError. */
  function Bottlenecks(lines: seq<(Edge, TransmissionLine)>, rows: seq<FlowRow>): Result<seq<Bottleneck>>
  {
    if |rows| == 0 then Err(KeyError("utilization"))
    else
      HighUtilizationBusy(rows);
      BottleneckRows(lines, HighUtilization(rows))
  }

  lemma {:induction false} BottleneckRowsExact(lines: seq<(Edge, TransmissionLine)>, busy: seq<FlowRow>)
    requires forall i :: 0 <= i < |busy| ==> Busy(busy[i])
    ensures BottleneckRows(lines, busy).Ok? <==>
      forall i :: 0 <= i < |busy| ==> BottleneckOf(lines, busy[i]).Some?
    ensures BottleneckRows(lines, busy).Ok? ==>
      |BottleneckRows(lines, busy).value| == |busy| &&
      forall i :: 0 <= i < |busy| ==> Some(BottleneckRows(lines, busy).value[i]) == BottleneckOf(lines, busy[i])
  {
    if |busy| > 0 {
      var k := |busy| - 1;
      BottleneckRowsExact(lines, busy[..k]);
      assert forall i :: 0 <= i < k ==> busy[..k][i] == busy[i];
    }
  }

  /** The bottlenecks are the busy rows, in table order, each with its
      utilization, flow and line capacity. */
  lemma BottlenecksExact(lines: seq<(Edge, TransmissionLine)>, rows: seq<FlowRow>, i: int)
    requires Bottlenecks(lines, rows).Ok? && 0 <= i < |HighUtilization(rows)|
    ensures var b := Bottlenecks(lines, rows).value; var row := HighUtilization(rows)[i];
      |b| == |HighUtilization(rows)| &&
      Busy(row) && row in rows && LineOf(lines, (row.fromNode, row.toNode)).Some? &&
      b[i] == Bottleneck(row.fromNode, row.toNode, row.utilization.value, row.powerFlow,
                         LineOf(lines, (row.fromNode, row.toNode)).value.capacity)
  {
    HighUtilizationBusy(rows);
    BottleneckRowsExact(lines, HighUtilization(rows));
    HighUtilizationExact(rows, HighUtilization(rows)[i]);
  }

  /** On the table the power flow produced, every bottleneck has its line. */
  lemma BottlenecksOfPowerFlows(lines: seq<(Edge, TransmissionLine)>, edges: seq<Edge>)
    requires PowerFlows(lines, edges).Ok? && |edges| > 0
    ensures Bottlenecks(lines, PowerFlows(lines, edges).value).Ok?
  {
    var rows := PowerFlows(lines, edges).value;
    PowerFlowsRows(lines, edges);
    HighUtilizationBusy(rows);
    var busy := HighUtilization(rows);
    forall i | 0 <= i < |busy|
      ensures BottleneckOf(lines, busy[i]).Some?
    {
      HighUtilizationExact(rows, busy[i]);
      var j :| 0 <= j < |rows| && rows[j] == busy[i];
      PowerFlowsRowAt(lines, edges, j);
    }
    BottleneckRowsExact(lines, busy);
  }

  datatype LossSummary = LossSummary(
    totalLosses: real,
    totalFlow: real,
    lossFactor: real,
    networkEfficiency: real)

  /** `calculate_network_losses`. A table built from no rows has no losses
      column (KeyError). */
  function NetworkLosses(rows: seq<FlowRow>): (r: Result<LossSummary>)
    ensures r.Err? <==> |rows| == 0
    ensures r.Ok? ==> r.value.totalFlow >= 0.0
    ensures r.Ok? ==> r.value.lossFactor + r.value.networkEfficiency == 1.0
    ensures r.Ok? && r.value.totalFlow == 0.0 ==> r.value.lossFactor == 0.0 && r.value.networkEfficiency == 1.0
    ensures r.Ok? && r.value.totalFlow > 0.0 ==> r.value.lossFactor * r.value.totalFlow == r.value.totalLosses
  {
    if |rows| == 0 then Err(KeyError("losses"))
    else
      var totalLosses := Sum(Losses(rows));
      var totalFlow := Sum(AbsFlows(rows));
      SumNonNegative(AbsFlows(rows));
      var lossFactor := LossFactor(totalLosses, totalFlow);
      Ok(LossSummary(totalLosses, totalFlow, lossFactor, 1.0 - lossFactor))
  }

  /** Non-negative losses never make the network more than fully efficient. */
  lemma NetworkLossesEfficiency(rows: seq<FlowRow>)
    requires |rows| > 0 && forall i :: 0 <= i < |rows| ==> rows[i].losses >= 0.0
    ensures NetworkLosses(rows).Ok? && NetworkLosses(rows).value.networkEfficiency <= 1.0
  {
    SumNonNegative(Losses(rows));
  }

  datatype ExpansionPlan = ExpansionPlan(
    node: string,
    newCapacity: real,
    cost: real,
    loadGrowth: real)

  /** The cost of new line capacity, per MW. */
  const CostPerMW: real := 1000.0

  /** The summed capacity of the lines of the edges listed, each looked up
      the way it is written, `lines[edge]`. */
  function ConnectedCapacityAsWritten(lines: seq<(Edge, TransmissionLine)>, edges: seq<Edge>): Result<real>
  {
    if |edges| == 0 then Ok(0.0)
    else
      var k := |edges| - 1;
      match ConnectedCapacityAsWritten(lines, edges[..k])
      case Err(err) => Err(err)
      case Ok(total) =>
        match LineAsWritten(lines, edges[k])
        case None => Err(EdgeKeyError(edges[k].0, edges[k].1))
        case Some(line) => Ok(total + line.capacity)
  }

  /** The summed capacity of the lines of the edges listed, each looked up
      under either orientation. */
  function ConnectedCapacity(lines: seq<(Edge, TransmissionLine)>, edges: seq<Edge>): Result<real>
  {
    if |edges| == 0 then Ok(0.0)
    else
      var k := |edges| - 1;
      match ConnectedCapacity(lines, edges[..k])
      case Err(err) => Err(err)
      case Ok(total) =>
        match LineOf(lines, edges[k])
        case None => Err(EdgeKeyError(edges[k].0, edges[k].1))
        case Some(line) => Ok(total + line.capacity)
  }

  /** A substation's edges all have lines, so the capacity is always known. */
  lemma {:induction false} ConnectedCapacityCovered(lines: seq<(Edge, TransmissionLine)>, edges: seq<Edge>, g: Graph, n: string)
    requires LinesCover(lines, g.edges)
    requires forall i :: 0 <= i < |edges| ==> edges[i].0 == n && HasEdge(g.edges, n, edges[i].1)
    ensures ConnectedCapacity(lines, edges).Ok?
  {
    if |edges| > 0 {
      var k := |edges| - 1;
      ConnectedCapacityCovered(lines, edges[..k], g, n);
      LineOfEdge(lines, g.edges, n, edges[k].1);
    }
  }

  lemma IncidentCovered(lines: seq<(Edge, TransmissionLine)>, g: Graph, n: string)
    requires LinesCover(lines, g.edges)
    ensures ConnectedCapacity(lines, IncidentEdges(g, n)).Ok?
  {
    var edges := IncidentEdges(g, n);
    forall i | 0 <= i < |edges|
      ensures edges[i].0 == n && HasEdge(g.edges, n, edges[i].1)
    {
      IncidentEdgesExact(g, n, edges[i].1);
      assert (n, edges[i].1) == edges[i];
    }
    ConnectedCapacityCovered(lines, edges, g, n);
  }

  /** The screen of one node under a capacity lookup: a missing substation is
      a KeyError; a node whose load does not grow is passed over before its
      lines are read. */
  function PlanWith(substations: seq<(string, Substation)>, connected: Result<real>, node: string, load: real,
                    maxInvestment: real): Result<Option<ExpansionPlan>>
  {
    match Find(substations, node)
    case None => Err(KeyError(node))
    case Some(s) =>
      var growth := load - s.loadServed;
      if growth <= 0.0 then Ok(None)
      else
        match connected
        case Err(err) => Err(err)
        case Ok(capacity) =>
          if capacity < growth && (growth - capacity) * CostPerMW <= maxInvestment then
            Ok(Some(ExpansionPlan(node, growth - capacity, (growth - capacity) * CostPerMW, growth)))
          else Ok(None)
  }

  /** A plan is proposed exactly when the load grows, the connected lines
      cannot carry the growth and the shortfall is affordable; it buys the
      shortfall at 1000 per MW. */
  lemma PlanWithExact(substations: seq<(string, Substation)>, capacity: real, node: string, load: real,
                      maxInvestment: real)
    requires Find(substations, node).Some?
    ensures var growth := load - Find(substations, node).value.loadServed;
      var r := PlanWith(substations, Ok(capacity), node, load, maxInvestment);
      r.Ok? &&
      (r.value.Some? <==> growth > 0.0 && capacity < growth && (growth - capacity) * 1000.0 <= maxInvestment) &&
      (r.value.Some? ==> r.value.value == ExpansionPlan(node, growth - capacity, (growth - capacity) * 1000.0, growth) &&
                         r.value.value.newCapacity > 0.0)
  {
  }

  function Plan(substations: seq<(string, Substation)>, lines: seq<(Edge, TransmissionLine)>, g: Graph,
                node: string, load: real, maxInvestment: real): Result<Option<ExpansionPlan>>
  {
    PlanWith(substations, ConnectedCapacity(lines, IncidentEdges(g, node)), node, load, maxInvestment)
  }

  function PlanAsWritten(substations: seq<(string, Substation)>, lines: seq<(Edge, TransmissionLine)>, g: Graph,
                         node: string, load: real, maxInvestment: real): Result<Option<ExpansionPlan>>
  {
    PlanWith(substations, ConnectedCapacityAsWritten(lines, IncidentEdges(g, node)), node, load, maxInvestment)
  }

  /** Substation B, then the line A -> B of capacity 5: a load growth of 10 at
      B reads the line as (B, A), which the lookup as written does not find;
      under either orientation B is short of 5 MW and gets a plan for it. */
  lemma ReversedExpansion(line: TransmissionLine, sub: Substation)
    requires line.fromNode == "A" && line.toNode == "B" && line.capacity == 5.0
    requires sub.name == "B" && sub.loadServed == 0.0
    ensures var g := AddEdge(AddNode(Graph([], []), "B"), "A", "B");
      var subs := [("B", sub)];
      var lines := [(("A", "B"), line)];
      PlanAsWritten(subs, lines, g, "B", 10.0, 1.0e6) == Err(EdgeKeyError("B", "A")) &&
      Plan(subs, lines, g, "B", 10.0, 1.0e6) == Ok(Some(ExpansionPlan("B", 5.0, 5000.0, 10.0)))
  {
    ReversedExampleGraph();
    ReversedIncident();
    ReversedCapacities(line);
    var subs := [("B", sub)];
    assert Find(subs, "B") == Some(sub);
  }

  lemma ReversedIncident()
    ensures IncidentEdges(Graph(["B", "A"], [("A", "B")]), "B") == [("B", "A")]
  {
    ReversedExampleNeighbours();
  }

  lemma ReversedCapacities(line: TransmissionLine)
    ensures ConnectedCapacityAsWritten([(("A", "B"), line)], [("B", "A")]) == Err(EdgeKeyError("B", "A"))
    ensures ConnectedCapacity([(("A", "B"), line)], [("B", "A")]) == Ok(line.capacity)
  {
    var lines := [(("A", "B"), line)];
    var edges: seq<Edge> := [("B", "A")];
    ReversedExampleLookups(line);
    assert LineAsWritten(lines, edges[0]) == None;
    assert LineOf(lines, edges[0]) == Some(line);
    assert edges[..0] == [];
  }

  /** `optimize_network_expansion` over the future loads, in order. */
  function Expansion(substations: seq<(string, Substation)>, lines: seq<(Edge, TransmissionLine)>, g: Graph,
                     futureLoad: seq<(string, real)>, maxInvestment: real): Result<seq<ExpansionPlan>>
  {
    if |futureLoad| == 0 then Ok([])
    else
      var k := |futureLoad| - 1;
      match Expansion(substations, lines, g, futureLoad[..k], maxInvestment)
      case Err(err) => Err(err)
      case Ok(plans) =>
        match Plan(substations, lines, g, futureLoad[k].0, futureLoad[k].1, maxInvestment)
        case Err(err) => Err(err)
        case Ok(None) => Ok(plans)
        case Ok(Some(p)) => Ok(plans + [p])
  }

  /** Every plan is for a node with a future load, covers part of its growth
      and stays within the budget at 1000 per MW. */
  lemma {:induction false} ExpansionSound(substations: seq<(string, Substation)>, lines: seq<(Edge, TransmissionLine)>,
                                          g: Graph, futureLoad: seq<(string, real)>, maxInvestment: real)
    requires Expansion(substations, lines, g, futureLoad, maxInvestment).Ok?
    ensures forall p :: p in Expansion(substations, lines, g, futureLoad, maxInvestment).value ==>
      p.node in Keys(futureLoad) && p.loadGrowth > 0.0 && p.newCapacity > 0.0 &&
      p.cost == p.newCapacity * 1000.0 && p.cost <= maxInvestment
  {
    if |futureLoad| > 0 {
      var k := |futureLoad| - 1;
      ExpansionSound(substations, lines, g, futureLoad[..k], maxInvestment);
      assert forall i :: 0 <= i < k ==> futureLoad[..k][i] == futureLoad[i];
      var (node, load) := futureLoad[k];
      if Find(substations, node).Some? && ConnectedCapacity(lines, IncidentEdges(g, node)).Ok? {
        PlanWithExact(substations, ConnectedCapacity(lines, IncidentEdges(g, node)).value, node, load, maxInvestment);
      }
    }
  }

  /** Only a missing substation can stop the screen of a well-kept network. */
  lemma {:induction false} ExpansionErrors(substations: seq<(string, Substation)>, lines: seq<(Edge, TransmissionLine)>,
                                           g: Graph, futureLoad: seq<(string, real)>, maxInvestment: real)
    requires LinesCover(lines, g.edges)
    ensures Expansion(substations, lines, g, futureLoad, maxInvestment).Ok? <==>
      forall i :: 0 <= i < |futureLoad| ==> futureLoad[i].0 in Keys(substations)
  {
    if |futureLoad| > 0 {
      var k := |futureLoad| - 1;
      ExpansionErrors(substations, lines, g, futureLoad[..k], maxInvestment);
      assert forall i :: 0 <= i < k ==> futureLoad[..k][i] == futureLoad[i];
      FindPresent(substations, futureLoad[k].0);
      IncidentCovered(lines, g, futureLoad[k].0);
    }
  }

  class TransmissionNetworkModel {
    var network: Graph
    var substations: seq<(string, Substation)>
    var lines: seq<(Edge, TransmissionLine)>

    /** The graph is well formed and every edge has a line under the key it
        was first added with. */
    ghost predicate Valid()
      reads this
    {
      WellFormed(network) && LinesCover(lines, network.edges)
    }

    constructor()
      ensures network == Graph([], []) && substations == [] && lines == []
      ensures Valid()
    {
      network := Graph([], []);
      substations := [];
      lines := [];
    }

    /** `add_substation`: stored under its name, and its node added. */
    method AddSubstation(substation: Substation)
      requires Valid()
      modifies this
      ensures substations == Put(old(substations), substation.name, substation)
      ensures network == AddNode(old(network), substation.name) && lines == old(lines)
      ensures Valid()
    {
      substations := Put(substations, substation.name, substation);
      AddNodeWellFormed(network, substation.name);
      network := AddNode(network, substation.name);
    }

    /** `add_transmission_line`: stored under (from, to), and its edge added. */
    method AddTransmissionLine(line: TransmissionLine)
      requires Valid()
      modifies this
      ensures lines == Put(old(lines), (line.fromNode, line.toNode), line)
      ensures network == AddEdge(old(network), line.fromNode, line.toNode) && substations == old(substations)
      ensures Valid()
    {
      LinesCoverAdd(lines, network, line.fromNode, line.toNode, line);
      AddEdgeWellFormed(network, line.fromNode, line.toNode);
      lines := Put(lines, (line.fromNode, line.toNode), line);
      network := AddEdge(network, line.fromNode, line.toNode);
    }

    /** `calculate_power_flow`, one row per reported edge with its line found
        under either orientation. The generation and load only feed node
        injections that nothing reads, so the table does not depend on them,
        and with every line registered only a division by zero can fail. */
    method CalculatePowerFlow(generation: seq<(string, real)>, load: seq<(string, real)>)
      returns (r: Result<seq<FlowRow>>)
      requires Valid()
      ensures r == PowerFlows(lines, ReportedEdges(network))
      ensures r.Err? ==> r.error == ZeroDivisionError
    {
      var edges := ReportedEdges(network);
      ReportedPowerFlowsErrors(lines, network);
      var results: seq<FlowRow> := [];
      var k := 0;
      while k < |edges|
        invariant 0 <= k <= |edges|
        invariant PowerFlows(lines, edges[..k]) == Ok(results)
      {
        assert edges[..k + 1][..k] == edges[..k];
        ReportedLine(lines, network, k);
        var line := LineOf(lines, edges[k]).value;
        var row := FlowRowOf(edges[k], line);
        if row.Err? {
          PowerFlowsPrefix(lines, edges, k + 1);
          return Err(row.error);
        }
        results := results + [row.value];
        k := k + 1;
      }
      assert edges[..k] == edges;
      r := Ok(results);
    }

    /** `identify_bottlenecks`, the capacity of each busy row's line found
        under either orientation. */
    method IdentifyBottlenecks(powerFlows: seq<FlowRow>) returns (r: Result<seq<Bottleneck>>)
      ensures r == Bottlenecks(lines, powerFlows)
    {
      if |powerFlows| == 0 {
        return Err(KeyError("utilization"));
      }
      HighUtilizationBusy(powerFlows);
      var busy := HighUtilization(powerFlows);
      var bottlenecks: seq<Bottleneck> := [];
      var k := 0;
      while k < |busy|
        invariant 0 <= k <= |busy|
        invariant BottleneckRows(lines, busy[..k]) == Ok(bottlenecks)
      {
        assert busy[..k + 1][..k] == busy[..k];
        var line := LineOf(lines, (busy[k].fromNode, busy[k].toNode));
        if line.None? {
          BottleneckRowsPrefix(lines, busy, k + 1);
          return Err(EdgeKeyError(busy[k].fromNode, busy[k].toNode));
        }
        bottlenecks := bottlenecks + [Bottleneck(busy[k].fromNode, busy[k].toNode, busy[k].utilization.value,
                                                 busy[k].powerFlow, line.value.capacity)];
        k := k + 1;
      }
      assert busy[..k] == busy;
      r := Ok(bottlenecks);
    }

    /** `optimize_network_expansion`, the connected capacity read under
        either orientation of each edge. Every plan is sound, and only a
        future load at an unknown substation raises. */
    method OptimizeNetworkExpansion(futureLoad: seq<(string, real)>, maxInvestment: real)
      returns (r: Result<seq<ExpansionPlan>>)
      requires Valid()
      ensures r == Expansion(substations, lines, network, futureLoad, maxInvestment)
      ensures r.Ok? <==> forall i :: 0 <= i < |futureLoad| ==> futureLoad[i].0 in Keys(substations)
    {
      var plans: seq<ExpansionPlan> := [];
      var k := 0;
      while k < |futureLoad|
        invariant 0 <= k <= |futureLoad|
        invariant Expansion(substations, lines, network, futureLoad[..k], maxInvestment) == Ok(plans)
      {
        assert futureLoad[..k + 1][..k] == futureLoad[..k];
        var (node, load) := futureLoad[k];
        var plan := Plan(substations, lines, network, node, load, maxInvestment);
        if plan.Err? {
          ExpansionPrefix(substations, lines, network, futureLoad, maxInvestment, k + 1);
          ExpansionErrors(substations, lines, network, futureLoad, maxInvestment);
          return Err(plan.error);
        }
        if plan.value.Some? {
          plans := plans + [plan.value.value];
        }
        k := k + 1;
      }
      assert futureLoad[..k] == futureLoad;
      ExpansionErrors(substations, lines, network, futureLoad, maxInvestment);
      r := Ok(plans);
    }
  }

  lemma {:induction false} PowerFlowsPrefix(lines: seq<(Edge, TransmissionLine)>, edges: seq<Edge>, m: nat)
    requires m <= |edges| && PowerFlows(lines, edges[..m]).Err?
    ensures PowerFlows(lines, edges) == PowerFlows(lines, edges[..m])
  {
    if m < |edges| {
      var k := |edges| - 1;
      assert edges[..k][..m] == edges[..m];
      PowerFlowsPrefix(lines, edges[..k], m);
    } else {
      assert edges[..m] == edges;
    }
  }

  lemma {:induction false} BottleneckRowsPrefix(lines: seq<(Edge, TransmissionLine)>, busy: seq<FlowRow>, m: nat)
    requires forall i :: 0 <= i < |busy| ==> Busy(busy[i])
    requires m <= |busy| && BottleneckRows(lines, busy[..m]).Err?
    ensures BottleneckRows(lines, busy) == BottleneckRows(lines, busy[..m])
  {
    if m < |busy| {
      var k := |busy| - 1;
      assert busy[..k][..m] == busy[..m];
      BottleneckRowsPrefix(lines, busy[..k], m);
    } else {
      assert busy[..m] == busy;
    }
  }

  lemma {:induction false} ExpansionPrefix(substations: seq<(string, Substation)>, lines: seq<(Edge, TransmissionLine)>,
                                           g: Graph, futureLoad: seq<(string, real)>, maxInvestment: real, m: nat)
    requires m <= |futureLoad| && Expansion(substations, lines, g, futureLoad[..m], maxInvestment).Err?
    ensures Expansion(substations, lines, g, futureLoad, maxInvestment) == Expansion(substations, lines, g, futureLoad[..m], maxInvestment)
  {
    if m < |futureLoad| {
      var k := |futureLoad| - 1;
      assert futureLoad[..k][..m] == futureLoad[..m];
      ExpansionPrefix(substations, lines, g, futureLoad[..k], maxInvestment, m);
    } else {
      assert futureLoad[..m] == futureLoad;
    }
  }
}
