/** The undirected graph that both network models keep (a networkx `Graph`),
    reduced to what they read of it: the nodes in insertion order and the edges
    in first-insertion order, each edge once whichever way round it was added.
    Also the line-flow placeholder and the loss factor that the transmission and
    distribution models share. */
module NetworkGraph {
  import opened Common

  /** A (from, to) pair of node names: a graph edge or a `lines` key. */
  type Edge = (string, string)

  datatype Graph = Graph(nodes: seq<string>, edges: seq<Edge>)

  /** e connects u and v, in either direction. */
  predicate Joins(e: Edge, u: string, v: string)
  {
    e == (u, v) || e == (v, u)
  }

  /** The graph has an edge between u and v. */
  predicate HasEdge(edges: seq<Edge>, u: string, v: string)
  {
    exists i :: 0 <= i < |edges| && Joins(edges[i], u, v)
  }

  /** Node names distinct, edges between known nodes, no edge twice. */
  ghost predicate WellFormed(g: Graph)
  {
    (forall i, j :: 0 <= i < j < |g.nodes| ==> g.nodes[i] != g.nodes[j]) &&
    (forall i :: 0 <= i < |g.edges| ==> g.edges[i].0 in g.nodes && g.edges[i].1 in g.nodes) &&
    (forall i, j :: 0 <= i < j < |g.edges| ==> !Joins(g.edges[j], g.edges[i].0, g.edges[i].1))
  }

  /** `add_node(n)`: appends n unless it is already a node; the attributes
      stored with it are not modelled. */
  function AddNode(g: Graph, n: string): (r: Graph)
    ensures r.edges == g.edges
    ensures n in r.nodes && forall m :: m in g.nodes ==> m in r.nodes
    ensures forall m :: m in r.nodes ==> m in g.nodes || m == n
  {
    if n in g.nodes then g else Graph(g.nodes + [n], g.edges)
  }

  /** `add_edge(u, v)`: adds u, then v, as nodes, and the edge unless u and v
      are already joined (then only its attributes change). */
  function AddEdge(g: Graph, u: string, v: string): (r: Graph)
    ensures HasEdge(r.edges, u, v)
    ensures forall x, y :: HasEdge(g.edges, x, y) ==> HasEdge(r.edges, x, y)
    ensures u in r.nodes && v in r.nodes && forall m :: m in g.nodes ==> m in r.nodes
  {
    var h := AddNode(AddNode(g, u), v);
    if HasEdge(h.edges, u, v) then h
    else
      assert Joins((h.edges + [(u, v)])[|h.edges|], u, v);
      assert forall i :: 0 <= i < |h.edges| ==> (h.edges + [(u, v)])[i] == h.edges[i];
      Graph(h.nodes, h.edges + [(u, v)])
  }

  lemma AddNodeWellFormed(g: Graph, n: string)
    requires WellFormed(g)
    ensures WellFormed(AddNode(g, n))
  {
  }

  lemma AddEdgeWellFormed(g: Graph, u: string, v: string)
    requires WellFormed(g)
    ensures WellFormed(AddEdge(g, u, v))
  {
    var h := AddNode(AddNode(g, u), v);
    AddNodeWellFormed(g, u);
    AddNodeWellFormed(AddNode(g, u), v);
    if !HasEdge(h.edges, u, v) {
      var r := AddEdge(g, u, v);
      assert r.edges == h.edges + [(u, v)];
      forall i, j | 0 <= i < j < |r.edges|
        ensures !Joins(r.edges[j], r.edges[i].0, r.edges[i].1)
      {
        if j == |h.edges| {
          if Joins(r.edges[j], r.edges[i].0, r.edges[i].1) {
            assert Joins(h.edges[i], u, v);
            assert false;
          }
        }
      }
    }
  }

  /** The neighbours of n in the order networkx keeps them: the far end of
      every edge touching n, in the order those edges were first added. */
  function Neighbours(edges: seq<Edge>, n: string): seq<string>
  {
    if |edges| == 0 then []
    else
      var e := edges[|edges| - 1];
      Neighbours(edges[..|edges| - 1], n) + (if e.0 == n then [e.1] else if e.1 == n then [e.0] else [])
  }

  /** v is listed among n's neighbours exactly when an edge joins them. */
  lemma {:induction false} NeighboursAdjacent(edges: seq<Edge>, n: string, v: string)
    ensures v in Neighbours(edges, n) <==> HasEdge(edges, n, v)
  {
    if |edges| > 0 {
      var k := |edges| - 1;
      var front := edges[..k];
      NeighboursAdjacent(front, n, v);
      if HasEdge(front, n, v) {
        var i :| 0 <= i < |front| && Joins(front[i], n, v);
        assert Joins(edges[i], n, v);
      }
      if HasEdge(edges, n, v) && !Joins(edges[k], n, v) {
        var i :| 0 <= i < |edges| && Joins(edges[i], n, v);
        assert Joins(front[i], n, v);
      }
      if Joins(edges[k], n, v) {
        assert Joins(edges[k], n, v);
      }
    }
  }

  /** `Graph.edges(n)`: the edges touching n, each oriented from n. */
  function IncidentEdges(g: Graph, n: string): (r: seq<Edge>)
    ensures |r| == |Neighbours(g.edges, n)|
    ensures forall i :: 0 <= i < |r| ==> r[i].0 == n && r[i].1 == Neighbours(g.edges, n)[i]
  {
    var nbrs := Neighbours(g.edges, n);
    seq(|nbrs|, i requires 0 <= i < |nbrs| => (n, nbrs[i]))
  }

  /** Every edge touching n is listed from n, and nothing else is. */
  lemma IncidentEdgesExact(g: Graph, n: string, v: string)
    ensures (n, v) in IncidentEdges(g, n) <==> HasEdge(g.edges, n, v)
    ensures forall e :: e in IncidentEdges(g, n) ==> e.0 == n
  {
    NeighboursAdjacent(g.edges, n, v);
    var r := IncidentEdges(g, n);
    if (n, v) in r {
      var i :| 0 <= i < |r| && r[i] == (n, v);
      assert v in Neighbours(g.edges, n);
    }
    if v in Neighbours(g.edges, n) {
      var i :| 0 <= i < |Neighbours(g.edges, n)| && Neighbours(g.edges, n)[i] == v;
      assert r[i] == (n, v);
    }
  }

  /** n's edges oriented from n, skipping neighbours already listed. */
  function Unseen(n: string, nbrs: seq<string>, seen: seq<string>): seq<Edge>
  {
    if |nbrs| == 0 then []
    else
      Unseen(n, nbrs[..|nbrs| - 1], seen) + (if nbrs[|nbrs| - 1] in seen then [] else [(n, nbrs[|nbrs| - 1])])
  }

  /** `Graph.edges()` over the nodes listed: node by node in insertion order,
      each node's neighbours in adjacency order, skipping neighbours already
      visited, so every edge comes out oriented from its earlier node. */
  function Reported(nodes: seq<string>, edges: seq<Edge>): seq<Edge>
  {
    if |nodes| == 0 then []
    else
      var k := |nodes| - 1;
      Reported(nodes[..k], edges) + Unseen(nodes[k], Neighbours(edges, nodes[k]), nodes[..k])
  }

  /** The edges networkx reports for the whole graph. */
  function ReportedEdges(g: Graph): seq<Edge>
  {
    Reported(g.nodes, g.edges)
  }

  lemma {:induction false} UnseenExact(n: string, nbrs: seq<string>, seen: seq<string>, e: Edge)
    ensures e in Unseen(n, nbrs, seen) <==> e.0 == n && e.1 in nbrs && e.1 !in seen
  {
    if |nbrs| > 0 {
      var k := |nbrs| - 1;
      UnseenExact(n, nbrs[..k], seen, e);
      assert nbrs == nbrs[..k] + [nbrs[k]];
    }
  }

  /** Every reported pair is an edge, oriented from a node whose other end was
      not visited before it. */
  lemma {:induction false} ReportedAreEdges(nodes: seq<string>, edges: seq<Edge>, e: Edge)
    requires e in Reported(nodes, edges)
    ensures HasEdge(edges, e.0, e.1) && e.0 in nodes
  {
    var k := |nodes| - 1;
    if e in Reported(nodes[..k], edges) {
      ReportedAreEdges(nodes[..k], edges, e);
    } else {
      UnseenExact(nodes[k], Neighbours(edges, nodes[k]), nodes[..k], e);
      NeighboursAdjacent(edges, nodes[k], e.1);
    }
  }

  /** Every reported pair of a graph is one of its edges. */
  lemma ReportedCovered(g: Graph)
    ensures forall i :: 0 <= i < |ReportedEdges(g)| ==> HasEdge(g.edges, ReportedEdges(g)[i].0, ReportedEdges(g)[i].1)
  {
    forall i | 0 <= i < |ReportedEdges(g)|
      ensures HasEdge(g.edges, ReportedEdges(g)[i].0, ReportedEdges(g)[i].1)
    {
      ReportedAreEdges(g.nodes, g.edges, ReportedEdges(g)[i]);
    }
  }

  /** With every edge keyed, a line is found for each reported pair. */
  lemma ReportedLine<L>(lines: seq<(Edge, L)>, g: Graph, i: nat)
    requires LinesCover(lines, g.edges) && i < |ReportedEdges(g)|
    ensures LineOf(lines, ReportedEdges(g)[i]).Some?
  {
    var e := ReportedEdges(g)[i];
    ReportedAreEdges(g.nodes, g.edges, e);
    LineOfEdge(lines, g.edges, e.0, e.1);
  }

  lemma {:induction false} ReportedGrows(nodes: seq<string>, edges: seq<Edge>, m: nat, e: Edge)
    requires m <= |nodes| && e in Reported(nodes[..m], edges)
    ensures e in Reported(nodes, edges)
  {
    if m < |nodes| {
      var k := |nodes| - 1;
      assert nodes[..k][..m] == nodes[..m];
      ReportedGrows(nodes[..k], edges, m, e);
      assert Reported(nodes, edges) == Reported(nodes[..k], edges) + Unseen(nodes[k], Neighbours(edges, nodes[k]), nodes[..k]);
    } else {
      assert nodes[..m] == nodes;
    }
  }

  /** Every edge of a well-formed graph is reported, one way round or the other. */
  lemma ReportedComplete(g: Graph, i: int)
    requires WellFormed(g) && 0 <= i < |g.edges|
    ensures g.edges[i] in ReportedEdges(g) || (g.edges[i].1, g.edges[i].0) in ReportedEdges(g)
  {
    var a, b := g.edges[i].0, g.edges[i].1;
    var p := IndexOf(g.nodes, a);
    var q := IndexOf(g.nodes, b);
    if p <= q {
      ReportedFromFirst(g, p, a, b);
    } else {
      ReportedFromFirst(g, q, b, a);
    }
  }

  function IndexOf(s: seq<string>, x: string): (k: nat)
    requires x in s
    ensures k < |s| && s[k] == x
  {
    if s[0] == x then 0 else 1 + IndexOf(s[1..], x)
  }

  /** An edge whose end x is visited no later than its other end y is
      reported as (x, y). */
  lemma ReportedFromFirst(g: Graph, m: nat, x: string, y: string)
    requires WellFormed(g) && m < |g.nodes| && g.nodes[m] == x
    requires HasEdge(g.edges, x, y) && y !in g.nodes[..m]
    ensures (x, y) in ReportedEdges(g)
  {
    NeighboursAdjacent(g.edges, x, y);
    UnseenExact(x, Neighbours(g.edges, x), g.nodes[..m], (x, y));
    assert g.nodes[..m + 1][..m] == g.nodes[..m];
    assert (x, y) in Reported(g.nodes[..m + 1], g.edges);
    ReportedGrows(g.nodes, g.edges, m + 1, (x, y));
  }

  /** The lines are keyed the way they were registered: every edge has a line
      under the key it was first added with. */
  ghost predicate LinesCover<L>(lines: seq<(Edge, L)>, edges: seq<Edge>)
  {
    forall i :: 0 <= i < |edges| ==> edges[i] in Keys(lines)
  }

  /** Registering a line keeps every edge covered, the new one included. */
  lemma LinesCoverAdd<L>(lines: seq<(Edge, L)>, g: Graph, u: string, v: string, line: L)
    requires LinesCover(lines, g.edges)
    ensures LinesCover(Put(lines, (u, v), line), AddEdge(g, u, v).edges)
  {
    PutKeys(lines, (u, v), line);
  }

  /** The line of an edge looked up the way networkx reports the edge, which
      is how `lines[(from_node, to_node)]` is written. */
  function LineAsWritten<L>(lines: seq<(Edge, L)>, e: Edge): (r: Option<L>)
    ensures r.Some? <==> e in Keys(lines)
    ensures r.Some? ==> (e, r.value) in lines
    ensures r.Some? ==> LineOf(lines, e) == r
  {
    FindPresent(lines, e);
    Find(lines, e)
  }

  /** The line of an edge under either orientation of its key. */
  function LineOf<L>(lines: seq<(Edge, L)>, e: Edge): (r: Option<L>)
    ensures r.Some? <==> e in Keys(lines) || (e.1, e.0) in Keys(lines)
    ensures r.Some? ==> (e, r.value) in lines || ((e.1, e.0), r.value) in lines
  {
    FindPresent(lines, e);
    FindPresent(lines, (e.1, e.0));
    if Find(lines, e).Some? then Find(lines, e) else Find(lines, (e.1, e.0))
  }

  /** Every edge networkx reports, or lists from one of its ends, has a line
      under one of its two orientations. */
  lemma LineOfEdge<L>(lines: seq<(Edge, L)>, edges: seq<Edge>, u: string, v: string)
    requires LinesCover(lines, edges) && HasEdge(edges, u, v)
    ensures LineOf(lines, (u, v)).Some?
  {
    var i :| 0 <= i < |edges| && Joins(edges[i], u, v);
    assert edges[i] in Keys(lines);
  }

  /** A line registered against the node order: substation B, then the line
      A -> B. networkx reports the edge as (B, A), and the lookup as written
      finds nothing there, while the line is found under the reversed key. */
  lemma ReversedLineMissed<L>(line: L)
    ensures ReportedEdges(AddEdge(AddNode(Graph([], []), "B"), "A", "B")) == [("B", "A")]
    ensures LineAsWritten([(("A", "B"), line)], ("B", "A")) == None
    ensures LineOf([(("A", "B"), line)], ("B", "A")) == Some(line)
  {
    ReversedExampleGraph();
    ReversedExampleReported();
    ReversedExampleLookups(line);
  }

  lemma ReversedExampleLookups<L>(line: L)
    ensures Find([(("A", "B"), line)], ("B", "A")) == None
    ensures Find([(("A", "B"), line)], ("A", "B")) == Some(line)
  {
    assert "A"[0] != "B"[0];
    assert [(("A", "B"), line)][1..] == [];
  }

  lemma ReversedExampleGraph()
    ensures AddEdge(AddNode(Graph([], []), "B"), "A", "B") == Graph(["B", "A"], [("A", "B")])
  {
    assert AddNode(Graph([], []), "B") == Graph(["B"], []);
    assert AddNode(Graph(["B"], []), "A") == Graph(["B", "A"], []);
  }

  lemma ReversedExampleReported()
    ensures ReportedEdges(Graph(["B", "A"], [("A", "B")])) == [("B", "A")]
  {
    var edges := [("A", "B")];
    ReversedExampleNeighbours();
    assert Unseen("B", ["A"], []) == [("B", "A")] by {
      assert ["A"][..0] == [];
    }
    assert Unseen("A", ["B"], ["B"]) == [] by {
      assert ["B"][..0] == [];
    }
    assert ["B", "A"][..1] == ["B"] && ["B"][..0] == [];
  }

  lemma ReversedExampleNeighbours()
    ensures Neighbours([("A", "B")], "B") == ["A"]
    ensures Neighbours([("A", "B")], "A") == ["B"]
  {
    assert "A"[0] != "B"[0];
    assert [("A", "B")][..0] == [];
  }

  /** The DC power-flow placeholder of one line: 0.1 / reactance × voltage,
      clipped to ± capacity, and the utilization |flow| / capacity. */
  datatype Flow = Flow(powerFlow: real, utilization: Option<real>)

  /** numpy.sign. */
  function Sign(x: real): real
  {
    if x > 0.0 then 1.0 else if x < 0.0 then -1.0 else 0.0
  }

  function RawFlow(reactance: real, voltage: real): real
    requires reactance != 0.0
  {
    0.1 / reactance * voltage
  }

  /** The flow of a line. A zero reactance, or a zero capacity under a zero
      flow, divides Python floats by zero; a clipped flow is a numpy value,
      whose division by a zero capacity gives NaN, written None. */
  function LineFlow(reactance: real, voltage: real, capacity: real): (r: Result<Flow>)
    ensures r.Err? <==> reactance == 0.0 || (capacity == 0.0 && voltage == 0.0)
    ensures r.Err? ==> r.error == ZeroDivisionError
  {
    if reactance == 0.0 then Err(ZeroDivisionError)
    else
      var raw := RawFlow(reactance, voltage);
      RawFlowZero(reactance, voltage);
      if Abs(raw) > capacity then
        var flow := Sign(raw) * capacity;
        if capacity == 0.0 then Ok(Flow(flow, None))
        else Ok(Flow(flow, Some(Abs(flow) / capacity)))
      else if capacity == 0.0 then Err(ZeroDivisionError)
      else Ok(Flow(raw, Some(Abs(raw) / capacity)))
  }

  lemma RawFlowZero(reactance: real, voltage: real)
    requires reactance != 0.0
    ensures RawFlow(reactance, voltage) == 0.0 <==> voltage == 0.0
  {
    assert 0.1 / reactance != 0.0;
  }

  /** Under a non-negative capacity the flow is the raw flow clipped to the
      capacity: its size is the smaller of the two and its sign is kept. */
  lemma LineFlowClipped(reactance: real, voltage: real, capacity: real)
    requires reactance != 0.0 && capacity >= 0.0 && LineFlow(reactance, voltage, capacity).Ok?
    ensures var f := LineFlow(reactance, voltage, capacity).value.powerFlow;
      var raw := RawFlow(reactance, voltage);
      Abs(f) == Min(Abs(raw), capacity) && Abs(f) <= capacity &&
      (raw >= 0.0 ==> f >= 0.0) && (raw <= 0.0 ==> f <= 0.0)
  {
  }

  /** Under a positive capacity the utilization is |flow| / capacity, at most 1. */
  lemma LineFlowUtilization(reactance: real, voltage: real, capacity: real)
    requires reactance != 0.0 && capacity > 0.0
    ensures var r := LineFlow(reactance, voltage, capacity);
      r.Ok? && r.value.utilization == Some(Abs(r.value.powerFlow) / capacity) &&
      0.0 <= r.value.utilization.value <= 1.0
  {
    var raw := RawFlow(reactance, voltage);
    var f := LineFlow(reactance, voltage, capacity).value.powerFlow;
    LineFlowClipped(reactance, voltage, capacity);
    assert 0.0 <= Abs(f) <= capacity;
    assert Abs(f) / capacity <= capacity / capacity;
  }

  /** One row of the power-flow table; a NaN utilization is None. */
  datatype FlowRow = FlowRow(
    fromNode: string,
    toNode: string,
    powerFlow: real,
    losses: real,
    utilization: Option<real>)

  function Losses(rows: seq<FlowRow>): (r: seq<real>)
    ensures |r| == |rows| && forall i :: 0 <= i < |rows| ==> r[i] == rows[i].losses
  {
    seq(|rows|, i requires 0 <= i < |rows| => rows[i].losses)
  }

  function AbsFlows(rows: seq<FlowRow>): (r: seq<real>)
    ensures |r| == |rows| && forall i :: 0 <= i < |rows| ==> r[i] == Abs(rows[i].powerFlow)
  {
    seq(|rows|, i requires 0 <= i < |rows| => Abs(rows[i].powerFlow))
  }

  /** `total_losses / total_flow if total_flow > 0 else 0`. */
  function LossFactor(totalLosses: real, totalFlow: real): (r: real)
    ensures totalFlow <= 0.0 ==> r == 0.0
    ensures totalFlow > 0.0 ==> r * totalFlow == totalLosses
    ensures totalLosses >= 0.0 ==> r >= 0.0
  {
    if totalFlow > 0.0 then totalLosses / totalFlow else 0.0
  }
}
