/**
 * The pure mappings of the canvas board: roadmap nodes and connections into
 * the canvas library's records, the way back when the canvas reports a change,
 * and the per-render decoration that marks the highlighted and focused node.
 */
module CanvasBoard {
  import opened Wrappers
  import opened Seqs
  import opened RoadmapSchema
  import opened NodeUtils

  /** The canvas nodes for the roadmap's nodes: one per node, in order, carrying its id, position and data. */
  function MappedNodes(nodes: seq<Node>): (r: seq<FlowNode>)
    ensures |r| == |nodes|
    ensures forall i :: 0 <= i < |r| ==> r[i].id == nodes[i].id && r[i].position == nodes[i].position && r[i].data == nodes[i]
    ensures forall i :: 0 <= i < |r| ==> (r[i].className == "completed" <==> nodes[i].isCompleted)
  {
    Map(nodes, ToFlowNode)
  }

  /** The canvas edges for the roadmap's connections: one per connection, in order, with its endpoints. */
  function MappedEdges(connections: seq<Connection>): (r: seq<FlowEdge>)
    ensures |r| == |connections|
    ensures forall i :: 0 <= i < |r| ==> r[i].source == connections[i].sourceId && r[i].target == connections[i].targetId
  {
    Map(connections, ToFlowEdge)
  }

  /** The node the canvas holds, moved to the canvas position. */
  function SyncNode(f: FlowNode): (n: Node)
    ensures n.position == f.position
    ensures n.(position := f.data.position) == f.data
  {
    f.data.(position := f.position)
  }

  /** The node list handed back to the roadmap when the canvas nodes change. */
  function SyncNodes(current: seq<FlowNode>): (r: seq<Node>)
    ensures |r| == |current|
    ensures forall i :: 0 <= i < |r| ==> r[i].position == current[i].position
    ensures forall i :: 0 <= i < |r| ==> r[i].(position := current[i].data.position) == current[i].data
  {
    Map(current, SyncNode)
  }

  /** The connection between an edge's source and target. */
  function EdgeToConnection(e: FlowEdge): (c: Connection)
    ensures c.sourceId == e.source && c.targetId == e.target
  {
    Connection(e.source, e.target)
  }

  /** The connection list handed back to the roadmap when the canvas edges change or an edge is drawn. */
  function SyncEdges(current: seq<FlowEdge>): (r: seq<Connection>)
    ensures |r| == |current|
    ensures forall i :: 0 <= i < |r| ==> r[i].sourceId == current[i].source && r[i].targetId == current[i].target
  {
    Map(current, EdgeToConnection)
  }

  /** Mapping nodes onto the canvas and syncing them straight back gives the same nodes. */
  lemma NodesRoundTrip(nodes: seq<Node>)
    ensures SyncNodes(MappedNodes(nodes)) == nodes
  {
    var back := SyncNodes(MappedNodes(nodes));
    assert forall i :: 0 <= i < |nodes| ==> back[i] == nodes[i];
  }

  /** Moving canvas nodes changes only the positions of the synced nodes. */
  lemma {:induction false} SyncAfterMoveChangesOnlyPositions(nodes: seq<Node>, moved: seq<Position>)
    requires |moved| == |nodes|
    ensures var current := seq(|nodes|, i requires 0 <= i < |nodes| => ToFlowNode(nodes[i]).(position := moved[i]));
      SyncNodes(current) == seq(|nodes|, i requires 0 <= i < |nodes| => nodes[i].(position := moved[i]))
  {
  }

  /** Mapping connections onto the canvas and syncing them straight back gives the same connections. */
  lemma EdgesRoundTrip(connections: seq<Connection>)
    ensures SyncEdges(MappedEdges(connections)) == connections
  {
    var back := SyncEdges(MappedEdges(connections));
    assert forall i :: 0 <= i < |connections| ==> back[i] == connections[i];
  }

  /**
   * A node as the board renders it: the canvas record, the `isFocused` flag
   * added to its data, and whether it gets the highlight border.
   */
  datatype RenderedNode = RenderedNode(flow: FlowNode, isFocused: bool, highlighted: bool)

  /** The render-time decoration; `None` stands for the null / undefined ids no node has. */
  function Decorate(current: seq<FlowNode>, highlightedNodeId: Option<string>, focusNodeId: Option<string>): (r: seq<RenderedNode>)
    ensures |r| == |current|
    ensures forall i :: 0 <= i < |r| ==> r[i].flow == current[i]
    ensures forall i :: 0 <= i < |r| ==> (r[i].isFocused <==> focusNodeId == Some(current[i].id))
    ensures forall i :: 0 <= i < |r| ==> (r[i].highlighted <==> highlightedNodeId == Some(current[i].id))
  {
    Map(current, (n: FlowNode) => RenderedNode(n, focusNodeId == Some(n.id), highlightedNodeId == Some(n.id)))
  }

  /** No two canvas nodes share an id. */
  predicate UniqueFlowIds(current: seq<FlowNode>) {
    DistinctBy(current, (f: FlowNode) => f.id)
  }

  /** With unique node ids at most one rendered node is highlighted, and at most one focused. */
  lemma AtMostOneHighlighted(current: seq<FlowNode>, highlightedNodeId: Option<string>, focusNodeId: Option<string>)
    requires UniqueFlowIds(current)
    ensures var r := Decorate(current, highlightedNodeId, focusNodeId);
      && (forall i, j :: 0 <= i < |r| && 0 <= j < |r| && r[i].highlighted && r[j].highlighted ==> i == j)
      && (forall i, j :: 0 <= i < |r| && 0 <= j < |r| && r[i].isFocused && r[j].isFocused ==> i == j)
  {
  }
}
