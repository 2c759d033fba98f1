/**
 * The client's node factory and its conversions to the canvas library's
 * node and edge records.
 */
module NodeUtils {
  import opened Wrappers
  import opened Strings
  import opened RoadmapSchema

  /** The node types the client offers, in the order it lists them. */
  const NodeTypes: seq<string> := ["group", "topic", "subtopic", "content"]

  /** The client's list names exactly the schema's node types, each once. */
  lemma NodeTypesMatchSchema()
    ensures forall s :: s in NodeTypes <==> ParseNodeType(s).Some?
    ensures forall i, j :: 0 <= i < j < |NodeTypes| ==> NodeTypes[i] != NodeTypes[j]
    ensures |NodeTypes| == 4
  {
  }

  /**
   * `createNode({ type, position, parentId, title })`, where `id` is the value
   * `crypto.randomUUID()` produced. An absent type is `'topic'`; an absent or
   * empty title is `"New " + type`. The type is not checked.
   */
  function CreateNode(id: string, nodeType: Option<string>, position: Position,
                      parentId: Option<string>, title: Option<string>): (n: Node)
    ensures n.id == id && n.position == position && n.parentId == parentId
    ensures n.nodeType == nodeType.GetOr("topic")
    ensures title.Some? && title.value != "" ==> n.title == title.value
    ensures title.None? || title.value == "" ==> n.title == "New " + n.nodeType
    ensures n.summary == "" && n.code == "" && n.output == "" && n.notes == ""
    ensures n.images == [] && !n.isCompleted && n.metadata == map[]
    ensures n.difficulty == "Medium" && n.priorityTag == "Frequent"
  {
    var kind := nodeType.GetOr("topic");
    Node(
      id := id,
      title := if title.Some? && title.value != "" then title.value else "New " + kind,
      nodeType := kind,
      parentId := parentId,
      position := position,
      summary := "",
      code := "",
      output := "",
      notes := "",
      images := [],
      isCompleted := false,
      difficulty := "Medium",
      priorityTag := "Frequent",
      metadata := map[])
  }

  /**
   * A created node carries the schema's defaults, and it meets the schema
   * when its id is not empty, its type is one of the four and any non-empty
   * title it was given is not all whitespace (an empty one falls back to the default).
   */
  lemma CreateNodeConforms(id: string, nodeType: Option<string>, position: Position,
                           parentId: Option<string>, title: Option<string>)
    requires id != ""
    requires nodeType.GetOr("topic") in NodeTypes
    requires title.Some? && title.value != "" ==> !IsBlank(title.value)
    ensures var n := CreateNode(id, nodeType, position, parentId, title);
      && NodeConforms(n)
      && ParseDifficulty(n.difficulty) == Some(DefaultDifficulty)
      && ParsePriorityTag(n.priorityTag) == Some(DefaultPriorityTag)
      && n.summary == DefaultText && n.code == DefaultText
      && n.output == DefaultText && n.notes == DefaultText
      && n.isCompleted == DefaultIsCompleted
      && (parentId.None? ==> n.parentId == DefaultParentId)
  {
    var n := CreateNode(id, nodeType, position, parentId, title);
    NodeTypesMatchSchema();
    assert ParseNodeType(n.nodeType).Some?;
    if !(title.Some? && title.value != "") {
      assert n.title[0] == 'N' && !IsSpace(n.title[0]);
    }
    assert !IsBlank(n.title);
    TitleRuleIsNotBlank(n);
    assert RequiredString(CastNode(n).title);
  }

  /** The canvas library's node record: the roadmap node rides along as `data`. */
  datatype FlowNode = FlowNode(id: string, data: Node, position: Position, className: string)

  /** The canvas library's edge record; `edgeType` is the field the library calls `type`. */
  datatype FlowEdge = FlowEdge(id: string, source: string, target: string, edgeType: string)

  /** The canvas record of a node: its id and position, the node as data, and a `'completed'` class when it is done. */
  function ToFlowNode(node: Node): (f: FlowNode)
    ensures f.id == node.id && f.data == node && f.position == node.position
    ensures f.className == "completed" <==> node.isCompleted
    ensures !node.isCompleted ==> f.className == ""
  {
    FlowNode(node.id, node, node.position, if node.isCompleted then "completed" else "")
  }

  /** The canvas record of a connection: the edge id joins the two endpoint ids with a `'-'`. */
  function ToFlowEdge(edge: Connection): (e: FlowEdge)
    ensures e.source == edge.sourceId && e.target == edge.targetId && e.edgeType == "smoothstep"
    ensures |e.id| == |edge.sourceId| + 1 + |edge.targetId|
    ensures e.id[..|edge.sourceId|] == edge.sourceId
    ensures e.id[|edge.sourceId|] == '-' && e.id[|edge.sourceId| + 1..] == edge.targetId
  {
    FlowEdge(edge.sourceId + "-" + edge.targetId, edge.sourceId, edge.targetId, "smoothstep")
  }

  /**
   * Edge ids do not identify connections: endpoint ids that themselves
   * contain `'-'` can give two different connections the same edge id.
   */
  lemma FlowEdgeIdsCanCollide()
    ensures ToFlowEdge(Connection("a-b", "c")).id == ToFlowEdge(Connection("a", "b-c")).id
  {
  }
}
