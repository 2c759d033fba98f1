/**
 * The persisted document shape: Node, Connection and Roadmap, the enumerations
 * a node's `type`, `difficulty` and `priorityTag` are checked against, the
 * schema defaults, and the rules a document must meet to be stored.
 *
 * The enumerated fields are strings in a Node, as in the source: the client
 * builds nodes without checking them, and only the schema rules below reject
 * a value outside the enumeration.
 */
module RoadmapSchema {
  import opened Wrappers
  import opened Strings

  datatype NodeType = Group | Topic | Subtopic | Content

  function NodeTypeName(t: NodeType): string {
    match t
    case Group => "group"
    case Topic => "topic"
    case Subtopic => "subtopic"
    case Content => "content"
  }

  /** The node type a stored string names, if it is one of the four. */
  function ParseNodeType(s: string): (r: Option<NodeType>)
    ensures r.Some? ==> NodeTypeName(r.value) == s
    ensures r.None? ==> forall t: NodeType :: NodeTypeName(t) != s
  {
    if s == "group" then Some(Group)
    else if s == "topic" then Some(Topic)
    else if s == "subtopic" then Some(Subtopic)
    else if s == "content" then Some(Content)
    else None
  }

  datatype Difficulty = Easy | Medium | Hard

  function DifficultyName(d: Difficulty): string {
    match d
    case Easy => "Easy"
    case Medium => "Medium"
    case Hard => "Hard"
  }

  function ParseDifficulty(s: string): (r: Option<Difficulty>)
    ensures r.Some? ==> DifficultyName(r.value) == s
    ensures r.None? ==> forall d: Difficulty :: DifficultyName(d) != s
  {
    if s == "Easy" then Some(Easy)
    else if s == "Medium" then Some(Medium)
    else if s == "Hard" then Some(Hard)
    else None
  }

  datatype PriorityTag = Important | Weak | Frequent

  function PriorityTagName(p: PriorityTag): string {
    match p
    case Important => "Important"
    case Weak => "Weak"
    case Frequent => "Frequent"
  }

  function ParsePriorityTag(s: string): (r: Option<PriorityTag>)
    ensures r.Some? ==> PriorityTagName(r.value) == s
    ensures r.None? ==> forall p: PriorityTag :: PriorityTagName(p) != s
  {
    if s == "Important" then Some(Important)
    else if s == "Weak" then Some(Weak)
    else if s == "Frequent" then Some(Frequent)
    else None
  }

  /** Schema defaults for fields a stored node or roadmap omits. */
  const DefaultDifficulty: Difficulty := Medium
  const DefaultPriorityTag: PriorityTag := Frequent
  const DefaultText: string := ""
  const DefaultIsCompleted: bool := false
  const DefaultParentId: Option<string> := None
  const DefaultKey: string := "default"
  const DefaultTitle: string := "Interview Preparation"

  /** Canvas coordinates; JSON numbers are modelled as reals. */
  datatype Position = Position(x: real, y: real)

  /**
   * A roadmap node. `nodeType` is the field the source calls `type` (a Dafny
   * keyword); `metadata` is the open-ended mapping, with its values modelled
   * as strings. `parentId == None` is `null`.
   */
  datatype Node = Node(
    id: string,
    title: string,
    nodeType: string,
    parentId: Option<string>,
    position: Position,
    summary: string,
    code: string,
    output: string,
    notes: string,
    images: seq<string>,
    isCompleted: bool,
    difficulty: string,
    priorityTag: string,
    metadata: map<string, string>)

  /** A directed edge between two node ids. */
  datatype Connection = Connection(sourceId: string, targetId: string)

  /** The single roadmap document; `key == None` is a document without a key (the client's local default). */
  datatype Roadmap = Roadmap(key: Option<string>, title: string, nodes: seq<Node>, connections: seq<Connection>)

  /** A required string field: present and not empty. */
  predicate RequiredString(s: string) {
    s != ""
  }

  /** The node as the schema stores it: `trim: true` trims the title before validation. */
  function CastNode(n: Node): (r: Node)
    ensures r.title == Trim(n.title)
    ensures r.(title := n.title) == n
  {
    n.(title := Trim(n.title))
  }

  /** The node schema's validation rules, applied to a cast node. */
  predicate NodeConforms(n: Node) {
    && RequiredString(n.id)
    && RequiredString(CastNode(n).title)
    && ParseNodeType(n.nodeType).Some?
    && ParseDifficulty(n.difficulty).Some?
    && ParsePriorityTag(n.priorityTag).Some?
  }

  predicate ConnectionConforms(c: Connection) {
    RequiredString(c.sourceId) && RequiredString(c.targetId)
  }

  /** The roadmap schema's validation rules: a title, and conforming nodes and connections (the key has no rule). */
  predicate RoadmapConforms(r: Roadmap) {
    && RequiredString(r.title)
    && (forall i :: 0 <= i < |r.nodes| ==> NodeConforms(r.nodes[i]))
    && (forall i :: 0 <= i < |r.connections| ==> ConnectionConforms(r.connections[i]))
  }

  /** A node's title passes the required check exactly when it is not all whitespace. */
  lemma TitleRuleIsNotBlank(n: Node)
    ensures RequiredString(CastNode(n).title) <==> !IsBlank(n.title)
  {
    TrimEmptyIffBlank(n.title);
  }

  /** Casting is stable: a cast node is its own cast. */
  lemma CastNodeIdempotent(n: Node)
    ensures CastNode(CastNode(n)) == CastNode(n)
  {
    TrimIdempotent(n.title);
  }

  /** The schema defaults name members of their enumerations. */
  lemma DefaultsConform()
    ensures ParseDifficulty(DifficultyName(DefaultDifficulty)) == Some(Medium)
    ensures ParsePriorityTag(PriorityTagName(DefaultPriorityTag)) == Some(Frequent)
    ensures RoadmapConforms(Roadmap(Some(DefaultKey), DefaultTitle, [], []))
  {
  }
}
