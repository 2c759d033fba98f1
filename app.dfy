/**
 * The client's editing session: the working copy of the roadmap, the node
 * that is selected and the one open in the editor, the search term, and the
 * save status shown in the navigation bar; the operations that change them;
 * and the views derived from them (search highlight, progress, rendering).
 *
 * The random sources (`Math.random`, `crypto.randomUUID`) are parameters of
 * the operations that use them; the HTML sanitizer is a foreign function.
 */
module App {
  import opened Wrappers
  import opened Seqs
  import opened Strings
  import opened RoadmapSchema
  import opened NodeUtils
  import opened CanvasBoard
  import opened RoadmapController

  /** JavaScript truthiness of an optional id: present and not `''`. */
  predicate Truthy(id: Option<string>) {
    id.Some? && id.value != ""
  }

  /** The document the client shows until the server's arrives, and after a failed load. */
  function LocalDefault(groupId: string, topicId: string): (r: Roadmap)
    ensures r.key == None && r.title == DefaultTitle && r.connections == []
    ensures |r.nodes| == 2 && r.nodes[0].id == groupId && r.nodes[1].id == topicId
    ensures r.nodes[0].title == "DSA Group" && r.nodes[0].nodeType == "group"
    ensures r.nodes[1].title == "System Design" && r.nodes[1].nodeType == "topic"
  {
    Roadmap(None, DefaultTitle,
      [CreateNode(groupId, Some("group"), Position(100.0, 100.0), None, Some("DSA Group")),
       CreateNode(topicId, Some("topic"), Position(420.0, 220.0), None, Some("System Design"))],
      [])
  }

  // ---------------------------------------------------------------------
  // Save status

  datatype SaveStatus = Unsaved | Saving | Saved

  /** The text the navigation bar shows. */
  function StatusLabel(s: SaveStatus): string {
    match s
    case Unsaved => "Unsaved"
    case Saving => "Saving..."
    case Saved => "Saved"
  }

  /** What can happen to the save status: an accepted edit, a save request, its resolution or its rejection. */
  datatype SaveEvent = Edited | SaveStarted | SaveResolved | SaveRejected

  /** The status after an event. A rejected request changes nothing: there is no failure status. */
  function NextStatus(s: SaveStatus, e: SaveEvent): (r: SaveStatus)
    ensures e == Edited ==> r == Unsaved
    ensures e == SaveStarted ==> r == Saving
    ensures e == SaveResolved ==> r == Saved
    ensures e == SaveRejected ==> r == s
    ensures r == Saved ==> e == SaveResolved || (s == Saved && e == SaveRejected)
    ensures r == Saving ==> e == SaveStarted || (s == Saving && e == SaveRejected)
  {
    match e
    case Edited => Unsaved
    case SaveStarted => Saving
    case SaveResolved => Saved
    case SaveRejected => s
  }

  /** The status after a sequence of events. */
  function RunStatus(s: SaveStatus, events: seq<SaveEvent>): SaveStatus
    decreases |events|
  {
    if events == [] then s else RunStatus(NextStatus(s, events[0]), events[1..])
  }

  /** The status reads `'Saved'` only after some save request resolved (or it already did). */
  lemma {:induction false} SavedNeedsResolution(s: SaveStatus, events: seq<SaveEvent>)
    requires RunStatus(s, events) == Saved
    ensures s == Saved || SaveResolved in events
    decreases |events|
  {
    if events != [] {
      SavedNeedsResolution(NextStatus(s, events[0]), events[1..]);
    }
  }

  /** A request that is only ever rejected leaves the status at `'Saving...'` for good. */
  lemma {:induction false} RejectedSaveStaysSaving(s: SaveStatus, events: seq<SaveEvent>)
    requires forall i :: 0 <= i < |events| ==> events[i] == SaveRejected
    ensures RunStatus(NextStatus(s, SaveStarted), events) == Saving
    decreases |events|
  {
    if events != [] {
      RejectedSaveStaysSaving(s, events[1..]);
    }
  }

  /** An edit made while a save is in flight still ends at `'Saved'` when that save resolves. */
  lemma SavedDespiteEditInFlight(s: SaveStatus)
    ensures RunStatus(s, [SaveStarted, Edited, SaveResolved]) == Saved
  {
  }

  // ---------------------------------------------------------------------
  // Node operations on the working copy

  /** The random position of a new node, from two `Math.random()` values in [0, 1). */
  function RandomPosition(rx: real, ry: real): (p: Position)
    requires 0.0 <= rx < 1.0 && 0.0 <= ry < 1.0
    ensures 120.0 <= p.x < 420.0 && 120.0 <= p.y < 420.0
  {
    Position(120.0 + rx * 300.0, 120.0 + ry * 300.0)
  }

  /** The roadmap after `addNode` appended `node`, child of `parentId`. */
  function WithNode(r: Roadmap, node: Node, parentId: Option<string>): (r': Roadmap)
    ensures r'.key == r.key && r'.title == r.title
    ensures |r'.nodes| == |r.nodes| + 1 && r'.nodes[..|r.nodes|] == r.nodes && r'.nodes[|r.nodes|] == node
    ensures Truthy(parentId) ==> r'.connections == r.connections + [Connection(parentId.value, node.id)]
    ensures !Truthy(parentId) ==> r'.connections == r.connections
  {
    r.(nodes := r.nodes + [node],
       connections := if Truthy(parentId) then r.connections + [Connection(parentId.value, node.id)] else r.connections)
  }

  /** The node list after an update: every node with the updated node's id is replaced by it. */
  function ReplaceNode(nodes: seq<Node>, updated: Node): (r: seq<Node>)
    ensures |r| == |nodes|
    ensures forall i :: 0 <= i < |r| && nodes[i].id == updated.id ==> r[i] == updated
    ensures forall i :: 0 <= i < |r| && nodes[i].id != updated.id ==> r[i] == nodes[i]
    ensures forall i :: 0 <= i < |r| ==> r[i].id == nodes[i].id
  {
    Map(nodes, (n: Node) => if n.id == updated.id then updated else n)
  }

  predicate IsNotNode(id: string, n: Node) {
    n.id != id
  }

  predicate Unattached(id: string, c: Connection) {
    c.sourceId != id && c.targetId != id
  }

  /** The roadmap after deleting node `id`: the node and every connection touching it are gone. */
  function WithoutNode(r: Roadmap, id: string): (r': Roadmap)
    ensures r'.key == r.key && r'.title == r.title
    ensures forall i :: 0 <= i < |r'.nodes| ==> r'.nodes[i].id != id && r'.nodes[i] in r.nodes
    ensures forall i :: 0 <= i < |r.nodes| && r.nodes[i].id != id ==> r.nodes[i] in r'.nodes
    ensures forall i :: 0 <= i < |r'.connections| ==>
      r'.connections[i].sourceId != id && r'.connections[i].targetId != id && r'.connections[i] in r.connections
    ensures forall i :: 0 <= i < |r.connections| && Unattached(id, r.connections[i]) ==> r.connections[i] in r'.connections
  {
    r.(nodes := Filter(r.nodes, (n: Node) => IsNotNode(id, n)),
       connections := Filter(r.connections, (c: Connection) => Unattached(id, c)))
  }

  /** Deleting keeps the order of what remains and each remaining entry's multiplicity. */
  lemma WithoutNodeKeepsOrder(r: Roadmap, id: string, a: seq<Node>, b: seq<Node>, other: Node)
    requires r.nodes == a + b && other.id != id
    ensures WithoutNode(r, id).nodes == WithoutNode(r.(nodes := a), id).nodes + WithoutNode(r.(nodes := b), id).nodes
    ensures multiset(WithoutNode(r, id).nodes)[other] == multiset(r.nodes)[other]
  {
    FilterConcat(a, b, (n: Node) => IsNotNode(id, n));
    FilterMultiplicity(r.nodes, (n: Node) => IsNotNode(id, n), other);
  }

  /** Deleting keeps the order of the remaining connections and each one's multiplicity. */
  lemma WithoutNodeKeepsConnectionOrder(r: Roadmap, id: string, a: seq<Connection>, b: seq<Connection>, other: Connection)
    requires r.connections == a + b && Unattached(id, other)
    ensures WithoutNode(r, id).connections
         == WithoutNode(r.(connections := a), id).connections + WithoutNode(r.(connections := b), id).connections
    ensures multiset(WithoutNode(r, id).connections)[other] == multiset(r.connections)[other]
  {
    FilterConcat(a, b, (c: Connection) => Unattached(id, c));
    FilterMultiplicity(r.connections, (c: Connection) => Unattached(id, c), other);
  }

  /** Deleting a node from a roadmap the schema accepts leaves one it accepts. */
  lemma WithoutNodeConforms(r: Roadmap, id: string)
    requires RoadmapConforms(r)
    ensures RoadmapConforms(WithoutNode(r, id))
  {
    FilterKeepsProperty(r.nodes, (n: Node) => IsNotNode(id, n), NodeConforms);
    FilterKeepsProperty(r.connections, (c: Connection) => Unattached(id, c), ConnectionConforms);
  }

  /**
   * Adding a node under a parent appends a connection the schema accepts when the
   * new id is not empty: a truthy parent id is never `''`.
   */
  lemma WithNodeConnectionsConform(r: Roadmap, node: Node, parentId: Option<string>)
    requires forall i :: 0 <= i < |r.connections| ==> ConnectionConforms(r.connections[i])
    requires node.id != ""
    ensures var r' := WithNode(r, node, parentId);
      forall i :: 0 <= i < |r'.connections| ==> ConnectionConforms(r'.connections[i])
  {
    var r' := WithNode(r, node, parentId);
    if Truthy(parentId) {
      assert forall i :: 0 <= i < |r.connections| ==> r'.connections[i] == r.connections[i];
      assert r'.connections[|r.connections|] == Connection(parentId.value, node.id);
    }
  }

  /** Deleting a node no entry is attached to changes nothing. */
  lemma WithoutAbsentNode(r: Roadmap, id: string)
    requires forall i :: 0 <= i < |r.nodes| ==> r.nodes[i].id != id
    requires forall i :: 0 <= i < |r.connections| ==> Unattached(id, r.connections[i])
    ensures WithoutNode(r, id) == r
  {
    FilterKeepsAll(r.nodes, (n: Node) => IsNotNode(id, n));
    FilterKeepsAll(r.connections, (c: Connection) => Unattached(id, c));
  }

  /** The text fields the node editor changes, one per edit. */
  datatype TextField = Title | Summary | Code | Output | Notes

  function FieldOf(n: Node, f: TextField): string {
    match f
    case Title => n.title
    case Summary => n.summary
    case Code => n.code
    case Output => n.output
    case Notes => n.notes
  }

  /** The node with one text field set to `value`. */
  function SetField(n: Node, f: TextField, value: string): (r: Node)
    ensures FieldOf(r, f) == value
    ensures forall g :: g != f ==> FieldOf(r, g) == FieldOf(n, g)
    ensures r.id == n.id && r.nodeType == n.nodeType && r.parentId == n.parentId && r.position == n.position
    ensures r.images == n.images && r.isCompleted == n.isCompleted && r.difficulty == n.difficulty
    ensures r.priorityTag == n.priorityTag && r.metadata == n.metadata
  {
    match f
    case Title => n.(title := value)
    case Summary => n.(summary := value)
    case Code => n.(code := value)
    case Output => n.(output := value)
    case Notes => n.(notes := value)
  }

  /** The node with its completion flag flipped. */
  function Toggled(n: Node): (r: Node)
    ensures r.isCompleted == !n.isCompleted
    ensures r.(isCompleted := n.isCompleted) == n
  {
    n.(isCompleted := !n.isCompleted)
  }

  // ---------------------------------------------------------------------
  // Id uniqueness

  /** No two nodes share an id. */
  predicate UniqueIds(nodes: seq<Node>) {
    DistinctBy(nodes, (n: Node) => n.id)
  }

  /** Two different positions of a list with unique ids hold different ids. */
  lemma UniqueIdsDiffer(nodes: seq<Node>, i: int, j: int)
    requires UniqueIds(nodes) && 0 <= i < |nodes| && 0 <= j < |nodes| && i != j
    ensures nodes[i].id != nodes[j].id
  {
    var key := (n: Node) => n.id;
    if i < j {
      assert key(nodes[i]) != key(nodes[j]);
    } else {
      assert key(nodes[j]) != key(nodes[i]);
    }
  }

  predicate FreshId(nodes: seq<Node>, id: string) {
    forall i :: 0 <= i < |nodes| ==> nodes[i].id != id
  }

  lemma AddKeepsUnique(r: Roadmap, node: Node, parentId: Option<string>)
    requires UniqueIds(r.nodes) && FreshId(r.nodes, node.id)
    ensures UniqueIds(WithNode(r, node, parentId).nodes)
  {
    var after := WithNode(r, node, parentId).nodes;
    forall i, j | 0 <= i < j < |after| ensures after[i].id != after[j].id {
      assert after[i] == r.nodes[i];
      if j < |r.nodes| {
        assert after[j] == r.nodes[j];
      }
    }
  }

  /** A filtered sequence of unique-id nodes has unique ids. */
  lemma {:induction false} FilterKeepsUnique(nodes: seq<Node>, keep: Node -> bool)
    requires UniqueIds(nodes)
    ensures UniqueIds(Filter(nodes, keep))
  {
    if nodes != [] {
      var tail := nodes[1..];
      assert UniqueIds(tail) by {
        forall i, j | 0 <= i < j < |tail| ensures tail[i].id != tail[j].id {
          assert tail[i] == nodes[i + 1] && tail[j] == nodes[j + 1];
        }
      }
      FilterKeepsUnique(tail, keep);
      if keep(nodes[0]) {
        var rest := Filter(tail, keep);
        forall k | 0 <= k < |rest| ensures rest[k].id != nodes[0].id {
          var m :| 0 <= m < |tail| && tail[m] == rest[k];
          assert tail[m] == nodes[m + 1];
        }
      }
    }
  }

  lemma DeleteKeepsUnique(r: Roadmap, id: string)
    requires UniqueIds(r.nodes)
    ensures UniqueIds(WithoutNode(r, id).nodes)
  {
    FilterKeepsUnique(r.nodes, (n: Node) => IsNotNode(id, n));
  }

  lemma ReplaceKeepsUnique(nodes: seq<Node>, updated: Node)
    requires UniqueIds(nodes)
    ensures UniqueIds(ReplaceNode(nodes, updated))
  {
  }

  /** A step of an editing sequence: add a node (child of `parentId`) or delete one. */
  datatype Edit = AddEdit(node: Node, parentId: Option<string>) | DeleteEdit(nodeId: string)

  function ApplyEdit(r: Roadmap, e: Edit): Roadmap {
    match e
    case AddEdit(node, parentId) => WithNode(r, node, parentId)
    case DeleteEdit(id) => WithoutNode(r, id)
  }

  function ApplyEdits(r: Roadmap, edits: seq<Edit>): Roadmap
    decreases |edits|
  {
    if edits == [] then r else ApplyEdits(ApplyEdit(r, edits[0]), edits[1..])
  }

  /** Every added node's id is fresh in the roadmap it is added to. */
  predicate FreshAdds(r: Roadmap, edits: seq<Edit>)
    decreases |edits|
  {
    edits != [] ==>
      && (edits[0].AddEdit? ==> FreshId(r.nodes, edits[0].node.id))
      && FreshAdds(ApplyEdit(r, edits[0]), edits[1..])
  }

  /** Node ids stay unique through any sequence of additions with fresh ids and deletions. */
  lemma {:induction false} EditsKeepUnique(r: Roadmap, edits: seq<Edit>)
    requires UniqueIds(r.nodes) && FreshAdds(r, edits)
    ensures UniqueIds(ApplyEdits(r, edits).nodes)
    decreases |edits|
  {
    if edits != [] {
      var e := edits[0];
      match e {
        case AddEdit(node, parentId) => AddKeepsUnique(r, node, parentId);
        case DeleteEdit(id) => DeleteKeepsUnique(r, id);
      }
      EditsKeepUnique(ApplyEdit(r, e), edits[1..]);
    }
  }

  // ---------------------------------------------------------------------
  // Search highlight

  /** The node's lower-cased title contains the lower-cased term. */
  predicate Matches(n: Node, term: string) {
    Contains(Lower(n.title), Lower(term))
  }

  /** Node `i` is the first, in order, that matches the term. */
  ghost predicate FirstMatchAt(nodes: seq<Node>, term: string, i: int) {
    0 <= i < |nodes| && Matches(nodes[i], term) && forall j :: 0 <= j < i ==> !Matches(nodes[j], term)
  }

  /** The index of the first node that matches the term. */
  function FirstMatch(nodes: seq<Node>, term: string): (r: Option<nat>)
    ensures r.Some? ==> FirstMatchAt(nodes, term, r.value)
    ensures r.None? ==> forall i :: 0 <= i < |nodes| ==> !Matches(nodes[i], term)
  {
    FirstIndex(nodes, (n: Node) => Matches(n, term))
  }

  /**
   * `highlightedNodeId`: nothing for a blank term; otherwise the id of the
   * first matching node, unless there is none or that id is `''`.
   */
  function Highlight(nodes: seq<Node>, term: string): (r: Option<string>)
    ensures Trim(term) == "" ==> r == None
    ensures r.Some? ==> r.value != ""
  {
    if Trim(term) == "" then None
    else match FirstMatch(nodes, term)
      case None => None
      case Some(i) => if nodes[i].id != "" then Some(nodes[i].id) else None
  }

  /** Only one index is the first match. */
  lemma FirstMatchUnique(nodes: seq<Node>, term: string, i: int, j: int)
    requires FirstMatchAt(nodes, term, i) && FirstMatchAt(nodes, term, j)
    ensures i == j
  {
  }

  /** The highlight is the id of the first matching node, when the term is not blank and that id is not `''`. */
  lemma HighlightIsFirstMatch(nodes: seq<Node>, term: string)
    ensures Highlight(nodes, term).Some? <==> Trim(term) != "" && exists i :: FirstMatchAt(nodes, term, i) && nodes[i].id != ""
    ensures Highlight(nodes, term).Some? ==> forall i :: FirstMatchAt(nodes, term, i) ==> nodes[i].id == Highlight(nodes, term).value
  {
    if Trim(term) != "" {
      match FirstMatch(nodes, term)
      case None =>
      case Some(k) =>
        forall i | FirstMatchAt(nodes, term, i) ensures i == k {
          FirstMatchUnique(nodes, term, i, k);
        }
    }
  }

  /** A found node is matched ignoring ASCII case: the search text occurs in its lower-cased title. */
  lemma HighlightFoundOccurs(nodes: seq<Node>, term: string)
    requires Highlight(nodes, term).Some?
    ensures exists i, k :: 0 <= i < |nodes| && nodes[i].id == Highlight(nodes, term).value
                           && OccursAt(Lower(nodes[i].title), Lower(term), k)
  {
    HighlightIsFirstMatch(nodes, term);
    var i :| FirstMatchAt(nodes, term, i) && nodes[i].id != "";
    ContainsIffOccurs(Lower(nodes[i].title), Lower(term));
  }

  /** The highlighted id marks the first matching node on the board, and with unique ids no other. */
  lemma HighlightIsRendered(nodes: seq<Node>, term: string, i: int)
    requires FirstMatchAt(nodes, term, i) && Highlight(nodes, term).Some?
    requires UniqueIds(nodes)
    ensures var board := Decorate(MappedNodes(nodes), Highlight(nodes, term), None);
      && |board| == |nodes|
      && board[i].highlighted
      && forall j :: 0 <= j < |board| && j != i ==> !board[j].highlighted
  {
    HighlightIsFirstMatch(nodes, term);
    var flow := MappedNodes(nodes);
    forall j | 0 <= j < |nodes| && j != i
      ensures flow[j].id != nodes[i].id
    {
      UniqueIdsDiffer(nodes, i, j);
    }
  }

  // ---------------------------------------------------------------------
  // Progress

  datatype ProgressView = ProgressView(total: nat, completed: nat, percent: nat)

  predicate IsDone(n: Node) {
    n.isCompleted
  }

  /**
   * The percentage of completed nodes, rounded half up in exact arithmetic:
   * at most 100 when no more nodes are completed than exist, 100 when all are
   * and 0 when none is.
   */
  function RoundedPercent(completed: nat, total: nat): (r: nat)
    requires total > 0
    ensures completed <= total ==> r <= 100
    ensures completed == total ==> r == 100
    ensures completed == 0 ==> r == 0
  {
    HalfUpBounds(completed, total);
    (200 * completed + total) / (2 * total)
  }

  lemma MulMonotone(x: int, y: int, b: nat)
    requires x <= y
    ensures x * b <= y * b
  {
    var k := y - x;
    assert y * b == x * b + k * b;
  }

  /** `q` is the quotient of `a` by `b` when `q * b <= a < (q + 1) * b`. */
  lemma DivisionIs(a: nat, b: nat, q: nat)
    requires b > 0 && q * b <= a < (q + 1) * b
    ensures a / b == q
  {
    var d, m := a / b, a % b;
    assert a == d * b + m && 0 <= m < b;
    if d < q {
      assert (d + 1) * b == d * b + b;
      MulMonotone(d + 1, q, b);
    } else if d > q {
      MulMonotone(q + 1, d, b);
    }
  }

  /** The bounds of the rounded quotient `(200 * completed + total) / (2 * total)`. */
  lemma HalfUpBounds(completed: nat, total: nat)
    requires 0 < total
    ensures completed <= total ==> (200 * completed + total) / (2 * total) <= 100
    ensures completed == total ==> (200 * completed + total) / (2 * total) == 100
    ensures completed == 0 ==> (200 * completed + total) / (2 * total) == 0
  {
    var a, b := 200 * completed + total, 2 * total;
    var d, m := a / b, a % b;
    assert a == d * b + m && 0 <= m < b;
    assert 101 * b == 202 * total;
    if d > 100 && completed <= total {
      MulMonotone(101, d, b);
    }
    if completed == total {
      assert 100 * b == 200 * total && 101 * b == 202 * total;
      DivisionIs(a, b, 100);
    }
    if completed == 0 {
      DivisionIs(a, b, 0);
    }
  }

  /** `progress`: node count, completed count and the rounded percentage. */
  function Progress(nodes: seq<Node>): (p: ProgressView)
    ensures p.total == |nodes| && p.completed <= p.total && p.percent <= 100
    ensures p.completed == |Filter(nodes, IsDone)|
    ensures p.total == 0 ==> p.percent == 0
    ensures p.total > 0 && p.completed == p.total ==> p.percent == 100
    ensures p.completed == 0 ==> p.percent == 0
  {
    var total := |nodes|;
    var completed := |Filter(nodes, IsDone)|;
    if total > 0 then ProgressView(total, completed, RoundedPercent(completed, total))
    else ProgressView(total, completed, 0)
  }

  /** Every node is completed exactly when the completed count is the node count; none exactly when it is 0. */
  lemma ProgressCounts(nodes: seq<Node>)
    ensures Progress(nodes).completed == Progress(nodes).total <==> forall i :: 0 <= i < |nodes| ==> nodes[i].isCompleted
    ensures Progress(nodes).completed == 0 <==> forall i :: 0 <= i < |nodes| ==> !nodes[i].isCompleted
  {
    FilterKeepsAll(nodes, IsDone);
    FilterKeepsNone(nodes, IsDone);
  }

  /** One of four nodes completed reads 25%. */
  lemma ProgressQuarter(nodes: seq<Node>, k: nat)
    requires |nodes| == 4 && k < 4 && nodes[k].isCompleted
    requires forall j :: 0 <= j < 4 && j != k ==> !nodes[j].isCompleted
    ensures Progress(nodes) == ProgressView(4, 1, 25)
  {
    assert Filter(nodes, IsDone) == [nodes[k]] by {
      FilterKeepsOnlyOne(nodes, IsDone, k);
    }
    assert RoundedPercent(1, 4) == 25 by {
      DivisionIs(204, 8, 25);
    }
  }

  // ---------------------------------------------------------------------
  // The save request

  /** The client's `sanitizeNode`: the five text fields sanitized, everything else kept. */
  function ClientSanitizeNode(sanitize: string -> string, n: Node): (r: Node)
    ensures forall f :: FieldOf(r, f) == sanitize(FieldOf(n, f))
    ensures r.(title := n.title, summary := n.summary, code := n.code, output := n.output, notes := n.notes) == n
  {
    n.(title := sanitize(n.title), summary := sanitize(n.summary), code := sanitize(n.code),
       output := sanitize(n.output), notes := sanitize(n.notes))
  }

  /** The body the client sends: the working copy with every node sanitized. */
  function SavePayload(sanitize: string -> string, r: Roadmap): (p: Roadmap)
    ensures p.key == r.key && p.title == r.title && p.connections == r.connections
    ensures |p.nodes| == |r.nodes|
    ensures forall i :: 0 <= i < |p.nodes| ==> p.nodes[i] == ClientSanitizeNode(sanitize, r.nodes[i])
  {
    r.(nodes := Map(r.nodes, (n: Node) => ClientSanitizeNode(sanitize, n)))
  }

  /** The client's JSON body as the server reads it. */
  function AsRequest(r: Roadmap): Payload {
    Payload(Some(r.title), Some(Map(r.nodes, AsInput)), Some(r.connections))
  }

  /**
   * A save from the client with a non-blank title is accepted. The browser's
   * sanitizer `client` runs first and the server's `server` second: the stored
   * title is the server's sanitizing of the title, the connections are stored
   * as sent, and the nodes are the server's cleaning of the client's nodes.
   */
  lemma ClientSaveAccepted(client: string -> string, server: string -> string, r: Roadmap)
    requires Trim(r.title) != ""
    ensures var request := AsRequest(SavePayload(client, r));
      var stored := SaveResult(server, Some(request));
      && stored.Ok?
      && stored.body.title == server(r.title)
      && stored.body.connections == r.connections
      && stored.body.nodes == CleanNodes(server, request.nodes.value)
  {
    var request := AsRequest(SavePayload(client, r));
    assert request.title == Some(r.title) && !TitleMissing(Some(request));
  }

  /**
   * What a save from the client stores: every stored node has a non-blank
   * title and is `server(client(x))` field by field of a node of the working copy.
   */
  lemma ClientSaveStores(client: string -> string, server: string -> string, r: Roadmap)
    requires Trim(r.title) != ""
    ensures forall n :: n in SaveResult(server, Some(AsRequest(SavePayload(client, r)))).body.nodes ==>
      && HasTitle(n)
      && exists i :: 0 <= i < |r.nodes| && n == ClientSanitizeNode(server, ClientSanitizeNode(client, r.nodes[i]))
  {
    var sent := AsRequest(SavePayload(client, r)).nodes.value;
    ClientSaveAccepted(client, server, r);
    SentNodesSanitizedTwice(client, server, r);
    var stored := CleanNodes(server, sent);
    forall n | n in stored
      ensures HasTitle(n) && exists i :: 0 <= i < |r.nodes| && n == ClientSanitizeNode(server, ClientSanitizeNode(client, r.nodes[i]))
    {
      CleanedFromSent(client, server, r.nodes, sent, n);
    }
  }

  /** A node the server keeps from nodes the client sanitized is twice sanitized. */
  lemma CleanedFromSent(client: string -> string, server: string -> string, nodes: seq<Node>, sent: seq<NodeInput>, n: Node)
    requires |sent| == |nodes|
    requires forall j :: 0 <= j < |sent| ==>
      SanitizeNode(server, sent[j]) == ClientSanitizeNode(server, ClientSanitizeNode(client, nodes[j]))
    requires n in CleanNodes(server, sent)
    ensures HasTitle(n) && exists i :: 0 <= i < |nodes| && n == ClientSanitizeNode(server, ClientSanitizeNode(client, nodes[i]))
  {
    var stored := CleanNodes(server, sent);
    var k :| 0 <= k < |stored| && stored[k] == n;
    var j :| 0 <= j < |sent| && stored[k] == SanitizeNode(server, sent[j]);
    assert n == ClientSanitizeNode(server, ClientSanitizeNode(client, nodes[j]));
  }

  /** Every node whose twice-sanitized title is not blank is stored by a client save. */
  lemma ClientSaveKeepsTitled(client: string -> string, server: string -> string, r: Roadmap, i: int)
    requires Trim(r.title) != ""
    requires 0 <= i < |r.nodes| && HasTitle(ClientSanitizeNode(server, ClientSanitizeNode(client, r.nodes[i])))
    ensures ClientSanitizeNode(server, ClientSanitizeNode(client, r.nodes[i]))
            in SaveResult(server, Some(AsRequest(SavePayload(client, r)))).body.nodes
  {
    var sent := AsRequest(SavePayload(client, r)).nodes.value;
    ClientSaveAccepted(client, server, r);
    SentNodesSanitizedTwice(client, server, r);
    assert SanitizeNode(server, sent[i]) == ClientSanitizeNode(server, ClientSanitizeNode(client, r.nodes[i]));
  }

  /** The server sanitizes each node the client sent, which the client had sanitized already. */
  lemma SentNodesSanitizedTwice(client: string -> string, server: string -> string, r: Roadmap)
    ensures var sent := AsRequest(SavePayload(client, r)).nodes.value;
      && |sent| == |r.nodes|
      && forall j :: 0 <= j < |sent| ==>
           SanitizeNode(server, sent[j]) == ClientSanitizeNode(server, ClientSanitizeNode(client, r.nodes[j]))
  {
    var sent := AsRequest(SavePayload(client, r)).nodes.value;
    forall j | 0 <= j < |sent|
      ensures SanitizeNode(server, sent[j]) == ClientSanitizeNode(server, ClientSanitizeNode(client, r.nodes[j]))
    {
      SanitizeCompleteNode(server, ClientSanitizeNode(client, r.nodes[j]));
    }
  }

  // ---------------------------------------------------------------------
  // The session

  /** The context-menu entries of a node. */
  datatype ContextAction = AddChild | Rename | MarkComplete | Delete

  class Session {
    var roadmap: Roadmap
    var activeNode: Option<Node>
    var selectedNodeId: Option<string>
    var searchTerm: string
    var savedState: SaveStatus
    /** The local default document, built once when the client starts. */
    const localDefault: Roadmap
    const sanitize: string -> string

    constructor (groupId: string, topicId: string, sanitize: string -> string)
      ensures roadmap == LocalDefault(groupId, topicId) && localDefault == roadmap
      ensures activeNode == None && selectedNodeId == None && searchTerm == ""
      ensures savedState == Unsaved && this.sanitize == sanitize
    {
      roadmap := LocalDefault(groupId, topicId);
      localDefault := LocalDefault(groupId, topicId);
      activeNode := None;
      selectedNodeId := None;
      searchTerm := "";
      savedState := Unsaved;
      this.sanitize := sanitize;
    }

    /** `loadRoadmap`: the fetched document, or the local default when the request failed. The status is untouched. */
    method Load(fetched: Option<Roadmap>)
      modifies this`roadmap
      ensures roadmap == fetched.GetOr(localDefault)
    {
      if fetched.Some? {
        roadmap := fetched.value;
      } else {
        roadmap := localDefault;
      }
    }

    /** The status changes that open a save; the returned body is what is sent. */
    method BeginSave() returns (body: Roadmap)
      modifies this`savedState
      ensures savedState == NextStatus(old(savedState), SaveStarted) && savedState == Saving
      ensures body == SavePayload(sanitize, roadmap)
    {
      savedState := Saving;
      body := SavePayload(sanitize, roadmap);
    }

    /** The status change when the save request resolves; on rejection nothing runs. */
    method FinishSave()
      modifies this`savedState
      ensures savedState == NextStatus(old(savedState), SaveResolved) && savedState == Saved
    {
      savedState := Saved;
    }

    method SetSearchTerm(term: string)
      modifies this`searchTerm
      ensures searchTerm == term
    {
      searchTerm := term;
    }

    /** A click on a node selects it and opens it in the editor. */
    method ClickNode(node: Node)
      modifies this`selectedNodeId, this`activeNode
      ensures selectedNodeId == Some(node.id) && activeNode == Some(node)
    {
      selectedNodeId := Some(node.id);
      activeNode := Some(node);
    }

    /** The canvas reported its nodes (after a drag, say). */
    method ReplaceNodes(nodes: seq<Node>)
      modifies this`roadmap
      ensures roadmap == old(roadmap).(nodes := nodes)
    {
      roadmap := roadmap.(nodes := nodes);
    }

    /** The canvas reported its edges. */
    method ReplaceConnections(connections: seq<Connection>)
      modifies this`roadmap
      ensures roadmap == old(roadmap).(connections := connections)
    {
      roadmap := roadmap.(connections := connections);
    }

    /**
     * `addNode(type, parentId)`: `newId` is the value of `crypto.randomUUID()`,
     * `rx` and `ry` those of `Math.random()`. The new node is selected.
     */
    method AddNode(nodeType: string, parentId: Option<string>, newId: string, rx: real, ry: real)
      requires 0.0 <= rx < 1.0 && 0.0 <= ry < 1.0
      modifies this`roadmap, this`selectedNodeId
      ensures roadmap == WithNode(old(roadmap), CreateNode(newId, Some(nodeType), RandomPosition(rx, ry), parentId, None), parentId)
      ensures selectedNodeId == Some(newId)
      ensures UniqueIds(old(roadmap).nodes) && FreshId(old(roadmap).nodes, newId) ==> UniqueIds(roadmap.nodes)
    {
      var node := CreateNode(newId, Some(nodeType), RandomPosition(rx, ry), parentId, None);
      if UniqueIds(roadmap.nodes) && FreshId(roadmap.nodes, newId) {
        AddKeepsUnique(roadmap, node, parentId);
      }
      roadmap := WithNode(roadmap, node, parentId);
      selectedNodeId := Some(node.id);
    }

    /** `updateNode(updated)`: rejected when the title trims to `''`; otherwise a wholesale replacement by id. */
    method UpdateNode(updated: Node)
      modifies this`roadmap, this`activeNode, this`savedState
      ensures Trim(updated.title) == "" ==>
        roadmap == old(roadmap) && activeNode == old(activeNode) && savedState == old(savedState)
      ensures Trim(updated.title) != "" ==>
        && roadmap == old(roadmap).(nodes := ReplaceNode(old(roadmap).nodes, updated))
        && activeNode == Some(updated)
        && savedState == Unsaved
    {
      if Trim(updated.title) == "" {
        return;
      }
      roadmap := roadmap.(nodes := ReplaceNode(roadmap.nodes, updated));
      activeNode := Some(updated);
      savedState := Unsaved;
    }

    /** An edit in the node editor: one text field of the open node changed. */
    method EditField(node: Node, field: TextField, value: string)
      modifies this`roadmap, this`activeNode, this`savedState
      ensures var updated := SetField(node, field, value);
        && (Trim(updated.title) == "" ==> roadmap == old(roadmap) && activeNode == old(activeNode) && savedState == old(savedState))
        && (Trim(updated.title) != "" ==>
              (roadmap == old(roadmap).(nodes := ReplaceNode(old(roadmap).nodes, updated))
               && activeNode == Some(updated) && savedState == Unsaved))
    {
      UpdateNode(SetField(node, field, value));
    }

    /** Deleting the node with id `nodeId`; nothing happens for a missing or empty id. */
    method DeleteNode(nodeId: Option<string>)
      modifies this`roadmap, this`activeNode
      ensures !Truthy(nodeId) ==> roadmap == old(roadmap) && activeNode == old(activeNode)
      ensures Truthy(nodeId) ==> roadmap == WithoutNode(old(roadmap), nodeId.value) && activeNode == None
    {
      if !Truthy(nodeId) {
        return;
      }
      roadmap := WithoutNode(roadmap, nodeId.value);
      activeNode := None;
    }

    /** `deleteSelected`: the sidebar's delete button. */
    method DeleteSelected()
      modifies this`roadmap, this`activeNode
      ensures !Truthy(selectedNodeId) ==> roadmap == old(roadmap) && activeNode == old(activeNode)
      ensures Truthy(selectedNodeId) ==> roadmap == WithoutNode(old(roadmap), selectedNodeId.value) && activeNode == None
    {
      DeleteNode(selectedNodeId);
    }

    /**
     * `handleContextAction(action, node)` as written: the clicked node is
     * selected first, but `'delete'` runs `deleteSelected` with the selection
     * from before the click.
     */
    method HandleContextAction(action: ContextAction, node: Node, newId: string, rx: real, ry: real)
      requires 0.0 <= rx < 1.0 && 0.0 <= ry < 1.0
      modifies this`roadmap, this`activeNode, this`selectedNodeId, this`savedState
      ensures action == AddChild ==>
        && roadmap == WithNode(old(roadmap), CreateNode(newId, Some("content"), RandomPosition(rx, ry), Some(node.id), None), Some(node.id))
        && selectedNodeId == Some(newId)
        && activeNode == old(activeNode) && savedState == old(savedState)
      ensures action == Rename ==>
        && selectedNodeId == Some(node.id) && activeNode == Some(node)
        && roadmap == old(roadmap) && savedState == old(savedState)
      ensures action == MarkComplete ==>
        && selectedNodeId == Some(node.id)
        && (Trim(node.title) == "" ==> roadmap == old(roadmap) && activeNode == old(activeNode) && savedState == old(savedState))
        && (Trim(node.title) != "" ==>
              (roadmap == old(roadmap).(nodes := ReplaceNode(old(roadmap).nodes, Toggled(node)))
               && activeNode == Some(Toggled(node)) && savedState == Unsaved))
      ensures action == Delete ==>
        && selectedNodeId == Some(node.id) && savedState == old(savedState)
        && (!Truthy(old(selectedNodeId)) ==> roadmap == old(roadmap) && activeNode == old(activeNode))
        && (Truthy(old(selectedNodeId)) ==> roadmap == WithoutNode(old(roadmap), old(selectedNodeId).value) && activeNode == None)
    {
      var previous := selectedNodeId;
      selectedNodeId := Some(node.id);
      match action
      case AddChild => AddNode("content", Some(node.id), newId, rx, ry);
      case Rename => activeNode := Some(node);
      case MarkComplete => UpdateNode(Toggled(node));
      case Delete => DeleteNode(previous);
    }

    /** The context menu as evidently intended: `'delete'` removes the clicked node. */
    method HandleContextActionIntended(action: ContextAction, node: Node, newId: string, rx: real, ry: real)
      requires 0.0 <= rx < 1.0 && 0.0 <= ry < 1.0
      modifies this`roadmap, this`activeNode, this`selectedNodeId, this`savedState
      ensures action == AddChild ==>
        && roadmap == WithNode(old(roadmap), CreateNode(newId, Some("content"), RandomPosition(rx, ry), Some(node.id), None), Some(node.id))
        && selectedNodeId == Some(newId)
        && activeNode == old(activeNode) && savedState == old(savedState)
      ensures action == Rename ==>
        && selectedNodeId == Some(node.id) && activeNode == Some(node)
        && roadmap == old(roadmap) && savedState == old(savedState)
      ensures action == MarkComplete ==>
        && selectedNodeId == Some(node.id)
        && (Trim(node.title) == "" ==> roadmap == old(roadmap) && activeNode == old(activeNode) && savedState == old(savedState))
        && (Trim(node.title) != "" ==>
              (roadmap == old(roadmap).(nodes := ReplaceNode(old(roadmap).nodes, Toggled(node)))
               && activeNode == Some(Toggled(node)) && savedState == Unsaved))
      ensures action == Delete ==>
        && selectedNodeId == Some(node.id) && savedState == old(savedState)
        && (node.id == "" ==> roadmap == old(roadmap) && activeNode == old(activeNode))
        && (node.id != "" ==> roadmap == WithoutNode(old(roadmap), node.id) && activeNode == None && FreshId(roadmap.nodes, node.id))
    {
      selectedNodeId := Some(node.id);
      match action
      case AddChild => AddNode("content", Some(node.id), newId, rx, ry);
      case Rename => activeNode := Some(node);
      case MarkComplete => UpdateNode(Toggled(node));
      case Delete => DeleteNode(Some(node.id));
    }

    /**
     * The id the search term highlights: nothing for a blank term, otherwise
     * the id of the first node whose title matches it.
     */
    function HighlightedNodeId(): (r: Option<string>)
      reads this
      ensures Trim(searchTerm) == "" ==> r == None
      ensures r.Some? ==> exists i :: FirstMatchAt(roadmap.nodes, searchTerm, i) && roadmap.nodes[i].id == r.value
    {
      HighlightIsFirstMatch(roadmap.nodes, searchTerm);
      Highlight(roadmap.nodes, searchTerm)
    }

    /** The progress counter in the sidebar: every node counted, the completed ones, and a percentage up to 100. */
    function CurrentProgress(): (p: ProgressView)
      reads this
      ensures p.total == |roadmap.nodes| && p.percent <= 100
      ensures p.completed == p.total <==> forall i :: 0 <= i < |roadmap.nodes| ==> roadmap.nodes[i].isCompleted
    {
      ProgressCounts(roadmap.nodes);
      Progress(roadmap.nodes)
    }

    /**
     * The nodes as the board renders them: one per node, in order; none is
     * focused (no focus id is passed), and a node is highlighted exactly when
     * its id is the highlighted id.
     */
    function Board(): (r: seq<RenderedNode>)
      reads this
      ensures |r| == |roadmap.nodes|
      ensures forall i :: 0 <= i < |r| ==> r[i].flow.data == roadmap.nodes[i] && !r[i].isFocused
      ensures forall i :: 0 <= i < |r| ==> (r[i].highlighted <==> HighlightedNodeId() == Some(roadmap.nodes[i].id))
    {
      Decorate(MappedNodes(roadmap.nodes), HighlightedNodeId(), None)
    }
  }

  /**
   * With node B selected, choosing Delete in the context menu of node A
   * removes B and keeps A.
   */
  method ContextDeleteRemovesPreviousSelection(sanitize: string -> string) returns (clickedKept: bool, selectedGone: bool)
    ensures clickedKept && selectedGone
  {
    var session := new Session("a", "b", sanitize);
    var clicked := session.roadmap.nodes[0];
    var selected := session.roadmap.nodes[1];
    session.ClickNode(selected);
    session.HandleContextAction(Delete, clicked, "c", 0.0, 0.0);
    clickedKept := clicked in session.roadmap.nodes;
    selectedGone := selected !in session.roadmap.nodes;
  }

  /** The intended handler removes the clicked node and keeps the one that was selected. */
  method IntendedContextDeleteRemovesClicked(sanitize: string -> string) returns (clickedGone: bool, selectedKept: bool)
    ensures clickedGone && selectedKept
  {
    var session := new Session("a", "b", sanitize);
    var clicked := session.roadmap.nodes[0];
    var selected := session.roadmap.nodes[1];
    session.ClickNode(selected);
    session.HandleContextActionIntended(Delete, clicked, "c", 0.0, 0.0);
    clickedGone := clicked !in session.roadmap.nodes;
    selectedKept := selected in session.roadmap.nodes;
  }
}
