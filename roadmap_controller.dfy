/**
 * The server's request handlers over the single stored roadmap document:
 * load-or-create, validated and sanitized wholesale save, reset, and the
 * image list of one node. The store is a class holding the optional
 * document under the key `'default'`; the HTML sanitizer is a foreign
 * function, held as a parameter the model does not look inside.
 */
module RoadmapController {
  import opened Wrappers
  import opened Seqs
  import opened Strings
  import opened RoadmapSchema
  import opened Upload

  /** The document the server creates and resets to. */
  const DefaultRoadmap: Roadmap := Roadmap(Some(DefaultKey), DefaultTitle, [], [])

  /**
   * A node as it arrives in a request body. The five text fields the handler
   * sanitizes may be absent (`None`); the other fields are passed on as they are.
   */
  datatype NodeInput = NodeInput(
    id: string,
    title: Option<string>,
    nodeType: string,
    parentId: Option<string>,
    position: Position,
    summary: Option<string>,
    code: Option<string>,
    output: Option<string>,
    notes: Option<string>,
    images: seq<string>,
    isCompleted: bool,
    difficulty: string,
    priorityTag: string,
    metadata: map<string, string>)

  /** A complete node as its JSON arrives at the server: every field present. */
  function AsInput(n: Node): NodeInput {
    NodeInput(n.id, Some(n.title), n.nodeType, n.parentId, n.position, Some(n.summary), Some(n.code),
              Some(n.output), Some(n.notes), n.images, n.isCompleted, n.difficulty, n.priorityTag, n.metadata)
  }

  /** The body of a save request; the body itself may be missing. */
  datatype Payload = Payload(title: Option<string>, nodes: Option<seq<NodeInput>>, connections: Option<seq<Connection>>)

  /** A reply: the JSON body with status 200, or an error status with its message. */
  datatype Response<T> = Ok(body: T) | Fail(status: nat, message: string)

  /** The stored document after a handler ran, and its reply. */
  datatype Handled<T> = Handled(doc: Option<Roadmap>, response: Response<T>)

  /** `value || ''` for an optional string. */
  function OrEmpty(value: Option<string>): (r: string)
    ensures value.Some? ==> r == value.value
    ensures value.None? ==> r == ""
  {
    value.GetOr("")
  }

  /** `sanitizeNode(node)`: the five text fields sanitized, an absent one as `''`; every other field kept. */
  function SanitizeNode(sanitize: string -> string, n: NodeInput): (r: Node)
    ensures r.title == sanitize(OrEmpty(n.title)) && r.summary == sanitize(OrEmpty(n.summary))
    ensures r.code == sanitize(OrEmpty(n.code)) && r.output == sanitize(OrEmpty(n.output))
    ensures r.notes == sanitize(OrEmpty(n.notes))
    ensures r.id == n.id && r.nodeType == n.nodeType && r.parentId == n.parentId && r.position == n.position
    ensures r.images == n.images && r.isCompleted == n.isCompleted && r.difficulty == n.difficulty
    ensures r.priorityTag == n.priorityTag && r.metadata == n.metadata
  {
    Node(n.id, sanitize(OrEmpty(n.title)), n.nodeType, n.parentId, n.position,
         sanitize(OrEmpty(n.summary)), sanitize(OrEmpty(n.code)), sanitize(OrEmpty(n.output)),
         sanitize(OrEmpty(n.notes)), n.images, n.isCompleted, n.difficulty, n.priorityTag, n.metadata)
  }

  /** A complete node is sanitized field by field and otherwise left as it is. */
  lemma SanitizeCompleteNode(sanitize: string -> string, n: Node)
    ensures SanitizeNode(sanitize, AsInput(n))
         == n.(title := sanitize(n.title), summary := sanitize(n.summary), code := sanitize(n.code),
               output := sanitize(n.output), notes := sanitize(n.notes))
  {
  }

  /** The guard of the save handler: no body, no title, or a title that is all whitespace. */
  predicate TitleMissing(payload: Option<Payload>)
    ensures TitleMissing(payload) <==> payload.None? || payload.value.title.None? || IsBlank(payload.value.title.value)
  {
    || payload.None?
    || payload.value.title.None?
    || (TrimEmptyIffBlank(payload.value.title.value); Trim(payload.value.title.value) == "")
  }

  /** The filter the save handler applies after sanitizing: the title does not trim to `''`. */
  predicate HasTitle(n: Node) {
    Trim(n.title) != ""
  }

  /** The node list the save handler stores. */
  function CleanNodes(sanitize: string -> string, nodes: seq<NodeInput>): (r: seq<Node>)
    ensures |r| <= |nodes|
    ensures forall i :: 0 <= i < |r| ==> HasTitle(r[i])
    ensures forall i :: 0 <= i < |r| ==> exists j :: 0 <= j < |nodes| && r[i] == SanitizeNode(sanitize, nodes[j])
    ensures forall j :: 0 <= j < |nodes| && HasTitle(SanitizeNode(sanitize, nodes[j])) ==> SanitizeNode(sanitize, nodes[j]) in r
  {
    var sanitized := Map(nodes, (n: NodeInput) => SanitizeNode(sanitize, n));
    Filter(sanitized, HasTitle)
  }

  /** The stored nodes keep the order of the request: cleaning distributes over concatenation. */
  lemma CleanNodesConcat(sanitize: string -> string, a: seq<NodeInput>, b: seq<NodeInput>)
    ensures CleanNodes(sanitize, a + b) == CleanNodes(sanitize, a) + CleanNodes(sanitize, b)
  {
    var f := (n: NodeInput) => SanitizeNode(sanitize, n);
    MapConcat(a, b, f);
    FilterConcat(Map(a, f), Map(b, f), HasTitle);
  }

  /** A single node is stored, sanitized, exactly when its sanitized title is not blank. */
  lemma CleanSingleNode(sanitize: string -> string, n: NodeInput)
    ensures CleanNodes(sanitize, [n]) == if HasTitle(SanitizeNode(sanitize, n)) then [SanitizeNode(sanitize, n)] else []
  {
  }

  /** Of a blank-titled node followed by a titled one, only the titled one is stored. */
  lemma CleanDropsBlankKeepsTitled(sanitize: string -> string, blank: NodeInput, titled: NodeInput)
    requires Trim(sanitize(OrEmpty(blank.title))) == ""
    requires HasTitle(SanitizeNode(sanitize, titled))
    ensures CleanNodes(sanitize, [blank, titled]) == [SanitizeNode(sanitize, titled)]
  {
    CleanPair(sanitize, blank, titled);
    CleanSingleNode(sanitize, blank);
    CleanSingleNode(sanitize, titled);
  }

  /** Cleaning two nodes cleans each on its own, in order. */
  lemma CleanPair(sanitize: string -> string, a: NodeInput, b: NodeInput)
    ensures CleanNodes(sanitize, [a, b]) == CleanNodes(sanitize, [a]) + CleanNodes(sanitize, [b])
  {
    assert [a, b] == [a] + [b];
    CleanNodesConcat(sanitize, [a], [b]);
  }

  /** Every stored node passes the schema's title rule, also after the schema trims it. */
  lemma CleanNodesPassTitleRule(sanitize: string -> string, nodes: seq<NodeInput>)
    ensures forall n :: n in CleanNodes(sanitize, nodes) ==> RequiredString(CastNode(n).title)
  {
  }

  /** The reply of the save handler; on success its body is the document it stores. */
  function SaveResult(sanitize: string -> string, payload: Option<Payload>): (r: Response<Roadmap>)
    ensures r.Fail? <==> TitleMissing(payload)
    ensures r.Fail? ==> r == Fail(400, "Title is required")
    ensures r.Ok? ==> r.body.key == Some(DefaultKey)
    ensures r.Ok? ==> r.body.title == sanitize(payload.value.title.value)
    ensures r.Ok? ==> r.body.nodes == CleanNodes(sanitize, payload.value.nodes.GetOr([]))
    ensures r.Ok? ==> r.body.connections == payload.value.connections.GetOr([])
  {
    if TitleMissing(payload) then Fail(400, "Title is required")
    else
      var p := payload.value;
      Ok(Roadmap(Some(DefaultKey), sanitize(p.title.value), CleanNodes(sanitize, p.nodes.GetOr([])),
                 p.connections.GetOr([])))
  }

  /**
   * Connections are stored as sent, even those whose endpoint was dropped
   * with a blank-titled node: the store does no referential cleanup.
   */
  lemma SaveKeepsDanglingConnections(sanitize: string -> string, title: string, blank: NodeInput, kept: Connection)
    requires Trim(title) != ""
    requires Trim(sanitize(OrEmpty(blank.title))) == ""
    requires kept.targetId == blank.id
    ensures var r := SaveResult(sanitize, Some(Payload(Some(title), Some([blank]), Some([kept]))));
      r.Ok? && r.body.nodes == [] && r.body.connections == [kept]
  {
    CleanSingleNode(sanitize, blank);
  }

  /** The index of the first node with the given id, the node the image handlers look up. */
  function FindNode(nodes: seq<Node>, nodeId: string): (r: Option<nat>)
    ensures r.Some? ==> r.value < |nodes| && nodes[r.value].id == nodeId
    ensures r.Some? ==> forall j :: 0 <= j < r.value ==> nodes[j].id != nodeId
    ensures r.None? <==> forall j :: 0 <= j < |nodes| ==> nodes[j].id != nodeId
  {
    FirstIndex(nodes, (n: Node) => n.id == nodeId)
  }

  /** The image list with every entry equal to `imageName` filtered out. */
  function WithoutImage(images: seq<string>, imageName: string): (r: seq<string>)
    ensures imageName !in r
    ensures forall i :: 0 <= i < |images| && images[i] != imageName ==> images[i] in r
    ensures forall i :: 0 <= i < |r| ==> r[i] in images
  {
    Filter(images, (img: string) => img != imageName)
  }

  /** Removing an image keeps the others in order and with their multiplicity. */
  lemma WithoutImageKeepsOthers(a: seq<string>, b: seq<string>, imageName: string, other: string)
    requires other != imageName
    ensures WithoutImage(a + b, imageName) == WithoutImage(a, imageName) + WithoutImage(b, imageName)
    ensures multiset(WithoutImage(a, imageName))[other] == multiset(a)[other]
  {
    FilterConcat(a, b, (img: string) => img != imageName);
    FilterMultiplicity(a, (img: string) => img != imageName, other);
  }

  /** The error checks shared by both image handlers, in the order they are made. */
  function ImageTarget(doc: Option<Roadmap>, nodeId: string): (r: Response<nat>)
    ensures doc.None? ==> r == Fail(404, "Roadmap not found")
    ensures doc.Some? && FindNode(doc.value.nodes, nodeId).None? ==> r == Fail(404, "Node not found")
    ensures doc.Some? && FindNode(doc.value.nodes, nodeId).Some? ==> r == Ok(FindNode(doc.value.nodes, nodeId).value)
  {
    if doc.None? then Fail(404, "Roadmap not found")
    else match FindNode(doc.value.nodes, nodeId)
      case None => Fail(404, "Node not found")
      case Some(i) => Ok(i)
  }

  /**
   * The upload handler on the stored document. `file` is the name the upload
   * middleware stored the image under, or None when the request had no image.
   */
  function AttachImage(doc: Option<Roadmap>, nodeId: string, file: Option<string>): (r: Handled<Node>)
    ensures r.response.Fail? ==> r.doc == doc
    ensures ImageTarget(doc, nodeId).Fail? ==> r.response == Fail(ImageTarget(doc, nodeId).status, ImageTarget(doc, nodeId).message)
    ensures ImageTarget(doc, nodeId).Ok? && file.None? ==> r.response == Fail(400, "Image is required")
    ensures ImageTarget(doc, nodeId).Ok? && file.Some? ==>
      var before := doc.value.nodes;
      var i := ImageTarget(doc, nodeId).body;
      && r.doc.Some?
      && r.doc.value.key == doc.value.key && r.doc.value.title == doc.value.title
      && r.doc.value.connections == doc.value.connections
      && |r.doc.value.nodes| == |before|
      && r.doc.value.nodes[i] == before[i].(images := before[i].images + [file.value])
      && (forall j :: 0 <= j < |before| && j != i ==> r.doc.value.nodes[j] == before[j])
      && r.response == Ok(r.doc.value.nodes[i])
  {
    match ImageTarget(doc, nodeId)
    case Fail(status, message) => Handled(doc, Fail(status, message))
    case Ok(i) =>
      if file.None? then Handled(doc, Fail(400, "Image is required"))
      else
        var node := doc.value.nodes[i];
        var updated := node.(images := node.images + [file.value]);
        Handled(Some(doc.value.(nodes := doc.value.nodes[i := updated])), Ok(updated))
  }

  /** The delete-image handler on the stored document. */
  function DetachImage(doc: Option<Roadmap>, nodeId: string, imageName: string): (r: Handled<Node>)
    ensures r.response.Fail? ==> r.doc == doc
    ensures ImageTarget(doc, nodeId).Fail? ==> r.response == Fail(ImageTarget(doc, nodeId).status, ImageTarget(doc, nodeId).message)
    ensures ImageTarget(doc, nodeId).Ok? ==>
      var before := doc.value.nodes;
      var i := ImageTarget(doc, nodeId).body;
      && r.doc.Some?
      && r.doc.value.key == doc.value.key && r.doc.value.title == doc.value.title
      && r.doc.value.connections == doc.value.connections
      && |r.doc.value.nodes| == |before|
      && r.doc.value.nodes[i] == before[i].(images := WithoutImage(before[i].images, imageName))
      && (forall j :: 0 <= j < |before| && j != i ==> r.doc.value.nodes[j] == before[j])
      && r.response == Ok(r.doc.value.nodes[i])
  {
    match ImageTarget(doc, nodeId)
    case Fail(status, message) => Handled(doc, Fail(status, message))
    case Ok(i) =>
      var node := doc.value.nodes[i];
      var updated := node.(images := WithoutImage(node.images, imageName));
      Handled(Some(doc.value.(nodes := doc.value.nodes[i := updated])), Ok(updated))
  }

  /** Uploading an image and then deleting it by name leaves the node's other images as before. */
  lemma AttachThenDetach(doc: Option<Roadmap>, nodeId: string, file: string)
    requires ImageTarget(doc, nodeId).Ok?
    requires file !in doc.value.nodes[ImageTarget(doc, nodeId).body].images
    ensures var after := DetachImage(AttachImage(doc, nodeId, Some(file)).doc, nodeId, file).doc;
      after == doc
  {
    var i := ImageTarget(doc, nodeId).body;
    var images := doc.value.nodes[i].images;
    var mid := AttachImage(doc, nodeId, Some(file)).doc;
    assert FindNode(mid.value.nodes, nodeId) == Some(i);
    var keep := (img: string) => img != file;
    FilterConcat(images, [file], keep);
    FilterKeepsAll(images, keep);
    assert WithoutImage(images + [file], file) == images;
    assert mid.value.nodes[i := doc.value.nodes[i]] == doc.value.nodes;
  }

  /** The single-document store. */
  class Store {
    var doc: Option<Roadmap>
    const sanitize: string -> string

    constructor (sanitize: string -> string, doc: Option<Roadmap>)
      ensures this.sanitize == sanitize && this.doc == doc
    {
      this.sanitize := sanitize;
      this.doc := doc;
    }

    /** `GET`: the stored document, created with the default contents on first use. */
    method GetRoadmap() returns (r: Roadmap)
      modifies this
      ensures doc == Some(r)
      ensures old(doc).Some? ==> r == old(doc).value
      ensures old(doc).None? ==> r == DefaultRoadmap
    {
      if doc.None? {
        doc := Some(DefaultRoadmap);
      }
      r := doc.value;
    }

    /** `PUT`: validate, sanitize and replace the whole document; a rejected save stores nothing. */
    method SaveRoadmap(payload: Option<Payload>) returns (res: Response<Roadmap>)
      modifies this
      ensures res == SaveResult(sanitize, payload)
      ensures res.Ok? ==> doc == Some(res.body)
      ensures res.Fail? ==> doc == old(doc)
    {
      res := SaveResult(sanitize, payload);
      if res.Ok? {
        doc := Some(res.body);
      }
    }

    /** `POST .../reset`: the store holds exactly the default document, whatever it held before. */
    method ResetRoadmap() returns (r: Roadmap)
      modifies this
      ensures r == DefaultRoadmap && doc == Some(DefaultRoadmap)
    {
      doc := Some(DefaultRoadmap);
      r := DefaultRoadmap;
    }

    /**
     * `POST .../nodes/:nodeId/images`: `image` is the original name of the
     * uploaded file (None when the request carried none) and `now` the clock
     * reading the upload middleware named it by.
     */
    method UploadNodeImage(nodeId: string, image: Option<string>, now: nat) returns (res: Response<Node>)
      modifies this
      ensures Handled(doc, res) == AttachImage(old(doc), nodeId, if image.Some? then Some(StoredFileName(now, image.value)) else None)
    {
      var file := if image.Some? then Some(StoredFileName(now, image.value)) else None;
      var handled := AttachImage(doc, nodeId, file);
      doc := handled.doc;
      res := handled.response;
    }

    /** `DELETE .../nodes/:nodeId/images/:imageName`; the file on disk is not modelled. */
    method DeleteNodeImage(nodeId: string, imageName: string) returns (res: Response<Node>)
      modifies this
      ensures Handled(doc, res) == DetachImage(old(doc), nodeId, imageName)
    {
      var handled := DetachImage(doc, nodeId, imageName);
      doc := handled.doc;
      res := handled.response;
    }
  }

  /** Loading twice creates the document at most once and returns the same document both times. */
  method LoadTwice(store: Store) returns (first: Roadmap, second: Roadmap)
    modifies store
    ensures first == second && store.doc == Some(first)
    ensures old(store.doc).Some? ==> first == old(store.doc).value
  {
    first := store.GetRoadmap();
    second := store.GetRoadmap();
  }

  /** Loading right after a reset gives the default title and no nodes or connections. */
  method LoadAfterReset(store: Store) returns (r: Roadmap)
    modifies store
    ensures r.title == DefaultTitle && r.nodes == [] && r.connections == [] && r.key == Some(DefaultKey)
  {
    var _ := store.ResetRoadmap();
    r := store.GetRoadmap();
  }
}
