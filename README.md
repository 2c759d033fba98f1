# Roadmap editor: a Dafny model

This project models the core of a single-document roadmap editor. A roadmap is a
graph of study-topic nodes and the connections between them. The browser edits a
working copy on a canvas. A small REST server keeps one document under the key
`'default'`, together with the image names attached to its nodes.

The model covers six source files, one Dafny module each:

- `RoadmapSchema` (`server/models/Roadmap.js`): the Node, Connection and Roadmap
  records; the enumerations for node type, difficulty and priority tag with
  their names; the schema defaults; and the schema's rules as predicates
  (`NodeConforms`, `RoadmapConforms`, the title trim in `CastNode`).
- `NodeUtils` (`src/utils/nodeUtils.js`): the node types, the node factory
  `CreateNode`, and the conversions `ToFlowNode` and `ToFlowEdge` to the canvas
  library's records.
- `CanvasBoard` (`src/components/CanvasBoard.jsx`): the mappings back from the
  canvas (`SyncNodes`, `SyncEdges`) with their round trips, and the render-time
  decoration that marks the highlighted and the focused node.
- `Upload` (`server/middleware/upload.js`): the stored file name, that is the
  clock reading, a `'-'`, then the original name with each whitespace run
  replaced by one `'-'`.
- `RoadmapController` (`server/controllers/roadmapController.js`): node
  sanitizing, the validated wholesale save, and lazy creation, reset, image
  upload and image delete. Each handler is a pure function of the stored
  document (`SaveResult`, `AttachImage`, `DetachImage`) and a method of the
  `Store` class, which holds an `Option<Roadmap>`. Each method's postcondition
  ties it to its function.
- `App` (`src/pages/App.jsx`): the editing session as the `Session` class, with
  fields `roadmap`, `activeNode`, `selectedNodeId`, `searchTerm` and
  `savedState`. Beside it are the pure roadmap transformations its methods
  apply (`WithNode`, `ReplaceNode`, `WithoutNode`), the derived views
  (`Highlight`, `Progress`), and the save-status machine (`NextStatus`).

Three helper modules hold code that several of these share:

- `Wrappers` holds `Option`.
- `Seqs` holds generic `Map`, `Filter` and `FirstIndex`, with their order and
  multiplicity lemmas.
- `Strings` holds JavaScript's whitespace class, `trim`, `toLowerCase`,
  `includes` and decimal numerals.

Foreign code is passed in as parameters:

- The HTML sanitizer (DOMPurify) is a `string -> string` parameter. The model
  assumes nothing about it. The browser's sanitizer and the server's are two
  separate parameters, so nothing relies on them being the same function.
- `crypto.randomUUID()`, `Math.random()` and `Date.now()` are parameters of the
  operations that call them.

Points where the code's behaviour is easy to mistake, each as the model states it:

- `updateNode` replaces every node with the matching id by the whole updated
  node. It does not merge fields. NodeModal always sends the whole node with one
  field changed.
- Loading the document does not change the save status.
- There is no `'Save failed'` status. A rejected save leaves `'Saving...'`
  (`App.RejectedSaveStaysSaving`).
- Deleting an image removes every occurrence of the name, not only the first.
- A save from the client sanitizes each text field twice: first in the
  browser, then at the server (`App.ClientSaveStores`).
- Adding a node (`addNode`) and moving nodes on the canvas do not mark the
  session `'Unsaved'`. Only an accepted `updateNode` does.
- An edit made while a save is in flight still ends at `'Saved'` when that save
  resolves (`App.SavedDespiteEditInFlight`).

## Model

| member | source | states |
|---|---|---|
| `Seqs.Map` | src/components/CanvasBoard.jsx:16-17 | `map` keeps the length and applies the function at every index (also CanvasBoard.jsx:32, 55 and App.jsx:59, 94) |
| `Seqs.Filter` | server/controllers/roadmapController.js:38 | `filter` keeps exactly the elements satisfying the predicate, and nothing else |
| `Seqs.FirstIndex` | server/controllers/roadmapController.js:66 | `find` returns the first index satisfying the predicate, or none when no element does |
| `Seqs.FilterKeepsProperty` | src/pages/App.jsx:104-105 | every kept element has any property all input elements have |
| `Seqs.DistinctBy` | src/pages/App.jsx:84 | no two elements share a key; node ids and canvas node ids are both unique in this one sense |
| `Seqs.FilterKeepsOnlyOne` | src/pages/App.jsx:74 | when exactly one element satisfies the predicate, the result is that element alone |
| `Seqs.FilterConcat` | src/pages/App.jsx:104-105 | filtering distributes over concatenation, so kept elements keep their order |
| `Seqs.FilterMultiplicity` | server/controllers/roadmapController.js:82 | a kept element occurs as often as before; a dropped one does not occur |
| `Seqs.FilterKeepsAll` | src/pages/App.jsx:74 | nothing is dropped (equivalently, the length is kept) iff every element satisfies the predicate |
| `Seqs.FilterKeepsNone` | src/pages/App.jsx:74 | the result is empty iff no element satisfies the predicate |
| `Seqs.MapConcat` | src/pages/App.jsx:59 | mapping distributes over concatenation, so mapped elements keep their order (also CanvasBoard.jsx:32, 55 and App.jsx:94) |
| `Strings.IsSpace` | server/controllers/roadmapController.js:36 | the ECMAScript WhiteSpace and LineTerminator characters, which both `trim` and the `\s` of upload.js:6 use |
| `Strings.TrimStart` | server/controllers/roadmapController.js:36 | removes exactly a blank prefix and leaves a suffix that does not start with whitespace |
| `Strings.TrimEnd` | server/controllers/roadmapController.js:36 | removes exactly a blank suffix and leaves a prefix that does not end with whitespace |
| `Strings.TrimEmptyIffBlank` | server/controllers/roadmapController.js:36 | `s.trim()` is `''` iff every character of `s` is whitespace |
| `Strings.TrimShape` | server/models/Roadmap.js:14 | the original is a blank prefix, then the trimmed string, then a blank suffix |
| `Strings.Trim` | server/controllers/roadmapController.js:36 | the trimmed string is no longer than the original, and when non-empty it neither starts nor ends with whitespace (also Roadmap.js:14) |
| `Strings.TrimIdempotent` | server/models/Roadmap.js:14 | trimming twice equals trimming once |
| `Strings.LowerChar` | src/pages/App.jsx:68 | ASCII upper-case letters map to lower case; every other character is unchanged |
| `Strings.Lower` | src/pages/App.jsx:68 | lower-casing keeps the length and maps each character |
| `Strings.Contains` | src/pages/App.jsx:68 | every prefix of the string is contained in it, the empty needle included; a needle longer than the string is never contained |
| `Strings.ContainsIffOccurs` | src/pages/App.jsx:68 | `includes` holds iff the needle occurs at some index |
| `Strings.Decimal` | server/middleware/upload.js:6 | the numeral is non-empty, all digits, without a leading zero |
| `Strings.DecimalRoundTrip` | server/middleware/upload.js:6 | reading the numeral back yields the number |
| `Strings.DecimalInjective` | server/middleware/upload.js:6 | distinct clock readings give distinct numerals |
| `RoadmapSchema.ParseNodeType` | server/models/Roadmap.js:15 | a string names a node type iff it is one of the four names, which it then round-trips to |
| `RoadmapSchema.ParseDifficulty` | server/models/Roadmap.js:24 | a string names a difficulty iff it is `Easy`, `Medium` or `Hard` |
| `RoadmapSchema.ParsePriorityTag` | server/models/Roadmap.js:25 | a string names a priority tag iff it is `Important`, `Weak` or `Frequent` |
| `RoadmapSchema.RequiredString` | server/models/Roadmap.js:13-14 | a required string is present and not `''` (also lines 33-34, 42) |
| `RoadmapSchema.NodeConforms` | server/models/Roadmap.js:13-25 | a node is accepted when its id and trimmed title are required strings and its type, difficulty and priority tag are members of their enumerations |
| `RoadmapSchema.ConnectionConforms` | server/models/Roadmap.js:33-34 | a connection is accepted when both its source and target ids are required strings |
| `RoadmapSchema.RoadmapConforms` | server/models/Roadmap.js:39-45 | a roadmap is accepted when its title is a required string and every node and connection is accepted; the key has no rule |
| `RoadmapSchema.CastNode` | server/models/Roadmap.js:14 | the stored node has the title trimmed and every other field unchanged |
| `RoadmapSchema.TitleRuleIsNotBlank` | server/models/Roadmap.js:14 | a node title passes the required rule after trimming iff it is not all whitespace |
| `RoadmapSchema.CastNodeIdempotent` | server/models/Roadmap.js:14 | casting a cast node changes nothing |
| `RoadmapSchema.DefaultsConform` | server/models/Roadmap.js:24-25 | the defaults `Medium` and `Frequent` are members of their enumerations; the default document (`'default'`, `'Interview Preparation'`, no nodes or connections, lines 41-44) meets the rules |
| `NodeUtils.NodeTypesMatchSchema` | src/utils/nodeUtils.js:1 | the client's list is exactly the schema's four node types, in the order `group, topic, subtopic, content`, without repeats |
| `NodeUtils.CreateNode` | src/utils/nodeUtils.js:3-18 | the title is the given one if non-empty, else `"New " + type`; the type defaults to `'topic'` and is not checked; the id, parent and position are copied; text fields `''`, no images, `Medium`, `Frequent`, not completed, empty metadata |
| `NodeUtils.CreateNodeConforms` | src/utils/nodeUtils.js:3-18 | a created node with a non-empty id, a listed type and no all-whitespace non-empty title meets the node schema and carries the schema defaults; an empty or absent title falls back to `New <type>` |
| `NodeUtils.ToFlowNode` | src/utils/nodeUtils.js:20-25 | copies id and position, keeps the node as `data`; the class is `'completed'` iff the node is completed, else `''` |
| `NodeUtils.ToFlowEdge` | src/utils/nodeUtils.js:27-32 | the edge id is source id, `'-'`, target id; source and target are copied; the type is `'smoothstep'` |
| `NodeUtils.FlowEdgeIdsCanCollide` | src/utils/nodeUtils.js:28 | two different connections can get the same edge id |
| `CanvasBoard.MappedNodes` | src/components/CanvasBoard.jsx:16 | one canvas node per node, in order, with the same id and position, the node as data, and class `'completed'` iff the node is completed |
| `CanvasBoard.MappedEdges` | src/components/CanvasBoard.jsx:17 | one canvas edge per connection, in order, from its source to its target |
| `CanvasBoard.SyncNode` | src/components/CanvasBoard.jsx:32 | the synced node is the canvas node's data with only its position replaced by the canvas position |
| `CanvasBoard.SyncNodes` | src/components/CanvasBoard.jsx:32 | node sync keeps count and order and changes only positions |
| `CanvasBoard.EdgeToConnection` | src/components/CanvasBoard.jsx:55 | an edge maps to the connection between its source and target |
| `CanvasBoard.SyncEdges` | src/components/CanvasBoard.jsx:55 | edge sync keeps count and order and maps each edge to its endpoints (also the list at line 67) |
| `CanvasBoard.NodesRoundTrip` | src/components/CanvasBoard.jsx:16-32 | mapping nodes to the canvas and syncing back yields the same nodes |
| `CanvasBoard.SyncAfterMoveChangesOnlyPositions` | src/components/CanvasBoard.jsx:32 | after the canvas moves its nodes, sync yields the original nodes with only the new positions |
| `CanvasBoard.EdgesRoundTrip` | src/components/CanvasBoard.jsx:17-55 | mapping connections to the canvas and syncing back yields the same connections |
| `CanvasBoard.Decorate` | src/components/CanvasBoard.jsx:77-84 | decoration keeps count, order and canvas record; a node is focused iff its id is the focus id, and highlighted iff its id is the highlighted id |
| `CanvasBoard.AtMostOneHighlighted` | src/components/CanvasBoard.jsx:77-84 | with unique ids at most one rendered node is highlighted and at most one focused |
| `Upload.CollapseWhitespace` | server/middleware/upload.js:6 | the transformed name contains no whitespace character |
| `Upload.NoWhitespaceUnchanged` | server/middleware/upload.js:6 | a name without whitespace is kept unchanged |
| `Upload.TrimStartOfBlankRun` | server/middleware/upload.js:6 | a whitespace run is consumed exactly up to the next non-whitespace character |
| `Upload.RunBecomesOneDash` | server/middleware/upload.js:6 | a maximal whitespace run between a word and the rest becomes exactly one `'-'` |
| `Upload.KeepsCharactersInOrder` | server/middleware/upload.js:6 | apart from dashes, the result holds the original's non-whitespace characters in order |
| `Upload.StoredFileName` | server/middleware/upload.js:6 | the stored name is the decimal digits of the clock reading, one `'-'`, then the transformed original name; it contains no whitespace anywhere |
| `Upload.StoredFileNameReadsBack` | server/middleware/upload.js:6 | the first `'-'` of the stored name ends the decimal clock reading, which reads back; the rest is the transformed name |
| `RoadmapController.OrEmpty` | server/controllers/roadmapController.js:21-25 | `value \|\| ''` is the value when present, `''` when absent |
| `RoadmapController.SanitizeNode` | server/controllers/roadmapController.js:19-26 | title, summary, code, output and notes become the sanitized value (an absent one as `''`); every other field is kept |
| `RoadmapController.SanitizeCompleteNode` | server/controllers/roadmapController.js:19-26 | a node with every field present changes only in its five text fields, each sanitized |
| `RoadmapController.HasTitle` | server/controllers/roadmapController.js:38 | the save filter keeps a node whose title does not trim to `''` |
| `RoadmapController.CleanNodes` | server/controllers/roadmapController.js:38 | every stored node is the sanitized form of an input node and has a non-blank title; every input whose sanitized title is not blank is stored |
| `RoadmapController.CleanNodesConcat` | server/controllers/roadmapController.js:38 | stored nodes keep the input order |
| `RoadmapController.CleanSingleNode` | server/controllers/roadmapController.js:38 | one node is stored, sanitized, iff its sanitized title is not blank |
| `RoadmapController.CleanDropsBlankKeepsTitled` | server/controllers/roadmapController.js:38 | of a blank-titled node and a titled one, only the titled one is stored |
| `RoadmapController.CleanNodesPassTitleRule` | server/controllers/roadmapController.js:38 | every stored node passes the schema's required-title rule, after the schema's trim too (Roadmap.js:14) |
| `RoadmapController.TitleMissing` | server/controllers/roadmapController.js:36 | the title check fails iff there is no body, no title, or a title that is all whitespace |
| `RoadmapController.SaveResult` | server/controllers/roadmapController.js:34-55 | 400 `Title is required` iff the body, its title, or a non-blank title is missing; else the document has key `'default'`, the sanitized title, the cleaned nodes, and the connections as sent or `[]` |
| `RoadmapController.SaveKeepsDanglingConnections` | server/controllers/roadmapController.js:44 | connections are not pruned when their endpoint node is dropped |
| `RoadmapController.FindNode` | server/controllers/roadmapController.js:66 | the index of the first node with the id; none iff no node has it |
| `RoadmapController.WithoutImage` | server/controllers/roadmapController.js:82 | the name no longer occurs; every other image is kept; nothing new appears |
| `RoadmapController.WithoutImageKeepsOthers` | server/controllers/roadmapController.js:82 | removing an image keeps the order and the multiplicity of all other images |
| `RoadmapController.ImageTarget` | server/controllers/roadmapController.js:64-67 | 404 `Roadmap not found` without a document; 404 `Node not found` without the node; else the first node with the id |
| `RoadmapController.AttachImage` | server/controllers/roadmapController.js:62-73 | checks run in order (404, 404, then 400 without a file) and none changes the document; on success only the first node with the id changes, with the file name appended to its images, and it is returned |
| `RoadmapController.DetachImage` | server/controllers/roadmapController.js:75-88 | the same two 404 checks, without change; on success only that node changes, with every occurrence of the name removed, and it is returned |
| `RoadmapController.AttachThenDetach` | server/controllers/roadmapController.js:62-88 | uploading a new name and deleting it again restores the document |
| `RoadmapController.Store.constructor` | server/controllers/roadmapController.js:10 | a store over the given sanitizer and stored document |
| `RoadmapController.Store.GetRoadmap` | server/controllers/roadmapController.js:28-32 | returns the stored document unchanged, or creates and stores the default one; afterwards the store holds what was returned |
| `RoadmapController.Store.SaveRoadmap` | server/controllers/roadmapController.js:34-55 | replies with `SaveResult`; on success the store holds exactly that document, on failure it is untouched |
| `RoadmapController.Store.ResetRoadmap` | server/controllers/roadmapController.js:57-60 | the store holds exactly the default document, whatever it held before |
| `RoadmapController.Store.UploadNodeImage` | server/controllers/roadmapController.js:62-73 | store and reply are `AttachImage` with the file named by the upload middleware (upload.js:6) |
| `RoadmapController.Store.DeleteNodeImage` | server/controllers/roadmapController.js:75-88 | store and reply are `DetachImage` |
| `RoadmapController.LoadTwice` | server/controllers/roadmapController.js:28-32 | two loads return the same document, which is the existing one if there was one, so a second load creates nothing |
| `RoadmapController.LoadAfterReset` | server/controllers/roadmapController.js:57-60 | a load right after a reset gives the default title and no nodes or connections |
| `App.LocalDefault` | src/pages/App.jsx:11-18 | the client's local document: no key, the default title, a `DSA Group` group node and a `System Design` topic node, no connections |
| `App.StatusLabel` | src/pages/App.jsx:26 | the three status texts `'Unsaved'`, `'Saving...'` and `'Saved'` (also lines 56, 61, 97) |
| `App.NextStatus` | src/pages/App.jsx:56-61 | an edit gives `'Unsaved'` (line 97), a started save `'Saving...'` and a resolved one `'Saved'`; a rejected save changes nothing; `'Saved'` is only entered by a resolved save, `'Saving...'` only by a started one |
| `App.SavedNeedsResolution` | src/pages/App.jsx:55-62 | the status reads `'Saved'` only if it already did or some save resolved |
| `App.RejectedSaveStaysSaving` | src/pages/App.jsx:56-61 | after a started save that is only rejected, the status stays `'Saving...'` |
| `App.SavedDespiteEditInFlight` | src/pages/App.jsx:56-61 | an edit during an in-flight save still ends at `'Saved'` |
| `App.Truthy` | src/pages/App.jsx:85 | an optional id is truthy when present and not `''` (also line 101) |
| `App.RandomPosition` | src/pages/App.jsx:80 | a new node's position lies in [120, 420) on both axes |
| `App.WithNode` | src/pages/App.jsx:82-86 | exactly one node is appended at the end and earlier nodes are unchanged; with a truthy parent exactly the connection parent to new node is appended, else connections are unchanged |
| `App.ReplaceNode` | src/pages/App.jsx:94 | every node with the updated id is replaced wholesale by the update; other nodes, count, order and ids are unchanged |
| `App.WithoutNode` | src/pages/App.jsx:102-106 | no remaining node has the id and every other node remains; no remaining connection touches the id and every other connection remains (order and multiplicity in the two lemmas below) |
| `App.WithoutNodeKeepsOrder` | src/pages/App.jsx:104 | deleting keeps the order and the multiplicity of the remaining nodes |
| `App.WithoutNodeKeepsConnectionOrder` | src/pages/App.jsx:105 | deleting keeps the order of the remaining connections and the multiplicity of every connection not touching the id |
| `App.WithoutNodeConforms` | src/pages/App.jsx:102-106 | deleting a node from a roadmap the schema accepts leaves one it accepts (Roadmap.js:13-45) |
| `App.WithNodeConnectionsConform` | src/pages/App.jsx:85 | adding a node with a non-empty id under a truthy parent appends a connection the schema accepts, so conforming connections stay conforming (Roadmap.js:33-34) |
| `App.WithoutAbsentNode` | src/pages/App.jsx:104-105 | deleting an id nothing refers to changes nothing |
| `App.SetField` | src/components/NodeModal.jsx:13 | exactly the edited text field takes the new value; every other field is kept |
| `App.Toggled` | src/pages/App.jsx:126 | only `isCompleted` flips |
| `App.AddKeepsUnique` | src/pages/App.jsx:84 | adding a node with a fresh id keeps node ids unique |
| `App.FilterKeepsUnique` | src/pages/App.jsx:104 | filtering nodes with unique ids keeps ids unique |
| `App.DeleteKeepsUnique` | src/pages/App.jsx:104 | deleting keeps node ids unique |
| `App.ReplaceKeepsUnique` | src/pages/App.jsx:94 | updating keeps node ids unique |
| `App.EditsKeepUnique` | src/pages/App.jsx:79-108 | node ids stay unique through any sequence of additions with fresh ids and deletions |
| `App.Matches` | src/pages/App.jsx:68 | a node matches when its lower-cased title contains the lower-cased term |
| `App.FirstMatch` | src/pages/App.jsx:68 | the index of the first node whose lower-cased title contains the lower-cased term, or none when no node matches |
| `App.Highlight` | src/pages/App.jsx:66-70 | no highlight for a blank term; a highlight is never `''` |
| `App.FirstMatchUnique` | src/pages/App.jsx:68 | only one index is the first match |
| `App.HighlightIsFirstMatch` | src/pages/App.jsx:66-70 | there is a highlight iff the term is not blank and the first matching node exists with a non-empty id, whose id it then is |
| `App.HighlightFoundOccurs` | src/pages/App.jsx:68 | the highlighted node's lower-cased title contains the lower-cased term at some index |
| `App.HighlightIsRendered` | src/components/CanvasBoard.jsx:77-84 | the first matching node is highlighted on the board, and with unique ids no other node is (App.jsx:153) |
| `App.RoundedPercent` | src/pages/App.jsx:75 | the rounded percentage of `completed` out of a positive `total` is at most 100 when `completed <= total`, exactly 100 when all are completed, and 0 when none is |
| `App.Progress` | src/pages/App.jsx:72-77 | total is the node count, completed the count of completed nodes, with 0 <= completed <= total; the percent lies in [0, 100], is 0 without nodes or completions, and 100 when all nodes are completed |
| `App.ProgressCounts` | src/pages/App.jsx:74 | completed equals total iff every node is completed; completed is 0 iff none is |
| `App.ProgressQuarter` | src/pages/App.jsx:72-77 | any one of four nodes completed, wherever it stands, gives total 4, completed 1, 25 percent |
| `App.ClientSanitizeNode` | src/pages/App.jsx:46-53 | each of the five text fields is sanitized; every other field is kept |
| `App.SavePayload` | src/pages/App.jsx:57-60 | the request body is the working copy with every node sanitized, in order |
| `App.ClientSaveAccepted` | src/pages/App.jsx:55-62 | a client save with a non-blank title is accepted by the server (roadmapController.js:34-45); it stores `server(title)`, the connections as sent, and the server's cleaning of the nodes the client sanitized |
| `App.ClientSaveStores` | src/pages/App.jsx:55-62 | every node a client save stores has a non-blank title and is, field by field, `server(client(x))` of a node `x` of the working copy (roadmapController.js:38) |
| `App.ClientSaveKeepsTitled` | src/pages/App.jsx:55-62 | conversely, every working-copy node whose twice-sanitized title is not blank is stored (roadmapController.js:38) |
| `App.SentNodesSanitizedTwice` | src/pages/App.jsx:59 | the server's sanitizing of each node the client sent equals the client's node with each text field `server(client(field))`, in order (roadmapController.js:19-26) |
| `App.Session.constructor` | src/pages/App.jsx:21-26 | the session starts with the local default document, nothing selected or open, an empty search and `'Unsaved'` |
| `App.Session.Load` | src/pages/App.jsx:33-40 | the working copy becomes the fetched document, or the local default when the request failed |
| `App.Session.BeginSave` | src/pages/App.jsx:55-60 | the status becomes `'Saving...'` and the body sent is `SavePayload` of the working copy |
| `App.Session.FinishSave` | src/pages/App.jsx:61 | the status becomes `'Saved'` when the request resolves |
| `App.Session.SetSearchTerm` | src/pages/App.jsx:139 | the search term is replaced |
| `App.Session.ClickNode` | src/pages/App.jsx:149-152 | the clicked node becomes selected and open in the editor |
| `App.Session.ReplaceNodes` | src/pages/App.jsx:147 | the canvas's node list replaces the working copy's nodes, nothing else changes |
| `App.Session.ReplaceConnections` | src/pages/App.jsx:148 | the canvas's connection list replaces the working copy's connections |
| `App.Session.AddNode` | src/pages/App.jsx:79-88 | the roadmap becomes `WithNode` of the created node at the random position; the new node is selected; a fresh id keeps ids unique |
| `App.Session.UpdateNode` | src/pages/App.jsx:90-98 | a title blank after trim changes nothing (roadmap, open node, status); otherwise the nodes become `ReplaceNode` and nothing else of the roadmap changes, the update is open in the editor and the status is `'Unsaved'` |
| `App.Session.EditField` | src/components/NodeModal.jsx:13 | an edit of one text field of a node is `UpdateNode` of that node with the field set (the editor passes the node it has open) |
| `App.Session.DeleteNode` | src/pages/App.jsx:100-108 | a missing or empty id changes nothing; otherwise the roadmap becomes `WithoutNode` and the editor closes |
| `App.Session.DeleteSelected` | src/pages/App.jsx:100-108 | `DeleteNode` of the current selection |
| `App.Session.HandleContextAction` | src/pages/App.jsx:122-128 | the clicked node is selected first; `addChild` makes the roadmap `WithNode` of a `content` child of it and selects the child, leaving the open node and status alone; `rename` opens it and changes nothing else; `markComplete` is `UpdateNode` of it with completion flipped, with the blank-title case changing nothing; `delete` deletes the selection from before the click (nothing without one, else `WithoutNode` of it and the editor closes) and leaves the status alone |
| `App.Session.HandleContextActionIntended` | src/pages/App.jsx:122-128 | as above, except that `delete` removes the clicked node: nothing changes for an empty id, else the roadmap becomes `WithoutNode` of its id, no remaining node has that id, and the editor closes |
| `App.Session.HighlightedNodeId` | src/pages/App.jsx:66-70 | no highlight for a blank search term; a highlighted id is the id of a node that is the first match of the term |
| `App.Session.CurrentProgress` | src/pages/App.jsx:72-77 | the counter counts every node of the working copy, its percent is at most 100, and completed equals total iff every node is completed |
| `App.Session.Board` | src/pages/App.jsx:144-155 | the board renders one node per working-copy node, in order, each carrying the node as data; none is focused (no focus id is passed); a node is highlighted iff its id is the highlighted id (CanvasBoard.jsx:77-84) |
| `App.ContextDeleteRemovesPreviousSelection` | src/pages/App.jsx:123-127 | with node B selected, the context-menu delete on node A keeps A and removes B |
| `App.IntendedContextDeleteRemovesClicked` | src/pages/App.jsx:123-127 | with the intended handler, the same delete removes A and keeps B |

## Findings

| source | as written | input that shows it | evidently intended | confidence | as-written member | corrected member |
|---|---|---|---|---|---|---|
| src/pages/App.jsx:122-128 | `handleContextAction` sets the selection to the clicked node. Its `'delete'` branch then calls `deleteSelected`, which reads the selection of the render the handler was created in. That is the selection from before the click. | Left-click node B, then choose Delete in node A's context menu. B is deleted and A stays. With nothing selected, nothing is deleted. | Delete in a node's context menu removes that node. | high (not executed) | `App.Session.HandleContextAction`, `App.ContextDeleteRemovesPreviousSelection` | `App.Session.HandleContextActionIntended`, `App.IntendedContextDeleteRemovesClicked` |

## Left out

- Sanitizer internals: DOMPurify is foreign. It is a parameter with no properties. Idempotence and pass-through of plain text are not assumed, since nothing in the code establishes them.
- Randomness and the clock: `Math.random()`, `crypto.randomUUID()` and `Date.now()` are parameters. Freshness of a new id is a hypothesis of the uniqueness results, not a requirement of `AddNode`.
- App.RoundedPercent and App.Progress: the percent is computed as exact round-half-up of `100 * completed / total`. JavaScript works on doubles, so an exact half can round down there (29 of 200 gives 14 in JavaScript and 15 here). The bounds and the 0 % and 100 % cases hold either way.
- Strings.LowerChar and Strings.Lower: only ASCII letters are lower-cased. JavaScript's `toLowerCase` uses the full Unicode case tables, and some of those mappings change a string's length.
- Positions are exact reals, not IEEE doubles. Node metadata values are modelled as strings.
- Timers: the 5-second autosave interval (`src/hooks/useAutoSave.js`) and the `setTimeout`-deferred canvas sync (CanvasBoard.jsx:40-45, 53-58) are timing, not logic. `BeginSave` and `FinishSave` are the steps they trigger.
- Canvas library internals: `useNodesState`, `useEdgesState`, how the library applies its change events, and `addEdge` (CanvasBoard.jsx:18-19, 66) are foreign. Only the mappings in and out of them are modelled.
- Storage mechanics: HTTP transport and routing, the MongoDB connection, and Mongoose's upsert, timestamps and validators (roadmapController.js:47-52) are left out. The schema rules are predicates (`RoadmapSchema.NodeConforms`, `RoadmapSchema.RoadmapConforms`), and `SaveResult` does not apply them. Not modelled: when the sanitized roadmap title is `''`, the validator makes the update fail and nothing is stored; stored node titles are trimmed. The key's `unique: true` index (Roadmap.js:41) is not a rule of `RoadmapConforms`: the controller only ever writes the one document with key `'default'`.
- Files on disk: the upload middleware writes the file before the handler runs, so the two 404 replies of the upload handler leave it behind (the 400 reply happens only when no file was uploaded). The delete handler's existence check and unlink (roadmapController.js:83-84) are also left out.
- JavaScript type confusion: a payload field of a non-string type, a `null` entry in `payload.nodes`, and a node lacking `id` or another field outside the five sanitized text fields (which then falls to the schema's defaults). A node type given as `null` to `createNode` is left out too. So is the extra `isFocused` key the board adds to a rendered node's data (CanvasBoard.jsx:79): the editor, `markComplete` and `updateNode` receive that data, so the key can reach the working copy and the save body, where the server's schema drops it. The model's `Node` has no such field.
- Concurrency: overlapping saves and last-writer-wins at the server.
- Presentation: the sidebar, navigation bar, editor tabs and code editor, the dark-mode toggle, the node-type selector and closing the editor. The image upload and delete calls from the client (App.jsx:110-120) are transport, and each ends in an `UpdateNode` of the returned node.
