# Process-diagram graph and semantic chunker

This project models the part of a retrieval pipeline that turns BPMN process diagrams into text chunks. There are three parts:

- **The graph** (`graph.dfy`, module `BpmnGraph`).
  - A node dictionary keyed by element id. Each node holds its serialised markup, its lower-cased tag, its file path and an ordered list of successor ids.
  - A side table of call mappings, from a sub-process node to the process it calls.
  - Three mutators: add a node, add an edge, add a call mapping.

  The dictionary's iteration order is modelled explicitly. `order` lists each key once, in first-insertion order. Replacing a node under an existing id keeps its place.

  The graph is a class, `Graph`, whose fields the mutators update in place. Each mutator is proved equal to a pure transition on a `GraphState` value (`PutNode`, `AppendEdge`, `PutCall`). Each of those transitions preserves the dictionary invariant `WellFormed`.
- **Reading one diagram file** (`parse.dfy`, module `BpmnParse`).
  - A readable file is its root element followed by every element below the root, in document order.
  - An element is a record: its tag (with its `{namespace}` prefix), its attribute map, and its markup.
  - The element loop registers nodes and call mappings. The flow loop registers edges for the sequence flows found under the namespace read off the root tag.
  - The loops are methods that update a `Graph` object. Each is proved equal to a fold over the elements (`ParseFile`).
  - Lemmas about that fold state:
    - which element a node comes from: the last one declaring its id;
    - which flows give its successors;
    - where call mappings come from.
- **Chunking** (`chunks.dfy`, module `BpmnChunks`, and `chunk_properties.dfy`, module `ChunkProperties`). `GenerateChunks` is the nested loop:
  - an outer loop over node ids in dictionary order;
  - an inner breadth-first walk with a `visited` set and a FIFO queue, which skips ids that are visited or are not nodes;
  - per-chunk lists of texts, ids, types and called processes, plus a set of source files.

  It is proved to return a sequence satisfying `IsChunking`. Each chunk starts at the first id of the dictionary order that no earlier chunk took. It takes no id twice and none taken before. Every member after the first is a successor of an earlier member. Every successor of a member that is a node is taken by this chunk or an earlier one. The chunk's text and metadata describe its members position by position. Together the chunks take exactly the node ids.

  `ChunkProperties` derives the graph-wide promises from `IsChunking`:
  - every node lies in exactly one chunk;
  - dangling ids never appear;
  - seeds come in dictionary order;
  - members are reachable from their seed;
  - there are no chunks exactly when there are no nodes;
  - splitting the chunk text at newlines gives back the member texts, provided no member text holds a newline of its own. A member text is the whole serialised element, with its nested children and trailing whitespace, so in an indented diagram it usually does hold newlines and the split does not recover the texts;
  - the chunking is unique up to the order of members within each chunk and the order of each chunk's sources list;
  - each id lies in the chunk of the earliest seed, in dictionary order, from which it is reachable.

Three behaviours of the code that the model keeps:

- A node's type is the whole lower-cased tag, namespace prefix included (`{http://…}task`), since `ingestion/bpmn_parser.py:181` lower-cases the full tag and line 187 stores it.
- A chunk is the set of ids reached by a forward walk, along successor lists, from the first id not yet taken (lines 210-244). Two nodes joined only by an edge pointing into the first seed's chunk land in different chunks. An id belongs to the chunk of the earliest chunk seed, in dictionary order, from which it is reachable (`ChunkProperties.EarliestReachingSeed`). That seed need not be the first id in dictionary order that reaches it: with ids `A, S1, S2, Y` and edges from each of the first three to `Y`, the chunks are `[A, Y]`, `[S1]` and `[S2]`.
- A node element declared again replaces the earlier node, including its successor list (line 165). A call mapping stays until a later sub-process with the same id and a called element overwrites it (lines 189-192). A later element without a called element does not remove it.

The chunks are records of a text and metadata: the sources, node ids, types and called processes of lines 215 and 249 (`BpmnChunks.Document`, `BpmnChunks.Metadata`).

## Model

| member | source | states |
|---|---|---|
| BpmnGraph.PutNode | ingestion/bpmn_parser.py:151-165 | storing a node: the key set gains its id and the id maps to it; other nodes and call mappings unchanged; the old order is a prefix of the new, and an existing id keeps its place; the dictionary invariant is preserved |
| BpmnGraph.AppendEdge | ingestion/bpmn_parser.py:167-169 | when the source is a node, its successor list gains the target at the end (target never checked); when it is not, nothing changes; no key, order or call mapping changes |
| BpmnGraph.PutCall | ingestion/bpmn_parser.py:171-172 | the mapping for the node id is set and others kept; nodes and order untouched; invariant preserved |
| BpmnGraph.Graph.constructor | ingestion/bpmn_parser.py:160-162 | a new graph is empty and well formed |
| BpmnGraph.Graph.AddNode | ingestion/bpmn_parser.py:164-165 | the object's new state is `PutNode` of its old state, and it stays well formed |
| BpmnGraph.Graph.AddEdge | ingestion/bpmn_parser.py:167-169 | the new state is `AppendEdge` of the old |
| BpmnGraph.Graph.AddCallMapping | ingestion/bpmn_parser.py:171-172 | the new state is `PutCall` of the old |
| BpmnParse.IsNodeTag | ingestion/bpmn_parser.py:185 | the classification rule: a lower-cased tag ending in task, startevent, endevent, exclusivegateway or subprocess |
| BpmnParse.IsNodeElement | ingestion/bpmn_parser.py:181-185 | an element becomes a node exactly when it has a non-empty id and its lower-cased tag passes the classification rule |
| BpmnParse.IsCallElement | ingestion/bpmn_parser.py:189-191 | a node element whose lower-cased tag ends in subprocess and that names a non-empty called element |
| BpmnParse.ElementNode | ingestion/bpmn_parser.py:186-187 | the node an element becomes: its id, its markup, its lower-cased tag, the file path, and no successors |
| BpmnParse.RegisterElement | ingestion/bpmn_parser.py:181-192 | one element: a non-node element changes nothing; a node element is stored under its id and adds exactly that key; the dictionary invariant is preserved |
| BpmnParse.RegisterElements | ingestion/bpmn_parser.py:180-192 | the element loop as a fold: it never removes a key and preserves the dictionary invariant |
| BpmnParse.IsEdgeFlow | ingestion/bpmn_parser.py:195-197 | a flow becomes an edge only when its sourceRef and targetRef are both non-empty |
| BpmnParse.RegisterFlow | ingestion/bpmn_parser.py:195-198 | one flow: a flow missing an end changes nothing; no flow changes the keys, the order or the call mappings; the invariant is preserved |
| BpmnParse.RegisterFlows | ingestion/bpmn_parser.py:194-198 | the flow loop as a fold: keys, order and call mappings unchanged, invariant preserved |
| BpmnParse.FlowTag | ingestion/bpmn_parser.py:194 | the expanded tag `{ns}sequenceFlow` that the search matches |
| BpmnParse.SequenceFlows | ingestion/bpmn_parser.py:194 | exactly the elements below the root whose tag is the flow tag of the root's namespace, in document order |
| BpmnParse.ParseFile | ingestion/bpmn_parser.py:174-200 | one file's effect: none for an unreadable file; otherwise no key is removed and the invariant is preserved |
| BpmnParse.NamespaceOfPlainTag | ingestion/bpmn_parser.py:178-194 | a root tag without braces is its own namespace, so the flows searched for are `{tag}sequenceFlow` |
| BpmnParse.Lower | ingestion/bpmn_parser.py:181 | lower-casing keeps the length and lowers each character (ASCII capitals, and the Kelvin sign to 'k') |
| BpmnParse.KelvinTaskIsNode | ingestion/bpmn_parser.py:181-185 | an element with an id whose tag ends in `tas` and the Kelvin sign is a node, since its lower-cased tag ends in task |
| BpmnParse.UpToClose | ingestion/bpmn_parser.py:178 | the text before the first '}': a prefix with no '}', followed by '}' unless it is the whole tag |
| BpmnParse.StripOpenLeft | ingestion/bpmn_parser.py:178 | drops exactly the leading '{' characters |
| BpmnParse.StripOpenRight | ingestion/bpmn_parser.py:178 | drops exactly the trailing '{' characters |
| BpmnParse.Namespace | ingestion/bpmn_parser.py:178 | the namespace holds no '}' and neither starts nor ends with '{' |
| BpmnParse.NamespaceOfQualifiedTag | ingestion/bpmn_parser.py:178-194 | for a root tag `{uri}local` the namespace is `uri`, so the flows searched for are `{uri}sequenceFlow` |
| BpmnParse.WithTag | ingestion/bpmn_parser.py:194 | keeps exactly the elements with the given tag, and no more elements than it was given |
| BpmnParse.AddElement | ingestion/bpmn_parser.py:181-192 | one element-loop pass changes the graph exactly as `RegisterElement`: an element with an id and a recognised tag suffix becomes a node; a sub-process with a called element also becomes a call mapping |
| BpmnParse.AddFlows | ingestion/bpmn_parser.py:194-198 | the flow loop changes the graph exactly as folding `AppendEdge` over the flows that name both ends, in order |
| BpmnParse.ParseBpmnFile | ingestion/bpmn_parser.py:174-200 | the graph after one file is `ParseFile` of the graph before: unchanged for an unreadable file, otherwise every element (root included) then every sequence flow |
| BpmnParse.LastDeclaration | ingestion/bpmn_parser.py:180-192 | the last element registering an id (or -1): it registers the id and no later element does |
| BpmnParse.RegisteredNodes | ingestion/bpmn_parser.py:180-188 | after the element loop, an id registered by some element is the node of the last such element, with no successors; any other id keeps its old entry, or stays absent; the old order stays a prefix |
| BpmnParse.RegisteredCalls | ingestion/bpmn_parser.py:189-192 | after the element loop, an id's call mapping is the called element of the last sub-process that declares one for it; otherwise the mapping is as before |
| BpmnParse.TargetsFrom | ingestion/bpmn_parser.py:194-198 | every target listed comes from a flow that names both ends and leaves the given id |
| BpmnParse.TargetsFromComplete | ingestion/bpmn_parser.py:194-198 | every flow that names both ends and leaves the id contributes its target to `TargetsFrom` (the converse of `TargetsFrom`'s own contract) |
| BpmnParse.FlowsExtendSuccessors | ingestion/bpmn_parser.py:194-198 | the flow loop adds no node and changes no order or call mapping; each node's successors gain exactly the targets of the flows leaving it, in order |
| BpmnParse.ElementsThenFlows | ingestion/bpmn_parser.py:180-198 | because edges are added after all nodes, a node declared in the file has exactly the successors of the file's flows that leave it, wherever those flows stand; an undeclared node keeps its data and gains those flows |
| BpmnParse.ParsedNode | ingestion/bpmn_parser.py:174-198 | the same for a whole readable file |
| BpmnParse.ParsedCall | ingestion/bpmn_parser.py:174-198 | call mappings after a whole file come from the element loop alone |
| BpmnChunks.JoinLines | ingestion/bpmn_parser.py:248 | the member texts joined with one newline between each two; `ChunkProperties.SplitJoinLines` is its inverse where no text holds a newline |
| BpmnChunks.CalledOf | ingestion/bpmn_parser.py:235-236 | the call mappings of the members that have one, in member order, never more than the members |
| BpmnChunks.GrownFrom | ingestion/bpmn_parser.py:214-249 | the chunk contract for one seed: non-empty, starts at the seed, distinct fresh members each reached from an earlier one, closed under successors that are nodes, and text and metadata aligned with the members |
| BpmnChunks.ChunkOk | ingestion/bpmn_parser.py:210-249 | the next chunk is the one grown from the first id of the order not yet taken |
| BpmnChunks.IsChunking | ingestion/bpmn_parser.py:207-252 | the whole chunk sequence: each chunk follows the ones before it, and together they take exactly the node ids |
| BpmnChunks.TextsOf | ingestion/bpmn_parser.py:229 | the member texts, position by position |
| BpmnChunks.FirstUnseen | ingestion/bpmn_parser.py:210-212 | the position of the first id of the order not yet taken: every earlier id is taken, and the id there is not |
| BpmnChunks.FirstUnseenGrows | ingestion/bpmn_parser.py:210-212 | taking more ids never moves the first untaken one back |
| BpmnChunks.CalledOfAppend | ingestion/bpmn_parser.py:235-236 | one more member adds its call mapping, if it has one, at the end of the called list |
| BpmnChunks.SourcesOfAppend | ingestion/bpmn_parser.py:230 | one more member adds its file to the sources |
| BpmnChunks.ListOfSet | ingestion/bpmn_parser.py:247 | a set becomes a list that has the same elements, each once, in arbitrary order |
| BpmnChunks.Unvisited | ingestion/bpmn_parser.py:239-244 | holds exactly the successors that are nodes and not visited |
| BpmnChunks.EnqueueSuccessors | ingestion/bpmn_parser.py:239-244 | the queue is extended, in order, by exactly the successors that are nodes and not visited; dangling successors are skipped |
| BpmnChunks.SkipKeepsWalking | ingestion/bpmn_parser.py:219-226 | dropping a dequeued id that is visited or is not a node keeps the walk invariant |
| BpmnChunks.TakeKeepsTaken | ingestion/bpmn_parser.py:228-231 | taking a fresh dequeued node keeps the members distinct and `visited` equal to the members plus the ids taken before |
| BpmnChunks.TakeKeepsParented | ingestion/bpmn_parser.py:219-231 | the new member is a successor of an earlier member |
| BpmnChunks.TakeKeepsQueued | ingestion/bpmn_parser.py:239-242 | every queued id stays a successor of some member |
| BpmnChunks.TakeKeepsFrontier | ingestion/bpmn_parser.py:239-244 | every successor of a member that is a node stays visited or queued |
| BpmnChunks.TakeKeepsWalking | ingestion/bpmn_parser.py:228-244 | one take step keeps the whole walk invariant |
| BpmnChunks.TakeKeepsCollected | ingestion/bpmn_parser.py:228-236 | one take step keeps texts, types, sources and called processes describing the members |
| BpmnChunks.WalkingDone | ingestion/bpmn_parser.py:218 | with the queue empty, the members start at the seed, are each reached from an earlier member, and leave no successor untaken |
| BpmnChunks.Take | ingestion/bpmn_parser.py:228-244 | taking the dequeued node adds exactly it to `visited`, keeps the walk invariant and keeps the collected data describing the members |
| BpmnChunks.Traverse | ingestion/bpmn_parser.py:214-244 | the walk from one seed: the members are the newly visited ids, starting at the seed, distinct, fresh, each reached from an earlier member, closed under successors that are nodes; texts, types, sources and called processes describe the members |
| BpmnChunks.AppendChunk | ingestion/bpmn_parser.py:249 | appending a chunk that follows the earlier ones keeps the sequence in order and adds its members to those taken |
| BpmnChunks.WalkIsChunk | ingestion/bpmn_parser.py:246-249 | a finished walk, packed with its joined text and listed sources, is the chunk grown from its seed |
| BpmnChunks.FirstUnseenSkip | ingestion/bpmn_parser.py:210-212 | an id of the order that is already taken and not past the first untaken id stands strictly before it |
| BpmnChunks.SkipKeepsProgress | ingestion/bpmn_parser.py:211-212 | an already visited id of the order is skipped without breaking the outer invariant |
| BpmnChunks.SeedIsFirstUnseen | ingestion/bpmn_parser.py:210-212 | an untaken id reached by the outer loop is the first untaken id |
| BpmnChunks.FirstUnseenPast | ingestion/bpmn_parser.py:210-212 | once the seed is taken, the first untaken id lies past it |
| BpmnChunks.EmitKeepsProgress | ingestion/bpmn_parser.py:246-249 | emitting the walked chunk keeps the outer invariant one position further |
| BpmnChunks.ProgressDone | ingestion/bpmn_parser.py:210-252 | after the whole order, the chunks form a chunking |
| BpmnChunks.EmitFrom | ingestion/bpmn_parser.py:214-249 | one outer pass at an untaken seed keeps the outer invariant one position further |
| BpmnChunks.GenerateChunks | ingestion/bpmn_parser.py:202-252 | the returned chunks satisfy `IsChunking` for the graph |
| ChunkProperties.SplitJoinLines | ingestion/bpmn_parser.py:248 | when no text holds a newline, cutting the joined text at newlines gives the texts back |
| ChunkProperties.CalledOfMembers | ingestion/bpmn_parser.py:235-236 | an id is in the called list exactly when some member maps to it |
| ChunkProperties.SeenMembers | ingestion/bpmn_parser.py:228-231 | an id was taken by a chunk sequence exactly when one of its chunks lists it |
| ChunkProperties.ChunkAt | ingestion/bpmn_parser.py:210-249 | each chunk follows the ones before it (the position-wise reading of the chunk order) |
| ChunkProperties.EveryNodeInSomeChunk | ingestion/bpmn_parser.py:210-249 | an id is a node exactly when some chunk lists it, so dangling successors never appear |
| ChunkProperties.NoIdInTwoChunks | ingestion/bpmn_parser.py:220-228 | an id listed by one chunk is not listed by any later chunk, and no chunk lists an id twice |
| ChunkProperties.SeedOf | ingestion/bpmn_parser.py:210-216 | each chunk is non-empty and starts at the first id of the order that no earlier chunk took |
| ChunkProperties.CalledProcessesOfChunk | ingestion/bpmn_parser.py:235-236 | a chunk lists a called process exactly when one of its members maps to it (the called id need not be a node) |
| ChunkProperties.SourcesOfChunk | ingestion/bpmn_parser.py:230-247 | a chunk's sources are exactly its members' files, each once |
| ChunkProperties.SeedsInOrder | ingestion/bpmn_parser.py:210-212 | a later chunk's seed stands later in the order |
| ChunkProperties.NoChunksIffEmptyGraph | ingestion/bpmn_parser.py:210-249 | there are no chunks exactly when there are no nodes |
| ChunkProperties.LinkedReachable | ingestion/bpmn_parser.py:239-242 | every id of a walk is reachable from its first along successor lists |
| ChunkProperties.ChunkMembersReachable | ingestion/bpmn_parser.py:216-242 | every member of a chunk is reachable from its seed |
| ChunkProperties.WalkMemberIn | ingestion/bpmn_parser.py:218-244 | every member of one walk from a seed is a member of any other walk from that seed that leaves no successor behind |
| ChunkProperties.GrownFromSameMembers | ingestion/bpmn_parser.py:214-244 | two chunks grown from the same seed after the same ids were taken have the same members |
| ChunkProperties.SameMembersAt | ingestion/bpmn_parser.py:210-249 | two chunkings that took the same ids before position n agree on the members at n |
| ChunkProperties.SamePrefix | ingestion/bpmn_parser.py:210-249 | two chunkings have taken the same ids after each common prefix length |
| ChunkProperties.MoreChunksIffUnseen | ingestion/bpmn_parser.py:210-249 | a chunking goes on after n chunks exactly when those left some id of the order untaken |
| ChunkProperties.SuccessorTaken | ingestion/bpmn_parser.py:220-242 | a successor that is a node, of an id taken by the first chunks, is taken by those chunks too |
| ChunkProperties.ReachedIsTaken | ingestion/bpmn_parser.py:210-244 | every node on a path from a chunk's seed is taken by that chunk or an earlier one |
| ChunkProperties.UnreachedBefore | ingestion/bpmn_parser.py:210-244 | a node not taken by the first chunks is reachable from none of their seeds |
| ChunkProperties.EarliestReachingSeed | ingestion/bpmn_parser.py:210-244 | a chunk member is reachable from its own seed and from no earlier chunk's seed, so it lies in the chunk of the earliest seed that reaches it |
| ChunkProperties.ChunkingIsUnique | ingestion/bpmn_parser.py:207-249 | two chunkings of one graph have the same length and the same members chunk by chunk, so a chunking is fixed by the graph up to member order within a chunk and the order of each sources list |

## Left out

- The markup library is not modelled. Parsing a file, iterating its elements, serialising an element (`ET.tostring`) and the `findall` search are inputs. A file is its root plus its descendants in document order, each with a ready-made markup string. The search is modelled as an exact tag match on the descendants.
- The search's handling of namespace prefixes is modelled as an exact match on the expanded tag. A root tag without braces is its own namespace (`BpmnParse.NamespaceOfPlainTag`), so the search looks for `{definitions}sequenceFlow` under a root `definitions`. No element carries that tag, and such a file gets nodes but no edges, in the source as in the model. Edge cases of the library's own namespace handling are not followed either: it reports a `{}sequenceFlow` tag as plain `sequenceFlow` while the model searches for the literal tag, and a root tag such as `{{}definitions` gives the empty namespace.
- A failure is modelled only as a whole file that cannot be read, which contributes nothing. The broad exception handler could in principle also stop a file part-way; the model has no such partial outcome.
- Logging (dangling references, parse errors, the chunk count) is left out. It has no effect on the graph or the chunks.
- `BpmnParse.Lower` lowers the ASCII capitals and the Kelvin sign (U+212A, whose lower case is the ASCII 'k'), so a tag such as `tas\U{212A}` is a node in the model as in the source (`BpmnParse.KelvinTaskIsNode`). Other non-ASCII capitals are kept as they are, so a stored node type that holds one, in the namespace URI for instance, keeps the capital where Python's `lower` folds it. The classification is unaffected: none of them lowers to text ending in one of the five recognised suffixes. Python lowers U+0130 to two characters, which the length-preserving model does not do; that cannot change the classification either, because the second character is a combining mark.
- `BpmnChunks.Traverse` and `BpmnChunks.GenerateChunks` do not pin down the exact order of members inside a chunk. They state that the seed comes first and every later member is a successor of an earlier one. Exact breadth-first order is not stated. `ChunkProperties.ChunkingIsUnique` shows that the member sets are nevertheless determined.
- The order of a chunk's `sources` list is arbitrary, as Python's set-to-list conversion is. It is modelled by picking elements in an unspecified order.
- Aliasing of node objects is not modelled. Nodes are values in the graph's map; the source never shares one node object between two keys.
- The library `Document` type is modelled as a record of text and metadata.
- The driver that calls the file parser once per file is not part of this model. `ParseBpmnFile` models one call on a given graph.
- The commented-out earlier implementation at the top of the same source file is not modelled.
