/** Turning the finished graph into text chunks: for each node id in the
    graph's iteration order that no earlier chunk took, a breadth-first walk
    along successor lists collects one chunk, skipping ids that are not
    nodes. */
module BpmnChunks {
  import opened BpmnGraph

  datatype Metadata = Metadata(
    sources: seq<string>,
    nodeIds: seq<string>,
    types: seq<string>,
    calledProcesses: seq<string>)

  /** One emitted chunk: the member texts joined by newlines, and metadata. */
  datatype Document = Document(text: string, metadata: Metadata)

  // Specification functions for one chunk's contents.

  /** The texts joined with "\n" between consecutive entries. */
  function JoinLines(lines: seq<string>): string
    decreases |lines|
  {
    if lines == [] then ""
    else if |lines| == 1 then lines[0]
    else lines[0] + "\n" + JoinLines(lines[1..])
  }

  function IndexOfNewline(s: string): (r: nat)
    ensures r <= |s|
    ensures r < |s| ==> s[r] == '\n'
    ensures forall j :: 0 <= j < r ==> s[j] != '\n'
  {
    if s == [] || s[0] == '\n' then 0 else 1 + IndexOfNewline(s[1..])
  }

  /** Cutting a text at every newline: the inverse of JoinLines. */
  function SplitLines(s: string): (r: seq<string>)
    ensures |r| >= 1
    decreases |s|
  {
    var i := IndexOfNewline(s);
    if i == |s| then [s] else [s[..i]] + SplitLines(s[i + 1..])
  }

  /** The texts of the given nodes, position by position. */
  function TextsOf(nodes: map<string, Node>, ids: seq<string>): (r: seq<string>)
    requires forall i :: 0 <= i < |ids| ==> ids[i] in nodes
    ensures |r| == |ids|
    ensures forall i :: 0 <= i < |ids| ==> r[i] == nodes[ids[i]].text
    decreases |ids|
  {
    if ids == [] then []
    else TextsOf(nodes, ids[..|ids| - 1]) + [nodes[ids[|ids| - 1]].text]
  }

  /** The called-process ids of those members that have a call mapping, in
      member order. */
  function CalledOf(calls: map<string, string>, ids: seq<string>): (r: seq<string>)
    ensures |r| <= |ids|
    decreases |ids|
  {
    if ids == [] then []
    else
      var last := ids[|ids| - 1];
      CalledOf(calls, ids[..|ids| - 1]) + (if last in calls then [calls[last]] else [])
  }

  /** `sources` holds exactly the files the given nodes come from. */
  ghost predicate SourcesOf(nodes: map<string, Node>, ids: seq<string>, sources: set<string>) {
    forall f :: f in sources <==> exists i :: 0 <= i < |ids| && ids[i] in nodes && nodes[ids[i]].filePath == f
  }

  ghost function SourceSet(d: Document): set<string> {
    set f | f in d.metadata.sources
  }

  ghost function Members(d: Document): set<string> {
    set x | x in d.metadata.nodeIds
  }

  /** The node ids of all the given chunks. */
  ghost function Seen(cs: seq<Document>): set<string>
    decreases |cs|
  {
    if cs == [] then {} else Seen(cs[..|cs| - 1]) + Members(cs[|cs| - 1])
  }

  /** The position of the first id in `order` that is not in `seen`, or
      |order| when all are. */
  function FirstUnseen(order: seq<string>, seen: set<string>): (r: nat)
    ensures r <= |order|
    ensures forall j :: 0 <= j < r ==> order[j] in seen
    ensures r < |order| ==> order[r] !in seen
    decreases |order|
  {
    if order == [] || order[0] !in seen then 0 else 1 + FirstUnseen(order[1..], seen)
  }

  lemma CalledOfAppend(calls: map<string, string>, ids: seq<string>, x: string)
    ensures CalledOf(calls, ids + [x]) == CalledOf(calls, ids) + (if x in calls then [calls[x]] else [])
  {
    assert (ids + [x])[..|ids|] == ids;
  }

  lemma SourcesOfAppend(nodes: map<string, Node>, ids: seq<string>, sources: set<string>, x: string)
    requires x in nodes && SourcesOf(nodes, ids, sources)
    ensures SourcesOf(nodes, ids + [x], sources + {nodes[x].filePath})
  {
    var ids' := ids + [x];
    forall f | f in sources + {nodes[x].filePath}
      ensures exists i :: 0 <= i < |ids'| && ids'[i] in nodes && nodes[ids'[i]].filePath == f
    {
      if f in sources {
        var i :| 0 <= i < |ids| && ids[i] in nodes && nodes[ids[i]].filePath == f;
        assert ids'[i] == ids[i];
      } else {
        assert ids'[|ids|] == x;
      }
    }
  }

  // What a chunk is.

  /** Every member after the first is a successor of an earlier member. */
  ghost predicate Linked(nodes: map<string, Node>, ids: seq<string>) {
    forall i :: 0 < i < |ids| ==>
      exists p :: 0 <= p < i && ids[p] in nodes && ids[i] in nodes[ids[p]].next
  }

  /** Every successor of a member that is a node lies in `seen`. */
  ghost predicate ClosedUnder(nodes: map<string, Node>, ids: seq<string>, seen: set<string>) {
    forall i, m :: 0 <= i < |ids| && ids[i] in nodes && 0 <= m < |nodes[ids[i]].next| && nodes[ids[i]].next[m] in nodes ==>
      nodes[ids[i]].next[m] in seen
  }

  /** The metadata and text of `d` describe its members, index by index. */
  ghost predicate Aligned(nodes: map<string, Node>, calls: map<string, string>, d: Document) {
    var ids := d.metadata.nodeIds;
    && (forall i :: 0 <= i < |ids| ==> ids[i] in nodes)
    && |d.metadata.types| == |ids|
    && (forall i :: 0 <= i < |ids| ==> d.metadata.types[i] == nodes[ids[i]].kind)
    && d.text == JoinLines(TextsOf(nodes, ids))
    && NoDup(d.metadata.sources)
    && SourcesOf(nodes, ids, SourceSet(d))
    && d.metadata.calledProcesses == CalledOf(calls, ids)
  }

  /** `d` is the chunk grown from `seed` when the ids in `before` were taken:
      it starts at the seed, takes each id at most once and none of
      `before`, reaches each member from an earlier one, and leaves no
      successor of a member that is a node outside `before` and itself. */
  ghost predicate GrownFrom(s: GraphState, before: set<string>, seed: string, d: Document) {
    var ids := d.metadata.nodeIds;
    && ids != []
    && ids[0] == seed
    && NoDup(ids)
    && (forall i :: 0 <= i < |ids| ==> ids[i] !in before)
    && Linked(s.nodes, ids)
    && ClosedUnder(s.nodes, ids, before + Members(d))
    && Aligned(s.nodes, s.callMappings, d)
  }

  /** `d` is the chunk that follows once `before` is taken: it is grown from
      the first id in the graph's order not yet taken. */
  ghost predicate ChunkOk(s: GraphState, before: set<string>, d: Document) {
    && FirstUnseen(s.order, before) < |s.order|
    && GrownFrom(s, before, s.order[FirstUnseen(s.order, before)], d)
  }

  /** Each chunk follows the ones before it. */
  ghost predicate ChunksInOrder(s: GraphState, cs: seq<Document>)
    decreases |cs|
  {
    cs == [] || (ChunksInOrder(s, cs[..|cs| - 1]) && ChunkOk(s, Seen(cs[..|cs| - 1]), cs[|cs| - 1]))
  }

  /** The chunk sequence of a graph: each chunk follows the ones before it,
      and together they take every node. */
  ghost predicate IsChunking(s: GraphState, cs: seq<Document>) {
    Seen(cs) == s.nodes.Keys && ChunksInOrder(s, cs)
  }

  // The traversal.

  /** A set listed in arbitrary order, each element once. */
  method ListOfSet(s: set<string>) returns (r: seq<string>)
    ensures NoDup(r)
    ensures forall x :: x in r <==> x in s
  {
    r := [];
    var rest := s;
    while rest != {}
      invariant rest <= s
      invariant NoDup(r)
      invariant forall x :: x in r <==> x in s && x !in rest
      decreases rest
    {
      var x :| x in rest;
      r := r + [x];
      rest := rest - {x};
    }
  }

  /** The ids of `next` that are nodes and not in `visited`, in order and
      with repeats kept. */
  function Unvisited(nodes: map<string, Node>, visited: set<string>, next: seq<string>): (r: seq<string>)
    ensures forall x :: x in r <==> x in next && x in nodes && x !in visited
    decreases |next|
  {
    if next == [] then []
    else
      var t := next[|next| - 1];
      Unvisited(nodes, visited, next[..|next| - 1]) + (if t !in visited && t in nodes then [t] else [])
  }

  /** The successor loop of one dequeued node: queues, in order, each
      successor that is not yet visited and is a node. A successor that is
      not a node is logged and skipped. */
  method EnqueueSuccessors(nodes: map<string, Node>, visited: set<string>, queue: seq<string>, next: seq<string>)
    returns (extended: seq<string>)
    ensures extended == queue + Unvisited(nodes, visited, next)
  {
    extended := queue;
    for j := 0 to |next|
      invariant extended == queue + Unvisited(nodes, visited, next[..j])
    {
      assert next[..j + 1][..j] == next[..j];
      var nextId := next[j];
      if nextId !in visited {
        if nextId in nodes {
          extended := extended + [nextId];
        } else {
          // A dangling successor: logged and not queued.
        }
      }
    }
    assert next[..|next|] == next;
  }

  function Repeat(n: nat, v: nat): (r: seq<nat>)
    ensures |r| == n && forall i :: 0 <= i < n ==> r[i] == v
  {
    seq(n, _ => v)
  }

  // The walk's invariant, in four parts.

  /** `visited` is `seen` plus the members taken so far, each taken once;
      the seed is queued alone until it is taken first. */
  ghost predicate Taken(s: GraphState, seen: set<string>, seed: string, visited: set<string>,
                        ids: seq<string>, queue: seq<string>) {
    && (forall x :: x in visited <==> x in seen || x in ids)
    && visited <= s.nodes.Keys
    && NoDup(ids)
    && (forall i :: 0 <= i < |ids| ==> ids[i] in s.nodes && ids[i] !in seen)
    && (ids == [] ==> queue == [seed])
    && (ids != [] ==> ids[0] == seed)
  }

  /** Each member after the first is a successor of the earlier member
      `parents` names. */
  ghost predicate Parented(s: GraphState, ids: seq<string>, parents: seq<nat>) {
    && |parents| == |ids|
    && forall i :: 0 < i < |ids| ==>
         parents[i] < i && ids[parents[i]] in s.nodes && ids[i] in s.nodes[ids[parents[i]]].next
  }

  /** Each queued id is a successor of the member `queueParents` names. */
  ghost predicate Queued(s: GraphState, ids: seq<string>, queue: seq<string>, queueParents: seq<nat>) {
    && |queueParents| == |queue|
    && (ids != [] ==> forall t :: 0 <= t < |queue| ==>
          queueParents[t] < |ids| && ids[queueParents[t]] in s.nodes && queue[t] in s.nodes[ids[queueParents[t]]].next)
  }

  /** Every successor of a member that is a node is visited or queued. */
  ghost predicate Frontier(s: GraphState, ids: seq<string>, visited: set<string>, queue: seq<string>) {
    forall i, m :: 0 <= i < |ids| && ids[i] in s.nodes && 0 <= m < |s.nodes[ids[i]].next| && s.nodes[ids[i]].next[m] in s.nodes ==>
      s.nodes[ids[i]].next[m] in visited || s.nodes[ids[i]].next[m] in queue
  }

  ghost predicate Walking(s: GraphState, seen: set<string>, seed: string, visited: set<string>,
                          ids: seq<string>, parents: seq<nat>, queue: seq<string>, queueParents: seq<nat>) {
    && Taken(s, seen, seed, visited, ids, queue)
    && Parented(s, ids, parents)
    && Queued(s, ids, queue, queueParents)
    && Frontier(s, ids, visited, queue)
  }

  /** The per-chunk lists and sets describe the members taken so far. */
  ghost predicate Collected(s: GraphState, ids: seq<string>, texts: seq<string>, sources: set<string>,
                            kinds: seq<string>, called: seq<string>) {
    && (forall i :: 0 <= i < |ids| ==> ids[i] in s.nodes)
    && |texts| == |ids| && (forall i :: 0 <= i < |ids| ==> texts[i] == s.nodes[ids[i]].text)
    && |kinds| == |ids| && (forall i :: 0 <= i < |ids| ==> kinds[i] == s.nodes[ids[i]].kind)
    && SourcesOf(s.nodes, ids, sources)
    && called == CalledOf(s.callMappings, ids)
  }

  /** What a finished walk from `seed` guarantees: the members are `visited`
      less `seen`, start at the seed, are distinct nodes, each reached from
      an earlier one, and no successor of theirs is left out of `visited`. */
  ghost predicate Walked(s: GraphState, seen: set<string>, seed: string, visited: set<string>, ids: seq<string>) {
    && (forall x :: x in visited <==> x in seen || x in ids)
    && visited <= s.nodes.Keys
    && ids != [] && ids[0] == seed && NoDup(ids)
    && (forall i :: 0 <= i < |ids| ==> ids[i] in s.nodes && ids[i] !in seen)
    && Linked(s.nodes, ids)
    && ClosedUnder(s.nodes, ids, visited)
  }

  /** Dropping a dequeued id that is already visited or is not a node. */
  lemma SkipKeepsWalking(s: GraphState, seen: set<string>, seed: string, visited: set<string>,
                         ids: seq<string>, parents: seq<nat>, queue: seq<string>, queueParents: seq<nat>)
    requires Walking(s, seen, seed, visited, ids, parents, queue, queueParents)
    requires seed in s.nodes && seed !in seen
    requires queue != [] && (queue[0] in visited || queue[0] !in s.nodes)
    ensures Walking(s, seen, seed, visited, ids, parents, queue[1..], queueParents[1..])
  {
    assert ids != [];
    forall i, m | 0 <= i < |ids| && ids[i] in s.nodes && 0 <= m < |s.nodes[ids[i]].next| && s.nodes[ids[i]].next[m] in s.nodes
      ensures s.nodes[ids[i]].next[m] in visited || s.nodes[ids[i]].next[m] in queue[1..]
    {
      var t := s.nodes[ids[i]].next[m];
      if t !in visited {
        assert t in queue && t != queue[0];
        assert queue == [queue[0]] + queue[1..];
      }
    }
  }

  // Taking the dequeued id `queue[0]` as the next member and queueing its
  // fresh successors after `queue[1..]`, one part of the invariant at a time.

  lemma TakeKeepsTaken(s: GraphState, seen: set<string>, seed: string, visited: set<string>,
                       ids: seq<string>, queue: seq<string>, extended: seq<string>)
    requires WellFormed(s)
    requires Taken(s, seen, seed, visited, ids, queue)
    requires queue != [] && queue[0] !in visited && queue[0] in s.nodes
    ensures Taken(s, seen, seed, visited + {queue[0]}, ids + [s.nodes[queue[0]].id], extended)
  {
    var current := queue[0];
    assert s.nodes[current].id == current;
    assert ids == [] ==> current == seed;
    var ids' := ids + [current];
    forall i, j | 0 <= i < j < |ids'|
      ensures ids'[i] != ids'[j]
    {
      if j == |ids| {
        assert ids[i] in visited;
      }
    }
  }

  lemma TakeKeepsParented(s: GraphState, ids: seq<string>, parents: seq<nat>,
                          queue: seq<string>, queueParents: seq<nat>)
    requires WellFormed(s)
    requires Parented(s, ids, parents) && Queued(s, ids, queue, queueParents)
    requires queue != [] && queue[0] in s.nodes
    ensures Parented(s, ids + [s.nodes[queue[0]].id], parents + [if ids == [] then 0 else queueParents[0]])
  {
    assert s.nodes[queue[0]].id == queue[0];
  }

  lemma TakeKeepsQueued(s: GraphState, ids: seq<string>, queue: seq<string>, queueParents: seq<nat>,
                        visited: set<string>, extended: seq<string>)
    requires WellFormed(s)
    requires Queued(s, ids, queue, queueParents)
    requires queue != [] && queue[0] in s.nodes && (ids == [] ==> |queue| == 1)
    requires extended == queue[1..] + Unvisited(s.nodes, visited, s.nodes[queue[0]].next)
    ensures Queued(s, ids + [s.nodes[queue[0]].id], extended,
                   queueParents[1..] + Repeat(|extended| - (|queue| - 1), |ids|))
  {
    var ids' := ids + [queue[0]];
    var queueParents' := queueParents[1..] + Repeat(|extended| - (|queue| - 1), |ids|);
    assert s.nodes[queue[0]].id == queue[0];
    forall t | 0 <= t < |extended|
      ensures queueParents'[t] < |ids'| && ids'[queueParents'[t]] in s.nodes
      ensures extended[t] in s.nodes[ids'[queueParents'[t]]].next
    {
      if t < |queue| - 1 {
        assert extended[t] == queue[t + 1] && queueParents'[t] == queueParents[t + 1];
        assert ids'[queueParents'[t]] == ids[queueParents[t + 1]];
      } else {
        assert queueParents'[t] == |ids| && ids'[|ids|] == queue[0];
        assert extended[t] in Unvisited(s.nodes, visited, s.nodes[queue[0]].next);
      }
    }
  }

  lemma TakeKeepsFrontier(s: GraphState, ids: seq<string>, visited: set<string>,
                          queue: seq<string>, extended: seq<string>)
    requires WellFormed(s)
    requires Frontier(s, ids, visited, queue)
    requires queue != [] && queue[0] in s.nodes
    requires extended == queue[1..] + Unvisited(s.nodes, visited + {queue[0]}, s.nodes[queue[0]].next)
    ensures Frontier(s, ids + [s.nodes[queue[0]].id], visited + {queue[0]}, extended)
  {
    var current := queue[0];
    var ids' := ids + [current];
    assert s.nodes[current].id == current;
    assert queue == [current] + queue[1..];
    forall i, m | 0 <= i < |ids'| && ids'[i] in s.nodes && 0 <= m < |s.nodes[ids'[i]].next| && s.nodes[ids'[i]].next[m] in s.nodes
      ensures s.nodes[ids'[i]].next[m] in visited + {current} || s.nodes[ids'[i]].next[m] in extended
    {
      if i < |ids| {
        assert ids'[i] == ids[i];
      }
    }
  }

  lemma TakeKeepsWalking(s: GraphState, seen: set<string>, seed: string, visited: set<string>,
                         ids: seq<string>, parents: seq<nat>, queue: seq<string>, queueParents: seq<nat>,
                         extended: seq<string>)
    requires WellFormed(s)
    requires Walking(s, seen, seed, visited, ids, parents, queue, queueParents)
    requires queue != [] && queue[0] !in visited && queue[0] in s.nodes
    requires extended == queue[1..] + Unvisited(s.nodes, visited + {queue[0]}, s.nodes[queue[0]].next)
    ensures Walking(s, seen, seed, visited + {queue[0]}, ids + [s.nodes[queue[0]].id],
                    parents + [if ids == [] then 0 else queueParents[0]], extended,
                    queueParents[1..] + Repeat(|extended| - (|queue| - 1), |ids|))
  {
    TakeKeepsTaken(s, seen, seed, visited, ids, queue, extended);
    TakeKeepsParented(s, ids, parents, queue, queueParents);
    assert ids == [] ==> queue == [seed];
    TakeKeepsQueued(s, ids, queue, queueParents, visited + {queue[0]}, extended);
    TakeKeepsFrontier(s, ids, visited, queue, extended);
  }

  /** The bookkeeping for one more member. */
  lemma TakeKeepsCollected(s: GraphState, ids: seq<string>, texts: seq<string>, sources: set<string>,
                           kinds: seq<string>, called: seq<string>, current: string)
    requires Collected(s, ids, texts, sources, kinds, called)
    requires current in s.nodes
    ensures var n := s.nodes[current];
      Collected(s, ids + [current], texts + [n.text], sources + {n.filePath}, kinds + [n.kind],
                called + (if current in s.callMappings then [s.callMappings[current]] else []))
  {
    CalledOfAppend(s.callMappings, ids, current);
    SourcesOfAppend(s.nodes, ids, sources, current);
  }

  /** With the queue empty, the walk has its final guarantees. */
  lemma WalkingDone(s: GraphState, seen: set<string>, seed: string, visited: set<string>,
                    ids: seq<string>, parents: seq<nat>, queueParents: seq<nat>)
    requires Walking(s, seen, seed, visited, ids, parents, [], queueParents)
    ensures Walked(s, seen, seed, visited, ids)
  {
    forall i | 0 < i < |ids|
      ensures exists p :: 0 <= p < i && ids[p] in s.nodes && ids[i] in s.nodes[ids[p]].next
    {
      assert ids[parents[i]] in s.nodes;
    }
  }

  /** One step of the walk that takes the dequeued node: it joins the chunk,
      its data is collected, and its unvisited successors that are nodes are
      queued. */
  method Take(s: GraphState, seen: set<string>, seed: string, visited: set<string>,
              texts: seq<string>, sources: set<string>, ids: seq<string>, kinds: seq<string>,
              called: seq<string>, ghost parents: seq<nat>, queue: seq<string>, ghost queueParents: seq<nat>)
    returns (visited': set<string>, texts': seq<string>, sources': set<string>, ids': seq<string>,
             kinds': seq<string>, called': seq<string>, ghost parents': seq<nat>, queue': seq<string>,
             ghost queueParents': seq<nat>)
    requires WellFormed(s)
    requires Walking(s, seen, seed, visited, ids, parents, queue, queueParents)
    requires Collected(s, ids, texts, sources, kinds, called)
    requires queue != [] && queue[0] !in visited && queue[0] in s.nodes
    ensures visited' == visited + {queue[0]}
    ensures Walking(s, seen, seed, visited', ids', parents', queue', queueParents')
    ensures Collected(s, ids', texts', sources', kinds', called')
  {
    var current := queue[0];
    var node := s.nodes[current];
    var extended := EnqueueSuccessors(s.nodes, visited + {current}, queue[1..], node.next);
    TakeKeepsWalking(s, seen, seed, visited, ids, parents, queue, queueParents, extended);
    TakeKeepsCollected(s, ids, texts, sources, kinds, called, current);
    parents' := parents + [if ids == [] then 0 else queueParents[0]];
    queueParents' := queueParents[1..] + Repeat(|extended| - (|queue| - 1), |ids|);
    visited' := visited + {current};
    texts' := texts + [node.text];
    sources' := sources + {node.filePath};
    ids' := ids + [node.id];
    kinds' := kinds + [node.kind];
    called' := called;
    if current in s.callMappings {
      called' := called + [s.callMappings[current]];
    }
    queue' := extended;
  }

  /** The breadth-first walk from one seed. Ids already in `seen` are not
      taken again, and ids that are not nodes are skipped. */
  method Traverse(s: GraphState, seen: set<string>, seed: string)
    returns (visited: set<string>, texts: seq<string>, sources: set<string>,
             ids: seq<string>, kinds: seq<string>, called: seq<string>)
    requires WellFormed(s)
    requires seen <= s.nodes.Keys
    requires seed in s.nodes && seed !in seen
    ensures Walked(s, seen, seed, visited, ids)
    ensures Collected(s, ids, texts, sources, kinds, called)
  {
    visited := seen;
    texts, sources, ids, kinds, called := [], {}, [], [], [];
    var queue := [seed];
    ghost var parents: seq<nat> := [];
    ghost var queueParents: seq<nat> := [0];
    while queue != []
      invariant Walking(s, seen, seed, visited, ids, parents, queue, queueParents)
      invariant Collected(s, ids, texts, sources, kinds, called)
      decreases s.nodes.Keys - visited, |queue|
    {
      var current := queue[0];
      if current in visited || current !in s.nodes {
        // Already taken, or a dangling reference (logged): skipped.
        SkipKeepsWalking(s, seen, seed, visited, ids, parents, queue, queueParents);
        queue, queueParents := queue[1..], queueParents[1..];
        continue;
      }
      visited, texts, sources, ids, kinds, called, parents, queue, queueParents :=
        Take(s, seen, seed, visited, texts, sources, ids, kinds, called, parents, queue, queueParents);
    }
    WalkingDone(s, seen, seed, visited, ids, parents, queueParents);
  }

  lemma AppendChunk(s: GraphState, cs: seq<Document>, d: Document)
    requires ChunksInOrder(s, cs) && ChunkOk(s, Seen(cs), d)
    ensures ChunksInOrder(s, cs + [d])
    ensures Seen(cs + [d]) == Seen(cs) + Members(d)
  {
    var grown := cs + [d];
    assert grown[..|grown| - 1] == cs;
    assert grown[|grown| - 1] == d;
  }

  /** What one walk returns, packed as a chunk, is the chunk grown from its
      seed. */
  lemma WalkIsChunk(s: GraphState, before: set<string>, seed: string, visited: set<string>,
                    texts: seq<string>, sources: set<string>, ids: seq<string>, kinds: seq<string>,
                    called: seq<string>, sourceList: seq<string>, d: Document)
    requires Walked(s, before, seed, visited, ids)
    requires Collected(s, ids, texts, sources, kinds, called)
    requires NoDup(sourceList) && forall x :: x in sourceList <==> x in sources
    requires d == Document(JoinLines(texts), Metadata(sourceList, ids, kinds, called))
    ensures visited == before + Members(d) && visited <= s.nodes.Keys
    ensures GrownFrom(s, before, seed, d)
  {
    assert texts == TextsOf(s.nodes, ids);
    assert SourceSet(d) == sources;
  }

  /** Seeing more ids never moves the first unseen one back. */
  lemma {:induction false} FirstUnseenGrows(order: seq<string>, seen: set<string>, more: set<string>)
    requires seen <= more
    ensures FirstUnseen(order, seen) <= FirstUnseen(order, more)
    decreases |order|
  {
    if order != [] && order[0] in seen {
      FirstUnseenGrows(order[1..], seen, more);
    }
  }

  /** The outer loop's invariant after `k` ids of the graph's order: the
      chunks so far follow each other, `visited` holds their members, and
      the first `k` ids are among them. */
  ghost predicate Progress(s: GraphState, chunks: seq<Document>, visited: set<string>, k: nat) {
    && visited == Seen(chunks)
    && visited <= s.nodes.Keys
    && k <= FirstUnseen(s.order, visited)
    && ChunksInOrder(s, chunks)
  }

  lemma SkipKeepsProgress(s: GraphState, chunks: seq<Document>, visited: set<string>, k: nat)
    requires Progress(s, chunks, visited, k)
    requires k < |s.order| && s.order[k] in visited
    ensures Progress(s, chunks, visited, k + 1)
  {
    FirstUnseenSkip(s.order, visited, k);
  }

  /** A taken id at or before the first untaken one lies strictly before it. */
  lemma {:induction false} FirstUnseenSkip(order: seq<string>, seen: set<string>, k: nat)
    requires k < |order| && k <= FirstUnseen(order, seen) && order[k] in seen
    ensures k < FirstUnseen(order, seen)
  {
    if k > 0 {
      FirstUnseenSkip(order[1..], seen, k - 1);
    }
  }

  /** The first unseen id is the seed of the next chunk. */
  lemma SeedIsFirstUnseen(order: seq<string>, seen: set<string>, k: nat)
    requires k < |order| && k <= FirstUnseen(order, seen) && order[k] !in seen
    ensures FirstUnseen(order, seen) == k
  {
  }

  /** Once the seed at `k` is seen, the first unseen id lies past it. */
  lemma FirstUnseenPast(order: seq<string>, seen: set<string>, more: set<string>, k: nat)
    requires seen <= more && k <= FirstUnseen(order, seen)
    requires k < |order| && order[k] in more
    ensures k < FirstUnseen(order, more)
  {
    FirstUnseenGrows(order, seen, more);
  }

  lemma EmitKeepsProgress(s: GraphState, chunks: seq<Document>, visited: set<string>, k: nat,
                          visited': set<string>, d: Document)
    requires Progress(s, chunks, visited, k)
    requires k < |s.order| && s.order[k] !in visited
    requires visited' == visited + Members(d) && visited' <= s.nodes.Keys
    requires GrownFrom(s, visited, s.order[k], d)
    ensures Progress(s, chunks + [d], visited', k + 1)
  {
    SeedIsFirstUnseen(s.order, visited, k);
    assert ChunkOk(s, Seen(chunks), d);
    AppendChunk(s, chunks, d);
    assert d.metadata.nodeIds[0] == s.order[k];
    FirstUnseenPast(s.order, visited, visited', k);
  }

  /** Once every id of the order is visited, the chunks are a chunking. */
  lemma ProgressDone(s: GraphState, chunks: seq<Document>, visited: set<string>)
    requires WellFormed(s)
    requires Progress(s, chunks, visited, |s.order|)
    ensures IsChunking(s, chunks)
  {
    forall x | x in s.nodes
      ensures x in visited
    {
      var i :| 0 <= i < |s.order| && s.order[i] == x;
    }
  }

  /** One pass of the outer loop at a seed no chunk has taken yet: walk from
      it and emit the chunk. */
  method EmitFrom(s: GraphState, chunks: seq<Document>, visited: set<string>, k: nat)
    returns (chunks': seq<Document>, visited': set<string>)
    requires WellFormed(s)
    requires Progress(s, chunks, visited, k)
    requires k < |s.order| && s.order[k] !in visited
    ensures Progress(s, chunks', visited', k + 1)
  {
    var seed := s.order[k];
    var texts, sources, ids, kinds, called;
    visited', texts, sources, ids, kinds, called := Traverse(s, visited, seed);
    chunks' := chunks;
    if texts != [] {
      var sourceList := ListOfSet(sources);
      var doc := Document(JoinLines(texts), Metadata(sourceList, ids, kinds, called));
      WalkIsChunk(s, visited, seed, visited', texts, sources, ids, kinds, called, sourceList, doc);
      EmitKeepsProgress(s, chunks, visited, k, visited', doc);
      chunks' := chunks + [doc];
    }
  }

  method GenerateChunks(g: Graph) returns (chunks: seq<Document>)
    requires g.Valid()
    ensures IsChunking(g.State(), chunks)
  {
    var s := g.State();
    var visited: set<string> := {};
    chunks := [];
    for k := 0 to |s.order|
      invariant Progress(s, chunks, visited, k)
    {
      if s.order[k] in visited {
        SkipKeepsProgress(s, chunks, visited, k);
      } else {
        chunks, visited := EmitFrom(s, chunks, visited, k);
      }
    }
    ProgressDone(s, chunks, visited);
  }
}
