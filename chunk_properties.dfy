/** What the chunking promises about a graph as a whole, derived from the
    per-chunk conditions that GenerateChunks is proved to meet. */
module ChunkProperties {
  import opened BpmnGraph
  import opened BpmnChunks

  // Chunk text.

  lemma {:induction false} NoNewlineIndex(line: string)
    requires '\n' !in line
    ensures IndexOfNewline(line) == |line|
    decreases |line|
  {
    if line != [] {
      assert line[0] in line;
      assert forall c :: c in line[1..] ==> c in line;
      NoNewlineIndex(line[1..]);
    }
  }

  lemma {:induction false} NewlineAfter(line: string, rest: string)
    requires '\n' !in line
    ensures IndexOfNewline(line + "\n" + rest) == |line|
    decreases |line|
  {
    if line != [] {
      assert line[0] in line;
      assert forall c :: c in line[1..] ==> c in line;
      assert (line + "\n" + rest)[1..] == line[1..] + "\n" + rest;
      NewlineAfter(line[1..], rest);
    }
  }

  /** Cutting a chunk's text at newlines gives back the member texts, as long
      as no member text holds a newline of its own. */
  lemma {:induction false} SplitJoinLines(lines: seq<string>)
    requires |lines| >= 1
    requires forall i :: 0 <= i < |lines| ==> '\n' !in lines[i]
    ensures SplitLines(JoinLines(lines)) == lines
    decreases |lines|
  {
    var head := lines[0];
    if |lines| == 1 {
      NoNewlineIndex(head);
    } else {
      var tail := lines[1..];
      var rest := JoinLines(tail);
      var text := head + "\n" + rest;
      assert '\n' !in head;
      NewlineAfter(head, rest);
      assert text[..|head|] == head;
      assert text[|head| + 1..] == rest;
      assert SplitLines(text) == [head] + SplitLines(rest);
      assert forall i :: 0 <= i < |tail| ==> tail[i] == lines[i + 1];
      SplitJoinLines(tail);
      assert [head] + tail == lines;
    }
  }

  // Called processes.

  /** A called-process id is listed exactly when some member has it as its
      call mapping; the id itself need not be a node. */
  lemma {:induction false} CalledOfMembers(calls: map<string, string>, ids: seq<string>, x: string)
    ensures x in CalledOf(calls, ids) <==> exists i :: 0 <= i < |ids| && ids[i] in calls && calls[ids[i]] == x
    decreases |ids|
  {
    if ids != [] {
      var init := ids[..|ids| - 1];
      var last := ids[|ids| - 1];
      CalledOfMembers(calls, init, x);
      if x in CalledOf(calls, init) {
        var i :| 0 <= i < |init| && init[i] in calls && calls[init[i]] == x;
        assert ids[i] == init[i];
      }
      if exists i :: 0 <= i < |ids| && ids[i] in calls && calls[ids[i]] == x {
        var i :| 0 <= i < |ids| && ids[i] in calls && calls[ids[i]] == x;
        if i < |init| {
          assert init[i] == ids[i];
        }
      }
    }
  }

  // The chunk sequence, chunk by chunk.

  /** An id was taken by the given chunks exactly when one of them lists it. */
  lemma {:induction false} SeenMembers(cs: seq<Document>, x: string)
    ensures x in Seen(cs) <==> exists j :: 0 <= j < |cs| && x in cs[j].metadata.nodeIds
    decreases |cs|
  {
    if cs != [] {
      var init := cs[..|cs| - 1];
      SeenMembers(init, x);
      if x in Seen(init) {
        var j :| 0 <= j < |init| && x in init[j].metadata.nodeIds;
        assert cs[j] == init[j];
      }
      if exists j :: 0 <= j < |cs| && x in cs[j].metadata.nodeIds {
        var j :| 0 <= j < |cs| && x in cs[j].metadata.nodeIds;
        if j < |init| {
          assert init[j] == cs[j];
        }
      }
    }
  }

  /** Each chunk of an ordered chunk sequence follows the ones before it. */
  lemma {:induction false} ChunkAt(s: GraphState, cs: seq<Document>, j: nat)
    requires ChunksInOrder(s, cs) && j < |cs|
    ensures ChunkOk(s, Seen(cs[..j]), cs[j])
    decreases |cs|
  {
    var init := cs[..|cs| - 1];
    if j < |cs| - 1 {
      ChunkAt(s, init, j);
      assert init[..j] == cs[..j] && init[j] == cs[j];
    }
  }

  /** The chunks before the `j`-th took exactly what the first `j` chunks list. */
  lemma SeenPrefix(cs: seq<Document>, j: nat, x: string)
    requires j <= |cs|
    ensures x in Seen(cs[..j]) <==> exists i :: 0 <= i < j && x in cs[i].metadata.nodeIds
  {
    SeenMembers(cs[..j], x);
    if exists i :: 0 <= i < j && x in cs[i].metadata.nodeIds {
      var i :| 0 <= i < j && x in cs[i].metadata.nodeIds;
      assert cs[..j][i] == cs[i];
    }
  }

  /** Every node of the graph lies in some chunk, and every id a chunk lists
      is a node: an id that only occurs as a dangling successor never appears. */
  lemma EveryNodeInSomeChunk(s: GraphState, cs: seq<Document>, x: string)
    requires IsChunking(s, cs)
    ensures x in s.nodes <==> exists j :: 0 <= j < |cs| && x in cs[j].metadata.nodeIds
  {
    SeenMembers(cs, x);
  }

  /** No id lies in two chunks, nor twice in one. */
  lemma NoIdInTwoChunks(s: GraphState, cs: seq<Document>, j1: nat, j2: nat, x: string)
    requires IsChunking(s, cs)
    requires j1 < j2 < |cs| && x in cs[j1].metadata.nodeIds
    ensures x !in cs[j2].metadata.nodeIds
    ensures NoDup(cs[j1].metadata.nodeIds)
  {
    ChunkAt(s, cs, j1);
    ChunkAt(s, cs, j2);
    SeenPrefix(cs, j2, x);
    assert x in Seen(cs[..j2]);
  }

  /** The seed of the `j`-th chunk is the first id of the order that no
      earlier chunk took. */
  lemma SeedOf(s: GraphState, cs: seq<Document>, j: nat)
    requires ChunksInOrder(s, cs) && j < |cs|
    ensures FirstUnseen(s.order, Seen(cs[..j])) < |s.order|
    ensures cs[j].metadata.nodeIds != []
    ensures cs[j].metadata.nodeIds[0] == s.order[FirstUnseen(s.order, Seen(cs[..j]))]
  {
    ChunkAt(s, cs, j);
  }

  /** A chunk lists a called-process id exactly when one of its members has
      that id as its call mapping. */
  lemma CalledProcessesOfChunk(s: GraphState, cs: seq<Document>, j: nat, x: string)
    requires IsChunking(s, cs) && j < |cs|
    ensures var ids := cs[j].metadata.nodeIds;
      x in cs[j].metadata.calledProcesses <==>
        exists i :: 0 <= i < |ids| && ids[i] in s.callMappings && s.callMappings[ids[i]] == x
  {
    ChunkAt(s, cs, j);
    CalledOfMembers(s.callMappings, cs[j].metadata.nodeIds, x);
  }

  /** A chunk's sources are the files of its members, each listed once. */
  lemma SourcesOfChunk(s: GraphState, cs: seq<Document>, j: nat, f: string)
    requires IsChunking(s, cs) && j < |cs|
    ensures NoDup(cs[j].metadata.sources)
    ensures var ids := cs[j].metadata.nodeIds;
      f in cs[j].metadata.sources <==> exists i :: 0 <= i < |ids| && ids[i] in s.nodes && s.nodes[ids[i]].filePath == f
  {
    ChunkAt(s, cs, j);
    assert f in cs[j].metadata.sources <==> f in SourceSet(cs[j]);
  }

  /** Seeds come in the graph's order: a later chunk starts at a later
      position of the order. */
  lemma SeedsInOrder(s: GraphState, cs: seq<Document>, j1: nat, j2: nat)
    requires ChunksInOrder(s, cs)
    requires j1 < j2 < |cs|
    ensures FirstUnseen(s.order, Seen(cs[..j1])) < FirstUnseen(s.order, Seen(cs[..j2]))
  {
    SeedOf(s, cs, j1);
    var before1, before2 := Seen(cs[..j1]), Seen(cs[..j2]);
    SeenGrows(cs, j1 + 1, j2);
    SeenStep(cs, j1 + 1);
    FirstUnseenGrows(s.order, before1, before2);
    FirstUnseenSkip(s.order, before2, FirstUnseen(s.order, before1));
  }

  /** Ids taken by a prefix of the chunks stay taken by every longer prefix. */
  lemma {:induction false} SeenGrows(cs: seq<Document>, j1: nat, j2: nat)
    requires j1 <= j2 <= |cs|
    ensures Seen(cs[..j1]) <= Seen(cs[..j2])
    decreases j2
  {
    if j1 < j2 {
      SeenGrows(cs, j1, j2 - 1);
      SeenStep(cs, j2);
    }
  }

  /** The graph has no nodes exactly when there are no chunks. */
  lemma NoChunksIffEmptyGraph(s: GraphState, cs: seq<Document>)
    requires IsChunking(s, cs)
    ensures cs == [] <==> s.nodes == map[]
  {
    if cs != [] {
      ChunkAt(s, cs, 0);
      var seed := cs[0].metadata.nodeIds[0];
      SeenMembers(cs, seed);
      assert seed in s.nodes;
    }
  }

  // Reachability.

  /** `path` follows successor lists from node to node. */
  ghost predicate IsPath(nodes: map<string, Node>, path: seq<string>) {
    && |path| >= 1
    && forall k :: 0 <= k < |path| - 1 ==> path[k] in nodes && path[k + 1] in nodes[path[k]].next
  }

  ghost predicate Reachable(nodes: map<string, Node>, from: string, to: string) {
    exists path :: IsPath(nodes, path) && path[0] == from && path[|path| - 1] == to
  }

  /** Every member of a linked list of ids is reachable from its first. */
  lemma {:induction false} LinkedReachable(nodes: map<string, Node>, ids: seq<string>, i: nat)
    requires Linked(nodes, ids) && i < |ids|
    ensures Reachable(nodes, ids[0], ids[i])
    decreases i
  {
    if i == 0 {
      assert IsPath(nodes, [ids[0]]);
    } else {
      var target := ids[i];
      var p :| 0 <= p < i && ids[p] in nodes && target in nodes[ids[p]].next;
      LinkedReachable(nodes, ids, p);
      var path :| IsPath(nodes, path) && path[0] == ids[0] && path[|path| - 1] == ids[p];
      ExtendPath(nodes, path, target);
      var longer := path + [target];
      assert longer[0] == ids[0] && longer[|longer| - 1] == target;
    }
  }

  /** A path can be extended by a successor of its last id. */
  lemma ExtendPath(nodes: map<string, Node>, path: seq<string>, x: string)
    requires IsPath(nodes, path)
    requires path[|path| - 1] in nodes && x in nodes[path[|path| - 1]].next
    ensures IsPath(nodes, path + [x])
  {
    var longer := path + [x];
    forall k | 0 <= k < |longer| - 1
      ensures longer[k] in nodes && longer[k + 1] in nodes[longer[k]].next
    {
      if k < |path| - 1 {
        assert longer[k] == path[k] && longer[k + 1] == path[k + 1];
      } else {
        assert longer[k] == path[|path| - 1] && longer[k + 1] == x;
      }
    }
  }

  /** Every member of a chunk is reachable from the chunk's seed. */
  lemma ChunkMembersReachable(s: GraphState, cs: seq<Document>, j: nat, i: nat)
    requires IsChunking(s, cs)
    requires j < |cs| && i < |cs[j].metadata.nodeIds|
    ensures Reachable(s.nodes, cs[j].metadata.nodeIds[0], cs[j].metadata.nodeIds[i])
  {
    ChunkAt(s, cs, j);
    LinkedReachable(s.nodes, cs[j].metadata.nodeIds, i);
  }

  /** A successor that is a node, of a member of a closed chunk, is taken. */
  lemma SuccessorInClosed(nodes: map<string, Node>, ids: seq<string>, seen: set<string>, p: nat, y: string)
    requires ClosedUnder(nodes, ids, seen)
    requires p < |ids| && ids[p] in nodes && y in nodes[ids[p]].next && y in nodes
    ensures y in seen
  {
    var m :| 0 <= m < |nodes[ids[p]].next| && nodes[ids[p]].next[m] == y;
  }

  /** A successor that is a node, of an id taken by the first `j` chunks, is
      taken by them too. */
  lemma SuccessorTaken(s: GraphState, cs: seq<Document>, j: nat, x: string, y: string)
    requires ChunksInOrder(s, cs) && j <= |cs|
    requires x in Seen(cs[..j]) && x in s.nodes && y in s.nodes[x].next && y in s.nodes
    ensures y in Seen(cs[..j])
  {
    SeenPrefix(cs, j, x);
    var i :| 0 <= i < j && x in cs[i].metadata.nodeIds;
    var before := Seen(cs[..i]);
    ChunkAt(s, cs, i);
    assert GrownFrom(s, before, s.order[FirstUnseen(s.order, before)], cs[i]);
    var ids := cs[i].metadata.nodeIds;
    var p :| 0 <= p < |ids| && ids[p] == x;
    SuccessorInClosed(s.nodes, ids, before + Members(cs[i]), p, y);
    SeenStep(cs, i + 1);
    SeenGrows(cs, i + 1, j);
  }

  /** Every node a chunk's seed reaches is taken by that chunk or an earlier
      one: walking never stops at a successor that is a node. */
  lemma {:induction false} ReachedIsTaken(s: GraphState, cs: seq<Document>, j: nat, path: seq<string>, n: nat)
    requires ChunksInOrder(s, cs) && j < |cs|
    requires IsPath(s.nodes, path) && path[|path| - 1] in s.nodes
    requires cs[j].metadata.nodeIds != [] && path[0] == cs[j].metadata.nodeIds[0]
    requires n < |path|
    ensures path[n] in Seen(cs[..j + 1])
    decreases n
  {
    if n == 0 {
      assert path[0] in cs[j].metadata.nodeIds;
      SeenPrefix(cs, j + 1, path[0]);
    } else {
      ReachedIsTaken(s, cs, j, path, n - 1);
      assert n < |path| - 1 ==> path[n] in s.nodes;
      SuccessorTaken(s, cs, j + 1, path[n - 1], path[n]);
    }
  }

  /** A node not taken by the first `j` chunks is reachable from none of
      their seeds. */
  lemma UnreachedBefore(s: GraphState, cs: seq<Document>, i: nat, j: nat, y: string)
    requires ChunksInOrder(s, cs) && i < j <= |cs| && cs[i].metadata.nodeIds != []
    requires y in s.nodes && y !in Seen(cs[..j])
    ensures !Reachable(s.nodes, cs[i].metadata.nodeIds[0], y)
  {
    SeenGrows(cs, i + 1, j);
    forall path | IsPath(s.nodes, path) && path[0] == cs[i].metadata.nodeIds[0] && path[|path| - 1] == y
      ensures y in Seen(cs[..i + 1])
    {
      ReachedIsTaken(s, cs, i, path, |path| - 1);
    }
  }

  /** A member of the `j`-th chunk is reachable from its seed and from no
      earlier chunk's seed: each id lies in the chunk of the earliest seed,
      in the graph's order, that reaches it. */
  lemma EarliestReachingSeed(s: GraphState, cs: seq<Document>, j: nat, y: string)
    requires IsChunking(s, cs)
    requires j < |cs| && y in cs[j].metadata.nodeIds
    ensures Reachable(s.nodes, cs[j].metadata.nodeIds[0], y)
    ensures forall i :: 0 <= i < j && cs[i].metadata.nodeIds != [] ==>
      !Reachable(s.nodes, cs[i].metadata.nodeIds[0], y)
  {
    var ids := cs[j].metadata.nodeIds;
    var k :| 0 <= k < |ids| && ids[k] == y;
    ChunkMembersReachable(s, cs, j, k);
    ChunkAt(s, cs, j);
    var before := Seen(cs[..j]);
    assert GrownFrom(s, before, s.order[FirstUnseen(s.order, before)], cs[j]);
    assert y !in before && y in s.nodes;
    forall i | 0 <= i < j && cs[i].metadata.nodeIds != []
      ensures !Reachable(s.nodes, cs[i].metadata.nodeIds[0], y)
    {
      UnreachedBefore(s, cs, i, j, y);
    }
  }

  // The chunking is determined by the graph.

  /** A member of one walk from the seed is a member of any other walk from
      the same seed that leaves no successor behind. */
  lemma {:induction false} WalkMemberIn(nodes: map<string, Node>, before: set<string>,
                                        ids1: seq<string>, ids2: seq<string>, i: nat)
    requires Linked(nodes, ids1)
    requires forall k :: 0 <= k < |ids1| ==> ids1[k] in nodes && ids1[k] !in before
    requires ids1 != [] && ids2 != [] && ids1[0] == ids2[0]
    requires ClosedUnder(nodes, ids2, before + set x | x in ids2)
    requires i < |ids1|
    ensures ids1[i] in ids2
    decreases i
  {
    if i == 0 {
      assert ids2[0] in ids2;
    } else {
      var target := ids1[i];
      var p :| 0 <= p < i && ids1[p] in nodes && target in nodes[ids1[p]].next;
      WalkMemberIn(nodes, before, ids1, ids2, p);
      var q :| 0 <= q < |ids2| && ids2[q] == ids1[p];
      var next := nodes[ids2[q]].next;
      var m :| 0 <= m < |next| && next[m] == ids1[i];
      assert next[m] in before + set x | x in ids2;
    }
  }

  /** Two chunks grown from the same seed after the same ids were taken have
      the same members (they may list them in different orders). */
  lemma GrownFromSameMembers(s: GraphState, before: set<string>, seed: string, d1: Document, d2: Document)
    requires GrownFrom(s, before, seed, d1) && GrownFrom(s, before, seed, d2)
    ensures Members(d1) == Members(d2)
  {
    var ids1, ids2 := d1.metadata.nodeIds, d2.metadata.nodeIds;
    forall i | 0 <= i < |ids1|
      ensures ids1[i] in ids2
    {
      WalkMemberIn(s.nodes, before, ids1, ids2, i);
    }
    forall i | 0 <= i < |ids2|
      ensures ids2[i] in ids1
    {
      WalkMemberIn(s.nodes, before, ids2, ids1, i);
    }
  }

  lemma SameMembersAt(s: GraphState, a: seq<Document>, b: seq<Document>, n: nat)
    requires ChunksInOrder(s, a) && ChunksInOrder(s, b)
    requires n < |a| && n < |b| && Seen(a[..n]) == Seen(b[..n])
    ensures Members(a[n]) == Members(b[n])
  {
    ChunkAt(s, a, n);
    ChunkAt(s, b, n);
    var before := Seen(a[..n]);
    GrownFromSameMembers(s, before, s.order[FirstUnseen(s.order, before)], a[n], b[n]);
  }

  lemma SeenStep(cs: seq<Document>, n: nat)
    requires 0 < n <= |cs|
    ensures Seen(cs[..n]) == Seen(cs[..n - 1]) + Members(cs[n - 1])
  {
    assert cs[..n][..n - 1] == cs[..n - 1];
  }

  lemma {:induction false} SamePrefix(s: GraphState, a: seq<Document>, b: seq<Document>, n: nat)
    requires ChunksInOrder(s, a) && ChunksInOrder(s, b)
    requires n <= |a| && n <= |b|
    ensures Seen(a[..n]) == Seen(b[..n])
    decreases n
  {
    if n > 0 {
      SamePrefix(s, a, b, n - 1);
      SameMembersAt(s, a, b, n - 1);
      SeenStep(a, n);
      SeenStep(b, n);
    }
  }

  /** In a well-formed graph, once every node is taken no id of the order is
      left. */
  lemma AllOrderSeen(s: GraphState, seen: set<string>)
    requires WellFormed(s) && s.nodes.Keys <= seen
    ensures FirstUnseen(s.order, seen) == |s.order|
  {
  }

  /** A chunking goes on past its `n`-th chunk exactly when the chunks before
      it left some id of the order untaken. */
  lemma MoreChunksIffUnseen(s: GraphState, cs: seq<Document>, n: nat)
    requires WellFormed(s) && IsChunking(s, cs) && n <= |cs|
    ensures n < |cs| <==> FirstUnseen(s.order, Seen(cs[..n])) < |s.order|
  {
    if n < |cs| {
      SeedOf(s, cs, n);
    } else {
      assert cs[..n] == cs;
      AllOrderSeen(s, Seen(cs));
    }
  }

  /** Two chunkings of one graph agree chunk by chunk on their members: the
      chunking is fixed by the graph up to the order of members inside a
      chunk. */
  lemma ChunkingIsUnique(s: GraphState, a: seq<Document>, b: seq<Document>)
    requires WellFormed(s)
    requires IsChunking(s, a) && IsChunking(s, b)
    ensures |a| == |b|
    ensures forall j :: 0 <= j < |a| ==> Members(a[j]) == Members(b[j])
  {
    var n := if |a| <= |b| then |a| else |b|;
    SamePrefix(s, a, b, n);
    MoreChunksIffUnseen(s, a, n);
    MoreChunksIffUnseen(s, b, n);
    forall j | 0 <= j < |a|
      ensures Members(a[j]) == Members(b[j])
    {
      SamePrefix(s, a, b, j);
      SameMembersAt(s, a, b, j);
    }
  }
}
