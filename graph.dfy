/** The process-diagram graph: nodes keyed by element id, each with its
    outgoing sequence-flow targets, and a side table of call mappings from a
    sub-process node to the id of the process it calls. */
module BpmnGraph {

  /** One diagram element that became a graph node. `text` is the element's
      serialised markup, `kind` its lower-cased tag, `next` the targets of the
      sequence flows leaving it, in the order they were added. */
  datatype Node = Node(id: string, text: string, kind: string, filePath: string, next: seq<string>)

  /** The value held by a graph. `order` lists the node ids in the order the
      node dictionary iterates them (first insertion of each id). */
  datatype GraphState = GraphState(order: seq<string>, nodes: map<string, Node>, callMappings: map<string, string>)

  const EmptyGraph := GraphState([], map[], map[])

  predicate NoDup<T(==)>(s: seq<T>) {
    forall i, j :: 0 <= i < j < |s| ==> s[i] != s[j]
  }

  /** The dictionary invariant: the iteration order lists every key exactly
      once, and every node is stored under its own id. */
  ghost predicate WellFormed(s: GraphState) {
    && NoDup(s.order)
    && (forall i :: 0 <= i < |s.order| ==> s.order[i] in s.nodes)
    && (forall k :: k in s.nodes ==> k in s.order)
    && (forall k :: k in s.nodes ==> s.nodes[k].id == k)
  }

  /** Storing `n` under its id: a new id goes to the end of the iteration
      order, an existing id keeps its place and its old node is replaced. */
  function PutNode(s: GraphState, n: Node): (r: GraphState)
    ensures r.nodes.Keys == s.nodes.Keys + {n.id}
    ensures r.nodes[n.id] == n
    ensures forall k :: k in s.nodes && k != n.id ==> r.nodes[k] == s.nodes[k]
    ensures r.callMappings == s.callMappings
    ensures |s.order| <= |r.order| && r.order[..|s.order|] == s.order
    ensures n.id in s.nodes ==> r.order == s.order
    ensures WellFormed(s) ==> WellFormed(r)
  {
    var order := if n.id in s.nodes then s.order else s.order + [n.id];
    GraphState(order, s.nodes[n.id := n], s.callMappings)
  }

  /** Recording a sequence flow: the target is appended to the source's
      successor list when the source is a node; otherwise nothing changes.
      The target is never looked up, so it may name no node at all. */
  function AppendEdge(s: GraphState, from: string, to: string): (r: GraphState)
    ensures from !in s.nodes ==> r == s
    ensures r.nodes.Keys == s.nodes.Keys
    ensures from in s.nodes ==> r.nodes[from] == s.nodes[from].(next := s.nodes[from].next + [to])
    ensures forall k :: k in s.nodes && k != from ==> r.nodes[k] == s.nodes[k]
    ensures r.order == s.order && r.callMappings == s.callMappings
    ensures WellFormed(s) ==> WellFormed(r)
  {
    if from in s.nodes then
      var n := s.nodes[from];
      s.(nodes := s.nodes[from := n.(next := n.next + [to])])
    else
      s
  }

  /** Recording a call mapping; the node id is not looked up. */
  function PutCall(s: GraphState, nodeId: string, calledProcess: string): (r: GraphState)
    ensures r.callMappings.Keys == s.callMappings.Keys + {nodeId}
    ensures r.callMappings[nodeId] == calledProcess
    ensures forall k :: k in s.callMappings && k != nodeId ==> r.callMappings[k] == s.callMappings[k]
    ensures r.order == s.order && r.nodes == s.nodes
    ensures WellFormed(s) ==> WellFormed(r)
  {
    s.(callMappings := s.callMappings[nodeId := calledProcess])
  }

  /** The mutable graph that the parser fills and the chunker reads. */
  class Graph {
    var order: seq<string>
    var nodes: map<string, Node>
    var callMappings: map<string, string>

    function State(): GraphState
      reads this
    {
      GraphState(order, nodes, callMappings)
    }

    ghost predicate Valid()
      reads this
    {
      WellFormed(State())
    }

    constructor ()
      ensures Valid() && State() == EmptyGraph
    {
      order, nodes, callMappings := [], map[], map[];
    }

    method AddNode(node: Node)
      requires Valid()
      modifies this
      ensures Valid() && State() == PutNode(old(State()), node)
    {
      if node.id !in nodes {
        order := order + [node.id];
      }
      nodes := nodes[node.id := node];
    }

    method AddEdge(fromId: string, toId: string)
      requires Valid()
      modifies this
      ensures Valid() && State() == AppendEdge(old(State()), fromId, toId)
    {
      if fromId in nodes {
        var n := nodes[fromId];
        nodes := nodes[fromId := n.(next := n.next + [toId])];
      }
    }

    method AddCallMapping(nodeId: string, calledProcessId: string)
      requires Valid()
      modifies this
      ensures Valid() && State() == PutCall(old(State()), nodeId, calledProcessId)
    {
      callMappings := callMappings[nodeId := calledProcessId];
    }
  }
}
