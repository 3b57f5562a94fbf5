/** Filling the graph from one diagram file: which elements become nodes,
    which become call mappings, and which sequence flows become edges. The
    markup library is not modelled; a readable file arrives as its root
    element followed by every element below it, in document order. */
module BpmnParse {
  import opened BpmnGraph

  /** An element as the markup library reports it: the tag (carrying its
      "{namespace}" prefix), the attributes, and the element serialised back
      to markup. */
  datatype Element = Element(tag: string, attributes: map<string, string>, markup: string)

  /** A diagram file: one the markup library rejects, or its root element and
      all elements below the root in document order. */
  datatype SourceFile =
    | Unreadable(path: string)
    | Readable(path: string, root: Element, descendants: seq<Element>)

  /** An attribute's value; a missing attribute reads as "", since the parser
      treats a missing and an empty attribute alike. */
  function Attr(e: Element, name: string): string {
    if name in e.attributes then e.attributes[name] else ""
  }

  /** Lower-casing of one character: the ASCII capitals, and the Kelvin
      sign, whose lower case is the ASCII 'k' (so a tag spelled with it can
      still end in "task"). */
  function LowerChar(c: char): char {
    if 'A' <= c <= 'Z' then (c as int + 32) as char
    else if c == '\U{212A}' then 'k'
    else c
  }

  function Lower(s: string): (r: string)
    ensures |r| == |s|
    ensures forall i :: 0 <= i < |s| ==> r[i] == LowerChar(s[i])
  {
    if s == [] then [] else [LowerChar(s[0])] + Lower(s[1..])
  }

  predicate EndsWith(s: string, suffix: string) {
    |suffix| <= |s| && s[|s| - |suffix|..] == suffix
  }

  /** The five element kinds that become graph nodes, matched on the end of
      the lower-cased tag. */
  predicate IsNodeTag(tag: string) {
    || EndsWith(tag, "task")
    || EndsWith(tag, "startevent")
    || EndsWith(tag, "endevent")
    || EndsWith(tag, "exclusivegateway")
    || EndsWith(tag, "subprocess")
  }

  predicate IsNodeElement(e: Element) {
    Attr(e, "id") != "" && IsNodeTag(Lower(e.tag))
  }

  predicate IsCallElement(e: Element) {
    IsNodeElement(e) && EndsWith(Lower(e.tag), "subprocess") && Attr(e, "calledElement") != ""
  }

  /** The node a node element becomes; it starts with no successors. */
  function ElementNode(path: string, e: Element): Node {
    Node(Attr(e, "id"), e.markup, Lower(e.tag), path, [])
  }

  function RegisterElement(s: GraphState, path: string, e: Element): (r: GraphState)
    ensures !IsNodeElement(e) ==> r == s
    ensures IsNodeElement(e) ==> Attr(e, "id") in r.nodes && r.nodes[Attr(e, "id")] == ElementNode(path, e)
    ensures r.nodes.Keys == s.nodes.Keys + (if IsNodeElement(e) then {Attr(e, "id")} else {})
    ensures WellFormed(s) ==> WellFormed(r)
  {
    if !IsNodeElement(e) then s
    else
      var withNode := PutNode(s, ElementNode(path, e));
      if IsCallElement(e) then PutCall(withNode, Attr(e, "id"), Attr(e, "calledElement")) else withNode
  }

  function RegisterElements(s: GraphState, path: string, es: seq<Element>): (r: GraphState)
    ensures s.nodes.Keys <= r.nodes.Keys
    ensures WellFormed(s) ==> WellFormed(r)
    decreases |es|
  {
    if es == [] then s
    else RegisterElement(RegisterElements(s, path, es[..|es| - 1]), path, es[|es| - 1])
  }

  /** A sequence flow becomes an edge only when it names both ends. */
  predicate IsEdgeFlow(f: Element) {
    Attr(f, "sourceRef") != "" && Attr(f, "targetRef") != ""
  }

  function RegisterFlow(s: GraphState, f: Element): (r: GraphState)
    ensures !IsEdgeFlow(f) ==> r == s
    ensures r.nodes.Keys == s.nodes.Keys && r.order == s.order && r.callMappings == s.callMappings
    ensures WellFormed(s) ==> WellFormed(r)
  {
    if IsEdgeFlow(f) then AppendEdge(s, Attr(f, "sourceRef"), Attr(f, "targetRef")) else s
  }

  function RegisterFlows(s: GraphState, fs: seq<Element>): (r: GraphState)
    ensures r.nodes.Keys == s.nodes.Keys && r.order == s.order && r.callMappings == s.callMappings
    ensures WellFormed(s) ==> WellFormed(r)
    decreases |fs|
  {
    if fs == [] then s
    else RegisterFlow(RegisterFlows(s, fs[..|fs| - 1]), fs[|fs| - 1])
  }

  /** The part of `s` before its first '}' (all of `s` when there is none). */
  function UpToClose(s: string): (r: string)
    ensures '}' !in r
    ensures |r| <= |s| && r == s[..|r|]
    ensures |r| < |s| ==> s[|r|] == '}'
  {
    if s == [] || s[0] == '}' then [] else [s[0]] + UpToClose(s[1..])
  }

  function StripOpenLeft(s: string): (r: string)
    ensures |r| <= |s| && r == s[|s| - |r|..]
    ensures r == [] || r[0] != '{'
    ensures forall i :: 0 <= i < |s| - |r| ==> s[i] == '{'
    ensures forall c :: c in r ==> c in s
  {
    if s != [] && s[0] == '{' then StripOpenLeft(s[1..]) else s
  }

  function StripOpenRight(s: string): (r: string)
    ensures |r| <= |s| && r == s[..|r|]
    ensures r == [] || r[|r| - 1] != '{'
    ensures forall i :: |r| <= i < |s| ==> s[i] == '{'
    ensures forall c :: c in r ==> c in s
  {
    if s != [] && s[|s| - 1] == '{' then StripOpenRight(s[..|s| - 1]) else s
  }

  /** The namespace read off the root tag: the text before the first '}',
      with every leading and trailing '{' removed. */
  function Namespace(rootTag: string): (ns: string)
    ensures '}' !in ns
    ensures ns == [] || (ns[0] != '{' && ns[|ns| - 1] != '{')
  {
    var head := UpToClose(rootTag);
    StripOpenRight(StripOpenLeft(head))
  }

  /** The tag the sequence flows of a document carry: its root's namespace
      in braces, then "sequenceFlow". */
  function FlowTag(ns: string): string {
    "{" + ns + "}sequenceFlow"
  }

  function WithTag(es: seq<Element>, tag: string): (r: seq<Element>)
    ensures |r| <= |es|
    ensures forall e :: e in r <==> e in es && e.tag == tag
    decreases |es|
  {
    if es == [] then []
    else
      var last := es[|es| - 1];
      WithTag(es[..|es| - 1], tag) + (if last.tag == tag then [last] else [])
  }

  /** The sequence flows of a readable file: the elements below the root, in
      document order, whose tag is exactly the flow tag of the root's
      namespace. */
  function SequenceFlows(file: SourceFile): (r: seq<Element>)
    requires file.Readable?
    ensures forall f :: f in r <==> f in file.descendants && f.tag == FlowTag(Namespace(file.root.tag))
  {
    WithTag(file.descendants, FlowTag(Namespace(file.root.tag)))
  }

  /** The effect of one file on the graph: nothing for an unreadable file;
      otherwise every node element of the file (root included), then every
      sequence flow of the file. */
  function ParseFile(s: GraphState, file: SourceFile): (r: GraphState)
    ensures file.Unreadable? ==> r == s
    ensures s.nodes.Keys <= r.nodes.Keys
    ensures WellFormed(s) ==> WellFormed(r)
  {
    match file
    case Unreadable(_) => s
    case Readable(path, root, descendants) =>
      RegisterFlows(RegisterElements(s, path, [root] + descendants), SequenceFlows(file))
  }

  /** One pass of the element loop: a node element becomes a node, and a
      sub-process that names a called element also becomes a call mapping. */
  method AddElement(g: Graph, path: string, e: Element)
    requires g.Valid()
    modifies g
    ensures g.Valid() && g.State() == RegisterElement(old(g.State()), path, e)
  {
    var nodeId := Attr(e, "id");
    if nodeId == "" {
      return;
    }
    var tag := Lower(e.tag);
    if IsNodeTag(tag) {
      g.AddNode(Node(nodeId, e.markup, tag, path, []));
      if EndsWith(tag, "subprocess") {
        var called := Attr(e, "calledElement");
        if called != "" {
          g.AddCallMapping(nodeId, called);
        }
      }
    }
  }

  /** The flow loop: each flow that names both ends is offered to the graph
      as an edge, in document order. */
  method AddFlows(g: Graph, flows: seq<Element>)
    requires g.Valid()
    modifies g
    ensures g.Valid() && g.State() == RegisterFlows(old(g.State()), flows)
  {
    for j := 0 to |flows|
      invariant g.Valid() && g.State() == RegisterFlows(old(g.State()), flows[..j])
    {
      assert flows[..j + 1][..j] == flows[..j];
      var source := Attr(flows[j], "sourceRef");
      var target := Attr(flows[j], "targetRef");
      if source != "" && target != "" {
        g.AddEdge(source, target);
      }
    }
    assert flows[..|flows|] == flows;
  }

  method ParseBpmnFile(file: SourceFile, g: Graph)
    requires g.Valid()
    modifies g
    ensures g.Valid() && g.State() == ParseFile(old(g.State()), file)
  {
    if file.Unreadable? {
      // The failure is logged and the file contributes nothing.
      return;
    }
    var elements := [file.root] + file.descendants;
    ghost var before := g.State();
    for i := 0 to |elements|
      invariant g.Valid() && g.State() == RegisterElements(before, file.path, elements[..i])
    {
      assert elements[..i + 1][..i] == elements[..i];
      AddElement(g, file.path, elements[i]);
    }
    assert elements[..|elements|] == elements;
    AddFlows(g, SequenceFlows(file));
  }

  // Properties of one file's effect on the graph.

  /** Whether `e` registers `k` as a node, or with `call` as a call mapping. */
  predicate Declares(e: Element, k: string, call: bool) {
    Attr(e, "id") == k && (if call then IsCallElement(e) else IsNodeElement(e))
  }

  /** The index of the last element that registers `k` (-1 when none does):
      later registrations overwrite earlier ones. */
  function LastDeclaration(es: seq<Element>, k: string, call: bool): (r: int)
    ensures -1 <= r < |es|
    ensures r >= 0 ==> Declares(es[r], k, call)
    ensures forall j :: r < j < |es| ==> !Declares(es[j], k, call)
    decreases |es|
  {
    if es == [] then -1
    else if Declares(es[|es| - 1], k, call) then |es| - 1
    else LastDeclaration(es[..|es| - 1], k, call)
  }

  /** After the element loop, `k` is the node of the last element declaring
      it (with no successors, so edges recorded for an earlier node of that
      id are gone); if no element declares it, its entry is as before. Ids
      already present keep their place in the node order. */
  lemma {:induction false} RegisteredNodes(s: GraphState, path: string, es: seq<Element>, k: string)
    ensures var r := RegisterElements(s, path, es);
      var i := LastDeclaration(es, k, false);
      && (i >= 0 ==> k in r.nodes && r.nodes[k] == ElementNode(path, es[i]))
      && (i < 0 ==> (k in r.nodes <==> k in s.nodes) && (k in s.nodes ==> r.nodes[k] == s.nodes[k]))
      && |s.order| <= |r.order| && r.order[..|s.order|] == s.order
    decreases |es|
  {
    if es != [] {
      var init := es[..|es| - 1];
      RegisteredNodes(s, path, init, k);
      var mid := RegisterElements(s, path, init);
      var r := RegisterElements(s, path, es);
      assert r.order[..|mid.order|] == mid.order;
      assert r.order[..|s.order|] == mid.order[..|s.order|];
    }
  }

  /** After the element loop, `k` maps to the called element of the last
      sub-process declaring a call for it; otherwise its mapping is as
      before. A node element without a called element leaves an earlier
      mapping of its id in place. */
  lemma {:induction false} RegisteredCalls(s: GraphState, path: string, es: seq<Element>, k: string)
    ensures var r := RegisterElements(s, path, es);
      var i := LastDeclaration(es, k, true);
      && (i >= 0 ==> k in r.callMappings && r.callMappings[k] == Attr(es[i], "calledElement"))
      && (i < 0 ==> (k in r.callMappings <==> k in s.callMappings)
                    && (k in s.callMappings ==> r.callMappings[k] == s.callMappings[k]))
    decreases |es|
  {
    if es != [] {
      RegisteredCalls(s, path, es[..|es| - 1], k);
    }
  }

  /** The targets of the flows that leave `k` and name both ends, in order. */
  function TargetsFrom(k: string, fs: seq<Element>): (r: seq<string>)
    ensures forall t :: t in r ==>
      exists f :: f in fs && IsEdgeFlow(f) && Attr(f, "sourceRef") == k && Attr(f, "targetRef") == t
    decreases |fs|
  {
    if fs == [] then []
    else
      var last := fs[|fs| - 1];
      TargetsFrom(k, fs[..|fs| - 1])
        + (if IsEdgeFlow(last) && Attr(last, "sourceRef") == k then [Attr(last, "targetRef")] else [])
  }

  /** Every flow that names both ends and leaves `k` contributes its target. */
  lemma {:induction false} TargetsFromComplete(k: string, fs: seq<Element>, f: Element)
    requires f in fs && IsEdgeFlow(f) && Attr(f, "sourceRef") == k
    ensures Attr(f, "targetRef") in TargetsFrom(k, fs)
    decreases |fs|
  {
    var init, last := fs[..|fs| - 1], fs[|fs| - 1];
    if f != last {
      assert f in init;
      TargetsFromComplete(k, init, f);
    }
  }

  /** The flow loop adds no node, keeps the order and the call mappings, and
      extends each node's successors by the targets of the flows leaving it. */
  lemma {:induction false} FlowsExtendSuccessors(s: GraphState, fs: seq<Element>, k: string)
    ensures var r := RegisterFlows(s, fs);
      && r.order == s.order && r.callMappings == s.callMappings && r.nodes.Keys == s.nodes.Keys
      && (k in s.nodes ==> r.nodes[k] == s.nodes[k].(next := s.nodes[k].next + TargetsFrom(k, fs)))
    decreases |fs|
  {
    if fs != [] {
      var init, last := fs[..|fs| - 1], fs[|fs| - 1];
      FlowsExtendSuccessors(s, init, k);
      var mid := RegisterFlows(s, init);
      assert RegisterFlows(s, fs) == RegisterFlow(mid, last);
      assert TargetsFrom(k, fs) == TargetsFrom(k, init)
        + (if IsEdgeFlow(last) && Attr(last, "sourceRef") == k then [Attr(last, "targetRef")] else []);
    }
  }

  /** A whole file: a node declared in the file is the last declaring
      element's node, and its successors are exactly the targets of the
      file's flows that leave it, wherever in the file those flows stand
      (flows are applied after all elements). A node not declared in the
      file keeps its data and gains the file's flows that leave it. */
  lemma ParsedNode(s: GraphState, file: SourceFile, k: string)
    requires file.Readable?
    ensures var r := ParseFile(s, file);
      var es := [file.root] + file.descendants;
      var i := LastDeclaration(es, k, false);
      var added := TargetsFrom(k, SequenceFlows(file));
      && (i >= 0 ==> k in r.nodes && r.nodes[k] == ElementNode(file.path, es[i]).(next := added))
      && (i < 0 ==> (k in r.nodes <==> k in s.nodes)
                    && (k in s.nodes ==> r.nodes[k] == s.nodes[k].(next := s.nodes[k].next + added)))
      && |s.order| <= |r.order| && r.order[..|s.order|] == s.order
  {
    ElementsThenFlows(s, file.path, [file.root] + file.descendants, SequenceFlows(file), k);
  }

  lemma ElementsThenFlows(s: GraphState, path: string, es: seq<Element>, flows: seq<Element>, k: string)
    ensures var r := RegisterFlows(RegisterElements(s, path, es), flows);
      var i := LastDeclaration(es, k, false);
      var added := TargetsFrom(k, flows);
      && (i >= 0 ==> k in r.nodes && r.nodes[k] == ElementNode(path, es[i]).(next := added))
      && (i < 0 ==> (k in r.nodes <==> k in s.nodes)
                    && (k in s.nodes ==> r.nodes[k] == s.nodes[k].(next := s.nodes[k].next + added)))
      && |s.order| <= |r.order| && r.order[..|s.order|] == s.order
  {
    var mid := RegisterElements(s, path, es);
    RegisteredNodes(s, path, es, k);
    FlowsExtendSuccessors(mid, flows, k);
  }

  /** A whole file: call mappings come from the element loop alone. */
  lemma ParsedCall(s: GraphState, file: SourceFile, k: string)
    requires file.Readable?
    ensures var r := ParseFile(s, file);
      var es := [file.root] + file.descendants;
      var i := LastDeclaration(es, k, true);
      && (i >= 0 ==> k in r.callMappings && r.callMappings[k] == Attr(es[i], "calledElement"))
      && (i < 0 ==> (k in r.callMappings <==> k in s.callMappings)
                    && (k in s.callMappings ==> r.callMappings[k] == s.callMappings[k]))
  {
    var es := [file.root] + file.descendants;
    RegisteredCalls(s, file.path, es, k);
    FlowsExtendSuccessors(RegisterElements(s, file.path, es), SequenceFlows(file), k);
  }

  /** A tag spelled with the Kelvin sign in place of its last 'k' is still a
      task: the lower-cased tag ends in "task". */
  lemma KelvinTaskIsNode(prefix: string, e: Element)
    requires e.tag == prefix + "tas\U{212A}" && Attr(e, "id") != ""
    ensures IsNodeElement(e)
  {
    var low := Lower(e.tag);
    assert low[|low| - 4..] == "task";
  }

  /** A root tag without braces is its own namespace, so the flows searched
      for are "{tag}sequenceFlow"; elements the markup library reports carry
      no such tag, and the file then gains nodes but no edges. */
  lemma NamespaceOfPlainTag(tag: string)
    requires '{' !in tag && '}' !in tag
    ensures Namespace(tag) == tag
    ensures FlowTag(Namespace(tag)) == "{" + tag + "}sequenceFlow"
  {
    var head := UpToClose(tag);
    assert |head| == |tag|;
    var left := StripOpenLeft(head);
    assert |left| == |head|;
    var ns := StripOpenRight(left);
    assert |ns| == |left|;
  }

  /** For a root tag of the form "{uri}local" the namespace is the uri, so
      the flows searched for are the "{uri}sequenceFlow" elements. */
  lemma NamespaceOfQualifiedTag(uri: string, local: string)
    requires '{' !in uri && '}' !in uri
    ensures Namespace("{" + uri + "}" + local) == uri
  {
    var tag := "{" + uri + "}" + local;
    var head := UpToClose(tag);
    assert tag[|uri| + 1] == '}';
    assert forall j :: 0 <= j <= |uri| ==> tag[j] != '}';
    assert |head| == |uri| + 1;
    assert head == tag[..|uri| + 1] == "{" + uri;
    var left := StripOpenLeft(head);
    assert head[0] == '{' && (|head| > 1 ==> head[1] != '{');
    assert |left| < |head|;
    assert |left| == |uri|;
    assert left == uri;
    assert left == [] || left[|left| - 1] != '{';
  }
}
