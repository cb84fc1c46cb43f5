/** `xml_message_create` for SetParameterValues: the tree that is grown for a map of parameters, and
    what the reader of an inform would make of it. Nodes are added one by one and inherit the
    namespace of their parent. */
module XmlCreate {
  import opened Wrappers
  import opened XmlTree
  import XmlAnalyze

  /** A libxml2 node. Nodes are kept in the order of their creation, children come after parents. */
  datatype Node = Node(ns: Namespace, name: string, text: string, arrayType: Option<nat>, kids: seq<nat>)

  ghost predicate Linked(nodes: seq<Node>) {
    forall i, c | 0 <= i < |nodes| && 0 <= c < |nodes[i].kids| :: i < nodes[i].kids[c] < |nodes|
  }

  /** The subtree under a node. */
  ghost function TreeOf(nodes: seq<Node>, i: nat): Element
    requires Linked(nodes) && i < |nodes|
    decreases |nodes| - i
  {
    var n := nodes[i];
    Element(n.ns, n.name, n.text, n.arrayType, seq(|n.kids|, c requires 0 <= c < |n.kids| => TreeOf(nodes, n.kids[c])))
  }

  class Document {
    var nodes: seq<Node>

    /** The template: an envelope with an empty header and an empty body. */
    constructor ()
      ensures nodes == Template()
    {
      nodes := Template();
    }

    /** `xmlNewChild`: without a namespace of its own the child takes that of its parent. */
    method NewChild(parent: nat, ns: Option<Namespace>, name: string, text: string) returns (child: nat)
      requires parent < |nodes|
      modifies this
      ensures child == |old(nodes)|
      ensures nodes == old(nodes)[parent := old(nodes)[parent].(kids := old(nodes)[parent].kids + [child])]
                       + [Node(ns.GetOr(old(nodes)[parent].ns), name, text, None, [])]
    {
      child := |nodes|;
      var node := Node(ns.GetOr(nodes[parent].ns), name, text, None, []);
      nodes := nodes[parent := nodes[parent].(kids := nodes[parent].kids + [child])] + [node];
    }

    method ClearNamespace(i: nat)
      requires i < |nodes|
      modifies this
      ensures nodes == old(nodes)[i := old(nodes)[i].(ns := NoNamespace)]
    {
      nodes := nodes[i := nodes[i].(ns := NoNamespace)];
    }
  }

  const ENVELOPE := 0
  const HEADER := 1
  const BODY := 2

  function Template(): seq<Node> {
    [Node(SoapEnv, "Envelope", "", None, [HEADER, BODY]),
     Node(SoapEnv, "Header", "", None, []),
     Node(SoapEnv, "Body", "", None, [])]
  }

  function Leaf(ns: Namespace, name: string, text: string): Element {
    Element(ns, name, text, None, [])
  }

  function Struct(p: (string, string)): Element {
    Element(NoNamespace, "ParameterValueStruct", "", None,
            [Leaf(NoNamespace, "Name", p.0), Leaf(NoNamespace, "Value", p.1)])
  }

  function Structs(params: seq<(string, string)>): seq<Element> {
    seq(|params|, i requires 0 <= i < |params| => Struct(params[i]))
  }

  function RpcElement(params: seq<(string, string)>): Element {
    Element(Cwmp(V10), "SetParameterValues", "", None,
            [Element(NoNamespace, "ParameterList", "", Some(|params|), Structs(params)),
             Leaf(NoNamespace, "ParameterKey", "")])
  }

  /** The message that TR-069 asks for. */
  function Message(id: Option<string>, params: seq<(string, string)>): Element {
    Element(SoapEnv, "Envelope", "", None,
            [Element(SoapEnv, "Header", "", None, if id.None? then [] else [Leaf(Cwmp(V10), "ID", id.value)]),
             Element(SoapEnv, "Body", "", None, [RpcElement(params)])])
  }

  // ---- Growing the tree ----

  /** The index of the i-th struct; its name and its value follow it. */
  function At(list: nat, i: nat): nat {
    list + 2 + 3 * i
  }

  function StructIndices(list: nat, n: nat): seq<nat> {
    seq(n, i requires 0 <= i < n => At(list, i))
  }

  ghost predicate StructAt(nodes: seq<Node>, at: nat, p: (string, string)) {
    && at + 2 < |nodes|
    && nodes[at] == Node(NoNamespace, "ParameterValueStruct", "", None, [at + 1, at + 2])
    && nodes[at + 1] == Node(NoNamespace, "Name", p.0, None, [])
    && nodes[at + 2] == Node(NoNamespace, "Value", p.1, None, [])
  }

  /** The nodes after `n` structs, with the RPC element at `list - 1`. */
  ghost predicate Grown(nodes: seq<Node>, id: Option<string>, list: nat, params: seq<(string, string)>, n: nat, arrayType: Option<nat>)
    requires n <= |params|
  {
    && list == (if id.None? then 4 else 5)
    && |nodes| == At(list, n)
    && nodes[ENVELOPE] == Node(SoapEnv, "Envelope", "", None, [HEADER, BODY])
    && nodes[HEADER] == Node(SoapEnv, "Header", "", None, if id.None? then [] else [3])
    && (id.Some? ==> nodes[3] == Node(Cwmp(V10), "ID", id.value, None, []))
    && nodes[BODY] == Node(SoapEnv, "Body", "", None, [list - 1])
    && nodes[list - 1] == Node(Cwmp(V10), "SetParameterValues", "", None, [list, list + 1])
    && nodes[list] == Node(NoNamespace, "ParameterList", "", arrayType, StructIndices(list, n))
    && nodes[list + 1] == Node(NoNamespace, "ParameterKey", "", None, [])
    && (forall i | 0 <= i < n :: StructAt(nodes, At(list, i), params[i]))
  }

  /** The part of the message in front of the structs. */
  method Preamble(id: Option<string>) returns (doc: Document, list: nat)
    ensures fresh(doc) && Grown(doc.nodes, id, list, [], 0, None)
  {
    doc := new Document();
    if id.Some? {
      var n := doc.NewChild(HEADER, Some(Cwmp(V10)), "ID", id.value);
    }
    var n := doc.NewChild(BODY, Some(Cwmp(V10)), "SetParameterValues", "");
    list := doc.NewChild(n, None, "ParameterList", "");
    doc.ClearNamespace(list);
    n := doc.NewChild(n, None, "ParameterKey", "");
    doc.ClearNamespace(n);
    assert StructIndices(list, 0) == [];
  }

  /** Builds the message for a map, given as its entries in the order of the JSON object. */
  method CreateSetParameterValues(id: Option<string>, params: seq<(string, string)>) returns (doc: Document)
    ensures fresh(doc) && Linked(doc.nodes) && |doc.nodes| > 0
    ensures TreeOf(doc.nodes, ENVELOPE) == Message(id, params)
  {
    var list;
    doc, list := Preamble(id);
    var counter := 0;
    while counter < |params|
      invariant counter <= |params|
      invariant Grown(doc.nodes, id, list, params, counter, None)
    {
      AddStruct(doc, id, list, params, counter);
      counter := counter + 1;
    }
    doc.nodes := doc.nodes[list := doc.nodes[list].(arrayType := Some(counter))];
    GrownTree(doc.nodes, id, list, params);
  }

  method AddStruct(doc: Document, id: Option<string>, list: nat, params: seq<(string, string)>, n: nat)
    requires n < |params| && Grown(doc.nodes, id, list, params, n, None)
    modifies doc
    ensures Grown(doc.nodes, id, list, params, n + 1, None)
  {
    ghost var before := doc.nodes;
    var s := doc.NewChild(list, None, "ParameterValueStruct", "");
    var name := doc.NewChild(s, None, "Name", params[n].0);
    var value := doc.NewChild(s, None, "Value", params[n].1);
    assert s == At(list, n);
    assert StructIndices(list, n + 1) == StructIndices(list, n) + [s];
    forall i | 0 <= i < n + 1 ensures StructAt(doc.nodes, At(list, i), params[i]) {
      if i < n {
        assert StructAt(before, At(list, i), params[i]);
      }
    }
  }

  lemma GrownTree(nodes: seq<Node>, id: Option<string>, list: nat, params: seq<(string, string)>)
    requires Grown(nodes, id, list, params, |params|, Some(|params|))
    ensures Linked(nodes) && TreeOf(nodes, ENVELOPE) == Message(id, params)
  {
    GrownLinked(nodes, id, list, params);
    forall i | 0 <= i < |params| ensures TreeOf(nodes, At(list, i)) == Struct(params[i]) {
      StructTree(nodes, At(list, i), params[i]);
    }
    assert TreeOf(nodes, list).children == Structs(params);
    assert TreeOf(nodes, list + 1).children == [];
    assert TreeOf(nodes, list + 1) == Leaf(NoNamespace, "ParameterKey", "");
    assert TreeOf(nodes, list - 1).children == RpcElement(params).children;
    assert TreeOf(nodes, BODY).children == [RpcElement(params)];
    assert id.Some? ==> TreeOf(nodes, 3).children == [];
    assert TreeOf(nodes, HEADER).children == Message(id, params).children[0].children;
    assert TreeOf(nodes, HEADER) == Message(id, params).children[0];
    assert TreeOf(nodes, ENVELOPE).children == Message(id, params).children;
  }

  lemma StructTree(nodes: seq<Node>, at: nat, p: (string, string))
    requires Linked(nodes) && StructAt(nodes, at, p)
    ensures TreeOf(nodes, at) == Struct(p)
  {
    assert TreeOf(nodes, at + 1).children == [];
    assert TreeOf(nodes, at + 2).children == [];
    assert TreeOf(nodes, at).children == Struct(p).children;
  }

  lemma GrownLinked(nodes: seq<Node>, id: Option<string>, list: nat, params: seq<(string, string)>)
    requires Grown(nodes, id, list, params, |params|, Some(|params|))
    ensures Linked(nodes)
  {
    forall i, c | 0 <= i < |nodes| && 0 <= c < |nodes[i].kids| ensures i < nodes[i].kids[c] < |nodes| {
      if i == list {
        assert nodes[i].kids[c] == At(list, c);
        assert StructAt(nodes, At(list, c), params[c]);
      } else if i >= list + 2 {
        var j := (i - list - 2) / 3;
        assert StructAt(nodes, At(list, j), params[j]);
      }
    }
  }

  // ---- What the tree means ----

  function AsMap(params: seq<(string, string)>): map<string, string> {
    if params == [] then map[] else AsMap(params[..|params| - 1])[params[|params| - 1].0 := params[|params| - 1].1]
  }

  function Pair(p: (string, string)): (Element, Option<Element>) {
    (Leaf(NoNamespace, "Name", p.0), Some(Leaf(NoNamespace, "Value", p.1)))
  }

  function Pairs(params: seq<(string, string)>): seq<(Element, Option<Element>)> {
    seq(|params|, i requires 0 <= i < |params| => Pair(params[i]))
  }

  /** What the walk finds first, outside of a struct: nothing in the first element itself. */
  lemma NamesFirst(es: seq<Element>, listed: bool) returns (below: seq<(Element, Option<Element>)>)
    requires es != []
    ensures below == XmlAnalyze.Names([es[0]], listed, false)
    ensures XmlAnalyze.Names(es, listed, false) == below + XmlAnalyze.Names(es[1..], listed, false)
  {
    below := XmlAnalyze.Names([es[0]], listed, false);
    assert [es[0]][1..] == [];
  }

  lemma {:induction false} NamesConcat(a: seq<Element>, b: seq<Element>, listed: bool)
    ensures XmlAnalyze.Names(a + b, listed, false) == XmlAnalyze.Names(a, listed, false) + XmlAnalyze.Names(b, listed, false)
    decreases |a|
  {
    if a == [] {
      assert a + b == b;
    } else {
      assert (a + b)[0] == a[0] && (a + b)[1..] == a[1..] + b;
      var below := NamesFirst(a, listed);
      var same := NamesFirst(a + b, listed);
      NamesConcat(a[1..], b, listed);
      Regrouped(below, XmlAnalyze.Names(a[1..], listed, false), XmlAnalyze.Names(b, listed, false));
    }
  }

  lemma NamesOfStruct(p: (string, string))
    ensures XmlAnalyze.Names([Struct(p)], true, false) == [Pair(p)]
  {
    var name, value := Leaf(NoNamespace, "Name", p.0), Leaf(NoNamespace, "Value", p.1);
    assert "Value"[0] != "Name"[0];
    assert [value][1..] == [];
    assert XmlAnalyze.Names([value], false, true) == [];
    assert [name, value][1..] == [value];
    assert XmlAnalyze.Names([name, value], false, true) == [Pair(p)];
    assert [Struct(p)][1..] == [];
    assert |"ParameterValueStruct"| != |"ParameterList"|;
  }

  lemma {:induction false} NamesOfStructs(params: seq<(string, string)>)
    ensures XmlAnalyze.Names(Structs(params), true, false) == Pairs(params)
  {
    if params == [] {
    } else {
      var front, last := params[..|params| - 1], params[|params| - 1];
      assert Structs(params) == Structs(front) + [Struct(last)];
      NamesConcat(Structs(front), [Struct(last)], true);
      NamesOfStructs(front);
      NamesOfStruct(last);
    }
  }

  lemma NamesOfLeaf(ns: Namespace, name: string, text: string)
    ensures XmlAnalyze.Names([Leaf(ns, name, text)], false, false) == []
  {
    assert [Leaf(ns, name, text)][1..] == [];
  }

  lemma NamesBelow(e: Element, listed: bool)
    ensures XmlAnalyze.Names([e], listed, false) ==
            XmlAnalyze.Names(e.children, Is(e, NoNamespace, "ParameterList"), listed && Is(e, NoNamespace, "ParameterValueStruct"))
  {
    assert [e][1..] == [];
  }

  lemma NamesOfMessage(id: Option<string>, params: seq<(string, string)>)
    ensures XmlAnalyze.Names([Message(id, params)], false, false) == Pairs(params)
  {
    var m := Message(id, params);
    var header, body, rpc := m.children[0], m.children[1], RpcElement(params);
    var list, key := rpc.children[0], rpc.children[1];
    NamesBelow(m, false);
    assert m.children == [header] + [body];
    NamesConcat([header], [body], false);
    NamesBelow(header, false);
    if id.Some? {
      NamesOfLeaf(Cwmp(V10), "ID", id.value);
    }
    NamesBelow(body, false);
    NamesBelow(rpc, false);
    assert rpc.children == [list] + [key];
    NamesConcat([list], [key], false);
    NamesOfLeaf(NoNamespace, "ParameterKey", "");
    NamesBelow(list, false);
    NamesOfStructs(params);
  }

  lemma ContentOfLeaf(ns: Namespace, name: string, text: string)
    ensures Content(Leaf(ns, name, text)) == text
  {
    assert Contents([]) == [];
  }

  lemma {:induction false} ParametersOfPairs(params: seq<(string, string)>)
    ensures XmlAnalyze.Paired(Pairs(params))
    ensures XmlAnalyze.Parameters(Pairs(params)) == AsMap(params)
  {
    if params != [] {
      var front, last := params[..|params| - 1], params[|params| - 1];
      assert Pairs(params)[..|params| - 1] == Pairs(front);
      ParametersOfPairs(front);
      ContentOfLeaf(NoNamespace, "Name", last.0);
      ContentOfLeaf(NoNamespace, "Value", last.1);
    }
  }

  /** Read back with the walk that reads an inform, the message gives the map it was written for. */
  lemma RoundTrip(id: Option<string>, params: seq<(string, string)>)
    ensures XmlAnalyze.Paired(XmlAnalyze.Names([Message(id, params)], false, false))
    ensures XmlAnalyze.Parameters(XmlAnalyze.Names([Message(id, params)], false, false)) == AsMap(params)
  {
    NamesOfMessage(id, params);
    ParametersOfPairs(params);
  }

  lemma {:induction false} StructsNamespace(params: seq<(string, string)>)
    ensures forall e | e in Descendants(Structs(params)) :: e.ns == NoNamespace
  {
    if params != [] {
      StructsNamespace(params[1..]);
      assert Structs(params)[1..] == Structs(params[1..]);
      var name, value := Leaf(NoNamespace, "Name", params[0].0), Leaf(NoNamespace, "Value", params[0].1);
      assert [name, value][1..] == [value] && [value][1..] == [];
      assert Descendants([value]) == [value];
      assert Descendants([name, value]) == [name, value];
    }
  }

  /** Below the RPC element nothing has a namespace, although children inherit that of their parents,
      and the announced number of structs is the number of structs. */
  lemma RpcIsWellFormed(params: seq<(string, string)>)
    ensures forall e | e in Descendants(RpcElement(params).children) :: e.ns == NoNamespace
    ensures RpcElement(params).children[0].arrayType == Some(|Select(RpcElement(params).children[0].children, NoNamespace, "ParameterValueStruct")|)
  {
    var list, key := RpcElement(params).children[0], RpcElement(params).children[1];
    StructsNamespace(params);
    assert [list, key][1..] == [key] && [key][1..] == [];
    assert Descendants([key]) == [key];
    SelectStructs(params);
  }

  lemma {:induction false} SelectStructs(params: seq<(string, string)>)
    ensures Select(Structs(params), NoNamespace, "ParameterValueStruct") == Structs(params)
  {
    if params != [] {
      assert Structs(params)[1..] == Structs(params[1..]);
      SelectStructs(params[1..]);
      assert Structs(params) == [Struct(params[0])] + Structs(params[1..]);
    }
  }

  /** What the message says, spelled out: one RPC in the Body, with a list of structs and a key. */
  lemma SpelledOut(id: Option<string>, params: seq<(string, string)>)
    ensures |BodyElements(Message(id, params))| == 1
    ensures var rpc := BodyElements(Message(id, params))[0];
            && rpc.ns == Cwmp(V10) && rpc.name == "SetParameterValues" && |rpc.children| == 2
            && rpc.children[0].name == "ParameterList" && rpc.children[1] == Element(NoNamespace, "ParameterKey", "", None, [])
            && |rpc.children[0].children| == |params|
            && forall i | 0 <= i < |params| ::
                 rpc.children[0].children[i] ==
                   Element(NoNamespace, "ParameterValueStruct", "", None,
                           [Element(NoNamespace, "Name", params[i].0, None, []), Element(NoNamespace, "Value", params[i].1, None, [])])
  {
    var m := Message(id, params);
    var header, body := m.children[0], m.children[1];
    assert m.children == [header] + [body] && [header][1..] == [] && [body][1..] == [];
    SelectConcat([header], [body], SoapEnv, "Body");
    assert |"Header"| != |"Body"|;
    assert Select(m.children, SoapEnv, "Body") == [body];
    assert ChildrenOf([body]) == body.children;
  }

  lemma {:induction false} SelectsNothing(es: seq<Element>, ns: Namespace, name: string)
    requires forall e | e in es :: !Is(e, ns, name)
    ensures Select(es, ns, name) == []
  {
    if es != [] {
      SelectsNothing(es[1..], ns, name);
    }
  }

  lemma NoIdInBody(params: seq<(string, string)>)
    ensures Select(Descendants([Element(SoapEnv, "Body", "", None, [RpcElement(params)])]), Cwmp(V10), "ID") == []
  {
    var rpc := RpcElement(params);
    var body := Element(SoapEnv, "Body", "", None, [rpc]);
    RpcIsWellFormed(params);
    assert [rpc][1..] == [] && [body][1..] == [];
    assert Descendants([rpc]) == [rpc] + Descendants(rpc.children);
    assert Descendants([body]) == [body] + Descendants([rpc]);
    assert |"SetParameterValues"| != |"ID"|;
    SelectsNothing(Descendants([body]), Cwmp(V10), "ID");
  }

  lemma SelectBelow(m: Element, first: Element, second: Element, ns: Namespace, name: string)
    requires m.children == [first] + [second] && !Is(m, ns, name)
    ensures Select(Descendants([m]), ns, name) == Select(Descendants([first]), ns, name) + Select(Descendants([second]), ns, name)
  {
    var below := Descendants([first]) + Descendants([second]);
    assert [m][1..] == [];
    DescendantsConcat([first], [second]);
    assert Descendants([m]) == [m] + below;
    SelectConcat([m], below, ns, name);
    SelectConcat(Descendants([first]), Descendants([second]), ns, name);
    SelectsNothing([m], ns, name);
  }

  lemma IdInHeader(id: Option<string>)
    ensures var header := Message(id, []).children[0];
            Select(Descendants([header]), Cwmp(V10), "ID") == header.children
  {
    var header := Message(id, []).children[0];
    assert [header][1..] == [] && Descendants([header]) == [header] + Descendants(header.children);
    SelectConcat([header], Descendants(header.children), Cwmp(V10), "ID");
    SelectsNothing([header], Cwmp(V10), "ID");
    if id.Some? {
      var leaf := Leaf(Cwmp(V10), "ID", id.value);
      assert [leaf][1..] == [] && Descendants([leaf]) == [leaf] && Select([leaf], Cwmp(V10), "ID") == [leaf];
    }
  }

  /** The query for the id finds the id that the message was given. */
  lemma IdReadsBack(id: Option<string>, params: seq<(string, string)>)
    ensures XmlAnalyze.LastId(Message(id, params), V10) == id
  {
    var m := Message(id, params);
    var header, body := m.children[0], m.children[1];
    assert m.children == [header] + [body];
    SelectBelow(m, header, body, Cwmp(V10), "ID");
    IdInHeader(id);
    NoIdInBody(params);
    if id.Some? {
      ContentOfLeaf(Cwmp(V10), "ID", id.value);
    }
  }
}
