/** XML documents as trees of elements, as far as the front end looks at them. */
module XmlTree {
  import opened Wrappers

  datatype Version = V10 | V11 | V12
  datatype Namespace = NoNamespace | SoapEnv | Cwmp(version: Version) | OtherNamespace(uri: string)

  // `arrayType` is the count in a soap_enc:arrayType attribute.
  datatype Element = Element(ns: Namespace, name: string, text: string, arrayType: Option<nat>, children: seq<Element>)

  predicate Is(e: Element, ns: Namespace, name: string) {
    e.ns == ns && e.name == name
  }

  /** `xmlNodeGetContent`. */
  function Content(e: Element): string {
    e.text + Contents(e.children)
  }

  function Contents(es: seq<Element>): string {
    if es == [] then [] else Content(es[0]) + Contents(es[1..])
  }

  /** Elements and all elements below them, in document order. */
  function Descendants(es: seq<Element>): seq<Element> {
    if es == [] then [] else [es[0]] + Descendants(es[0].children) + Descendants(es[1..])
  }

  function Select(es: seq<Element>, ns: Namespace, name: string): seq<Element> {
    if es == [] then [] else (if Is(es[0], ns, name) then [es[0]] else []) + Select(es[1..], ns, name)
  }

  function ChildrenOf(es: seq<Element>): seq<Element> {
    if es == [] then [] else es[0].children + ChildrenOf(es[1..])
  }

  /** The elements that "/soap_env:Envelope/soap_env:Body/" selects from. */
  function BodyElements(root: Element): seq<Element> {
    if Is(root, SoapEnv, "Envelope") then ChildrenOf(Select(root.children, SoapEnv, "Body")) else []
  }

  /** An element of a name in a CWMP version stands in the Body of a SOAP envelope. */
  ghost predicate InBody(root: Element, v: Version, name: string) {
    && root.ns == SoapEnv && root.name == "Envelope"
    && exists b, e :: b in root.children && b.ns == SoapEnv && b.name == "Body" && e in b.children && e.ns == Cwmp(v) && e.name == name
  }

  ghost predicate HasRpc(root: Element, name: string) {
    exists v :: InBody(root, v, name)
  }

  lemma {:induction false} ChildrenMembers(es: seq<Element>)
    ensures forall e :: e in ChildrenOf(es) <==> exists b :: b in es && e in b.children
  {
    if es != [] {
      ChildrenMembers(es[1..]);
      assert es == [es[0]] + es[1..];
    }
  }

  /** What the query selects: the children of every Body of the envelope. */
  lemma BodyMembers(root: Element)
    ensures forall e :: e in BodyElements(root) <==>
              && root.ns == SoapEnv && root.name == "Envelope"
              && exists b :: b in root.children && b.ns == SoapEnv && b.name == "Body" && e in b.children
  {
    SelectMembers(root.children, SoapEnv, "Body");
    ChildrenMembers(Select(root.children, SoapEnv, "Body"));
  }

  lemma InBodyIff(root: Element, v: Version, name: string)
    ensures InBody(root, v, name) <==> exists e :: e in BodyElements(root) && Is(e, Cwmp(v), name)
  {
    BodyMembers(root);
    if InBody(root, v, name) {
      var b, e :| b in root.children && b.ns == SoapEnv && b.name == "Body" && e in b.children && e.ns == Cwmp(v) && e.name == name;
      assert e in BodyElements(root);
    }
  }

  lemma {:induction false} DescendantsConcat(a: seq<Element>, b: seq<Element>)
    ensures Descendants(a + b) == Descendants(a) + Descendants(b)
  {
    if a == [] {
      assert a + b == b;
    } else {
      assert (a + b)[1..] == a[1..] + b;
      DescendantsConcat(a[1..], b);
    }
  }

  function Texts(es: seq<Element>): string {
    if es == [] then [] else es[0].text + Texts(es[1..])
  }

  lemma {:induction false} TextsConcat(a: seq<Element>, b: seq<Element>)
    ensures Texts(a + b) == Texts(a) + Texts(b)
  {
    if a == [] {
      assert a + b == b;
    } else {
      assert (a + b)[1..] == a[1..] + b;
      TextsConcat(a[1..], b);
    }
  }

  /** The content of elements is all text in them and below them, in document order. */
  lemma {:induction false} ContentIsAllText(es: seq<Element>)
    ensures Contents(es) == Texts(Descendants(es))
  {
    if es != [] {
      var first, below, rest := [es[0]], Descendants(es[0].children), Descendants(es[1..]);
      ContentIsAllText(es[0].children);
      ContentIsAllText(es[1..]);
      TextsConcat(first + below, rest);
      TextsConcat(first, below);
      assert first[1..] == [];
    }
  }

  lemma {:induction false} SelectMembers(es: seq<Element>, ns: Namespace, name: string)
    ensures forall e :: e in Select(es, ns, name) <==> e in es && Is(e, ns, name)
  {
    if es != [] {
      SelectMembers(es[1..], ns, name);
      assert es == [es[0]] + es[1..];
    }
  }

  lemma {:induction false} SelectConcat(a: seq<Element>, b: seq<Element>, ns: Namespace, name: string)
    ensures Select(a + b, ns, name) == Select(a, ns, name) + Select(b, ns, name)
  {
    if a == [] {
      assert a + b == b;
    } else {
      assert (a + b)[1..] == a[1..] + b;
      SelectConcat(a[1..], b, ns, name);
    }
  }
}
