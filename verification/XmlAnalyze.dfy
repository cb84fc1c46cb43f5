/** `xml_message_analyze`: classification of what a device has sent, and the parameters of an inform.
    A tag is a set of bits; each bit of the C header is one element. */
module XmlAnalyze {
  import opened Wrappers
  import opened XmlTree

  datatype Rpc = Inform | SetParameterValuesResponse | AddObjectResponse

  datatype TagBit =
    | RequestReceived | RequestHeadApproved | RequestFinished
    | CwmpNone | CwmpVersion(version: Version) | CwmpTypeUnknown | CwmpType(rpc: Rpc)

  type Tag = set<TagBit>

  function RpcName(rpc: Rpc): string {
    match rpc {
      case Inform => "Inform"
      case SetParameterValuesResponse => "SetParameterValuesResponse"
      case AddObjectResponse => "AddObjectResponse"
    }
  }

  function RpcOf(e: Element): Option<(Version, Rpc)> {
    if !e.ns.Cwmp? then None
    else if e.name == RpcName(Inform) then Some((e.ns.version, Inform))
    else if e.name == RpcName(SetParameterValuesResponse) then Some((e.ns.version, SetParameterValuesResponse))
    else if e.name == RpcName(AddObjectResponse) then Some((e.ns.version, AddObjectResponse))
    else None
  }

  /** The RPCs among some elements, with their versions. */
  function Rpcs(es: seq<Element>): set<(Version, Rpc)> {
    set e | e in es && RpcOf(e).Some? :: RpcOf(e).value
  }

  /** The tag of a set of RPCs. */
  function TagFor(rpcs: set<(Version, Rpc)>): Tag {
    if rpcs == {} then {CwmpTypeUnknown}
    else {CwmpNone} + (set r | r in rpcs :: CwmpVersion(r.0)) + (set r | r in rpcs :: CwmpType(r.1))
  }

  /** The tag of a document. One that cannot be read leaves the tag at none. */
  function TagOf(doc: Option<Element>): Tag {
    match doc {
      case None => {CwmpNone}
      case Some(root) => TagFor(Rpcs(BodyElements(root)))
    }
  }

  lemma RpcNames(e: Element, v: Version, rpc: Rpc)
    ensures Is(e, Cwmp(v), RpcName(rpc)) <==> RpcOf(e) == Some((v, rpc))
  {
    assert |RpcName(Inform)| == 6 && |RpcName(SetParameterValuesResponse)| == 26 && |RpcName(AddObjectResponse)| == 17;
  }

  /** A query finds something exactly when its RPC is there. */
  lemma QueryFinds(es: seq<Element>, v: Version, rpc: Rpc)
    ensures Select(es, Cwmp(v), RpcName(rpc)) != [] <==> (v, rpc) in Rpcs(es)
  {
    SelectMembers(es, Cwmp(v), RpcName(rpc));
    var found := Select(es, Cwmp(v), RpcName(rpc));
    if found != [] {
      assert found[0] in found;
      RpcNames(found[0], v, rpc);
      assert RpcOf(found[0]).value in Rpcs(es);
    }
    if (v, rpc) in Rpcs(es) {
      var e :| e in es && RpcOf(e) == Some((v, rpc));
      RpcNames(e, v, rpc);
      assert e in found;
    }
  }

  /** An RPC is found exactly when an element of its name stands in the Body. */
  lemma RpcsInBody(root: Element, v: Version, rpc: Rpc)
    ensures (v, rpc) in Rpcs(BodyElements(root)) <==> InBody(root, v, RpcName(rpc))
  {
    InBodyIff(root, v, RpcName(rpc));
    QueryFinds(BodyElements(root), v, rpc);
    SelectMembers(BodyElements(root), Cwmp(v), RpcName(rpc));
    var found := Select(BodyElements(root), Cwmp(v), RpcName(rpc));
    assert found != [] ==> found[0] in found;
  }

  /** The names of the RPCs that are looked for. */
  predicate Recognised(name: string) {
    name == "Inform" || name == "SetParameterValuesResponse" || name == "AddObjectResponse"
  }

  lemma RecognisedRpc(name: string) returns (rpc: Rpc)
    requires Recognised(name)
    ensures RpcName(rpc) == name
  {
    rpc := if name == "Inform" then Inform else if name == "AddObjectResponse" then AddObjectResponse else SetParameterValuesResponse;
  }

  /** The Body holds an RPC, and no other of a different version or name. */
  ghost predicate OnlyRpc(root: Element, v: Version, name: string) {
    Recognised(name) && InBody(root, v, name) && forall u, other | Recognised(other) && InBody(root, u, other) :: u == v && other == name
  }

  lemma OneRpc(root: Element, v: Version, name: string, rpc: Rpc)
    requires OnlyRpc(root, v, name) && RpcName(rpc) == name
    ensures Rpcs(BodyElements(root)) == {(v, rpc)}
  {
    RpcsInBody(root, v, rpc);
    forall r | r in Rpcs(BodyElements(root)) ensures r == (v, rpc) {
      RpcsInBody(root, r.0, r.1);
      NamesDiffer(r.1, rpc);
    }
  }

  lemma NamesDiffer(a: Rpc, b: Rpc)
    ensures RpcName(a) == RpcName(b) ==> a == b
    ensures Recognised(RpcName(a))
  {
    assert |RpcName(Inform)| == 6 && |RpcName(SetParameterValuesResponse)| == 26 && |RpcName(AddObjectResponse)| == 17;
  }

  /** A document with one RPC in its Body, whatever else is in there, gets exactly its version and its
      type. */
  lemma SingleRpc(root: Element, v: Version, name: string)
    requires OnlyRpc(root, v, name)
    ensures name == "Inform" ==> TagOf(Some(root)) == {CwmpNone, CwmpVersion(v), CwmpType(Inform)}
    ensures name == "SetParameterValuesResponse" ==> TagOf(Some(root)) == {CwmpNone, CwmpVersion(v), CwmpType(SetParameterValuesResponse)}
    ensures name == "AddObjectResponse" ==> TagOf(Some(root)) == {CwmpNone, CwmpVersion(v), CwmpType(AddObjectResponse)}
  {
    var rpc := RecognisedRpc(name);
    OneRpc(root, v, name, rpc);
    assert TagOf(Some(root)) == {CwmpNone, CwmpVersion(v), CwmpType(rpc)};
    NamesDiffer(rpc, Inform);
    NamesDiffer(rpc, SetParameterValuesResponse);
    NamesDiffer(rpc, AddObjectResponse);
  }

  lemma RequestBits(rpcs: set<(Version, Rpc)>)
    ensures CwmpTypeUnknown in TagFor(rpcs) <==> rpcs == {}
    ensures forall bit | bit in TagFor(rpcs) :: !bit.RequestReceived? && !bit.RequestHeadApproved? && !bit.RequestFinished?
  {
  }

  /** Any document is unknown, and nothing else, exactly when there is no RPC in its Body; otherwise it has the
      bit of none besides those of its RPCs, as a document has that cannot be read. No document touches
      the bits of the request. */
  lemma UnknownIff(root: Element)
    ensures CwmpTypeUnknown in TagOf(Some(root)) <==> forall v, name | Recognised(name) :: !InBody(root, v, name)
    ensures TagOf(Some(root)) == {CwmpTypeUnknown} || (CwmpTypeUnknown !in TagOf(Some(root)) && CwmpNone in TagOf(Some(root)))
    ensures TagOf(None) == {CwmpNone}
    ensures forall bit | bit in TagOf(Some(root)) :: !bit.RequestReceived? && !bit.RequestHeadApproved? && !bit.RequestFinished?
  {
    var rpcs := Rpcs(BodyElements(root));
    RequestBits(rpcs);
    if r :| r in rpcs {
      RpcsInBody(root, r.0, r.1);
      NamesDiffer(r.1, r.1);
      assert InBody(root, r.0, RpcName(r.1));
    }
    if v, name :| Recognised(name) && InBody(root, v, name) {
      var rpc := RecognisedRpc(name);
      RpcsInBody(root, v, rpc);
    }
  }

  lemma TypeBit(root: Element, rpc: Rpc)
    ensures CwmpType(rpc) in TagOf(Some(root)) <==> HasRpc(root, RpcName(rpc))
  {
    var rpcs := Rpcs(BodyElements(root));
    if r :| r in rpcs && r.1 == rpc {
      RpcsInBody(root, r.0, rpc);
    }
    if v :| InBody(root, v, RpcName(rpc)) {
      RpcsInBody(root, v, rpc);
      assert CwmpType((v, rpc).1) in TagFor(rpcs);
    }
  }

  /** A type bit is set exactly when an RPC of that name stands in the Body. */
  lemma TypeBits(root: Element)
    ensures CwmpType(Inform) in TagOf(Some(root)) <==> HasRpc(root, "Inform")
    ensures CwmpType(SetParameterValuesResponse) in TagOf(Some(root)) <==> HasRpc(root, "SetParameterValuesResponse")
    ensures CwmpType(AddObjectResponse) in TagOf(Some(root)) <==> HasRpc(root, "AddObjectResponse")
  {
    TypeBit(root, Inform);
    TypeBit(root, SetParameterValuesResponse);
    TypeBit(root, AddObjectResponse);
    assert RpcName(Inform) == "Inform" && RpcName(AddObjectResponse) == "AddObjectResponse";
    assert RpcName(SetParameterValuesResponse) == "SetParameterValuesResponse";
  }

  /** An RPC of that version stands in the Body. */
  ghost predicate Speaks(root: Element, v: Version) {
    exists name :: Recognised(name) && InBody(root, v, name)
  }

  /** A version bit is set exactly when there is an RPC of that version. */
  lemma VersionBits(root: Element, v: Version)
    ensures CwmpVersion(v) in TagOf(Some(root)) <==> Speaks(root, v)
  {
    var rpcs := Rpcs(BodyElements(root));
    if r :| r in rpcs && r.0 == v {
      RpcsInBody(root, v, r.1);
      NamesDiffer(r.1, r.1);
      assert InBody(root, v, RpcName(r.1));
    }
    if name :| Recognised(name) && InBody(root, v, name) {
      var rpc := RecognisedRpc(name);
      RpcsInBody(root, v, rpc);
      assert CwmpVersion((v, rpc).0) in TagFor(rpcs);
    }
  }

  // ---- Parameters ----

  /** The Name elements that "//ParameterList/ParameterValueStruct/Name" selects among some siblings
      and below them, in document order, each with its next element sibling. `listed` and `structed`
      say whether the siblings stand in a parameter list, or in a struct in one. */
  function Names(es: seq<Element>, listed: bool, structed: bool): seq<(Element, Option<Element>)> {
    if es == [] then []
    else
      (if structed && Is(es[0], NoNamespace, "Name") then [(es[0], if |es| > 1 then Some(es[1]) else None)] else [])
      + Names(es[0].children, Is(es[0], NoNamespace, "ParameterList"), listed && Is(es[0], NoNamespace, "ParameterValueStruct"))
      + Names(es[1..], listed, structed)
  }

  /** A Name among some siblings, with its next sibling. */
  ghost predicate NamedAt(es: seq<Element>, i: nat, x: (Element, Option<Element>))
    requires i < |es|
  {
    es[i] == x.0 && x.0.ns == NoNamespace && x.0.name == "Name" && x.1 == if i + 1 < |es| then Some(es[i + 1]) else None
  }

  ghost predicate Named(es: seq<Element>, x: (Element, Option<Element>)) {
    exists i: nat :: i < |es| && NamedAt(es, i, x)
  }

  ghost predicate NamedInStruct(es: seq<Element>, x: (Element, Option<Element>)) {
    exists s :: s in es && s.ns == NoNamespace && s.name == "ParameterValueStruct" && Named(s.children, x)
  }

  ghost predicate NamedInList(es: seq<Element>, x: (Element, Option<Element>)) {
    exists p :: p in Descendants(es) && p.ns == NoNamespace && p.name == "ParameterList" && NamedInStruct(p.children, x)
  }

  lemma NamedFirst(es: seq<Element>, x: (Element, Option<Element>))
    requires es != []
    ensures Named(es, x) <==> NamedAt(es, 0, x) || Named(es[1..], x)
  {
    if Named(es[1..], x) {
      var i: nat :| i < |es[1..]| && NamedAt(es[1..], i, x);
      assert NamedAt(es, i + 1, x);
    }
    if i: nat :| i < |es| && NamedAt(es, i, x) && i > 0 {
      assert NamedAt(es[1..], i - 1, x);
    }
  }

  lemma {:induction false} NamesMembers(es: seq<Element>, listed: bool, structed: bool, x: (Element, Option<Element>))
    ensures x in Names(es, listed, structed) <==>
              (structed && Named(es, x)) || (listed && NamedInStruct(es, x)) || NamedInList(es, x)
  {
    if es != [] {
      var e, rest := es[0], es[1..];
      NamesMembers(e.children, Is(e, NoNamespace, "ParameterList"), listed && Is(e, NoNamespace, "ParameterValueStruct"), x);
      NamesMembers(rest, listed, structed, x);
      NamedFirst(es, x);
      assert es == [e] + rest;
      assert NamedInStruct(es, x) <==> (e.ns == NoNamespace && e.name == "ParameterValueStruct" && Named(e.children, x)) || NamedInStruct(rest, x);
      assert Descendants(es) == [e] + Descendants(e.children) + Descendants(rest);
      assert NamedInList(es, x) <==>
        (e.ns == NoNamespace && e.name == "ParameterList" && NamedInStruct(e.children, x)) || NamedInList(e.children, x) || NamedInList(rest, x);
    }
  }

  /** The walk finds the Name elements of the structs in parameter lists, wherever the lists stand, and
      nothing else. */
  lemma NamesIff(root: Element, x: (Element, Option<Element>))
    ensures x in Names([root], false, false) <==> NamedInList([root], x)
  {
    NamesMembers([root], false, false, x);
  }

  /** Every Name has an element after it; without one the source would read from a null pointer. */
  predicate Paired(names: seq<(Element, Option<Element>)>) {
    forall i | 0 <= i < |names| :: names[i].1.Some?
  }

  /** The object that is filled name by name; a repeated name keeps the last value. */
  function Parameters(names: seq<(Element, Option<Element>)>): map<string, string>
    requires Paired(names)
  {
    if names == [] then map[]
    else
      var last := names[|names| - 1];
      Parameters(names[..|names| - 1])[Content(last.0) := Content(last.1.value)]
  }

  method ReadParameters(root: Element) returns (parameters: map<string, string>)
    requires Paired(Names([root], false, false))
    ensures parameters == Parameters(Names([root], false, false))
  {
    var names := Names([root], false, false);
    parameters := map[];
    for i := 0 to |names|
      invariant parameters == Parameters(names[..i])
    {
      assert names[..i + 1][..i] == names[..i];
      parameters := parameters[Content(names[i].0) := Content(names[i].1.value)];
    }
    assert names[..|names|] == names;
  }

  // ---- The whole analysis ----

  /** What goes into the cwmp object of the broadcast. */
  datatype Json = Json(id: Option<string>, kind: Option<string>, parameters: Option<map<string, string>>)

  /** The loop over the nodes that one query has found. */
  method Mark(nodes: seq<Element>, v: Version, rpc: Rpc, before: Tag) returns (tag: Tag)
    ensures tag == before + if nodes == [] then {} else {CwmpVersion(v), CwmpType(rpc)}
  {
    tag := before;
    for i := 0 to |nodes|
      invariant tag == before + if i == 0 then {} else {CwmpVersion(v), CwmpType(rpc)}
    {
      tag := tag + {CwmpVersion(v)};
      tag := tag + {CwmpType(rpc)};
    }
  }

  /** The version whose ID element counts. */
  function HighestVersion(tag: Tag): Option<Version> {
    if CwmpVersion(V12) in tag then Some(V12) else if CwmpVersion(V11) in tag then Some(V11)
    else if CwmpVersion(V10) in tag then Some(V10) else None
  }

  function IdOf(root: Element, tag: Tag): Option<string> {
    if HighestVersion(tag).None? then None
    else
      var ids := Select(Descendants([root]), Cwmp(HighestVersion(tag).value), "ID");
      if ids == [] then None else Some(Content(ids[|ids| - 1]))
  }

  function Marks(rpcs: set<(Version, Rpc)>, v: Version, rpc: Rpc): Tag {
    if (v, rpc) in rpcs then {CwmpVersion(v), CwmpType(rpc)} else {}
  }

  lemma NineQueries(rpcs: set<(Version, Rpc)>, tag: Tag)
    requires tag == {CwmpNone}
      + Marks(rpcs, V10, Inform) + Marks(rpcs, V11, Inform) + Marks(rpcs, V12, Inform)
      + Marks(rpcs, V10, SetParameterValuesResponse) + Marks(rpcs, V11, SetParameterValuesResponse) + Marks(rpcs, V12, SetParameterValuesResponse)
      + Marks(rpcs, V10, AddObjectResponse) + Marks(rpcs, V11, AddObjectResponse) + Marks(rpcs, V12, AddObjectResponse)
    ensures rpcs == {} ==> tag == {CwmpNone}
    ensures rpcs != {} ==> tag == TagFor(rpcs) && tag != {CwmpNone}
  {
    forall r | r in rpcs ensures CwmpVersion(r.0) in tag && CwmpType(r.1) in tag {
      match r {
        case (V10, Inform) =>
        case (V11, Inform) =>
        case (V12, Inform) =>
        case (V10, SetParameterValuesResponse) =>
        case (V11, SetParameterValuesResponse) =>
        case (V12, SetParameterValuesResponse) =>
        case (V10, AddObjectResponse) =>
        case (V11, AddObjectResponse) =>
        case (V12, AddObjectResponse) =>
      }
    }
    if rpcs != {} {
      AllMarks(rpcs, tag);
    }
  }

  lemma AllMarks(rpcs: set<(Version, Rpc)>, tag: Tag)
    requires CwmpNone in tag && forall r | r in rpcs :: CwmpVersion(r.0) in tag && CwmpType(r.1) in tag
    requires rpcs != {} && tag <= TagFor(rpcs)
    ensures tag == TagFor(rpcs) && tag != {CwmpNone}
  {
    var r :| r in rpcs;
    assert CwmpVersion(r.0) in tag;
    assert (set r | r in rpcs :: CwmpVersion(r.0)) <= tag;
    assert (set r | r in rpcs :: CwmpType(r.1)) <= tag;
  }

  /** The nine queries for RPC elements, and what the last of them has found. */
  method Classify(es: seq<Element>) returns (tag: Tag, last: seq<Element>)
    ensures tag == if Rpcs(es) == {} then {CwmpNone} else TagFor(Rpcs(es))
    ensures Rpcs(es) == {} ==> last == []
    ensures tag == {CwmpNone} ==> Rpcs(es) == {}
  {
    ghost var rpcs := Rpcs(es);
    forall v, rpc ensures Select(es, Cwmp(v), RpcName(rpc)) != [] <==> (v, rpc) in rpcs {
      QueryFinds(es, v, rpc);
    }
    tag := Mark(Select(es, Cwmp(V10), RpcName(Inform)), V10, Inform, {CwmpNone});
    tag := Mark(Select(es, Cwmp(V11), RpcName(Inform)), V11, Inform, tag);
    tag := Mark(Select(es, Cwmp(V12), RpcName(Inform)), V12, Inform, tag);
    tag := Mark(Select(es, Cwmp(V10), RpcName(SetParameterValuesResponse)), V10, SetParameterValuesResponse, tag);
    tag := Mark(Select(es, Cwmp(V11), RpcName(SetParameterValuesResponse)), V11, SetParameterValuesResponse, tag);
    tag := Mark(Select(es, Cwmp(V12), RpcName(SetParameterValuesResponse)), V12, SetParameterValuesResponse, tag);
    tag := Mark(Select(es, Cwmp(V10), RpcName(AddObjectResponse)), V10, AddObjectResponse, tag);
    tag := Mark(Select(es, Cwmp(V11), RpcName(AddObjectResponse)), V11, AddObjectResponse, tag);
    last := Select(es, Cwmp(V12), RpcName(AddObjectResponse));
    tag := Mark(last, V12, AddObjectResponse, tag);
    NineQueries(rpcs, tag);
  }

  /** The loop that takes the ID; when there is no version, over what the last query has found. */
  method ReadId(root: Element, tag: Tag, last: seq<Element>) returns (id: Option<string>)
    requires HighestVersion(tag).None? ==> last == []
    ensures id == IdOf(root, tag)
  {
    var xpathObj := last;
    if CwmpVersion(V10) in tag {
      xpathObj := Select(Descendants([root]), Cwmp(V10), "ID");
    }
    if CwmpVersion(V11) in tag {
      xpathObj := Select(Descendants([root]), Cwmp(V11), "ID");
    }
    if CwmpVersion(V12) in tag {
      xpathObj := Select(Descendants([root]), Cwmp(V12), "ID");
    }
    id := None;
    for i := 0 to |xpathObj|
      invariant id == if i == 0 then None else Some(Content(xpathObj[i - 1]))
    {
      id := Some(Content(xpathObj[i]));
    }
  }

  lemma SomeVersion(rpcs: set<(Version, Rpc)>)
    ensures rpcs != {} ==> HighestVersion(TagFor(rpcs)).Some?
  {
    if r :| r in rpcs {
      assert CwmpVersion(r.0) in TagFor(rpcs);
      match r.0 {
        case V10 =>
        case V11 =>
        case V12 =>
      }
    }
  }

  function WireType(rpc: Rpc): string {
    match rpc {
      case Inform => "inform"
      case SetParameterValuesResponse => "set_parameter_value_response"
      case AddObjectResponse => "add_object_response"
    }
  }

  /** The "type" entry; when a Body holds several RPCs, which TR-069 forbids, the last test wins. */
  function KindOf(tag: Tag): Option<string> {
    if CwmpType(AddObjectResponse) in tag then Some(WireType(AddObjectResponse))
    else if CwmpType(SetParameterValuesResponse) in tag then Some(WireType(SetParameterValuesResponse))
    else if CwmpType(Inform) in tag then Some(WireType(Inform))
    else None
  }

  /** The parameters of an inform can be read: every Name has an element after it. */
  predicate Readable(root: Element, tag: Tag) {
    CwmpType(Inform) in tag ==> Paired(Names([root], false, false))
  }

  function JsonOf(root: Element, tag: Tag): Json
    requires Readable(root, tag)
  {
    Json(IdOf(root, tag), KindOf(tag), if CwmpType(Inform) in tag then Some(Parameters(Names([root], false, false))) else None)
  }

  /** Fills the object once the tag is known. */
  method Describe(root: Element, tag: Tag, last: seq<Element>) returns (json: Json)
    requires Readable(root, tag)
    requires HighestVersion(tag).None? ==> last == []
    ensures json == JsonOf(root, tag)
  {
    json := Json(None, None, None);
    var id := ReadId(root, tag, last);
    json := json.(id := id);
    if CwmpType(Inform) in tag {
      var parameters := ReadParameters(root);
      json := json.(kind := Some("inform"), parameters := Some(parameters));
    }
    if CwmpType(SetParameterValuesResponse) in tag {
      json := json.(kind := Some("set_parameter_value_response"));
    }
    if CwmpType(AddObjectResponse) in tag {
      json := json.(kind := Some("add_object_response"));
    }
  }

  /** The tag is overwritten, not added to. When there is no RPC the query that is still at hand is
      run in place of a query for the ID; it is one that has just found nothing, so no id is added. */
  method Analyze(doc: Option<Element>) returns (tag: Tag, json: Json)
    requires doc.Some? ==> Readable(doc.value, TagOf(doc))
    ensures tag == TagOf(doc)
    ensures doc.Some? ==> json == JsonOf(doc.value, tag)
    ensures doc.None? || CwmpTypeUnknown in tag ==> json == Json(None, None, None)
  {
    if doc.None? {
      return {CwmpNone}, Json(None, None, None);
    }
    var last;
    tag, last := Classify(BodyElements(doc.value));
    NoRpcNoJson(doc.value);
    json := Describe(doc.value, tag, last);
    if tag == {CwmpNone} {
      tag := {CwmpTypeUnknown};
    }
  }

  lemma NoRpcNoJson(root: Element)
    ensures Rpcs(BodyElements(root)) != {} ==> HighestVersion(TagFor(Rpcs(BodyElements(root)))).Some?
    ensures JsonOf(root, {CwmpNone}) == JsonOf(root, {CwmpTypeUnknown}) == Json(None, None, None)
  {
    SomeVersion(Rpcs(BodyElements(root)));
  }

  /** The last ID element of a version, anywhere in the document. */
  function LastId(root: Element, v: Version): Option<string> {
    var ids := Select(Descendants([root]), Cwmp(v), "ID");
    if ids == [] then None else Some(Content(ids[|ids| - 1]))
  }

  /** The id of the highest version among the RPCs is the one that counts. */
  lemma IdSays(root: Element)
    ensures var id := IdOf(root, TagOf(Some(root)));
            && (Speaks(root, V12) ==> id == LastId(root, V12))
            && (!Speaks(root, V12) && Speaks(root, V11) ==> id == LastId(root, V11))
            && (!Speaks(root, V12) && !Speaks(root, V11) && Speaks(root, V10) ==> id == LastId(root, V10))
            && (!Speaks(root, V12) && !Speaks(root, V11) && !Speaks(root, V10) ==> id == None)
  {
    VersionBits(root, V10);
    VersionBits(root, V11);
    VersionBits(root, V12);
  }

  /** What the object says of any document: the type of an RPC that stands in the Body, the add object
      response before the others and the inform last; the id of the highest version; and parameters
      exactly when there is an inform. */
  lemma JsonSays(root: Element)
    requires Readable(root, TagOf(Some(root)))
    ensures var json := JsonOf(root, TagOf(Some(root)));
            && json.kind == (if HasRpc(root, "AddObjectResponse") then Some("add_object_response")
                             else if HasRpc(root, "SetParameterValuesResponse") then Some("set_parameter_value_response")
                             else if HasRpc(root, "Inform") then Some("inform")
                             else None)
            && json.id == IdOf(root, TagOf(Some(root)))
            && (json.parameters.Some? <==> HasRpc(root, "Inform"))
  {
    TypeBits(root);
  }

  /** One RPC in the Body: the object says what it is, carries the last ID of its version, and has
      parameters exactly when it is an inform. */
  lemma SingleRpcJson(root: Element, v: Version, name: string)
    requires OnlyRpc(root, v, name) && Readable(root, TagOf(Some(root)))
    ensures var json := JsonOf(root, TagOf(Some(root)));
            && (name == "Inform" ==> json.kind == Some("inform"))
            && (name == "SetParameterValuesResponse" ==> json.kind == Some("set_parameter_value_response"))
            && (name == "AddObjectResponse" ==> json.kind == Some("add_object_response"))
            && json.id == LastId(root, v)
            && (json.parameters.Some? <==> name == "Inform")
  {
    JsonSays(root);
    OnlyThat(root, v, name);
    IdSays(root);
  }

  lemma OnlyThat(root: Element, v: Version, name: string)
    requires OnlyRpc(root, v, name)
    ensures forall other | Recognised(other) :: HasRpc(root, other) <==> other == name
    ensures forall u :: Speaks(root, u) <==> u == v
    ensures Recognised("Inform") && Recognised("SetParameterValuesResponse") && Recognised("AddObjectResponse")
    ensures "Inform" != "SetParameterValuesResponse" && "Inform" != "AddObjectResponse" && "AddObjectResponse" != "SetParameterValuesResponse"
  {
    assert |"Inform"| == 6 && |"SetParameterValuesResponse"| == 26 && |"AddObjectResponse"| == 17;
  }
}
