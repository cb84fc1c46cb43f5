/** The broadcast protocol of the example back ends: all read one fanout exchange, and may broadcast again. */
module Fanout {
  import opened Wrappers

  // The archive that travels with a message says who has handled it already.
  type Id = string

  datatype Kind = Inform | AddObjectResponse(succeeded: bool) | ConnectionRequest | OtherKind

  /** A broadcast, reduced to what decides who reacts to it. `factory` says whether it carries the
      factory credentials, `ttl` is the counter of a connection request. */
  datatype Msg = Msg(kind: Kind, archive: Option<seq<Id>>, factory: bool, ttl: Option<int>)

  /** The back ends: periodic inform (1), add object with relay messages (2), the one that sends the
      relay messages on (3), the two-phase one (4), connection requests (5). */
  datatype Node =
    | Time(id: Id)
    | Relay(rival: Id, addId: Id, setId: Id)
    | Handler(peer: nat)
    | TwoPhase(addId: Id, setId: Id)
    | Connector

  /** A document in the collection that `owner` inserts into. */
  datatype Record = Record(owner: nat, archive: seq<Id>, relay: seq<Msg>)

  /** What the environment decides in one call of `action`: whether the message gets through the
      checks of `on_message` and has all fields, whether the call gets to its end once it has written
      its template (the insert gives an id, the parameters are there), which document `find_one`
      returns, whether the URL is valid and whether the HTTP request fails. */
  datatype Choice = Choice(gate: bool, completes: bool, pick: nat, validUrl: bool, fails: bool)

  /** A list of messages that is handed over for publishing: the template dictionary of the back end,
      to be written out when its turn comes, or messages that nobody else holds. */
  datatype Handed = Template | Own(messages: seq<Msg>)

  /** What a call of `action` does: the template afterwards, the list handed over, if any, the document
      stored, and attempts to call the device. */
  datatype Reaction = Reaction(template: Msg, handed: Option<Handed>, stored: seq<Record>, attempts: nat)

  function Archive(m: Msg): seq<Id> {
    m.archive.GetOr([])
  }

  function InformWith(archive: seq<Id>): Msg {
    Msg(Inform, Some(archive), true, None)
  }

  function RelayMessages(archive: seq<Id>, addId: Id, setId: Id): seq<Msg> {
    [InformWith(archive + [addId]), Msg(ConnectionRequest, Some(archive + [addId, setId]), true, Some(5))]
  }

  /** The template is written, and handed over if the call gets to its end. */
  function Filled(template: Msg, completes: bool, stored: seq<Record>): Reaction {
    if completes then Reaction(template, Some(Template), stored, 0) else Reaction(template, None, [], 0)
  }

  /** `action` of each back end. A device that has its own credentials already still leaves its archive
      in the template of the first two. */
  function React(cfg: seq<Node>, records: seq<Record>, template: Msg, n: nat, m: Msg, choice: Choice): Reaction
    requires n < |cfg|
  {
    var idle := Reaction(template, None, [], 0);
    if !choice.gate then idle
    else match cfg[n] {
      case Time(id) =>
        if !m.kind.Inform? || id in Archive(m) then idle
        else if !m.factory then idle.(template := template.(archive := Some(Archive(m) + [id])))
        else Filled(InformWith(Archive(m) + [id]), choice.completes, [])
      case Relay(rival, addId, setId) =>
        if !m.kind.Inform? || rival in Archive(m) || addId in Archive(m) then idle
        else if !m.factory then idle.(template := template.(archive := Some(Archive(m) + [addId])))
        else Filled(InformWith(Archive(m) + [addId, setId]), choice.completes,
                    [Record(n, Archive(m) + [addId, setId], RelayMessages(Archive(m), addId, setId))])
      case Handler(peer) =>
        if m.kind == AddObjectResponse(true) && Finds(records, choice.pick, peer) then
          idle.(handed := Some(Own(records[choice.pick].relay)))
        else idle
      case TwoPhase(addId, setId) =>
        if addId in Archive(m) || setId in Archive(m) || !m.factory then idle
        else if m.kind.Inform? then
          Filled(InformWith(Archive(m) + [addId]), choice.completes, [Record(n, Archive(m) + [addId], [])])
        else if m.kind == AddObjectResponse(true) && choice.pick < |records| && records[choice.pick].owner == n then
          Filled(InformWith(records[choice.pick].archive + [setId]), choice.completes, [])
        else idle
      case Connector =>
        if m.ttl.None? || m.ttl.value - 1 < 0 || !choice.validUrl then idle
        else if choice.fails && m.archive.Some? then Reaction(m.(ttl := Some(m.ttl.value - 1)), Some(Template), [], 1)
        else idle.(attempts := 1)
    }
  }

  /** The document has relay messages of the back end looked for. */
  predicate Finds(records: seq<Record>, pick: nat, peer: nat) {
    pick < |records| && records[pick].owner == peer && records[pick].relay != []
  }

  datatype Delivery = Delivery(node: nat, msg: Msg)

  /** A list that a back end has handed over, while the broker has not yet answered for all its set-up. */
  datatype Waiting = Waiting(node: nat, handed: Handed)

  /** A message is built in a template dictionary and goes out once the broker has answered for its list,
      with what the template holds by then: deliveries under way, messages in the delay queue, the templates of the back ends, lists on their
      way through the pipeline, stored documents, and two counters. */
  datatype World = World(
    inflight: seq<Delivery>, delay: seq<Msg>, templates: seq<Msg>, lists: seq<Waiting>, records: seq<Record>,
    broadcasts: nat, attempts: nat)

  /** A fanout exchange gives every bound queue a copy, the sender's own queue included. */
  function Copies(nodes: nat, m: Msg): seq<Delivery> {
    seq(nodes, i requires 0 <= i < nodes => Delivery(i, m))
  }

  function Broadcast(nodes: nat, w: World, ms: seq<Msg>): World
    decreases |ms|
  {
    if ms == [] then w
    else Broadcast(nodes, w.(inflight := w.inflight + Copies(nodes, ms[0]), broadcasts := w.broadcasts + 1), ms[1..])
  }

  function RemoveAt<T>(s: seq<T>, i: nat): seq<T>
    requires i < |s|
  {
    s[..i] + s[i + 1..]
  }

  datatype Event =
    | Deliver(index: nat, choice: Choice)  // any delivery under way may be next
    | Publish(index: nat)                  // a list has got its replies, and what it holds now goes out
    | Expire(index: nat)                   // the delay queue dead-letters to the broadcast exchange
    | Input(msg: Msg)                      // the front end broadcasts what a device has sent

  predicate Possible(cfg: seq<Node>, w: World, e: Event) {
    && |w.templates| == |cfg|
    && match e {
         case Deliver(i, _) => i < |w.inflight| && w.inflight[i].node < |cfg|
         case Publish(i) => i < |w.lists| && w.lists[i].node < |cfg|
         case Expire(i) => i < |w.delay|
         case Input(_) => true
       }
  }

  /** What a list holds at the moment. */
  function Held(templates: seq<Msg>, l: Waiting): seq<Msg>
    requires l.node < |templates|
  {
    match l.handed {
      case Template => [templates[l.node]]
      case Own(messages) => messages
    }
  }

  function ReactionTo(cfg: seq<Node>, w: World, i: nat, choice: Choice): Reaction
    requires Possible(cfg, w, Deliver(i, choice))
  {
    React(cfg, w.records, w.templates[w.inflight[i].node], w.inflight[i].node, w.inflight[i].msg, choice)
  }

  function NewLists(n: nat, r: Reaction): seq<Waiting> {
    if r.handed.None? then [] else [Waiting(n, r.handed.value)]
  }

  /** The world after a back end has taken a delivery and reacted to it. */
  function Taken(w: World, i: nat, r: Reaction): World
    requires i < |w.inflight| && w.inflight[i].node < |w.templates|
  {
    var n := w.inflight[i].node;
    World(RemoveAt(w.inflight, i), w.delay, w.templates[n := r.template], w.lists + NewLists(n, r),
          w.records + r.stored, w.broadcasts, w.attempts + r.attempts)
  }

  /** Retries go to the delay queue, everything else to the broadcast exchange. */
  function Sent(cfg: seq<Node>, w: World, i: nat): World
    requires Possible(cfg, w, Publish(i))
  {
    var rest := w.(lists := RemoveAt(w.lists, i));
    var held := Held(w.templates, w.lists[i]);
    if cfg[w.lists[i].node].Connector? then rest.(delay := w.delay + held) else Broadcast(|cfg|, rest, held)
  }

  function Step(cfg: seq<Node>, w: World, e: Event): World
    requires Possible(cfg, w, e)
  {
    match e {
      case Deliver(i, choice) => Taken(w, i, ReactionTo(cfg, w, i, choice))
      case Publish(i) => Sent(cfg, w, i)
      case Expire(i) => Broadcast(|cfg|, w.(delay := RemoveAt(w.delay, i)), [w.delay[i]])
      case Input(m) => Broadcast(|cfg|, w, [m])
    }
  }

  ghost predicate Run(cfg: seq<Node>, w: World, es: seq<Event>, last: World)
    decreases |es|
  {
    if es == [] then w == last else Possible(cfg, w, es[0]) && Run(cfg, Step(cfg, w, es[0]), es[1..], last)
  }

  const BLANK := Msg(OtherKind, None, false, None)

  /** Nothing under way, and the templates as the back ends start with them. */
  function Start(cfg: seq<Node>): World {
    World([], [], seq(|cfg|, i => BLANK), [], [], 0, 0)
  }

  ghost predicate AtRest(w: World) {
    w.inflight == [] && w.delay == [] && w.lists == []
  }

  ghost predicate NoInput(es: seq<Event>) {
    forall i | 0 <= i < |es| :: !es[i].Input?
  }

  lemma {:induction false} BroadcastMembers(nodes: nat, w: World, ms: seq<Msg>)
    ensures var out := Broadcast(nodes, w, ms);
            && (forall d | d in out.inflight :: d in w.inflight || (d.node < nodes && d.msg in ms))
            && out == w.(inflight := out.inflight, broadcasts := w.broadcasts + |ms|)
    decreases |ms|
  {
    if ms != [] {
      BroadcastMembers(nodes, w.(inflight := w.inflight + Copies(nodes, ms[0]), broadcasts := w.broadcasts + 1), ms[1..]);
    }
  }

  function Ids(node: Node): seq<Id> {
    match node {
      case Time(id) => [id]
      case Relay(_, addId, setId) => [addId, setId]
      case TwoPhase(addId, setId) => [addId, setId]
      case _ => []
    }
  }

  /** The archive id by which a back end recognises what it has handled. */
  predicate HasPrimary(node: Node) {
    node.Time? || node.Relay? || node.TwoPhase?
  }

  function Primary(node: Node): Id
    requires HasPrimary(node)
  {
    Ids(node)[0]
  }

  ghost predicate NoDuplicates<T>(s: seq<T>) {
    forall i, j | 0 <= i < j < |s| :: s[i] != s[j]
  }

  /** No id is used twice, within a back end or across back ends. */
  ghost predicate DistinctIds(cfg: seq<Node>) {
    && (forall n | 0 <= n < |cfg| :: NoDuplicates(Ids(cfg[n])))
    && (forall n, k | 0 <= n < |cfg| && 0 <= k < |cfg| && n != k :: forall id | id in Ids(cfg[n]) :: id !in Ids(cfg[k]))
  }
}
