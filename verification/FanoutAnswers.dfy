/** Which messages a back end answers, with what, and what it never answers. */
module FanoutAnswers {
  import opened Wrappers
  import opened Fanout
  import opened FanoutAccounts
  import opened FanoutOrder

  // ---- Devices with credentials of their own ----

  /** From a device that has its own credentials, and not a connection request that was made for one. */
  predicate Settled(m: Msg) {
    !m.factory && m.ttl == None
  }

  ghost predicate SettledInputs(es: seq<Event>) {
    forall i | 0 <= i < |es| && es[i].Input? :: Settled(es[i].msg)
  }

  function Inputs(es: seq<Event>): nat {
    if es == [] then 0 else (if es[0].Input? then 1 else 0) + Inputs(es[1..])
  }

  ghost predicate Quiet(w: World) {
    w.delay == [] && w.lists == [] && w.records == [] && w.attempts == 0 && forall d | d in w.inflight :: Settled(d.msg)
  }

  lemma QuietStep(cfg: seq<Node>, w: World, e: Event)
    requires Quiet(w) && Possible(cfg, w, e) && (e.Input? ==> Settled(e.msg))
    ensures Quiet(Step(cfg, w, e))
    ensures Step(cfg, w, e).broadcasts == w.broadcasts + if e.Input? then 1 else 0
  {
    match e {
      case Deliver(i, choice) =>
        assert w.inflight[i] in w.inflight;
        Around(w.inflight, i);
      case Input(m) =>
        BroadcastMembers(|cfg|, w, [m]);
    }
  }

  lemma {:induction false} QuietRun(cfg: seq<Node>, w: World, es: seq<Event>, last: World)
    requires Quiet(w) && Run(cfg, w, es, last) && SettledInputs(es)
    ensures Quiet(last) && last.broadcasts == w.broadcasts + Inputs(es)
    decreases |es|
  {
    if es != [] {
      QuietStep(cfg, w, es[0]);
      QuietRun(cfg, Step(cfg, w, es[0]), es[1..], last);
    }
  }

  /** A device that has its own credentials already is left alone: whatever it sends, and whatever back ends
      there are, in every run the only broadcasts are those of the front end; nothing is handed over,
      stored or delayed, and no device is called. */
  lemma LeftAlone(cfg: seq<Node>, es: seq<Event>, last: World)
    requires Run(cfg, Start(cfg), es, last) && SettledInputs(es)
    ensures last.broadcasts == Inputs(es)
    ensures last.lists == [] && last.delay == [] && last.records == [] && last.attempts == 0
  {
    QuietRun(cfg, Start(cfg), es, last);
  }

  // ---- Who answers ----

  predicate Carries(m: Msg, id: Id) {
    m.archive.Some? && id in m.archive.value
  }

  /** A document that the back end looks for was found. */
  predicate Found(records: seq<Record>, pick: nat, owner: nat) {
    pick < |records| && records[pick].owner == owner
  }

  /** A message that this back end answers: an inform of a factory device that carries none of its ids, the
      response to an add object that it waits for, or a connection request that has failed and may be
      tried again. */
  predicate Answerable(cfg: seq<Node>, w: World, i: nat, choice: Choice)
    requires i < |w.inflight| && w.inflight[i].node < |cfg|
  {
    var n, m := w.inflight[i].node, w.inflight[i].msg;
    choice.gate &&
    match cfg[n] {
      case Time(id) => choice.completes && m.kind == Inform && m.factory && !Carries(m, id)
      case Relay(rival, addId, _) =>
        choice.completes && m.kind == Inform && m.factory && !Carries(m, rival) && !Carries(m, addId)
      case Handler(peer) =>
        m.kind == AddObjectResponse(true) && Found(w.records, choice.pick, peer) && w.records[choice.pick].relay != []
      case TwoPhase(addId, setId) =>
        && choice.completes && m.factory && !Carries(m, addId) && !Carries(m, setId)
        && (m.kind == Inform || (m.kind == AddObjectResponse(true) && Found(w.records, choice.pick, n)))
      case Connector =>
        m.ttl.Some? && m.ttl.value > 0 && choice.validUrl && choice.fails && m.archive.Some?
    }
  }

  /** A delivery makes a back end hand something over exactly when it is one that it answers. */
  lemma AnswersIff(cfg: seq<Node>, w: World, i: nat, choice: Choice)
    requires Possible(cfg, w, Deliver(i, choice))
    ensures var next, n := Step(cfg, w, Deliver(i, choice)), w.inflight[i].node;
            && (Answerable(cfg, w, i, choice) ==>
                  next.lists == w.lists + [Waiting(n, if cfg[n].Handler? then Own(w.records[choice.pick].relay) else Template)])
            && (!Answerable(cfg, w, i, choice) ==> next.lists == w.lists && next.records == w.records)
            && next.delay == w.delay && next.broadcasts == w.broadcasts && |next.inflight| == |w.inflight| - 1
  {
  }

  function Before(m: Msg): seq<Id> {
    if m.archive.Some? then m.archive.value else []
  }

  /** A message that would be answered if the call got to its end. */
  predicate Taking(cfg: seq<Node>, w: World, i: nat, choice: Choice)
    requires i < |w.inflight| && w.inflight[i].node < |cfg|
  {
    Answerable(cfg, w, i, choice.(completes := true))
  }

  /** What the template holds then, also when the call does not get to its end. */
  lemma AnswerSays(cfg: seq<Node>, w: World, i: nat, choice: Choice)
    requires Possible(cfg, w, Deliver(i, choice)) && Taking(cfg, w, i, choice)
    ensures var next, n, m := Step(cfg, w, Deliver(i, choice)), w.inflight[i].node, w.inflight[i].msg;
            next.templates == w.templates[n := match cfg[n] {
              case Time(id) => Msg(Inform, Some(Before(m) + [id]), true, None)
              case Relay(_, addId, setId) => Msg(Inform, Some(Before(m) + [addId, setId]), true, None)
              case Handler(_) => w.templates[n]
              case TwoPhase(addId, setId) =>
                Msg(Inform, Some(if m.kind == Inform then Before(m) + [addId] else w.records[choice.pick].archive + [setId]), true, None)
              case Connector => Msg(m.kind, m.archive, m.factory, Some(m.ttl.value - 1))
            }]
  {
  }

  /** What is stored for later, and that nothing else is. */
  lemma AnswerStores(cfg: seq<Node>, w: World, i: nat, choice: Choice)
    requires Possible(cfg, w, Deliver(i, choice))
    ensures var next, n, m := Step(cfg, w, Deliver(i, choice)), w.inflight[i].node, w.inflight[i].msg;
            next.records == w.records +
              if !Answerable(cfg, w, i, choice) || m.kind != Inform then []
              else match cfg[n] {
                case Relay(_, addId, setId) =>
                  [Record(n, Before(m) + [addId, setId],
                          [Msg(Inform, Some(Before(m) + [addId]), true, None),
                           Msg(ConnectionRequest, Some(Before(m) + [addId, setId]), true, Some(5))])]
                case TwoPhase(addId, _) => [Record(n, Before(m) + [addId], [])]
                case _ => []
              }
  {
  }

  /** What is left in a template when nothing is handed over: of periodic inform and add object back ends, the
      archive of any inform that is new to them; the two-phase one and the connector write nothing before
      they have made sure. */
  lemma LeftBehind(cfg: seq<Node>, w: World, i: nat, choice: Choice)
    requires Possible(cfg, w, Deliver(i, choice)) && !Taking(cfg, w, i, choice)
    ensures var next, n, m := Step(cfg, w, Deliver(i, choice)), w.inflight[i].node, w.inflight[i].msg;
            && (forall k | 0 <= k < |cfg| && k != n :: next.templates[k] == w.templates[k])
            && next.templates[n] ==
                 if choice.gate && m.kind == Inform && cfg[n].Time? && !Carries(m, cfg[n].id)
                 then w.templates[n].(archive := Some(Before(m) + [cfg[n].id]))
                 else if choice.gate && m.kind == Inform && cfg[n].Relay? && !Carries(m, cfg[n].rival) && !Carries(m, cfg[n].addId)
                 then w.templates[n].(archive := Some(Before(m) + [cfg[n].addId]))
                 else w.templates[n]
  {
  }

  // ---- Where it goes ----

  /** A list goes out as a whole, with what its template says by then: retries into the delay queue, all else
      to the end of every queue. What expires in the delay queue, and what the front end sends, goes to
      the end of every queue too. */
  lemma GoesTo(cfg: seq<Node>, w: World, e: Event)
    requires Possible(cfg, w, e) && !e.Deliver?
    ensures var next := Step(cfg, w, e);
            match e {
              case Publish(i) =>
                var l := w.lists[i];
                var held := if l.handed == Template then [w.templates[l.node]] else l.handed.messages;
                && next.lists == w.lists[..i] + w.lists[i + 1..]
                && (cfg[l.node].Connector? ==> next.delay == w.delay + held && next.inflight == w.inflight && next.broadcasts == w.broadcasts)
                && (!cfg[l.node].Connector? ==>
                      next.delay == w.delay && Pushed(cfg, w, next, held) && next.broadcasts == w.broadcasts + |held|)
              case Expire(i) =>
                next.delay == w.delay[..i] + w.delay[i + 1..] && Pushed(cfg, w, next, [w.delay[i]]) && next.lists == w.lists
              case Input(m) =>
                next.delay == w.delay && Pushed(cfg, w, next, [m]) && next.lists == w.lists
            }
    ensures var next := Step(cfg, w, e);
            next.templates == w.templates && next.records == w.records && next.attempts == w.attempts
  {
    match e {
      case Publish(i) =>
        var rest, held := w.(lists := RemoveAt(w.lists, i)), Held(w.templates, w.lists[i]);
        BroadcastMembers(|cfg|, rest, held);
        BroadcastPushes(cfg, rest, held);
      case Expire(i) =>
        var rest := w.(delay := RemoveAt(w.delay, i));
        BroadcastMembers(|cfg|, rest, [w.delay[i]]);
        BroadcastPushes(cfg, rest, [w.delay[i]]);
      case Input(m) =>
        BroadcastMembers(|cfg|, w, [m]);
        BroadcastPushes(cfg, w, [m]);
    }
  }

  // ---- Whole runs ----

  /** How many deliveries of a run are answered, how many make a back end call a device, and how many lists
      go out. */
  function AnsweredIn(cfg: seq<Node>, w: World, es: seq<Event>): nat
    decreases |es|
  {
    if es == [] || !Possible(cfg, w, es[0]) then 0
    else (if es[0].Deliver? && Answerable(cfg, w, es[0].index, es[0].choice) then 1 else 0) + AnsweredIn(cfg, Step(cfg, w, es[0]), es[1..])
  }

  /** A connection request that may still be tried, at a back end that calls devices. */
  predicate Callable(cfg: seq<Node>, w: World, i: nat, choice: Choice)
    requires i < |w.inflight| && w.inflight[i].node < |cfg|
  {
    var m := w.inflight[i].msg;
    choice.gate && cfg[w.inflight[i].node].Connector? && m.ttl.Some? && m.ttl.value > 0 && choice.validUrl
  }

  function CalledIn(cfg: seq<Node>, w: World, es: seq<Event>): nat
    decreases |es|
  {
    if es == [] || !Possible(cfg, w, es[0]) then 0
    else (if es[0].Deliver? && Callable(cfg, w, es[0].index, es[0].choice) then 1 else 0) + CalledIn(cfg, Step(cfg, w, es[0]), es[1..])
  }

  function PublishedIn(es: seq<Event>): nat {
    if es == [] then 0 else (if es[0].Publish? then 1 else 0) + PublishedIn(es[1..])
  }

  /** In every run a list has gone out or waits for each delivery that is answered, and for nothing else; and
      a device has been called for each connection request that could be tried, and for nothing else. */
  lemma {:induction false} OneListEach(cfg: seq<Node>, w: World, es: seq<Event>, last: World)
    requires Run(cfg, w, es, last)
    ensures PublishedIn(es) + |last.lists| == |w.lists| + AnsweredIn(cfg, w, es)
    ensures last.attempts == w.attempts + CalledIn(cfg, w, es)
    decreases |es|
  {
    if es != [] {
      var e := es[0];
      if e.Deliver? {
        AnswersIff(cfg, w, e.index, e.choice);
      } else {
        GoesTo(cfg, w, e);
      }
      OneListEach(cfg, Step(cfg, w, e), es[1..], last);
    }
  }

  lemma InputSent(cfg: seq<Node>, w: World, m: Msg)
    requires |w.templates| == |cfg|
    ensures Step(cfg, w, Input(m)) == w.(inflight := w.inflight + Copies(|cfg|, m), broadcasts := w.broadcasts + 1)
  {
    var next := w.(inflight := w.inflight + Copies(|cfg|, m), broadcasts := w.broadcasts + 1);
    assert [m][1..] == [] && [m][0] == m;
    assert Broadcast(|cfg|, next, []) == next;
    assert Broadcast(|cfg|, w, [m]) == Broadcast(|cfg|, next, [m][1..]);
  }

  /** All goes well, and the parameters are there. */
  const WELL := Choice(true, true, 0, true, false)

  const FACTORY_INFORM := Msg(Inform, None, true, None)

  /** The ids that a back end adds to the archive of an inform. */
  function FirstIds(node: Node): seq<Id> {
    match node {
      case Time(id) => [id]
      case Relay(_, addId, setId) => [addId, setId]
      case TwoPhase(addId, _) => [addId]
      case _ => []
    }
  }

  /** What it stores. */
  function FirstRecords(node: Node, n: nat): seq<Record> {
    match node {
      case Relay(_, addId, setId) =>
        [Record(n, [addId, setId],
                [Msg(Inform, Some([addId]), true, None), Msg(ConnectionRequest, Some([addId, setId]), true, Some(5))])]
      case TwoPhase(addId, _) => [Record(n, [addId], [])]
      case _ => []
    }
  }

  /** The first inform of a factory device has been handled by a back end. */
  lemma FirstHandled(cfg: seq<Node>, n: nat) returns (w: World)
    requires n < |cfg| && (cfg[n].Time? || cfg[n].Relay? || cfg[n].TwoPhase?)
    ensures Run(cfg, Start(cfg), [Input(FACTORY_INFORM), Deliver(n, WELL)], w)
    ensures w.lists == [Waiting(n, Template)] && |w.templates| == |cfg| && w.broadcasts == 1 && w.delay == []
    ensures w.templates[n] == Msg(Inform, Some(FirstIds(cfg[n])), true, None) && w.records == FirstRecords(cfg[n], n)
  {
    var informed := Step(cfg, Start(cfg), Input(FACTORY_INFORM));
    InputSent(cfg, Start(cfg), FACTORY_INFORM);
    assert informed.inflight == Copies(|cfg|, FACTORY_INFORM) && informed.inflight[n] == Delivery(n, FACTORY_INFORM);
    assert [] + FirstIds(cfg[n]) == FirstIds(cfg[n]);
    assert cfg[n].Relay? ==> [] + [cfg[n].addId] == [cfg[n].addId];
    AnswerStores(cfg, informed, n, WELL);
    AnswersIff(cfg, informed, n, WELL);
    AnswerSays(cfg, informed, n, WELL);
    w := Step(cfg, informed, Deliver(n, WELL));
    var es := [Input(FACTORY_INFORM), Deliver(n, WELL)];
    assert es[1..] == [Deliver(n, WELL)] && es[1..][1..] == [];
    assert Run(cfg, w, [], w) && Run(cfg, informed, [Deliver(n, WELL)], w);
  }

  /** Every back end that takes informs answers the first one of a factory device: its answer, with its ids,
      is the next thing that everyone gets. */
  lemma FirstAnswer(cfg: seq<Node>, n: nat) returns (es: seq<Event>, w: World, last: World)
    requires n < |cfg| && (cfg[n].Time? || cfg[n].Relay? || cfg[n].TwoPhase?)
    ensures Run(cfg, Start(cfg), es, w) && Possible(cfg, w, Publish(0)) && last == Step(cfg, w, Publish(0))
    ensures |es| == 2 && es[0] == Input(Msg(Inform, None, true, None)) && es[1].Deliver?
    ensures last.broadcasts == 2 && last.lists == [] && last.records == FirstRecords(cfg[n], n)
    ensures Pushed(cfg, w, last, [Msg(Inform, Some(FirstIds(cfg[n])), true, None)])
  {
    w := FirstHandled(cfg, n);
    es := [Input(FACTORY_INFORM), Deliver(n, WELL)];
    GoesTo(cfg, w, Publish(0));
    last := Step(cfg, w, Publish(0));
  }

  /** An inform of a device with credentials of its own leaves its archive in a template. */
  lemma LeavesArchive(cfg: seq<Node>, w: World, n: nat, other: Msg) returns (informed: World, i: nat)
    requires |w.templates| == |cfg| && n < |cfg| && cfg[n].Time?
    requires other.kind == Inform && !other.factory && !Carries(other, cfg[n].id)
    ensures informed == Step(cfg, w, Input(other)) && Possible(cfg, informed, Deliver(i, WELL))
    ensures var next := Step(cfg, informed, Deliver(i, WELL));
            next.templates == w.templates[n := w.templates[n].(archive := Some(Before(other) + [cfg[n].id]))] && next.lists == w.lists
  {
    informed, i := Step(cfg, w, Input(other)), |w.inflight| + n;
    InputSent(cfg, w, other);
    assert informed.inflight[i] == Delivery(n, other);
    AnswersIff(cfg, informed, i, WELL);
    LeftBehind(cfg, informed, i, WELL);
  }

  /** While a list waits, an inform of a device with credentials of its own leaves its archive in the template:
      the message about the first device goes out with the archive of the second. */
  lemma ForeignArchive(cfg: seq<Node>, n: nat, archive: seq<Id>) returns (es: seq<Event>, w: World, last: World)
    requires n < |cfg| && cfg[n].Time? && cfg[n].id !in archive
    ensures Run(cfg, Start(cfg), es, w) && w.lists == [Waiting(n, Template)]
    ensures Possible(cfg, w, Publish(0)) && last == Step(cfg, w, Publish(0))
    ensures Pushed(cfg, w, last, [Msg(Inform, Some(archive + [cfg[n].id]), true, None)])
  {
    var other := Msg(Inform, Some(archive), false, None);
    var handled := FirstHandled(cfg, n);
    var informed, i := LeavesArchive(cfg, handled, n, other);
    var past := [Input(FACTORY_INFORM), Deliver(n, WELL)];
    w := Step(cfg, informed, Deliver(i, WELL));
    RunAppend(cfg, Start(cfg), past, handled, Input(other));
    RunAppend(cfg, Start(cfg), past + [Input(other)], informed, Deliver(i, WELL));
    es := past + [Input(other)] + [Deliver(i, WELL)];
    GoesTo(cfg, w, Publish(0));
    last := Step(cfg, w, Publish(0));
  }
}
