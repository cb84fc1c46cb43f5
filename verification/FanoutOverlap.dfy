/** Two connection requests whose retries overlap in the delay template. The first has failed and its
    retry waits; then the second one fails too, and both retries go out with the ttl of the second.
    With one back end of each kind that takes part, this is a run on inputs of the front end alone
    with more attempts than five for each response. */
module FanoutOverlap {
  import opened Wrappers
  import opened Fanout
  import opened FanoutAccounts
  import opened FanoutTermination
  import opened FanoutDuplicates
  import opened FanoutOrder
  import opened FanoutAttempts

  /** A world that a run on inputs of the front end leads to, with so many attempts made or possible. */
  ghost predicate Stage(cfg: seq<Node>, w: World, responses: nat, total: int) {
    Sound(cfg, w) && w.attempts + Tries(cfg, w) == total && LedBy(cfg, w, responses)
  }

  ghost predicate LedBy(cfg: seq<Node>, w: World, responses: nat) {
    exists es :: Run(cfg, Start(cfg), es, w) && NoTtl(es) && Responses(es) == responses && Ordered(cfg, Start(cfg), es)
  }

  lemma {:induction false} ResponsesConcat(a: seq<Event>, b: seq<Event>)
    ensures Responses(a + b) == Responses(a) + Responses(b)
  {
    if a == [] {
      assert a + b == b;
    } else {
      assert (a + b)[1..] == a[1..] + b;
      ResponsesConcat(a[1..], b);
    }
  }

  function Asks(e: Event): nat {
    if e.Input? && Responds(e.msg) then 1 else 0
  }

  lemma LedStep(cfg: seq<Node>, w: World, responses: nat, e: Event)
    requires LedBy(cfg, w, responses) && Possible(cfg, w, e) && (e.Input? ==> e.msg.ttl == None) && InOrder(w, e)
    ensures LedBy(cfg, Step(cfg, w, e), responses + Asks(e))
  {
    var es :| Run(cfg, Start(cfg), es, w) && NoTtl(es) && Responses(es) == responses && Ordered(cfg, Start(cfg), es);
    assert [e][1..] == [] && Ordered(cfg, w, [e]);
    OrderedConcat(cfg, Start(cfg), es, w, [e]);
    RunAppend(cfg, Start(cfg), es, w, e);
    ResponsesConcat(es, [e]);
    assert NoTtl(es + [e]);
  }

  /** A step that lets nothing slip. */
  lemma StageStep(cfg: seq<Node>, w: World, responses: nat, total: int, e: Event, change: int)
    requires Stage(cfg, w, responses, total) && Possible(cfg, w, e) && InOrder(w, e)
    requires (e.Input? ==> e.msg.ttl == None) && StepSpends(cfg, w, e)
    requires change == Brings(cfg, CallPrice(cfg), 0, e) + Rewritten(cfg, CallPrice(cfg), 0, w, e)
    ensures Stage(cfg, Step(cfg, w, e), responses + Asks(e), total + change)
  {
    LedStep(cfg, w, responses, e);
    TriesStep(cfg, w, e);
    StepSound(cfg, w, e);
  }

  lemma StageInput(cfg: seq<Node>, w: World, responses: nat, total: int, m: Msg) returns (next: World)
    requires Stage(cfg, w, responses, total) && m.ttl == None
    ensures Stage(cfg, next, responses + Asks(Input(m)), total + BroadcastCalls(cfg, m)) && Pushed(cfg, w, next, [m])
    ensures next == w.(inflight := next.inflight, broadcasts := next.broadcasts)
  {
    WorthIsCalls(cfg, m);
    StageStep(cfg, w, responses, total, Input(m), BroadcastCalls(cfg, m));
    next := Step(cfg, w, Input(m));
    BroadcastPushes(cfg, w, [m]);
    BroadcastMembers(|cfg|, w, [m]);
  }

  /** A back end reads the next message in its queue. */
  lemma StageDeliver(cfg: seq<Node>, w: World, responses: nat, total: int, n: nat, m: Msg, choice: Choice, change: int) returns (next: World)
    requires Stage(cfg, w, responses, total) && n < |cfg| && Queue(w.inflight, n) != [] && m == Queue(w.inflight, n)[0]
    requires Spends(cfg, w.records, n, m, choice)
    requires change == Change(WaitingFor(w.lists, n), BroadcastCalls(cfg, w.templates[n]),
                              BroadcastCalls(cfg, React(cfg, w.records, w.templates[n], n, m, choice).template))
    ensures Stage(cfg, next, responses, total + change) && Popped(cfg, w, next, n)
    ensures var r := React(cfg, w.records, w.templates[n], n, m, choice);
            && next.templates == w.templates[n := r.template] && next.lists == w.lists + NewLists(n, r)
            && next.records == w.records + r.stored && (r.stored == [] ==> next.records == w.records) && next.delay == w.delay
  {
    var e := FanoutOrder.Next(w, n, choice);
    NextPops(cfg, w, n, choice);
    WorthIsCalls(cfg, w.templates[n]);
    WorthIsCalls(cfg, React(cfg, w.records, w.templates[n], n, m, choice).template);
    StageStep(cfg, w, responses, total, e, change);
    next := Step(cfg, w, e);
  }

  lemma {:induction false} NoChange(waiting: nat, worth: nat)
    ensures Change(waiting, worth, worth) == 0
  {
    if waiting > 0 {
      NoChange(waiting - 1, worth);
    }
  }

  /** It reads a message that it has nothing to do for. */
  lemma StageSkip(cfg: seq<Node>, w: World, responses: nat, total: int, n: nat, m: Msg) returns (next: World)
    requires Stage(cfg, w, responses, total) && n < |cfg| && Queue(w.inflight, n) != [] && m == Queue(w.inflight, n)[0]
    requires m.ttl.None? && (cfg[n].Connector? || (cfg[n].Handler? && m.kind.Inform?))
    ensures Stage(cfg, next, responses, total) && Popped(cfg, w, next, n)
    ensures next.templates == w.templates && next.lists == w.lists && next.records == w.records && next.delay == w.delay
  {
    var t := w.templates[n];
    assert React(cfg, w.records, t, n, m, FAILS) == Reaction(t, None, [], 0);
    NoChange(WaitingFor(w.lists, n), BroadcastCalls(cfg, t));
    next := StageDeliver(cfg, w, responses, total, n, m, FAILS, 0);
  }

  lemma StagePublish(cfg: seq<Node>, w: World, responses: nat, total: int, i: nat) returns (next: World)
    requires Stage(cfg, w, responses, total) && i < |w.lists| && w.lists[i].node < |cfg|
    ensures Stage(cfg, next, responses, total)
    ensures next.templates == w.templates && next.lists == RemoveAt(w.lists, i) && next.records == w.records
    ensures var held := Held(w.templates, w.lists[i]);
            if cfg[w.lists[i].node].Connector? then next.delay == w.delay + held && next.inflight == w.inflight
            else next.delay == w.delay && Pushed(cfg, w, next, held)
  {
    assert w.lists[i] in w.lists;
    StageStep(cfg, w, responses, total, Publish(i), 0);
    next := Step(cfg, w, Publish(i));
    var rest, held := w.(lists := RemoveAt(w.lists, i)), Held(w.templates, w.lists[i]);
    BroadcastPushes(cfg, rest, held);
    BroadcastMembers(|cfg|, rest, held);
  }

  lemma StageExpire(cfg: seq<Node>, w: World, responses: nat, total: int, m: Msg) returns (next: World)
    requires Stage(cfg, w, responses, total) && w.delay == [m]
    ensures Stage(cfg, next, responses, total) && Pushed(cfg, w, next, [m])
    ensures next.templates == w.templates && next.lists == w.lists && next.records == w.records && next.delay == []
  {
    StageStep(cfg, w, responses, total, Expire(0), 0);
    next := Step(cfg, w, Expire(0));
    var rest := w.(delay := []);
    assert RemoveAt(w.delay, 0) == [];
    BroadcastPushes(cfg, rest, [m]);
    BroadcastMembers(|cfg|, rest, [m]);
  }

  /** One back end with relay messages, one that sends them on, one that calls devices. */
  function Trio(rival: Id, addId: Id, setId: Id): seq<Node> {
    [Relay(rival, addId, setId), Handler(0), Connector]
  }

  function Request(addId: Id, setId: Id, ttl: nat): Msg {
    Msg(ConnectionRequest, Some([addId, setId]), true, Some(ttl))
  }

  lemma TrioKinds(rival: Id, addId: Id, setId: Id)
    ensures Connectors(Trio(rival, addId, setId)) == 1 && Handlers(Trio(rival, addId, setId)) == 1
  {
    var cfg := Trio(rival, addId, setId);
    assert cfg[1..] == [Handler(0), Connector] && cfg[1..][1..] == [Connector] && cfg[1..][1..][1..] == [];
    assert Connectors([Connector]) == 1 && Handlers([Connector]) == 0;
    assert Connectors([Handler(0), Connector]) == 1 && Handlers([Handler(0), Connector]) == 1;
  }

  lemma TrioCalls(rival: Id, addId: Id, setId: Id, ttl: nat)
    ensures BroadcastCalls(Trio(rival, addId, setId), Request(addId, setId, ttl)) == ttl
    ensures BroadcastCalls(Trio(rival, addId, setId), RESPONSE) == 5
    ensures BroadcastCalls(Trio(rival, addId, setId), FIRST_INFORM) == 0
  {
    TrioKinds(rival, addId, setId);
    OneConnector(1, ttl);
    OneConnector(1, 5);
  }

  const FAILS := Choice(true, true, 0, true, true)

  function Relayed(addId: Id, setId: Id): Waiting {
    Waiting(1, Own(RelayMessages([], addId, setId)))
  }

  function Requested(addId: Id, setId: Id): (m: Msg)
    ensures m == Request(addId, setId, 5) == RelayMessages([], addId, setId)[1]
  {
    assert [] + [addId, setId] == [addId, setId];
    Request(addId, setId, 5)
  }

  /** The queues of the one that sends on relay messages and of the one that calls devices. */
  ghost predicate Queues(w: World, handler: seq<Msg>, connector: seq<Msg>) {
    Queue(w.inflight, 1) == handler && Queue(w.inflight, 2) == connector
  }

  lemma FirstInformed(rival: Id, addId: Id, setId: Id) returns (w: World)
    ensures var cfg := Trio(rival, addId, setId);
            && Stage(cfg, w, 0, 0) && w == Start(cfg).(inflight := w.inflight, broadcasts := w.broadcasts)
            && Queue(w.inflight, 0) == [FIRST_INFORM] && Queues(w, [FIRST_INFORM], [FIRST_INFORM])
  {
    var cfg := Trio(rival, addId, setId);
    StartSound(cfg);
    NothingToStartWith(cfg);
    assert Run(cfg, Start(cfg), [], Start(cfg)) && NoTtl([]) && Responses([]) == 0 && Ordered(cfg, Start(cfg), []);
    TrioCalls(rival, addId, setId, 5);
    w := StageInput(cfg, Start(cfg), 0, 0, FIRST_INFORM);
    assert forall k: nat | k < 3 :: Queue(w.inflight, k) == [FIRST_INFORM];
  }

  lemma FirstTaken(rival: Id, addId: Id, setId: Id) returns (w: World)
    ensures var cfg := Trio(rival, addId, setId);
            && Stage(cfg, w, 0, 0) && w.delay == [] && w.lists == [Waiting(0, Template)]
            && Queues(w, [FIRST_INFORM], [FIRST_INFORM])
            && Finds(w.records, 0, 0) && w.records[0].relay == Relayed(addId, setId).handed.messages
  {
    var informed := FirstInformed(rival, addId, setId);
    w := StageDeliver(Trio(rival, addId, setId), informed, 0, 0, 0, FIRST_INFORM, GOOD, 0);
  }

  /** A factory device has informed, and its document is stored. */
  lemma Stored(rival: Id, addId: Id, setId: Id) returns (w: World)
    ensures var cfg := Trio(rival, addId, setId);
            && Stage(cfg, w, 0, 0) && w.delay == [] && w.lists == [Waiting(0, Template)] && Queues(w, [], [])
            && Finds(w.records, 0, 0) && w.records[0].relay == Relayed(addId, setId).handed.messages
  {
    var cfg := Trio(rival, addId, setId);
    var taken := FirstTaken(rival, addId, setId);
    var skipped := StageSkip(cfg, taken, 0, 0, 1, FIRST_INFORM);
    w := StageSkip(cfg, skipped, 0, 0, 2, FIRST_INFORM);
  }

  lemma Asked(rival: Id, addId: Id, setId: Id, w: World, responses: nat, total: int) returns (next: World)
    requires Stage(Trio(rival, addId, setId), w, responses, total) && Queues(w, [], [])
    ensures Stage(Trio(rival, addId, setId), next, responses + 1, total + 5) && Queues(next, [RESPONSE], [RESPONSE])
    ensures next == w.(inflight := next.inflight, broadcasts := next.broadcasts)
  {
    TrioCalls(rival, addId, setId, 5);
    next := StageInput(Trio(rival, addId, setId), w, responses, total, RESPONSE);
  }

  /** A response comes in, and its relay messages are handed over. */
  lemma Responded(rival: Id, addId: Id, setId: Id, w: World, responses: nat, total: int) returns (next: World)
    requires Stage(Trio(rival, addId, setId), w, responses, total) && Queues(w, [], [])
    requires Finds(w.records, 0, 0) && w.records[0].relay == Relayed(addId, setId).handed.messages
    ensures Stage(Trio(rival, addId, setId), next, responses + 1, total + 5) && Queues(next, [], [])
    ensures next.templates == w.templates && next.lists == w.lists + [Relayed(addId, setId)] && next.delay == w.delay && next.records == w.records
  {
    var cfg := Trio(rival, addId, setId);
    var asked := Asked(rival, addId, setId, w, responses, total);
    NoChange(WaitingFor(w.lists, 1), BroadcastCalls(cfg, w.templates[1]));
    var handed := StageDeliver(cfg, asked, responses + 1, total + 5, 1, RESPONSE, GOOD, 0);
    next := StageSkip(cfg, handed, responses + 1, total + 5, 2, RESPONSE);
  }

  /** Two responses have come in, and the relay messages for both wait. */
  lemma TwoResponses(rival: Id, addId: Id, setId: Id) returns (w: World)
    ensures var cfg := Trio(rival, addId, setId);
            && Stage(cfg, w, 2, 10) && w.delay == [] && RelaysStored(cfg, w.records) && Queue(w.inflight, 2) == []
            && w.lists == [Waiting(0, Template), Relayed(addId, setId), Relayed(addId, setId)]
  {
    var stored := Stored(rival, addId, setId);
    var once := Responded(rival, addId, setId, stored, 0, 0);
    w := Responded(rival, addId, setId, once, 1, 5);
    assert Finds(w.records, 0, 0);
  }

  /** A request fails while no retry waits. */
  lemma Fails(rival: Id, addId: Id, setId: Id, w: World, ttl: nat) returns (next: World)
    requires var cfg := Trio(rival, addId, setId);
             && Stage(cfg, w, 2, 10) && RelaysStored(cfg, w.records) && w.lists == [Waiting(0, Template), Relayed(addId, setId)]
             && Queue(w.inflight, 2) == [Request(addId, setId, ttl + 1)]
    ensures var cfg := Trio(rival, addId, setId);
            && Stage(cfg, next, 2, 10) && RelaysStored(cfg, next.records) && next.delay == w.delay
            && next.lists == [Waiting(0, Template), Relayed(addId, setId), Waiting(2, Template)]
            && next.templates[2] == Request(addId, setId, ttl) && Queue(next.inflight, 2) == []
  {
    var cfg, m := Trio(rival, addId, setId), Request(addId, setId, ttl + 1);
    NoneWaits(w.lists, addId, setId);
    assert React(cfg, w.records, w.templates[2], 2, m, FAILS) == Reaction(Request(addId, setId, ttl), Some(Template), [], 1);
    next := StageDeliver(cfg, w, 2, 10, 2, m, FAILS, 0);
  }

  /** A retry goes through the delay queue and back to the exchange. */
  lemma Retried(rival: Id, addId: Id, setId: Id, w: World, ttl: nat) returns (next: World)
    requires var cfg := Trio(rival, addId, setId);
             && Stage(cfg, w, 2, 10) && RelaysStored(cfg, w.records) && w.delay == [] && Queue(w.inflight, 2) == []
             && w.lists == [Waiting(0, Template), Relayed(addId, setId), Waiting(2, Template)] && w.templates[2] == Request(addId, setId, ttl)
    ensures var cfg := Trio(rival, addId, setId);
            && Stage(cfg, next, 2, 10) && RelaysStored(cfg, next.records) && next.lists == [Waiting(0, Template), Relayed(addId, setId)]
            && next.delay == [] && Queue(next.inflight, 2) == [Request(addId, setId, ttl)]
  {
    var cfg := Trio(rival, addId, setId);
    var delayed := StagePublish(cfg, w, 2, 10, 2);
    assert delayed.lists == [Waiting(0, Template), Relayed(addId, setId)];
    assert delayed.delay == [Request(addId, setId, ttl)];
    next := StageExpire(cfg, delayed, 2, 10, Request(addId, setId, ttl));
  }

  /** The relay messages of a list go out, and the inform among them leads to no call. */
  lemma RequestOut(rival: Id, addId: Id, setId: Id, w: World) returns (next: World)
    requires var cfg := Trio(rival, addId, setId);
             && Stage(cfg, w, 2, 10) && |w.lists| > 1 && w.lists[1] == Relayed(addId, setId) && Queue(w.inflight, 2) == []
    ensures Stage(Trio(rival, addId, setId), next, 2, 10) && Queue(next.inflight, 2) == [Request(addId, setId, 5)]
    ensures next.lists == RemoveAt(w.lists, 1) && next.records == w.records && next.delay == w.delay && next.templates == w.templates
  {
    var cfg, messages := Trio(rival, addId, setId), RelayMessages([], addId, setId);
    var sent := StagePublish(cfg, w, 2, 10, 1);
    assert Queue(sent.inflight, 2) == [messages[0], Requested(addId, setId)];
    next := StageSkip(cfg, sent, 2, 10, 2, messages[0]);
  }

  /** The first of the two requests has failed twice; its second retry waits in the template. */
  lemma FirstRequestTwice(rival: Id, addId: Id, setId: Id) returns (w: World)
    ensures var cfg := Trio(rival, addId, setId);
            && Stage(cfg, w, 2, 10) && RelaysStored(cfg, w.records) && Queue(w.inflight, 2) == []
            && w.lists == [Waiting(0, Template), Relayed(addId, setId), Waiting(2, Template)]
            && w.templates[2] == Request(addId, setId, 3)
  {
    var both := TwoResponses(rival, addId, setId);
    var sent := RequestOut(rival, addId, setId, both);
    assert sent.lists == [Waiting(0, Template), Relayed(addId, setId)];
    var once := Fails(rival, addId, setId, sent, 4);
    var again := Retried(rival, addId, setId, once, 4);
    w := Fails(rival, addId, setId, again, 3);
  }

  lemma NoneWaits(lists: seq<Waiting>, addId: Id, setId: Id)
    requires lists == [Waiting(0, Template), Relayed(addId, setId)]
    ensures WaitingFor(lists, 2) == 0
  {
    assert lists[1..] == [Relayed(addId, setId)] && lists[1..][1..] == [];
    assert WaitingFor([Relayed(addId, setId)], 2) == 0;
  }

  lemma OneWaits(lists: seq<Waiting>)
    requires lists == [Waiting(0, Template), Waiting(2, Template)]
    ensures WaitingFor(lists, 2) == 1
  {
    assert lists[1..] == [Waiting(2, Template)] && lists[1..][1..] == [];
    assert WaitingFor([Waiting(2, Template)], 2) == 1;
  }

  /** The second request is out, and the retry of the first still waits. */
  lemma SecondRequest(rival: Id, addId: Id, setId: Id) returns (w: World)
    ensures var cfg := Trio(rival, addId, setId);
            && Stage(cfg, w, 2, 10) && RelaysStored(cfg, w.records) && Queue(w.inflight, 2) == [Request(addId, setId, 5)]
            && w.lists == [Waiting(0, Template), Waiting(2, Template)] && w.templates[2] == Request(addId, setId, 3)
  {
    var twice := FirstRequestTwice(rival, addId, setId);
    w := RequestOut(rival, addId, setId, twice);
    assert w.lists == [Waiting(0, Template), Waiting(2, Template)];
  }

  /** It fails before the retry of the first goes out: both retries get its ttl. */
  lemma RetriesOverlap(rival: Id, addId: Id, setId: Id) returns (w: World)
    ensures Stage(Trio(rival, addId, setId), w, 2, 11) && RelaysStored(Trio(rival, addId, setId), w.records)
  {
    var both := SecondRequest(rival, addId, setId);
    OneWaits(both.lists);
    TrioCalls(rival, addId, setId, 3);
    TrioCalls(rival, addId, setId, 4);
    assert Change(0, 3, 4) == 0 && Change(1, 3, 4) == 1;
    w := StageDeliver(Trio(rival, addId, setId), both, 2, 10, 2, Request(addId, setId, 5), FAILS, 1);
  }

  /** Two add object responses, one back end that sends on relay messages, and one that calls devices: a
      run on inputs of the front end with eleven attempts, one more than five for each response, with
      every queue read in order. */
  lemma MoreThanFive(rival: Id, addId: Id, setId: Id) returns (es: seq<Event>, last: World)
    ensures var cfg := Trio(rival, addId, setId);
            && Connectors(cfg) == 1 && Handlers(cfg) == 1 && Ordered(cfg, Start(cfg), es)
            && Run(cfg, Start(cfg), es, last) && NoTtl(es) && AtRest(last) && Responses(es) == 2
    ensures last.attempts == 11
  {
    var cfg := Trio(rival, addId, setId);
    TrioKinds(rival, addId, setId);
    var w := RetriesOverlap(rival, addId, setId);
    var past :| Run(cfg, Start(cfg), past, w) && NoTtl(past) && Responses(past) == 2 && Ordered(cfg, Start(cfg), past);
    var rest;
    rest, last := SpendingRun(cfg, w);
    RunConcat(cfg, Start(cfg), past, w, rest, last);
    OrderedConcat(cfg, Start(cfg), past, w, rest);
    es := past + rest;
    ResponsesConcat(past, rest);
    NoResponses(rest);
  }

  lemma {:induction false} NoResponses(es: seq<Event>)
    requires NoInput(es)
    ensures Responses(es) == 0
  {
    if es != [] {
      NoResponses(es[1..]);
    }
  }
}
