/** Many requests: the action queues of all devices, and the session that a device keeps with a cookie. */
module Session {
  import opened Wrappers
  import opened HeaderScan
  import opened XmlAnalyze
  import opened Connection
  import FrontEnd = Connection
  import opened Amqp
  import opened Reassembly
  import opened Responses

  /** One answered request: the action that it took off its queue, if any, and the text that it got
      of it. */
  datatype Turn = Turn(headers: Headers, msg: string, reply: Reply, queue: string, removed: Option<string>, received: Option<string>)

  datatype World = World(queues: Queues, turns: seq<Turn>)

  /** A back end queues an action, or a device sends a request and the broker behaves as it does. */
  datatype Event = Put(queue: string, text: string) | Ask(headers: Headers, msg: string, script: Script)

  ghost predicate Possible(e: Event) {
    e.Ask? ==> Mandatory(e.headers) && Sized(e.script)
  }

  /** What becomes of the fetch of a request; a request that does not fetch asks for nothing. */
  function OutcomeOf(cfg: Config, queues: Queues, e: Event): Outcome
    requires e.Ask? && Mandatory(e.headers) && Sized(e.script)
  {
    if Fetches(cfg, e.headers, e.msg) then FetchOutcome(e.script, Contents(queues, QueueFor(cfg, e.headers))) else Refused
  }

  function Answered(cfg: Config, w: World, e: Event): Turn
    requires e.Ask? && Mandatory(e.headers) && Sized(e.script)
  {
    var queue := QueueFor(cfg, e.headers);
    var outcome := OutcomeOf(cfg, w.queues, e);
    Turn(e.headers, e.msg, ReplyTo(cfg, e.headers, e.msg, e.script, w.queues), queue,
         if Removes(outcome) then Some(Contents(w.queues, queue)[0]) else None,
         if outcome == Delivered then Text(e.script) else None)
  }

  function Step(cfg: Config, w: World, e: Event): World
    requires Possible(e)
  {
    match e {
      case Put(queue, text) => w.(queues := w.queues[queue := Contents(w.queues, queue) + [text]])
      case Ask(headers, msg, script) =>
        World(QueuesAfter(cfg, headers, msg, script, w.queues), w.turns + [Answered(cfg, w, e)])
    }
  }

  ghost predicate Run(cfg: Config, w: World, es: seq<Event>, last: World)
    decreases |es|
  {
    if es == [] then w == last else Possible(es[0]) && Run(cfg, Step(cfg, w, es[0]), es[1..], last)
  }

  /** One request as it is seen from outside: the queues that it meets, how the broker behaves, what is
      written, and the queues that it leaves. */
  datatype Exchange = Exchange(headers: Headers, msg: string, script: Script, before: Queues, output: seq<Piece>, after: Queues)

  ghost predicate Served(cfg: Config, x: Exchange) {
    && Mandatory(x.headers) && Sized(x.script)
    && x.output == Render(ReplyTo(cfg, x.headers, x.msg, x.script, x.before))
    && x.after == QueuesAfter(cfg, x.headers, x.msg, x.script, x.before)
  }

  /** A step of the world is what a connection does that serves the request, in whatever reads. */
  method ServeTurn(broker: Broker<Notice>, cfg: Config, answers: Answers, events: seq<FrontEnd.Event>, cuts: seq<nat>,
                   ghost r: Request, ghost k: nat, ghost w: World) returns (c: FrontEnd.Connection, ghost next: World, ghost x: Exchange)
    requires Delivers(events, k, r) && WellFormed(r) && Cuts(cuts, |events|) && Sized(answers.fetch)
    requires Mandatory(Tracked(r.pairs)) && w.queues == broker.queues
    modifies broker
    ensures next == Step(cfg, w, Ask(Tracked(r.pairs), r.body, answers.fetch))
    ensures broker.queues == next.queues
    ensures next.turns == w.turns + [next.turns[|w.turns|]] && c.output == Render(next.turns[|w.turns|].reply)
    ensures var headers := Tracked(r.pairs);
            broker.broadcasts == old(broker.broadcasts) +
              if Authorized(headers) && Connects(answers.notify) && answers.notify.publish then
                [Notice(if HttpCookie in headers then Some(headers[HttpCookie]) else None, headers[HttpAuthorization], headers[RemoteAddr],
                        if Atoi(headers[ContentLength]) == 0 then None else cfg.parse(r.body))]
              else []
    ensures Served(cfg, x) && x == Exchange(Tracked(r.pairs), r.body, answers.fetch, old(broker.queues), c.output, broker.queues)
  {
    c := Serve(broker, cfg, answers, events, cuts, r, k);
    next := Step(cfg, w, Ask(Tracked(r.pairs), r.body, answers.fetch));
    x := Exchange(Tracked(r.pairs), r.body, answers.fetch, old(broker.queues), c.output, broker.queues);
  }

  // ---- Conservation ----

  function Puts(es: seq<Event>, queue: string): seq<string> {
    if es == [] then [] else (if es[0].Put? && es[0].queue == queue then [es[0].text] else []) + Puts(es[1..], queue)
  }

  /** The actions that requests have taken off a queue. */
  function Removed(turns: seq<Turn>, queue: string): seq<string> {
    if turns == [] then []
    else (if turns[0].queue == queue && turns[0].removed.Some? then [turns[0].removed.value] else []) + Removed(turns[1..], queue)
  }

  /** The texts that successful fetches from a queue have handed on. */
  function HandedOn(turns: seq<Turn>, queue: string): seq<string> {
    if turns == [] then []
    else (if turns[0].queue == queue && turns[0].received.Some? then [turns[0].received.value] else []) + HandedOn(turns[1..], queue)
  }

  /** The RPCs that devices of a queue were sent. */
  function Sent(turns: seq<Turn>, queue: string): seq<Reply> {
    if turns == [] then []
    else (if turns[0].queue == queue && turns[0].reply.RpcReply? then [turns[0].reply] else []) + Sent(turns[1..], queue)
  }

  ghost predicate Subsequence(a: seq<string>, b: seq<string>)
    decreases |b|
  {
    a == [] || (b != [] && ((a[0] == b[0] && Subsequence(a[1..], b[1..])) || Subsequence(a, b[1..])))
  }

  lemma {:induction false} RemovedConcat(a: seq<Turn>, b: seq<Turn>, queue: string)
    ensures Removed(a + b, queue) == Removed(a, queue) + Removed(b, queue)
  {
    if a == [] {
      assert a + b == b;
    } else {
      var first := if a[0].queue == queue && a[0].removed.Some? then [a[0].removed.value] else [];
      assert (a + b)[0] == a[0] && (a + b)[1..] == a[1..] + b;
      RemovedConcat(a[1..], b, queue);
      Regrouped(first, Removed(a[1..], queue), Removed(b, queue));
    }
  }

  /** What has been removed from a queue, followed by what is still in it. */
  function Ledger(w: World, queue: string): seq<string> {
    Removed(w.turns, queue) + Contents(w.queues, queue)
  }

  /** What a request takes off a queue is what it is said to have removed. */
  lemma AskConserves(cfg: Config, w: World, e: Event, queue: string)
    requires e.Ask? && Possible(e)
    ensures Contents(w.queues, queue) == Removed([Answered(cfg, w, e)], queue) + Contents(Step(cfg, w, e).queues, queue)
  {
    var t := Answered(cfg, w, e);
    assert [t][1..] == [];
    DrainedContents(w.queues, t.queue, OutcomeOf(cfg, w.queues, e), queue);
    var before := Contents(w.queues, t.queue);
    assert t.removed.Some? ==> before == [t.removed.value] + before[1..];
  }

  lemma StepConserves(cfg: Config, w: World, e: Event, queue: string)
    requires Possible(e)
    ensures Ledger(w, queue) + Puts([e], queue) == Ledger(Step(cfg, w, e), queue)
  {
    assert [e][1..] == [];
    var next := Step(cfg, w, e);
    var removed := Removed(w.turns, queue);
    if e.Ask? {
      var turn := [Answered(cfg, w, e)];
      RemovedConcat(w.turns, turn, queue);
      AskConserves(cfg, w, e, queue);
      Regrouped(removed, Removed(turn, queue), Contents(next.queues, queue));
      assert Puts([e], queue) == [];
    } else {
      Regrouped(removed, Contents(w.queues, queue), Puts([e], queue));
    }
  }

  lemma PutsStep(es: seq<Event>, queue: string)
    requires es != []
    ensures Puts(es, queue) == Puts([es[0]], queue) + Puts(es[1..], queue)
  {
    assert [es[0]][1..] == [];
  }

  /** Over any sequence of requests and hand-overs, for every queue: what was in it and what was put
      into it is, in order, what was removed from it followed by what is still there. */
  lemma {:induction false} Conservation(cfg: Config, w: World, es: seq<Event>, last: World, queue: string)
    requires Run(cfg, w, es, last)
    ensures Ledger(w, queue) + Puts(es, queue) == Ledger(last, queue)
    decreases |es|
  {
    if es == [] {
      assert Ledger(w, queue) + [] == Ledger(w, queue);
    } else {
      StepConserves(cfg, w, es[0], queue);
      Conservation(cfg, Step(cfg, w, es[0]), es[1..], last, queue);
      PutsStep(es, queue);
      Regrouped(Ledger(w, queue), Puts([es[0]], queue), Puts(es[1..], queue));
    }
  }

  // ---- What is handed on ----

  /** The fetch, if it took an action off the queue, got the text of that action. */
  predicate Whole(t: Turn, queue: string) {
    t.queue == queue && t.removed.Some? ==> t.received == t.removed
  }

  /** What is received was removed, and an RPC is the conversion of what was received. */
  predicate Genuine(cfg: Config, t: Turn) {
    && (t.received.Some? ==> t.removed.Some?)
    && (t.reply.RpcReply? ==> t.received.Some? && cfg.convert(t.received.value) == Action(t.reply.xml, t.reply.cookie))
  }

  lemma AnswerGenuine(cfg: Config, w: World, e: Event)
    requires e.Ask? && Possible(e)
    ensures Genuine(cfg, Answered(cfg, w, e))
  {
  }

  /** In every run, a device is sent an RPC only by a request that has taken an action off its queue,
      and that RPC is the conversion of the text that was received of it. */
  lemma {:induction false} RpcIsTheActionTaken(cfg: Config, w: World, es: seq<Event>, last: World)
    requires Run(cfg, w, es, last) && forall t | t in w.turns :: Genuine(cfg, t)
    ensures forall t | t in last.turns :: Genuine(cfg, t)
    decreases |es|
  {
    if es != [] {
      if es[0].Ask? {
        AnswerGenuine(cfg, w, es[0]);
      }
      RpcIsTheActionTaken(cfg, Step(cfg, w, es[0]), es[1..], last);
    }
  }

  /** The RPCs among `replies` are the conversions of `texts`, one by one. */
  ghost predicate Converted(cfg: Config, texts: seq<string>, replies: seq<Reply>) {
    && |texts| == |replies|
    && forall i | 0 <= i < |texts| ::
         replies[i].RpcReply? && cfg.convert(texts[i]) == Action(replies[i].xml, replies[i].cookie)
  }

  lemma {:induction false} SentAmongTurns(cfg: Config, turns: seq<Turn>, queue: string) returns (texts: seq<string>)
    requires forall t | t in turns :: Genuine(cfg, t)
    ensures Subsequence(texts, HandedOn(turns, queue)) && Converted(cfg, texts, Sent(turns, queue))
  {
    texts := [];
    if turns != [] {
      var t := turns[0];
      assert t in turns;
      var rest := SentAmongTurns(cfg, turns[1..], queue);
      var handed := HandedOn(turns[1..], queue);
      texts := rest;
      if t.queue == queue && t.received.Some? {
        var x := t.received.value;
        assert HandedOn(turns, queue) == [x] + handed && ([x] + handed)[1..] == handed;
        if t.reply.RpcReply? {
          texts := [x] + rest;
          assert texts[1..] == rest;
        }
      } else {
        assert HandedOn(turns, queue) == handed;
      }
    }
  }

  /** All RPCs that devices of a queue are sent in a run, picked out by what is sent alone, are the
      conversions of a subsequence of the actions handed on from that queue, in order; the other
      actions are not JSON, or cannot be turned into an RPC. */
  lemma SentAreHandedOn(cfg: Config, queues: Queues, es: seq<Event>, last: World, queue: string) returns (texts: seq<string>)
    requires Run(cfg, World(queues, []), es, last)
    ensures Subsequence(texts, HandedOn(last.turns, queue)) && Converted(cfg, texts, Sent(last.turns, queue))
  {
    RpcIsTheActionTaken(cfg, World(queues, []), es, last);
    texts := SentAmongTurns(cfg, last.turns, queue);
  }

  lemma {:induction false} HandedOnAmongTurns(cfg: Config, turns: seq<Turn>, queue: string)
    requires forall t | t in turns :: Genuine(cfg, t)
    ensures |HandedOn(turns, queue)| <= |Removed(turns, queue)|
    ensures HandedOn(turns, queue) == Removed(turns, queue) <==> forall t | t in turns :: Whole(t, queue)
  {
    if turns != [] {
      var t := turns[0];
      HandedOnAmongTurns(cfg, turns[1..], queue);
      assert t in turns && forall u :: u in turns <==> u == t || u in turns[1..];
      var a, b := HandedOn(turns[1..], queue), Removed(turns[1..], queue);
      if t.queue == queue && t.removed.Some? {
        assert ([t.removed.value] + b)[1..] == b && ([t.removed.value] + b)[0] == t.removed.value;
        if t.received.Some? {
          assert ([t.received.value] + a)[1..] == a && ([t.received.value] + a)[0] == t.received.value;
        }
      } else {
        assert HandedOn(turns, queue) == a && Removed(turns, queue) == b;
      }
    }
  }

  /** No fetch on a queue breaks off, or brings in damaged text, after it has removed its action. */
  ghost predicate AllWhole(cfg: Config, w: World, es: seq<Event>, queue: string)
    decreases |es|
  {
    es != [] ==> Possible(es[0]) && (es[0].Ask? ==> Whole(Answered(cfg, w, es[0]), queue)) && AllWhole(cfg, Step(cfg, w, es[0]), es[1..], queue)
  }

  lemma {:induction false} WholeTurns(cfg: Config, w: World, es: seq<Event>, last: World, queue: string)
    requires Run(cfg, w, es, last)
    ensures (forall t | t in last.turns :: Whole(t, queue)) <==>
            (forall t | t in w.turns :: Whole(t, queue)) && AllWhole(cfg, w, es, queue)
    decreases |es|
  {
    if es != [] {
      var next := Step(cfg, w, es[0]);
      WholeTurns(cfg, next, es[1..], last, queue);
      if es[0].Ask? {
        var t := Answered(cfg, w, es[0]);
        assert forall u :: u in next.turns <==> u in w.turns || u == t;
      }
    }
  }

  /** What was in a queue and what was put into it is what successful fetches have handed on followed by
      what is left, exactly when every fetch got the whole of the action that it took off the queue; a
      get is not acknowledged, so an action whose fetch breaks off is gone. */
  lemma HandedOnIff(cfg: Config, queues: Queues, es: seq<Event>, last: World, queue: string)
    requires Run(cfg, World(queues, []), es, last)
    ensures Contents(queues, queue) + Puts(es, queue) == HandedOn(last.turns, queue) + Contents(last.queues, queue) <==>
            AllWhole(cfg, World(queues, []), es, queue)
  {
    var w := World(queues, []);
    Conservation(cfg, w, es, last, queue);
    RpcIsTheActionTaken(cfg, w, es, last);
    HandedOnAmongTurns(cfg, last.turns, queue);
    WholeTurns(cfg, w, es, last, queue);
    var left, handed, removed := Contents(last.queues, queue), HandedOn(last.turns, queue), Removed(last.turns, queue);
    assert (handed + left)[..|handed|] == handed && (removed + left)[..|removed|] == removed;
    assert Removed(w.turns, queue) + Contents(queues, queue) == Contents(queues, queue);
    assert |handed + left| == |removed + left| ==> |handed| == |removed|;
  }

  /** The broker may break off, but what it delivers of an action without NULs is that action. */
  ghost predicate Truthful(cfg: Config, w: World, e: Event)
    requires Possible(e)
  {
    e.Ask? && Answered(cfg, w, e).received.Some? ==>
      var action := Answered(cfg, w, e).removed;
      action.Some? && '\0' !in action.value && Honest(e.script, action.value)
  }

  /** With such a broker a fetch gets the whole of its action exactly when it is not lost. */
  lemma WholeIff(cfg: Config, w: World, e: Event, queue: string)
    requires e.Ask? && Possible(e) && Truthful(cfg, w, e)
    ensures Whole(Answered(cfg, w, e), queue) <==> QueueFor(cfg, e.headers) != queue || OutcomeOf(cfg, w.queues, e) != Lost
  {
    var t := Answered(cfg, w, e);
    if t.received.Some? {
      DeliversAction(e.script, t.removed.value);
    }
  }

  ghost predicate AllTruthful(cfg: Config, w: World, es: seq<Event>)
    decreases |es|
  {
    es != [] ==> Possible(es[0]) && Truthful(cfg, w, es[0]) && AllTruthful(cfg, Step(cfg, w, es[0]), es[1..])
  }

  ghost predicate NoneLost(cfg: Config, w: World, es: seq<Event>, queue: string)
    decreases |es|
  {
    es != [] ==>
      && Possible(es[0])
      && (es[0].Ask? && QueueFor(cfg, es[0].headers) == queue ==> OutcomeOf(cfg, w.queues, es[0]) != Lost)
      && NoneLost(cfg, Step(cfg, w, es[0]), es[1..], queue)
  }

  lemma {:induction false} NoneLostIff(cfg: Config, w: World, es: seq<Event>, queue: string)
    requires AllTruthful(cfg, w, es)
    ensures AllWhole(cfg, w, es, queue) <==> NoneLost(cfg, w, es, queue)
    decreases |es|
  {
    if es != [] {
      if es[0].Ask? {
        WholeIff(cfg, w, es[0], queue);
      }
      NoneLostIff(cfg, Step(cfg, w, es[0]), es[1..], queue);
    }
  }

  /** The same with a broker that may break off but does not damage: nothing is missing exactly when no
      fetch on the queue has broken off after the broker had removed its action. */
  lemma NothingMissingIff(cfg: Config, queues: Queues, es: seq<Event>, last: World, queue: string)
    requires Run(cfg, World(queues, []), es, last) && AllTruthful(cfg, World(queues, []), es)
    ensures Contents(queues, queue) + Puts(es, queue) == HandedOn(last.turns, queue) + Contents(last.queues, queue) <==>
            NoneLost(cfg, World(queues, []), es, queue)
  {
    HandedOnIff(cfg, queues, es, last, queue);
    NoneLostIff(cfg, World(queues, []), es, queue);
  }

  /** A broker that answers the get, and then goes away. */
  const BREAKS_OFF := Script(true, true, true, true, true, true, true, NormalReply, None, [])

  /** An empty POST with credentials and no cookie asks for an action. */
  lemma EmptyPostFetches(cfg: Config, addr: string, auth: string) returns (headers: Headers)
    ensures Mandatory(headers) && Wants(cfg, headers, "")
    ensures headers == map[RequestMethod := "POST", ContentLength := "0", RemoteAddr := addr, HttpAuthorization := auth]
  {
    headers := map[RequestMethod := "POST", ContentLength := "0", RemoteAddr := addr, HttpAuthorization := auth];
    assert "0"[1..] == [] && Digits("0", 0) == 0;
    assert Atoi(headers[ContentLength]) == 0;
  }

  /** A run that loses an action: it is put into the queue of a device, the device asks, and afterwards
      the action is neither in the queue nor handed on. */
  lemma LosingRun(cfg: Config, addr: string, auth: string, text: string) returns (es: seq<Event>, last: World, queue: string)
    ensures Run(cfg, World(map[], []), es, last)
    ensures Puts(es, queue) == [text] && HandedOn(last.turns, queue) == [] && Contents(last.queues, queue) == []
    ensures |last.turns| == 1 && last.turns[0].reply == ServerError
  {
    var headers := EmptyPostFetches(cfg, addr, auth);
    queue := OwnQueue(cfg, headers);
    TagSays(cfg, headers, "");
    var put, ask := Put(queue, text), Ask(headers, "", BREAKS_OFF);
    es := [put, ask];
    var w := Step(cfg, World(map[], []), put);
    assert Contents(w.queues, queue) == [text];
    last := Step(cfg, w, ask);
    assert es[1..] == [ask] && [ask][1..] == [] && Puts([ask], queue) == [];
    assert Run(cfg, last, [], last) && Run(cfg, w, [ask], last);
    assert last.turns == [Answered(cfg, w, ask)] && last.turns[1..] == [];
  }
}
