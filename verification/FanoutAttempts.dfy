/** How often devices are called when connection requests go round through the delay queue, and when
    add object responses bring out new ones. */
module FanoutAttempts {
  import opened Wrappers
  import opened Fanout
  import opened FanoutAccounts
  import opened FanoutTermination
  import opened FanoutDuplicates
  import opened FanoutOrder

  /** Attempts that a message can lead to when `c` connectors and `h` back ends with relay messages
      get it, it has an archive, and its ttl is `t`. */
  function Rounds(c: nat, h: nat, t: nat, response: bool): nat
    decreases response, t, 1
  {
    Times(c, Calls(c, h, t, response)) + if response then Times(h, Rounds(c, h, 5, false)) else 0
  }

  /** Attempts that one connector makes of it: its own, and those of the retry. */
  function Calls(c: nat, h: nat, t: nat, response: bool): nat
    decreases response, t, 0
  {
    if t == 0 then 0 else 1 + Rounds(c, h, t - 1, response)
  }

  predicate Responds(m: Msg) {
    m.kind == AddObjectResponse(true)
  }

  /** Attempts in the relay messages for one response: their connection request has ttl 5. */
  function RelayedCalls(cfg: seq<Node>): nat {
    Rounds(Connectors(cfg), Handlers(cfg), 5, false)
  }

  /** The retry copies the archive; a message without one raises an error there and is not queued again. */
  function CallsFor(cfg: seq<Node>, m: Msg): nat {
    if m.archive.None? && Ttl(m) > 0 then 1 else Calls(Connectors(cfg), Handlers(cfg), Ttl(m), Responds(m))
  }

  /** What a delivery is good for, by the kind of the back end that gets it. */
  function CallRates(cfg: seq<Node>, m: Msg): Rates {
    Rates(0, CallsFor(cfg, m), 0, if Responds(m) then RelayedCalls(cfg) else 0)
  }

  function CallPrice(cfg: seq<Node>): Price {
    m => CallRates(cfg, m)
  }

  /** What a broadcast is good for. */
  function BroadcastCalls(cfg: seq<Node>, m: Msg): nat {
    Times(Connectors(cfg), CallsFor(cfg, m)) + if Responds(m) then Times(Handlers(cfg), RelayedCalls(cfg)) else 0
  }

  lemma WorthIsCalls(cfg: seq<Node>, m: Msg)
    ensures Worth(cfg, CallPrice(cfg), 0, m) == BroadcastCalls(cfg, m)
  {
    PartsByKind(cfg, Archive(m), CallRates(cfg, m));
  }

  /** Attempts that are still possible with what is under way. */
  function Tries(cfg: seq<Node>, w: World): nat
    requires Shaped(cfg, w)
  {
    Account(cfg, CallPrice(cfg), 0, w)
  }

  // ---- One reaction ----

  lemma OneComing(cfg: seq<Node>, m: Msg)
    ensures Coming(cfg, CallPrice(cfg), 0, [m]) == BroadcastCalls(cfg, m)
  {
    ComingOne(cfg, CallPrice(cfg), 0, m);
    WorthIsCalls(cfg, m);
  }

  /** Nothing that can lead to an attempt is let slip: attempts fail, and responses find their relay
      messages. */
  predicate Spends(cfg: seq<Node>, records: seq<Record>, n: nat, m: Msg, choice: Choice)
    requires n < |cfg|
  {
    match cfg[n] {
      case Connector => Ttl(m) > 0 ==> choice.gate && choice.validUrl && choice.fails
      case Handler(peer) => Responds(m) ==> choice.gate && Finds(records, choice.pick, peer)
      case _ => true
    }
  }

  ghost predicate Balanced(cfg: seq<Node>, n: nat, m: Msg, out: Reaction, spends: bool)
    requires n < |cfg|
  {
    var made := out.attempts + Coming(cfg, CallPrice(cfg), 0, HandedOver(out));
    var share := Share(CallPrice(cfg), cfg[n], m);
    made <= share && (spends ==> made == share)
  }

  lemma NoCalls(cfg: seq<Node>, b: Msg)
    requires b.ttl.None? && !Responds(b)
    ensures BroadcastCalls(cfg, b) == 0 && Coming(cfg, CallPrice(cfg), 0, [b]) == 0
  {
    OneComing(cfg, b);
  }

  /** With an archive, a broadcast is good for what its ttl says. */
  lemma ArchivedCalls(cfg: seq<Node>, m: Msg)
    requires m.archive.Some?
    ensures BroadcastCalls(cfg, m) == Rounds(Connectors(cfg), Handlers(cfg), Ttl(m), Responds(m))
  {
  }

  /** A failed attempt leaves, in its retry, all the attempts that its delivery was still good for. */
  lemma RetryCalls(cfg: seq<Node>, m: Msg)
    requires Ttl(m) > 0 && m.archive.Some?
    ensures 1 + Coming(cfg, CallPrice(cfg), 0, [m.(ttl := Some(m.ttl.value - 1))]) == CallsFor(cfg, m)
  {
    OneComing(cfg, m.(ttl := Some(m.ttl.value - 1)));
    ArchivedCalls(cfg, m.(ttl := Some(m.ttl.value - 1)));
  }

  lemma ConnectorBalanced(cfg: seq<Node>, n: nat, records: seq<Record>, template: Msg, m: Msg, choice: Choice)
    requires n < |cfg| && cfg[n].Connector?
    ensures Balanced(cfg, n, m, React(cfg, records, template, n, m, choice), Spends(cfg, records, n, m, choice))
  {
    if Ttl(m) > 0 && m.archive.Some? {
      RetryCalls(cfg, m);
    }
  }

  lemma RelayBalanced(cfg: seq<Node>, ms: seq<Msg>)
    requires RelayShape(ms)
    ensures Coming(cfg, CallPrice(cfg), 0, ms) == if ms == [] then 0 else RelayedCalls(cfg)
  {
    if ms != [] {
      assert ms == [ms[0]] + [ms[1]];
      ComingConcat(cfg, CallPrice(cfg), 0, [ms[0]], [ms[1]]);
      NoCalls(cfg, ms[0]);
      OneComing(cfg, ms[1]);
      ArchivedCalls(cfg, ms[1]);
    }
  }

  /** An attempt is paid for by the delivery it answers, and so is everything that a reaction makes
      possible. */
  lemma ReactionTries(cfg: seq<Node>, records: seq<Record>, template: Msg, n: nat, m: Msg, choice: Choice)
    requires n < |cfg| && forall r | r in records :: RelayShape(r.relay)
    ensures Balanced(cfg, n, m, React(cfg, records, template, n, m, choice), Spends(cfg, records, n, m, choice))
  {
    match cfg[n] {
      case Connector =>
        ConnectorBalanced(cfg, n, records, template, m, choice);
      case Handler(peer) =>
        if Finds(records, choice.pick, peer) {
          assert records[choice.pick] in records;
          RelayBalanced(cfg, records[choice.pick].relay);
        }
      case _ =>
        var out := React(cfg, records, template, n, m, choice);
        if out.handed.Some? {
          NoCalls(cfg, out.template);
        }
    }
  }

  // ---- One step ----

  ghost predicate StepSpends(cfg: seq<Node>, w: World, e: Event)
    requires Possible(cfg, w, e)
  {
    e.Deliver? ==> Spends(cfg, w.records, w.inflight[e.index].node, w.inflight[e.index].msg, e.choice)
  }

  ghost predicate Conserved(cfg: seq<Node>, w: World, next: World, change: int, spends: bool)
    requires Shaped(cfg, w) && Shaped(cfg, next)
  {
    && next.attempts + Tries(cfg, next) <= w.attempts + Tries(cfg, w) + change
    && (spends ==> next.attempts + Tries(cfg, next) == w.attempts + Tries(cfg, w) + change)
  }

  /** Only the delay template of a connector counts: what else is broadcast leads to no attempt. */
  predicate RetryUntouched(cfg: seq<Node>, w: World, e: Event)
    requires Possible(cfg, w, e)
  {
    e.Deliver? && cfg[w.inflight[e.index].node].Connector? ==> Untouched(cfg, w, e)
  }

  lemma RetryUntouchedKeeps(cfg: seq<Node>, w: World, e: Event)
    requires Sound(cfg, w) && Possible(cfg, w, e) && RetryUntouched(cfg, w, e)
    ensures Rewritten(cfg, CallPrice(cfg), 0, w, e) == 0
  {
    match e {
      case Deliver(i, choice) =>
        var n := w.inflight[i].node;
        RaisedIff(cfg, CallPrice(cfg), 0, w, i, choice);
        if HasPrimary(cfg[n]) {
          ReactionSound(cfg, w.records, w.templates[n], n, w.inflight[i].msg, choice);
          NoCalls(cfg, w.templates[n]);
          NoCalls(cfg, ReactionTo(cfg, w, i, choice).template);
          WorthIsCalls(cfg, w.templates[n]);
          WorthIsCalls(cfg, ReactionTo(cfg, w, i, choice).template);
        }
      case _ =>
    }
  }

  /** Attempts made plus attempts possible change by what an input brings in and by what is written into
      templates that lists wait with; beyond that they never grow, and stay the same while nothing is
      let slip. */
  lemma TriesStep(cfg: seq<Node>, w: World, e: Event)
    requires Sound(cfg, w) && Possible(cfg, w, e)
    ensures Shaped(cfg, Step(cfg, w, e))
    ensures Conserved(cfg, w, Step(cfg, w, e),
                      Brings(cfg, CallPrice(cfg), 0, e) + Rewritten(cfg, CallPrice(cfg), 0, w, e), StepSpends(cfg, w, e))
  {
    StepAccount(cfg, CallPrice(cfg), 0, w, e);
    StepMakes(cfg, w, e);
    RepeatOnce(Made(cfg, w, e));
    match e {
      case Deliver(i, choice) =>
        ReactionTries(cfg, w.records, w.templates[w.inflight[i].node], w.inflight[i].node, w.inflight[i].msg, choice);
      case _ =>
    }
  }

  /** Writing a template keeps the count exactly when no list waits with it or what is written is good for
      as many attempts as what was there. */
  lemma CountKeptIff(cfg: seq<Node>, w: World, i: nat, choice: Choice)
    requires Sound(cfg, w) && Possible(cfg, w, Deliver(i, choice)) && StepSpends(cfg, w, Deliver(i, choice))
    ensures Shaped(cfg, Step(cfg, w, Deliver(i, choice)))
    ensures var next, n := Step(cfg, w, Deliver(i, choice)), w.inflight[i].node;
            next.attempts + Tries(cfg, next) == w.attempts + Tries(cfg, w) <==>
            || WaitingFor(w.lists, n) == 0
            || BroadcastCalls(cfg, ReactionTo(cfg, w, i, choice).template) == BroadcastCalls(cfg, w.templates[n])
  {
    TriesStep(cfg, w, Deliver(i, choice));
    RaisedIff(cfg, CallPrice(cfg), 0, w, i, choice);
    WorthIsCalls(cfg, w.templates[w.inflight[i].node]);
    WorthIsCalls(cfg, ReactionTo(cfg, w, i, choice).template);
  }

  // ---- Every run ----

  ghost predicate AllSpent(cfg: seq<Node>, w: World, es: seq<Event>)
    decreases |es|
  {
    es != [] ==> Possible(cfg, w, es[0]) && StepSpends(cfg, w, es[0]) && AllSpent(cfg, Step(cfg, w, es[0]), es[1..])
  }

  ghost predicate RetriesUntouched(cfg: seq<Node>, w: World, es: seq<Event>)
    decreases |es|
  {
    es != [] ==> Possible(cfg, w, es[0]) && RetryUntouched(cfg, w, es[0]) && RetriesUntouched(cfg, Step(cfg, w, es[0]), es[1..])
  }

  lemma {:induction false} NoRetryRewritten(cfg: seq<Node>, w: World, es: seq<Event>)
    requires Sound(cfg, w) && RetriesUntouched(cfg, w, es)
    ensures RewrittenIn(cfg, CallPrice(cfg), 0, w, es) == 0
    decreases |es|
  {
    if es != [] {
      RetryUntouchedKeeps(cfg, w, es[0]);
      StepSound(cfg, w, es[0]);
      NoRetryRewritten(cfg, Step(cfg, w, es[0]), es[1..]);
    }
  }

  lemma {:induction false} TriesRun(cfg: seq<Node>, w: World, es: seq<Event>, last: World)
    requires Sound(cfg, w) && Run(cfg, w, es, last)
    ensures Sound(cfg, last)
    ensures Conserved(cfg, w, last, BroughtIn(cfg, CallPrice(cfg), 0, es) + RewrittenIn(cfg, CallPrice(cfg), 0, w, es), AllSpent(cfg, w, es))
    decreases |es|
  {
    if es != [] {
      TriesStep(cfg, w, es[0]);
      StepSound(cfg, w, es[0]);
      TriesRun(cfg, Step(cfg, w, es[0]), es[1..], last);
    }
  }

  /** From every reachable world, and whatever comes in, responses included: there are no more attempts
      than were still possible, plus what the inputs bring in, plus what writes to templates with waiting
      lists have changed; and exactly that many when nothing is let slip and the system has come to rest. */
  lemma AttemptsCounted(cfg: seq<Node>, past: seq<Event>, w: World, es: seq<Event>, last: World)
    requires Run(cfg, Start(cfg), past, w) && Run(cfg, w, es, last)
    ensures Shaped(cfg, w)
    ensures var due := Tries(cfg, w) + BroughtIn(cfg, CallPrice(cfg), 0, es) + RewrittenIn(cfg, CallPrice(cfg), 0, w, es);
            && last.attempts - w.attempts <= due
            && (AllSpent(cfg, w, es) && AtRest(last) ==> last.attempts - w.attempts == due)
  {
    Reachable(cfg, past, w);
    TriesRun(cfg, w, es, last);
  }

  // ---- The count is reached ----

  /** Whoever sends on relay messages can find some. */
  ghost predicate RelaysStored(cfg: seq<Node>, records: seq<Record>) {
    forall n | 0 <= n < |cfg| && cfg[n].Handler? :: exists k :: 0 <= k < |records| && Finds(records, k, cfg[n].peer)
  }

  lemma RecordsStay(cfg: seq<Node>, w: World, e: Event)
    requires Possible(cfg, w, e) && RelaysStored(cfg, w.records)
    ensures RelaysStored(cfg, Step(cfg, w, e).records)
  {
    match e {
      case Deliver(i, choice) =>
        var r := ReactionTo(cfg, w, i, choice);
        forall n | 0 <= n < |cfg| && cfg[n].Handler?
          ensures exists k :: 0 <= k < |w.records + r.stored| && Finds(w.records + r.stored, k, cfg[n].peer)
        {
          var k :| 0 <= k < |w.records| && Finds(w.records, k, cfg[n].peer);
          assert (w.records + r.stored)[k] == w.records[k] && Finds(w.records + r.stored, k, cfg[n].peer);
        }
      case Publish(i) =>
        BroadcastMembers(|cfg|, w.(lists := RemoveAt(w.lists, i)), Held(w.templates, w.lists[i]));
      case Expire(i) =>
        BroadcastMembers(|cfg|, w.(delay := RemoveAt(w.delay, i)), [w.delay[i]]);
      case Input(m) =>
        BroadcastMembers(|cfg|, w, [m]);
    }
  }

  /** A step that lets nothing slip and writes no template while a list waits. */
  lemma SpendingEvent(cfg: seq<Node>, w: World) returns (e: Event)
    requires Sound(cfg, w) && RelaysStored(cfg, w.records) && !AtRest(w)
    ensures !e.Input? && Possible(cfg, w, e) && StepSpends(cfg, w, e) && Untouched(cfg, w, e) && InOrder(w, e)
  {
    if w.lists != [] {
      assert w.lists[0] in w.lists;
      e := Publish(0);
    } else if w.inflight == [] {
      e := Expire(0);
    } else {
      var d := w.inflight[0];
      assert d in w.inflight;
      var pick: nat := 0;
      if cfg[d.node].Handler? {
        pick :| 0 <= pick < |w.records| && Finds(w.records, pick, cfg[d.node].peer);
      }
      e := Deliver(0, Choice(true, true, pick, true, true));
    }
  }

  /** It keeps what is possible, and leaves fewer steps. */
  lemma SpendingStep(cfg: seq<Node>, limit: nat, w: World) returns (e: Event)
    requires Sound(cfg, w) && RelaysStored(cfg, w.records) && Limited(limit, w) && !AtRest(w)
    ensures !e.Input? && Possible(cfg, w, e) && StepSpends(cfg, w, e) && Untouched(cfg, w, e) && InOrder(w, e)
    ensures var next := Step(cfg, w, e);
            && Sound(cfg, next) && RelaysStored(cfg, next.records) && Limited(limit, next)
            && LeftFor(cfg, limit, next) < LeftFor(cfg, limit, w)
            && next.attempts + Tries(cfg, next) == w.attempts + Tries(cfg, w)
  {
    e := SpendingEvent(cfg, w);
    InternalStep(cfg, limit, w, e);
    RecordsStay(cfg, w, e);
    TriesStep(cfg, w, e);
    UntouchedKeeps(cfg, CallPrice(cfg), 0, w, e);
  }

  lemma NothingAtRest(cfg: seq<Node>, w: World)
    requires Shaped(cfg, w) && AtRest(w)
    ensures Tries(cfg, w) == 0
  {
  }

  lemma Prepended(cfg: seq<Node>, w: World, e: Event, rest: seq<Event>, last: World)
    requires !e.Input? && Possible(cfg, w, e) && StepSpends(cfg, w, e) && Untouched(cfg, w, e) && InOrder(w, e)
    requires var next := Step(cfg, w, e);
             && Run(cfg, next, rest, last) && NoInput(rest) && AllSpent(cfg, next, rest) && AllUntouched(cfg, next, rest)
             && Ordered(cfg, next, rest)
    ensures var es := [e] + rest;
            && Run(cfg, w, es, last) && NoInput(es) && AllSpent(cfg, w, es) && AllUntouched(cfg, w, es) && Ordered(cfg, w, es)
  {
    assert ([e] + rest)[1..] == rest;
  }

  lemma {:induction false} SpendingSteps(cfg: seq<Node>, limit: nat, w: World) returns (es: seq<Event>, last: World)
    requires Sound(cfg, w) && RelaysStored(cfg, w.records) && Limited(limit, w)
    ensures Run(cfg, w, es, last) && NoInput(es) && AllSpent(cfg, w, es) && AllUntouched(cfg, w, es) && Ordered(cfg, w, es) && AtRest(last)
    ensures last.attempts == w.attempts + Tries(cfg, w)
    decreases LeftFor(cfg, limit, w)
  {
    if AtRest(w) {
      NothingAtRest(cfg, w);
      es, last := [], w;
    } else {
      var e := SpendingStep(cfg, limit, w);
      var rest;
      rest, last := SpendingSteps(cfg, limit, Step(cfg, w, e));
      Prepended(cfg, w, e, rest, last);
      es := [e] + rest;
    }
  }

  /** Every world in which relay messages can be found comes to rest in a run that makes all the attempts
      that are possible. */
  lemma SpendingRun(cfg: seq<Node>, w: World) returns (es: seq<Event>, last: World)
    requires Sound(cfg, w) && RelaysStored(cfg, w.records)
    ensures Run(cfg, w, es, last) && NoInput(es) && AllSpent(cfg, w, es) && AllUntouched(cfg, w, es) && Ordered(cfg, w, es) && AtRest(last)
    ensures last.attempts == w.attempts + Tries(cfg, w)
  {
    WithinLimit(w);
    es, last := SpendingSteps(cfg, Limit(Everything(w)), w);
  }

  // ---- What the front end can cause ----

  /** Inputs of the front end carry no ttl. */
  ghost predicate NoTtl(es: seq<Event>) {
    forall i | 0 <= i < |es| && es[i].Input? :: es[i].msg.ttl == None
  }

  predicate Retriable(m: Msg) {
    m.ttl.Some? ==> m.archive.Some?
  }

  ghost predicate TtlArchived(w: World) {
    && (forall d | d in w.inflight :: Retriable(d.msg))
    && (forall m | m in w.delay :: Retriable(m))
    && (forall t | t in w.templates :: Retriable(t))
  }

  lemma StepArchived(cfg: seq<Node>, w: World, e: Event)
    requires Sound(cfg, w) && TtlArchived(w) && Possible(cfg, w, e) && (e.Input? ==> e.msg.ttl == None)
    ensures TtlArchived(Step(cfg, w, e))
  {
    match e {
      case Deliver(i, choice) =>
        var d := w.inflight[i];
        assert d in w.inflight && w.templates[d.node] in w.templates;
        Around(w.inflight, i);
        assert Retriable(ReactionTo(cfg, w, i, choice).template);
      case Publish(i) =>
        assert w.lists[i] in w.lists && w.templates[w.lists[i].node] in w.templates;
        BroadcastMembers(|cfg|, w.(lists := RemoveAt(w.lists, i)), Held(w.templates, w.lists[i]));
      case Expire(i) =>
        assert w.delay[i] in w.delay;
        Around(w.delay, i);
        BroadcastMembers(|cfg|, w.(delay := RemoveAt(w.delay, i)), [w.delay[i]]);
      case Input(m) =>
        BroadcastMembers(|cfg|, w, [m]);
    }
  }

  lemma {:induction false} RunArchived(cfg: seq<Node>, w: World, es: seq<Event>, last: World)
    requires Sound(cfg, w) && TtlArchived(w) && Run(cfg, w, es, last) && NoTtl(es)
    ensures TtlArchived(last)
    decreases |es|
  {
    if es != [] {
      StepArchived(cfg, w, es[0]);
      StepSound(cfg, w, es[0]);
      RunArchived(cfg, Step(cfg, w, es[0]), es[1..], last);
    }
  }

  /** In every run on inputs of the front end, whatever carries a ttl, in flight, delayed or in a template,
      carries an archive too: every connection request that the back ends make can be retried. */
  lemma RequestsHaveArchives(cfg: seq<Node>, es: seq<Event>, last: World)
    requires Run(cfg, Start(cfg), es, last) && NoTtl(es)
    ensures TtlArchived(last)
  {
    StartSound(cfg);
    RunArchived(cfg, Start(cfg), es, last);
  }

  lemma {:induction false} OneConnector(h: nat, t: nat)
    ensures Calls(1, h, t, false) == t && Rounds(1, h, t, false) == t
  {
    if t > 0 {
      OneConnector(h, t - 1);
    }
  }

  function Responses(es: seq<Event>): nat {
    if es == [] then 0 else (if es[0].Input? && Responds(es[0].msg) then 1 else 0) + Responses(es[1..])
  }

  lemma FrontEndBrings(cfg: seq<Node>, e: Event, each: nat)
    requires Connectors(cfg) == 1 && (e.Input? ==> e.msg.ttl == None) && each == Times(Handlers(cfg), 5)
    ensures Brings(cfg, CallPrice(cfg), 0, e) == if e.Input? && Responds(e.msg) then each else 0
  {
    OneConnector(Handlers(cfg), 5);
    if e.Input? {
      WorthIsCalls(cfg, e.msg);
    }
  }

  lemma {:induction false} FrontEndBringsIn(cfg: seq<Node>, es: seq<Event>, each: nat)
    requires Connectors(cfg) == 1 && NoTtl(es) && each == Times(Handlers(cfg), 5)
    ensures BroughtIn(cfg, CallPrice(cfg), 0, es) == Times(Responses(es), each)
  {
    if es != [] {
      FrontEndBrings(cfg, es[0], each);
      FrontEndBringsIn(cfg, es[1..], each);
      Distribute(es[0].Input? && Responds(es[0].msg), Responses(es[1..]), each);
    }
  }

  lemma NothingToStartWith(cfg: seq<Node>)
    ensures Shaped(cfg, Start(cfg)) && Tries(cfg, Start(cfg)) == 0
  {
  }

  /** With one connector, whatever the front end sends: five attempts for every successful add object
      response and every back end that sends on its relay messages, plus what writes to a delay template
      with waiting retries have changed, is the most there can be, and what there is when nothing is let
      slip. When nobody writes the template while a retry waits, it is five. */
  lemma FiveAttempts(cfg: seq<Node>, es: seq<Event>, last: World)
    requires Connectors(cfg) == 1 && Run(cfg, Start(cfg), es, last) && NoTtl(es)
    ensures var five, changed := Times(Responses(es), Times(Handlers(cfg), 5)), RewrittenIn(cfg, CallPrice(cfg), 0, Start(cfg), es);
            && last.attempts <= five + changed
            && (AllSpent(cfg, Start(cfg), es) && AtRest(last) ==> (last.attempts == five <==> changed == 0))
            && (RetriesUntouched(cfg, Start(cfg), es) ==> changed == 0)
  {
    AttemptsCounted(cfg, [], Start(cfg), es, last);
    NothingToStartWith(cfg);
    FrontEndBringsIn(cfg, es, Times(Handlers(cfg), 5));
    if RetriesUntouched(cfg, Start(cfg), es) {
      StartSound(cfg);
      NoRetryRewritten(cfg, Start(cfg), es);
    }
  }
}
