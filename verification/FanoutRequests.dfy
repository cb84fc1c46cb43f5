/** One connection request on its own: its retries never overlap. It is tried as often as its ttl says when
    every attempt fails, unless it has no archive: a retry copies the archive of the request, and
    without one there is no retry. */
module FanoutRequests {
  import opened Wrappers
  import opened Fanout
  import opened FanoutAccounts
  import opened FanoutTermination
  import opened FanoutDuplicates
  import opened FanoutAttempts

  /** Messages with a ttl, wherever they are, and those that responses can bring. */
  function TokenRates(cfg: seq<Node>, m: Msg): Rates {
    Rates(0, if m.ttl.Some? then 1 else 0, 0, 0)
  }

  function TokenPrice(cfg: seq<Node>): Price {
    m => TokenRates(cfg, m)
  }

  function Tokens(cfg: seq<Node>, w: World): nat
    requires Shaped(cfg, w)
  {
    Account(cfg, TokenPrice(cfg), 0, w)
  }

  lemma WorthIsToken(cfg: seq<Node>, m: Msg)
    requires Connectors(cfg) == 1
    ensures Worth(cfg, TokenPrice(cfg), 0, m) == if m.ttl.Some? then 1 else 0
  {
    PartsByKind(cfg, Archive(m), TokenRates(cfg, m));
  }

  /** No response is around, and a retry that waits has a ttl. */
  ghost predicate Lonely(cfg: seq<Node>, w: World) {
    && Sound(cfg, w) && Connectors(cfg) == 1
    && (forall d | d in w.inflight :: !Responds(d.msg))
    && (forall m | m in w.delay :: !Responds(m))
    && (forall l | l in w.lists ::
          l.handed == Template && (cfg[l.node].Connector? ==> w.templates[l.node].ttl.Some? && !Responds(w.templates[l.node])))
  }

  lemma {:induction false} WaitingIsDue(cfg: seq<Node>, price: Price, unit: nat, templates: seq<Msg>, lists: seq<Waiting>, n: nat)
    requires Known(templates, lists) && n < |templates| && WaitingFor(lists, n) > 0
    ensures Waiting(n, Template) in lists
    ensures Due(cfg, price, unit, templates, lists) >= Worth(cfg, price, unit, templates[n])
  {
    if lists[0] == Waiting(n, Template) {
      ComingOne(cfg, price, unit, templates[n]);
    } else {
      WaitingIsDue(cfg, price, unit, templates, lists[1..], n);
    }
  }

  lemma TwoTokens(cfg: seq<Node>, w: World, i: nat)
    requires Lonely(cfg, w) && i < |w.inflight| && w.inflight[i].node < |cfg| && cfg[w.inflight[i].node].Connector?
    requires WaitingFor(w.lists, w.inflight[i].node) > 0 && w.inflight[i].msg.ttl.Some?
    ensures Tokens(cfg, w) >= 2
  {
    var n := w.inflight[i].node;
    WaitingIsDue(cfg, TokenPrice(cfg), 0, w.templates, w.lists, n);
    WorthIsToken(cfg, w.templates[n]);
    FlyingRemove(cfg, TokenPrice(cfg), w.inflight, i);
  }

  /** While there is one message with a ttl, its retry waits alone. */
  lemma WaitsAlone(cfg: seq<Node>, w: World, e: Event)
    requires Lonely(cfg, w) && Tokens(cfg, w) <= 1 && Possible(cfg, w, e) && !e.Input?
    ensures RetryUntouched(cfg, w, e)
  {
    if e.Deliver? {
      var n, m := w.inflight[e.index].node, w.inflight[e.index].msg;
      if cfg[n].Connector? && WaitingFor(w.lists, n) > 0 && m.ttl.Some? {
        TwoTokens(cfg, w, e.index);
      }
    }
  }

  lemma StepLonely(cfg: seq<Node>, w: World, e: Event)
    requires Lonely(cfg, w) && Possible(cfg, w, e) && !e.Input?
    ensures Lonely(cfg, Step(cfg, w, e))
  {
    StepSound(cfg, w, e);
    match e {
      case Deliver(i, choice) =>
        assert w.inflight[i] in w.inflight;
        Around(w.inflight, i);
        if HasPrimary(cfg[w.inflight[i].node]) {
          ReactionSound(cfg, w.records, w.templates[w.inflight[i].node], w.inflight[i].node, w.inflight[i].msg, choice);
        }
      case Publish(i) =>
        assert w.lists[i] in w.lists;
        Around(w.lists, i);
        BroadcastMembers(|cfg|, w.(lists := RemoveAt(w.lists, i)), Held(w.templates, w.lists[i]));
      case Expire(i) =>
        assert w.delay[i] in w.delay;
        Around(w.delay, i);
        BroadcastMembers(|cfg|, w.(delay := RemoveAt(w.delay, i)), [w.delay[i]]);
    }
  }

  /** A reaction makes no more messages with a ttl than it takes. */
  lemma TokenSlack(cfg: seq<Node>, w: World, i: nat, choice: Choice)
    requires Lonely(cfg, w) && Possible(cfg, w, Deliver(i, choice))
    ensures Slack(cfg, TokenPrice(cfg), 0, w, Deliver(i, choice)) >= 0
  {
    var n := w.inflight[i].node;
    assert w.inflight[i] in w.inflight;
    var r := ReactionTo(cfg, w, i, choice);
    if r.handed == Some(Template) {
      ComingOne(cfg, TokenPrice(cfg), 0, r.template);
      WorthIsToken(cfg, r.template);
    }
  }

  lemma TokenRewritten(cfg: seq<Node>, w: World, e: Event)
    requires Lonely(cfg, w) && Possible(cfg, w, e) && !e.Input? && RetryUntouched(cfg, w, e)
    ensures Rewritten(cfg, TokenPrice(cfg), 0, w, e) == 0
  {
    match e {
      case Deliver(i, choice) =>
        var n := w.inflight[i].node;
        RaisedIff(cfg, TokenPrice(cfg), 0, w, i, choice);
        if HasPrimary(cfg[n]) {
          ReactionSound(cfg, w.records, w.templates[n], n, w.inflight[i].msg, choice);
          WorthIsToken(cfg, w.templates[n]);
          WorthIsToken(cfg, ReactionTo(cfg, w, i, choice).template);
        }
      case _ =>
    }
  }

  lemma TokenStep(cfg: seq<Node>, w: World, e: Event)
    requires Lonely(cfg, w) && Tokens(cfg, w) <= 1 && Possible(cfg, w, e) && !e.Input?
    ensures Lonely(cfg, Step(cfg, w, e)) && Tokens(cfg, Step(cfg, w, e)) <= 1
  {
    StepLonely(cfg, w, e);
    WaitsAlone(cfg, w, e);
    TokenRewritten(cfg, w, e);
    StepAccount(cfg, TokenPrice(cfg), 0, w, e);
    RepeatOnce(Made(cfg, w, e));
    match e {
      case Deliver(i, choice) => TokenSlack(cfg, w, i, choice);
      case _ =>
    }
  }

  lemma {:induction false} TokenRun(cfg: seq<Node>, w: World, es: seq<Event>, last: World)
    requires Lonely(cfg, w) && Tokens(cfg, w) <= 1 && Run(cfg, w, es, last) && NoInput(es)
    ensures RetriesUntouched(cfg, w, es)
    decreases |es|
  {
    if es != [] {
      WaitsAlone(cfg, w, es[0]);
      TokenStep(cfg, w, es[0]);
      TokenRun(cfg, Step(cfg, w, es[0]), es[1..], last);
    }
  }

  lemma RequestSent(cfg: seq<Node>, w: World, m: Msg)
    requires Connectors(cfg) == 1 && Sound(cfg, w) && AtRest(w) && !Responds(m)
    ensures var sent := Step(cfg, w, Input(m));
            && Lonely(cfg, sent) && Tokens(cfg, sent) <= 1
            && sent.attempts == w.attempts && Tries(cfg, sent) == CallsFor(cfg, m)
  {
    var sent := Step(cfg, w, Input(m));
    StepSound(cfg, w, Input(m));
    BroadcastMembers(|cfg|, w, [m]);
    RepeatOnce(1);
    InputAccount(cfg, TokenPrice(cfg), 0, w, m);
    WorthIsToken(cfg, m);
    InputAccount(cfg, CallPrice(cfg), 0, w, m);
    WorthIsCalls(cfg, m);
  }

  /** A connection request with ttl t from elsewhere causes at most t attempts at one connector, for every
      pattern of failures and in every run; a negative ttl counts as 0. When all fail there are exactly t
      if and only if the request has an archive or t is at most 1. */
  lemma AttemptsBounded(cfg: seq<Node>, past: seq<Event>, w: World, m: Msg, es: seq<Event>, last: World)
    requires Connectors(cfg) == 1 && Run(cfg, Start(cfg), past, w) && AtRest(w) && |w.templates| == |cfg| && !Responds(m)
    requires Run(cfg, Step(cfg, w, Input(m)), es, last) && NoInput(es)
    ensures last.attempts - w.attempts <= Ttl(m)
    ensures AllSpent(cfg, Step(cfg, w, Input(m)), es) && AtRest(last)
            ==> (last.attempts - w.attempts == Ttl(m) <==> m.archive.Some? || Ttl(m) <= 1)
  {
    Reachable(cfg, past, w);
    var sent := Step(cfg, w, Input(m));
    RequestSent(cfg, w, m);
    TokenRun(cfg, sent, es, last);
    NoRetryRewritten(cfg, sent, es);
    TriesRun(cfg, sent, es, last);
    NothingBroughtIn(cfg, CallPrice(cfg), 0, es);
    OneConnector(Handlers(cfg), Ttl(m));
  }

  /** A request without an archive, and a run in which every attempt fails and there is only one. */
  lemma TriedOnce(t: nat) returns (es: seq<Event>, last: World)
    requires t > 1
    ensures var w := Step([Connector], Start([Connector]), Input(Msg(ConnectionRequest, None, true, Some(t))));
            Run([Connector], w, es, last) && NoInput(es) && AllSpent([Connector], w, es) && AtRest(last)
    ensures last.attempts == 1 < t
  {
    var cfg, m := [Connector], Msg(ConnectionRequest, None, true, Some(t));
    assert cfg[1..] == [] && Connectors(cfg) == 1;
    StartSound(cfg);
    RequestSent(cfg, Start(cfg), m);
    es, last := SpendingRun(cfg, Step(cfg, Start(cfg), Input(m)));
  }
}
