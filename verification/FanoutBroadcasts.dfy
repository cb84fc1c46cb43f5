/** How many broadcasts the messages of the front end cause, and what overwritten templates change about
    that. */
module FanoutBroadcasts {
  import opened Wrappers
  import opened Fanout
  import opened FanoutAccounts
  import opened FanoutTermination

  /** Broadcasts that one broadcast can cause, itself included: `k` back ends are missing from its
      archive, `t` is its ttl, and `response` says whether it is an add object response. */
  function Total(cfg: seq<Node>, k: nat, t: nat, response: bool): (r: nat)
    decreases response, k, t
  {
    1 + (if k > 0 then Times(k, Total(cfg, k - 1, 0, false)) else 0)
      + (if t > 0 then Times(Connectors(cfg), Total(cfg, k, t - 1, response)) else 0)
      + (if response then Times(TwoPhases(cfg), FromResponse(cfg, false)) + Times(Handlers(cfg), FromResponse(cfg, true)) else 0)
  }

  /** What a two-phase back end, or one that sends relay messages on, makes of a response. */
  function FromResponse(cfg: seq<Node>, relays: bool): nat
    decreases true, 0, 0, relays
  {
    Total(cfg, Missing(cfg, []), 0, false) + if relays then Total(cfg, Missing(cfg, []), 5, false) else 0
  }

  function TotalOf(cfg: seq<Node>, m: Msg): nat {
    Total(cfg, Missing(cfg, Archive(m)), Ttl(m), m.kind.AddObjectResponse?)
  }

  /** What each back end can make of a delivery. */
  function RatesOf(cfg: seq<Node>, m: Msg): Rates {
    var k, t, response := Missing(cfg, Archive(m)), Ttl(m), m.kind.AddObjectResponse?;
    Rates(if k > 0 then Total(cfg, k - 1, 0, false) else 0,
          if t > 0 then Total(cfg, k, t - 1, response) else 0,
          if response then FromResponse(cfg, false) else 0,
          if response then FromResponse(cfg, true) else 0)
  }

  function PriceOf(cfg: seq<Node>): Price {
    m => RatesOf(cfg, m)
  }

  /** Broadcasts still to come of what is under way. */
  function Potential(cfg: seq<Node>, w: World): nat
    requires Shaped(cfg, w)
  {
    Account(cfg, PriceOf(cfg), 1, w)
  }

  /** A total is made up of the rates, one for each back end of the kind. */
  lemma TotalByRates(cfg: seq<Node>, m: Msg)
    ensures var k, r := Missing(cfg, Archive(m)), RatesOf(cfg, m);
            TotalOf(cfg, m) ==
            1 + Times(k, r.open) + Times(Connectors(cfg), r.connector) + Times(TwoPhases(cfg), r.twoPhase) + Times(Handlers(cfg), r.handler)
  {
    NoTimes(Missing(cfg, Archive(m)));
    NoTimes(Connectors(cfg));
    NoTimes(TwoPhases(cfg));
    NoTimes(Handlers(cfg));
  }

  lemma NoTimes(n: nat)
    ensures Times(n, 0) == 0 == Times(0, n)
  {
  }

  lemma WorthIsTotal(cfg: seq<Node>, m: Msg)
    ensures Worth(cfg, PriceOf(cfg), 1, m) == TotalOf(cfg, m)
  {
    PartsByKind(cfg, Archive(m), RatesOf(cfg, m));
    TotalByRates(cfg, m);
  }

  lemma {:induction false} TotalMonotone(cfg: seq<Node>, k: nat, l: nat, t: nat, response: bool)
    requires k <= l
    ensures Total(cfg, k, t, response) <= Total(cfg, l, t, response)
    decreases response, l, t
  {
    if k > 0 {
      TotalMonotone(cfg, k - 1, l - 1, 0, false);
      MulMonotone(k, l, Total(cfg, k - 1, 0, false), Total(cfg, l - 1, 0, false));
    }
    if t > 0 {
      TotalMonotone(cfg, k, l, t - 1, response);
      MulMonotone(Connectors(cfg), Connectors(cfg), Total(cfg, k, t - 1, response), Total(cfg, l, t - 1, response));
    }
  }

  // ---- One reaction ----

  lemma OneComing(cfg: seq<Node>, m: Msg)
    ensures Coming(cfg, PriceOf(cfg), 1, [m]) == TotalOf(cfg, m)
  {
    ComingOne(cfg, PriceOf(cfg), 1, m);
    WorthIsTotal(cfg, m);
  }

  lemma RelayTotal(cfg: seq<Node>, ms: seq<Msg>)
    requires RelayShape(ms)
    ensures Coming(cfg, PriceOf(cfg), 1, ms) <= FromResponse(cfg, true)
  {
    if ms != [] {
      var inform, request := ms[0], ms[1];
      assert ms == [inform] + [request];
      ComingConcat(cfg, PriceOf(cfg), 1, [inform], [request]);
      OneComing(cfg, inform);
      OneComing(cfg, request);
      MissingMonotone(cfg, [], Archive(inform));
      MissingMonotone(cfg, [], Archive(request));
      TotalMonotone(cfg, Missing(cfg, Archive(inform)), Missing(cfg, []), 0, false);
      TotalMonotone(cfg, Missing(cfg, Archive(request)), Missing(cfg, []), 5, false);
    }
  }

  /** The share of a back end covers each of the ways it can react. */
  lemma ShareCovers(cfg: seq<Node>, node: Node, m: Msg)
    ensures var k, share := Missing(cfg, Archive(m)), Share(PriceOf(cfg), node, m);
            && (Open(node, Archive(m)) && k > 0 ==> Total(cfg, k - 1, 0, false) <= share)
            && (node.Connector? && Ttl(m) > 0 ==> Total(cfg, k, Ttl(m) - 1, m.kind.AddObjectResponse?) <= share)
            && (m.kind.AddObjectResponse? && node.TwoPhase? ==> FromResponse(cfg, false) <= share)
            && (m.kind.AddObjectResponse? && node.Handler? ==> FromResponse(cfg, true) <= share)
  {
  }

  ghost predicate Affordable(cfg: seq<Node>, n: nat, m: Msg, handed: seq<Msg>)
    requires n < |cfg|
  {
    Coming(cfg, PriceOf(cfg), 1, handed) <= Share(PriceOf(cfg), cfg[n], m)
  }

  /** One inform under the back end's own id. */
  lemma OpenAffordable(cfg: seq<Node>, n: nat, m: Msg, archive: seq<Id>)
    requires n < |cfg| && Open(cfg[n], Archive(m)) && !Open(cfg[n], archive) && Archive(m) <= archive
    ensures Affordable(cfg, n, m, [InformWith(archive)])
  {
    OneComing(cfg, InformWith(archive));
    MissingFalls(cfg, Archive(m), archive, n);
    TotalMonotone(cfg, Missing(cfg, archive), Missing(cfg, Archive(m)) - 1, 0, false);
    ShareCovers(cfg, cfg[n], m);
  }

  lemma SecondPhaseAffordable(cfg: seq<Node>, n: nat, m: Msg, archive: seq<Id>)
    requires n < |cfg| && cfg[n].TwoPhase? && m.kind.AddObjectResponse?
    ensures Affordable(cfg, n, m, [InformWith(archive)])
  {
    OneComing(cfg, InformWith(archive));
    MissingMonotone(cfg, [], archive);
    TotalMonotone(cfg, Missing(cfg, archive), Missing(cfg, []), 0, false);
    ShareCovers(cfg, cfg[n], m);
  }

  lemma RetryAffordable(cfg: seq<Node>, n: nat, m: Msg)
    requires n < |cfg| && cfg[n].Connector? && Ttl(m) > 0
    ensures Affordable(cfg, n, m, [m.(ttl := Some(m.ttl.value - 1))])
  {
    OneComing(cfg, m.(ttl := Some(m.ttl.value - 1)));
    ShareCovers(cfg, cfg[n], m);
  }

  /** What a back end hands over for a delivery is worth no more than its share, at that moment. */
  lemma ReactionShare(cfg: seq<Node>, records: seq<Record>, template: Msg, n: nat, m: Msg, choice: Choice)
    requires n < |cfg| && forall r | r in records :: RelayShape(r.relay)
    ensures Affordable(cfg, n, m, HandedOver(React(cfg, records, template, n, m, choice)))
  {
    var out := React(cfg, records, template, n, m, choice);
    if out.handed.Some? {
      match cfg[n] {
        case Time(_) => OpenAffordable(cfg, n, m, Archive(out.template));
        case Relay(_, _, _) => OpenAffordable(cfg, n, m, Archive(out.template));
        case Handler(_) =>
          assert records[choice.pick] in records;
          RelayTotal(cfg, records[choice.pick].relay);
          ShareCovers(cfg, cfg[n], m);
        case TwoPhase(_, _) =>
          if m.kind.Inform? {
            OpenAffordable(cfg, n, m, Archive(out.template));
          } else {
            SecondPhaseAffordable(cfg, n, m, Archive(out.template));
          }
        case Connector => RetryAffordable(cfg, n, m);
      }
    }
  }

  // ---- Every run ----

  /** A step pays for its broadcasts out of the potential, except for what it raises by writing a template
      that lists wait with. */
  lemma StepPays(cfg: seq<Node>, w: World, e: Event)
    requires Sound(cfg, w) && Possible(cfg, w, e)
    ensures Shaped(cfg, Step(cfg, w, e))
    ensures Step(cfg, w, e).broadcasts + Potential(cfg, Step(cfg, w, e))
         <= w.broadcasts + Potential(cfg, w) + Brings(cfg, PriceOf(cfg), 1, e) + Rewritten(cfg, PriceOf(cfg), 1, w, e)
  {
    StepAccount(cfg, PriceOf(cfg), 1, w, e);
    StepMakes(cfg, w, e);
    RepeatOnce(Made(cfg, w, e));
    match e {
      case Deliver(i, choice) =>
        ReactionShare(cfg, w.records, w.templates[w.inflight[i].node], w.inflight[i].node, w.inflight[i].msg, choice);
      case _ =>
    }
  }

  lemma {:induction false} RunPays(cfg: seq<Node>, w: World, es: seq<Event>, last: World)
    requires Sound(cfg, w) && Run(cfg, w, es, last)
    ensures Sound(cfg, last)
    ensures last.broadcasts + Potential(cfg, last)
         <= w.broadcasts + Potential(cfg, w) + BroughtIn(cfg, PriceOf(cfg), 1, es) + RewrittenIn(cfg, PriceOf(cfg), 1, w, es)
    decreases |es|
  {
    if es != [] {
      StepPays(cfg, w, es[0]);
      StepSound(cfg, w, es[0]);
      RunPays(cfg, Step(cfg, w, es[0]), es[1..], last);
    }
  }

  /** From every reachable world and whatever comes in: no more broadcasts than were still to come, plus
      the totals of the inputs, plus what writes to templates with waiting lists have changed. */
  lemma BroadcastsCounted(cfg: seq<Node>, past: seq<Event>, w: World, es: seq<Event>, last: World)
    requires Run(cfg, Start(cfg), past, w) && Run(cfg, w, es, last)
    ensures Shaped(cfg, w)
    ensures last.broadcasts - w.broadcasts
         <= Potential(cfg, w) + BroughtIn(cfg, PriceOf(cfg), 1, es) + RewrittenIn(cfg, PriceOf(cfg), 1, w, es)
  {
    Reachable(cfg, past, w);
    RunPays(cfg, w, es, last);
  }

  /** The write raises what is to come: a list waits with the template, and the new message can cause more
      broadcasts than the one it replaces. */
  predicate Raises(cfg: seq<Node>, w: World, e: Event)
    requires Possible(cfg, w, e)
  {
    e.Deliver? &&
      var n := w.inflight[e.index].node;
      WaitingFor(w.lists, n) > 0 && TotalOf(cfg, ReactionTo(cfg, w, e.index, e.choice).template) > TotalOf(cfg, w.templates[n])
  }

  ghost predicate NeverRaised(cfg: seq<Node>, w: World, es: seq<Event>)
    decreases |es|
  {
    es != [] ==> Possible(cfg, w, es[0]) && !Raises(cfg, w, es[0]) && NeverRaised(cfg, Step(cfg, w, es[0]), es[1..])
  }

  /** That is exactly when a step adds to what is to come. */
  lemma RaisesIff(cfg: seq<Node>, w: World, e: Event)
    requires Possible(cfg, w, e)
    ensures Rewritten(cfg, PriceOf(cfg), 1, w, e) > 0 <==> Raises(cfg, w, e)
  {
    match e {
      case Deliver(i, choice) =>
        RaisedIff(cfg, PriceOf(cfg), 1, w, i, choice);
        WorthIsTotal(cfg, w.templates[w.inflight[i].node]);
        WorthIsTotal(cfg, ReactionTo(cfg, w, i, choice).template);
      case _ =>
    }
  }

  lemma {:induction false} NothingRaised(cfg: seq<Node>, w: World, es: seq<Event>)
    requires NeverRaised(cfg, w, es)
    ensures RewrittenIn(cfg, PriceOf(cfg), 1, w, es) <= 0
    decreases |es|
  {
    if es != [] {
      RaisesIff(cfg, w, es[0]);
      NothingRaised(cfg, Step(cfg, w, es[0]), es[1..]);
    }
  }

  lemma {:induction false} UntouchedNeverRaised(cfg: seq<Node>, w: World, es: seq<Event>)
    requires AllUntouched(cfg, w, es)
    ensures NeverRaised(cfg, w, es)
    decreases |es|
  {
    if es != [] {
      UntouchedKeeps(cfg, PriceOf(cfg), 1, w, es[0]);
      RaisesIff(cfg, w, es[0]);
      UntouchedNeverRaised(cfg, Step(cfg, w, es[0]), es[1..]);
    }
  }

  /** One message into a system at rest causes at most `TotalOf` broadcasts, in every run in which no
      write raises what waiting lists will cause; in particular when no template is written while a list
      waits with it. */
  lemma BroadcastsBounded(cfg: seq<Node>, past: seq<Event>, w: World, m: Msg, es: seq<Event>, last: World)
    requires Run(cfg, Start(cfg), past, w) && AtRest(w) && |w.templates| == |cfg|
    requires Run(cfg, Step(cfg, w, Input(m)), es, last) && NoInput(es)
    requires NeverRaised(cfg, Step(cfg, w, Input(m)), es)
    ensures last.broadcasts - w.broadcasts <= TotalOf(cfg, m)
  {
    Reachable(cfg, past, w);
    var sent := Step(cfg, w, Input(m));
    StepSound(cfg, w, Input(m));
    StepPays(cfg, w, Input(m));
    WorthIsTotal(cfg, m);
    RunPays(cfg, sent, es, last);
    NothingBroughtIn(cfg, PriceOf(cfg), 1, es);
    NothingRaised(cfg, sent, es);
  }

  function Tree(k: nat): nat {
    if k == 0 then 1 else 1 + Times(k, Tree(k - 1))
  }

  /** For an inform without a ttl the bound is T(k) = 1 + k * T(k - 1), where k back ends are missing
      from its archive; connection requests and relay messages play no part in it. */
  lemma {:induction false} InformTotal(cfg: seq<Node>, k: nat)
    ensures Total(cfg, k, 0, false) == Tree(k)
    decreases k
  {
    if k > 0 {
      InformTotal(cfg, k - 1);
    }
  }

  lemma InformBroadcastsBounded(cfg: seq<Node>, past: seq<Event>, w: World, m: Msg, es: seq<Event>, last: World)
    requires Run(cfg, Start(cfg), past, w) && AtRest(w) && |w.templates| == |cfg|
    requires Run(cfg, Step(cfg, w, Input(m)), es, last) && NoInput(es)
    requires NeverRaised(cfg, Step(cfg, w, Input(m)), es)
    requires m.kind.Inform? && m.ttl.None?
    ensures last.broadcasts - w.broadcasts <= Tree(Missing(cfg, Archive(m)))
  {
    BroadcastsBounded(cfg, past, w, m, es, last);
    InformTotal(cfg, Missing(cfg, Archive(m)));
  }
}
