/** Bookkeeping for the broadcast protocol: everything under way is worth something, and every step
    hands its worth on. What is counted, broadcasts or attempts to call a device, is left open: a
    price says what a message is worth to a back end of each kind. */
module FanoutAccounts {
  import opened Wrappers
  import opened Fanout

  predicate Open(node: Node, archive: seq<Id>) {
    HasPrimary(node) && Primary(node) !in archive
  }

  /** The back ends that have not left their id in an archive yet. */
  function Missing(nodes: seq<Node>, archive: seq<Id>): nat {
    if nodes == [] then 0 else (if Open(nodes[0], archive) then 1 else 0) + Missing(nodes[1..], archive)
  }

  function Connectors(nodes: seq<Node>): nat {
    if nodes == [] then 0 else (if nodes[0].Connector? then 1 else 0) + Connectors(nodes[1..])
  }

  function Handlers(nodes: seq<Node>): nat {
    if nodes == [] then 0 else (if nodes[0].Handler? then 1 else 0) + Handlers(nodes[1..])
  }

  function TwoPhases(nodes: seq<Node>): nat {
    if nodes == [] then 0 else (if nodes[0].TwoPhase? then 1 else 0) + TwoPhases(nodes[1..])
  }

  /** What a delivery is worth to a back end: one that is missing from the archive, a connector, a
      two-phase one, one that sends relay messages on. */
  datatype Rates = Rates(open: nat, connector: nat, twoPhase: nat, handler: nat)

  /** The rates for a message. */
  type Price = Msg -> Rates

  function Part(node: Node, archive: seq<Id>, r: Rates): nat {
    (if Open(node, archive) then r.open else 0) + (if node.Connector? then r.connector else 0)
    + (if node.TwoPhase? then r.twoPhase else 0) + (if node.Handler? then r.handler else 0)
  }

  function Parts(nodes: seq<Node>, archive: seq<Id>, r: Rates): nat {
    if nodes == [] then 0 else Part(nodes[0], archive, r) + Parts(nodes[1..], archive, r)
  }

  function Share(price: Price, node: Node, m: Msg): nat {
    Part(node, Archive(m), price(m))
  }

  /** A broadcast is worth what its copies are worth, and `unit` for itself. */
  function Worth(cfg: seq<Node>, price: Price, unit: nat, m: Msg): nat {
    unit + Parts(cfg, Archive(m), price(m))
  }

  function Flying(cfg: seq<Node>, price: Price, ds: seq<Delivery>): nat {
    if ds == [] then 0
    else (if ds[0].node < |cfg| then Share(price, cfg[ds[0].node], ds[0].msg) else 0) + Flying(cfg, price, ds[1..])
  }

  /** Messages that are going to be broadcast. */
  function Coming(cfg: seq<Node>, price: Price, unit: nat, ms: seq<Msg>): nat {
    if ms == [] then 0 else Worth(cfg, price, unit, ms[0]) + Coming(cfg, price, unit, ms[1..])
  }

  ghost predicate Known(templates: seq<Msg>, lists: seq<Waiting>) {
    forall l | l in lists :: l.node < |templates|
  }

  /** Lists that wait for their turn, with what they hold at the moment. */
  function Due(cfg: seq<Node>, price: Price, unit: nat, templates: seq<Msg>, lists: seq<Waiting>): nat
    requires Known(templates, lists)
  {
    if lists == [] then 0
    else Coming(cfg, price, unit, Held(templates, lists[0])) + Due(cfg, price, unit, templates, lists[1..])
  }

  ghost predicate Shaped(cfg: seq<Node>, w: World) {
    |w.templates| == |cfg| && Known(w.templates, w.lists) && forall d | d in w.inflight :: d.node < |cfg|
  }

  function Account(cfg: seq<Node>, price: Price, unit: nat, w: World): nat
    requires Shaped(cfg, w)
  {
    Flying(cfg, price, w.inflight) + Coming(cfg, price, unit, w.delay) + Due(cfg, price, unit, w.templates, w.lists)
  }

  /** How many lists wait with the template of a back end in them. */
  function WaitingFor(lists: seq<Waiting>, n: nat): nat {
    if lists == [] then 0 else (if lists[0] == Waiting(n, Template) then 1 else 0) + WaitingFor(lists[1..], n)
  }

  /** What a new value changes for those who wait. */
  function Change(waiting: nat, before: nat, after: nat): int {
    if waiting == 0 then 0 else after - before + Change(waiting - 1, before, after)
  }

  /** By how much a step changes the worth of lists that wait for the template that it writes. */
  function Rewritten(cfg: seq<Node>, price: Price, unit: nat, w: World, e: Event): int
    requires Possible(cfg, w, e)
  {
    match e {
      case Deliver(i, choice) =>
        var n := w.inflight[i].node;
        Change(WaitingFor(w.lists, n), Worth(cfg, price, unit, w.templates[n]), Worth(cfg, price, unit, ReactionTo(cfg, w, i, choice).template))
      case _ => 0
    }
  }

  /** The step writes no template that a list waits with. */
  predicate Untouched(cfg: seq<Node>, w: World, e: Event)
    requires Possible(cfg, w, e)
  {
    e.Deliver? ==>
      || WaitingFor(w.lists, w.inflight[e.index].node) == 0
      || ReactionTo(cfg, w, e.index, e.choice).template == w.templates[w.inflight[e.index].node]
  }

  /** What the list handed over in a reaction holds right then. */
  function HandedOver(r: Reaction): seq<Msg> {
    match r.handed {
      case None => []
      case Some(Template) => [r.template]
      case Some(Own(messages)) => messages
    }
  }

  // ---- Sums ----

  function Repeat(n: nat, each: nat): nat {
    if n == 0 then 0 else each + Repeat(n - 1, each)
  }

  lemma {:induction false} RepeatOnce(n: nat)
    ensures Repeat(n, 1) == n && Repeat(n, 0) == 0
  {
    if n > 0 {
      RepeatOnce(n - 1);
    }
  }

  lemma MulMonotone(a: nat, b: nat, x: nat, y: nat)
    requires a <= b && x <= y
    ensures a * x <= b * y
  {
    calc <= {
      a * x;
      a * y;
      b * y;
    }
  }

  function Times(n: nat, each: nat): nat {
    n * each
  }

  lemma Distribute(one: bool, n: nat, x: nat)
    ensures Times((if one then 1 else 0) + n, x) == (if one then x else 0) + Times(n, x)
  {
  }

  /** The parts of all back ends, by kind. */
  lemma {:induction false} PartsByKind(nodes: seq<Node>, archive: seq<Id>, r: Rates)
    ensures Parts(nodes, archive, r) ==
            Times(Missing(nodes, archive), r.open) + Times(Connectors(nodes), r.connector)
            + Times(TwoPhases(nodes), r.twoPhase) + Times(Handlers(nodes), r.handler)
  {
    if nodes != [] {
      PartsByKind(nodes[1..], archive, r);
      Distribute(Open(nodes[0], archive), Missing(nodes[1..], archive), r.open);
      Distribute(nodes[0].Connector?, Connectors(nodes[1..]), r.connector);
      Distribute(nodes[0].TwoPhase?, TwoPhases(nodes[1..]), r.twoPhase);
      Distribute(nodes[0].Handler?, Handlers(nodes[1..]), r.handler);
    }
  }

  lemma {:induction false} MissingMonotone(nodes: seq<Node>, a: seq<Id>, b: seq<Id>)
    requires forall id | id in a :: id in b
    ensures Missing(nodes, b) <= Missing(nodes, a) <= |nodes|
  {
    if nodes != [] {
      MissingMonotone(nodes[1..], a, b);
    }
  }

  /** A back end that adds its own id is no longer missing. */
  lemma {:induction false} MissingFalls(nodes: seq<Node>, a: seq<Id>, b: seq<Id>, n: nat)
    requires forall id | id in a :: id in b
    requires n < |nodes| && Open(nodes[n], a) && !Open(nodes[n], b)
    ensures Missing(nodes, b) < Missing(nodes, a)
  {
    if n == 0 {
      MissingMonotone(nodes[1..], a, b);
    } else {
      MissingFalls(nodes[1..], a, b, n - 1);
    }
  }

  lemma {:induction false} FlyingConcat(cfg: seq<Node>, price: Price, a: seq<Delivery>, b: seq<Delivery>)
    ensures Flying(cfg, price, a + b) == Flying(cfg, price, a) + Flying(cfg, price, b)
  {
    if a == [] {
      assert a + b == b;
    } else {
      assert (a + b)[1..] == a[1..] + b;
      FlyingConcat(cfg, price, a[1..], b);
    }
  }

  lemma {:induction false} ComingConcat(cfg: seq<Node>, price: Price, unit: nat, a: seq<Msg>, b: seq<Msg>)
    ensures Coming(cfg, price, unit, a + b) == Coming(cfg, price, unit, a) + Coming(cfg, price, unit, b)
  {
    if a == [] {
      assert a + b == b;
    } else {
      assert (a + b)[1..] == a[1..] + b;
      ComingConcat(cfg, price, unit, a[1..], b);
    }
  }

  lemma {:induction false} DueConcat(cfg: seq<Node>, price: Price, unit: nat, templates: seq<Msg>, a: seq<Waiting>, b: seq<Waiting>)
    requires Known(templates, a) && Known(templates, b)
    ensures Known(templates, a + b)
    ensures Due(cfg, price, unit, templates, a + b) == Due(cfg, price, unit, templates, a) + Due(cfg, price, unit, templates, b)
  {
    if a == [] {
      assert a + b == b;
    } else {
      assert (a + b)[1..] == a[1..] + b;
      DueConcat(cfg, price, unit, templates, a[1..], b);
    }
  }

  lemma Around<T>(s: seq<T>, i: nat)
    requires i < |s|
    ensures s == s[..i] + ([s[i]] + s[i + 1..]) && RemoveAt(s, i) == s[..i] + s[i + 1..]
    ensures [s[i]][1..] == [] && forall x | x in RemoveAt(s, i) :: x in s
  {
  }

  lemma FlyingRemove(cfg: seq<Node>, price: Price, ds: seq<Delivery>, i: nat)
    requires i < |ds| && ds[i].node < |cfg|
    ensures Flying(cfg, price, ds) == Flying(cfg, price, RemoveAt(ds, i)) + Share(price, cfg[ds[i].node], ds[i].msg)
  {
    Around(ds, i);
    FlyingConcat(cfg, price, ds[..i], [ds[i]] + ds[i + 1..]);
    FlyingConcat(cfg, price, [ds[i]], ds[i + 1..]);
    FlyingConcat(cfg, price, ds[..i], ds[i + 1..]);
  }

  lemma ComingRemove(cfg: seq<Node>, price: Price, unit: nat, ms: seq<Msg>, i: nat)
    requires i < |ms|
    ensures Coming(cfg, price, unit, ms) == Coming(cfg, price, unit, RemoveAt(ms, i)) + Worth(cfg, price, unit, ms[i])
  {
    Around(ms, i);
    ComingConcat(cfg, price, unit, ms[..i], [ms[i]] + ms[i + 1..]);
    ComingConcat(cfg, price, unit, [ms[i]], ms[i + 1..]);
    ComingConcat(cfg, price, unit, ms[..i], ms[i + 1..]);
  }

  lemma DueRemove(cfg: seq<Node>, price: Price, unit: nat, templates: seq<Msg>, lists: seq<Waiting>, i: nat)
    requires i < |lists| && Known(templates, lists)
    ensures Known(templates, RemoveAt(lists, i))
    ensures Due(cfg, price, unit, templates, lists)
         == Due(cfg, price, unit, templates, RemoveAt(lists, i)) + Coming(cfg, price, unit, Held(templates, lists[i]))
  {
    Around(lists, i);
    DueConcat(cfg, price, unit, templates, lists[..i], [lists[i]] + lists[i + 1..]);
    DueConcat(cfg, price, unit, templates, [lists[i]], lists[i + 1..]);
    DueConcat(cfg, price, unit, templates, lists[..i], lists[i + 1..]);
  }

  lemma ComingOne(cfg: seq<Node>, price: Price, unit: nat, m: Msg)
    ensures Coming(cfg, price, unit, [m]) == Worth(cfg, price, unit, m)
  {
    assert [m][1..] == [];
  }

  /** Writing a template changes what every list is worth that waits with it. */
  lemma {:induction false} DueRewritten(cfg: seq<Node>, price: Price, unit: nat, templates: seq<Msg>, lists: seq<Waiting>, n: nat, t: Msg)
    requires Known(templates, lists) && n < |templates|
    ensures Known(templates[n := t], lists)
    ensures Due(cfg, price, unit, templates[n := t], lists)
         == Due(cfg, price, unit, templates, lists)
            + Change(WaitingFor(lists, n), Worth(cfg, price, unit, templates[n]), Worth(cfg, price, unit, t))
  {
    if lists != [] {
      DueRewritten(cfg, price, unit, templates, lists[1..], n, t);
      if lists[0] == Waiting(n, Template) {
        ComingOne(cfg, price, unit, t);
        ComingOne(cfg, price, unit, templates[n]);
      } else {
        assert Held(templates[n := t], lists[0]) == Held(templates, lists[0]);
      }
    }
  }

  lemma {:induction false} CopiesFlying(cfg: seq<Node>, price: Price, m: Msg, j: nat)
    requires j <= |cfg|
    ensures Flying(cfg, price, Copies(|cfg|, m)[j..]) == Parts(cfg[j..], Archive(m), price(m))
    decreases |cfg| - j
  {
    if j < |cfg| {
      CopiesFlying(cfg, price, m, j + 1);
      var ds := Copies(|cfg|, m);
      assert ds[j..][1..] == ds[j + 1..];
      assert cfg[j..][1..] == cfg[j + 1..];
    }
  }

  /** The copies of a broadcast share its worth among them, all but the unit for the broadcast itself. */
  lemma CopiesWorth(cfg: seq<Node>, price: Price, unit: nat, m: Msg)
    ensures Flying(cfg, price, Copies(|cfg|, m)) + unit == Worth(cfg, price, unit, m)
  {
    CopiesFlying(cfg, price, m, 0);
    assert Copies(|cfg|, m)[0..] == Copies(|cfg|, m) && cfg[0..] == cfg;
  }

  lemma {:induction false} BroadcastFlying(cfg: seq<Node>, price: Price, unit: nat, w: World, ms: seq<Msg>)
    ensures Flying(cfg, price, Broadcast(|cfg|, w, ms).inflight) + Repeat(|ms|, unit)
         == Flying(cfg, price, w.inflight) + Coming(cfg, price, unit, ms)
    decreases |ms|
  {
    if ms != [] {
      var next := w.(inflight := w.inflight + Copies(|cfg|, ms[0]), broadcasts := w.broadcasts + 1);
      FlyingConcat(cfg, price, w.inflight, Copies(|cfg|, ms[0]));
      CopiesWorth(cfg, price, unit, ms[0]);
      BroadcastFlying(cfg, price, unit, next, ms[1..]);
    }
  }

  // ---- One step ----

  lemma BroadcastAccount(cfg: seq<Node>, price: Price, unit: nat, w: World, ms: seq<Msg>)
    requires Shaped(cfg, w)
    ensures Shaped(cfg, Broadcast(|cfg|, w, ms))
    ensures Account(cfg, price, unit, Broadcast(|cfg|, w, ms)) + Repeat(|ms|, unit) == Account(cfg, price, unit, w) + Coming(cfg, price, unit, ms)
  {
    BroadcastMembers(|cfg|, w, ms);
    BroadcastFlying(cfg, price, unit, w, ms);
  }

  lemma HandedDue(cfg: seq<Node>, price: Price, unit: nat, templates: seq<Msg>, n: nat, r: Reaction)
    requires n < |templates| && templates[n] == r.template
    ensures Known(templates, NewLists(n, r))
    ensures Due(cfg, price, unit, templates, NewLists(n, r)) == Coming(cfg, price, unit, HandedOver(r))
  {
    if r.handed.Some? {
      assert NewLists(n, r)[1..] == [];
      assert Held(templates, NewLists(n, r)[0]) == HandedOver(r);
    }
  }

  /** A delivery gives up its share; the list handed over is worth what it holds; and the lists that
      wait with the same template are worth something else from now on. */
  lemma DeliverAccount(cfg: seq<Node>, price: Price, unit: nat, w: World, i: nat, choice: Choice)
    requires Shaped(cfg, w) && Possible(cfg, w, Deliver(i, choice))
    ensures Shaped(cfg, Step(cfg, w, Deliver(i, choice)))
    ensures Account(cfg, price, unit, Step(cfg, w, Deliver(i, choice))) + Share(price, cfg[w.inflight[i].node], w.inflight[i].msg)
         == Account(cfg, price, unit, w) + Coming(cfg, price, unit, HandedOver(ReactionTo(cfg, w, i, choice)))
            + Rewritten(cfg, price, unit, w, Deliver(i, choice))
  {
    var n := w.inflight[i].node;
    var r := ReactionTo(cfg, w, i, choice);
    var templates := w.templates[n := r.template];
    Around(w.inflight, i);
    FlyingRemove(cfg, price, w.inflight, i);
    DueRewritten(cfg, price, unit, w.templates, w.lists, n, r.template);
    HandedDue(cfg, price, unit, templates, n, r);
    DueConcat(cfg, price, unit, templates, w.lists, NewLists(n, r));
  }

  /** How many broadcasts a step makes. */
  function Made(cfg: seq<Node>, w: World, e: Event): nat
    requires Possible(cfg, w, e)
  {
    match e {
      case Deliver(_, _) => 0
      case Publish(i) => if cfg[w.lists[i].node].Connector? then 0 else |Held(w.templates, w.lists[i])|
      case Expire(_) => 1
      case Input(_) => 1
    }
  }

  lemma ListAccount(cfg: seq<Node>, price: Price, unit: nat, w: World, i: nat)
    requires Shaped(cfg, w) && i < |w.lists|
    ensures Shaped(cfg, w.(lists := RemoveAt(w.lists, i)))
    ensures Account(cfg, price, unit, w)
         == Account(cfg, price, unit, w.(lists := RemoveAt(w.lists, i))) + Coming(cfg, price, unit, Held(w.templates, w.lists[i]))
  {
    DueRemove(cfg, price, unit, w.templates, w.lists, i);
  }

  lemma DelayAccount(cfg: seq<Node>, price: Price, unit: nat, w: World, ms: seq<Msg>)
    requires Shaped(cfg, w)
    ensures Account(cfg, price, unit, w.(delay := w.delay + ms)) == Account(cfg, price, unit, w) + Coming(cfg, price, unit, ms)
  {
    ComingConcat(cfg, price, unit, w.delay, ms);
  }

  lemma PublishAccount(cfg: seq<Node>, price: Price, unit: nat, w: World, i: nat)
    requires Shaped(cfg, w) && Possible(cfg, w, Publish(i))
    ensures Shaped(cfg, Step(cfg, w, Publish(i)))
    ensures Account(cfg, price, unit, Step(cfg, w, Publish(i))) + Repeat(Made(cfg, w, Publish(i)), unit) == Account(cfg, price, unit, w)
  {
    var held, rest := Held(w.templates, w.lists[i]), w.(lists := RemoveAt(w.lists, i));
    ListAccount(cfg, price, unit, w, i);
    if cfg[w.lists[i].node].Connector? {
      DelayAccount(cfg, price, unit, rest, held);
    } else {
      BroadcastAccount(cfg, price, unit, rest, held);
    }
  }

  lemma ExpireAccount(cfg: seq<Node>, price: Price, unit: nat, w: World, i: nat)
    requires Shaped(cfg, w) && Possible(cfg, w, Expire(i))
    ensures Shaped(cfg, Step(cfg, w, Expire(i)))
    ensures Account(cfg, price, unit, Step(cfg, w, Expire(i))) + Repeat(1, unit) == Account(cfg, price, unit, w)
  {
    ComingRemove(cfg, price, unit, w.delay, i);
    ComingOne(cfg, price, unit, w.delay[i]);
    BroadcastAccount(cfg, price, unit, w.(delay := RemoveAt(w.delay, i)), [w.delay[i]]);
  }

  lemma InputAccount(cfg: seq<Node>, price: Price, unit: nat, w: World, m: Msg)
    requires Shaped(cfg, w) && |w.templates| == |cfg|
    ensures Shaped(cfg, Step(cfg, w, Input(m)))
    ensures Account(cfg, price, unit, Step(cfg, w, Input(m))) + Repeat(1, unit) == Account(cfg, price, unit, w) + Worth(cfg, price, unit, m)
  {
    ComingOne(cfg, price, unit, m);
    BroadcastAccount(cfg, price, unit, w, [m]);
  }

  lemma StepMakes(cfg: seq<Node>, w: World, e: Event)
    requires Possible(cfg, w, e)
    ensures Step(cfg, w, e).broadcasts == w.broadcasts + Made(cfg, w, e)
    ensures Step(cfg, w, e).attempts == w.attempts + if e.Deliver? then ReactionTo(cfg, w, e.index, e.choice).attempts else 0
  {
    match e {
      case Deliver(_, _) =>
      case Publish(i) => BroadcastMembers(|cfg|, w.(lists := RemoveAt(w.lists, i)), Held(w.templates, w.lists[i]));
      case Expire(i) => BroadcastMembers(|cfg|, w.(delay := RemoveAt(w.delay, i)), [w.delay[i]]);
      case Input(m) => BroadcastMembers(|cfg|, w, [m]);
    }
  }

  /** What an input brings in, and what a delivery gives up for the list it leads to. */
  function Brings(cfg: seq<Node>, price: Price, unit: nat, e: Event): nat {
    if e.Input? then Worth(cfg, price, unit, e.msg) else 0
  }

  function Slack(cfg: seq<Node>, price: Price, unit: nat, w: World, e: Event): int
    requires Possible(cfg, w, e)
  {
    match e {
      case Deliver(i, choice) =>
        Share(price, cfg[w.inflight[i].node], w.inflight[i].msg) - Coming(cfg, price, unit, HandedOver(ReactionTo(cfg, w, i, choice)))
      case _ => 0
    }
  }

  /** The account of any step, to the last message. */
  lemma StepAccount(cfg: seq<Node>, price: Price, unit: nat, w: World, e: Event)
    requires Shaped(cfg, w) && Possible(cfg, w, e)
    ensures Shaped(cfg, Step(cfg, w, e))
    ensures Account(cfg, price, unit, Step(cfg, w, e)) + Repeat(Made(cfg, w, e), unit) + Slack(cfg, price, unit, w, e)
         == Account(cfg, price, unit, w) + Brings(cfg, price, unit, e) + Rewritten(cfg, price, unit, w, e)
  {
    match e {
      case Deliver(i, choice) => DeliverAccount(cfg, price, unit, w, i, choice);
      case Publish(i) => PublishAccount(cfg, price, unit, w, i);
      case Expire(i) => ExpireAccount(cfg, price, unit, w, i);
      case Input(m) => InputAccount(cfg, price, unit, w, m);
    }
  }

  lemma UntouchedKeeps(cfg: seq<Node>, price: Price, unit: nat, w: World, e: Event)
    requires Possible(cfg, w, e) && Untouched(cfg, w, e)
    ensures Rewritten(cfg, price, unit, w, e) == 0
  {
    match e {
      case Deliver(i, choice) => RaisedIff(cfg, price, unit, w, i, choice);
      case _ =>
    }
  }

  /** A write raises what is due exactly when a list waits with the template, and what is written is
      worth more than what was there. */
  lemma RaisedIff(cfg: seq<Node>, price: Price, unit: nat, w: World, i: nat, choice: Choice)
    requires Possible(cfg, w, Deliver(i, choice))
    ensures Rewritten(cfg, price, unit, w, Deliver(i, choice)) > 0 <==>
            && WaitingFor(w.lists, w.inflight[i].node) > 0
            && Worth(cfg, price, unit, ReactionTo(cfg, w, i, choice).template) > Worth(cfg, price, unit, w.templates[w.inflight[i].node])
    ensures Rewritten(cfg, price, unit, w, Deliver(i, choice)) == 0 <==>
            || WaitingFor(w.lists, w.inflight[i].node) == 0
            || Worth(cfg, price, unit, ReactionTo(cfg, w, i, choice).template) == Worth(cfg, price, unit, w.templates[w.inflight[i].node])
  {
    Sign(WaitingFor(w.lists, w.inflight[i].node), Worth(cfg, price, unit, w.templates[w.inflight[i].node]),
         Worth(cfg, price, unit, ReactionTo(cfg, w, i, choice).template));
  }

  lemma {:induction false} Sign(waiting: nat, before: nat, after: nat)
    ensures Change(waiting, before, after) > 0 <==> waiting > 0 && after > before
    ensures Change(waiting, before, after) < 0 <==> waiting > 0 && after < before
  {
    if waiting > 0 {
      Sign(waiting - 1, before, after);
    }
  }

  // ---- Every run ----

  /** What all writes of a run have changed for lists that waited. */
  function RewrittenIn(cfg: seq<Node>, price: Price, unit: nat, w: World, es: seq<Event>): int
    decreases |es|
  {
    if es == [] || !Possible(cfg, w, es[0]) then 0
    else Rewritten(cfg, price, unit, w, es[0]) + RewrittenIn(cfg, price, unit, Step(cfg, w, es[0]), es[1..])
  }

  function BroughtIn(cfg: seq<Node>, price: Price, unit: nat, es: seq<Event>): nat {
    if es == [] then 0 else Brings(cfg, price, unit, es[0]) + BroughtIn(cfg, price, unit, es[1..])
  }

  /** Nobody writes a template that a list waits with. */
  ghost predicate AllUntouched(cfg: seq<Node>, w: World, es: seq<Event>)
    decreases |es|
  {
    es != [] ==> Possible(cfg, w, es[0]) && Untouched(cfg, w, es[0]) && AllUntouched(cfg, Step(cfg, w, es[0]), es[1..])
  }

  lemma {:induction false} NothingRewritten(cfg: seq<Node>, price: Price, unit: nat, w: World, es: seq<Event>)
    requires AllUntouched(cfg, w, es)
    ensures RewrittenIn(cfg, price, unit, w, es) == 0
    decreases |es|
  {
    if es != [] {
      UntouchedKeeps(cfg, price, unit, w, es[0]);
      NothingRewritten(cfg, price, unit, Step(cfg, w, es[0]), es[1..]);
    }
  }

  lemma {:induction false} NothingBroughtIn(cfg: seq<Node>, price: Price, unit: nat, es: seq<Event>)
    requires NoInput(es)
    ensures BroughtIn(cfg, price, unit, es) == 0
  {
    if es != [] {
      NothingBroughtIn(cfg, price, unit, es[1..]);
    }
  }

  /** Runs compose. */
  lemma {:induction false} RunAppend(cfg: seq<Node>, w: World, es: seq<Event>, mid: World, e: Event)
    requires Run(cfg, w, es, mid) && Possible(cfg, mid, e)
    ensures Run(cfg, w, es + [e], Step(cfg, mid, e))
    decreases |es|
  {
    if es == [] {
      assert [e][1..] == [] && [] + [e] == [e];
    } else {
      assert (es + [e])[1..] == es[1..] + [e];
      RunAppend(cfg, Step(cfg, w, es[0]), es[1..], mid, e);
    }
  }

  lemma {:induction false} RunConcat(cfg: seq<Node>, w: World, a: seq<Event>, mid: World, b: seq<Event>, last: World)
    requires Run(cfg, w, a, mid) && Run(cfg, mid, b, last)
    ensures Run(cfg, w, a + b, last)
    decreases |a|
  {
    if a == [] {
      assert a + b == b;
    } else {
      assert (a + b)[1..] == a[1..] + b;
      RunConcat(cfg, Step(cfg, w, a[0]), a[1..], mid, b, last);
    }
  }
}
