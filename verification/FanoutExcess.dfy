/** Periodic inform back ends only: exactly how many broadcasts there are, and a run with more of them than
    without overwritten templates. The run is played on the queues of the back ends, and then shown to
    be one of the system. */
module FanoutExcess {
  import opened Wrappers
  import opened Fanout
  import opened FanoutAccounts
  import opened FanoutTermination
  import opened FanoutBroadcasts
  import opened FanoutDuplicates
  import opened FanoutOrder

  ghost predicate Apart(nodes: seq<Node>) {
    && (forall i | 0 <= i < |nodes| :: nodes[i].Time?)
    && (forall i, j | 0 <= i < j < |nodes| :: nodes[i].id != nodes[j].id)
  }

  /** An inform of a device with factory credentials. */
  predicate Plain(m: Msg) {
    m.kind.Inform? && m.factory && m.ttl.None?
  }

  ghost predicate PlainWorld(cfg: seq<Node>, w: World) {
    && Sound(cfg, w) && w.delay == []
    && (forall d | d in w.inflight :: Plain(d.msg))
    && (forall l | l in w.lists :: l.handed == Template && Plain(w.templates[l.node]))
  }

  /** Nothing is let slip: what arrives passes its checks, and the call gets to its end. */
  ghost predicate Spends(e: Event) {
    !e.Input? && (e.Deliver? ==> e.choice.gate && e.choice.completes)
  }

  ghost predicate AllSpend(es: seq<Event>) {
    forall i | 0 <= i < |es| :: Spends(es[i])
  }

  lemma {:induction false} MissingSame(nodes: seq<Node>, archive: seq<Id>, id: Id)
    requires Apart(nodes) && forall i | 0 <= i < |nodes| :: nodes[i].id != id
    ensures Missing(nodes, archive + [id]) == Missing(nodes, archive)
  {
    if nodes != [] {
      MissingSame(nodes[1..], archive, id);
    }
  }

  /** With distinct ids, exactly one back end less is missing. */
  lemma {:induction false} MissingOneLess(nodes: seq<Node>, archive: seq<Id>, n: nat)
    requires Apart(nodes) && n < |nodes| && nodes[n].id !in archive
    ensures Missing(nodes, archive + [nodes[n].id]) + 1 == Missing(nodes, archive)
  {
    if n == 0 {
      MissingSame(nodes[1..], archive, nodes[0].id);
    } else {
      MissingOneLess(nodes[1..], archive, n - 1);
    }
  }

  lemma {:induction false} AllMissing(nodes: seq<Node>)
    requires Apart(nodes)
    ensures Missing(nodes, []) == |nodes|
  {
    if nodes != [] {
      AllMissing(nodes[1..]);
    }
  }

  lemma NoSlack(cfg: seq<Node>, w: World, e: Event)
    requires Apart(cfg) && PlainWorld(cfg, w) && Possible(cfg, w, e) && Spends(e)
    ensures Slack(cfg, PriceOf(cfg), 1, w, e) == 0
  {
    match e {
      case Deliver(i, choice) =>
        var n, m := w.inflight[i].node, w.inflight[i].msg;
        assert w.inflight[i] in w.inflight;
        if cfg[n].id !in Archive(m) {
          MissingOneLess(cfg, Archive(m), n);
          OneComing(cfg, InformWith(Archive(m) + [cfg[n].id]));
        }
      case _ =>
    }
  }

  lemma StepPlain(cfg: seq<Node>, w: World, e: Event)
    requires Apart(cfg) && PlainWorld(cfg, w) && Possible(cfg, w, e) && Spends(e)
    ensures PlainWorld(cfg, Step(cfg, w, e))
  {
    StepSound(cfg, w, e);
    match e {
      case Deliver(i, choice) =>
        assert w.inflight[i] in w.inflight;
        Around(w.inflight, i);
      case Publish(i) =>
        assert w.lists[i] in w.lists;
        Around(w.lists, i);
        BroadcastMembers(|cfg|, w.(lists := RemoveAt(w.lists, i)), Held(w.templates, w.lists[i]));
    }
  }

  /** Broadcasts made and still to come change by what is rewritten, and by nothing else. */
  lemma StepCounts(cfg: seq<Node>, w: World, e: Event)
    requires Apart(cfg) && PlainWorld(cfg, w) && Possible(cfg, w, e) && Spends(e)
    ensures PlainWorld(cfg, Step(cfg, w, e))
    ensures Step(cfg, w, e).broadcasts + Potential(cfg, Step(cfg, w, e))
         == w.broadcasts + Potential(cfg, w) + Rewritten(cfg, PriceOf(cfg), 1, w, e)
  {
    StepPlain(cfg, w, e);
    NoSlack(cfg, w, e);
    StepAccount(cfg, PriceOf(cfg), 1, w, e);
    StepMakes(cfg, w, e);
    RepeatOnce(Made(cfg, w, e));
  }

  lemma {:induction false} RunCounts(cfg: seq<Node>, w: World, es: seq<Event>, last: World)
    requires Apart(cfg) && PlainWorld(cfg, w) && Run(cfg, w, es, last) && AllSpend(es)
    ensures PlainWorld(cfg, last)
    ensures last.broadcasts + Potential(cfg, last) == w.broadcasts + Potential(cfg, w) + RewrittenIn(cfg, PriceOf(cfg), 1, w, es)
    decreases |es|
  {
    if es != [] {
      StepCounts(cfg, w, es[0]);
      RunCounts(cfg, Step(cfg, w, es[0]), es[1..], last);
    }
  }

  /** The first inform of a factory device has been broadcast. */
  function Informed(cfg: seq<Node>): World {
    Step(cfg, Start(cfg), Input(FIRST_INFORM))
  }

  lemma NothingAtStart(cfg: seq<Node>)
    ensures Sound(cfg, Start(cfg)) && Potential(cfg, Start(cfg)) == 0
  {
    StartSound(cfg);
  }

  lemma InformedPlain(cfg: seq<Node>)
    requires Apart(cfg)
    ensures PlainWorld(cfg, Informed(cfg)) && Informed(cfg).lists == [] && ToAll(cfg, Informed(cfg), FIRST_INFORM)
  {
    NothingAtStart(cfg);
    StepSound(cfg, Start(cfg), Input(FIRST_INFORM));
    BroadcastMembers(|cfg|, Start(cfg), [FIRST_INFORM]);
    BroadcastToAll(cfg, Start(cfg), [FIRST_INFORM]);
  }

  lemma InformedCounts(cfg: seq<Node>)
    requires Apart(cfg)
    ensures PlainWorld(cfg, Informed(cfg))
    ensures Informed(cfg).broadcasts + Potential(cfg, Informed(cfg)) == Tree(|cfg|)
  {
    var start, input := Start(cfg), Input(FIRST_INFORM);
    InformedPlain(cfg);
    NothingAtStart(cfg);
    StepAccount(cfg, PriceOf(cfg), 1, start, input);
    StepMakes(cfg, start, input);
    RepeatOnce(1);
    FirstTotal(cfg);
  }

  lemma FirstTotal(cfg: seq<Node>)
    requires Apart(cfg)
    ensures Worth(cfg, PriceOf(cfg), 1, FIRST_INFORM) == Tree(|cfg|)
  {
    WorthIsTotal(cfg, FIRST_INFORM);
    AllMissing(cfg);
    InformTotal(cfg, |cfg|);
  }

  /** When nothing is let slip and the system has come to rest, one inform has caused T(n) broadcasts, plus
      what writes to templates with waiting lists have changed. So T(n) is kept exactly when that is not
      more than nothing. */
  lemma ExactlyCounted(cfg: seq<Node>, es: seq<Event>, last: World)
    requires Apart(cfg) && Run(cfg, Informed(cfg), es, last) && AllSpend(es) && AtRest(last)
    ensures last.broadcasts == Tree(|cfg|) + RewrittenIn(cfg, PriceOf(cfg), 1, Informed(cfg), es)
    ensures last.broadcasts <= Tree(|cfg|) <==> RewrittenIn(cfg, PriceOf(cfg), 1, Informed(cfg), es) <= 0
  {
    InformedCounts(cfg);
    RunCounts(cfg, Informed(cfg), es, last);
  }

  // ---- A run that makes all the broadcasts ----

  /** Lists first, then deliveries in the order in which they were sent: no template is written while a
      list waits. */
  function Orderly(w: World): Event
    requires w.lists != [] || w.inflight != []
  {
    if w.lists != [] then Publish(0) else Deliver(0, GOOD)
  }

  lemma {:induction false} OrderlyRun(cfg: seq<Node>, limit: nat, w: World) returns (es: seq<Event>, last: World)
    requires Apart(cfg) && PlainWorld(cfg, w) && Limited(limit, w)
    ensures Run(cfg, w, es, last) && AllSpend(es) && Ordered(cfg, w, es) && AtRest(last)
    ensures last.broadcasts == w.broadcasts + Potential(cfg, w)
    decreases LeftFor(cfg, limit, w)
  {
    if w.lists == [] && w.inflight == [] {
      es, last := [], w;
    } else {
      var e := Orderly(w);
      assert w.lists == [] ==> w.inflight[0] in w.inflight;
      assert w.lists != [] ==> w.lists[0] in w.lists;
      InternalStep(cfg, limit, w, e);
      StepCounts(cfg, w, e);
      UntouchedKeeps(cfg, PriceOf(cfg), 1, w, e);
      var rest;
      rest, last := OrderlyRun(cfg, limit, Step(cfg, w, e));
      es := [e] + rest;
      assert es[1..] == rest;
    }
  }

  // ---- A run that makes more ----

  ghost predicate LedTo(cfg: seq<Node>, w: World) {
    exists es :: Run(cfg, Informed(cfg), es, w) && AllSpend(es) && Ordered(cfg, Informed(cfg), es)
  }

  /** A world that a spending run leads to, with so many broadcasts made or to come. */
  ghost predicate Leads(cfg: seq<Node>, w: World, total: nat) {
    PlainWorld(cfg, w) && w.broadcasts + Potential(cfg, w) == total && LedTo(cfg, w)
  }

  lemma LedStep(cfg: seq<Node>, w: World, e: Event)
    requires LedTo(cfg, w) && Possible(cfg, w, e) && Spends(e) && InOrder(w, e)
    ensures LedTo(cfg, Step(cfg, w, e))
  {
    var es :| Run(cfg, Informed(cfg), es, w) && AllSpend(es) && Ordered(cfg, Informed(cfg), es);
    RunAppend(cfg, Informed(cfg), es, w, e);
    assert AllSpend(es + [e]);
    assert [e][1..] == [] && Ordered(cfg, w, [e]);
    OrderedConcat(cfg, Informed(cfg), es, w, [e]);
  }

  lemma LeadsStep(cfg: seq<Node>, w: World, total: nat, e: Event, more: nat)
    requires Apart(cfg) && Leads(cfg, w, total) && Possible(cfg, w, e) && Spends(e) && InOrder(w, e)
    requires Rewritten(cfg, PriceOf(cfg), 1, w, e) == more
    ensures Leads(cfg, Step(cfg, w, e), total + more)
  {
    LedStep(cfg, w, e);
    StepCounts(cfg, w, e);
  }

  lemma HeadIsPlain(cfg: seq<Node>, w: World, n: nat, choice: Choice)
    requires PlainWorld(cfg, w) && Queue(w.inflight, n) != []
    ensures Plain(w.inflight[FanoutOrder.Next(w, n, choice).index].msg)
  {
    assert w.inflight[Front(w.inflight, n)] in w.inflight;
  }

  /** The next message in a queue. */
  function Head(w: World, n: nat): Msg
    requires Queue(w.inflight, n) != []
  {
    Queue(w.inflight, n)[0]
  }

  /** What a back end has to say about the next message in its queue. */
  function Said(cfg: seq<Node>, w: World, n: nat): Msg
    requires n < |cfg| && cfg[n].Time? && Queue(w.inflight, n) != []
  {
    InformWith(Archive(Head(w, n)) + [cfg[n].id])
  }

  /** A back end that is missing reads a message, and what it has to say about it waits. */
  lemma Reads(cfg: seq<Node>, w: World, total: nat, n: nat, more: nat) returns (next: World)
    requires Apart(cfg) && Leads(cfg, w, total) && n < |cfg| && Queue(w.inflight, n) != [] && cfg[n].id !in Archive(Head(w, n))
    requires more == Change(WaitingFor(w.lists, n), TotalOf(cfg, w.templates[n]), TotalOf(cfg, Said(cfg, w, n)))
    ensures Leads(cfg, next, total + more) && Popped(cfg, w, next, n)
    ensures next.templates == w.templates[n := Said(cfg, w, n)] && next.lists == w.lists + [Waiting(n, Template)]
  {
    NextPops(cfg, w, n, GOOD);
    WorthIsTotal(cfg, w.templates[n]);
    WorthIsTotal(cfg, Said(cfg, w, n));
    HeadIsPlain(cfg, w, n, GOOD);
    LeadsStep(cfg, w, total, FanoutOrder.Next(w, n, GOOD), more);
    next := Step(cfg, w, FanoutOrder.Next(w, n, GOOD));
  }

  /** One that has left its id already reads a message and does nothing. */
  lemma Skips(cfg: seq<Node>, w: World, total: nat, n: nat) returns (next: World)
    requires Apart(cfg) && Leads(cfg, w, total) && w.lists == [] && n < |cfg| && Queue(w.inflight, n) != []
    requires cfg[n].id in Archive(Head(w, n))
    ensures Leads(cfg, next, total) && Popped(cfg, w, next, n) && next.lists == []
  {
    NextPops(cfg, w, n, GOOD);
    UntouchedKeeps(cfg, PriceOf(cfg), 1, w, FanoutOrder.Next(w, n, GOOD));
    LeadsStep(cfg, w, total, FanoutOrder.Next(w, n, GOOD), 0);
    next := Step(cfg, w, FanoutOrder.Next(w, n, GOOD));
  }

  /** The one list that waits goes out. */
  lemma GoesOn(cfg: seq<Node>, w: World, total: nat, n: nat) returns (next: World)
    requires Apart(cfg) && Leads(cfg, w, total) && n < |cfg| && w.lists == [Waiting(n, Template)]
    ensures Leads(cfg, next, total) && next.lists == [] && Pushed(cfg, w, next, [w.templates[n]])
  {
    LeadsStep(cfg, w, total, Publish(0), 0);
    next := Step(cfg, w, Publish(0));
    var rest := w.(lists := RemoveAt(w.lists, 0));
    BroadcastPushes(cfg, rest, [w.templates[n]]);
    BroadcastMembers(|cfg|, rest, [w.templates[n]]);
  }

  /** A back end reads a message and broadcasts: its queue loses one at the front, and all get one more. */
  lemma Answers(cfg: seq<Node>, w: World, total: nat, n: nat) returns (next: World)
    requires Apart(cfg) && Leads(cfg, w, total) && w.lists == [] && n < |cfg| && Queue(w.inflight, n) != []
    requires cfg[n].id !in Archive(Head(w, n))
    ensures Leads(cfg, next, total) && next.lists == []
    ensures forall k: nat | k < |cfg| :: (
      Queue(next.inflight, k) == (if k == n then Queue(w.inflight, n)[1..] else Queue(w.inflight, k)) + [Said(cfg, w, n)])
  {
    var waiting := Reads(cfg, w, total, n, 0);
    next := GoesOn(cfg, waiting, total, n);
  }

  lemma LeadsAtFirst(cfg: seq<Node>)
    requires Apart(cfg)
    ensures Leads(cfg, Informed(cfg), Tree(|cfg|)) && Informed(cfg).lists == []
    ensures forall k: nat | k < |cfg| :: Queue(Informed(cfg).inflight, k) == [FIRST_INFORM]
  {
    InformedPlain(cfg);
    InformedCounts(cfg);
    assert LedTo(cfg, Informed(cfg)) by {
      assert Run(cfg, Informed(cfg), [], Informed(cfg)) && AllSpend([]) && Ordered(cfg, Informed(cfg), []);
    }
    BroadcastPushes(cfg, Start(cfg), [FIRST_INFORM]);
    assert [] + [FIRST_INFORM] == [FIRST_INFORM];
  }

  function ToEach(qs: seq<seq<Msg>>, m: Msg): seq<seq<Msg>> {
    seq(|qs|, k requires 0 <= k < |qs| => qs[k] + [m])
  }

  /** The queues after a back end has read its next message, and has broadcast what it has to say about it. */
  function Turn(cfg: seq<Node>, qs: seq<seq<Msg>>, n: nat): (r: seq<seq<Msg>>)
    requires n < |cfg| == |qs| && cfg[n].Time?
    ensures |r| == |cfg|
  {
    if qs[n] == [] then qs
    else
      var archive, rest := Archive(qs[n][0]), qs[n := qs[n][1..]];
      if cfg[n].id in archive then rest else ToEach(rest, InformWith(archive + [cfg[n].id]))
  }

  /** The queues after the first few turns that follow an inform. */
  function Turns(cfg: seq<Node>, turns: seq<nat>, j: nat): (r: seq<seq<Msg>>)
    requires j <= |turns| && forall i | 0 <= i < |turns| :: turns[i] < |cfg| && cfg[turns[i]].Time?
    ensures |r| == |cfg|
  {
    if j == 0 then seq(|cfg|, k => [FIRST_INFORM]) else Turn(cfg, Turns(cfg, turns, j - 1), turns[j - 1])
  }

  ghost predicate QueuesAre(w: World, qs: seq<seq<Msg>>) {
    forall k: nat | k < |qs| :: Queue(w.inflight, k) == qs[k]
  }

  lemma TurnLeads(cfg: seq<Node>, w: World, total: nat, qs: seq<seq<Msg>>, n: nat) returns (next: World)
    requires Apart(cfg) && Leads(cfg, w, total) && w.lists == [] && n < |cfg| == |qs| && QueuesAre(w, qs)
    ensures Leads(cfg, next, total) && next.lists == [] && QueuesAre(next, Turn(cfg, qs, n))
  {
    if qs[n] == [] {
      next := w;
    } else if cfg[n].id in Archive(qs[n][0]) {
      next := Skips(cfg, w, total, n);
    } else {
      next := Answers(cfg, w, total, n);
    }
  }

  /** Spending runs lead there, with every queue read in order. */
  lemma {:induction false} TurnsLead(cfg: seq<Node>, total: nat, turns: seq<nat>, j: nat) returns (w: World)
    requires Apart(cfg) && total == Tree(|cfg|)
    requires j <= |turns| && forall i | 0 <= i < |turns| :: turns[i] < |cfg|
    ensures Leads(cfg, w, total) && w.lists == [] && QueuesAre(w, Turns(cfg, turns, j))
  {
    if j == 0 {
      LeadsAtFirst(cfg);
      w := Informed(cfg);
    } else {
      var before := TurnsLead(cfg, total, turns, j - 1);
      w := TurnLeads(cfg, before, total, Turns(cfg, turns, j - 1), turns[j - 1]);
    }
  }

  /** The second, the third, the third again and the fourth read, and then the first reads three messages. */
  const TURNS: seq<nat> := [1, 2, 2, 3, 0, 0, 0]

  /** What the first four turns have broadcast. */
  function FourSaid(cfg: seq<Node>): seq<Msg>
    requires Apart(cfg) && |cfg| == 4
  {
    [InformWith([cfg[1].id]), InformWith([cfg[2].id]), InformWith([cfg[1].id, cfg[2].id]), InformWith([cfg[3].id])]
  }

  lemma Says(cfg: seq<Node>, j: nat, n: nat, said: Msg)
    requires Apart(cfg) && |cfg| == 4 && j < |TURNS| && TURNS[j] == n
    requires var queue := Turns(cfg, TURNS, j)[n];
             queue != [] && cfg[n].id !in Archive(queue[0]) && said == InformWith(Archive(queue[0]) + [cfg[n].id])
    ensures Turns(cfg, TURNS, j + 1) == ToEach(Turns(cfg, TURNS, j)[n := Turns(cfg, TURNS, j)[n][1..]], said)
  {
  }

  lemma TwoTurns(cfg: seq<Node>)
    requires Apart(cfg) && |cfg| == 4
    ensures var qs, two := Turns(cfg, TURNS, 2), FourSaid(cfg)[..2];
            qs[0] == qs[3] == [FIRST_INFORM] + two && qs[2] == two
  {
    var said := FourSaid(cfg);
    assert [] + [cfg[1].id] == [cfg[1].id] && [] + [cfg[2].id] == [cfg[2].id];
    Says(cfg, 0, 1, said[0]);
    Says(cfg, 1, 2, said[1]);
  }

  lemma FourTurns(cfg: seq<Node>)
    requires Apart(cfg) && |cfg| == 4
    ensures Turns(cfg, TURNS, 4)[0] == [FIRST_INFORM] + FourSaid(cfg)
  {
    var said := FourSaid(cfg);
    TwoTurns(cfg);
    assert [cfg[1].id] + [cfg[2].id] == [cfg[1].id, cfg[2].id] && [] + [cfg[3].id] == [cfg[3].id];
    Says(cfg, 2, 2, said[2]);
    Says(cfg, 3, 3, said[3]);
  }

  /** The queue of the first back end now starts with something that went through two others, and behind it
      there is something that went through one only. */
  lemma SevenTurns(cfg: seq<Node>)
    requires Apart(cfg) && |cfg| == 4
    ensures var queue := Turns(cfg, TURNS, 7)[0];
            |queue| > 1 && queue[0] == InformWith([cfg[1].id, cfg[2].id]) && queue[1] == InformWith([cfg[3].id])
  {
    FourTurns(cfg);
    var said := FourSaid(cfg);
    assert Turns(cfg, TURNS, 5)[0][..4] == said;
    assert Turns(cfg, TURNS, 6)[0][..3] == said[1..];
    assert Turns(cfg, TURNS, 7)[0][..2] == said[2..];
  }

  /** Two lists of the first back end wait with one template, and the second message that it reads has
      more back ends missing than the first. */
  lemma Overlap(cfg: seq<Node>, total: nat) returns (w: World)
    requires Apart(cfg) && |cfg| == 4 && total == Tree(|cfg|)
    ensures Leads(cfg, w, total + 3)
  {
    SevenTurns(cfg);
    var before := TurnsLead(cfg, total, TURNS, 7);
    OverlapTotals(cfg);
    var once := Reads(cfg, before, total, 0, 0);
    w := Reads(cfg, once, total, 0, 3);
  }

  lemma OverlapTotals(cfg: seq<Node>)
    requires Apart(cfg) && |cfg| == 4
    ensures TotalOf(cfg, InformWith([cfg[1].id, cfg[2].id] + [cfg[0].id])) == 2
    ensures TotalOf(cfg, InformWith([cfg[3].id] + [cfg[0].id])) == 5
  {
    var t, u, v, x := cfg[0].id, cfg[1].id, cfg[2].id, cfg[3].id;
    AllMissing(cfg);
    MissingOneLess(cfg, [], 1);
    MissingOneLess(cfg, [u], 2);
    MissingOneLess(cfg, [u, v], 0);
    MissingOneLess(cfg, [], 3);
    MissingOneLess(cfg, [x], 0);
    assert [] + [u] == [u] && [u] + [v] == [u, v] && [] + [x] == [x];
    InformTotal(cfg, 1);
    InformTotal(cfg, 2);
    assert Tree(0) == 1 && Tree(1) == 2 && Tree(2) == 5;
  }

  /** With four back ends, one inform can cause three broadcasts more than T(4), also when every back end
      reads its queue in order: the first reads what has gone through two others, and before that goes
      out, what has gone through the fourth only. */
  lemma MoreThanTree(cfg: seq<Node>) returns (es: seq<Event>, last: World)
    requires Apart(cfg) && |cfg| == 4
    ensures Run(cfg, Informed(cfg), es, last) && NoInput(es) && Ordered(cfg, Informed(cfg), es) && AtRest(last)
    ensures last.broadcasts == Tree(4) + 3
  {
    var w := Overlap(cfg, Tree(4));
    var past :| Run(cfg, Informed(cfg), past, w) && AllSpend(past) && Ordered(cfg, Informed(cfg), past);
    WithinLimit(w);
    var rest;
    rest, last := OrderlyRun(cfg, Limit(Everything(w)), w);
    RunConcat(cfg, Informed(cfg), past, w, rest, last);
    OrderedConcat(cfg, Informed(cfg), past, w, rest);
    es := past + rest;
    forall i | 0 <= i < |es| ensures !es[i].Input? {
      assert Spends(if i < |past| then past[i] else rest[i - |past|]);
    }
  }
}
