/** The broadcast protocol always comes to rest, also when templates are overwritten while lists wait. */
module FanoutTermination {
  import opened Wrappers
  import opened Fanout
  import opened FanoutAccounts
  import Descent

  function Ttl(m: Msg): nat {
    if m.ttl.Some? && m.ttl.value > 0 then m.ttl.value else 0
  }

  /** Relay messages as they are stored: an inform, and a connection request with ttl 5 and an archive. */
  predicate RelayShape(ms: seq<Msg>) {
    || ms == []
    || (|ms| == 2 && ms[0].kind.Inform? && ms[0].ttl.None?
        && ms[1].kind == ConnectionRequest && ms[1].ttl == Some(5) && ms[1].archive.Some?)
  }

  /** What every run keeps: templates for broadcasts never hold a response or a ttl, and lists with
      messages of their own hold relay messages. */
  ghost predicate Sound(cfg: seq<Node>, w: World) {
    && Shaped(cfg, w)
    && (forall n: nat | n < |cfg| && HasPrimary(cfg[n]) :: !w.templates[n].kind.AddObjectResponse? && w.templates[n].ttl.None?)
    && (forall l | l in w.lists && l.handed.Own? :: RelayShape(l.handed.messages))
    && (forall l | l in w.lists && l.handed == Template :: HasPrimary(cfg[l.node]) || cfg[l.node].Connector?)
    && (forall r | r in w.records :: RelayShape(r.relay))
  }

  ghost predicate SoundReaction(node: Node, r: Reaction) {
    && (HasPrimary(node) ==> !r.template.kind.AddObjectResponse? && r.template.ttl.None?)
    && (r.handed == Some(Template) ==> HasPrimary(node) || node.Connector?)
    && (r.handed.Some? && r.handed.value.Own? ==> RelayShape(r.handed.value.messages))
    && (forall d | d in r.stored :: RelayShape(d.relay))
  }

  lemma ReactionSound(cfg: seq<Node>, records: seq<Record>, template: Msg, n: nat, m: Msg, choice: Choice)
    requires n < |cfg| && forall r | r in records :: RelayShape(r.relay)
    requires HasPrimary(cfg[n]) ==> !template.kind.AddObjectResponse? && template.ttl.None?
    ensures SoundReaction(cfg[n], React(cfg, records, template, n, m, choice))
  {
    if cfg[n].Handler? && Finds(records, choice.pick, cfg[n].peer) {
      assert records[choice.pick] in records;
    }
  }

  lemma StepSound(cfg: seq<Node>, w: World, e: Event)
    requires Sound(cfg, w) && Possible(cfg, w, e)
    ensures Sound(cfg, Step(cfg, w, e))
  {
    match e {
      case Deliver(i, choice) =>
        var n := w.inflight[i].node;
        Around(w.inflight, i);
        ReactionSound(cfg, w.records, w.templates[n], n, w.inflight[i].msg, choice);
      case Publish(i) =>
        Around(w.lists, i);
        BroadcastMembers(|cfg|, w.(lists := RemoveAt(w.lists, i)), Held(w.templates, w.lists[i]));
      case Expire(i) =>
        BroadcastMembers(|cfg|, w.(delay := RemoveAt(w.delay, i)), [w.delay[i]]);
      case Input(m) =>
        BroadcastMembers(|cfg|, w, [m]);
    }
  }

  lemma {:induction false} RunSound(cfg: seq<Node>, w: World, es: seq<Event>, last: World)
    requires Sound(cfg, w) && Run(cfg, w, es, last)
    ensures Sound(cfg, last)
    decreases |es|
  {
    if es != [] {
      StepSound(cfg, w, es[0]);
      RunSound(cfg, Step(cfg, w, es[0]), es[1..], last);
    }
  }

  // ---- Levels ----

  /** Messages on the level of informs with so many back ends missing; `limit` is above every ttl. */
  function Floor(limit: nat, missing: nat): nat {
    if missing == 0 then 0 else Floor(limit, missing - 1) + limit
  }

  /** What can still come of a message grows with its level: responses are above everything else, then
      the number of back ends missing from the archive counts, then the ttl. */
  function Level(cfg: seq<Node>, limit: nat, m: Msg): nat {
    (if m.kind.AddObjectResponse? then Floor(limit, |cfg| + 1) else 0) + Floor(limit, Missing(cfg, Archive(m))) + Ttl(m)
  }

  lemma {:induction false} FloorMonotone(limit: nat, a: nat, b: nat)
    requires a <= b
    ensures Floor(limit, a) <= Floor(limit, b)
    ensures a < b ==> Floor(limit, a) + limit <= Floor(limit, b)
    decreases b
  {
    if a < b {
      FloorMonotone(limit, a, b - 1);
    }
  }

  lemma BelowResponses(cfg: seq<Node>, limit: nat, m: Msg)
    requires !m.kind.AddObjectResponse? && Ttl(m) < limit
    ensures Level(cfg, limit, m) < Floor(limit, |cfg| + 1)
  {
    MissingMonotone(cfg, [], Archive(m));
    MissingMonotone(cfg, [], []);
    FloorMonotone(limit, Missing(cfg, Archive(m)), |cfg|);
  }

  /** Every ttl is below the limit. */
  ghost predicate Limited(limit: nat, w: World) {
    && limit > 5
    && (forall d | d in w.inflight :: Ttl(d.msg) < limit)
    && (forall m | m in w.delay :: Ttl(m) < limit)
    && (forall t | t in w.templates :: Ttl(t) < limit)
  }

  /** A back end either leaves its template alone, or writes something of a lower level than the message
      it reacts to. */
  lemma WritesLower(cfg: seq<Node>, limit: nat, records: seq<Record>, template: Msg, n: nat, m: Msg, choice: Choice)
    requires n < |cfg| && Ttl(m) < limit && limit > 5
    requires HasPrimary(cfg[n]) ==> !template.kind.AddObjectResponse? && template.ttl.None?
    ensures var r := React(cfg, records, template, n, m, choice);
            && (r.template == template || (Level(cfg, limit, r.template) < Level(cfg, limit, m) && Ttl(r.template) < limit))
            && (r.handed == Some(Template) ==> Level(cfg, limit, r.template) < Level(cfg, limit, m))
            && (r.handed.Some? && r.handed.value.Own? ==> m.kind.AddObjectResponse?)
  {
    var r := React(cfg, records, template, n, m, choice);
    if HasPrimary(cfg[n]) && (r.template != template || r.handed != None) {
      if m.kind.Inform? {
        assert Open(cfg[n], Archive(m)) && !Open(cfg[n], Archive(r.template));
        MissingFalls(cfg, Archive(m), Archive(r.template), n);
        FloorMonotone(limit, Missing(cfg, Archive(r.template)), Missing(cfg, Archive(m)));
      } else {
        BelowResponses(cfg, limit, r.template);
      }
    }
  }

  // ---- Ranks ----

  /** A list ranks above a delayed message, and that above a delivery, of the same level. */
  function ListRank(cfg: seq<Node>, limit: nat, templates: seq<Msg>, l: Waiting): nat
    requires l.node < |templates|
  {
    match l.handed {
      case Template => 3 * Level(cfg, limit, templates[l.node]) + 2
      case Own(_) => 3 * Floor(limit, |cfg| + 1) - if Floor(limit, |cfg| + 1) > 0 then 1 else 0
    }
  }

  function InflightRanks(cfg: seq<Node>, limit: nat, ds: seq<Delivery>): (ranks: seq<nat>)
    ensures |ranks| == |ds| && forall i | 0 <= i < |ds| :: ranks[i] == 3 * Level(cfg, limit, ds[i].msg)
  {
    seq(|ds|, i requires 0 <= i < |ds| => 3 * Level(cfg, limit, ds[i].msg))
  }

  function DelayRanks(cfg: seq<Node>, limit: nat, ms: seq<Msg>): (ranks: seq<nat>)
    ensures |ranks| == |ms| && forall i | 0 <= i < |ms| :: ranks[i] == 3 * Level(cfg, limit, ms[i]) + 1
  {
    seq(|ms|, i requires 0 <= i < |ms| => 3 * Level(cfg, limit, ms[i]) + 1)
  }

  function ListRanks(cfg: seq<Node>, limit: nat, templates: seq<Msg>, lists: seq<Waiting>): (ranks: seq<nat>)
    requires Known(templates, lists)
    ensures |ranks| == |lists| && forall i | 0 <= i < |lists| :: ranks[i] == ListRank(cfg, limit, templates, lists[i])
  {
    seq(|lists|, i requires 0 <= i < |lists| => ListRank(cfg, limit, templates, lists[i]))
  }

  function Ranks(cfg: seq<Node>, limit: nat, w: World): seq<nat>
    requires Known(w.templates, w.lists)
  {
    InflightRanks(cfg, limit, w.inflight) + (DelayRanks(cfg, limit, w.delay) + ListRanks(cfg, limit, w.templates, w.lists))
  }

  function CountIn(cfg: seq<Node>, limit: nat, w: World, r: nat): nat
    requires Known(w.templates, w.lists)
  {
    Descent.Count(InflightRanks(cfg, limit, w.inflight), r) + Descent.Count(DelayRanks(cfg, limit, w.delay), r)
    + Descent.Count(ListRanks(cfg, limit, w.templates, w.lists), r)
  }

  lemma CountRanks(cfg: seq<Node>, limit: nat, w: World, r: nat)
    requires Known(w.templates, w.lists)
    ensures Descent.Count(Ranks(cfg, limit, w), r) == CountIn(cfg, limit, w, r)
  {
    Descent.CountConcat(DelayRanks(cfg, limit, w.delay), ListRanks(cfg, limit, w.templates, w.lists), r);
    Descent.CountConcat(InflightRanks(cfg, limit, w.inflight), DelayRanks(cfg, limit, w.delay) + ListRanks(cfg, limit, w.templates, w.lists), r);
  }

  /** What a step adds at most. */
  function Growth(cfg: seq<Node>): nat {
    2 * |cfg| + 1
  }

  ghost predicate Lowers(cfg: seq<Node>, limit: nat, w: World, next: World, r: nat)
    requires Known(w.templates, w.lists) && Known(next.templates, next.lists)
  {
    && CountIn(cfg, limit, next, r) < CountIn(cfg, limit, w, r)
    && (forall j: nat | j > r :: CountIn(cfg, limit, next, j) <= CountIn(cfg, limit, w, j))
    && |next.inflight| + |next.delay| + |next.lists| <= |w.inflight| + |w.delay| + |w.lists| + Growth(cfg)
  }

  lemma LowersTrades(cfg: seq<Node>, limit: nat, w: World, next: World, r: nat)
    requires Known(w.templates, w.lists) && Known(next.templates, next.lists) && Lowers(cfg, limit, w, next, r)
    ensures Descent.Trades(Growth(cfg), Ranks(cfg, limit, w), Ranks(cfg, limit, next), r)
  {
    forall j: nat ensures Descent.Count(Ranks(cfg, limit, w), j) == CountIn(cfg, limit, w, j)
                  ensures Descent.Count(Ranks(cfg, limit, next), j) == CountIn(cfg, limit, next, j)
    {
      CountRanks(cfg, limit, w, j);
      CountRanks(cfg, limit, next, j);
    }
  }

  lemma InflightWithout(cfg: seq<Node>, limit: nat, ds: seq<Delivery>, i: nat, j: nat)
    requires i < |ds|
    ensures Descent.Count(InflightRanks(cfg, limit, ds), j)
         == Descent.Count(InflightRanks(cfg, limit, RemoveAt(ds, i)), j) + if 3 * Level(cfg, limit, ds[i].msg) == j then 1 else 0
  {
    var ranks := InflightRanks(cfg, limit, ds);
    Descent.CountWithout(ranks, i, j);
    assert InflightRanks(cfg, limit, RemoveAt(ds, i)) == ranks[..i] + ranks[i + 1..];
  }

  lemma DelayWithout(cfg: seq<Node>, limit: nat, ms: seq<Msg>, i: nat, j: nat)
    requires i < |ms|
    ensures Descent.Count(DelayRanks(cfg, limit, ms), j)
         == Descent.Count(DelayRanks(cfg, limit, RemoveAt(ms, i)), j) + if 3 * Level(cfg, limit, ms[i]) + 1 == j then 1 else 0
  {
    var ranks := DelayRanks(cfg, limit, ms);
    Descent.CountWithout(ranks, i, j);
    assert DelayRanks(cfg, limit, RemoveAt(ms, i)) == ranks[..i] + ranks[i + 1..];
  }

  lemma ListsConcat(cfg: seq<Node>, limit: nat, templates: seq<Msg>, a: seq<Waiting>, b: seq<Waiting>, j: nat)
    requires Known(templates, a) && Known(templates, b)
    ensures Known(templates, a + b)
    ensures Descent.Count(ListRanks(cfg, limit, templates, a + b), j)
         == Descent.Count(ListRanks(cfg, limit, templates, a), j) + Descent.Count(ListRanks(cfg, limit, templates, b), j)
  {
    assert ListRanks(cfg, limit, templates, a + b) == ListRanks(cfg, limit, templates, a) + ListRanks(cfg, limit, templates, b);
    Descent.CountConcat(ListRanks(cfg, limit, templates, a), ListRanks(cfg, limit, templates, b), j);
  }

  lemma OneList(cfg: seq<Node>, limit: nat, templates: seq<Msg>, l: Waiting, j: nat)
    requires l.node < |templates|
    ensures Descent.Count(ListRanks(cfg, limit, templates, [l]), j) == if ListRank(cfg, limit, templates, l) == j then 1 else 0
  {
    assert ListRanks(cfg, limit, templates, [l])[1..] == [];
  }

  lemma ListsWithout(cfg: seq<Node>, limit: nat, templates: seq<Msg>, lists: seq<Waiting>, i: nat, j: nat)
    requires i < |lists| && Known(templates, lists)
    ensures Known(templates, RemoveAt(lists, i))
    ensures Descent.Count(ListRanks(cfg, limit, templates, lists), j)
         == Descent.Count(ListRanks(cfg, limit, templates, RemoveAt(lists, i)), j)
            + if ListRank(cfg, limit, templates, lists[i]) == j then 1 else 0
  {
    Around(lists, i);
    ListsConcat(cfg, limit, templates, lists[..i], [lists[i]] + lists[i + 1..], j);
    ListsConcat(cfg, limit, templates, [lists[i]], lists[i + 1..], j);
    ListsConcat(cfg, limit, templates, lists[..i], lists[i + 1..], j);
    OneList(cfg, limit, templates, lists[i], j);
  }

  /** Copies of messages of a lower level count for nothing higher up. */
  lemma {:induction false} BroadcastRanks(cfg: seq<Node>, limit: nat, w: World, ms: seq<Msg>, r: nat, j: nat)
    requires j >= r && forall m | m in ms :: 3 * Level(cfg, limit, m) < r
    ensures Descent.Count(InflightRanks(cfg, limit, Broadcast(|cfg|, w, ms).inflight), j) == Descent.Count(InflightRanks(cfg, limit, w.inflight), j)
    ensures |ms| == 1 ==> |Broadcast(|cfg|, w, ms).inflight| == |w.inflight| + |cfg|
    ensures |ms| == 2 ==> |Broadcast(|cfg|, w, ms).inflight| == |w.inflight| + 2 * |cfg|
    decreases |ms|
  {
    if ms != [] {
      var copies := Copies(|cfg|, ms[0]);
      var next := w.(inflight := w.inflight + copies, broadcasts := w.broadcasts + 1);
      BroadcastRanks(cfg, limit, next, ms[1..], r, j);
      var ranks := InflightRanks(cfg, limit, copies);
      assert InflightRanks(cfg, limit, w.inflight + copies) == InflightRanks(cfg, limit, w.inflight) + ranks;
      Descent.CountConcat(InflightRanks(cfg, limit, w.inflight), ranks, j);
      assert ms[0] in ms;
      Descent.CountLower(ranks, r, j);
    }
  }

  // ---- Every step lowers ----

  lemma ListsLowered(cfg: seq<Node>, limit: nat, templates: seq<Msg>, lists: seq<Waiting>, n: nat, t: Msg, r: nat, j: nat)
    requires Known(templates, lists) && n < |templates| && j >= r
    requires t == templates[n] || 3 * Level(cfg, limit, t) + 2 < r
    ensures Known(templates[n := t], lists)
    ensures Descent.Count(ListRanks(cfg, limit, templates[n := t], lists), j) <= Descent.Count(ListRanks(cfg, limit, templates, lists), j)
  {
    var x, y := ListRanks(cfg, limit, templates, lists), ListRanks(cfg, limit, templates[n := t], lists);
    forall i | 0 <= i < |x| ensures y[i] == x[i] || y[i] < r {
      assert lists[i] in lists;
    }
    Descent.CountLowered(x, y, r, j);
  }

  lemma FloorPositive(limit: nat, k: nat)
    requires limit > 0
    ensures Floor(limit, k + 1) > 0
  {
    FloorMonotone(limit, 0, k + 1);
  }

  /** The list handed over ranks below the delivery. */
  lemma NewListRank(cfg: seq<Node>, limit: nat, w: World, i: nat, choice: Choice, j: nat)
    requires Sound(cfg, w) && Limited(limit, w) && Possible(cfg, w, Deliver(i, choice))
    requires j >= 3 * Level(cfg, limit, w.inflight[i].msg)
    ensures var n, r := w.inflight[i].node, ReactionTo(cfg, w, i, choice);
            && Known(w.templates[n := r.template], NewLists(n, r))
            && Descent.Count(ListRanks(cfg, limit, w.templates[n := r.template], NewLists(n, r)), j) == 0
  {
    var n, m, r := w.inflight[i].node, w.inflight[i].msg, ReactionTo(cfg, w, i, choice);
    assert w.inflight[i] in w.inflight;
    WritesLower(cfg, limit, w.records, w.templates[n], n, m, choice);
    FloorPositive(limit, |cfg|);
    Descent.CountLower(ListRanks(cfg, limit, w.templates[n := r.template], NewLists(n, r)), 3 * Level(cfg, limit, m), j);
  }

  lemma DeliverCounts(cfg: seq<Node>, limit: nat, w: World, i: nat, choice: Choice, j: nat)
    requires Sound(cfg, w) && Limited(limit, w) && Possible(cfg, w, Deliver(i, choice))
    requires j >= 3 * Level(cfg, limit, w.inflight[i].msg)
    ensures var next := Step(cfg, w, Deliver(i, choice));
            && Known(next.templates, next.lists)
            && CountIn(cfg, limit, next, j) + (if j == 3 * Level(cfg, limit, w.inflight[i].msg) then 1 else 0) <= CountIn(cfg, limit, w, j)
  {
    var n, m, r := w.inflight[i].node, w.inflight[i].msg, ReactionTo(cfg, w, i, choice);
    var templates := w.templates[n := r.template];
    assert w.inflight[i] in w.inflight;
    WritesLower(cfg, limit, w.records, w.templates[n], n, m, choice);
    InflightWithout(cfg, limit, w.inflight, i, j);
    ListsLowered(cfg, limit, w.templates, w.lists, n, r.template, 3 * Level(cfg, limit, m), j);
    NewListRank(cfg, limit, w, i, choice, j);
    ListsConcat(cfg, limit, templates, w.lists, NewLists(n, r), j);
  }

  lemma DeliverLowers(cfg: seq<Node>, limit: nat, w: World, i: nat, choice: Choice)
    requires Sound(cfg, w) && Limited(limit, w) && Possible(cfg, w, Deliver(i, choice))
    ensures var next := Step(cfg, w, Deliver(i, choice));
            Known(next.templates, next.lists) && Lowers(cfg, limit, w, next, 3 * Level(cfg, limit, w.inflight[i].msg))
  {
    var next, r := Step(cfg, w, Deliver(i, choice)), 3 * Level(cfg, limit, w.inflight[i].msg);
    DeliverCounts(cfg, limit, w, i, choice, r);
    forall j: nat | j > r ensures CountIn(cfg, limit, next, j) <= CountIn(cfg, limit, w, j) {
      DeliverCounts(cfg, limit, w, i, choice, j);
    }
  }

  /** What a list holds is of a lower rank than the list. */
  lemma HeldRanks(cfg: seq<Node>, limit: nat, w: World, i: nat)
    requires Sound(cfg, w) && limit > 5 && i < |w.lists|
    ensures |Held(w.templates, w.lists[i])| <= 2
    ensures forall m | m in Held(w.templates, w.lists[i]) :: 3 * Level(cfg, limit, m) + 1 < ListRank(cfg, limit, w.templates, w.lists[i])
  {
    assert w.lists[i] in w.lists;
    FloorPositive(limit, |cfg|);
    forall m | m in Held(w.templates, w.lists[i])
      ensures 3 * Level(cfg, limit, m) + 1 < ListRank(cfg, limit, w.templates, w.lists[i])
    {
      if w.lists[i].handed.Own? {
        BelowResponses(cfg, limit, m);
      }
    }
  }

  lemma DelayedRanks(cfg: seq<Node>, limit: nat, delay: seq<Msg>, held: seq<Msg>, r: nat, j: nat)
    requires j >= r && forall m | m in held :: 3 * Level(cfg, limit, m) + 1 < r
    ensures Descent.Count(DelayRanks(cfg, limit, delay + held), j) == Descent.Count(DelayRanks(cfg, limit, delay), j)
  {
    var ranks := DelayRanks(cfg, limit, held);
    assert DelayRanks(cfg, limit, delay + held) == DelayRanks(cfg, limit, delay) + ranks;
    Descent.CountConcat(DelayRanks(cfg, limit, delay), ranks, j);
    Descent.CountLower(ranks, r, j);
  }

  /** Wherever the messages of a list go, they count for nothing from the rank of the list on. */
  lemma SentCounts(cfg: seq<Node>, limit: nat, w: World, rest: World, i: nat, r: nat, j: nat)
    requires Possible(cfg, w, Publish(i)) && rest == w.(lists := RemoveAt(w.lists, i)) && Known(w.templates, rest.lists)
    requires var held := Held(w.templates, w.lists[i]);
             |held| <= 2 && j >= r && forall m | m in held :: 3 * Level(cfg, limit, m) + 1 < r
    ensures var next := Sent(cfg, w, i);
            && next.templates == w.templates && next.lists == rest.lists
            && CountIn(cfg, limit, next, j) == CountIn(cfg, limit, rest, j)
            && |next.inflight| + |next.delay| <= |w.inflight| + |w.delay| + Growth(cfg) + 1
  {
    var held := Held(w.templates, w.lists[i]);
    if cfg[w.lists[i].node].Connector? {
      DelayedRanks(cfg, limit, w.delay, held, r, j);
    } else {
      BroadcastRanks(cfg, limit, rest, held, r, j);
      BroadcastMembers(|cfg|, rest, held);
    }
  }

  lemma PublishCounts(cfg: seq<Node>, limit: nat, w: World, i: nat, j: nat)
    requires Sound(cfg, w) && limit > 5 && Possible(cfg, w, Publish(i)) && j >= ListRank(cfg, limit, w.templates, w.lists[i])
    ensures var next := Step(cfg, w, Publish(i));
            && Known(next.templates, next.lists)
            && CountIn(cfg, limit, next, j) + (if j == ListRank(cfg, limit, w.templates, w.lists[i]) then 1 else 0) == CountIn(cfg, limit, w, j)
            && |next.inflight| + |next.delay| + |next.lists| <= |w.inflight| + |w.delay| + |w.lists| + Growth(cfg)
  {
    ListsWithout(cfg, limit, w.templates, w.lists, i, j);
    HeldRanks(cfg, limit, w, i);
    SentCounts(cfg, limit, w, w.(lists := RemoveAt(w.lists, i)), i, ListRank(cfg, limit, w.templates, w.lists[i]), j);
  }

  lemma PublishLowers(cfg: seq<Node>, limit: nat, w: World, i: nat)
    requires Sound(cfg, w) && limit > 5 && Possible(cfg, w, Publish(i))
    ensures var next := Step(cfg, w, Publish(i));
            Known(next.templates, next.lists) && Lowers(cfg, limit, w, next, ListRank(cfg, limit, w.templates, w.lists[i]))
  {
    var next, r := Step(cfg, w, Publish(i)), ListRank(cfg, limit, w.templates, w.lists[i]);
    PublishCounts(cfg, limit, w, i, r);
    forall j: nat | j > r ensures CountIn(cfg, limit, next, j) <= CountIn(cfg, limit, w, j) {
      PublishCounts(cfg, limit, w, i, j);
    }
  }

  lemma ExpireCounts(cfg: seq<Node>, limit: nat, w: World, i: nat, j: nat)
    requires Shaped(cfg, w) && Possible(cfg, w, Expire(i)) && j >= 3 * Level(cfg, limit, w.delay[i]) + 1
    ensures var next := Step(cfg, w, Expire(i));
            && Known(next.templates, next.lists)
            && CountIn(cfg, limit, next, j) + (if j == 3 * Level(cfg, limit, w.delay[i]) + 1 then 1 else 0) == CountIn(cfg, limit, w, j)
            && |next.inflight| + |next.delay| + |next.lists| <= |w.inflight| + |w.delay| + |w.lists| + Growth(cfg)
  {
    var rest := w.(delay := RemoveAt(w.delay, i));
    DelayWithout(cfg, limit, w.delay, i, j);
    BroadcastRanks(cfg, limit, rest, [w.delay[i]], 3 * Level(cfg, limit, w.delay[i]) + 1, j);
    BroadcastMembers(|cfg|, rest, [w.delay[i]]);
  }

  lemma ExpireLowers(cfg: seq<Node>, limit: nat, w: World, i: nat)
    requires Shaped(cfg, w) && Possible(cfg, w, Expire(i))
    ensures var next := Step(cfg, w, Expire(i));
            Known(next.templates, next.lists) && Lowers(cfg, limit, w, next, 3 * Level(cfg, limit, w.delay[i]) + 1)
  {
    var next, r := Step(cfg, w, Expire(i)), 3 * Level(cfg, limit, w.delay[i]) + 1;
    ExpireCounts(cfg, limit, w, i, r);
    forall j: nat | j > r ensures CountIn(cfg, limit, next, j) <= CountIn(cfg, limit, w, j) {
      ExpireCounts(cfg, limit, w, i, j);
    }
  }

  // ---- The bound ----

  function Height(cfg: seq<Node>, limit: nat): nat {
    3 * (Floor(limit, |cfg| + 1) + Floor(limit, |cfg| + 1)) + 3
  }

  lemma LevelBelow(cfg: seq<Node>, limit: nat, m: Msg)
    requires Ttl(m) < limit
    ensures Level(cfg, limit, m) < Floor(limit, |cfg| + 1) + Floor(limit, |cfg| + 1)
  {
    MissingMonotone(cfg, [], Archive(m));
    MissingMonotone(cfg, [], []);
    FloorMonotone(limit, Missing(cfg, Archive(m)), |cfg|);
  }

  function LeftFor(cfg: seq<Node>, limit: nat, w: World): nat
    requires Known(w.templates, w.lists)
  {
    Descent.Left(Growth(cfg), Height(cfg, limit), Ranks(cfg, limit, w), |Ranks(cfg, limit, w)|)
  }

  /** The rank of what a step uses up. */
  function Used(cfg: seq<Node>, limit: nat, w: World, e: Event): nat
    requires Possible(cfg, w, e)
  {
    match e {
      case Deliver(i, _) => 3 * Level(cfg, limit, w.inflight[i].msg)
      case Publish(i) => ListRank(cfg, limit, w.templates, w.lists[i])
      case Expire(i) => 3 * Level(cfg, limit, w.delay[i]) + 1
      case Input(_) => 0
    }
  }

  lemma UsedBelow(cfg: seq<Node>, limit: nat, w: World, e: Event)
    requires Sound(cfg, w) && Limited(limit, w) && Possible(cfg, w, e)
    ensures Used(cfg, limit, w, e) < Height(cfg, limit)
  {
    match e {
      case Deliver(i, _) =>
        assert w.inflight[i] in w.inflight;
        LevelBelow(cfg, limit, w.inflight[i].msg);
      case Publish(i) =>
        assert w.templates[w.lists[i].node] in w.templates;
        LevelBelow(cfg, limit, w.templates[w.lists[i].node]);
      case Expire(i) =>
        assert w.delay[i] in w.delay;
        LevelBelow(cfg, limit, w.delay[i]);
      case Input(_) =>
    }
  }

  lemma StepLowers(cfg: seq<Node>, limit: nat, w: World, e: Event)
    requires Sound(cfg, w) && Limited(limit, w) && Possible(cfg, w, e) && !e.Input?
    ensures var next := Step(cfg, w, e);
            Known(next.templates, next.lists) && Lowers(cfg, limit, w, next, Used(cfg, limit, w, e))
  {
    match e {
      case Deliver(i, choice) => DeliverLowers(cfg, limit, w, i, choice);
      case Publish(i) => PublishLowers(cfg, limit, w, i);
      case Expire(i) => ExpireLowers(cfg, limit, w, i);
    }
  }

  lemma StepLimited(cfg: seq<Node>, limit: nat, w: World, e: Event)
    requires Sound(cfg, w) && Limited(limit, w) && Possible(cfg, w, e) && !e.Input?
    ensures Limited(limit, Step(cfg, w, e))
  {
    match e {
      case Deliver(i, choice) =>
        var n := w.inflight[i].node;
        assert w.inflight[i] in w.inflight && w.templates[n] in w.templates;
        Around(w.inflight, i);
        WritesLower(cfg, limit, w.records, w.templates[n], n, w.inflight[i].msg, choice);
      case Publish(i) =>
        assert w.lists[i] in w.lists && w.templates[w.lists[i].node] in w.templates;
        BroadcastMembers(|cfg|, w.(lists := RemoveAt(w.lists, i)), Held(w.templates, w.lists[i]));
      case Expire(i) =>
        assert w.delay[i] in w.delay;
        Around(w.delay, i);
        BroadcastMembers(|cfg|, w.(delay := RemoveAt(w.delay, i)), [w.delay[i]]);
    }
  }

  /** Every step that is not an input leaves fewer steps. */
  lemma InternalStep(cfg: seq<Node>, limit: nat, w: World, e: Event)
    requires Sound(cfg, w) && Limited(limit, w) && Possible(cfg, w, e) && !e.Input?
    ensures Sound(cfg, Step(cfg, w, e)) && Limited(limit, Step(cfg, w, e))
    ensures LeftFor(cfg, limit, Step(cfg, w, e)) < LeftFor(cfg, limit, w)
  {
    var next := Step(cfg, w, e);
    StepSound(cfg, w, e);
    StepLimited(cfg, limit, w, e);
    StepLowers(cfg, limit, w, e);
    UsedBelow(cfg, limit, w, e);
    LowersTrades(cfg, limit, w, next, Used(cfg, limit, w, e));
    Descent.LeftFalls(Growth(cfg), Height(cfg, limit), Ranks(cfg, limit, w), Ranks(cfg, limit, next), Used(cfg, limit, w, e),
                      |Ranks(cfg, limit, w)|, |Ranks(cfg, limit, next)|);
  }

  lemma {:induction false} RunStops(cfg: seq<Node>, limit: nat, w: World, es: seq<Event>, last: World)
    requires Sound(cfg, w) && Limited(limit, w) && Run(cfg, w, es, last) && NoInput(es)
    ensures Sound(cfg, last) && |es| + LeftFor(cfg, limit, last) <= LeftFor(cfg, limit, w)
    decreases |es|
  {
    if es == [] {
    } else {
      InternalStep(cfg, limit, w, es[0]);
      RunStops(cfg, limit, Step(cfg, w, es[0]), es[1..], last);
    }
  }

  /** A limit above every ttl there is. */
  function Limit(ms: seq<Msg>): (limit: nat)
    ensures limit > 5 && forall m | m in ms :: Ttl(m) < limit
  {
    if ms == [] then 6
    else
      var rest := Limit(ms[1..]);
      if Ttl(ms[0]) < rest then rest else Ttl(ms[0]) + 1
  }

  function Everything(w: World): seq<Msg> {
    seq(|w.inflight|, i requires 0 <= i < |w.inflight| => w.inflight[i].msg) + w.delay + w.templates
  }

  /** How many steps are possible from a world on, at most. */
  function StepsLeft(cfg: seq<Node>, w: World): nat
    requires Known(w.templates, w.lists)
  {
    LeftFor(cfg, Limit(Everything(w)), w)
  }

  lemma WithinLimit(w: World)
    ensures Limited(Limit(Everything(w)), w)
  {
    var all := Everything(w);
    forall d | d in w.inflight ensures Ttl(d.msg) < Limit(all) {
      var i :| 0 <= i < |w.inflight| && w.inflight[i] == d;
      assert all[i] == d.msg && all[i] in all;
    }
    forall m | m in w.delay ensures m in all {
    }
    forall t | t in w.templates ensures t in all {
    }
  }

  lemma StartSound(cfg: seq<Node>)
    ensures Sound(cfg, Start(cfg))
  {
  }

  lemma Reachable(cfg: seq<Node>, past: seq<Event>, w: World)
    requires Run(cfg, Start(cfg), past, w)
    ensures Sound(cfg, w)
  {
    StartSound(cfg);
    RunSound(cfg, Start(cfg), past, w);
  }

  /** Whatever devices have sent and back ends have done up to some point, from there on, without new
      input, only a bounded number of steps is possible: in whatever order deliveries come, lists get
      their replies and delayed messages expire, whatever the checks, the database and the HTTP
      requests give, and whatever is written into a template while lists wait with it. */
  lemma AlwaysStops(cfg: seq<Node>, past: seq<Event>, w: World, es: seq<Event>, last: World)
    requires Run(cfg, Start(cfg), past, w) && Run(cfg, w, es, last) && NoInput(es)
    ensures Known(w.templates, w.lists) && |es| <= StepsLeft(cfg, w)
  {
    Reachable(cfg, past, w);
    WithinLimit(w);
    RunStops(cfg, Limit(Everything(w)), w, es, last);
  }
}
