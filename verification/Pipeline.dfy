/** The publishing pipeline of `Provisioning`, on values: chains of messages that wait for broker replies. */
module Pipeline {
  import opened Wrappers

  // `content` stands for everything else that ends up in the body.
  datatype Message = Message(
    exchangeEnable: bool, exchangeName: string,
    queueEnable: bool, queueName: string, consume: bool,
    messageEnable: bool, routingKey: string, content: string)

  // Messages are Python dictionaries shared by reference: a chain holds references into a store, and
  // publishes what the store holds at that moment.
  type Ref = nat
  type Store = map<Ref, Message>

  // The template dictionaries that `on_channel_open` starts a chain for.
  const CONSUMER: Ref := 0
  const PUBLISHER: Ref := 1

  datatype Request =
    | DeclareExchange(exchange: string)
    | DeclareQueue(queue: string)
    | Bind(exchange: string, queue: string, routingKey: string)

  /** A list of messages on its way through the pipeline. `initial` is the list as it was when it
      was handed over, `published` what has gone out of it, `replies` how often the broker answered. */
  datatype Chain = Chain(
    initial: seq<Message>, published: seq<Message>, pending: seq<Ref>, awaiting: Option<Request>, replies: nat)

  datatype Broker = Broker(exchanges: set<string>, queues: set<string>, bindings: set<(string, string, string)>)

  datatype World = World(store: Store, broker: Broker, chains: seq<Chain>, consuming: bool)

  predicate Known(store: Store, refs: seq<Ref>) {
    forall r | r in refs :: r in store
  }

  function Deref(store: Store, refs: seq<Ref>): (ms: seq<Message>)
    requires Known(store, refs)
    ensures |ms| == |refs| && forall i | 0 <= i < |refs| :: ms[i] == store[refs[i]]
  {
    seq(|refs|, i requires 0 <= i < |refs| => store[refs[i]])
  }

  /** The messages that are to be published. */
  function Enabled(ms: seq<Message>): seq<Message> {
    if ms == [] then [] else (if ms[0].messageEnable then [ms[0]] else []) + Enabled(ms[1..])
  }

  /** Broker replies needed to get one message out. */
  function Cost(m: Message): nat {
    if m.exchangeEnable && m.queueEnable then 3 else if m.exchangeEnable || m.queueEnable then 1 else 0
  }

  function TotalCost(ms: seq<Message>): nat {
    if ms == [] then 0 else Cost(ms[0]) + TotalCost(ms[1..])
  }

  function FirstRequest(m: Message): Request {
    if m.exchangeEnable then DeclareExchange(m.exchangeName) else DeclareQueue(m.queueName)
  }

  /** The first message goes out, if it is enabled, and is dropped from the list. */
  function Pop(store: Store, c: Chain): Chain
    requires Known(store, c.pending) && c.pending != []
  {
    var m := store[c.pending[0]];
    c.(published := if m.messageEnable then c.published + [m] else c.published, pending := c.pending[1..], awaiting := None)
  }

  /** Where a chain comes to rest when its next message is set up: everything that needs no reply
      has gone out, and the first message that does need one has sent its first request. */
  function Settle(store: Store, c: Chain): Chain
    requires Known(store, c.pending)
    decreases |c.pending|
  {
    if c.pending == [] then c.(awaiting := None)
    else if Cost(store[c.pending[0]]) > 0 then c.(awaiting := Some(FirstRequest(store[c.pending[0]])))
    else Settle(store, Pop(store, c))
  }

  /** The first message is past its set-up: it goes out, and the rest settles. */
  function Release(store: Store, c: Chain): Chain
    requires Known(store, c.pending) && c.pending != []
  {
    Settle(store, Pop(store, c))
  }

  /** After a reply the next step of the set-up is asked for, or the message goes out. A consumer
      starts consuming instead, and the rest of its list is never looked at. */
  function Callback(store: Store, c: Chain): Chain
    requires Known(store, c.pending) && c.pending != [] && c.awaiting.Some?
  {
    var m := store[c.pending[0]];
    match c.awaiting.value {
      case DeclareExchange(_) =>
        if m.queueEnable then c.(awaiting := Some(DeclareQueue(m.queueName))) else Release(store, c)
      case DeclareQueue(_) =>
        if m.exchangeEnable && m.queueEnable then c.(awaiting := Some(Bind(m.exchangeName, m.queueName, m.routingKey)))
        else Release(store, c)
      case Bind(_, _, _) =>
        if m.consume then c.(awaiting := None) else Release(store, c)
    }
  }

  function Carry(broker: Broker, request: Request): Broker {
    match request {
      case DeclareExchange(x) => broker.(exchanges := broker.exchanges + {x})
      case DeclareQueue(q) => broker.(queues := broker.queues + {q})
      case Bind(x, q, key) => broker.(bindings := broker.bindings + {(x, q, key)})
    }
  }

  predicate StartsConsuming(store: Store, c: Chain)
    requires Known(store, c.pending) && c.pending != [] && c.awaiting.Some?
  {
    c.awaiting.value.Bind? && store[c.pending[0]].consume
  }

  function Begin(store: Store, refs: seq<Ref>): Chain
    requires Known(store, refs)
  {
    Settle(store, Chain(Deref(store, refs), [], refs, None, 0))
  }

  /** What can happen: the broker answers a chain; an action, called from `on_message`, hands over
      a list; an action writes a message dictionary; the connection is lost and a new channel opens
      on whatever the broker has kept. */
  datatype Event =
    | Reply(chain: nat)
    | Start(refs: seq<Ref>)
    | Write(ref: Ref, message: Message)
    | Reopen(left: Broker)

  ghost predicate Possible(w: World, e: Event) {
    match e {
      case Reply(i) => i < |w.chains| && w.chains[i].awaiting.Some? && w.chains[i].pending != [] && Known(w.store, w.chains[i].pending)
      case Start(refs) => w.consuming && refs != [] && Known(w.store, refs)
      case Write(ref, _) => ref != CONSUMER && ref != PUBLISHER
      case Reopen(_) => CONSUMER in w.store && PUBLISHER in w.store
    }
  }

  function Step(w: World, e: Event): World
    requires Possible(w, e)
  {
    match e {
      case Reply(i) =>
        var c := w.chains[i];
        w.(broker := Carry(w.broker, c.awaiting.value),
           chains := w.chains[i := Callback(w.store, c.(replies := c.replies + 1))],
           consuming := w.consuming || StartsConsuming(w.store, c))
      case Start(refs) => w.(chains := w.chains + [Begin(w.store, refs)])
      case Write(ref, m) => w.(store := w.store[ref := m])
      case Reopen(left) => World(w.store, left, [Begin(w.store, [CONSUMER]), Begin(w.store, [PUBLISHER])], false)
    }
  }

  /** Ownership: nobody writes a message that an unfinished chain still has to publish. */
  ghost predicate Owned(w: World, e: Event) {
    e.Write? ==> forall i | 0 <= i < |w.chains| :: e.ref !in w.chains[i].pending
  }

  ghost predicate Run(w: World, es: seq<Event>, last: World)
    decreases |es|
  {
    if es == [] then w == last
    else Possible(w, es[0]) && Owned(w, es[0]) && Run(Step(w, es[0]), es[1..], last)
  }

  // ---- What every run keeps ----

  /** Replies a chain still has to wait for. */
  function Outstanding(store: Store, c: Chain): int
    requires Known(store, c.pending)
  {
    if c.pending == [] then 0
    else
      TotalCost(Deref(store, c.pending[1..]))
      + match c.awaiting {
          case None => 0
          case Some(DeclareExchange(_)) => Cost(store[c.pending[0]])
          case Some(DeclareQueue(_)) => if store[c.pending[0]].exchangeEnable then 2 else 1
          case Some(Bind(_, _, _)) => 1
        }
  }

  /** The broker holds what a message is set up to use. */
  predicate SetUp(broker: Broker, m: Message) {
    && (m.exchangeEnable ==> m.exchangeName in broker.exchanges)
    && (m.queueEnable ==> m.queueName in broker.queues)
    && (m.exchangeEnable && m.queueEnable ==> (m.exchangeName, m.queueName, m.routingKey) in broker.bindings)
  }

  /** The request on the way is the one the first message calls for, and what goes before it is done. */
  predicate Asks(broker: Broker, m: Message, request: Request) {
    match request {
      case DeclareExchange(x) => m.exchangeEnable && x == m.exchangeName
      case DeclareQueue(q) => m.queueEnable && q == m.queueName && (m.exchangeEnable ==> m.exchangeName in broker.exchanges)
      case Bind(x, q, key) =>
        && m.exchangeEnable && m.queueEnable && x == m.exchangeName && q == m.queueName && key == m.routingKey
        && x in broker.exchanges && q in broker.queues
    }
  }

  /** What went out followed by what is still to go. */
  function Total(store: Store, c: Chain): seq<Message>
    requires Known(store, c.pending)
  {
    c.published + Enabled(Deref(store, c.pending))
  }

  /** Order: that is what was handed over. */
  predicate InOrder(store: Store, c: Chain)
    requires Known(store, c.pending)
  {
    Total(store, c) == Enabled(c.initial)
  }

  ghost predicate ChainOk(store: Store, broker: Broker, c: Chain) {
    && Known(store, c.pending)
    && InOrder(store, c)
    && c.replies + Outstanding(store, c) == TotalCost(c.initial)
    && (c.awaiting.Some? ==> c.pending != [] && Asks(broker, store[c.pending[0]], c.awaiting.value))
    && (c.awaiting.None? && c.pending != [] ==> var m := store[c.pending[0]]; m.consume && Cost(m) == 3)
    && (forall m | m in c.published :: SetUp(broker, m))
  }

  ghost predicate Templates(store: Store) {
    && CONSUMER in store && PUBLISHER in store
    && (var m := store[CONSUMER]; m.exchangeEnable && m.queueEnable && m.consume && !m.messageEnable)
    && (var m := store[PUBLISHER]; m.exchangeEnable && !m.queueEnable && !m.messageEnable)
  }

  ghost predicate Inv(w: World) {
    && Templates(w.store)
    && (forall i | 0 <= i < |w.chains| :: ChainOk(w.store, w.broker, w.chains[i]))
    && (w.consuming ==> SetUp(w.broker, w.store[CONSUMER]))
    && (!w.consuming ==> forall i | 0 <= i < |w.chains| :: StartUp(w.chains[i]))
  }

  /** A chain started by `on_channel_open`: it publishes nothing. */
  ghost predicate StartUp(c: Chain) {
    && Enabled(c.initial) == []
    && forall r | r in c.pending :: r == CONSUMER || r == PUBLISHER
  }

  // ---- Lemmas on lists of messages ----

  lemma {:induction false} EnabledConcat(a: seq<Message>, b: seq<Message>)
    ensures Enabled(a + b) == Enabled(a) + Enabled(b)
  {
    if a == [] {
      assert a + b == b;
    } else {
      assert (a + b)[1..] == a[1..] + b;
      EnabledConcat(a[1..], b);
      var first := if a[0].messageEnable then [a[0]] else [];
      assert first + (Enabled(a[1..]) + Enabled(b)) == (first + Enabled(a[1..])) + Enabled(b);
    }
  }

  lemma {:induction false} CostConcat(a: seq<Message>, b: seq<Message>)
    ensures TotalCost(a + b) == TotalCost(a) + TotalCost(b)
  {
    if a == [] {
      assert a + b == b;
    } else {
      assert (a + b)[1..] == a[1..] + b;
      CostConcat(a[1..], b);
    }
  }

  lemma {:induction false} EnabledMembers(ms: seq<Message>)
    ensures forall m :: m in Enabled(ms) <==> m in ms && m.messageEnable
  {
    if ms != [] {
      EnabledMembers(ms[1..]);
      assert ms == [ms[0]] + ms[1..];
    }
  }

  lemma DerefHead(store: Store, refs: seq<Ref>)
    requires Known(store, refs) && refs != []
    ensures Known(store, refs[1..])
    ensures Deref(store, refs)[0] == store[refs[0]]
    ensures Deref(store, refs)[1..] == Deref(store, refs[1..])
  {
  }

  // ---- One chain ----

  /** Letting the first message out keeps what went out followed by what is still to go. */
  lemma PopOrder(store: Store, c: Chain)
    requires Known(store, c.pending) && c.pending != []
    ensures Known(store, Pop(store, c).pending)
    ensures Total(store, Pop(store, c)) == Total(store, c)
  {
    DerefHead(store, c.pending);
    var m, rest := store[c.pending[0]], Enabled(Deref(store, c.pending[1..]));
    assert (c.published + [m]) + rest == c.published + ([m] + rest);
    assert c.published + ([] + rest) == c.published + rest;
  }

  lemma {:induction false} SettleOrder(store: Store, c: Chain)
    requires Known(store, c.pending)
    ensures Known(store, Settle(store, c).pending)
    ensures Total(store, Settle(store, c)) == Total(store, c)
    decreases |c.pending|
  {
    if c.pending != [] && Cost(store[c.pending[0]]) == 0 {
      PopOrder(store, c);
      SettleOrder(store, Pop(store, c));
    }
  }

  lemma {:induction false} SettleCost(store: Store, c: Chain)
    requires Known(store, c.pending)
    ensures Known(store, Settle(store, c).pending)
    ensures Outstanding(store, Settle(store, c)) == TotalCost(Deref(store, c.pending))
    decreases |c.pending|
  {
    if c.pending != [] {
      DerefHead(store, c.pending);
      if Cost(store[c.pending[0]]) == 0 {
        SettleCost(store, Pop(store, c));
      }
    }
  }

  lemma {:induction false} SettlePublishes(store: Store, broker: Broker, c: Chain)
    requires Known(store, c.pending) && forall m | m in c.published :: SetUp(broker, m)
    ensures var settled := Settle(store, c);
            && (forall m | m in settled.published :: SetUp(broker, m))
            && (forall r | r in settled.pending :: r in c.pending)
            && settled.initial == c.initial && settled.replies == c.replies
            && (settled.awaiting.None? <==> settled.pending == [])
            && (settled.awaiting.Some? ==> Asks(broker, store[settled.pending[0]], settled.awaiting.value))
    decreases |c.pending|
  {
    if c.pending != [] && Cost(store[c.pending[0]]) == 0 {
      SettlePublishes(store, broker, Pop(store, c));
    }
  }

  lemma SettleOk(store: Store, broker: Broker, c: Chain)
    requires Known(store, c.pending) && InOrder(store, c)
    requires c.replies + TotalCost(Deref(store, c.pending)) == TotalCost(c.initial)
    requires forall m | m in c.published :: SetUp(broker, m)
    ensures ChainOk(store, broker, Settle(store, c))
    ensures Settle(store, c).initial == c.initial && forall r | r in Settle(store, c).pending :: r in c.pending
  {
    SettleOrder(store, c);
    SettleCost(store, c);
    SettlePublishes(store, broker, c);
  }

  lemma ReleaseOk(store: Store, broker: Broker, c: Chain)
    requires Known(store, c.pending) && c.pending != [] && InOrder(store, c)
    requires c.replies + TotalCost(Deref(store, c.pending[1..])) == TotalCost(c.initial)
    requires forall m | m in c.published :: SetUp(broker, m)
    requires SetUp(broker, store[c.pending[0]])
    ensures ChainOk(store, broker, Release(store, c))
    ensures Release(store, c).initial == c.initial && forall r | r in Release(store, c).pending :: r in c.pending
  {
    PopOrder(store, c);
    SettleOk(store, broker, Pop(store, c));
  }

  lemma CallbackOk(store: Store, broker: Broker, c: Chain)
    requires ChainOk(store, broker, c) && c.awaiting.Some?
    ensures var next := Callback(store, c.(replies := c.replies + 1));
            && ChainOk(store, Carry(broker, c.awaiting.value), next)
            && next.initial == c.initial && forall r | r in next.pending :: r in c.pending
    ensures StartsConsuming(store, c) ==> SetUp(Carry(broker, c.awaiting.value), store[c.pending[0]])
  {
    var after := Carry(broker, c.awaiting.value);
    var counted := c.(replies := c.replies + 1);
    ChainKeepsGoing(store, broker, after, c);
    if StepDone(store, c) {
      DerefHead(store, c.pending);
      ReleaseOk(store, after, counted);
    } else if !StartsConsuming(store, c) {
      assert Deref(store, Callback(store, c).pending) == Deref(store, c.pending);
    }
  }

  /** The reply on the way is the last one the first message waits for, and lets it out. */
  predicate StepDone(store: Store, c: Chain)
    requires Known(store, c.pending) && c.pending != [] && c.awaiting.Some?
  {
    var m := store[c.pending[0]];
    match c.awaiting.value {
      case DeclareExchange(_) => !m.queueEnable
      case DeclareQueue(_) => !m.exchangeEnable
      case Bind(_, _, _) => !m.consume
    }
  }

  lemma ChainKeepsGoing(store: Store, broker: Broker, after: Broker, c: Chain)
    requires ChainOk(store, broker, c)
    requires broker.exchanges <= after.exchanges && broker.queues <= after.queues && broker.bindings <= after.bindings
    ensures ChainOk(store, after, c)
  {
  }

  lemma UnwrittenChain(store: Store, broker: Broker, c: Chain, ref: Ref, m: Message)
    requires ChainOk(store, broker, c) && ref !in c.pending
    ensures ChainOk(store[ref := m], broker, c)
  {
    assert Deref(store[ref := m], c.pending) == Deref(store, c.pending);
    if c.pending != [] {
      DerefHead(store, c.pending);
      DerefHead(store[ref := m], c.pending);
    }
  }

  lemma BeginOk(store: Store, broker: Broker, refs: seq<Ref>)
    requires Known(store, refs)
    ensures ChainOk(store, broker, Begin(store, refs))
    ensures Begin(store, refs).initial == Deref(store, refs)
    ensures forall r | r in Begin(store, refs).pending :: r in refs
  {
    SettleOk(store, broker, Chain(Deref(store, refs), [], refs, None, 0));
  }

  lemma StartUpOk(store: Store, broker: Broker)
    requires Templates(store)
    ensures ChainOk(store, broker, Begin(store, [CONSUMER])) && StartUp(Begin(store, [CONSUMER]))
    ensures ChainOk(store, broker, Begin(store, [PUBLISHER])) && StartUp(Begin(store, [PUBLISHER]))
  {
    BeginOk(store, broker, [CONSUMER]);
    BeginOk(store, broker, [PUBLISHER]);
    EnabledMembers(Deref(store, [CONSUMER]));
    EnabledMembers(Deref(store, [PUBLISHER]));
  }

  // ---- Every run ----

  lemma StarterIsConsumer(w: World, i: nat)
    requires Inv(w) && Possible(w, Reply(i)) && !w.consuming && StartsConsuming(w.store, w.chains[i])
    ensures w.chains[i].pending[0] == CONSUMER
  {
    var c := w.chains[i];
    assert ChainOk(w.store, w.broker, c) && StartUp(c) && c.pending[0] in c.pending;
  }

  /** One chain moves on, the broker holds more, and all the others are as they were. */
  lemma OneChainMoves(w: World, i: nat, moved: Chain, after: Broker, consuming: bool)
    requires Inv(w) && i < |w.chains| && ChainOk(w.store, after, moved)
    requires w.broker.exchanges <= after.exchanges && w.broker.queues <= after.queues && w.broker.bindings <= after.bindings
    requires moved.initial == w.chains[i].initial && forall r | r in moved.pending :: r in w.chains[i].pending
    requires w.consuming ==> consuming
    requires consuming && !w.consuming ==> SetUp(after, w.store[CONSUMER])
    ensures Inv(World(w.store, after, w.chains[i := moved], consuming))
  {
    forall j | 0 <= j < |w.chains| && j != i ensures ChainOk(w.store, after, w.chains[j]) {
      ChainKeepsGoing(w.store, w.broker, after, w.chains[j]);
    }
  }

  /** What a reply does to the world, and that it is a move of one chain. */
  lemma ReplyMoves(w: World, i: nat) returns (moved: Chain, after: Broker, consuming: bool)
    requires Inv(w) && Possible(w, Reply(i))
    ensures Step(w, Reply(i)) == World(w.store, after, w.chains[i := moved], consuming)
    ensures ChainOk(w.store, after, moved)
    ensures w.broker.exchanges <= after.exchanges && w.broker.queues <= after.queues && w.broker.bindings <= after.bindings
    ensures moved.initial == w.chains[i].initial && forall r | r in moved.pending :: r in w.chains[i].pending
    ensures w.consuming ==> consuming
    ensures consuming && !w.consuming ==> SetUp(after, w.store[CONSUMER])
  {
    var c := w.chains[i];
    assert ChainOk(w.store, w.broker, c);
    moved, after := Callback(w.store, c.(replies := c.replies + 1)), Carry(w.broker, c.awaiting.value);
    consuming := w.consuming || StartsConsuming(w.store, c);
    CallbackOk(w.store, w.broker, c);
    CarryGrows(w.broker, c.awaiting.value);
    ConsumptionStarts(w, i);
  }

  lemma CarryGrows(broker: Broker, request: Request)
    ensures var after := Carry(broker, request);
            broker.exchanges <= after.exchanges && broker.queues <= after.queues && broker.bindings <= after.bindings
  {
  }

  lemma ConsumptionStarts(w: World, i: nat)
    requires Inv(w) && Possible(w, Reply(i))
    ensures !w.consuming && StartsConsuming(w.store, w.chains[i]) ==>
              SetUp(Carry(w.broker, w.chains[i].awaiting.value), w.store[CONSUMER])
  {
    if !w.consuming && StartsConsuming(w.store, w.chains[i]) {
      assert ChainOk(w.store, w.broker, w.chains[i]);
      CallbackOk(w.store, w.broker, w.chains[i]);
      StarterIsConsumer(w, i);
    }
  }

  lemma ReplyKeepsInv(w: World, i: nat)
    requires Inv(w) && Possible(w, Reply(i))
    ensures Inv(Step(w, Reply(i)))
  {
    var moved, after, consuming := ReplyMoves(w, i);
    OneChainMoves(w, i, moved, after, consuming);
  }

  lemma StepKeepsInv(w: World, e: Event)
    requires Inv(w) && Possible(w, e) && Owned(w, e)
    ensures Inv(Step(w, e))
  {
    match e {
      case Reply(i) =>
        ReplyKeepsInv(w, i);
      case Start(refs) =>
        BeginOk(w.store, w.broker, refs);
      case Write(ref, m) =>
        forall j | 0 <= j < |w.chains| ensures ChainOk(w.store[ref := m], w.broker, w.chains[j]) {
          UnwrittenChain(w.store, w.broker, w.chains[j], ref, m);
        }
      case Reopen(left) =>
        StartUpOk(w.store, left);
    }
  }

  lemma {:induction false} RunKeepsInv(w: World, es: seq<Event>, last: World)
    requires Inv(w) && Run(w, es, last)
    ensures Inv(last)
    decreases |es|
  {
    if es != [] {
      StepKeepsInv(w, es[0]);
      RunKeepsInv(Step(w, es[0]), es[1..], last);
    }
  }

  /** The world right after the first channel opened. */
  ghost predicate Opened(w: World) {
    Templates(w.store) && w == World(w.store, w.broker, [Begin(w.store, [CONSUMER]), Begin(w.store, [PUBLISHER])], false)
  }

  lemma OpenedInv(w: World)
    requires Opened(w)
    ensures Inv(w)
  {
    StartUpOk(w.store, w.broker);
  }

  /** Under every interleaving of replies, hand-overs, owned writes and reconnects, what a chain has
      published followed by what it still has to publish is what it was given; and a chain that has
      come to its end without meeting a consumer has published all of it, once each and in order. */
  lemma PublishedInOrder(w: World, es: seq<Event>, last: World, i: nat)
    requires Opened(w) && Run(w, es, last) && i < |last.chains|
    ensures var c := last.chains[i];
            && Known(last.store, c.pending)
            && c.published + Enabled(Deref(last.store, c.pending)) == Enabled(c.initial)
            && (c.awaiting.None? && c.pending == [] ==> c.published == Enabled(c.initial))
            && (c.awaiting.None? && c.pending != [] ==> last.store[c.pending[0]].consume)
  {
    OpenedInv(w);
    RunKeepsInv(w, es, last);
  }

  /** A chain gets no more replies than its messages cost; it is done exactly when it got them all,
      and a consumer is the only thing that stops it short. */
  lemma FinishesAfterItsCost(w: World, es: seq<Event>, last: World, i: nat)
    requires Opened(w) && Run(w, es, last) && i < |last.chains|
    ensures var c := last.chains[i];
            && c.replies <= TotalCost(c.initial)
            && (c.pending == [] ==> c.awaiting.None? && c.replies == TotalCost(c.initial))
            && (c.replies == TotalCost(c.initial) ==> c.awaiting.None?)
            && (c.awaiting.None? && c.pending != [] ==> c.pending[0] in last.store && last.store[c.pending[0]].consume)
  {
    OpenedInv(w);
    RunKeepsInv(w, es, last);
  }

  /** Whenever a message has gone out, the broker held its exchange, its queue and the binding between
      them, as far as it asks for them; they are all still there. */
  lemma SetUpBeforePublish(w: World, es: seq<Event>, last: World, i: nat, m: Message)
    requires Opened(w) && Run(w, es, last) && i < |last.chains| && m in last.chains[i].published
    ensures m.exchangeEnable ==> m.exchangeName in last.broker.exchanges
    ensures m.queueEnable ==> m.queueName in last.broker.queues
    ensures m.exchangeEnable && m.queueEnable ==> (m.exchangeName, m.queueName, m.routingKey) in last.broker.bindings
  {
    OpenedInv(w);
    RunKeepsInv(w, es, last);
  }

  /** A broadcast that does not declare its exchange never meets a broker without it: on every
      channel, also after reconnects to a broker that has lost everything, messages go out only once
      the consumer chain has declared and bound the exchange it consumes from. */
  lemma BroadcastExchangeDeclared(w: World, es: seq<Event>, last: World, i: nat)
    requires Opened(w) && Run(w, es, last) && i < |last.chains| && last.chains[i].published != []
    ensures last.consuming
    ensures CONSUMER in last.store && last.store[CONSUMER].exchangeName in last.broker.exchanges
  {
    OpenedInv(w);
    RunKeepsInv(w, es, last);
  }

  // ---- What happens without ownership ----

  lemma {:induction false} EnabledAfterWrite(store: Store, refs: seq<Ref>, ref: Ref, m: Message)
    requires Known(store, refs) && ref in store
    ensures Enabled(Deref(store[ref := m], refs)) == Enabled(Deref(store, refs)) <==>
            ref !in refs || m == store[ref] || (!m.messageEnable && !store[ref].messageEnable)
    ensures !m.messageEnable ==> |Enabled(Deref(store[ref := m], refs))| <= |Enabled(Deref(store, refs))|
    ensures !store[ref].messageEnable ==> |Enabled(Deref(store, refs))| <= |Enabled(Deref(store[ref := m], refs))|
  {
    if refs == [] {
    } else {
      DerefHead(store, refs);
      DerefHead(store[ref := m], refs);
      EnabledAfterWrite(store, refs[1..], ref, m);
      var before, after := Deref(store, refs), Deref(store[ref := m], refs);
      assert refs == [refs[0]] + refs[1..];
      assert Enabled(before)[|Enabled(before)| - |Enabled(before[1..])|..] == Enabled(before[1..]);
      assert Enabled(after)[|Enabled(after)| - |Enabled(after[1..])|..] == Enabled(after[1..]);
    }
  }

  /** `Run` without the ownership rule. */
  ghost predicate Trace(w: World, es: seq<Event>, last: World)
    decreases |es|
  {
    if es == [] then w == last else Possible(w, es[0]) && Trace(Step(w, es[0]), es[1..], last)
  }

  lemma TraceStep(w: World, e: Event, es: seq<Event>, last: World)
    requires Possible(w, e) && Trace(Step(w, e), es, last)
    ensures Trace(w, [e] + es, last)
  {
    assert ([e] + es)[1..] == es;
  }

  /** Only replies and new lists: no further write and no reconnect. */
  ghost predicate Calm(es: seq<Event>) {
    forall i | 0 <= i < |es| :: es[i].Reply? || es[i].Start?
  }

  lemma CallbackTotal(store: Store, c: Chain)
    requires Known(store, c.pending) && c.pending != [] && c.awaiting.Some?
    ensures Known(store, Callback(store, c).pending)
    ensures Total(store, Callback(store, c)) == Total(store, c) && Callback(store, c).initial == c.initial
  {
    if Callback(store, c) == Release(store, c) {
      PopOrder(store, c);
      SettleOrder(store, Pop(store, c));
      SettleInitial(store, Pop(store, c));
    }
  }

  lemma {:induction false} SettleInitial(store: Store, c: Chain)
    requires Known(store, c.pending)
    ensures Settle(store, c).initial == c.initial
    decreases |c.pending|
  {
    if c.pending != [] && Cost(store[c.pending[0]]) == 0 {
      SettleInitial(store, Pop(store, c));
    }
  }

  lemma CalmStep(w: World, e: Event, i: nat)
    requires Possible(w, e) && (e.Reply? || e.Start?) && i < |w.chains| && Known(w.store, w.chains[i].pending)
    ensures var next := Step(w, e);
            && next.store == w.store && i < |next.chains| && Known(w.store, next.chains[i].pending)
            && Total(w.store, next.chains[i]) == Total(w.store, w.chains[i])
            && next.chains[i].initial == w.chains[i].initial
  {
    if e == Reply(i) {
      var c := w.chains[i].(replies := w.chains[i].replies + 1);
      CallbackTotal(w.store, c);
    }
  }

  /** However a chain has got there, from then on it publishes what its messages say now. */
  lemma {:induction false} CalmTotal(w: World, es: seq<Event>, last: World, i: nat)
    requires Trace(w, es, last) && Calm(es) && i < |w.chains| && Known(w.store, w.chains[i].pending)
    ensures last.store == w.store && i < |last.chains| && Known(w.store, last.chains[i].pending)
    ensures Total(w.store, last.chains[i]) == Total(w.store, w.chains[i])
    ensures last.chains[i].initial == w.chains[i].initial
    decreases |es|
  {
    if es != [] {
      CalmStep(w, es[0], i);
      CalmTotal(Step(w, es[0]), es[1..], last, i);
    }
  }

  /** A finished chain has published what it was handed over exactly when a write kept it in order. */
  lemma WriteIff(store: Store, c: Chain, ref: Ref, m: Message)
    requires Known(store, c.pending) && InOrder(store, c)
    ensures Total(store[ref := m], c) == Enabled(c.initial) <==>
            || ref !in c.pending
            || (ref in store && (m == store[ref] || (!m.messageEnable && !store[ref].messageEnable)))
  {
    if ref in store {
      EnabledAfterWrite(store, c.pending, ref, m);
      assert Total(store[ref := m], c)[|c.published|..] == Enabled(Deref(store[ref := m], c.pending));
      assert Total(store, c)[|c.published|..] == Enabled(Deref(store, c.pending));
    } else {
      assert Deref(store[ref := m], c.pending) == Deref(store, c.pending);
    }
  }

  /** Once a chain has finished after a write, it has published what it was handed over exactly when
      the write did not hit a message that it still had pending, or changed nothing, or touched a
      message that is not published before and not published after. */
  lemma WriteKeepsOrderIff(start: World, past: seq<Event>, w: World, ref: Ref, m: Message, es: seq<Event>, last: World, i: nat)
    requires Opened(start) && Run(start, past, w) && Possible(w, Write(ref, m))
    requires Trace(Step(w, Write(ref, m)), es, last) && Calm(es)
    requires i < |w.chains| && i < |last.chains| && last.chains[i].pending == []
    ensures last.chains[i].published == Enabled(w.chains[i].initial) <==>
            || ref !in w.chains[i].pending
            || (ref in w.store && (m == w.store[ref] || (!m.messageEnable && !w.store[ref].messageEnable)))
  {
    OpenedInv(start);
    RunKeepsInv(start, past, w);
    assert ChainOk(w.store, w.broker, w.chains[i]);
    WriteIff(w.store, w.chains[i], ref, m);
    CalmTotal(Step(w, Write(ref, m)), es, last, i);
    assert Total(last.store, last.chains[i]) == last.chains[i].published;
  }

  /** The broker answers the consumer chain three times, and consumption starts. */
  lemma ConsumerStarts(w: World) returns (next: World)
    requires Opened(w)
    ensures Trace(w, [Reply(0), Reply(0), Reply(0)], next)
    ensures next.consuming && next.store == w.store && |next.chains| == 2
  {
    var m := w.store[CONSUMER];
    var w1 := Step(w, Reply(0));
    var w2 := Step(w1, Reply(0));
    assert w2.chains[0].awaiting == Some(Bind(m.exchangeName, m.queueName, m.routingKey));
    next := Step(w2, Reply(0));
    TraceStep(w2, Reply(0), [], next);
    TraceStep(w1, Reply(0), [Reply(0)], next);
    TraceStep(w, Reply(0), [Reply(0), Reply(0)], next);
    assert [Reply(0)] + [Reply(0), Reply(0)] == [Reply(0), Reply(0), Reply(0)];
  }

  /** A message that needs all three replies, gets them, and is overwritten before the first. */
  lemma SetUpAndOverwritten(w: World, ref: Ref, second: Message) returns (es: seq<Event>, last: World)
    requires w.consuming && ref in w.store && ref != CONSUMER && ref != PUBLISHER
    requires Cost(w.store[ref]) == 3 && Cost(second) == 3 && !second.consume && second.messageEnable
    ensures Trace(w, es, last) && |last.chains| == |w.chains| + 1
    ensures last.chains[|w.chains|].initial == [w.store[ref]]
    ensures last.chains[|w.chains|].published == [second] && last.chains[|w.chains|].pending == []
  {
    var i := |w.chains|;
    var first := w.store[ref];
    assert Deref(w.store, [ref]) == [first];
    var w1 := Step(w, Start([ref]));
    var w2 := Step(w1, Write(ref, second));
    assert w1.chains[i] == Chain([first], [], [ref], Some(DeclareExchange(first.exchangeName)), 0);
    var w3 := Step(w2, Reply(i));
    var w4 := Step(w3, Reply(i));
    var w5 := Step(w4, Reply(i));
    es, last := [Start([ref]), Write(ref, second), Reply(i), Reply(i), Reply(i)], w5;
    TraceStep(w4, Reply(i), [], last);
    TraceStep(w3, Reply(i), [Reply(i)], last);
    TraceStep(w2, Reply(i), [Reply(i), Reply(i)], last);
    TraceStep(w1, Write(ref, second), [Reply(i), Reply(i), Reply(i)], last);
    TraceStep(w, Start([ref]), [Write(ref, second), Reply(i), Reply(i), Reply(i)], last);
    assert es == [Start([ref])] + [Write(ref, second), Reply(i), Reply(i), Reply(i)];
  }

  lemma {:induction false} TraceConcat(w: World, a: seq<Event>, mid: World, b: seq<Event>, last: World)
    requires Trace(w, a, mid) && Trace(mid, b, last)
    ensures Trace(w, a + b, last)
    decreases |a|
  {
    if a == [] {
      assert a + b == b;
    } else {
      assert (a + b)[1..] == a[1..] + b;
      TraceConcat(Step(w, a[0]), a[1..], mid, b, last);
    }
  }

  /** An action that fills in the shared template for the next device while the first is still being
      set up: the first device's message is never published, the second device's goes out for it. */
  lemma OverwrittenTemplate(start: World, ref: Ref, second: Message) returns (es: seq<Event>, last: World)
    requires Opened(start) && ref in start.store && ref != CONSUMER && ref != PUBLISHER
    requires Cost(start.store[ref]) == 3 && start.store[ref].messageEnable
    requires Cost(second) == 3 && !second.consume && second.messageEnable
    ensures Trace(start, es, last) && |last.chains| == 3
    ensures last.chains[2].initial == [start.store[ref]]
    ensures last.chains[2].published == [second] && last.chains[2].pending == []
  {
    var w := ConsumerStarts(start);
    es, last := SetUpAndOverwritten(w, ref, second);
    TraceConcat(start, [Reply(0), Reply(0), Reply(0)], w, es, last);
    es := [Reply(0), Reply(0), Reply(0)] + es;
  }
}
