/** Deliveries in the order in which a broker makes them: each back end reads its queue from the front.
    `Fanout` lets deliveries overtake each other, so what holds for all of its runs holds for ordered
    runs too. Where a run is to show that something can happen, this module tells what is in the
    queues on the way: reading takes one message off one queue, and a broadcast puts one at the end
    of each. */
module FanoutOrder {
  import opened Wrappers
  import opened Fanout
  import opened FanoutAccounts

  /** What waits in the queue of a back end. */
  function Queue(ds: seq<Delivery>, n: nat): seq<Msg> {
    if ds == [] then [] else (if ds[0].node == n then [ds[0].msg] else []) + Queue(ds[1..], n)
  }

  function Front(ds: seq<Delivery>, n: nat): (i: nat)
    requires Queue(ds, n) != []
    ensures i < |ds| && ds[i].node == n
  {
    if ds[0].node == n then 0 else 1 + Front(ds[1..], n)
  }

  /** What is delivered stands at the front of its queue. */
  predicate InOrder(w: World, e: Event) {
    e.Deliver? && e.index < |w.inflight| ==> forall j | 0 <= j < e.index :: w.inflight[j].node != w.inflight[e.index].node
  }

  ghost predicate Ordered(cfg: seq<Node>, w: World, es: seq<Event>)
    decreases |es|
  {
    es != [] ==> Possible(cfg, w, es[0]) && InOrder(w, es[0]) && Ordered(cfg, Step(cfg, w, es[0]), es[1..])
  }

  lemma {:induction false} OrderedConcat(cfg: seq<Node>, w: World, a: seq<Event>, mid: World, b: seq<Event>)
    requires Run(cfg, w, a, mid) && Ordered(cfg, w, a) && Ordered(cfg, mid, b)
    ensures Ordered(cfg, w, a + b)
    decreases |a|
  {
    if a == [] {
      assert a + b == b;
    } else {
      assert (a + b)[1..] == a[1..] + b;
      OrderedConcat(cfg, Step(cfg, w, a[0]), a[1..], mid, b);
    }
  }

  lemma {:induction false} QueueConcat(a: seq<Delivery>, b: seq<Delivery>, n: nat)
    ensures Queue(a + b, n) == Queue(a, n) + Queue(b, n)
  {
    if a == [] {
      assert a + b == b;
    } else {
      var own := if a[0].node == n then [a[0].msg] else [];
      assert (a + b)[0] == a[0] && (a + b)[1..] == a[1..] + b;
      QueueConcat(a[1..], b, n);
      assert Queue(a + b, n) == own + (Queue(a[1..], n) + Queue(b, n));
    }
  }

  lemma {:induction false} FrontIsFirst(ds: seq<Delivery>, n: nat)
    requires Queue(ds, n) != []
    ensures forall j | 0 <= j < Front(ds, n) :: ds[j].node != n
    ensures ds[Front(ds, n)] == Delivery(n, Queue(ds, n)[0])
  {
    if ds[0].node != n {
      FrontIsFirst(ds[1..], n);
    }
  }

  /** Taking the delivery at the front leaves the rest of that queue, and all of the others. */
  lemma {:induction false} TakeFront(ds: seq<Delivery>, n: nat, k: nat)
    requires Queue(ds, n) != []
    ensures Queue(RemoveAt(ds, Front(ds, n)), k) == if k == n then Queue(ds, n)[1..] else Queue(ds, k)
  {
    if ds[0].node == n {
      assert RemoveAt(ds, 0) == ds[1..];
    } else {
      var i := Front(ds[1..], n);
      TakeFront(ds[1..], n, k);
      RemoveLater(ds, i);
      assert Queue([ds[0]] + RemoveAt(ds[1..], i), k) == Queue([ds[0]], k) + Queue(RemoveAt(ds[1..], i), k) by {
        QueueConcat([ds[0]], RemoveAt(ds[1..], i), k);
      }
      assert [ds[0]][1..] == [];
    }
  }

  lemma RemoveLater(ds: seq<Delivery>, i: nat)
    requires i + 1 < |ds|
    ensures RemoveAt(ds, i + 1) == [ds[0]] + RemoveAt(ds[1..], i)
  {
  }

  lemma {:induction false} QueueOfCopies(nodes: nat, m: Msg, j: nat, n: nat)
    requires j <= nodes
    ensures Queue(Copies(nodes, m)[j..], n) == if j <= n < nodes then [m] else []
    decreases nodes - j
  {
    if j < nodes {
      QueueOfCopies(nodes, m, j + 1, n);
      assert Copies(nodes, m)[j..][1..] == Copies(nodes, m)[j + 1..];
    }
  }

  /** A broadcast goes to the end of every queue. */
  lemma {:induction false} BroadcastQueue(nodes: nat, w: World, ms: seq<Msg>, n: nat)
    requires n < nodes
    ensures Queue(Broadcast(nodes, w, ms).inflight, n) == Queue(w.inflight, n) + ms
    decreases |ms|
  {
    if ms != [] {
      var next := w.(inflight := w.inflight + Copies(nodes, ms[0]), broadcasts := w.broadcasts + 1);
      QueueConcat(w.inflight, Copies(nodes, ms[0]), n);
      QueueOfCopies(nodes, ms[0], 0, n);
      assert Copies(nodes, ms[0])[0..] == Copies(nodes, ms[0]);
      BroadcastQueue(nodes, next, ms[1..], n);
      assert [ms[0]] + ms[1..] == ms;
    }
  }

  /** The next event of a queue. */
  function Next(w: World, n: nat, choice: Choice): Event
    requires Queue(w.inflight, n) != []
  {
    Deliver(Front(w.inflight, n), choice)
  }

  /** Reading takes one message off one queue. */
  ghost predicate Popped(cfg: seq<Node>, w: World, next: World, n: nat) {
    && Queue(w.inflight, n) != []
    && forall k: nat | k < |cfg| :: Queue(next.inflight, k) == if k == n then Queue(w.inflight, n)[1..] else Queue(w.inflight, k)
  }

  ghost predicate Pushed(cfg: seq<Node>, w: World, next: World, ms: seq<Msg>) {
    forall k: nat | k < |cfg| :: Queue(next.inflight, k) == Queue(w.inflight, k) + ms
  }

  lemma NextPops(cfg: seq<Node>, w: World, n: nat, choice: Choice)
    requires Shaped(cfg, w) && n < |cfg| && Queue(w.inflight, n) != []
    ensures var e := Next(w, n, choice);
            && Possible(cfg, w, e) && InOrder(w, e) && w.inflight[e.index] == Delivery(n, Queue(w.inflight, n)[0])
            && Popped(cfg, w, Step(cfg, w, e), n)
  {
    FrontIsFirst(w.inflight, n);
    forall k: nat | k < |cfg|
      ensures Queue(RemoveAt(w.inflight, Front(w.inflight, n)), k) == if k == n then Queue(w.inflight, n)[1..] else Queue(w.inflight, k)
    {
      TakeFront(w.inflight, n, k);
    }
  }

  lemma BroadcastPushes(cfg: seq<Node>, w: World, ms: seq<Msg>)
    ensures Pushed(cfg, w, Broadcast(|cfg|, w, ms), ms)
  {
    forall k: nat | k < |cfg| ensures Queue(Broadcast(|cfg|, w, ms).inflight, k) == Queue(w.inflight, k) + ms {
      BroadcastQueue(|cfg|, w, ms, k);
    }
  }
}
