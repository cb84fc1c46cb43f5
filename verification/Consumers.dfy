/** Lists with a message that starts consuming: nothing behind that message ever goes out. */
module Consumers {
  import opened Wrappers
  import opened Pipeline

  /** The message is set up with exchange and queue, and starts consuming then. */
  predicate Stops(m: Message) {
    m.exchangeEnable && m.queueEnable && m.consume
  }

  /** What is left of a list is a tail of it, what went out is what is enabled in front of that tail, and
      no message in front of it starts consuming. */
  ghost predicate Ahead(store: Store, c: Chain) {
    && Known(store, c.pending) && |c.pending| <= |c.initial|
    && var k := |c.initial| - |c.pending|;
       && Deref(store, c.pending) == c.initial[k..]
       && c.published == Enabled(c.initial[..k])
       && forall j | 0 <= j < k :: !Stops(c.initial[j])
  }

  lemma OneFurther(ms: seq<Message>, k: nat)
    requires k < |ms|
    ensures ms[k..][0] == ms[k] && ms[k..][1..] == ms[k + 1..]
    ensures Enabled(ms[..k + 1]) == if ms[k].messageEnable then Enabled(ms[..k]) + [ms[k]] else Enabled(ms[..k])
  {
    assert ms[..k + 1] == ms[..k] + [ms[k]];
    EnabledConcat(ms[..k], [ms[k]]);
    assert [ms[k]][1..] == [];
  }

  lemma PopsAhead(store: Store, c: Chain)
    requires Ahead(store, c) && c.pending != [] && !Stops(store[c.pending[0]])
    ensures Ahead(store, Pop(store, c))
  {
    var k, next := |c.initial| - |c.pending|, Pop(store, c);
    DerefHead(store, c.pending);
    OneFurther(c.initial, k);
    assert c.initial[k] == store[c.pending[0]];
    assert Deref(store, next.pending) == c.initial[k + 1..];
    assert |c.initial| - |next.pending| == k + 1;
  }

  lemma {:induction false} SettlesAhead(store: Store, c: Chain)
    requires Ahead(store, c)
    ensures Ahead(store, Settle(store, c))
    decreases |c.pending|
  {
    if c.pending != [] && Cost(store[c.pending[0]]) == 0 {
      PopsAhead(store, c);
      SettlesAhead(store, Pop(store, c));
    }
  }

  lemma ReleasesAhead(store: Store, c: Chain)
    requires Ahead(store, c) && c.pending != [] && !Stops(store[c.pending[0]])
    ensures Ahead(store, Release(store, c))
  {
    PopsAhead(store, c);
    SettlesAhead(store, Pop(store, c));
  }

  lemma WaitsAhead(store: Store, c: Chain, awaiting: Option<Request>)
    requires Ahead(store, c)
    ensures Ahead(store, c.(awaiting := awaiting))
  {
  }

  lemma CallbackMoves(store: Store, c: Chain)
    requires Known(store, c.pending) && c.pending != [] && c.awaiting.Some?
    ensures var next := Callback(store, c);
            next == c.(awaiting := next.awaiting) || (next == Release(store, c) && !Stops(store[c.pending[0]]))
  {
  }

  lemma CallbackAhead(store: Store, c: Chain)
    requires Ahead(store, c) && c.pending != [] && c.awaiting.Some?
    ensures Ahead(store, Callback(store, c))
  {
    var next := Callback(store, c);
    CallbackMoves(store, c);
    if next == c.(awaiting := next.awaiting) {
      WaitsAhead(store, c, next.awaiting);
    } else {
      ReleasesAhead(store, c);
    }
  }

  lemma BeginsAhead(store: Store, refs: seq<Ref>)
    requires Known(store, refs)
    ensures Ahead(store, Begin(store, refs))
  {
    var c := Chain(Deref(store, refs), [], refs, None, 0);
    assert c.initial[..0] == [] && c.initial[0..] == c.initial;
    SettlesAhead(store, c);
  }

  ghost predicate AllAhead(w: World) {
    forall i | 0 <= i < |w.chains| :: Ahead(w.store, w.chains[i])
  }

  lemma StepAhead(w: World, e: Event)
    requires AllAhead(w) && Possible(w, e) && Owned(w, e)
    ensures AllAhead(Step(w, e))
  {
    match e {
      case Reply(i) =>
        assert Ahead(w.store, w.chains[i].(replies := w.chains[i].replies + 1));
        CallbackAhead(w.store, w.chains[i].(replies := w.chains[i].replies + 1));
      case Start(refs) =>
        BeginsAhead(w.store, refs);
      case Write(ref, m) =>
        forall j | 0 <= j < |w.chains| ensures Ahead(w.store[ref := m], w.chains[j]) {
          assert Ahead(w.store, w.chains[j]);
          assert Deref(w.store[ref := m], w.chains[j].pending) == Deref(w.store, w.chains[j].pending);
        }
      case Reopen(left) =>
        BeginsAhead(w.store, [CONSUMER]);
        BeginsAhead(w.store, [PUBLISHER]);
    }
  }

  lemma {:induction false} RunAhead(w: World, es: seq<Event>, last: World)
    requires AllAhead(w) && Run(w, es, last)
    ensures AllAhead(last)
    decreases |es|
  {
    if es != [] {
      StepAhead(w, es[0]);
      RunAhead(Step(w, es[0]), es[1..], last);
    }
  }

  lemma {:induction false} EnabledPrefix(ms: seq<Message>, k: nat, j: nat)
    requires k <= j <= |ms|
    ensures Enabled(ms[..k]) <= Enabled(ms[..j])
  {
    assert ms[..j] == ms[..k] + ms[k..j];
    EnabledConcat(ms[..k], ms[k..j]);
  }

  /** In every run, of a list with a message that starts consuming nothing goes out but what is enabled in
      front of that message; and a list that has stopped short has met one, and all of that is out. */
  lemma NothingBehindAConsumer(w: World, es: seq<Event>, last: World, i: nat)
    requires Opened(w) && Run(w, es, last) && i < |last.chains|
    ensures var c := last.chains[i];
            && (forall j | 0 <= j < |c.initial| && c.initial[j].exchangeEnable && c.initial[j].queueEnable && c.initial[j].consume ::
                  c.published <= Enabled(c.initial[..j]))
            && (c.awaiting.None? && c.pending != [] ==>
                  && |c.pending| <= |c.initial|
                  && var j := |c.initial| - |c.pending|;
                     c.initial[j].consume && c.published == Enabled(c.initial[..j]))
  {
    BeginsAhead(w.store, [CONSUMER]);
    BeginsAhead(w.store, [PUBLISHER]);
    RunAhead(w, es, last);
    var c := last.chains[i];
    assert Ahead(last.store, c);
    var k := |c.initial| - |c.pending|;
    forall j | 0 <= j < |c.initial| && Stops(c.initial[j]) ensures c.published <= Enabled(c.initial[..j]) {
      EnabledPrefix(c.initial, k, j);
    }
    PublishedInOrder(w, es, last, i);
    if c.pending != [] {
      assert Deref(last.store, c.pending)[0] == c.initial[k..][0];
    }
  }
}
