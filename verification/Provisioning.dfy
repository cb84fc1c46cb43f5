/** The callbacks of class `Provisioning`, proved against `Pipeline`. A chain's list of messages is
    the list object that Python keeps alive in the callback, and is popped in place. */
module Provisioning {
  import opened Wrappers
  import opened Pipeline

  predicate SameKind(a: Request, b: Request) {
    a.DeclareExchange? == b.DeclareExchange? && a.DeclareQueue? == b.DeclareQueue?
  }

  /** The callback looks at the message, not at the names in the request it answers. */
  lemma CallbackIgnoresNames(store: Store, c: Chain, request: Request)
    requires Known(store, c.pending) && c.pending != [] && c.awaiting.Some? && SameKind(c.awaiting.value, request)
    ensures Callback(store, c.(awaiting := Some(request))) == Callback(store, c)
  {
  }

  class Provisioning {
    var store: Store
    var broker: Broker
    var chains: seq<Chain>
    var consuming: bool

    constructor (store: Store, broker: Broker)
      ensures Current() == World(store, broker, [], false)
    {
      this.store, this.broker, this.chains, this.consuming := store, broker, [], false;
    }

    function Current(): World
      reads this
    {
      World(store, broker, chains, consuming)
    }

    /** Chain `i` has messages left and runs in a callback. */
    predicate Running(i: nat)
      reads this
    {
      i < |chains| && chains[i].pending != [] && chains[i].awaiting.None? && Known(store, chains[i].pending)
    }

    function Head(i: nat): Message
      reads this
      requires Running(i)
    {
      store[chains[i].pending[0]]
    }

    method Send(i: nat, request: Request)
      requires i < |chains|
      modifies this`chains
      ensures chains == old(chains)[i := old(chains[i]).(awaiting := Some(request))]
    {
      chains := chains[i := chains[i].(awaiting := Some(request))];
    }

    method SetupExchange(i: nat)
      requires Running(i)
      modifies this`chains
      ensures chains == old(chains)[i := Settle(store, old(chains[i]))]
      decreases |chains[i].pending|, 4
    {
      if !Head(i).exchangeEnable {
        SetupQueue(i);
        return;
      }
      Send(i, DeclareExchange(Head(i).exchangeName));
    }

    method SetupQueue(i: nat)
      requires Running(i)
      modifies this`chains
      ensures chains == old(chains)[i :=
        if old(Head(i)).queueEnable then old(chains[i]).(awaiting := Some(DeclareQueue(old(Head(i)).queueName)))
        else Release(store, old(chains[i]))]
      decreases |chains[i].pending|, 3
    {
      if !Head(i).queueEnable {
        SetupBind(i);
        return;
      }
      Send(i, DeclareQueue(Head(i).queueName));
    }

    method SetupBind(i: nat)
      requires Running(i)
      modifies this`chains
      ensures chains == old(chains)[i :=
        if old(Head(i)).exchangeEnable && old(Head(i)).queueEnable
        then old(chains[i]).(awaiting := Some(Bind(old(Head(i)).exchangeName, old(Head(i)).queueName, old(Head(i)).routingKey)))
        else Release(store, old(chains[i]))]
      decreases |chains[i].pending|, 2
    {
      if !Head(i).exchangeEnable {
        Publish(i);
        return;
      }
      if !Head(i).queueEnable {
        Publish(i);
        return;
      }
      Send(i, Bind(Head(i).exchangeName, Head(i).queueName, Head(i).routingKey));
    }

    method Publish(i: nat)
      requires Running(i)
      modifies this`chains
      ensures chains == old(chains)[i := Release(store, old(chains[i]))]
      decreases |chains[i].pending|, 1
    {
      var m := Head(i);
      if !m.messageEnable {
        Handle(i);
        return;
      }
      chains := chains[i := chains[i].(published := chains[i].published + [m])];
      Handle(i);
    }

    method Handle(i: nat)
      requires Running(i)
      modifies this`chains
      ensures chains == old(chains)[i := Settle(store, old(chains[i]).(pending := old(chains[i].pending)[1..]))]
      decreases |chains[i].pending|, 0
    {
      chains := chains[i := chains[i].(pending := chains[i].pending[1..])];
      if chains[i].pending == [] {
        return;
      }
      SetupExchange(i);
    }

    /** The broker has carried out the request of chain `i`, and pika runs the callback. */
    method OnReply(i: nat)
      requires Possible(Current(), Reply(i))
      modifies this
      ensures Current() == Step(old(Current()), Reply(i))
    {
      var request := chains[i].awaiting.value;
      ghost var c := chains[i].(replies := chains[i].replies + 1);
      broker := Carry(broker, request);
      chains := chains[i := chains[i].(awaiting := None, replies := chains[i].replies + 1)];
      match request {
        case DeclareExchange(_) =>
          CallbackIgnoresNames(store, c, DeclareExchange(""));
          OnExchangeDeclareOk(i);
        case DeclareQueue(_) =>
          CallbackIgnoresNames(store, c, DeclareQueue(""));
          OnQueueDeclareOk(i);
        case Bind(_, _, _) =>
          CallbackIgnoresNames(store, c, Bind("", "", ""));
          OnBindOk(i);
      }
      assert chains[i] == Callback(store, c);
      assert chains == old(chains)[i := chains[i]];
    }

    method OnExchangeDeclareOk(i: nat)
      requires Running(i)
      modifies this`chains
      ensures chains == old(chains)[i := Callback(store, old(chains[i]).(awaiting := Some(DeclareExchange(""))))]
    {
      SetupQueue(i);
    }

    method OnQueueDeclareOk(i: nat)
      requires Running(i)
      modifies this`chains
      ensures chains == old(chains)[i := Callback(store, old(chains[i]).(awaiting := Some(DeclareQueue(""))))]
    {
      SetupBind(i);
    }

    method OnBindOk(i: nat)
      requires Running(i)
      modifies this`chains, this`consuming
      ensures chains == old(chains)[i := Callback(store, old(chains[i]).(awaiting := Some(Bind("", "", ""))))]
      ensures consuming == (old(consuming) || old(Head(i)).consume)
    {
      if Head(i).consume {
        Consume();
        return;
      }
      Publish(i);
    }

    method Consume()
      modifies this`consuming
      ensures consuming
    {
      consuming := true;
    }

    method Begin(refs: seq<Ref>)
      requires refs != [] && Known(store, refs)
      modifies this`chains
      ensures chains == old(chains) + [Pipeline.Begin(store, refs)]
    {
      chains := chains + [Chain(Deref(store, refs), [], refs, None, 0)];
      SetupExchange(|chains| - 1);
    }

    /** Called by an action, and actions are called by `on_message`. */
    method StartPublishing(refs: seq<Ref>)
      requires Possible(Current(), Start(refs))
      modifies this`chains
      ensures Current() == Step(old(Current()), Start(refs))
    {
      Begin(refs);
    }

    /** The old channel, with all its callbacks, is gone. */
    method OnChannelOpen(left: Broker)
      requires Possible(Current(), Reopen(left))
      modifies this
      ensures Current() == Step(old(Current()), Reopen(left))
    {
      broker, chains, consuming := left, [], false;
      Begin([CONSUMER]);
      Begin([PUBLISHER]);
    }
  }
}
