/** Devices that go on asking: every action of their queue is sent, in order. */
module ActionQueue {
  import opened Wrappers
  import opened HeaderScan
  import opened Connection
  import opened Amqp
  import opened Responses
  import opened Session

  /** The RPCs that texts of actions are turned into. */
  function Rpcs(cfg: Config, texts: seq<string>): seq<Reply> {
    if texts == [] then []
    else (match cfg.convert(texts[0]) {
            case Action(xml, cookie) => [RpcReply(xml, cookie)]
            case _ => []
          }) + Rpcs(cfg, texts[1..])
  }

  lemma {:induction false} RpcsConcat(cfg: Config, a: seq<string>, b: seq<string>)
    ensures Rpcs(cfg, a + b) == Rpcs(cfg, a) + Rpcs(cfg, b)
  {
    if a == [] {
      assert a + b == b;
    } else {
      assert (a + b)[1..] == a[1..] + b;
      RpcsConcat(cfg, a[1..], b);
    }
  }

  /** A request for an action of the queue. */
  ghost predicate AsksFor(cfg: Config, e: Session.Event, queue: string) {
    e.Ask? && Mandatory(e.headers) && Wants(cfg, e.headers, e.msg) && OwnQueue(cfg, e.headers) == queue
  }

  /** When there is an action for such a request it comes through, and can be turned into an RPC. */
  ghost predicate Comes(cfg: Config, w: World, e: Session.Event, queue: string) {
    AsksFor(cfg, e, queue) && Contents(w.queues, queue) != [] ==>
      ComesThrough(e.script, Contents(w.queues, queue)[0]) && cfg.convert(Contents(w.queues, queue)[0]).Action?
  }

  ghost predicate AllCome(cfg: Config, w: World, es: seq<Session.Event>, queue: string)
    decreases |es|
  {
    es != [] ==> Possible(es[0]) && Comes(cfg, w, es[0], queue) && AllCome(cfg, Step(cfg, w, es[0]), es[1..], queue)
  }

  /** How many requests for an action of the queue there are. */
  ghost function Asked(cfg: Config, es: seq<Session.Event>, queue: string): nat {
    if es == [] then 0 else (if AsksFor(cfg, es[0], queue) then 1 else 0) + Asked(cfg, es[1..], queue)
  }

  lemma {:induction false} SentConcat(a: seq<Turn>, b: seq<Turn>, queue: string)
    ensures Sent(a + b, queue) == Sent(a, queue) + Sent(b, queue)
  {
    if a == [] {
      assert a + b == b;
    } else {
      var first := if a[0].queue == queue && a[0].reply.RpcReply? then [a[0].reply] else [];
      assert (a + b)[0] == a[0] && (a + b)[1..] == a[1..] + b;
      SentConcat(a[1..], b, queue);
      Regrouped(first, Sent(a[1..], queue), Sent(b, queue));
    }
  }

  /** Between two worlds, `taken` has left the queue and `puts` has come in, and what was taken was sent. */
  ghost predicate Balanced(cfg: Config, w: World, next: World, taken: seq<string>, puts: seq<string>, queue: string) {
    && taken + Contents(next.queues, queue) == Contents(w.queues, queue) + puts
    && Sent(next.turns, queue) == Sent(w.turns, queue) + Rpcs(cfg, taken)
  }

  lemma Joined<T>(first: seq<T>, rest: seq<T>, before: seq<T>, mid: seq<T>, after: seq<T>, put: seq<T>, puts: seq<T>)
    requires first + mid == before + put && rest + after == mid + puts
    ensures (first + rest) + after == before + (put + puts)
  {
    Regrouped(first, rest, after);
    Regrouped(first, mid, puts);
    Regrouped(before, put, puts);
  }

  lemma SentTwice(cfg: Config, before: seq<Reply>, mid: seq<Reply>, after: seq<Reply>, first: seq<string>, rest: seq<string>)
    requires mid == before + Rpcs(cfg, first) && after == mid + Rpcs(cfg, rest)
    ensures after == before + Rpcs(cfg, first + rest)
  {
    RpcsConcat(cfg, first, rest);
    Regrouped(before, Rpcs(cfg, first), Rpcs(cfg, rest));
  }

  lemma BalancedTwice(cfg: Config, w: World, mid: World, last: World, first: seq<string>, rest: seq<string>,
                      put: seq<string>, puts: seq<string>, queue: string)
    requires Balanced(cfg, w, mid, first, put, queue) && Balanced(cfg, mid, last, rest, puts, queue)
    ensures Balanced(cfg, w, last, first + rest, put + puts, queue)
  {
    Joined(first, rest, Contents(w.queues, queue), Contents(mid.queues, queue), Contents(last.queues, queue), put, puts);
    SentTwice(cfg, Sent(w.turns, queue), Sent(mid.turns, queue), Sent(last.turns, queue), first, rest);
  }

  /** What a step sends to devices of the queue, and takes off it. */
  lemma StepSends(cfg: Config, w: World, e: Session.Event, queue: string) returns (taken: seq<string>)
    requires Possible(e) && Comes(cfg, w, e, queue)
    ensures Balanced(cfg, w, Step(cfg, w, e), taken, Puts([e], queue), queue)
    ensures taken == if AsksFor(cfg, e, queue) && Contents(w.queues, queue) != [] then [Contents(w.queues, queue)[0]] else []
  {
    taken := if AsksFor(cfg, e, queue) && Contents(w.queues, queue) != [] then [Contents(w.queues, queue)[0]] else [];
    assert [e][1..] == [] && Rpcs(cfg, []) == [];
    if e.Ask? {
      var turn := Answered(cfg, w, e);
      SentConcat(w.turns, [turn], queue);
      assert [turn][1..] == [];
      TurnSends(cfg, w, e, queue);
      assert taken != [] ==> taken[1..] == [] && Contents(w.queues, queue) == taken + Contents(w.queues, queue)[1..];
    }
  }

  /** The RPC that one request gets, if any. */
  lemma TurnSends(cfg: Config, w: World, e: Session.Event, queue: string)
    requires e.Ask? && Possible(e) && Comes(cfg, w, e, queue)
    ensures var turn, waiting := Answered(cfg, w, e), Contents(w.queues, queue);
            if AsksFor(cfg, e, queue) && waiting != [] then
              && turn.queue == queue && turn.reply.RpcReply? && cfg.convert(waiting[0]) == Action(turn.reply.xml, turn.reply.cookie)
              && Contents(Step(cfg, w, e).queues, queue) == waiting[1..]
            else (turn.queue == queue ==> !turn.reply.RpcReply?) && Contents(Step(cfg, w, e).queues, queue) == waiting
  {
    TagSays(cfg, e.headers, e.msg);
    OnlyWhenAsked(cfg, e.headers, e.msg, e.script, w.queues);
    if AsksFor(cfg, e, queue) && Contents(w.queues, queue) != [] {
      DeliversAction(e.script, Contents(w.queues, queue)[0]);
    }
  }

  /** Whatever happens in between: what devices of a queue are sent are the RPCs of the actions that have
      left the queue, all of them and in order; and as long as there are enough, one for each request. */
  lemma {:induction false} SentInOrder(cfg: Config, w: World, es: seq<Session.Event>, last: World, queue: string) returns (taken: seq<string>)
    requires Run(cfg, w, es, last) && AllCome(cfg, w, es, queue)
    ensures Balanced(cfg, w, last, taken, Puts(es, queue), queue)
    ensures Asked(cfg, es, queue) <= |Contents(w.queues, queue)| ==> |taken| == Asked(cfg, es, queue)
    decreases |es|
  {
    if es == [] {
      taken := [];
    } else {
      var next := Step(cfg, w, es[0]);
      var first := StepSends(cfg, w, es[0], queue);
      var rest := SentInOrder(cfg, next, es[1..], last, queue);
      taken := first + rest;
      PutsStep(es, queue);
      BalancedTwice(cfg, w, next, last, first, rest, Puts([es[0]], queue), Puts(es[1..], queue), queue);
      assert |first| + |Contents(next.queues, queue)| >= |Contents(w.queues, queue)|;
    }
  }

  /** A device that empties its queue: as many requests as there were actions, each of them an empty POST or
      the response to the last RPC. It is sent all of them, in the order in which they were queued. */
  lemma AllActionsSent(cfg: Config, w: World, es: seq<Session.Event>, last: World, queue: string)
    requires Run(cfg, w, es, last) && AllCome(cfg, w, es, queue)
    requires Asked(cfg, es, queue) == |Contents(w.queues, queue)|
    ensures Sent(last.turns, queue) == Sent(w.turns, queue) + Rpcs(cfg, Contents(w.queues, queue))
    ensures Contents(last.queues, queue) == Puts(es, queue)
  {
    var taken := SentInOrder(cfg, w, es, last, queue);
    var all := Contents(w.queues, queue) + Puts(es, queue);
    assert taken == all[..|taken|] && Contents(last.queues, queue) == all[|taken|..];
  }

  lemma NothingLeft(cfg: Config, w: World, ask: Session.Event, queue: string)
    requires Possible(ask) && AsksFor(cfg, ask, queue) && Comes(cfg, w, ask, queue)
    requires Render(Answered(cfg, w, ask).reply) == [Status(204), Newline]
    ensures Contents(w.queues, queue) == []
  {
    if Contents(w.queues, queue) != [] {
      TurnSends(cfg, w, ask, queue);
    }
  }

  /** A device that asks until it is told that there is nothing left has been sent everything, what was
      queued in the meantime included. */
  lemma UntilNoContent(cfg: Config, w: World, es: seq<Session.Event>, before: World, ask: Session.Event, queue: string)
    requires Run(cfg, w, es, before) && AllCome(cfg, w, es, queue)
    requires Possible(ask) && AsksFor(cfg, ask, queue) && Comes(cfg, before, ask, queue)
    requires Render(Answered(cfg, before, ask).reply) == [Status(204), Newline]
    ensures Sent(before.turns, queue) == Sent(w.turns, queue) + Rpcs(cfg, Contents(w.queues, queue) + Puts(es, queue))
  {
    var taken := SentInOrder(cfg, w, es, before, queue);
    NothingLeft(cfg, before, ask, queue);
    assert taken + [] == taken;
  }
}
