/** `amqp_notify` and `amqp_fetch_pending`: one short broker connection per call. */
module Amqp {
  import opened Wrappers
  import opened Reassembly

  // How far the set-up of a connection has come; a failed log-in or channel still has to be closed.
  datatype LinkState = Fresh | LoggedIn | InChannel | ChannelClosed | Closed | Destroyed

  /** A librabbitmq connection. Its calls may only be made in the right state. */
  class Link {
    var state: LinkState

    constructor ()
      ensures state == Fresh
    {
      state := Fresh;
    }

    method Login()
      requires state == Fresh
      modifies this
      ensures state == LoggedIn
    {
      state := LoggedIn;
    }

    method OpenChannel()
      requires state == LoggedIn
      modifies this
      ensures state == InChannel
    {
      state := InChannel;
    }

    /** A publish, a get or a wait on the open channel. */
    method Use()
      requires state == InChannel
    {
    }

    method CloseChannel()
      requires state == InChannel
      modifies this
      ensures state == ChannelClosed
    {
      state := ChannelClosed;
    }

    method CloseConnection()
      requires state == LoggedIn || state == ChannelClosed
      modifies this
      ensures state == Closed
    {
      state := Closed;
    }

    method Destroy()
      requires state == Fresh || state == Closed
      modifies this
      ensures state == Destroyed
    {
      state := Destroyed;
    }

    /** The clean-up that both functions write out on every path that has tried a channel. */
    method Shutdown()
      requires state == InChannel
      modifies this
      ensures state == Destroyed
    {
      CloseChannel();
      CloseConnection();
      Destroy();
    }
  }

  // The answer to `amqp_basic_get`: an exception, no complete reply, get-ok or get-empty, another method.
  // The broker may have taken the first action off the queue before the reply breaks off.
  datatype GetReply = ServerException | BrokenReply(taken: bool) | NormalReply | OddMethod(taken: bool)

  /** How broker and network answer one call: which steps succeed, and what arrives after get-ok. */
  datatype Script = Script(
    created: bool, socket: bool, connected: bool, login: bool, channel: bool, declare: bool, publish: bool,
    get: GetReply, header: Option<nat>, frames: seq<Frame>)

  ghost predicate Sized(script: Script) {
    && (script.header.Some? ==> script.header.value + 1 < SIZE_RANGE)
    && Framed(script.frames)
  }

  /** Every step of the set-up succeeds. */
  predicate GetsThrough(script: Script) {
    script.created && script.socket && script.connected && script.login && script.channel && script.declare
  }

  /** The set-up that both functions share: log in, open a channel, declare the exchange. What has been
      set up is taken down again when a later step fails. */
  method Connect(script: Script) returns (link: Link?, ok: bool)
    ensures ok <==> GetsThrough(script)
    ensures link == null <==> !script.created
    ensures link != null ==> fresh(link) && link.state == if ok then InChannel else Destroyed
  {
    ok := false;
    if !script.created {
      return null, false;
    }
    link := new Link();
    if !script.socket || !script.connected {
      link.Destroy();
      return;
    }
    link.Login();
    if !script.login {
      link.CloseConnection();
      link.Destroy();
      return;
    }
    link.OpenChannel();
    if !script.channel || !script.declare {
      link.Shutdown();
      return;
    }
    ok := true;
  }

  // What became of a fetch: nothing asked for, no such queue, an empty queue, an action removed from
  // the queue (the get is not acknowledged) and lost, an action removed and handed on.
  datatype Outcome = Refused | NoQueue | Empty | Lost | Delivered

  type Queues = map<string, seq<string>>

  function Contents(queues: Queues, name: string): seq<string> {
    if name in queues then queues[name] else []
  }

  /** The text that the frames behind a get-ok bring in, as the caller reads it. */
  function Text(script: Script): Option<string>
    requires Sized(script)
  {
    if script.header.None? then None else Assembled(script.header.value, script.frames, 0, script.header.value, "").0
  }

  /** What becomes of a fetch from a queue that holds `before`. */
  function FetchOutcome(script: Script, before: seq<string>): Outcome
    requires Sized(script)
  {
    if !GetsThrough(script) then Refused
    else match script.get {
      case ServerException => NoQueue
      case BrokenReply(taken) => if taken && before != [] then Lost else Refused
      case OddMethod(taken) => if taken && before != [] then Lost else Refused
      case NormalReply => if before == [] then Empty else if Text(script).Some? then Delivered else Lost
    }
  }

  /** Whether a fetch hands its action on or not, the get has taken it off the queue. */
  predicate Removes(outcome: Outcome) {
    outcome == Lost || outcome == Delivered
  }

  /** The queues after a fetch. */
  function Drained(queues: Queues, name: string, outcome: Outcome): Queues {
    if Removes(outcome) && Contents(queues, name) != [] then queues[name := Contents(queues, name)[1..]] else queues
  }

  /** At most the first action of one queue goes. */
  lemma DrainedContents(queues: Queues, name: string, outcome: Outcome, other: string)
    ensures Contents(Drained(queues, name, outcome), other) ==
            if other == name && Removes(outcome) && Contents(queues, name) != [] then Contents(queues, name)[1..] else Contents(queues, other)
  {
  }

  /** The frames are those of `action`, undamaged. */
  ghost predicate Honest(script: Script, action: string) {
    && script.header == Some(|action|)
    && exists k: nat :: Complete(|action|, script.frames, k) && Payloads(script.frames, k) == action
  }

  /** The connection of a call is gone when the call returns, and so is its socket; there was none if
      it could not be created. */
  ghost predicate TakenDown(script: Script, link: Link?)
    reads link
  {
    if script.created then link != null && link.state == Destroyed else link == null
  }

  class Broker<Message> {
    var queues: Queues
    var broadcasts: seq<Message>

    constructor (queues: Queues)
      ensures this.queues == queues && broadcasts == []
    {
      this.queues, this.broadcasts := queues, [];
    }

    /** Returns 0 exactly when the message has gone to the broadcast exchange, and leaves no connection
        behind on any path. */
    method Notify(message: Message, script: Script) returns (rc: int, ghost link: Link?)
      modifies this
      ensures rc == if GetsThrough(script) && script.publish then 0 else -1
      ensures broadcasts == old(broadcasts) + if rc == 0 then [message] else []
      ensures queues == old(queues)
      ensures (link == null || fresh(link)) && TakenDown(script, link)
    {
      var conn, ok := Connect(script);
      link := conn;
      if !ok {
        return -1, link;
      }
      conn.Use();
      if !script.publish {
        conn.Shutdown();
        return -1, link;
      }
      broadcasts := broadcasts + [message];
      conn.Shutdown();
      rc := 0;
    }

    /** Takes the first action off a queue, and leaves no connection behind on any path. */
    method FetchPending(name: string, script: Script) returns (rc: int, msg: Option<string>, ghost link: Link?)
      requires Sized(script)
      modifies this
      ensures var outcome := FetchOutcome(script, old(Contents(queues, name)));
              && rc == (if outcome == Refused || outcome == Lost then -1 else 0)
              && msg == (if outcome == Delivered then Text(script) else None)
              && queues == Drained(old(queues), name, outcome)
      ensures broadcasts == old(broadcasts)
      ensures (link == null || fresh(link)) && TakenDown(script, link)
    {
      var conn, ok := Connect(script);
      link := conn;
      if !ok {
        return -1, None, link;
      }
      conn.Use();
      if script.get == ServerException {
        conn.Shutdown();
        return 0, None, link;
      }
      var before := Contents(queues, name);
      if before != [] && (script.get.NormalReply? || script.get.taken) {
        queues := queues[name := before[1..]];
      }
      if script.get.BrokenReply? {
        conn.Shutdown();
        return -1, None, link;
      }
      if script.get == NormalReply && before == [] {
        conn.Shutdown();
        return 0, None, link;
      }
      if script.get.OddMethod? {
        conn.Shutdown();
        return -1, None, link;
      }
      conn.Use();
      if script.header == None {
        conn.Shutdown();
        return -1, None, link;
      }
      var received, data, used := ReceiveBody(script.header.value, script.frames);
      conn.Shutdown();
      if !received {
        return -1, None, link;
      }
      return 0, Some(CString(data[..])), link;
    }
  }

  /** An undamaged body is never lost, and without NULs it arrives as the action that was queued. */
  lemma DeliversAction(script: Script, action: string)
    requires Sized(script) && Honest(script, action)
    ensures Text(script).Some?
    ensures '\0' !in action ==> Text(script) == Some(action)
  {
    var k: nat :| Complete(|action|, script.frames, k) && Payloads(script.frames, k) == action;
    AssembledComplete(|action|, script.frames, k, 0, |action|);
    if '\0' !in action {
      ReassembledIff(|action|, script.frames, k);
    }
  }
}
