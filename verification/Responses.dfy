/** What the front end answers, spelled out: which request gets which output, and what it does to the queues. */
module Responses {
  import opened Wrappers
  import opened HeaderScan
  import opened Connection
  import opened Amqp
  import opened Reassembly
  import XmlTree
  import XmlAnalyze

  // ---- Numbers ----

  /** `n` in decimal. */
  function Decimal(n: nat): string {
    if n < 10 then [DigitOf(n)] else Decimal(n / 10) + [DigitOf(n % 10)]
  }

  function DigitOf(n: nat): char
    requires n < 10
  {
    ['0', '1', '2', '3', '4', '5', '6', '7', '8', '9'][n]
  }

  predicate Blank(s: string) {
    forall c | c in s :: c in " \t\n\U{0B}\U{0C}\r"
  }

  predicate StartsWithDigit(s: string) {
    s != [] && '0' <= s[0] <= '9'
  }

  lemma {:induction false} DecimalStarts(n: nat)
    ensures StartsWithDigit(Decimal(n))
  {
    if n >= 10 {
      DecimalStarts(n / 10);
    }
  }

  lemma OneDigit(n: nat, tail: string, acc: nat)
    requires n < 10
    ensures Digits([DigitOf(n)] + tail, acc) == Digits(tail, acc * 10 + n)
  {
    assert ([DigitOf(n)] + tail)[1..] == tail;
  }

  lemma {:induction false} DigitsOfDecimal(n: nat, tail: string)
    ensures Digits(Decimal(n) + tail, 0) == Digits(tail, n)
  {
    if n < 10 {
      OneDigit(n, tail, 0);
    } else {
      var last := [DigitOf(n % 10)] + tail;
      assert Decimal(n) + tail == Decimal(n / 10) + last;
      DigitsOfDecimal(n / 10, last);
      OneDigit(n % 10, tail, n / 10);
    }
  }

  lemma NumberIsRead(n: nat, tail: string)
    requires !StartsWithDigit(tail)
    ensures Digits(Decimal(n) + tail, 0) == n && Atoi(Decimal(n) + tail) == n
  {
    DigitsOfDecimal(n, tail);
    DecimalStarts(n);
    assert (Decimal(n) + tail)[0] == Decimal(n)[0];
  }

  lemma SignIsRead(number: string)
    ensures Atoi("+" + number) == Digits(number, 0) && Atoi("-" + number) == -(Digits(number, 0) as int)
  {
    assert ("+" + number)[1..] == number && ("-" + number)[1..] == number;
  }

  /** The length of a request is read as the number that it says in decimal, after white space and a sign,
      up to the first character that is no digit. */
  lemma NumbersAreRead(n: nat, space: string, tail: string)
    requires Blank(space) && !StartsWithDigit(tail)
    ensures Atoi(space + (Decimal(n) + tail)) == n
    ensures Atoi(space + ("+" + Decimal(n) + tail)) == n
    ensures Atoi(space + ("-" + Decimal(n) + tail)) == -(n as int)
  {
    NumberIsRead(n, tail);
    SignIsRead(Decimal(n) + tail);
    assert "+" + Decimal(n) + tail == "+" + (Decimal(n) + tail) && "-" + Decimal(n) + tail == "-" + (Decimal(n) + tail);
    SpaceIsSkipped(space, Decimal(n) + tail);
    SpaceIsSkipped(space, "+" + Decimal(n) + tail);
    SpaceIsSkipped(space, "-" + Decimal(n) + tail);
  }

  lemma {:induction false} SpaceIsSkipped(space: string, s: string)
    requires Blank(space)
    ensures Atoi(space + s) == Atoi(s)
  {
    if space == [] {
      assert space + s == s;
    } else {
      assert (space + s)[1..] == space[1..] + s && space[0] in space;
      SpaceIsSkipped(space[1..], s);
    }
  }

  // ---- Requests ----

  /** The request has a body, and in its SOAP Body stands an RPC of that name. */
  ghost predicate Holds(cfg: Config, headers: Headers, msg: string, name: string)
    requires Mandatory(headers)
  {
    Atoi(headers[ContentLength]) != 0 && cfg.parse(msg).Some? && XmlTree.HasRpc(cfg.parse(msg).value, name)
  }

  predicate Authorized(headers: Headers)
    requires Mandatory(headers)
  {
    HttpAuthorization in headers && headers[RequestMethod] == "POST"
  }

  /** A device with factory credentials that has just informed. */
  predicate IsNew(cfg: Config, headers: Headers) {
    && HttpAuthorization in headers && headers[HttpAuthorization] in cfg.factory
    && HttpCookie in headers && headers[HttpCookie] == "level=0"
  }

  /** A request for an action: an authorized POST that is empty or answers the last action, and neither
      informs nor comes from a device that is to be provisioned first. */
  ghost predicate Wants(cfg: Config, headers: Headers, msg: string)
    requires Mandatory(headers)
  {
    && Authorized(headers) && !Holds(cfg, headers, msg, "Inform") && !IsNew(cfg, headers)
    && (Atoi(headers[ContentLength]) == 0 || Holds(cfg, headers, msg, "SetParameterValuesResponse"))
  }

  lemma TagSays(cfg: Config, headers: Headers, msg: string)
    requires Mandatory(headers)
    ensures XmlAnalyze.CwmpType(XmlAnalyze.Inform) in MessageTag(headers, msg, cfg) <==> Holds(cfg, headers, msg, "Inform")
    ensures XmlAnalyze.CwmpType(XmlAnalyze.SetParameterValuesResponse) in MessageTag(headers, msg, cfg) <==>
            Holds(cfg, headers, msg, "SetParameterValuesResponse")
  {
    if cfg.parse(msg).Some? {
      XmlAnalyze.TypeBits(cfg.parse(msg).value);
    }
  }

  /** Where the actions for a device wait. */
  function OwnQueue(cfg: Config, headers: Headers): string
    requires Mandatory(headers)
  {
    if cfg.queue == "@remote_addr" then headers[RemoteAddr] else cfg.queue
  }

  /** The broker can be called at all. */
  predicate Connects(script: Script) {
    script.created && script.socket && script.connected && script.login && script.channel && script.declare
  }

  /** What goes out when no action is asked for, and that the queues stay as they are. */
  lemma AnsweredAtOnce(cfg: Config, headers: Headers, msg: string, script: Script, queues: Queues)
    requires Mandatory(headers) && Sized(script) && !Wants(cfg, headers, msg)
    ensures Render(ReplyTo(cfg, headers, msg, script, queues)) ==
              if HttpAuthorization !in headers then [Status(401), Newline]
              else if headers[RequestMethod] != "POST" then [Status(500), Newline]
              else if Holds(cfg, headers, msg, "Inform") then [Status(200), ContentXml, SetCookie("level=0"), Newline, InformResponseXml]
              else if IsNew(cfg, headers) then [Status(200), ContentXml, SetCookie("level=1"), Newline, ProvisioningXml]
              else [Status(204), Newline]
    ensures QueuesAfter(cfg, headers, msg, script, queues) == queues
  {
    TagSays(cfg, headers, msg);
  }

  /** What goes out when an action is asked for and none is handed on: 204 when there is none, or no queue,
      500 when the broker does not answer. An action may be gone then. */
  lemma AskedInVain(cfg: Config, headers: Headers, msg: string, script: Script, queues: Queues)
    requires Mandatory(headers) && Sized(script) && Wants(cfg, headers, msg)
    requires !Connects(script) || !script.get.NormalReply? || Contents(queues, OwnQueue(cfg, headers)) == []
    ensures Render(ReplyTo(cfg, headers, msg, script, queues)) ==
              if Connects(script) && (script.get.ServerException? || script.get.NormalReply?) then [Status(204), Newline]
              else [Status(500), Newline]
    ensures var waiting := Contents(queues, OwnQueue(cfg, headers));
            QueuesAfter(cfg, headers, msg, script, queues) ==
              if Connects(script) && waiting != [] && (script.get == BrokenReply(true) || script.get == OddMethod(true))
              then queues[OwnQueue(cfg, headers) := waiting[1..]] else queues
  {
    TagSays(cfg, headers, msg);
  }

  /** What goes out when the broker hands over the first action, and that it has left the queue. */
  lemma ActionTaken(cfg: Config, headers: Headers, msg: string, script: Script, queues: Queues)
    requires Mandatory(headers) && Sized(script) && Wants(cfg, headers, msg)
    requires Connects(script) && script.get.NormalReply? && Contents(queues, OwnQueue(cfg, headers)) != []
    ensures Render(ReplyTo(cfg, headers, msg, script, queues)) ==
              if Text(script).None? then [Status(500), Newline]
              else match cfg.convert(Text(script).value) {
                case Action(xml, None) => [Status(200), ContentXml, Newline, Body(xml)]
                case Action(xml, Some(cookie)) => [Status(200), ContentXml, SetCookie(cookie), Newline, Body(xml)]
                case _ => [Status(500), Newline]
              }
    ensures QueuesAfter(cfg, headers, msg, script, queues) ==
            queues[OwnQueue(cfg, headers) := Contents(queues, OwnQueue(cfg, headers))[1..]]
  {
    TagSays(cfg, headers, msg);
    var reply := ReplyTo(cfg, headers, msg, script, queues);
    if reply.RpcReply? {
      if reply.cookie.Some? {
        assert Render(reply) == [Status(200), ContentXml, SetCookie(reply.cookie.value), Newline, Body(reply.xml)];
      } else {
        assert Render(reply) == [Status(200), ContentXml, Newline, Body(reply.xml)];
      }
    }
  }

  /** Only a request for an action changes a queue or gets an RPC, and only its own queue changes. */
  lemma OnlyWhenAsked(cfg: Config, headers: Headers, msg: string, script: Script, queues: Queues)
    requires Mandatory(headers) && Sized(script)
    ensures QueuesAfter(cfg, headers, msg, script, queues) != queues ==> Wants(cfg, headers, msg)
    ensures (exists xml :: Body(xml) in Render(ReplyTo(cfg, headers, msg, script, queues))) ==> Wants(cfg, headers, msg)
    ensures forall queue | queue != OwnQueue(cfg, headers) ::
              Contents(QueuesAfter(cfg, headers, msg, script, queues), queue) == Contents(queues, queue)
  {
    if !Wants(cfg, headers, msg) {
      AnsweredAtOnce(cfg, headers, msg, script, queues);
    } else if !Connects(script) || !script.get.NormalReply? || Contents(queues, OwnQueue(cfg, headers)) == [] {
      AskedInVain(cfg, headers, msg, script, queues);
    } else {
      ActionTaken(cfg, headers, msg, script, queues);
    }
  }

  /** An action comes through: the broker can be called, answers the get, and damages nothing. */
  ghost predicate ComesThrough(script: Script, action: string) {
    Sized(script) && Connects(script) && script.get.NormalReply? && Honest(script, action) && '\0' !in action
  }

  /** A request for an action gets the first one of its queue, as an RPC, when it comes through; and the
      request is one exactly when it does so. */
  lemma GetsTheFirst(cfg: Config, headers: Headers, msg: string, script: Script, queues: Queues, xml: string, cookie: Option<string>)
    requires Mandatory(headers) && Contents(queues, OwnQueue(cfg, headers)) != []
    requires var action := Contents(queues, OwnQueue(cfg, headers))[0];
             ComesThrough(script, action) && cfg.convert(action) == Action(xml, cookie)
    ensures Wants(cfg, headers, msg) <==>
            Render(ReplyTo(cfg, headers, msg, script, queues)) ==
              [Status(200), ContentXml] + (if cookie.Some? then [SetCookie(cookie.value)] else []) + [Newline, Body(xml)]
    ensures Wants(cfg, headers, msg) <==> QueuesAfter(cfg, headers, msg, script, queues) != queues
    ensures Wants(cfg, headers, msg) ==>
            QueuesAfter(cfg, headers, msg, script, queues) == queues[OwnQueue(cfg, headers) := Contents(queues, OwnQueue(cfg, headers))[1..]]
  {
    var waiting := Contents(queues, OwnQueue(cfg, headers));
    var out := [Status(200), ContentXml] + (if cookie.Some? then [SetCookie(cookie.value)] else []) + [Newline, Body(xml)];
    assert out[|out| - 1] == Body(xml);
    DeliversAction(script, waiting[0]);
    if Wants(cfg, headers, msg) {
      ActionTaken(cfg, headers, msg, script, queues);
      assert |waiting[1..]| < |waiting|;
    } else {
      AnsweredAtOnce(cfg, headers, msg, script, queues);
      assert Body(xml) !in Render(ReplyTo(cfg, headers, msg, script, queues));
    }
  }
}
