/** One connection of the front end: callbacks of the SCGI parser, and the decision about the response. */
module Connection {
  import opened Wrappers
  import opened HeaderScan
  import opened XmlAnalyze
  import opened Amqp
  import XmlTree

  // ---- The decision ----

  /** What becomes of the text of an action: parsed as JSON, and turned into an RPC. */
  datatype Conversion = BadJson | NotCreated | Action(xml: string, cookie: Option<string>)

  /** What a fetch comes to. */
  datatype Fetch = FetchFailed | NothingPending | Fetched(what: Conversion)

  /** The front end's configuration, and the libraries it calls: the provisioning queue, the factory
      credentials, the XML parser, and the conversion of actions. */
  datatype Config = Config(
    queue: string, factory: set<string>, parse: string -> Option<XmlTree.Element>, convert: string -> Conversion)

  datatype Reply =
    | Unauthorized | ServerError | NoContent | InformReply | InitialProvisioning
    | RpcReply(xml: string, cookie: Option<string>)

  predicate IsSpace(c: char) {
    c == ' ' || c == '\t' || c == '\n' || c == '\U{0B}' || c == '\U{0C}' || c == '\r'
  }

  function Digits(s: string, acc: nat): nat
    decreases |s|
  {
    if s == [] || !('0' <= s[0] <= '9') then acc else Digits(s[1..], acc * 10 + (s[0] as int - '0' as int))
  }

  /** `atoi`, for numbers that fit into an int. */
  function Atoi(s: string): int
    decreases |s|
  {
    if s != [] && IsSpace(s[0]) then Atoi(s[1..])
    else if s != [] && s[0] == '-' then -(Digits(s[1..], 0) as int)
    else if s != [] && s[0] == '+' then Digits(s[1..], 0)
    else Digits(s, 0)
  }

  /** A message as the XML analysis classifies it; a request without a body is not analysed, and
      what is left then are the bits of the request. */
  function MessageTag(headers: Headers, msg: string, cfg: Config): Tag
    requires Mandatory(headers)
  {
    if Atoi(headers[ContentLength]) != 0 then TagOf(cfg.parse(msg)) else {}
  }

  /** A request that asks for the next action: an empty one, or the response to the last. */
  predicate Asks(headers: Headers, tag: Tag)
    requires Mandatory(headers)
  {
    Atoi(headers[ContentLength]) == 0 || CwmpType(SetParameterValuesResponse) in tag
  }

  predicate AtLevelZero(headers: Headers, cfg: Config) {
    && HttpCookie in headers && headers[HttpCookie] == "level=0"
    && HttpAuthorization in headers && headers[HttpAuthorization] in cfg.factory
  }

  function FetchReply(fetch: Fetch): Reply {
    match fetch {
      case NothingPending => NoContent
      case Fetched(Action(xml, cookie)) => RpcReply(xml, cookie)
      case _ => ServerError
    }
  }

  /** The response to a complete request, when fetching comes to `fetch`. */
  function Respond(headers: Headers, msg: string, cfg: Config, fetch: Fetch): Reply
    requires Mandatory(headers)
  {
    var tag := MessageTag(headers, msg, cfg);
    if HttpAuthorization !in headers then Unauthorized
    else if headers[RequestMethod] != "POST" then ServerError
    else if CwmpType(Inform) in tag then InformReply
    else if AtLevelZero(headers, cfg) then InitialProvisioning
    else if Asks(headers, tag) then FetchReply(fetch)
    else NoContent
  }

  /** An inform is answered as one whatever the cookie and the queue hold: exactly an authorized POST
      with a body in whose SOAP Body there is an Inform of a known version. */
  lemma InformAnswered(headers: Headers, msg: string, cfg: Config, fetch: Fetch)
    requires Mandatory(headers)
    ensures Respond(headers, msg, cfg, fetch) == InformReply <==>
            && HttpAuthorization in headers && headers[RequestMethod] == "POST" && Atoi(headers[ContentLength]) != 0
            && cfg.parse(msg).Some?
            && XmlTree.HasRpc(cfg.parse(msg).value, "Inform")
  {
    if cfg.parse(msg).Some? {
      TypeBits(cfg.parse(msg).value);
    }
  }

  // ---- The broker ----

  /** What goes out to the back ends: the headers, and the document of which the cwmp object is made. */
  datatype Notice = Notice(cookie: Option<string>, authorization: string, remoteAddr: string, document: Option<XmlTree.Element>)

  /** How the broker behaves when it is called to notify the back ends, and to fetch. */
  datatype Answers = Answers(notify: Script, fetch: Script)

  function HeaderOf(headers: Headers, h: Header): Option<string> {
    if h in headers then Some(headers[h]) else None
  }

  predicate AuthorizedPost(headers: Headers)
    requires Mandatory(headers)
  {
    HttpAuthorization in headers && headers[RequestMethod] == "POST"
  }

  /** The back ends hear of every authorized POST, whatever it holds and whatever the response is,
      unless the broker cannot be reached; that changes nothing else. */
  function Notices(headers: Headers, msg: string, cfg: Config, script: Script): seq<Notice>
    requires Mandatory(headers)
  {
    if AuthorizedPost(headers) && GetsThrough(script) && script.publish then
      [Notice(HeaderOf(headers, HttpCookie), headers[HttpAuthorization], headers[RemoteAddr],
              if Atoi(headers[ContentLength]) != 0 then cfg.parse(msg) else None)]
    else []
  }

  function QueueFor(cfg: Config, headers: Headers): string
    requires Mandatory(headers)
  {
    if cfg.queue == "@remote_addr" then headers[RemoteAddr] else cfg.queue
  }

  /** The request gets as far as fetching an action. */
  predicate Fetches(cfg: Config, headers: Headers, msg: string)
    requires Mandatory(headers)
  {
    var tag := MessageTag(headers, msg, cfg);
    AuthorizedPost(headers) && CwmpType(Inform) !in tag && !AtLevelZero(headers, cfg) && Asks(headers, tag)
  }

  /** What a fetch from a queue that holds `before` comes to. */
  function FetchOf(cfg: Config, script: Script, before: seq<string>): Fetch
    requires Sized(script)
  {
    match FetchOutcome(script, before) {
      case Refused => FetchFailed
      case Lost => FetchFailed
      case NoQueue => NothingPending
      case Empty => NothingPending
      case Delivered => Fetched(cfg.convert(Text(script).value))
    }
  }

  function ReplyTo(cfg: Config, headers: Headers, msg: string, script: Script, queues: Queues): Reply
    requires Mandatory(headers) && Sized(script)
  {
    Respond(headers, msg, cfg, FetchOf(cfg, script, Contents(queues, QueueFor(cfg, headers))))
  }

  /** The queues after a request. */
  function QueuesAfter(cfg: Config, headers: Headers, msg: string, script: Script, queues: Queues): Queues
    requires Mandatory(headers) && Sized(script)
  {
    var name := QueueFor(cfg, headers);
    if Fetches(cfg, headers, msg) then Drained(queues, name, FetchOutcome(script, Contents(queues, name))) else queues
  }

  // ---- What is written ----

  // Two messages are fixed, all others are made from actions.
  datatype Piece =
    | Status(code: int) | ContentXml | SetCookie(value: string) | Newline
    | InformResponseXml | ProvisioningXml | Body(xml: string)

  function Render(reply: Reply): seq<Piece> {
    match reply {
      case Unauthorized => [Status(401), Newline]
      case ServerError => [Status(500), Newline]
      case NoContent => [Status(204), Newline]
      case InformReply => [Status(200), ContentXml, SetCookie("level=0"), Newline, InformResponseXml]
      case InitialProvisioning => [Status(200), ContentXml, SetCookie("level=1"), Newline, ProvisioningXml]
      case RpcReply(xml, cookie) =>
        [Status(200), ContentXml] + (if cookie.Some? then [SetCookie(cookie.value)] else []) + [Newline, Body(xml)]
    }
  }

  function StatusLines(out: seq<Piece>): nat {
    if out == [] then 0 else (if out[0].Status? then 1 else 0) + StatusLines(out[1..])
  }

  lemma OneStatusLine(reply: Reply)
    ensures StatusLines(Render(reply)) == 1 && Render(reply)[0].Status?
  {
    var out := Render(reply);
    assert out[1..] == Render(reply)[1..];
    NoStatusLine(out[1..]);
  }

  lemma {:induction false} NoStatusLine(out: seq<Piece>)
    requires forall p | p in out :: !p.Status?
    ensures StatusLines(out) == 0
  {
    if out != [] {
      NoStatusLine(out[1..]);
    }
  }

  // ---- Requests and the callbacks they cause ----

  datatype Request = Request(pairs: seq<Pair>, body: string)

  /** Well formed: no NULs, and a body of the announced length. */
  ghost predicate WellFormed(r: Request) {
    && NulFree(r.pairs) && '\0' !in r.body
    && (ContentLength in Tracked(r.pairs) ==> Atoi(Tracked(r.pairs)[ContentLength]) == |r.body|)
  }

  /** A callback of the SCGI parser. */
  datatype Event = Field(data: string) | FieldEnd | Value(data: string) | ValueEnd | HeadEnd | BodyData(data: string)

  function HeadBytes(e: Event): string {
    match e {
      case Field(data) => data
      case Value(data) => data
      case FieldEnd => ['\0']
      case ValueEnd => ['\0']
      case _ => []
    }
  }

  /** What the first `n` events put into the header buffer. */
  function HeadSoFar(events: seq<Event>, n: nat): string
    requires n <= |events|
  {
    if n == 0 then [] else HeadSoFar(events, n - 1) + HeadBytes(events[n - 1])
  }

  /** What events `k` to `n` put into the body. */
  function BodySoFar(events: seq<Event>, k: nat, n: nat): string
    requires k <= n <= |events|
    decreases n
  {
    if n == k then []
    else BodySoFar(events, k, n - 1) + if events[n - 1].BodyData? then events[n - 1].data else []
  }

  /** The events deliver a request, its head ending at event `k`, in whatever pieces. */
  ghost predicate Delivers(events: seq<Event>, k: nat, r: Request) {
    && k < |events| && events[k].HeadEnd?
    && (forall i | 0 <= i < k :: !events[i].HeadEnd? && !events[i].BodyData?)
    && (forall i | k < i < |events| :: events[i].BodyData?)
    && HeadSoFar(events, k) == Encode(r.pairs)
    && BodySoFar(events, k + 1, |events|) == r.body
  }

  lemma {:induction false} BodyGrows(events: seq<Event>, k: nat, n: nat, m: nat)
    requires k <= n <= m <= |events|
    ensures BodySoFar(events, k, n) <= BodySoFar(events, k, m)
    decreases m - n
  {
    if n < m {
      BodyGrows(events, k, n, m - 1);
    }
  }

  /** A pair as the parser hands it over. */
  function PairEvents(p: Pair): seq<Event> {
    [Field(p.0), FieldEnd, Value(p.1), ValueEnd]
  }

  function HeadEvents(pairs: seq<Pair>): seq<Event> {
    if pairs == [] then [] else PairEvents(pairs[0]) + HeadEvents(pairs[1..])
  }

  lemma {:induction false} HeadConcat(a: seq<Event>, b: seq<Event>, n: nat)
    requires n <= |b|
    ensures HeadSoFar(a + b, |a| + n) == HeadSoFar(a + b, |a|) + HeadSoFar(b, n)
  {
    if n > 0 {
      HeadConcat(a, b, n - 1);
      assert (a + b)[|a| + n - 1] == b[n - 1];
      assert HeadSoFar(a + b, |a| + n) == HeadSoFar(a + b, |a| + n - 1) + HeadBytes(b[n - 1]);
    }
  }

  lemma {:induction false} HeadOfPairs(pairs: seq<Pair>, tail: seq<Event>)
    ensures HeadSoFar(HeadEvents(pairs) + tail, |HeadEvents(pairs)|) == Encode(pairs)
    ensures forall e | e in HeadEvents(pairs) :: !e.HeadEnd? && !e.BodyData?
  {
    if pairs != [] {
      var first, rest := PairEvents(pairs[0]), HeadEvents(pairs[1..]);
      HeadOfPairs(pairs[1..], tail);
      assert HeadEvents(pairs) + tail == first + (rest + tail);
      HeadConcat(first, rest + tail, |rest|);
      OnePair(pairs[0], rest + tail);
    }
  }

  lemma OnePair(p: Pair, tail: seq<Event>)
    ensures HeadSoFar(PairEvents(p) + tail, 4) == EncodePair(p)
  {
    var es := PairEvents(p) + tail;
    assert HeadSoFar(es, 1) == p.0;
    assert HeadSoFar(es, 2) == p.0 + ['\0'];
    assert HeadSoFar(es, 3) == p.0 + ['\0'] + p.1;
  }

  /** Name after value after name, then the body: that is how any request arrives. */
  lemma Arrives(r: Request) returns (events: seq<Event>, k: nat)
    ensures events == HeadEvents(r.pairs) + [HeadEnd, BodyData(r.body)] && k == |HeadEvents(r.pairs)|
    ensures Delivers(events, k, r)
  {
    var tail := [HeadEnd, BodyData(r.body)];
    events, k := HeadEvents(r.pairs) + tail, |HeadEvents(r.pairs)|;
    HeadOfPairs(r.pairs, tail);
    forall i | 0 <= i < k ensures !events[i].HeadEnd? && !events[i].BodyData? {
      assert events[i] in HeadEvents(r.pairs);
    }
    assert BodySoFar(events, k + 1, k + 1) == [] && BodySoFar(events, k + 1, k + 2) == r.body;
  }

  /** What is seen of a connection from outside: its output, and its effect on the broker. */
  datatype View = View(output: seq<Piece>, queues: Queues, broadcasts: seq<Notice>)

  /** The view after a request has been answered. */
  function AfterAnswer(cfg: Config, answers: Answers, headers: Headers, msg: string, v: View): View
    requires Mandatory(headers) && Sized(answers.fetch)
  {
    View(v.output + Render(ReplyTo(cfg, headers, msg, answers.fetch, v.queues)),
         QueuesAfter(cfg, headers, msg, answers.fetch, v.queues),
         v.broadcasts + Notices(headers, msg, cfg, answers.notify))
  }

  /** A piece of the body is the next piece of the body. */
  lemma NextPiece(events: seq<Event>, k: nat, pos: nat)
    requires k <= pos < |events| && events[pos].BodyData?
    ensures BodySoFar(events, k, pos) + events[pos].data <= BodySoFar(events, k, |events|)
  {
    BodyGrows(events, k, pos + 1, |events|);
  }

  /** What a connection is to come to: the headers it keeps, the message, and the view before and after. */
  datatype Target = Target(headers: Headers, body: string, before: View, after: View)

  /** The view after is that of a head that is turned down, when a mandatory header is missing. */
  ghost predicate TurnsDown(t: Target) {
    t.before.output == [] && (!Mandatory(t.headers) ==> t.after == t.before.(output := Render(ServerError)))
  }

  /** Otherwise it is that of the answer to the headers and the message. */
  ghost predicate Fits(t: Target, cfg: Config, answers: Answers) {
    && TurnsDown(t) && Sized(answers.fetch)
    && (Mandatory(t.headers) ==> t.after == AfterAnswer(cfg, answers, t.headers, t.body, t.before))
  }

  predicate Aims(t: Target, r: Request) {
    t.headers == Tracked(r.pairs) && t.body == r.body
  }

  function Nuls(n: nat): string {
    seq(n, _ => '\0')
  }

  /** What has come in so far is the front of the body, and the body has the announced length. */
  ghost predicate Promises(t: Target, received: string) {
    && received <= t.body && '\0' !in t.body
    && (ContentLength in t.headers ==> Atoi(t.headers[ContentLength]) == |t.body|)
  }

  lemma ReceivedSoFar(events: seq<Event>, k: nat, end: nat, r: Request, t: Target)
    requires Delivers(events, k, r) && WellFormed(r) && Aims(t, r) && end <= |events|
    ensures Promises(t, if end > k then BodySoFar(events, k + 1, end) else [])
  {
    if end > k {
      BodyGrows(events, k + 1, end, |events|);
      assert BodySoFar(events, k + 1, end) <= r.body;
    }
    assert t.body == r.body && t.headers == Tracked(r.pairs);
  }

  class Connection {
    var head: string
    var body: string
    var bodySize: nat         // parser.body_size
    var inBody: bool          // parser.state == scgi_parser_body
    var headers: Headers
    var msg: Option<string>
    var tag: Tag
    var output: seq<Piece>
    const broker: Broker<Notice>

    constructor (broker: Broker<Notice>)
      ensures Fresh() && this.broker == broker
    {
      this.broker := broker;
      head, body, bodySize, inBody := [], [], 0, false;
      headers, msg, tag, output := map[], None, {RequestReceived}, [];
    }

    ghost predicate Fresh()
      reads this
    {
      head == [] && body == [] && bodySize == 0 && !inBody && headers == map[] && msg == None && tag == {RequestReceived} && output == []
    }

    function Seen(): View
      reads this, broker
    {
      View(output, broker.queues, broker.broadcasts)
    }

    // ---- What holds between events, for a request that is being delivered ----

    /** Before the end of the head. */
    ghost predicate InHead(t: Target, events: seq<Event>, pos: nat)
      reads this, broker
      requires pos <= |events|
    {
      && head == HeadSoFar(events, pos) && body == [] && bodySize == 0 && !inBody && headers == map[]
      && tag == {RequestReceived} && Seen() == t.before
    }

    /** The head lacked a mandatory header. */
    ghost predicate Rejected(t: Target)
      reads this, broker
    {
      !Mandatory(t.headers) && headers == t.headers && tag == {RequestReceived, RequestFinished} && Seen() == t.after
    }

    /** The head is approved, and `received` of the body has come in. */
    ghost predicate Collecting(t: Target, received: string)
      reads this, broker
    {
      && Mandatory(t.headers) && headers == t.headers
      && tag == {RequestReceived, RequestHeadApproved} && Seen() == t.before && inBody
      && body == received && bodySize == |received|
    }

    /** The response is out. */
    ghost predicate Responded(t: Target)
      reads this, broker
    {
      && Mandatory(t.headers) && headers == t.headers
      && RequestFinished in tag && inBody && bodySize == |t.body|
      && |body| > |t.body| && body == t.body + Nuls(|body| - |t.body|)
      && msg == Some(t.body) && Seen() == t.after
    }

    /** After the head, with `received` of the body delivered. */
    ghost predicate InBody(t: Target, received: string)
      reads this, broker
    {
      Rejected(t) || Collecting(t, received) || (Responded(t) && received == t.body)
    }

    ghost predicate Fed(t: Target, events: seq<Event>, k: nat, pos: nat)
      reads this, broker
      requires pos <= |events|
    {
      if pos <= k then InHead(t, events, pos) else InBody(t, BodySoFar(events, k + 1, pos))
    }

    // ---- Callbacks ----

    method AcceptField(data: string)
      modifies this`head
      ensures head == old(head) + data
    {
      head := head + data;
    }

    method FinishField()
      modifies this`head
      ensures head == old(head) + ['\0']
    {
      head := head + ['\0'];
    }

    method AcceptValue(data: string)
      modifies this`head
      ensures head == old(head) + data
    {
      head := head + data;
    }

    method FinishValue()
      modifies this`head
      ensures head == old(head) + ['\0']
    {
      head := head + ['\0'];
    }

    method FinishHead(ghost pairs: seq<Pair>)
      requires NulFree(pairs) && head == Encode(pairs)
      modifies this`headers, this`tag, this`output
      ensures headers == Tracked(pairs)
      ensures Mandatory(headers) ==> tag == old(tag) + {RequestHeadApproved} && output == old(output)
      ensures !Mandatory(headers) ==> tag == old(tag) + {RequestFinished} && output == old(output) + Render(ServerError)
    {
      headers := Scan(head, pairs);
      if RequestMethod !in headers || ContentLength !in headers || RemoteAddr !in headers {
        output := output + [Status(500), Newline];
        tag := tag + {RequestFinished};
        return;
      }
      tag := tag + {RequestHeadApproved};
    }

    method AcceptBody(data: string)
      modifies this`body, this`bodySize
      ensures body == old(body) + data && bodySize == old(bodySize) + |data|
    {
      body := body + data;
      bodySize := bodySize + |data|;
    }

    /** Only bits of the request are set as long as there is no response. */
    predicate Unanswered()
      reads this
    {
      RequestFinished !in tag && forall bit | bit in tag :: bit.RequestReceived? || bit.RequestHeadApproved?
    }

    /** A connection is answered once: when the response is out already nothing is written. */
    method FinishBody(cfg: Config, answers: Answers)
      requires Sized(answers.fetch) && (RequestFinished in tag || (Unanswered() && Mandatory(headers)))
      modifies this`body, this`msg, this`tag, this`output, broker
      ensures body == old(body) + ['\0']
      ensures 0 <= Search(body, 0) < |body| && msg == Some(body[..Search(body, 0)])
      ensures RequestFinished in tag
      ensures RequestFinished in old(tag) ==> tag == old(tag) && Seen() == old(Seen())
      ensures RequestFinished !in old(tag) ==> Seen() == AfterAnswer(cfg, answers, headers, msg.value, old(Seen()))
    {
      body := body + ['\0'];
      SearchReaches(body, 0);
      var next := Search(body, 0);
      msg := Some(body[..next]);
      SendResponse(cfg, answers);
    }

    /** Writes one response and marks the request as finished. */
    method Write(reply: Reply)
      modifies this`tag, this`output
      ensures output == old(output) + Render(reply)
      ensures tag == old(tag) + {RequestFinished}
    {
      match reply {
        case Unauthorized =>
          output := output + [Status(401), Newline];
        case ServerError =>
          output := output + [Status(500), Newline];
        case NoContent =>
          output := output + [Status(204), Newline];
        case InformReply =>
          output := output + [Status(200), ContentXml, SetCookie("level=0"), Newline, InformResponseXml];
        case InitialProvisioning =>
          output := output + [Status(200), ContentXml, SetCookie("level=1"), Newline, ProvisioningXml];
        case RpcReply(xml, cookie) =>
          output := output + [Status(200), ContentXml];
          if cookie.Some? {
            output := output + [SetCookie(cookie.value)];
          }
          output := output + [Newline, Piece.Body(xml)];
      }
      tag := tag + {RequestFinished};
    }

    /** Answers the request: what is written, what the back ends hear of it, and what is taken off the
        device's queue. */
    method SendResponse(cfg: Config, answers: Answers)
      requires msg.Some? && Sized(answers.fetch) && (RequestFinished in tag || (Unanswered() && Mandatory(headers)))
      modifies this`tag, this`output, broker
      ensures RequestFinished in tag
      ensures RequestFinished in old(tag) ==> tag == old(tag) && Seen() == old(Seen())
      ensures RequestFinished !in old(tag) ==> Seen() == AfterAnswer(cfg, answers, headers, msg.value, old(Seen()))
    {
      if RequestFinished in tag {
        return;
      }
      if HttpAuthorization !in headers {
        Write(Unauthorized);
        return;
      }
      if headers[RequestMethod] != "POST" {
        Write(ServerError);
        return;
      }
      var document := None;
      if Atoi(headers[ContentLength]) != 0 {
        document := cfg.parse(msg.value);
        tag := TagOf(document);
      }
      ghost var link;
      var rc;
      rc, link := broker.Notify(
        Notice(HeaderOf(headers, HttpCookie), headers[HttpAuthorization], headers[RemoteAddr], document), answers.notify);
      if CwmpType(Inform) in tag {
        Write(InformReply);
        return;
      }
      var defaultCredentials := headers[HttpAuthorization] in cfg.factory;
      if HttpCookie in headers && headers[HttpCookie] == "level=0" && defaultCredentials {
        Write(InitialProvisioning);
        return;
      }
      if Atoi(headers[ContentLength]) == 0 || CwmpType(SetParameterValuesResponse) in tag {
        SendAction(cfg, answers.fetch);
        return;
      }
      Write(NoContent);
    }

    /** Fetches the next action and sends it as an RPC. */
    method SendAction(cfg: Config, script: Script)
      requires Mandatory(headers) && Sized(script)
      modifies this`tag, this`output, broker
      ensures tag == old(tag) + {RequestFinished}
      ensures var name := QueueFor(cfg, headers);
              && output == old(output) + Render(FetchReply(FetchOf(cfg, script, old(Contents(broker.queues, name)))))
              && broker.queues == Drained(old(broker.queues), name, FetchOutcome(script, old(Contents(broker.queues, name))))
      ensures broker.broadcasts == old(broker.broadcasts)
    {
      var queue := cfg.queue;
      if queue == "@remote_addr" {
        queue := headers[RemoteAddr];
      }
      ghost var link;
      var rc, text;
      rc, text, link := broker.FetchPending(queue, script);
      if rc != 0 {
        Write(ServerError);
        return;
      }
      if text == None {
        Write(NoContent);
        return;
      }
      match cfg.convert(text.value) {
        case BadJson => Write(ServerError);
        case NotCreated => Write(ServerError);
        case Action(xml, cookie) => Write(RpcReply(xml, cookie));
      }
    }

    // ---- Reads ----

    method FeedHead(event: Event, ghost t: Target, ghost events: seq<Event>, ghost pos: nat)
      requires pos < |events| && event == events[pos] && !event.HeadEnd? && !event.BodyData?
      requires InHead(t, events, pos)
      modifies this`head
      ensures InHead(t, events, pos + 1)
    {
      match event {
        case Field(data) => AcceptField(data);
        case FieldEnd => FinishField();
        case Value(data) => AcceptValue(data);
        case ValueEnd => FinishValue();
      }
    }

    method EndHead(ghost t: Target, ghost pairs: seq<Pair>, ghost events: seq<Event>, ghost k: nat)
      requires k <= |events| && InHead(t, events, k) && TurnsDown(t)
      requires NulFree(pairs) && HeadSoFar(events, k) == Encode(pairs) && t.headers == Tracked(pairs)
      modifies this`headers, this`tag, this`output, this`inBody
      ensures InBody(t, [])
    {
      FinishHead(pairs);
      inBody := true;
    }

    method FeedBody(data: string, ghost t: Target, ghost received: string)
      requires InBody(t, received) && received + data <= t.body
      modifies this`body, this`bodySize
      ensures InBody(t, received + data)
    {
      AcceptBody(data);
      assert received == t.body ==> data == [] && body == old(body);
    }

    /** Runs the callback that the parser makes for one event. */
    method Feed(event: Event, ghost r: Request, ghost t: Target, ghost events: seq<Event>, ghost k: nat, ghost pos: nat)
      requires Delivers(events, k, r) && WellFormed(r) && Aims(t, r) && pos < |events| && event == events[pos]
      requires TurnsDown(t) && Fed(t, events, k, pos)
      modifies this
      ensures Fed(t, events, k, pos + 1)
    {
      if event.HeadEnd? {
        assert pos == k;
        EndHead(t, r.pairs, events, k);
      } else if event.BodyData? {
        assert pos > k;
        NextPiece(events, k + 1, pos);
        FeedBody(event.data, t, BodySoFar(events, k + 1, pos));
      } else {
        assert pos < k;
        FeedHead(event, t, events, pos);
      }
    }

    /** One read: the callbacks for the events it brings, then the test whether the body is complete. */
    method ReadCb(cfg: Config, answers: Answers, events: seq<Event>, start: nat, end: nat, ghost r: Request, ghost t: Target, ghost k: nat)
      requires Delivers(events, k, r) && WellFormed(r) && Aims(t, r) && start <= end <= |events|
      requires Fits(t, cfg, answers) && Fed(t, events, k, start)
      modifies this, broker
      ensures Fed(t, events, k, end)
      ensures end > k && BodySoFar(events, k + 1, end) == r.body ==> Rejected(t) || Responded(t)
    {
      Consume(events, start, end, r, t, k);
      ReceivedSoFar(events, k, end, r, t);
      CheckComplete(cfg, answers, t, end > k, if end > k then BodySoFar(events, k + 1, end) else []);
    }

    /** `scgi_consume`: the callbacks for the events of one read. */
    method Consume(events: seq<Event>, start: nat, end: nat, ghost r: Request, ghost t: Target, ghost k: nat)
      requires Delivers(events, k, r) && WellFormed(r) && Aims(t, r) && start <= end <= |events|
      requires TurnsDown(t) && Fed(t, events, k, start)
      modifies this
      ensures Fed(t, events, k, end)
    {
      for i := start to end
        invariant Fed(t, events, k, i)
      {
        Feed(events[i], r, t, events, k, i);
      }
    }

    /** The end of a read: is the body complete? The first time the response is written, after that
        nothing, and before the end of the head nothing either. */
    method CheckComplete(cfg: Config, answers: Answers, ghost t: Target, ghost past: bool, ghost received: string)
      requires if past then InBody(t, received) else RequestHeadApproved !in tag && !inBody
      requires Promises(t, received) && Fits(t, cfg, answers)
      modifies this`body, this`msg, this`tag, this`output, broker
      ensures past ==> InBody(t, received)
      ensures past && received == t.body ==> Rejected(t) || Responded(t)
      ensures !past ==> body == old(body) && msg == old(msg) && tag == old(tag)
      ensures !past || RequestFinished in old(tag) ==> Seen() == old(Seen())
    {
      var contentLength := -1;
      if RequestHeadApproved in tag {
        contentLength := Atoi(headers[ContentLength]);
      }
      if inBody && bodySize == contentLength {
        assert received == t.body;
        assert body == t.body + Nuls(|body| - |t.body|);
        PaddedBody(body, t.body);
        FinishBody(cfg, answers);
      }
    }
  }

  /** Another NUL behind a padded body: what stands before the first NUL stays the same. */
  lemma PaddedBody(body: string, content: string)
    requires |content| <= |body| && body == content + Nuls(|body| - |content|) && '\0' !in content
    ensures body + ['\0'] == content + Nuls(|body| + 1 - |content|)
    ensures Search(body + ['\0'], 0) == |content| && (body + ['\0'])[..|content|] == content
  {
    var n := |body| - |content|;
    OneMoreNul(content, n);
    FirstNul(body + ['\0'], content, Nuls(n + 1));
  }

  lemma OneMoreNul(content: string, n: nat)
    ensures content + Nuls(n) + ['\0'] == content + Nuls(n + 1)
  {
    assert Nuls(n) + ['\0'] == Nuls(n + 1);
  }

  lemma FirstNul(s: string, content: string, tail: string)
    requires s == content + tail && '\0' !in content && tail != [] && tail[0] == '\0'
    ensures Search(s, 0) == |content| && s[..|content|] == content
  {
    forall i | 0 <= i < |content| ensures s[i] != '\0' {
      assert s[i] == content[i] && content[i] in content;
    }
    SearchFinds(s, 0, |content|);
  }

  /** `cuts` are the ends of the reads, an empty read now and then included. */
  ghost predicate Cuts(cuts: seq<nat>, n: nat) {
    && cuts != [] && cuts[|cuts| - 1] == n
    && (forall i, j | 0 <= i < j < |cuts| :: cuts[i] <= cuts[j])
  }

  /** However a well-formed request is cut into reads, and whatever pieces the parser makes of them:
      the connection ends with one response, the same for every way, and the same headers and message;
      the back ends hear of it once, or not at all when it is not an authorized POST; and the queues
      are as one answer leaves them. */
  method Serve(broker: Broker<Notice>, cfg: Config, answers: Answers, events: seq<Event>, cuts: seq<nat>, ghost r: Request, ghost k: nat)
    returns (c: Connection)
    requires Delivers(events, k, r) && WellFormed(r) && Cuts(cuts, |events|) && Sized(answers.fetch)
    modifies broker
    ensures fresh(c) && RequestFinished in c.tag && StatusLines(c.output) == 1
    ensures c.headers == Tracked(r.pairs)
    ensures Mandatory(c.headers) ==>
              && c.msg == Some(r.body)
              && c.output == Render(ReplyTo(cfg, c.headers, r.body, answers.fetch, old(broker.queues)))
              && broker.queues == QueuesAfter(cfg, c.headers, r.body, answers.fetch, old(broker.queues))
              && broker.broadcasts == old(broker.broadcasts) + Notices(c.headers, r.body, cfg, answers.notify)
    ensures !Mandatory(c.headers) ==>
              c.output == [Status(500), Newline] && broker.queues == old(broker.queues) && broker.broadcasts == old(broker.broadcasts)
  {
    c := new Connection(broker);
    ghost var kept := Tracked(r.pairs);
    ghost var before := c.Seen();
    ghost var t := Target(kept, r.body, before,
                          if Mandatory(kept) then AfterAnswer(cfg, answers, kept, r.body, before) else before.(output := Render(ServerError)));
    ServeReads(c, cfg, answers, events, cuts, r, t, k);
    OneStatusLine(ServerError);
    if Mandatory(c.headers) {
      ghost var reply := ReplyTo(cfg, kept, r.body, answers.fetch, old(broker.queues));
      OneStatusLine(reply);
      assert [] + Render(reply) == Render(reply);
    }
  }

  /** libevent calls `read_cb` for one read after the other. */
  method ServeReads(c: Connection, cfg: Config, answers: Answers, events: seq<Event>, cuts: seq<nat>, ghost r: Request, ghost t: Target, ghost k: nat)
    requires c.Fresh() && Delivers(events, k, r) && WellFormed(r) && Aims(t, r) && Cuts(cuts, |events|)
    requires Fits(t, cfg, answers) && c.Seen() == t.before
    modifies c, c.broker
    ensures c.Rejected(t) || c.Responded(t)
  {
    var start := 0;
    for j := 0 to |cuts|
      invariant start == (if j == 0 then 0 else cuts[j - 1]) <= |events|
      invariant c.Fed(t, events, k, start)
      invariant j > 0 && start > k && BodySoFar(events, k + 1, start) == r.body ==> c.Rejected(t) || c.Responded(t)
    {
      assert j < |cuts| - 1 ==> cuts[j] <= cuts[|cuts| - 1];
      assert j > 0 ==> cuts[j - 1] <= cuts[j];
      c.ReadCb(cfg, answers, events, start, cuts[j], r, t, k);
      start := cuts[j];
    }
  }

  lemma {:induction false} SearchReaches(s: string, start: nat)
    requires start < |s| && s[|s| - 1] == '\0'
    ensures start <= Search(s, start) < |s|
    decreases |s| - start
  {
    if s[start] != '\0' {
      SearchReaches(s, start + 1);
    }
  }
}
