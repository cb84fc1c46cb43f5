/** The header buffer of a connection: names and values with a NUL after each, and the loop of
    `finish_head` that scans it. */
module HeaderScan {
  import opened Wrappers

  // The headers that the front end keeps.
  datatype Header = ContentLength | HttpAuthorization | HttpCookie | RemoteAddr | RequestMethod

  type Headers = map<Header, string>

  function WireName(h: Header): string {
    match h {
      case ContentLength => "CONTENT_LENGTH"
      case HttpAuthorization => "HTTP_AUTHORIZATION"
      case HttpCookie => "HTTP_COOKIE"
      case RemoteAddr => "REMOTE_ADDR"
      case RequestMethod => "REQUEST_METHOD"
    }
  }

  type Pair = (string, string)

  predicate NulFree(pairs: seq<Pair>) {
    forall p | p in pairs :: '\0' !in p.0 && '\0' !in p.1
  }

  function EncodePair(p: Pair): string {
    p.0 + ['\0'] + p.1 + ['\0']
  }

  /** What the field and value callbacks leave in the buffer. */
  function Encode(pairs: seq<Pair>): string {
    if pairs == [] then [] else EncodePair(pairs[0]) + Encode(pairs[1..])
  }

  /** The first value under a name. */
  function FirstValue(pairs: seq<Pair>, name: string): Option<string> {
    if pairs == [] then None else if pairs[0].0 == name then Some(pairs[0].1) else FirstValue(pairs[1..], name)
  }

  /** For every header that is kept, the first value under its name. */
  function Tracked(pairs: seq<Pair>): Headers {
    map h: Header | FirstValue(pairs, WireName(h)).Some? :: FirstValue(pairs, WireName(h)).value
  }

  predicate Mandatory(headers: Headers) {
    RequestMethod in headers && ContentLength in headers && RemoteAddr in headers
  }

  lemma {:induction false} FirstValueOccurs(pairs: seq<Pair>, name: string)
    ensures FirstValue(pairs, name).Some? <==> exists p :: p in pairs && p.0 == name
    ensures FirstValue(pairs, name).Some? ==> (name, FirstValue(pairs, name).value) in pairs
  {
    if pairs != [] {
      FirstValueOccurs(pairs[1..], name);
      assert pairs == [pairs[0]] + pairs[1..];
    }
  }

  /** The first pair of a name has that value. */
  ghost predicate FirstUnder(pairs: seq<Pair>, name: string, value: string) {
    exists i :: 0 <= i < |pairs| && pairs[i] == (name, value) && forall j | 0 <= j < i :: pairs[j].0 != name
  }

  lemma {:induction false} FirstValueIff(pairs: seq<Pair>, name: string, value: string)
    ensures FirstValue(pairs, name) == Some(value) <==> FirstUnder(pairs, name, value)
  {
    if pairs != [] {
      var rest := pairs[1..];
      FirstValueIff(rest, name, value);
      if FirstUnder(rest, name, value) && pairs[0].0 != name {
        var i :| 0 <= i < |rest| && rest[i] == (name, value) && forall j | 0 <= j < i :: rest[j].0 != name;
        assert pairs[i + 1] == (name, value);
        assert forall j | 0 < j < i + 1 :: pairs[j] == rest[j - 1];
      }
      if i :| 0 < i < |pairs| && pairs[i] == (name, value) && forall j | 0 <= j < i :: pairs[j].0 != name {
        assert rest[i - 1] == (name, value);
        assert forall j | 0 <= j < i - 1 :: rest[j] == pairs[j + 1];
      }
    }
  }

  /** Each header that is kept has the value of the first pair of its name. */
  lemma HeadersSay(pairs: seq<Pair>, value: string)
    ensures var headers := Tracked(pairs);
            && (ContentLength in headers && headers[ContentLength] == value <==> FirstUnder(pairs, "CONTENT_LENGTH", value))
            && (HttpAuthorization in headers && headers[HttpAuthorization] == value <==> FirstUnder(pairs, "HTTP_AUTHORIZATION", value))
            && (HttpCookie in headers && headers[HttpCookie] == value <==> FirstUnder(pairs, "HTTP_COOKIE", value))
            && (RemoteAddr in headers && headers[RemoteAddr] == value <==> FirstUnder(pairs, "REMOTE_ADDR", value))
            && (RequestMethod in headers && headers[RequestMethod] == value <==> FirstUnder(pairs, "REQUEST_METHOD", value))
  {
    FirstValueIff(pairs, "CONTENT_LENGTH", value);
    FirstValueIff(pairs, "HTTP_AUTHORIZATION", value);
    FirstValueIff(pairs, "HTTP_COOKIE", value);
    FirstValueIff(pairs, "REMOTE_ADDR", value);
    FirstValueIff(pairs, "REQUEST_METHOD", value);
  }

  /** A header is kept exactly when its name occurs. */
  lemma HeadersKept(pairs: seq<Pair>)
    ensures var headers := Tracked(pairs);
            && (ContentLength in headers <==> exists p :: p in pairs && p.0 == "CONTENT_LENGTH")
            && (HttpAuthorization in headers <==> exists p :: p in pairs && p.0 == "HTTP_AUTHORIZATION")
            && (HttpCookie in headers <==> exists p :: p in pairs && p.0 == "HTTP_COOKIE")
            && (RemoteAddr in headers <==> exists p :: p in pairs && p.0 == "REMOTE_ADDR")
            && (RequestMethod in headers <==> exists p :: p in pairs && p.0 == "REQUEST_METHOD")
  {
    FirstValueOccurs(pairs, "CONTENT_LENGTH");
    FirstValueOccurs(pairs, "HTTP_AUTHORIZATION");
    FirstValueOccurs(pairs, "HTTP_COOKIE");
    FirstValueOccurs(pairs, "REMOTE_ADDR");
    FirstValueOccurs(pairs, "REQUEST_METHOD");
  }

  lemma {:induction false} OtherPair(a: seq<Pair>, p: Pair, b: seq<Pair>, name: string)
    requires p.0 != name
    ensures FirstValue(a + [p] + b, name) == FirstValue(a + b, name)
  {
    if a == [] {
      assert a + b == b && a + [p] + b == [p] + b && ([p] + b)[1..] == b;
    } else {
      assert (a + b)[1..] == a[1..] + b && (a + [p] + b)[1..] == a[1..] + [p] + b;
      OtherPair(a[1..], p, b, name);
    }
  }

  /** No pair of another name changes the credentials or the cookie. */
  lemma OtherPairs(a: seq<Pair>, p: Pair, b: seq<Pair>)
    ensures p.0 != "HTTP_AUTHORIZATION" ==> (
              var kept, before := Tracked(a + [p] + b), Tracked(a + b);
              && (HttpAuthorization in kept <==> HttpAuthorization in before)
              && (HttpAuthorization in kept ==> kept[HttpAuthorization] == before[HttpAuthorization]))
    ensures p.0 != "HTTP_COOKIE" ==> (
              var kept, before := Tracked(a + [p] + b), Tracked(a + b);
              && (HttpCookie in kept <==> HttpCookie in before)
              && (HttpCookie in kept ==> kept[HttpCookie] == before[HttpCookie]))
  {
    if p.0 != "HTTP_AUTHORIZATION" {
      OtherPair(a, p, b, "HTTP_AUTHORIZATION");
    }
    if p.0 != "HTTP_COOKIE" {
      OtherPair(a, p, b, "HTTP_COOKIE");
    }
  }

  /** A head is approved exactly when the three mandatory names occur in it. */
  lemma ApprovedIff(pairs: seq<Pair>)
    ensures Mandatory(Tracked(pairs)) <==>
            && (exists p :: p in pairs && p.0 == "REQUEST_METHOD")
            && (exists p :: p in pairs && p.0 == "CONTENT_LENGTH")
            && (exists p :: p in pairs && p.0 == "REMOTE_ADDR")
  {
    HeadersKept(pairs);
  }

  /** `evbuffer_search` for a NUL: its position, or -1. */
  function Search(s: string, start: nat): int
    requires start <= |s|
    decreases |s| - start
  {
    if start == |s| then -1 else if s[start] == '\0' then start else Search(s, start + 1)
  }

  lemma {:induction false} SearchFinds(s: string, start: nat, n: nat)
    requires start + n < |s| && s[start + n] == '\0'
    requires forall i | start <= i < start + n :: s[i] != '\0'
    ensures Search(s, start) == start + n
    decreases n
  {
    if n > 0 {
      SearchFinds(s, start + 1, n - 1);
    }
  }

  lemma {:induction false} EncodeConcat(a: seq<Pair>, b: seq<Pair>)
    ensures Encode(a + b) == Encode(a) + Encode(b)
  {
    if a == [] {
      assert a + b == b;
    } else {
      assert (a + b)[1..] == a[1..] + b;
      EncodeConcat(a[1..], b);
    }
  }

  /** A pair stands at a place in the buffer, and the scan finds the NULs around it there. */
  ghost predicate Stands(head: string, here: nat, p: Pair) {
    && here + |p.0| + |p.1| + 2 <= |head|
    && Search(head, here) == here + |p.0| && head[here..here + |p.0|] == p.0
    && Search(head, here + |p.0| + 1) == here + |p.0| + 1 + |p.1|
    && head[here + |p.0| + 1..here + |p.0| + 1 + |p.1|] == p.1
  }

  lemma EncodedStands(head: string, front: string, p: Pair, tail: string)
    requires head == front + (EncodePair(p) + tail)
    requires '\0' !in p.0 && '\0' !in p.1
    ensures Stands(head, |front|, p)
  {
    var here, there := |front|, |front| + |p.0| + 1;
    assert head[here..] == EncodePair(p) + tail;
    assert forall j | 0 <= j < |p.0| :: head[here + j] == p.0[j];
    assert forall j | 0 <= j < |p.1| :: head[there + j] == p.1[j];
    assert head[here + |p.0|] == '\0' && head[there + |p.1|] == '\0';
    forall j | here <= j < here + |p.0| ensures head[j] != '\0' {
      assert head[here + (j - here)] == p.0[j - here] && p.0[j - here] in p.0;
    }
    forall j | there <= j < there + |p.1| ensures head[j] != '\0' {
      assert head[there + (j - there)] == p.1[j - there] && p.1[j - there] in p.1;
    }
    SearchFinds(head, here, |p.0|);
    SearchFinds(head, there, |p.1|);
  }

  /** Where the i-th pair stands in the buffer. */
  lemma PairAt(pairs: seq<Pair>, i: nat)
    requires NulFree(pairs) && i < |pairs|
    ensures Stands(Encode(pairs), |Encode(pairs[..i])|, pairs[i])
    ensures |Encode(pairs[..i + 1])| == |Encode(pairs[..i])| + |pairs[i].0| + |pairs[i].1| + 2
  {
    var one := [pairs[i]];
    assert one[1..] == [] && Encode(one) == EncodePair(pairs[i]);
    assert pairs == pairs[..i] + (one + pairs[i + 1..]);
    EncodeConcat(pairs[..i], one + pairs[i + 1..]);
    EncodeConcat(one, pairs[i + 1..]);
    assert pairs[..i + 1] == pairs[..i] + one;
    EncodeConcat(pairs[..i], one);
    assert pairs[i] in pairs;
    EncodedStands(Encode(pairs), Encode(pairs[..i]), pairs[i], Encode(pairs[i + 1..]));
  }

  lemma {:induction false} FirstValueStep(pairs: seq<Pair>, i: nat, name: string)
    requires i < |pairs|
    ensures FirstValue(pairs[..i + 1], name) ==
            if FirstValue(pairs[..i], name).Some? then FirstValue(pairs[..i], name)
            else if pairs[i].0 == name then Some(pairs[i].1) else None
  {
    if i == 0 {
      assert pairs[..1] == [pairs[0]] && pairs[..1][1..] == [];
    } else {
      assert pairs[..i + 1][1..] == pairs[1..][..i];
      assert pairs[..i][1..] == pairs[1..][..i - 1];
      FirstValueStep(pairs[1..], i - 1, name);
    }
  }

  lemma WireNamesDiffer(h: Header, g: Header)
    requires h != g
    ensures WireName(h) != WireName(g)
  {
    assert |WireName(ContentLength)| == 14 && |WireName(RequestMethod)| == 14 && WireName(ContentLength)[0] != WireName(RequestMethod)[0];
    assert |WireName(HttpAuthorization)| == 18;
    assert |WireName(HttpCookie)| == 11 && |WireName(RemoteAddr)| == 11 && WireName(HttpCookie)[0] != WireName(RemoteAddr)[0];
  }

  /** Which header a name stands for. */
  function HeaderNamed(name: string): Option<Header> {
    if name == WireName(ContentLength) then Some(ContentLength)
    else if name == WireName(HttpAuthorization) then Some(HttpAuthorization)
    else if name == WireName(HttpCookie) then Some(HttpCookie)
    else if name == WireName(RemoteAddr) then Some(RemoteAddr)
    else if name == WireName(RequestMethod) then Some(RequestMethod)
    else None
  }

  lemma HeaderNames(name: string, h: Header)
    ensures HeaderNamed(name) == Some(h) <==> name == WireName(h)
  {
    if name == WireName(h) && HeaderNamed(name) != Some(h) {
      WireNamesDiffer(h, HeaderNamed(name).value);
    }
  }

  /** A value is kept when it is the first for its header. */
  function Kept(headers: Headers, p: Pair): Headers {
    match HeaderNamed(p.0) {
      case None => headers
      case Some(h) => if h in headers then headers else headers[h := p.1]
    }
  }

  lemma TrackedStep(pairs: seq<Pair>, i: nat)
    requires i < |pairs|
    ensures Tracked(pairs[..i + 1]) == Kept(Tracked(pairs[..i]), pairs[i])
  {
    var after, kept := Tracked(pairs[..i + 1]), Kept(Tracked(pairs[..i]), pairs[i]);
    forall h ensures h in after <==> h in kept
             ensures h in after ==> after[h] == kept[h]
    {
      FirstValueStep(pairs, i, WireName(h));
      HeaderNames(pairs[i].0, h);
    }
    assert after.Keys == kept.Keys;
  }

  /** The tests of one header against the five names. */
  method Keep(headers: Headers, name: string, data: string) returns (kept: Headers)
    ensures kept == Kept(headers, (name, data))
  {
    kept := headers;
    if ContentLength !in headers && name == WireName(ContentLength) {
      kept := headers[ContentLength := data];
    } else if HttpAuthorization !in headers && name == WireName(HttpAuthorization) {
      kept := headers[HttpAuthorization := data];
    } else if HttpCookie !in headers && name == WireName(HttpCookie) {
      kept := headers[HttpCookie := data];
    } else if RemoteAddr !in headers && name == WireName(RemoteAddr) {
      kept := headers[RemoteAddr := data];
    } else if RequestMethod !in headers && name == WireName(RequestMethod) {
      kept := headers[RequestMethod := data];
    }
    HeaderNames(name, ContentLength);
    HeaderNames(name, HttpAuthorization);
    HeaderNames(name, HttpCookie);
    HeaderNames(name, RemoteAddr);
    HeaderNames(name, RequestMethod);
  }

  /** Takes the name before the NUL at `next` and the data before the NUL after that; returns the
      position behind both. */
  method ReadPair(head: string, here: nat, next: nat, ghost p: Pair) returns (name: string, data: string, after: nat)
    requires here <= |head| && Stands(head, here, p) && next == Search(head, here)
    ensures name == p.0 && data == p.1
    ensures after == here + |p.0| + |p.1| + 2
  {
    name := head[here..next];
    var start := next + 1;
    var end := Search(head, start);
    data := head[start..end];
    after := end + 1;
  }

  /** The scan over a buffer that holds whole pairs: it visits each of them, in order, and stops. */
  method Scan(head: string, ghost pairs: seq<Pair>) returns (headers: Headers)
    requires NulFree(pairs) && head == Encode(pairs)
    ensures headers == Tracked(pairs)
  {
    headers := map[];
    var here := 0;
    ghost var i := 0;
    ScanStart(pairs);
    var next := Search(head, here);
    while next >= 0
      invariant 0 <= i <= |pairs|
      invariant here == |Encode(pairs[..i])| <= |head|
      invariant next == Search(head, here)
      invariant i < |pairs| ==> Stands(head, here, pairs[i])
      invariant i == |pairs| ==> next == -1
      invariant headers == Tracked(pairs[..i])
      decreases |pairs| - i
    {
      TrackedStep(pairs, i);
      ScanNext(pairs, i);
      var name, data;
      name, data, next := ReadPair(head, here, next, pairs[i]);
      assert (name, data) == pairs[i];
      headers := Keep(headers, name, data);
      here := next;
      i := i + 1;
      next := Search(head, next);
    }
    assert pairs[..i] == pairs;
  }

  lemma ScanStart(pairs: seq<Pair>)
    requires NulFree(pairs)
    ensures Encode(pairs[..0]) == [] && Tracked(pairs[..0]) == map[]
    ensures pairs != [] ==> Stands(Encode(pairs), 0, pairs[0])
  {
    assert pairs[..0] == [];
    if pairs != [] {
      PairAt(pairs, 0);
    }
  }

  lemma ScanNext(pairs: seq<Pair>, i: nat)
    requires NulFree(pairs) && i < |pairs|
    ensures |Encode(pairs[..i + 1])| == |Encode(pairs[..i])| + |pairs[i].0| + |pairs[i].1| + 2
    ensures i + 1 < |pairs| ==> Stands(Encode(pairs), |Encode(pairs[..i + 1])|, pairs[i + 1])
    ensures i + 1 == |pairs| ==> |Encode(pairs[..i + 1])| == |Encode(pairs)|
  {
    PairAt(pairs, i);
    if i + 1 < |pairs| {
      PairAt(pairs, i + 1);
    } else {
      assert pairs[..i + 1] == pairs;
    }
  }
}
