/** The session that a device keeps with a cookie: what has been written to it is what it sends back. */
module Cookies {
  import opened Wrappers
  import opened HeaderScan
  import opened Connection
  import opened Responses
  import opened Session

  /** The cookie that a device holds after a response: the last one in what was written, or else the one
      that it has held before. */
  function CookieHeld(held: Option<string>, output: seq<Piece>): Option<string>
    decreases |output|
  {
    if output == [] then held else CookieHeld(if output[0].SetCookie? then Some(output[0].value) else held, output[1..])
  }

  lemma {:induction false} HeldWithout(held: Option<string>, output: seq<Piece>)
    requires forall p | p in output :: !p.SetCookie?
    ensures CookieHeld(held, output) == held
    decreases |output|
  {
    if output != [] {
      HeldWithout(held, output[1..]);
    }
  }

  lemma {:induction false} HeldAfter(held: Option<string>, front: seq<Piece>, cookie: string, rest: seq<Piece>)
    requires forall p | p in rest :: !p.SetCookie?
    ensures CookieHeld(held, front + [SetCookie(cookie)] + rest) == Some(cookie)
    decreases |front|
  {
    var output := front + [SetCookie(cookie)] + rest;
    if front == [] {
      assert output[1..] == rest;
      HeldWithout(Some(cookie), rest);
    } else {
      assert output[1..] == front[1..] + [SetCookie(cookie)] + rest;
      HeldAfter(if front[0].SetCookie? then Some(front[0].value) else held, front[1..], cookie, rest);
    }
  }

  /** The cookie held before the i-th request, when it was `held` at the start. */
  function CookieAt(held: Option<string>, session: seq<Exchange>, i: nat): Option<string>
    requires i <= |session|
  {
    if i == 0 then held else CookieHeld(CookieAt(held, session, i - 1), session[i - 1].output)
  }

  predicate SendsCookie(headers: Headers, cookie: Option<string>) {
    cookie == if HttpCookie in headers then Some(headers[HttpCookie]) else None
  }

  ghost predicate EchoesAt(cfg: Config, held: Option<string>, session: seq<Exchange>, i: nat)
    requires i < |session|
  {
    Served(cfg, session[i]) && SendsCookie(session[i].headers, CookieAt(held, session, i))
  }

  /** The device sends back the last cookie it was given. Other devices may have their turn in between. */
  ghost predicate Echoes(cfg: Config, held: Option<string>, session: seq<Exchange>) {
    forall i: nat | i < |session| :: EchoesAt(cfg, held, session, i)
  }

  predicate SetsLevelZero(x: Exchange) {
    SetCookie("level=0") in x.output
  }

  predicate Informed(x: Exchange) {
    InformResponseXml in x.output
  }

  predicate Provisioned(x: Exchange) {
    ProvisioningXml in x.output
  }

  predicate FactoryCredentials(cfg: Config, headers: Headers) {
    HttpAuthorization in headers && headers[HttpAuthorization] in cfg.factory
  }

  /** An authorized POST. */
  predicate Posts(x: Exchange) {
    Mandatory(x.headers) && Authorized(x.headers)
  }

  ghost predicate Informs(cfg: Config, x: Exchange) {
    Posts(x) && Holds(cfg, x.headers, x.msg, "Inform")
  }

  /** What a response looks like. */
  lemma OutputOf(cfg: Config, x: Exchange)
    requires Served(cfg, x)
    ensures Informed(x) <==> Informs(cfg, x)
    ensures Informed(x) ==> x.output == [Status(200), ContentXml, SetCookie("level=0"), Newline, InformResponseXml]
    ensures Provisioned(x) <==> Posts(x) && !Informs(cfg, x) && IsNew(cfg, x.headers)
    ensures Provisioned(x) ==> x.output == [Status(200), ContentXml, SetCookie("level=1"), Newline, ProvisioningXml]
    ensures Informed(x) || Provisioned(x) || !Posts(x) ==> x.after == x.before
    ensures !Posts(x) ==> forall p | p in x.output :: !p.SetCookie?
  {
    if Wants(cfg, x.headers, x.msg) {
      NoFixedMessage(cfg, x);
    } else {
      AnsweredAtOnce(cfg, x.headers, x.msg, x.script, x.before);
    }
  }

  lemma NoFixedMessage(cfg: Config, x: Exchange)
    requires Served(cfg, x) && Wants(cfg, x.headers, x.msg)
    ensures !Informed(x) && !Provisioned(x)
  {
    TagSays(cfg, x.headers, x.msg);
  }

  lemma LevelsDiffer()
    ensures "level=1" != "level=0"
  {
    assert "level=1"[6] != "level=0"[6];
  }

  lemma {:induction false} StaysAway(held: Option<string>, output: seq<Piece>)
    requires held != Some("level=0") && SetCookie("level=0") !in output
    ensures CookieHeld(held, output) != Some("level=0")
    decreases |output|
  {
    if output != [] {
      assert output[0] in output;
      StaysAway(if output[0].SetCookie? then Some(output[0].value) else held, output[1..]);
    }
  }

  lemma {:induction false} LevelStays(held: Option<string>, session: seq<Exchange>, i: nat, j: nat)
    requires i <= j <= |session|
    requires CookieAt(held, session, i) != Some("level=0")
    requires forall m | i <= m < j :: !SetsLevelZero(session[m])
    ensures CookieAt(held, session, j) != Some("level=0")
    decreases j
  {
    if i < j {
      LevelStays(held, session, i, j - 1);
      StaysAway(CookieAt(held, session, j - 1), session[j - 1].output);
    }
  }

  /** After an inform and after the initial provisioning the cookie is the one that was written. */
  lemma LevelsWritten(cfg: Config, held: Option<string>, session: seq<Exchange>, i: nat)
    requires Echoes(cfg, held, session) && i < |session|
    ensures Informed(session[i]) ==> CookieAt(held, session, i + 1) == Some("level=0")
    ensures Provisioned(session[i]) ==> CookieAt(held, session, i) == Some("level=0") && CookieAt(held, session, i + 1) == Some("level=1")
    ensures !Posts(session[i]) ==> CookieAt(held, session, i + 1) == CookieAt(held, session, i)
  {
    assert EchoesAt(cfg, held, session, i);
    OutputOf(cfg, session[i]);
    var before, output := CookieAt(held, session, i), session[i].output;
    if Informed(session[i]) {
      HeldAfter(before, [Status(200), ContentXml], "level=0", [Newline, InformResponseXml]);
      assert output == [Status(200), ContentXml] + [SetCookie("level=0")] + [Newline, InformResponseXml];
    }
    if Provisioned(session[i]) {
      HeldAfter(before, [Status(200), ContentXml], "level=1", [Newline, ProvisioningXml]);
      assert output == [Status(200), ContentXml] + [SetCookie("level=1")] + [Newline, ProvisioningXml];
    }
    if !Posts(session[i]) {
      HeldWithout(before, output);
    }
  }

  /** Between two initial provisionings of a session level=0 has been written: by an inform, or for an
      action in which the back end sets the cookie itself. */
  lemma ProvisionedOncePerInform(cfg: Config, held: Option<string>, session: seq<Exchange>, i: nat, j: nat)
    requires Echoes(cfg, held, session) && i < j < |session|
    requires Provisioned(session[i]) && Provisioned(session[j])
    ensures exists m :: i < m < j && SetsLevelZero(session[m])
  {
    LevelsWritten(cfg, held, session, i);
    LevelsWritten(cfg, held, session, j);
    LevelsDiffer();
    if !exists m :: i < m < j && SetsLevelZero(session[m]) {
      LevelStays(held, session, i + 1, j);
    }
  }

  /** At level 0, a device with factory credentials is provisioned, or turned away, or informs; it stays at
      level 0 until it is provisioned, and no queue is touched. */
  lemma FactoryAtLevelZero(cfg: Config, held: Option<string>, session: seq<Exchange>, i: nat)
    requires Echoes(cfg, held, session) && i < |session| && CookieAt(held, session, i) == Some("level=0")
    requires FactoryCredentials(cfg, session[i].headers)
    ensures session[i].after == session[i].before
    ensures !Provisioned(session[i]) ==> CookieAt(held, session, i + 1) == Some("level=0")
    ensures Provisioned(session[i]) <==> Posts(session[i]) && !Informs(cfg, session[i])
  {
    assert EchoesAt(cfg, held, session, i);
    OutputOf(cfg, session[i]);
    LevelsWritten(cfg, held, session, i);
  }

  lemma {:induction false} WaitsAtLevelZero(cfg: Config, held: Option<string>, session: seq<Exchange>, i: nat, j: nat)
    requires Echoes(cfg, held, session) && i < j <= |session| && Informed(session[i])
    requires forall m | i < m < j :: FactoryCredentials(cfg, session[m].headers) && !Provisioned(session[m])
    ensures CookieAt(held, session, j) == Some("level=0")
    decreases j
  {
    if i + 1 < j {
      WaitsAtLevelZero(cfg, held, session, i, j - 1);
      FactoryAtLevelZero(cfg, held, session, j - 1);
    } else {
      LevelsWritten(cfg, held, session, i);
    }
  }

  /** With factory credentials no action leaves any queue between an inform and the initial
      provisioning, that request included. */
  lemma NoFetchBeforeProvisioning(cfg: Config, held: Option<string>, session: seq<Exchange>, i: nat, j: nat)
    requires Echoes(cfg, held, session) && i < j < |session| && Informed(session[i])
    requires forall m | i < m <= j :: FactoryCredentials(cfg, session[m].headers)
    requires forall m | i < m < j :: !Provisioned(session[m])
    ensures session[j].after == session[j].before
  {
    WaitsAtLevelZero(cfg, held, session, i, j);
    FactoryAtLevelZero(cfg, held, session, j);
  }

  /** And the initial provisioning does come: with the first POST after the inform that is no inform
      itself, and with the cookie level=1. */
  lemma ProvisioningComes(cfg: Config, held: Option<string>, session: seq<Exchange>, i: nat, j: nat)
    requires Echoes(cfg, held, session) && i < j < |session| && Informed(session[i])
    requires forall m | i < m <= j :: FactoryCredentials(cfg, session[m].headers)
    requires forall m | i < m < j :: !Posts(session[m]) || Informs(cfg, session[m])
    requires Posts(session[j]) && !Informs(cfg, session[j])
    ensures session[j].output == [Status(200), ContentXml, SetCookie("level=1"), Newline, ProvisioningXml]
    ensures CookieAt(held, session, j + 1) == Some("level=1")
  {
    forall m | i < m < j ensures !Provisioned(session[m]) {
      assert EchoesAt(cfg, held, session, m);
      OutputOf(cfg, session[m]);
    }
    WaitsAtLevelZero(cfg, held, session, i, j);
    assert EchoesAt(cfg, held, session, j);
    FactoryAtLevelZero(cfg, held, session, j);
    OutputOf(cfg, session[j]);
    LevelsWritten(cfg, held, session, j);
  }
}
