/** The self-populating `Dictionary`, and the checks that `on_message` makes before it calls `action`. */
module Gate {
  import opened Wrappers

  // A dictionary, or a value that was stored in one.
  datatype Value = Flag(on: bool) | Dictionary(entries: map<string, Value>)

  const EMPTY := Dictionary(map[])

  /** `Dictionary.__getitem__` along a path: a missing key is added, with an empty dictionary under
      it. Returns the dictionary afterwards and what was read; looking into a flag is an error. */
  function Read(d: Value, path: seq<string>): Option<(Value, Value)>
    decreases |path|
  {
    if path == [] then Some((d, d))
    else if d.Flag? then None
    else
      var sub := if path[0] in d.entries then d.entries[path[0]] else EMPTY;
      match Read(sub, path[1..]) {
        case None => None
        case Some((after, value)) => Some((Dictionary(d.entries[path[0] := after]), value))
      }
  }

  /** Plain lookup, which changes nothing: is there a true flag at the end of the path? */
  predicate On(d: Value, path: seq<string>)
    decreases |path|
  {
    if path == [] then d == Flag(true) else d.Dictionary? && path[0] in d.entries && On(d.entries[path[0]], path[1..])
  }

  /** No flag stands where the path needs a dictionary. */
  predicate Readable(d: Value, path: seq<string>)
    decreases |path|
  {
    path == [] || (d.Dictionary? && (path[0] in d.entries ==> Readable(d.entries[path[0]], path[1..])))
  }

  lemma {:induction false} ReadableEmpty(path: seq<string>)
    ensures Readable(EMPTY, path) && (path != [] ==> !On(EMPTY, path))
  {
  }

  /** Reading a flag gives what plain lookup gives. */
  lemma {:induction false} ReadIsLookup(d: Value, path: seq<string>)
    requires Readable(d, path)
    ensures Read(d, path).Some?
    ensures Read(d, path).value.1 == Flag(true) <==> On(d, path)
    decreases |path|
  {
    if path != [] {
      ReadableEmpty(path[1..]);
      ReadIsLookup(if path[0] in d.entries then d.entries[path[0]] else EMPTY, path[1..]);
    }
  }

  /** Reading along one path, which may add entries, changes no flag on any path. */
  lemma {:induction false} ReadKeepsFlags(d: Value, path: seq<string>, other: seq<string>)
    requires Readable(d, path)
    ensures Read(d, path).Some?
    ensures On(Read(d, path).value.0, other) <==> On(d, other)
    ensures Readable(d, other) ==> Readable(Read(d, path).value.0, other)
    decreases |path|
  {
    if path != [] {
      var sub := if path[0] in d.entries then d.entries[path[0]] else EMPTY;
      ReadableEmpty(path[1..]);
      if other != [] && other[0] == path[0] {
        ReadableEmpty(other[1..]);
        ReadKeepsFlags(sub, path[1..], other[1..]);
        if path[0] !in d.entries {
          assert d.entries[path[0] := Read(sub, path[1..]).value.0][path[0]] == Read(sub, path[1..]).value.0;
        }
      } else {
        ReadKeepsFlags(sub, path[1..], []);
      }
    }
  }

  // The checks of `on_message`, in the order in which it makes them.
  datatype Check =
    | RemoteAddr | Username | Password | CookieLevel
    | TypeInform | TypeAddObjectResponse | CwmpId | InstanceNumber | Status | Bootstrap
    | ManufacturerOui | SerialNumber | SoftwareVersion | RequestUrl | RequestUsername | RequestPassword

  /** Where the flag of a check is kept. */
  function Path(c: Check): seq<string> {
    match c {
      case RemoteAddr => ["http", "remote_addr"]
      case Username => ["http", "authorization", "username"]
      case Password => ["http", "authorization", "password"]
      case CookieLevel => ["http", "cookie_level"]
      case TypeInform => ["cwmp", "type", "inform"]
      case TypeAddObjectResponse => ["cwmp", "type", "add_object_response"]
      case CwmpId => ["cwmp", "id"]
      case InstanceNumber => ["cwmp", "instance_number"]
      case Status => ["cwmp", "status"]
      case Bootstrap => ["cwmp", "events", "bootstrap"]
      case ManufacturerOui => ["cwmp", "parameters", "InternetGatewayDevice.DeviceInfo.ManufacturerOUI"]
      case SerialNumber => ["cwmp", "parameters", "InternetGatewayDevice.DeviceInfo.SerialNumber"]
      case SoftwareVersion => ["cwmp", "parameters", "InternetGatewayDevice.DeviceInfo.SoftwareVersion"]
      case RequestUrl => ["cwmp", "parameters", "InternetGatewayDevice.ManagementServer.ConnectionRequestURL"]
      case RequestUsername => ["cwmp", "parameters", "InternetGatewayDevice.ManagementServer.ConnectionRequestUsername"]
      case RequestPassword => ["cwmp", "parameters", "InternetGatewayDevice.ManagementServer.ConnectionRequestPassword"]
    }
  }

  /** No check trips over a flag on its path, and `on` are the checks that are switched on. */
  ghost predicate Holds(d: Value, on: set<Check>) {
    forall c: Check :: Readable(d, Path(c)) && (On(d, Path(c)) <==> c in on)
  }

  /** What stands under a key; nothing under a missing key or in a flag. */
  function Entry(d: Option<Value>, key: string): Option<Value> {
    if d.Some? && d.value.Dictionary? && key in d.value.entries then Some(d.value.entries[key]) else None
  }

  lemma OnAtKey(d: Value, key: string, rest: seq<string>)
    ensures On(d, [key] + rest) <==> Entry(Some(d), key).Some? && On(Entry(Some(d), key).value, rest)
  {
    assert ([key] + rest)[1..] == rest;
  }

  lemma OnTwo(d: Value, a: string, b: string)
    ensures On(d, [a, b]) <==> Entry(Entry(Some(d), a), b) == Some(Flag(true))
  {
    OnAtKey(d, a, [b]);
    assert [a] + [b] == [a, b] && [b] + [] == [b];
    if Entry(Some(d), a).Some? {
      OnAtKey(Entry(Some(d), a).value, b, []);
    }
  }

  lemma OnThree(d: Value, a: string, b: string, c: string)
    ensures On(d, [a, b, c]) <==> Entry(Entry(Entry(Some(d), a), b), c) == Some(Flag(true))
  {
    OnAtKey(d, a, [b, c]);
    assert [a] + [b, c] == [a, b, c];
    if Entry(Some(d), a).Some? {
      OnTwo(Entry(Some(d), a).value, b, c);
    }
  }

  /** Which entry switches which check on: the HTTP part. */
  lemma HttpSwitches(d: Value, on: set<Check>)
    requires Holds(d, on)
    ensures var http := Entry(Some(d), "http");
            && (RemoteAddr in on <==> Entry(http, "remote_addr") == Some(Flag(true)))
            && (Username in on <==> Entry(Entry(http, "authorization"), "username") == Some(Flag(true)))
            && (Password in on <==> Entry(Entry(http, "authorization"), "password") == Some(Flag(true)))
            && (CookieLevel in on <==> Entry(http, "cookie_level") == Some(Flag(true)))
  {
    OnTwo(d, "http", "remote_addr");
    OnThree(d, "http", "authorization", "username");
    OnThree(d, "http", "authorization", "password");
    OnTwo(d, "http", "cookie_level");
  }

  /** The kind of the message, and what it has to hold. */
  lemma CwmpSwitches(d: Value, on: set<Check>)
    requires Holds(d, on)
    ensures var cwmp := Entry(Some(d), "cwmp");
            && (TypeInform in on <==> Entry(Entry(cwmp, "type"), "inform") == Some(Flag(true)))
            && (TypeAddObjectResponse in on <==> Entry(Entry(cwmp, "type"), "add_object_response") == Some(Flag(true)))
            && (CwmpId in on <==> Entry(cwmp, "id") == Some(Flag(true)))
            && (InstanceNumber in on <==> Entry(cwmp, "instance_number") == Some(Flag(true)))
            && (Status in on <==> Entry(cwmp, "status") == Some(Flag(true)))
            && (Bootstrap in on <==> Entry(Entry(cwmp, "events"), "bootstrap") == Some(Flag(true)))
  {
    OnThree(d, "cwmp", "type", "inform");
    OnThree(d, "cwmp", "type", "add_object_response");
    OnTwo(d, "cwmp", "id");
    OnTwo(d, "cwmp", "instance_number");
    OnTwo(d, "cwmp", "status");
    OnThree(d, "cwmp", "events", "bootstrap");
  }

  /** The parameters of an inform that say which device it is. */
  lemma DeviceSwitches(d: Value, on: set<Check>)
    requires Holds(d, on)
    ensures var parameters := Entry(Entry(Some(d), "cwmp"), "parameters");
            && (ManufacturerOui in on <==> Entry(parameters, "InternetGatewayDevice.DeviceInfo.ManufacturerOUI") == Some(Flag(true)))
            && (SerialNumber in on <==> Entry(parameters, "InternetGatewayDevice.DeviceInfo.SerialNumber") == Some(Flag(true)))
            && (SoftwareVersion in on <==> Entry(parameters, "InternetGatewayDevice.DeviceInfo.SoftwareVersion") == Some(Flag(true)))
  {
    OnThree(d, "cwmp", "parameters", "InternetGatewayDevice.DeviceInfo.ManufacturerOUI");
    OnThree(d, "cwmp", "parameters", "InternetGatewayDevice.DeviceInfo.SerialNumber");
    OnThree(d, "cwmp", "parameters", "InternetGatewayDevice.DeviceInfo.SoftwareVersion");
  }

  /** Those that a connection request needs. */
  lemma RequestSwitches(d: Value, on: set<Check>)
    requires Holds(d, on)
    ensures var parameters := Entry(Entry(Some(d), "cwmp"), "parameters");
            && (RequestUrl in on <==> Entry(parameters, "InternetGatewayDevice.ManagementServer.ConnectionRequestURL") == Some(Flag(true)))
            && (RequestUsername in on <==> Entry(parameters, "InternetGatewayDevice.ManagementServer.ConnectionRequestUsername") == Some(Flag(true)))
            && (RequestPassword in on <==> Entry(parameters, "InternetGatewayDevice.ManagementServer.ConnectionRequestPassword") == Some(Flag(true)))
  {
    OnThree(d, "cwmp", "parameters", "InternetGatewayDevice.ManagementServer.ConnectionRequestURL");
    OnThree(d, "cwmp", "parameters", "InternetGatewayDevice.ManagementServer.ConnectionRequestUsername");
    OnThree(d, "cwmp", "parameters", "InternetGatewayDevice.ManagementServer.ConnectionRequestPassword");
  }

  /** All checks that are switched on pass. */
  ghost predicate Accepts<Body>(on: set<Check>, passes: (Check, Body) -> bool, body: Body) {
    forall c | c in on :: passes(c, body)
  }

  lemma ReadHolds(d: Value, on: set<Check>, c: Check)
    requires Holds(d, on)
    ensures Read(d, Path(c)).Some? && Holds(Read(d, Path(c)).value.0, on)
    ensures Read(d, Path(c)).value.1 == Flag(true) <==> c in on
  {
    ReadIsLookup(d, Path(c));
    forall e: Check
      ensures On(Read(d, Path(c)).value.0, Path(e)) <==> e in on
      ensures Readable(Read(d, Path(c)).value.0, Path(e))
    {
      ReadKeepsFlags(d, Path(c), Path(e));
    }
  }

  /** `passes` stands for what each check looks at in the body. */
  class InputVerification<Body> {
    const passes: (Check, Body) -> bool
    var flags: Value

    constructor (flags: Value, passes: (Check, Body) -> bool)
      ensures this.flags == flags && this.passes == passes
    {
      this.flags, this.passes := flags, passes;
    }

    method Verify(c: Check, body: Body, ghost on: set<Check>) returns (ok: bool)
      requires Holds(flags, on)
      modifies this
      ensures Holds(flags, on)
      ensures ok <==> (c in on ==> passes(c, body))
    {
      ReadHolds(flags, on, c);
      var (after, value) := Read(flags, Path(c)).value;
      flags := after;
      ok := value != Flag(true) || passes(c, body);
    }

    /** The checks on the HTTP part of the message. */
    method VerifyHttp(body: Body, ghost on: set<Check>) returns (ok: bool)
      requires Holds(flags, on)
      modifies this
      ensures Holds(flags, on)
      ensures ok <==> Accepts(on * {RemoteAddr, Username, Password, CookieLevel}, passes, body)
    {
      ok := Verify(RemoteAddr, body, on);
      if !ok { return; }
      ok := Verify(Username, body, on);
      if !ok { return; }
      ok := Verify(Password, body, on);
      if !ok { return; }
      ok := Verify(CookieLevel, body, on);
    }

    /** The checks on the CWMP part. */
    method VerifyCwmp(body: Body, ghost on: set<Check>) returns (ok: bool)
      requires Holds(flags, on)
      modifies this
      ensures Holds(flags, on)
      ensures ok <==> Accepts(on * {TypeInform, TypeAddObjectResponse, CwmpId, InstanceNumber, Status, Bootstrap}, passes, body)
    {
      ok := Verify(TypeInform, body, on);
      if !ok { return; }
      ok := Verify(TypeAddObjectResponse, body, on);
      if !ok { return; }
      ok := Verify(CwmpId, body, on);
      if !ok { return; }
      ok := Verify(InstanceNumber, body, on);
      if !ok { return; }
      ok := Verify(Status, body, on);
      if !ok { return; }
      ok := Verify(Bootstrap, body, on);
    }

    /** The checks on the parameters of an inform. */
    method VerifyParameters(body: Body, ghost on: set<Check>) returns (ok: bool)
      requires Holds(flags, on)
      modifies this
      ensures Holds(flags, on)
      ensures ok <==> Accepts(on * {ManufacturerOui, SerialNumber, SoftwareVersion, RequestUrl, RequestUsername, RequestPassword}, passes, body)
    {
      ok := Verify(ManufacturerOui, body, on);
      if !ok { return; }
      ok := Verify(SerialNumber, body, on);
      if !ok { return; }
      ok := Verify(SoftwareVersion, body, on);
      if !ok { return; }
      ok := Verify(RequestUrl, body, on);
      if !ok { return; }
      ok := Verify(RequestUsername, body, on);
      if !ok { return; }
      ok := Verify(RequestPassword, body, on);
    }

    /** `action` runs exactly when the body parses and every check that is switched on passes;
        looking the flags up leaves all of them as they were. */
    method OnMessage(parsed: Option<Body>, ghost on: set<Check>) returns (acts: bool)
      requires Holds(flags, on)
      modifies this
      ensures Holds(flags, on)
      ensures acts <==> parsed.Some? && Accepts(on, passes, parsed.value)
    {
      if parsed.None? {
        return false;
      }
      acts := VerifyHttp(parsed.value, on);
      if !acts { return; }
      acts := VerifyCwmp(parsed.value, on);
      if !acts { return; }
      acts := VerifyParameters(parsed.value, on);
    }

    /** Over any sequence of messages the gate stays the function of the body that it was before
        the first. */
    method OnMessages(bodies: seq<Option<Body>>, ghost on: set<Check>) returns (acts: seq<bool>)
      requires Holds(flags, on)
      modifies this
      ensures Holds(flags, on)
      ensures |acts| == |bodies|
      ensures forall i | 0 <= i < |bodies| ::
                acts[i] <==> bodies[i].Some? && Accepts(on, passes, bodies[i].value)
    {
      acts := [];
      for i := 0 to |bodies|
        invariant Holds(flags, on)
        invariant |acts| == i
        invariant forall j | 0 <= j < i :: acts[j] <==> bodies[j].Some? && Accepts(on, passes, bodies[j].value)
      {
        var act := OnMessage(bodies[i], on);
        acts := acts + [act];
      }
    }
  }
}
