/** `action` of the example back ends, with the dictionaries and lists they share. */
module Actions {
  import opened Wrappers
  import opened Fanout

  /** One list object, which several dictionaries may hold. */
  class ArchiveList {
    var items: seq<Id>

    constructor (items: seq<Id>)
      ensures this.items == items
    {
      this.items := items;
    }

    method Append(item: Id)
      modifies this
      ensures items == old(items) + [item]
    {
      items := items + [item];
    }

    /** The loop over the archive: has one of two ids been left in it? */
    method Mentions(one: Id, other: Id) returns (found: bool)
      ensures found <==> one in items || other in items
    {
      for i := 0 to |items|
        invariant one !in items[..i] && other !in items[..i]
      {
        if items[i] == one || items[i] == other {
          return true;
        }
      }
      found := false;
    }
  }

  class Cwmp {
    var kind: Kind

    constructor (kind: Kind)
      ensures this.kind == kind
    {
      this.kind := kind;
    }
  }

  /** A message dictionary. A key that is not there is a null. Templates live as long as the back end. */
  class Dict {
    var archive: ArchiveList?
    var cwmp: Cwmp?
    var factory: bool
    var ttl: Option<int>

    constructor (archive: ArchiveList?, cwmp: Cwmp?, factory: bool, ttl: Option<int>)
      ensures this.archive == archive && this.cwmp == cwmp && this.factory == factory && this.ttl == ttl
    {
      this.archive, this.cwmp, this.factory, this.ttl := archive, cwmp, factory, ttl;
    }

    /** What `json.dumps` writes. */
    function Dumped(): Msg
      reads this, archive, cwmp
    {
      Msg(if cwmp == null then OtherKind else cwmp.kind,
          if archive == null then None else Some(archive.items), factory, ttl)
    }

    method DeepCopy() returns (copy: Dict)
      ensures fresh(copy) && copy.Dumped() == Dumped()
      ensures copy.archive != null ==> fresh(copy.archive)
      ensures copy.cwmp != null ==> fresh(copy.cwmp)
      ensures (copy.cwmp == null <==> cwmp == null) && (copy.archive == null <==> archive == null)
    {
      var a: ArchiveList? := null;
      var c: Cwmp? := null;
      if archive != null {
        a := new ArchiveList(archive.items);
      }
      if cwmp != null {
        c := new Cwmp(cwmp.kind);
      }
      copy := new Dict(a, c, factory, ttl);
    }
  }

  /** A freshly parsed message shares nothing with a template. */
  ghost predicate Separate(data: Dict, template: Dict)
    reads data, template
  {
    data != template && template.ttl == None && (data.archive != null ==> data.archive != template.archive)
  }

  /** The template holds what the protocol says, and is handed over for publishing when the protocol says
      so; what goes out is what it holds when its turn comes. */
  ghost predicate HandsOver(handed: seq<Dict>, template: Dict, r: Reaction)
    reads template, template.archive, template.cwmp
  {
    template.Dumped() == r.template && handed == if r.handed == Some(Template) then [template] else []
  }

  /** The archive that came with the message, or a new one. */
  method ArchiveOf(data: Dict) returns (archive: ArchiveList)
    ensures data.archive != null ==> archive == data.archive
    ensures data.archive == null ==> fresh(archive) && archive.items == []
  {
    if data.archive == null {
      archive := new ArchiveList([]);
    } else {
      archive := data.archive;
    }
  }

  class TimeProvisioning {
    const queueName: Id
    const internalMsg: Dict

    constructor (queueName: Id, internalMsg: Dict)
      ensures this.queueName == queueName && this.internalMsg == internalMsg
    {
      this.queueName, this.internalMsg := queueName, internalMsg;
    }

    /** A device that has its own credentials already leaves no message, but its archive stays behind in
        the template. */
    method Action(data: Dict, completes: bool, ghost cfg: seq<Node>, ghost n: nat, ghost choice: Choice) returns (sent: seq<Dict>)
      requires Separate(data, internalMsg) && data.cwmp != null && data.cwmp.kind.Inform?
      requires n < |cfg| && cfg[n] == Time(queueName) && choice.gate && choice.completes == completes
      modifies internalMsg, data.archive
      ensures HandsOver(sent, internalMsg, React(cfg, [], old(internalMsg.Dumped()), n, old(data.Dumped()), choice))
    {
      var archive := ArchiveOf(data);
      var found := archive.Mentions(queueName, queueName);
      if found {
        return [];
      }
      archive.Append(queueName);
      internalMsg.archive := archive;
      if !data.factory {
        return [];
      }
      internalMsg.cwmp := data.cwmp;
      internalMsg.factory := data.factory;
      sent := if completes then [internalMsg] else [];
    }
  }

  class WifiRelay {
    const rival: Id
    const addId: Id
    const setId: Id
    const internalMsg: Dict

    constructor (rival: Id, addId: Id, setId: Id, internalMsg: Dict)
      ensures this.rival == rival && this.addId == addId && this.setId == setId && this.internalMsg == internalMsg
    {
      this.rival, this.addId, this.setId, this.internalMsg := rival, addId, setId, internalMsg;
    }

    /** Copies of the broadcast for the relay messages, one from before and one from after the second
        id is appended to the list that the document and the broadcast share. */
    method RelayCopies(mongoMsg: Dict) returns (relay: seq<Msg>)
      requires internalMsg.ttl == None && internalMsg.cwmp != null && internalMsg.cwmp.kind.Inform? && internalMsg.factory
      requires mongoMsg.archive != null && mongoMsg.archive == internalMsg.archive
      modifies mongoMsg.archive
      ensures mongoMsg.archive.items == old(mongoMsg.archive.items) + [setId]
      ensures relay == [Msg(Inform, Some(old(mongoMsg.archive.items)), true, None),
                        Msg(ConnectionRequest, Some(old(mongoMsg.archive.items) + [setId]), true, Some(5))]
    {
      var first := internalMsg.DeepCopy();
      mongoMsg.archive.Append(setId);
      var second := internalMsg.DeepCopy();
      second.cwmp.kind := ConnectionRequest;
      second.ttl := Some(5);
      relay := [first.Dumped(), second.Dumped()];
    }

    /** The document for the database holds the very list that the broadcast holds, so the second id
        appended for the document goes out with the broadcast too; the deep copies made for the relay
        messages keep what was there when they were made. */
    method Action(data: Dict, inserted: bool, n: nat, ghost cfg: seq<Node>, ghost choice: Choice)
      returns (sent: seq<Dict>, stored: seq<Record>)
      requires Separate(data, internalMsg) && data.cwmp != null && data.cwmp.kind.Inform?
      requires n < |cfg| && cfg[n] == Relay(rival, addId, setId) && choice.gate && choice.completes == inserted
      modifies internalMsg, data.archive
      ensures HandsOver(sent, internalMsg, React(cfg, [], old(internalMsg.Dumped()), n, old(data.Dumped()), choice))
      ensures stored == React(cfg, [], old(internalMsg.Dumped()), n, old(data.Dumped()), choice).stored
    {
      var archive := ArchiveOf(data);
      var found := archive.Mentions(rival, addId);
      if found {
        return [], [];
      }
      ghost var before := archive.items;
      archive.Append(addId);
      internalMsg.archive := archive;
      if !data.factory {
        return [], [];
      }
      internalMsg.cwmp := data.cwmp;
      internalMsg.factory := data.factory;
      var mongoMsg := new Dict(internalMsg.archive, data.cwmp, data.factory, None);
      var relay := RelayCopies(mongoMsg);
      assert before + [addId] + [setId] == before + [addId, setId];
      if !inserted {
        return [], [];
      }
      stored := [Record(n, mongoMsg.archive.items, relay)];
      sent := [internalMsg];
    }
  }

  class WifiTwoPhase {
    const addId: Id
    const setId: Id
    const internalMsg: Dict

    constructor (addId: Id, setId: Id, internalMsg: Dict)
      ensures this.addId == addId && this.setId == setId && this.internalMsg == internalMsg
    {
      this.addId, this.setId, this.internalMsg := addId, setId, internalMsg;
    }

    /** The inform itself in the first phase, the stored document in the second, each with the id of the
        phase appended to its archive. */
    method Extend(data: Dict, archive: ArchiveList, found: Option<Record>) returns (handled: bool, cwmp: Cwmp, list: ArchiveList)
      requires data.cwmp != null && (data.archive != null ==> data.archive == archive)
      modifies archive
      ensures handled <==> data.cwmp.kind.Inform? || (data.cwmp.kind == AddObjectResponse(true) && found.Some?)
      ensures handled ==> cwmp.kind == Inform
      ensures handled ==> list.items == if data.cwmp.kind.Inform? then old(archive.items) + [addId] else found.value.archive + [setId]
    {
      handled, cwmp, list := false, data.cwmp, archive;
      match data.cwmp.kind {
        case Inform =>
          var extended := data.DeepCopy();
          handled, cwmp := true, extended.cwmp;
          list.Append(addId);
        case AddObjectResponse(succeeded) =>
          if succeeded && found.Some? {
            handled := true;
            cwmp := new Cwmp(Inform);
            list := new ArchiveList(found.value.archive);
            list.Append(setId);
          }
        case _ =>
      }
    }

    /** `found` is the document that `find_one` returns, if there is one; `completes` says whether the
        parameters are there and, for an inform, the insert gives an id; `n` stands for the collection of
        this back end. */
    method Action(data: Dict, completes: bool, found: Option<Record>, n: nat, ghost cfg: seq<Node>, ghost records: seq<Record>,
                  ghost choice: Choice)
      returns (sent: seq<Dict>, stored: seq<Record>)
      requires Separate(data, internalMsg) && data.cwmp != null
      requires n < |cfg| && cfg[n] == TwoPhase(addId, setId) && choice.gate && choice.completes == completes
      requires found == if choice.pick < |records| && records[choice.pick].owner == n then Some(records[choice.pick]) else None
      modifies internalMsg, data.archive
      ensures HandsOver(sent, internalMsg, React(cfg, records, old(internalMsg.Dumped()), n, old(data.Dumped()), choice))
      ensures stored == React(cfg, records, old(internalMsg.Dumped()), n, old(data.Dumped()), choice).stored
    {
      sent, stored := [], [];
      var archive := ArchiveOf(data);
      var seen := archive.Mentions(addId, setId);
      if seen || !data.factory {
        return;
      }
      var handled, cwmp, list := Extend(data, archive, found);
      if !handled {
        return;
      }
      internalMsg.archive := list;
      internalMsg.factory := data.factory;
      internalMsg.cwmp := cwmp;
      if !completes {
        return;
      }
      if data.cwmp.kind.Inform? {
        stored := [Record(n, internalMsg.archive.items, [])];
      }
      sent := [internalMsg];
    }
  }

  class ConnectionRequestProvisioning {
    const delayMsg: Dict

    constructor (delayMsg: Dict)
      ensures this.delayMsg == delayMsg
    {
      this.delayMsg := delayMsg;
    }

    /** One attempt at most; a failed one goes to the delay queue with a smaller ttl, in a template
        that takes the archive list of the message itself. */
    method Action(data: Dict, validUrl: bool, fails: bool, ghost cfg: seq<Node>, ghost n: nat, ghost choice: Choice)
      returns (delayed: seq<Dict>, attempts: nat)
      requires data != delayMsg && data.cwmp != null
      requires n < |cfg| && cfg[n] == Connector && choice.gate && choice.validUrl == validUrl && choice.fails == fails
      modifies delayMsg
      ensures HandsOver(delayed, delayMsg, React(cfg, [], old(delayMsg.Dumped()), n, old(data.Dumped()), choice))
      ensures attempts == React(cfg, [], old(delayMsg.Dumped()), n, old(data.Dumped()), choice).attempts
    {
      delayed, attempts := [], 0;
      if data.ttl.None? {
        return;
      }
      var ttl := data.ttl.value - 1;
      if ttl < 0 || !validUrl {
        return;
      }
      attempts := 1;
      if fails {
        if data.archive == null {
          return;
        }
        delayMsg.archive := data.archive;
        delayMsg.cwmp := data.cwmp;
        delayMsg.factory := data.factory;
        delayMsg.ttl := Some(ttl);
        delayed := [delayMsg];
      }
    }
  }
}
