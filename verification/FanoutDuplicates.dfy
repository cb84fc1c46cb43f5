/** Which configurations of back ends can leave an id twice in an archive. */
module FanoutDuplicates {
  import opened Wrappers
  import opened Fanout
  import opened FanoutAccounts

  /** What a back end can append to an archive in what is broadcast of its template. One with relay
      messages appends its first id alone for a device that has its own credentials already; that goes
      out when it is written while a list waits with the template. */
  function Contributions(cfg: seq<Node>, n: nat): set<seq<Id>>
    requires n < |cfg|
  {
    match cfg[n] {
      case Time(id) => {[id]}
      case Relay(_, addId, setId) => {[addId], [addId, setId]}
      case TwoPhase(addId, setId) => {[addId], [addId, setId]}
      case _ => {}
    }
  }

  /** Some back end contributes the set_parameter_values id of a back end with relay messages, and
      nothing with it that would stop that back end from reacting. */
  predicate Trap(cfg: seq<Node>, rival: Id, addId: Id, setId: Id) {
    exists k | 0 <= k < |cfg| :: exists c | c in Contributions(cfg, k) :: setId in c && rival !in c && addId !in c
  }

  predicate Unsafe(cfg: seq<Node>, n: nat)
    requires n < |cfg|
  {
    match cfg[n] {
      case Relay(rival, addId, setId) => addId == setId || Trap(cfg, rival, addId, setId)
      case TwoPhase(addId, setId) => addId == setId
      case _ => false
    }
  }

  predicate Duplicating(cfg: seq<Node>) {
    exists n | 0 <= n < |cfg| :: Unsafe(cfg, n)
  }

  // ---- Where archives come from ----

  /** An archive is a sequence of contributions, each of them whole. */
  ghost predicate Built(cfg: seq<Node>, archive: seq<Id>)
    decreases |archive|
  {
    archive == [] || exists n: nat, k: nat ::
      n < |cfg| && k < |archive| && archive[k..] in Contributions(cfg, n) && Built(cfg, archive[..k])
  }

  ghost predicate RecordBuilt(cfg: seq<Node>, r: Record) {
    r.owner < |cfg| &&
    match cfg[r.owner] {
      case Relay(_, _, _) =>
        Built(cfg, r.archive) && forall m | m in r.relay :: Built(cfg, Archive(m))
      case TwoPhase(addId, _) =>
        r.relay == [] && exists front :: r.archive == front + [addId] && Built(cfg, front)
      case _ => false
    }
  }

  ghost predicate WorldBuilt(cfg: seq<Node>, w: World) {
    && (forall d | d in w.inflight :: Built(cfg, Archive(d.msg)))
    && (forall m | m in w.delay :: Built(cfg, Archive(m)))
    && (forall t | t in w.templates :: Built(cfg, Archive(t)))
    && (forall l | l in w.lists && l.handed.Own? :: forall m | m in l.handed.messages :: Built(cfg, Archive(m)))
    && (forall r | r in w.records :: RecordBuilt(cfg, r))
  }

  lemma BuiltAppend(cfg: seq<Node>, archive: seq<Id>, n: nat, c: seq<Id>)
    requires Built(cfg, archive) && n < |cfg| && c in Contributions(cfg, n)
    ensures Built(cfg, archive + c)
  {
    var k := |archive|;
    assert (archive + c)[k..] == c && (archive + c)[..k] == archive;
  }

  ghost predicate OutBuilt(cfg: seq<Node>, out: Reaction) {
    && Built(cfg, Archive(out.template))
    && (out.handed.Some? && out.handed.value.Own? ==> forall m | m in out.handed.value.messages :: Built(cfg, Archive(m)))
    && (forall r | r in out.stored :: RecordBuilt(cfg, r))
  }

  lemma RelayBuilt(cfg: seq<Node>, n: nat, archive: seq<Id>)
    requires n < |cfg| && cfg[n].Relay? && Built(cfg, archive)
    ensures var addId, setId := cfg[n].addId, cfg[n].setId;
            && Built(cfg, archive + [addId]) && Built(cfg, archive + [addId, setId])
            && RecordBuilt(cfg, Record(n, archive + [addId, setId], RelayMessages(archive, addId, setId)))
  {
    var addId, setId := cfg[n].addId, cfg[n].setId;
    BuiltAppend(cfg, archive, n, [addId, setId]);
    BuiltAppend(cfg, archive, n, [addId]);
    forall m | m in RelayMessages(archive, addId, setId) ensures Built(cfg, Archive(m)) {
    }
  }

  lemma FirstPhaseBuilt(cfg: seq<Node>, n: nat, archive: seq<Id>)
    requires n < |cfg| && cfg[n].TwoPhase? && Built(cfg, archive)
    ensures Built(cfg, archive + [cfg[n].addId]) && RecordBuilt(cfg, Record(n, archive + [cfg[n].addId], []))
  {
    BuiltAppend(cfg, archive, n, [cfg[n].addId]);
  }

  lemma SecondPhaseBuilt(cfg: seq<Node>, r: Record)
    requires RecordBuilt(cfg, r) && cfg[r.owner].TwoPhase?
    ensures Built(cfg, r.archive + [cfg[r.owner].setId])
  {
    var addId, setId := cfg[r.owner].addId, cfg[r.owner].setId;
    var front :| r.archive == front + [addId] && Built(cfg, front);
    BuiltAppend(cfg, front, r.owner, [addId, setId]);
    assert r.archive + [setId] == front + [addId, setId];
  }

  lemma ReactionBuilt(cfg: seq<Node>, records: seq<Record>, template: Msg, n: nat, m: Msg, choice: Choice)
    requires n < |cfg| && Built(cfg, Archive(m)) && Built(cfg, Archive(template)) && forall r | r in records :: RecordBuilt(cfg, r)
    ensures OutBuilt(cfg, React(cfg, records, template, n, m, choice))
  {
    if React(cfg, records, template, n, m, choice) != Reaction(template, None, [], 0) {
      match cfg[n] {
        case Time(id) => BuiltAppend(cfg, Archive(m), n, [id]);
        case Relay(_, _, _) => RelayBuilt(cfg, n, Archive(m));
        case Handler(peer) => assert records[choice.pick] in records;
        case TwoPhase(_, _) =>
          if m.kind.Inform? {
            FirstPhaseBuilt(cfg, n, Archive(m));
          } else {
            assert records[choice.pick] in records;
            SecondPhaseBuilt(cfg, records[choice.pick]);
          }
        case Connector =>
      }
    }
  }

  /** The front end brings no archives. */
  ghost predicate Bare(es: seq<Event>) {
    forall i | 0 <= i < |es| && es[i].Input? :: es[i].msg.archive == None
  }

  lemma StepBuilt(cfg: seq<Node>, w: World, e: Event)
    requires WorldBuilt(cfg, w) && Possible(cfg, w, e) && (e.Input? ==> e.msg.archive == None)
    ensures WorldBuilt(cfg, Step(cfg, w, e))
  {
    match e {
      case Deliver(i, choice) =>
        var d := w.inflight[i];
        assert d in w.inflight && w.templates[d.node] in w.templates;
        Around(w.inflight, i);
        ReactionBuilt(cfg, w.records, w.templates[d.node], d.node, d.msg, choice);
      case Publish(i) =>
        assert w.lists[i] in w.lists && w.templates[w.lists[i].node] in w.templates;
        Around(w.lists, i);
        BroadcastMembers(|cfg|, w.(lists := RemoveAt(w.lists, i)), Held(w.templates, w.lists[i]));
      case Expire(i) =>
        assert w.delay[i] in w.delay;
        BroadcastMembers(|cfg|, w.(delay := RemoveAt(w.delay, i)), [w.delay[i]]);
      case Input(m) =>
        BroadcastMembers(|cfg|, w, [m]);
    }
  }

  lemma {:induction false} RunBuilt(cfg: seq<Node>, w: World, es: seq<Event>, last: World)
    requires WorldBuilt(cfg, w) && Run(cfg, w, es, last) && Bare(es)
    ensures WorldBuilt(cfg, last)
    decreases |es|
  {
    if es != [] {
      StepBuilt(cfg, w, es[0]);
      RunBuilt(cfg, Step(cfg, w, es[0]), es[1..], last);
    }
  }

  /** In every run, whatever the ids, every archive in flight, delayed, stored or in a template is made up of whole
      contributions of back ends; one that a two-phase back end stores ends with its first half. */
  lemma ArchivesAreContributions(cfg: seq<Node>, es: seq<Event>, last: World)
    requires Run(cfg, Start(cfg), es, last) && Bare(es)
    ensures WorldBuilt(cfg, last)
  {
    assert WorldBuilt(cfg, Start(cfg));
    RunBuilt(cfg, Start(cfg), es, last);
  }

  // ---- Without a trap there are no duplicates ----

  ghost predicate RecordClean(cfg: seq<Node>, r: Record) {
    && NoDuplicates(r.archive)
    && (forall m | m in r.relay :: NoDuplicates(Archive(m)))
    && (r.owner < |cfg| && cfg[r.owner].TwoPhase? ==> cfg[r.owner].setId !in r.archive)
  }

  ghost predicate Clean(cfg: seq<Node>, w: World) {
    && (forall d | d in w.inflight :: NoDuplicates(Archive(d.msg)))
    && (forall m | m in w.delay :: NoDuplicates(Archive(m)))
    && (forall t | t in w.templates :: NoDuplicates(Archive(t)))
    && (forall l | l in w.lists && l.handed.Own? :: forall m | m in l.handed.messages :: NoDuplicates(Archive(m)))
    && (forall r | r in w.records :: RecordClean(cfg, r))
  }

  /** What stops a back end from reacting comes with its set_parameter_values id. */
  lemma {:induction false} Guarded(cfg: seq<Node>, archive: seq<Id>, rival: Id, addId: Id, setId: Id)
    requires Built(cfg, archive) && !Trap(cfg, rival, addId, setId) && setId in archive
    ensures rival in archive || addId in archive
    decreases |archive|
  {
    var n: nat, k: nat :|
      n < |cfg| && k < |archive| && archive[k..] in Contributions(cfg, n) && Built(cfg, archive[..k]);
    assert archive == archive[..k] + archive[k..];
    if setId in archive[..k] {
      Guarded(cfg, archive[..k], rival, addId, setId);
    }
  }

  ghost predicate OutClean(cfg: seq<Node>, out: Reaction) {
    && NoDuplicates(Archive(out.template))
    && (out.handed.Some? && out.handed.value.Own? ==> forall m | m in out.handed.value.messages :: NoDuplicates(Archive(m)))
    && (forall r | r in out.stored :: RecordClean(cfg, r))
  }

  lemma AppendClean(archive: seq<Id>, id: Id)
    requires NoDuplicates(archive) && id !in archive
    ensures NoDuplicates(archive + [id])
  {
  }

  lemma RelayClean(cfg: seq<Node>, n: nat, archive: seq<Id>)
    requires n < |cfg| && cfg[n].Relay? && !Unsafe(cfg, n) && Built(cfg, archive) && NoDuplicates(archive)
    requires cfg[n].rival !in archive && cfg[n].addId !in archive
    ensures var addId, setId := cfg[n].addId, cfg[n].setId;
            && NoDuplicates(archive + [addId]) && NoDuplicates(archive + [addId, setId])
            && RecordClean(cfg, Record(n, archive + [addId, setId], RelayMessages(archive, addId, setId)))
  {
    var addId, setId := cfg[n].addId, cfg[n].setId;
    if setId in archive {
      Guarded(cfg, archive, cfg[n].rival, addId, setId);
    }
    AppendClean(archive, addId);
    AppendClean(archive + [addId], setId);
    assert archive + [addId] + [setId] == archive + [addId, setId];
    forall m | m in RelayMessages(archive, addId, setId) ensures NoDuplicates(Archive(m)) {
    }
  }

  lemma ReactionClean(cfg: seq<Node>, records: seq<Record>, template: Msg, n: nat, m: Msg, choice: Choice)
    requires n < |cfg| && !Unsafe(cfg, n) && Built(cfg, Archive(m)) && NoDuplicates(Archive(m)) && NoDuplicates(Archive(template))
    requires forall r | r in records :: RecordClean(cfg, r)
    ensures OutClean(cfg, React(cfg, records, template, n, m, choice))
  {
    if React(cfg, records, template, n, m, choice) != Reaction(template, None, [], 0) {
      match cfg[n] {
        case Time(id) => AppendClean(Archive(m), id);
        case Relay(_, _, _) => RelayClean(cfg, n, Archive(m));
        case Handler(_) => assert records[choice.pick] in records;
        case TwoPhase(addId, setId) =>
          if m.kind.Inform? {
            AppendClean(Archive(m), addId);
          } else {
            assert records[choice.pick] in records;
            AppendClean(records[choice.pick].archive, setId);
          }
        case Connector =>
      }
    }
  }

  lemma StepClean(cfg: seq<Node>, w: World, e: Event)
    requires !Duplicating(cfg) && WorldBuilt(cfg, w) && Clean(cfg, w)
    requires Possible(cfg, w, e) && (e.Input? ==> e.msg.archive == None)
    ensures Clean(cfg, Step(cfg, w, e))
  {
    match e {
      case Deliver(i, choice) =>
        var d := w.inflight[i];
        assert d in w.inflight && w.templates[d.node] in w.templates;
        Around(w.inflight, i);
        ReactionClean(cfg, w.records, w.templates[d.node], d.node, d.msg, choice);
      case Publish(i) =>
        assert w.lists[i] in w.lists && w.templates[w.lists[i].node] in w.templates;
        Around(w.lists, i);
        BroadcastMembers(|cfg|, w.(lists := RemoveAt(w.lists, i)), Held(w.templates, w.lists[i]));
      case Expire(i) =>
        assert w.delay[i] in w.delay;
        BroadcastMembers(|cfg|, w.(delay := RemoveAt(w.delay, i)), [w.delay[i]]);
      case Input(m) =>
        BroadcastMembers(|cfg|, w, [m]);
    }
  }

  lemma {:induction false} RunClean(cfg: seq<Node>, w: World, es: seq<Event>, last: World)
    requires !Duplicating(cfg) && WorldBuilt(cfg, w) && Clean(cfg, w) && Run(cfg, w, es, last) && Bare(es)
    ensures Clean(cfg, last)
    decreases |es|
  {
    if es != [] {
      StepBuilt(cfg, w, es[0]);
      StepClean(cfg, w, es[0]);
      RunClean(cfg, Step(cfg, w, es[0]), es[1..], last);
    }
  }

  // ---- With a trap there is a run that duplicates ----

  ghost predicate Reached(cfg: seq<Node>, w: World) {
    exists es :: Run(cfg, Start(cfg), es, w) && Bare(es)
  }

  lemma ReachedStep(cfg: seq<Node>, w: World, e: Event)
    requires Reached(cfg, w) && Possible(cfg, w, e) && (e.Input? ==> e.msg.archive == None)
    ensures Reached(cfg, Step(cfg, w, e))
  {
    var es :| Run(cfg, Start(cfg), es, w) && Bare(es);
    RunAppend(cfg, Start(cfg), es, w, e);
  }

  ghost predicate ToAll(cfg: seq<Node>, w: World, m: Msg) {
    forall n: nat | n < |cfg| :: Delivery(n, m) in w.inflight
  }

  lemma {:induction false} BroadcastToAll(cfg: seq<Node>, w: World, ms: seq<Msg>)
    ensures forall d | d in w.inflight :: d in Broadcast(|cfg|, w, ms).inflight
    ensures forall m | m in ms :: ToAll(cfg, Broadcast(|cfg|, w, ms), m)
    decreases |ms|
  {
    if ms != [] {
      var next := w.(inflight := w.inflight + Copies(|cfg|, ms[0]), broadcasts := w.broadcasts + 1);
      BroadcastToAll(cfg, next, ms[1..]);
      forall n: nat | n < |cfg| ensures Delivery(n, ms[0]) in next.inflight {
        assert Copies(|cfg|, ms[0])[n] == Delivery(n, ms[0]);
      }
    }
  }

  /** The front end's message gets to every back end. */
  lemma SentToAll(cfg: seq<Node>, w: World, m: Msg) returns (next: World)
    requires Reached(cfg, w) && |w.templates| == |cfg| && m.archive == None
    ensures Reached(cfg, next) && ToAll(cfg, next, m)
    ensures next.records == w.records && next.templates == w.templates && next.lists == w.lists
  {
    next := Step(cfg, w, Input(m));
    ReachedStep(cfg, w, Input(m));
    BroadcastToAll(cfg, w, [m]);
    BroadcastMembers(|cfg|, w, [m]);
  }

  const GOOD := Choice(true, true, 0, true, false)

  /** A back end gets a message that is on its way to it. */
  lemma ReactsNow(cfg: seq<Node>, w: World, n: nat, m: Msg) returns (next: World)
    requires Reached(cfg, w) && n < |cfg| == |w.templates| && ToAll(cfg, w, m)
    ensures Reached(cfg, next)
    ensures var r := React(cfg, w.records, w.templates[n], n, m, GOOD);
            next.records == w.records + r.stored && next.templates == w.templates[n := r.template] && next.lists == w.lists + NewLists(n, r)
  {
    assert Delivery(n, m) in w.inflight;
    var i :| 0 <= i < |w.inflight| && w.inflight[i] == Delivery(n, m);
    next := Step(cfg, w, Deliver(i, GOOD));
    ReachedStep(cfg, w, Deliver(i, GOOD));
  }

  /** A list that waits with the template of a back end gets its turn. */
  lemma GoesOut(cfg: seq<Node>, w: World, n: nat) returns (next: World)
    requires Reached(cfg, w) && n < |cfg| == |w.templates| && HasPrimary(cfg[n]) && Waiting(n, Template) in w.lists
    ensures Reached(cfg, next) && ToAll(cfg, next, w.templates[n])
    ensures next.records == w.records && next.templates == w.templates
  {
    var i :| 0 <= i < |w.lists| && w.lists[i] == Waiting(n, Template);
    next := Step(cfg, w, Publish(i));
    ReachedStep(cfg, w, Publish(i));
    var rest := w.(lists := RemoveAt(w.lists, i));
    BroadcastToAll(cfg, rest, [w.templates[n]]);
    BroadcastMembers(|cfg|, rest, [w.templates[n]]);
  }

  /** Both, one after the other. */
  lemma ReactsToAll(cfg: seq<Node>, w: World, n: nat, m: Msg) returns (next: World)
    requires Reached(cfg, w) && n < |cfg| == |w.templates| && ToAll(cfg, w, m) && HasPrimary(cfg[n])
    requires React(cfg, w.records, w.templates[n], n, m, GOOD).handed == Some(Template)
    ensures Reached(cfg, next)
    ensures var r := React(cfg, w.records, w.templates[n], n, m, GOOD);
            ToAll(cfg, next, r.template) && next.records == w.records + r.stored && next.templates == w.templates[n := r.template]
  {
    var reacted := ReactsNow(cfg, w, n, m);
    assert Waiting(n, Template) == NewLists(n, React(cfg, w.records, w.templates[n], n, m, GOOD))[0];
    next := GoesOut(cfg, reacted, n);
  }

  const FIRST_INFORM := Msg(Inform, None, true, None)
  const OTHER_INFORM := Msg(Inform, None, false, None)
  const RESPONSE := Msg(AddObjectResponse(true), None, true, None)

  lemma StartReached(cfg: seq<Node>)
    ensures Reached(cfg, Start(cfg))
  {
    assert Run(cfg, Start(cfg), [], Start(cfg)) && Bare([]);
  }

  /** The first inform of a factory device gets to every back end. */
  lemma FirstInform(cfg: seq<Node>) returns (w: World)
    ensures Reached(cfg, w) && ToAll(cfg, w, FIRST_INFORM) && w.records == [] && w.templates == Start(cfg).templates
  {
    StartReached(cfg);
    w := SentToAll(cfg, Start(cfg), FIRST_INFORM);
  }

  /** A two-phase back end completes its two phases. */
  lemma SecondPhase(cfg: seq<Node>, n: nat) returns (w: World)
    requires n < |cfg| && cfg[n].TwoPhase?
    ensures Reached(cfg, w) && |w.templates| == |cfg| && ToAll(cfg, w, InformWith([cfg[n].addId, cfg[n].setId]))
  {
    var addId, setId := cfg[n].addId, cfg[n].setId;
    var informed := FirstInform(cfg);
    var first := ReactsToAll(cfg, informed, n, FIRST_INFORM);
    assert [] + [addId] == [addId] && first.records == [Record(n, [addId], [])];
    var answered := SentToAll(cfg, first, RESPONSE);
    w := ReactsToAll(cfg, answered, n, RESPONSE);
    assert [addId] + [setId] == [addId, setId];
  }

  /** While a list waits, a device with its own credentials sends an inform: the first id goes out alone. */
  lemma FirstIdAlone(cfg: seq<Node>, n: nat) returns (w: World)
    requires n < |cfg| && cfg[n].Relay?
    ensures Reached(cfg, w) && |w.templates| == |cfg| && ToAll(cfg, w, InformWith([cfg[n].addId]))
  {
    var addId := cfg[n].addId;
    var informed := FirstInform(cfg);
    var waiting := ReactsNow(cfg, informed, n, FIRST_INFORM);
    assert Waiting(n, Template) == NewLists(n, React(cfg, informed.records, informed.templates[n], n, FIRST_INFORM, GOOD))[0];
    var other := SentToAll(cfg, waiting, OTHER_INFORM);
    var written := ReactsNow(cfg, other, n, OTHER_INFORM);
    assert [] + [addId] == [addId];
    w := GoesOut(cfg, written, n);
  }

  /** Every contribution gets to every back end as an archive of its own. */
  lemma Contributed(cfg: seq<Node>, n: nat, c: seq<Id>) returns (w: World)
    requires n < |cfg| && c in Contributions(cfg, n)
    ensures Reached(cfg, w) && |w.templates| == |cfg| && ToAll(cfg, w, InformWith(c))
  {
    assert [] + c == c;
    if cfg[n].TwoPhase? && c == [cfg[n].addId, cfg[n].setId] {
      w := SecondPhase(cfg, n);
    } else if cfg[n].Relay? && c == [cfg[n].addId] {
      w := FirstIdAlone(cfg, n);
    } else {
      var informed := FirstInform(cfg);
      w := ReactsToAll(cfg, informed, n, FIRST_INFORM);
      assert React(cfg, [], BLANK, n, FIRST_INFORM, GOOD).template == InformWith(c);
    }
  }

  ghost predicate HasDuplicate(w: World) {
    exists d :: d in w.inflight && !NoDuplicates(Archive(d.msg))
  }

  lemma TwiceIn(cfg: seq<Node>, w: World, archive: seq<Id>, i: nat, j: nat)
    requires |cfg| > 0 && ToAll(cfg, w, InformWith(archive))
    requires i < j < |archive| && archive[i] == archive[j]
    ensures HasDuplicate(w)
  {
    assert Delivery(0, InformWith(archive)) in w.inflight;
    assert !NoDuplicates(Archive(Delivery(0, InformWith(archive)).msg));
  }

  lemma DuplicatingRun(cfg: seq<Node>, n: nat) returns (w: World)
    requires n < |cfg| && Unsafe(cfg, n)
    ensures Reached(cfg, w) && HasDuplicate(w)
  {
    var addId, setId := cfg[n].addId, cfg[n].setId;
    if addId == setId {
      w := Contributed(cfg, n, [addId, setId]);
      TwiceIn(cfg, w, [addId, setId], 0, 1);
    } else {
      var rival := cfg[n].rival;
      var k :| 0 <= k < |cfg| && exists c | c in Contributions(cfg, k) :: setId in c && rival !in c && addId !in c;
      var c :| c in Contributions(cfg, k) && setId in c && rival !in c && addId !in c;
      var before := Contributed(cfg, k, c);
      w := ReactsToAll(cfg, before, n, InformWith(c));
      var i :| 0 <= i < |c| && c[i] == setId;
      TwiceIn(cfg, w, c + [addId, setId], i, |c| + 1);
    }
  }

  /** Some run leaves an id twice in an archive in flight exactly when some back end uses one id for
      both its phases, or can meet its set_parameter_values id without anything that stops it. */
  lemma DuplicatesIff(cfg: seq<Node>)
    ensures (exists w :: Reached(cfg, w) && HasDuplicate(w)) <==> Duplicating(cfg)
  {
    if Duplicating(cfg) {
      var n :| 0 <= n < |cfg| && Unsafe(cfg, n);
      var w := DuplicatingRun(cfg, n);
    } else {
      forall w | Reached(cfg, w) ensures !HasDuplicate(w) {
        var es :| Run(cfg, Start(cfg), es, w) && Bare(es);
        RunClean(cfg, Start(cfg), es, w);
      }
    }
  }

  /** Without such a back end nothing stored or delayed holds a duplicate either. */
  lemma NeverDuplicated(cfg: seq<Node>, es: seq<Event>, last: World)
    requires !Duplicating(cfg) && Run(cfg, Start(cfg), es, last) && Bare(es)
    ensures Clean(cfg, last)
  {
    RunClean(cfg, Start(cfg), es, last);
  }

  // ---- The second id without the first ----

  /** Some back end contributes the set_parameter_values id without the add_object id. */
  predicate Splits(cfg: seq<Node>, addId: Id, setId: Id) {
    exists k | 0 <= k < |cfg| :: exists c | c in Contributions(cfg, k) :: setId in c && addId !in c
  }

  predicate HasPhases(node: Node) {
    node.Relay? || node.TwoPhase?
  }

  ghost predicate Halved(cfg: seq<Node>, w: World) {
    exists d, n: nat :: d in w.inflight && n < |cfg| && HasPhases(cfg[n]) && cfg[n].setId in Archive(d.msg) && cfg[n].addId !in Archive(d.msg)
  }

  lemma {:induction false} Together(cfg: seq<Node>, archive: seq<Id>, addId: Id, setId: Id)
    requires Built(cfg, archive) && !Splits(cfg, addId, setId) && setId in archive
    ensures addId in archive
    decreases |archive|
  {
    var n: nat, k: nat :|
      n < |cfg| && k < |archive| && archive[k..] in Contributions(cfg, n) && Built(cfg, archive[..k]);
    assert archive == archive[..k] + archive[k..];
    if setId in archive[..k] {
      Together(cfg, archive[..k], addId, setId);
    }
  }

  lemma HalvingRun(cfg: seq<Node>, n: nat) returns (w: World)
    requires n < |cfg| && HasPhases(cfg[n]) && Splits(cfg, cfg[n].addId, cfg[n].setId)
    ensures Reached(cfg, w) && Halved(cfg, w)
  {
    var addId, setId := cfg[n].addId, cfg[n].setId;
    var k :| 0 <= k < |cfg| && exists c | c in Contributions(cfg, k) :: setId in c && addId !in c;
    var c :| c in Contributions(cfg, k) && setId in c && addId !in c;
    w := Contributed(cfg, k, c);
    assert Delivery(0, InformWith(c)) in w.inflight;
  }

  /** Some run leaves a set_parameter_values id without its add_object id in an archive in flight exactly
      when some back end contributes it so. */
  lemma HalvedIff(cfg: seq<Node>)
    ensures (exists w :: Reached(cfg, w) && Halved(cfg, w)) <==>
            exists n: nat :: n < |cfg| && HasPhases(cfg[n]) && Splits(cfg, cfg[n].addId, cfg[n].setId)
  {
    if n: nat :| n < |cfg| && HasPhases(cfg[n]) && Splits(cfg, cfg[n].addId, cfg[n].setId) {
      var w := HalvingRun(cfg, n);
    } else {
      forall w | Reached(cfg, w) ensures !Halved(cfg, w) {
        var es :| Run(cfg, Start(cfg), es, w) && Bare(es);
        ArchivesAreContributions(cfg, es, w);
        forall d, n: nat | d in w.inflight && n < |cfg| && HasPhases(cfg[n]) && cfg[n].setId in Archive(d.msg)
          ensures cfg[n].addId in Archive(d.msg)
        {
          Together(cfg, Archive(d.msg), cfg[n].addId, cfg[n].setId);
        }
      }
    }
  }

  const SHIPPED := [
    Time("time_provisioning_1"),
    Relay("time_provisioning_1", "wifi_provisioning_1_add_object", "wifi_provisioning_1_set_parameter_values"),
    Handler(1),
    TwoPhase("wifi_provisioning_2_add_object", "wifi_provisioning_2_set_parameter_values"),
    Connector]

  /** The five examples, with the ids they are shipped with, can run side by side. */
  lemma ShippedIds()
    ensures !Duplicating(SHIPPED)
  {
    var rival, addId, setId := SHIPPED[1].rival, SHIPPED[1].addId, SHIPPED[1].setId;
    assert |rival| == 19 && |addId| == |SHIPPED[3].addId| == 30 && |setId| == |SHIPPED[3].setId| == 40;
    assert setId[18] == '1' && SHIPPED[3].setId[18] == '2';
    forall k, c | 0 <= k < |SHIPPED| && c in Contributions(SHIPPED, k) && setId in c ensures addId in c {
    }
  }

  /** Side by side, they never leave a duplicate. */
  lemma ShippedClean(es: seq<Event>, last: World)
    requires Run(SHIPPED, Start(SHIPPED), es, last) && Bare(es)
    ensures Clean(SHIPPED, last)
  {
    ShippedIds();
    NeverDuplicated(SHIPPED, es, last);
  }
}
