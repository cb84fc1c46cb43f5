/** What every archive in the broadcast protocol looks like, in every run. */
module FanoutArchive {
  import opened Wrappers
  import opened Fanout
  import opened FanoutAccounts

  /** An archive is free of duplicates, and whoever has left its set_parameter_values id in it has
      left its add_object id as well. */
  ghost predicate ArchiveOk(cfg: seq<Node>, archive: seq<Id>) {
    && NoDuplicates(archive)
    && (forall n | 0 <= n < |cfg| && (cfg[n].Relay? || cfg[n].TwoPhase?) && cfg[n].setId in archive :: cfg[n].addId in archive)
  }

  ghost predicate MsgOk(cfg: seq<Node>, m: Msg) {
    ArchiveOk(cfg, Archive(m))
  }

  /** What a two-phase back end stores is halfway: its first phase is in, its second is not. */
  ghost predicate RecordOk(cfg: seq<Node>, r: Record) {
    && ArchiveOk(cfg, r.archive)
    && (forall m | m in r.relay :: MsgOk(cfg, m))
    && (r.owner < |cfg| && cfg[r.owner].TwoPhase? ==> cfg[r.owner].addId in r.archive && cfg[r.owner].setId !in r.archive)
  }

  ghost predicate WorldOk(cfg: seq<Node>, w: World) {
    && (forall d | d in w.inflight :: MsgOk(cfg, d.msg))
    && (forall m | m in w.delay :: MsgOk(cfg, m))
    && (forall t | t in w.templates :: MsgOk(cfg, t))
    && (forall l | l in w.lists && l.handed.Own? :: forall m | m in l.handed.messages :: MsgOk(cfg, m))
    && (forall r | r in w.records :: RecordOk(cfg, r))
  }

  lemma AppendPrimary(cfg: seq<Node>, archive: seq<Id>, n: nat)
    requires DistinctIds(cfg) && ArchiveOk(cfg, archive)
    requires n < |cfg| && HasPrimary(cfg[n]) && Primary(cfg[n]) !in archive
    ensures ArchiveOk(cfg, archive + [Primary(cfg[n])])
  {
    var id := Primary(cfg[n]);
    forall k | 0 <= k < |cfg| && (cfg[k].Relay? || cfg[k].TwoPhase?) && cfg[k].setId in archive + [id]
      ensures cfg[k].addId in archive + [id]
    {
      assert Ids(cfg[k])[1] == cfg[k].setId && Ids(cfg[n])[0] == id;
      assert cfg[k].setId in Ids(cfg[k]) && id in Ids(cfg[n]);
      assert cfg[k].setId != id;
    }
  }

  lemma AppendSet(cfg: seq<Node>, archive: seq<Id>, n: nat)
    requires DistinctIds(cfg) && ArchiveOk(cfg, archive)
    requires n < |cfg| && (cfg[n].Relay? || cfg[n].TwoPhase?)
    requires cfg[n].addId in archive && cfg[n].setId !in archive
    ensures ArchiveOk(cfg, archive + [cfg[n].setId])
  {
    var id := cfg[n].setId;
    forall k | 0 <= k < |cfg| && (cfg[k].Relay? || cfg[k].TwoPhase?) && cfg[k].setId in archive + [id]
      ensures cfg[k].addId in archive + [id]
    {
      if k != n {
        assert Ids(cfg[n])[1] == id && Ids(cfg[k])[1] == cfg[k].setId;
        assert id in Ids(cfg[n]) && cfg[k].setId in Ids(cfg[k]);
        assert cfg[k].setId != id;
      }
    }
  }

  ghost predicate OutOk(cfg: seq<Node>, r: Reaction) {
    && MsgOk(cfg, r.template)
    && (r.handed.Some? && r.handed.value.Own? ==> forall m | m in r.handed.value.messages :: MsgOk(cfg, m))
    && (forall d | d in r.stored :: RecordOk(cfg, d))
  }

  lemma RelayArchives(cfg: seq<Node>, archive: seq<Id>, n: nat)
    requires DistinctIds(cfg) && ArchiveOk(cfg, archive)
    requires n < |cfg| && cfg[n].Relay? && cfg[n].addId !in archive
    ensures var addId, setId := cfg[n].addId, cfg[n].setId;
            && ArchiveOk(cfg, archive + [addId]) && ArchiveOk(cfg, archive + [addId, setId])
            && RecordOk(cfg, Record(n, archive + [addId, setId], RelayMessages(archive, addId, setId)))
  {
    AppendPrimary(cfg, archive, n);
    assert Ids(cfg[n])[0] != Ids(cfg[n])[1];
    AppendSet(cfg, archive + [cfg[n].addId], n);
    assert archive + [cfg[n].addId] + [cfg[n].setId] == archive + [cfg[n].addId, cfg[n].setId];
  }

  lemma TwoPhaseRecord(cfg: seq<Node>, archive: seq<Id>, n: nat)
    requires DistinctIds(cfg) && ArchiveOk(cfg, archive)
    requires n < |cfg| && cfg[n].TwoPhase? && cfg[n].addId !in archive
    ensures ArchiveOk(cfg, archive + [cfg[n].addId]) && RecordOk(cfg, Record(n, archive + [cfg[n].addId], []))
  {
    AppendPrimary(cfg, archive, n);
    assert Ids(cfg[n])[0] != Ids(cfg[n])[1];
  }

  lemma ReactionOk(cfg: seq<Node>, records: seq<Record>, template: Msg, n: nat, m: Msg, choice: Choice)
    requires DistinctIds(cfg) && n < |cfg| && MsgOk(cfg, m) && MsgOk(cfg, template)
    requires forall r | r in records :: RecordOk(cfg, r)
    ensures OutOk(cfg, React(cfg, records, template, n, m, choice))
  {
    if React(cfg, records, template, n, m, choice) != Reaction(template, None, [], 0) {
      match cfg[n] {
        case Time(id) => AppendPrimary(cfg, Archive(m), n);
        case Relay(_, _, _) => RelayArchives(cfg, Archive(m), n);
        case Handler(_) => assert records[choice.pick] in records;
        case TwoPhase(addId, setId) =>
          if m.kind.Inform? {
            TwoPhaseRecord(cfg, Archive(m), n);
          } else {
            assert records[choice.pick] in records;
            AppendSet(cfg, records[choice.pick].archive, n);
          }
        case Connector =>
      }
    }
  }

  /** Front-end messages bring no archive of their own, or a well-formed one. */
  ghost predicate InputsOk(cfg: seq<Node>, es: seq<Event>) {
    forall i | 0 <= i < |es| && es[i].Input? :: MsgOk(cfg, es[i].msg)
  }

  lemma StepOk(cfg: seq<Node>, w: World, e: Event)
    requires DistinctIds(cfg) && WorldOk(cfg, w) && Possible(cfg, w, e)
    requires e.Input? ==> MsgOk(cfg, e.msg)
    ensures WorldOk(cfg, Step(cfg, w, e))
  {
    match e {
      case Deliver(i, choice) =>
        var d := w.inflight[i];
        assert d in w.inflight && w.templates[d.node] in w.templates;
        Around(w.inflight, i);
        ReactionOk(cfg, w.records, w.templates[d.node], d.node, d.msg, choice);
      case Publish(i) =>
        assert w.lists[i] in w.lists && w.templates[w.lists[i].node] in w.templates;
        Around(w.lists, i);
        BroadcastMembers(|cfg|, w.(lists := RemoveAt(w.lists, i)), Held(w.templates, w.lists[i]));
      case Expire(i) =>
        assert w.delay[i] in w.delay;
        BroadcastMembers(|cfg|, w.(delay := RemoveAt(w.delay, i)), [w.delay[i]]);
      case Input(m) =>
        BroadcastMembers(|cfg|, w, [m]);
    }
  }

  lemma {:induction false} RunOk(cfg: seq<Node>, w: World, es: seq<Event>, last: World)
    requires DistinctIds(cfg) && WorldOk(cfg, w) && Run(cfg, w, es, last) && InputsOk(cfg, es)
    ensures WorldOk(cfg, last)
    decreases |es|
  {
    if es != [] {
      StepOk(cfg, w, es[0]);
      RunOk(cfg, Step(cfg, w, es[0]), es[1..], last);
    }
  }

  /** In every run from an empty broker, with any number of back ends and devices, every archive in
      flight, delayed, stored or in a template is well formed. */
  lemma ArchivesWellFormed(cfg: seq<Node>, es: seq<Event>, last: World)
    requires DistinctIds(cfg) && Run(cfg, Start(cfg), es, last)
    requires forall i | 0 <= i < |es| && es[i].Input? :: es[i].msg.archive == None
    ensures WorldOk(cfg, last)
  {
    RunOk(cfg, Start(cfg), es, last);
  }

  /** What a reaction writes into a template extends the archive of the message, or of the stored document
      it is made from, and holds the id of the back end; a retry keeps its archive; and what is stored
      extends the archive of the message. */
  lemma ReactionExtends(cfg: seq<Node>, records: seq<Record>, template: Msg, n: nat, m: Msg, choice: Choice)
    requires n < |cfg| && forall r | r in records :: RecordOk(cfg, r)
    ensures var out := React(cfg, records, template, n, m, choice);
            && (out.template != template && HasPrimary(cfg[n]) ==>
                  && Primary(cfg[n]) in Archive(out.template)
                  && (Archive(m) < Archive(out.template)
                      || (choice.pick < |records| && records[choice.pick].archive < Archive(out.template))))
            && (out.template != template && !HasPrimary(cfg[n]) ==> out.template.archive == m.archive)
            && (forall r | r in out.stored :: Archive(m) < r.archive && (forall b | b in r.relay :: Archive(m) < Archive(b)))
  {
    if cfg[n].TwoPhase? && choice.pick < |records| {
      assert records[choice.pick] in records;
    }
  }
}
