/** Recovery requests: in every run they ask for what follows the cursor that their
    sender had when it asked, and the answer lists its sender's own events in order. */
module CollabAsks {
  import opened Basics
  import opened CollabTypes
  import opened CollabReducer
  import opened CollabInbox
  import opened CollabOutbox
  import opened CollabInvariant
  import opened CollabSteps
  import opened CollabIncoming
  import opened CollabBudget
  import opened CollabConfirmed
  import CollabAgreement

  /** Every recovery request of `next` was among `ops`. */
  ghost predicate NoAsk(ops: map<OpId, Operation>, next: map<OpId, Operation>) {
    forall id :: id in next && next[id].kind.SyncRequest? ==> AskedBefore(ops, id, next[id].payload)
  }

  predicate AskedBefore(ops: map<OpId, Operation>, id: OpId, payload: Payload) {
    id in ops && ops[id].kind.SyncRequest? && ops[id].payload == payload
  }

  /** A recovery request of `f` that was not among those of `e` asks from the cursor. */
  ghost predicate AsksFromCursor(e: Endpoint, f: Endpoint) {
    forall id :: id in f.ops && f.ops[id].kind.SyncRequest? ==>
      AskedBefore(e.ops, id, f.ops[id].payload) || f.ops[id].payload == AfterBody(f.core.c.inSeq)
  }

  lemma QueueNoAsk(e: Endpoint, kind: Kind, about: Option<EventId>, now: Instant)
    requires !kind.SyncRequest? && Queue(e, kind, about, now).Some?
    ensures NoAsk(e.ops, Queue(e, kind, about, now).value.ops)
  {
  }

  lemma QueueAsks(e: Endpoint, now: Instant)
    requires Queue(e, SyncRequest, None, now).Some?
    ensures AsksFromCursor(e, Queue(e, SyncRequest, None, now).value)
    ensures Queue(e, SyncRequest, None, now).value.core == e.core
  {
  }

  lemma ReplyNoAsk(e: Endpoint, before: Collab, packet: Packet, now: Instant, outgoing: bool)
    requires Reply(e, before, packet, now, outgoing).Go?
    ensures NoAsk(e.ops, Reply(e, before, packet, now, outgoing).e.ops)
  {
    var kind := ReplyTo(before, e.core.c, packet, outgoing);
    if kind.Some? {
      QueueNoAsk(e, kind.value, None, now);
    }
  }

  lemma NoAskTrans(a: map<OpId, Operation>, b: map<OpId, Operation>, c: map<OpId, Operation>)
    requires NoAsk(a, b) && NoAsk(b, c)
    ensures NoAsk(a, c)
  {
    forall id | id in c && c[id].kind.SyncRequest? ensures AskedBefore(a, id, c[id].payload) {
      assert AskedBefore(b, id, c[id].payload);
    }
  }

  lemma StepNoAsk(e: Endpoint, now: Instant)
    requires !DrainStep(e, now).Abort?
    ensures NoAsk(e.ops, DrainStep(e, now).e.ops)
  {
    match NextTurn(e.core, e.reviews, now)
    case Take(key, core, reason) =>
      var packet := e.core.events[key].packet;
      var e1 := e.(core := core);
      if reason.WasApplied? {
        var e2 := e1.(view := ViewAfter(e.view, e.core, core, packet, false));
        ReplyNoAsk(e2, e.core.c, packet, now, false);
        var e3 := Reply(e2, e.core.c, packet, now, false).e;
        if !Unreceipted(packet.kind) {
          QueueNoAsk(e3, Receipt, Some(packet.eventId), now);
          NoAskTrans(e.ops, e3.ops, DrainStep(e, now).e.ops);
        }
      } else if reason.Expired? || (!reason.ReviewDeclined? && !Unreceipted(packet.kind)) {
        QueueNoAsk(e1, Receipt, Some(packet.eventId), now);
      }
    case _ =>
  }

  lemma LoopNoAsk(e: Endpoint, now: Instant, f: Endpoint)
    requires DrainLoop(e, now, MAX_EVENTS) == Some(f)
    ensures NoAsk(e.ops, f.ops)
  {
    var step := StepAt(now);
    var rel := (x: Endpoint, y: Endpoint) => NoAsk(x.ops, y.ops);
    forall x | !step(x).Abort? ensures rel(x, step(x).e) {
      StepNoAsk(x, now);
    }
    forall x, y, z | rel(x, y) && rel(y, z) ensures rel(x, z) {
      NoAskTrans(x.ops, y.ops, z.ops);
    }
    LoopInduction(e, step, MAX_EVENTS, f, (x: Endpoint) => true, rel);
  }

  lemma AsksAfter(e: Endpoint, e1: Endpoint, f: Endpoint)
    requires NoAsk(e.ops, e1.ops) && AsksFromCursor(e1, f)
    ensures AsksFromCursor(e, f)
  {
    forall id | id in f.ops && f.ops[id].kind.SyncRequest?
      ensures AskedBefore(e.ops, id, f.ops[id].payload) || f.ops[id].payload == AfterBody(f.core.c.inSeq)
    {
      if AskedBefore(e1.ops, id, f.ops[id].payload) {
        assert AskedBefore(e.ops, id, e1.ops[id].payload);
      }
    }
  }

  lemma DrainAsks(e: Endpoint, now: Instant)
    requires Drain(e, now).Some?
    ensures AsksFromCursor(e, Drain(e, now).value)
  {
    var e1 := DrainLoop(e, now, MAX_EVENTS).value;
    LoopNoAsk(e, now, e1);
    if HasGap(e1.core) && !(e1.view.waiting.PeerReview? && !SafeContent(e1)) && !e1.core.c.closure.Cancelled? {
      QueueAsks(e1.(view := View(Reconciling, MissingEvent)), now);
    }
    AsksAfter(e, e1, Drain(e, now).value);
  }

  lemma ApplyNoAsk(e: Endpoint, p: Packet, now: Instant, outgoing: bool)
    requires Apply(e, p, now, outgoing).Done?
    ensures NoAsk(e.ops, Apply(e, p, now, outgoing).value.ops)
  {
    var core := ApplyCore(e.core, p, now, outgoing).value;
    ReplyNoAsk(e.(core := core, view := ViewAfter(e.view, e.core, core, p, outgoing)), e.core.c, p, now, outgoing);
  }

  lemma IngestAsks(e: Endpoint, packet: Packet, now: Instant)
    requires IngestRecord(e, packet, now).Some?
    ensures AsksFromCursor(e, IngestRecord(e, packet, now).value)
  {
    var e1 := IngestUnfolds(e, packet, now);
    BoundNoAsk(e, packet, now);
    DrainAsks(e1, now);
    AsksAfter(e, e1, IngestRecord(e, packet, now).value);
  }

  lemma BoundNoAsk(e: Endpoint, p: Packet, now: Instant)
    requires IngestBound(e, p, now).Done?
    ensures NoAsk(e.ops, IngestBound(e, p, now).value.ops)
  {
    if KeyOf(p) !in e.core.events {
      var e1 := e.(core := Admit(e.core, p, now).value);
      if IsSync(p.kind) && Apply(e1, p, now, false).Done? {
        ApplyNoAsk(e1, p, now, false);
      }
    }
  }

  lemma DeliveredNoAsk(ops: map<OpId, Operation>, g: Endpoint, id: OpId, stored: bool)
    requires NoAsk(ops, g.ops)
    ensures NoAsk(ops, Delivered(g, id, stored).ops)
  {
  }

  lemma SubmitNoAsk(e: Endpoint, id: OpId, stored: bool, connected: bool, now: Instant)
    requires Valid(e) && Submit(e, id, stored, connected, now).Some?
    ensures NoAsk(e.ops, Submit(e, id, stored, connected, now).value.ops)
  {
    var p := SubmitUnfolds(e, id, stored, connected, now);
    if e.core.events[KeyOf(p)].status.Reserved? {
      ApplyNoAsk(e, p, now, true);
      DeliveredNoAsk(e.ops, SetStatus(Apply(e, p, now, true).value, KeyOf(p), Status.Applied), id, stored);
    } else {
      DeliveredNoAsk(e.ops, e, id, stored);
    }
  }

  lemma ReserveAsks(e: Endpoint, id: OpId, verdict: Verdict, connected: bool, now: Instant)
    requires Valid(e) && Reserve(e, id, verdict, connected, now).Some?
    ensures AsksFromCursor(e, Reserve(e, id, verdict, connected, now).value)
  {
    var p := ReserveUnfolds(e, id, verdict, connected, now);
  }

  lemma ReceiveAsks(e: Endpoint, a: Arrival)
    ensures AsksFromCursor(e, Receive(e, a))
  {
    match a
    case Arrives(packet, now) =>
      if IngestRecord(e, packet, now).Some? {
        IngestAsks(e, packet, now);
      }
    case Decides(packet, decision, now) =>
      if DecideReview(e, packet, decision, now).Some? {
        DrainAsks(e.(reviews := e.reviews[packet := decision]), now);
      }
  }

  lemma PrepareAsks(e: Endpoint, tag: nat, kind: Kind, request: Request, verdict: Verdict, now: Instant)
    requires Prepare(e, tag, kind, request, verdict, now).Some?
    ensures AsksFromCursor(e, Prepare(e, tag, kind, request, verdict, now).value)
  {
    var op := PreparedOperation(e, tag, kind, request, verdict, now);
  }

  lemma DoAsks(e: Endpoint, d: Deed)
    requires Valid(e)
    ensures AsksFromCursor(e, Do(e, d))
  {
    match d
    case Prepares(tag, kind, request, verdict, now) =>
      if Prepare(e, tag, kind, request, verdict, now).Some? {
        PrepareAsks(e, tag, kind, request, verdict, now);
      }
    case ReservesPacket(id, verdict, connected, now) =>
      if Reserve(e, id, verdict, connected, now).Some? {
        ReserveAsks(e, id, verdict, connected, now);
      }
    case Submits(id, stored, connected, now) =>
      if Submit(e, id, stored, connected, now).Some? {
        SubmitNoAsk(e, id, stored, connected, now);
      }
    case Receives(arrival) => ReceiveAsks(e, arrival);
    case _ => PlainAsks(e, d);
  }

  lemma PlainAsks(e: Endpoint, d: Deed)
    requires d.Confirms? || d.Revokes? || d.Blocks? || d.OtherAction? || d.Activates?
    ensures AsksFromCursor(e, Do(e, d))
  {
  }

  // ---- Whole lives and runs ----

  lemma {:induction false} AskedAt(states: seq<Endpoint>, deeds: seq<Deed>, id: OpId) returns (i: nat)
    requires Trace(states, deeds) && (forall j :: j in states[0].ops ==> !states[0].ops[j].kind.SyncRequest?)
    requires id in states[|deeds|].ops && states[|deeds|].ops[id].kind.SyncRequest?
    ensures i < |states| && states[|deeds|].ops[id].payload == AfterBody(states[i].core.c.inSeq)
    decreases |deeds|
  {
    var n := |deeds| - 1;
    TraceCut(states, deeds);
    assert Follows(states[n], deeds[n], states[n+1]);
    DoAsks(states[n], deeds[n]);
    if AskedBefore(states[n].ops, id, states[n+1].ops[id].payload) {
      i := AskedAt(states[..n+1], deeds[..n], id);
    } else {
      i := n + 1;
    }
  }

  /** The packet of a recovery request asks from the cursor of an earlier moment. */
  lemma SentAskedAt(states: seq<Endpoint>, deeds: seq<Deed>, k: Key) returns (i: nat)
    requires Trace(states, deeds) && (forall j :: j in states[0].ops ==> !states[0].ops[j].kind.SyncRequest?)
    requires var core := states[|deeds|].core;
      k in core.events && core.events[k].outgoing && core.events[k].packet.kind.SyncRequest?
    ensures i < |states| && states[|deeds|].core.events[k].packet.payload == AfterBody(states[i].core.c.inSeq)
  {
    OpOf(states[|deeds|], k);
    i := AskedAt(states, deeds, k.eventId.op);
  }

  /** In every run, a recovery request that a party sends asks for what follows the
      incoming cursor that it had itself at some moment of the run. */
  lemma AsksOwnCursor(pair: CollabAgreement.Pair, actions: seq<CollabAgreement.Action>, side: CollabAgreement.Side, k: Key)
    returns (i: nat)
    requires pair.first != pair.second && SiteAfter(pair, actions, side, |actions|).Bound?
    requires var core := SiteAfter(pair, actions, side, |actions|).e.core;
      k in core.events && core.events[k].outgoing && core.events[k].packet.kind.SyncRequest?
    ensures i <= |actions| && SiteAfter(pair, actions, side, i).Bound?
    ensures SiteAfter(pair, actions, side, |actions|).e.core.events[k].packet.payload
            == AfterBody(SiteAfter(pair, actions, side, i).e.core.c.inSeq)
  {
    Whole(pair, actions, side);
    var m := Binding(pair, actions, side);
    var j := AskedSince(pair, actions, side, m, k);
    i := m + j;
  }

  lemma NoneYet(ops: map<OpId, Operation>)
    requires forall id :: id in ops ==> Opening(ops[id])
    ensures forall id :: id in ops ==> !ops[id].kind.SyncRequest?
  {
  }

  lemma AskedSince(pair: CollabAgreement.Pair, actions: seq<CollabAgreement.Action>, side: CollabAgreement.Side, m: nat, k: Key)
    returns (j: nat)
    requires pair.first != pair.second && BoundFrom(pair, actions, side, m)
    requires forall id :: id in SiteAfter(pair, actions, side, m).e.ops ==> Opening(SiteAfter(pair, actions, side, m).e.ops[id])
    requires var core := SiteAfter(pair, actions, side, |actions|).e.core;
      k in core.events && core.events[k].outgoing && core.events[k].packet.kind.SyncRequest?
    ensures j < |Lived(pair, actions, side, m)|
    ensures SiteAfter(pair, actions, side, |actions|).e.core.events[k].packet.payload
            == AfterBody(Lived(pair, actions, side, m)[j].core.c.inSeq)
  {
    LivedTrace(pair, actions, side, m);
    LivedEnds(pair, actions, side, m);
    NoneYet(Lived(pair, actions, side, m)[0].ops);
    j := SentAskedAt(Lived(pair, actions, side, m), DeedsFrom(actions, side, m), k);
  }

  lemma OpOf(e: Endpoint, k: Key)
    requires Valid(e) && k in e.core.events && e.core.events[k].outgoing
    ensures k.eventId.EventOf? && k.eventId.op in e.ops
    ensures e.ops[k.eventId.op].kind == e.core.events[k].packet.kind
    ensures e.ops[k.eventId.op].payload == e.core.events[k].packet.payload
  {
    assert HasOperation(e.core, e.ops, k);
    assert OpFits(e.core, k.eventId.op, e.ops[k.eventId.op]);
  }

  // ---- The answer ----

  predicate Increasing(ps: seq<Packet>) {
    forall i, j :: 0 <= i < j < |ps| ==> ps[i].sequence < ps[j].sequence
  }

  /** The event that `OwnFrom` lists at one number is the only one there. */
  lemma OwnAt(core: Core, n: int, p: Packet)
    requires SlotsUnique(core.events) && OwnApplied(core, p) && p.sequence == n >= 1
    ensures HasSlot(core.events, core.c.local, n) && core.events[SlotKey(core.events, core.c.local, n)].packet == p
  {
    assert InSlot(core.events, KeyOf(p), core.c.local, n);
    assert SameSlot(p, core.events[SlotKey(core.events, core.c.local, n)].packet);
  }

  lemma {:induction false} OwnFromOrder(core: Core, n: int)
    requires 1 <= n
    ensures Increasing(OwnFrom(core, n))
    ensures forall p :: p in OwnFrom(core, n) ==> OwnApplied(core, p) && p.sequence >= n
    decreases MAX_EVENTS - n
  {
    if n > MAX_EVENTS {
    } else {
      OwnFromOrder(core, n + 1);
    }
  }

  lemma OwnListed(core: Core, n: int)
    requires 1 <= n <= MAX_EVENTS
    ensures forall p :: p in OwnFrom(core, n + 1) ==> p in OwnFrom(core, n)
    ensures HasSlot(core.events, core.c.local, n) ==>
      var p := core.events[SlotKey(core.events, core.c.local, n)].packet; OwnApplied(core, p) ==> p in OwnFrom(core, n)
  {
  }

  lemma {:induction false} OwnFromAll(core: Core, n: int, p: Packet)
    requires EventsPlaced(core) && SlotsUnique(core.events) && 1 <= n && OwnApplied(core, p) && p.sequence >= n
    ensures p in OwnFrom(core, n)
    decreases MAX_EVENTS - n
  {
    assert Placed(core.c, KeyOf(p), core.events[KeyOf(p)]);
    OwnListed(core, n);
    if p.sequence == n {
      OwnAt(core, n, p);
    } else {
      OwnFromAll(core, n + 1, p);
    }
  }

  lemma CutOff(all: seq<Packet>, p: Packet)
    requires Increasing(all) && p in all && p !in FirstEight(all)
    ensures |FirstEight(all)| == 8 && forall q :: q in FirstEight(all) ==> q.sequence < p.sequence
  {
    forall j | 0 <= j < |all| && j < 8 ensures all[j] in FirstEight(all) {
      assert FirstEight(all)[j] == all[j];
    }
    var i :| 0 <= i < |all| && all[i] == p;
    assert i >= 8;
  }

  /** The answer to a recovery request lists events that its sender itself applied, in the
      order of their numbers, after the number asked for: the first eight, or all. */
  lemma AnswerIs(core: Core) returns (ps: seq<Packet>)
    requires EventsPlaced(core) && SlotsUnique(core.events)
    ensures TemplatePayload(core, SyncResponse, None) == Some(HistoryBody(ps)) && Increasing(ps) && |ps| <= 8
    ensures forall p :: p in ps ==> OwnApplied(core, p) && p.sequence > core.c.syncAfter
    ensures forall p :: OwnApplied(core, p) && p.sequence > core.c.syncAfter && p !in ps ==>
      |ps| == 8 && forall q :: q in ps ==> q.sequence < p.sequence
  {
    var from := (if core.c.syncAfter < 0 then 0 else core.c.syncAfter) + 1;
    var all := OwnFrom(core, from);
    ps := FirstEight(all);
    OwnFromOrder(core, from);
    forall p | OwnApplied(core, p) && p.sequence > core.c.syncAfter && p !in ps
      ensures |ps| == 8 && forall q :: q in ps ==> q.sequence < p.sequence
    {
      assert Placed(core.c, KeyOf(p), core.events[KeyOf(p)]);
      OwnFromAll(core, from, p);
      CutOff(all, p);
    }
  }
}
