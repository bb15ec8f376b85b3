/** Every operation of an endpoint keeps its invariant and only extends its records. */
module CollabSteps {
  import opened Basics
  import opened CollabTypes
  import opened CollabReducer
  import opened CollabInbox
  import opened CollabOutbox
  import opened CollabInvariant

  // ---- The outbox invariant ----

  predicate LeftReady(op: Operation) {
    op.status.Sending? || op.status.Accepted?
  }

  /** The exact packet of an operation that left the ready state is stored. */
  predicate PacketStored(core: Core, id: OpId, op: Operation) {
    && op.packet.Some?
    && var p := op.packet.value;
       && p.kind == op.kind && p.payload == op.payload && KeyOf(p) == Key(core.c.local, EventOf(id))
       && KeyOf(p) in core.events && core.events[KeyOf(p)].packet == p && core.events[KeyOf(p)].outgoing
  }

  predicate AllOwn(core: Core, ps: seq<Packet>) {
    forall i :: 0 <= i < |ps| ==> OwnApplied(core, ps[i])
  }

  predicate HoldsAgreement(c: Collab, payload: Payload) {
    c.initiator == c.local && c.agreement.Some? && payload == AgreementBody(c.agreement.value)
  }

  predicate NamesAgreement(c: Collab, payload: Payload) {
    c.agreement.Some? && payload == AgreementNameBody(c.agreement.value.id)
  }

  /** A receipt is about a stored event of the peer, and a final status that it reports
      is that event's status. */
  predicate Reports(core: Core, p: Payload) {
    && p.ReceiptBody? && Key(core.c.peer, p.eventId) in core.events
    && var r := core.events[Key(core.c.peer, p.eventId)];
       && p.eventDigest == EventDigestOf(r.packet)
       && (p.report.ReportsApplied? ==> r.status.Applied?) && (p.report.ReportsRejected? ==> r.status.Rejected?)
  }

  /** An agreement packet carries the recorded agreement, an acknowledgement names it, a
      receipt reports the truth, a recovery request asks from no later than the cursor,
      and a recovery response carries only events that this endpoint applied and sent. */
  predicate Vouches(core: Core, kind: Kind, payload: Payload) {
    && (kind.Agree? ==> HoldsAgreement(core.c, payload))
    && (kind.AgreementAck? ==> NamesAgreement(core.c, payload))
    && (kind.Receipt? ==> Reports(core, payload))
    && (kind.SyncRequest? ==> payload.AfterBody? && payload.after <= core.c.inSeq)
    && (kind.SyncResponse? ==> payload.HistoryBody? && AllOwn(core, payload.events))
  }

  predicate OpFits(core: Core, id: OpId, op: Operation) {
    && (LeftReady(op) ==> PacketStored(core, id, op))
    && op.maintenance == IsMaintenance(op.kind) && (id.AutoOp? ==> op.maintenance)
    && Vouches(core, op.kind, op.payload)
  }

  /** A stored outgoing event is the packet of one operation that left the ready state. */
  predicate HasOperation(core: Core, ops: map<OpId, Operation>, k: Key)
    requires k in core.events
  {
    k.eventId.EventOf? && k.eventId.op in ops && LeftReady(ops[k.eventId.op])
    && ops[k.eventId.op].packet == Some(core.events[k].packet)
  }

  ghost predicate OpsFit(core: Core, ops: map<OpId, Operation>) {
    && (forall id :: id in ops ==> OpFits(core, id, ops[id]))
    && (forall k :: k in core.events && core.events[k].outgoing ==> HasOperation(core, ops, k))
  }

  ghost predicate Valid(e: Endpoint) {
    Sound(e.core) && OpsFit(e.core, e.ops)
  }

  // ---- What no operation ever undoes ----

  predicate FinalKept(r: Record, s: Record) {
    && s.packet == r.packet && s.outgoing == r.outgoing
    && (r.status.Applied? ==> s.status.Applied?) && (r.status.Rejected? ==> s.status.Rejected?)
  }

  /** Events are immutable and their final statuses are final; once an agreement is
      recorded, it, the terms and the acceptances never change. */
  ghost predicate Extends(core: Core, next: Core) {
    && SameParties(core.c, next.c)
    && core.c.inSeq <= next.c.inSeq && core.c.outSeq <= next.c.outSeq
    && (forall k :: k in core.events ==> k in next.events && FinalKept(core.events[k], next.events[k]))
    && (core.c.agreement.Some? ==>
          next.c.agreement == core.c.agreement && next.c.terms == core.c.terms
          && next.c.acceptances == core.c.acceptances)
  }

  /** No outgoing event is stored, applied or otherwise decided. */
  ghost predicate OwnSame(core: Core, next: Core) {
    && (forall k :: k in next.events && next.events[k].outgoing ==>
          k in core.events && core.events[k].outgoing && core.events[k].status == next.events[k].status
          && core.events[k].packet == next.events[k].packet)
    && next.c.outSeq == core.c.outSeq && next.c.lastOut == core.c.lastOut && next.c.permit == core.c.permit
  }

  ghost predicate Incoming(core: Core, next: Core) {
    Extends(core, next) && OwnSame(core, next)
  }

  lemma IncomingSelf(core: Core)
    ensures Incoming(core, core)
  {
  }

  lemma IncomingTrans(a: Core, b: Core, c: Core)
    requires Incoming(a, b) && Incoming(b, c)
    ensures Incoming(a, c)
  {
  }

  lemma OpFitsKept(core: Core, next: Core, id: OpId, op: Operation)
    requires OpFits(core, id, op) && Extends(core, next)
    ensures OpFits(next, id, op)
  {
    if LeftReady(op) {
      assert FinalKept(core.events[KeyOf(op.packet.value)], next.events[KeyOf(op.packet.value)]);
    }
    if op.kind.SyncResponse? {
      forall i | 0 <= i < |op.payload.events| ensures OwnApplied(next, op.payload.events[i]) {
        var p := op.payload.events[i];
        assert OwnApplied(core, p);
        assert FinalKept(core.events[KeyOf(p)], next.events[KeyOf(p)]);
      }
    }
  }

  lemma OpsFitExtended(core: Core, next: Core, ops: map<OpId, Operation>)
    requires OpsFit(core, ops) && Incoming(core, next)
    ensures OpsFit(next, ops)
  {
    forall id | id in ops ensures OpFits(next, id, ops[id]) {
      OpFitsKept(core, next, id, ops[id]);
    }
    forall k | k in next.events && next.events[k].outgoing ensures HasOperation(next, ops, k) {
      assert HasOperation(core, ops, k);
    }
  }

  // ---- Templated replies ----

  lemma OwnFromApplied(core: Core, n: int)
    requires 1 <= n
    ensures forall i :: 0 <= i < |OwnFrom(core, n)| ==> OwnApplied(core, OwnFrom(core, n)[i])
    decreases MAX_EVENTS - n
  {
    if n <= MAX_EVENTS {
      OwnFromApplied(core, n + 1);
    }
  }

  predicate OpsKept(ops: map<OpId, Operation>, next: map<OpId, Operation>) {
    forall id :: id in ops ==> id in next && next[id] == ops[id]
  }

  /** What a template says is true of the facts that it was compiled from. */
  lemma TemplateVouches(core: Core, kind: Kind, about: Option<EventId>)
    requires TemplatePayload(core, kind, about).Some?
    ensures Vouches(core, kind, TemplatePayload(core, kind, about).value)
  {
    if kind.SyncResponse? {
      OwnFromApplied(core, (if core.c.syncAfter < 0 then 0 else core.c.syncAfter) + 1);
    }
  }

  lemma QueueKeeps(e: Endpoint, kind: Kind, about: Option<EventId>, now: Instant)
    requires OpsFit(e.core, e.ops) && Queue(e, kind, about, now).Some?
    ensures var f := Queue(e, kind, about, now).value;
      f.core == e.core && OpsFit(f.core, f.ops) && f.reviews == e.reviews && f.task == e.task && OpsKept(e.ops, f.ops)
  {
    var f := Queue(e, kind, about, now).value;
    if f.ops != e.ops {
      var payload := TemplatePayload(e.core, kind, about).value;
      TemplateVouches(e.core, kind, about);
      AddOperation(e.core, e.ops, AutoOp(kind, payload), f.ops[AutoOp(kind, payload)]);
    }
  }

  // ---- Incoming events ----

  /** The next event leaves the stream without being applied. */
  predicate Rejects(core: Core, k: Key, fin: Core) {
    && k in core.events && InSlot(core.events, k, core.c.peer, core.c.inSeq + 1)
    && fin == if core.events[k].status.Buffered? then Decide(core, k, Rejected)
              else core.(c := Advance(core.c, core.events[k].packet))
  }

  lemma RejectRecords(core: Core, k: Key, fin: Core)
    requires EventsPlaced(core) && CursorsFit(core) && PartiesDistinct(core.c) && Rejects(core, k, fin)
    ensures fin.events.Keys == core.events.Keys && Incoming(core, fin)
    ensures forall j :: j in core.events && j != k ==> fin.events[j] == core.events[j]
    ensures core.events[k].packet == fin.events[k].packet && !core.events[k].outgoing && !fin.events[k].outgoing
    ensures fin.events[k].status.Rejected?
    ensures fin.c == Advance(core.c, core.events[k].packet) && k.eventId == core.events[k].packet.eventId
  {
    assert Placed(core.c, k, core.events[k]) && CursorFits(core.c, core.events[k]);
  }

  lemma RejectKeepsSound(core: Core, k: Key, fin: Core)
    requires Sound(core) && Rejects(core, k, fin)
    ensures Sound(fin) && Incoming(core, fin)
  {
    RejectRecords(core, k, fin);
    StreamKept(core, k, fin);
    SameFactsKept(core, fin);
  }

  /** No event gets a receipt. */
  ghost predicate NoReceipt(core: Core, fin: Core) {
    forall j :: j in fin.events && fin.events[j].receipt.Some? ==> j in core.events && core.events[j].receipt == fin.events[j].receipt
  }

  /** `fin` keeps every applied event of `core`, and applies at most recovery events
      besides them. */
  ghost predicate SameApplied(core: Core, fin: Core) {
    && NoReceipt(core, fin)
    && (forall j :: AppliedAt(fin.events, j) && !IsSync(fin.events[j].packet.kind) ==> AppliedAt(core.events, j))
    && (forall j :: AppliedAt(core.events, j) ==> AppliedAt(fin.events, j) && FinalKept(core.events[j], fin.events[j]))
  }

  lemma SameHistoryKept(core: Core, fin: Core)
    requires HasHistory(core) && AcceptsKnown(core) && SameApplied(core, fin)
    requires SameParties(core.c, fin.c) && fin.c.terms == core.c.terms
    ensures HasHistory(fin) && AcceptsKnown(fin)
  {
    forall j | AppliedAt(fin.events, j) && fin.events[j].packet.kind.Accept? ensures AcceptKnown(fin.events, j) {
      assert AppliedAt(core.events, j);
      AcceptKnownKept(core, fin, j);
    }
    var h :| IsHistory(core, h);
    forall i | 0 <= i < |h| ensures IsProposal(fin.events, h[i]) && Succeeds(fin.c, h, i) {
      assert IsProposal(core.events, h[i]) && Succeeds(core.c, h, i);
    }
    forall j | AppliedAt(fin.events, j) && fin.events[j].packet.kind.Proposal? ensures fin.events[j].packet in h {
      assert AppliedAt(core.events, j);
    }
    assert IsHistory(fin, h);
  }

  lemma SameConsentsKept(core: Core, fin: Core)
    requires ConsentsBacked(core) && WithdrawalsNamed(core) && ActiveNotWithdrawn(core) && AgreementFits(core)
    requires AgreementReceived(core) && SameApplied(core, fin)
    requires SameParties(core.c, fin.c) && fin.c.terms == core.c.terms && fin.c.acceptances == core.c.acceptances
    requires fin.c.agreement == core.c.agreement
    ensures ConsentsBacked(fin) && WithdrawalsNamed(fin) && ActiveNotWithdrawn(fin) && AgreementFits(fin)
    ensures AgreementReceived(fin)
  {
    forall u | u in fin.c.acceptances ensures ConsentBacked(fin, u, fin.c.acceptances[u]) {
      assert ConsentBacked(core, u, core.c.acceptances[u]);
    }
    forall j | AppliedAt(fin.events, j) && fin.events[j].packet.kind.Withdraw?
      ensures NamesAccept(fin.events, fin.events[j])
    {
      assert AppliedAt(core.events, j) && NamesAccept(core.events, core.events[j]);
    }
    if core.c.agreement.Some? {
      EvidenceKept(core, fin, core.c.agreement.value.formation);
      if core.c.initiator == core.c.peer {
        var j :| j in core.events && IsAgreementEvent(core.events[j], core.c.agreement.value);
        assert AppliedAt(core.events, j) && IsAgreementEvent(fin.events[j], core.c.agreement.value);
      }
    }
  }

  /** The facts that do not mention the cursors survive any change of records that
      keeps packets and applied events. */
  lemma SameFactsKept(core: Core, fin: Core)
    requires Sound(core) && SameApplied(core, fin) && SameParties(core.c, fin.c)
    requires fin.c.terms == core.c.terms && fin.c.acceptances == core.c.acceptances
    requires fin.c.agreement == core.c.agreement
    requires EventsPlaced(fin) && SlotsUnique(fin.events) && CursorsFit(fin) && StreamStored(fin)
    ensures Sound(fin)
  {
    SameConsentsKept(core, fin);
    SameHistoryKept(core, fin);
  }

  lemma AppliesExtends(core: Core, k: Key, now: Instant, outgoing: bool, fin: Core)
    requires EventsPlaced(core) && CursorsFit(core) && Applies(core, k, now, outgoing, fin)
    ensures Extends(core, fin)
    ensures !outgoing ==> Incoming(core, fin)
  {
    var packet := core.events[k].packet;
    var before := Before(core, packet, outgoing);
    AppliesFrame(core, k, now, outgoing, fin);
    assert Placed(core.c, k, core.events[k]);
    ApplyFrame(before, packet, now, outgoing);
    ApplyTouches(before, packet, now, outgoing);
    forall j | j in core.events ensures FinalKept(core.events[j], fin.events[j]) {
    }
  }

  lemma TurnCases(core: Core, reviews: map<Packet, Review>, now: Instant)
    requires EventsPlaced(core) && CursorsFit(core) && NextTurn(core, reviews, now).Take?
    ensures var turn := NextTurn(core, reviews, now);
      && turn.key in core.events && InSlot(core.events, turn.key, core.c.peer, core.c.inSeq + 1)
      && if turn.reason.WasApplied? then Applies(core, turn.key, now, false, turn.core)
         else Rejects(core, turn.key, turn.core)
  {
    var turn := NextTurn(core, reviews, now);
    var packet := core.events[turn.key].packet;
    assert Placed(core.c, turn.key, core.events[turn.key]);
    if turn.reason.WasApplied? {
      ApplyFrame(Before(core, packet, false), packet, now, false);
    }
  }

  lemma AppliedKeeps(core: Core, k: Key, now: Instant, fin: Core)
    requires Sound(core) && Applies(core, k, now, false, fin)
    ensures Sound(fin) && Incoming(core, fin) && fin.c.inSeq == core.c.inSeq + 1 && fin.events.Keys == core.events.Keys
  {
    AppliesExtends(core, k, now, false, fin);
    AppliesKeepsSound(core, k, now, false, fin);
    AppliesFrame(core, k, now, false, fin);
  }

  /** Taking the next event from the stream keeps the invariant. */
  lemma TakeKeeps(core: Core, reviews: map<Packet, Review>, now: Instant)
    requires Sound(core) && NextTurn(core, reviews, now).Take?
    ensures var turn := NextTurn(core, reviews, now);
      && turn.key in core.events && InSlot(core.events, turn.key, core.c.peer, core.c.inSeq + 1)
      && Sound(turn.core) && Incoming(core, turn.core) && turn.core.c.inSeq == core.c.inSeq + 1
      && turn.core.events.Keys == core.events.Keys
  {
    TurnCases(core, reviews, now);
    TakenKeeps(core, NextTurn(core, reviews, now), now);
  }

  lemma TakenKeeps(core: Core, turn: Turn, now: Instant)
    requires Sound(core) && turn.Take?
    requires if turn.reason.WasApplied? then Applies(core, turn.key, now, false, turn.core)
             else Rejects(core, turn.key, turn.core)
    ensures Sound(turn.core) && Incoming(core, turn.core) && turn.core.c.inSeq == core.c.inSeq + 1
    ensures turn.core.events.Keys == core.events.Keys
  {
    if turn.reason.WasApplied? {
      AppliedKeeps(core, turn.key, now, turn.core);
    } else {
      RejectRecords(core, turn.key, turn.core);
      RejectKeepsSound(core, turn.key, turn.core);
    }
  }

  /** One drain step, and with it the whole drain, keeps the invariant. */
  ghost predicate Progress(e: Endpoint, f: Endpoint) {
    Valid(f) && Incoming(e.core, f.core) && f.task == e.task && f.reviews == e.reviews
  }

  /** Draining stores no new event. */
  ghost predicate Drained(e: Endpoint, f: Endpoint) {
    Progress(e, f) && f.core.events.Keys == e.core.events.Keys
  }

  lemma ReplyKeeps(e: Endpoint, before: Collab, packet: Packet, now: Instant, outgoing: bool)
    requires OpsFit(e.core, e.ops) && Reply(e, before, packet, now, outgoing).Go?
    ensures var f := Reply(e, before, packet, now, outgoing).e;
      f.core == e.core && OpsFit(f.core, f.ops) && f.reviews == e.reviews && f.task == e.task && OpsKept(e.ops, f.ops)
  {
    match ReplyTo(before, e.core.c, packet, outgoing)
    case None =>
    case Some(kind) => QueueKeeps(e, kind, None, now);
  }

  /** A drain step changes the facts exactly as the next turn says. */
  lemma StepOps(e: Endpoint, now: Instant)
    requires OpsFit(e.core, e.ops) && !DrainStep(e, now).Abort?
    requires NextTurn(e.core, e.reviews, now).Take? ==> Incoming(e.core, NextTurn(e.core, e.reviews, now).core)
    ensures var f := DrainStep(e, now).e;
      && OpsFit(f.core, f.ops) && f.task == e.task && f.reviews == e.reviews
      && f.core == if NextTurn(e.core, e.reviews, now).Take? then NextTurn(e.core, e.reviews, now).core else e.core
    ensures DrainStep(e, now).Go? <==> NextTurn(e.core, e.reviews, now).Take?
  {
    match NextTurn(e.core, e.reviews, now)
    case Take(key, core, reason) =>
      OpsFitExtended(e.core, core, e.ops);
      var packet := e.core.events[key].packet;
      var e1 := e.(core := core);
      if reason.WasApplied? {
        var e2 := e1.(view := ViewAfter(e.view, e.core, core, packet, false));
        ReplyKeeps(e2, e.core.c, packet, now, false);
        var e3 := Reply(e2, e.core.c, packet, now, false).e;
        if !Unreceipted(packet.kind) {
          QueueKeeps(e3, Receipt, Some(packet.eventId), now);
        }
      } else if reason.Expired? || (!reason.ReviewDeclined? && !Unreceipted(packet.kind)) {
        QueueKeeps(e1, Receipt, Some(packet.eventId), now);
      }
    case _ =>
  }

  lemma StepKeeps(e: Endpoint, now: Instant)
    requires Valid(e) && !DrainStep(e, now).Abort?
    ensures Drained(e, DrainStep(e, now).e)
  {
    if NextTurn(e.core, e.reviews, now).Take? {
      TakeKeeps(e.core, e.reviews, now);
    }
    StepOps(e, now);
  }

  lemma ProgressRefl(e: Endpoint)
    requires Valid(e)
    ensures Progress(e, e)
  {
  }

  lemma ProgressTrans(e: Endpoint, f: Endpoint, g: Endpoint)
    requires Progress(e, f) && Progress(f, g)
    ensures Progress(e, g)
  {
    IncomingTrans(e.core, f.core, g.core);
  }

  /** What one step keeps, a loop of steps keeps. */
  lemma {:induction false} LoopInduction(e: Endpoint, step: Endpoint -> Step, fuel: nat, f: Endpoint,
                                         inv: Endpoint -> bool, rel: (Endpoint, Endpoint) -> bool)
    requires forall x :: inv(x) ==> rel(x, x)
    requires forall x, y, z :: rel(x, y) && rel(y, z) ==> rel(x, z)
    requires forall x :: inv(x) && !step(x).Abort? ==> inv(step(x).e) && rel(x, step(x).e)
    requires inv(e) && Iterate(e, step, fuel) == Some(f)
    ensures inv(f) && rel(e, f)
    decreases fuel
  {
    if fuel == 0 || !step(e).Go? {
    } else {
      LoopInduction(step(e).e, step, fuel - 1, f, inv, rel);
    }
  }

  lemma LoopKeeps(e: Endpoint, now: Instant, fuel: nat, f: Endpoint)
    requires Valid(e) && DrainLoop(e, now, fuel) == Some(f)
    ensures Drained(e, f)
  {
    var inv := (x: Endpoint) => Valid(x);
    var rel := (x: Endpoint, y: Endpoint) => Valid(x) ==> Drained(x, y);
    forall x | inv(x) ensures rel(x, x) {
      ProgressRefl(x);
    }
    forall x, y, z | rel(x, y) && rel(y, z) ensures rel(x, z) {
      if Valid(x) {
        ProgressTrans(x, y, z);
      }
    }
    forall x | inv(x) && !StepAt(now)(x).Abort? ensures inv(StepAt(now)(x).e) && rel(x, StepAt(now)(x).e) {
      StepKeeps(x, now);
    }
    LoopInduction(e, StepAt(now), fuel, f, inv, rel);
  }

  lemma TailKeeps(e: Endpoint, now: Instant)
    requires OpsFit(e.core, e.ops) && DrainTail(e, now).Some?
    ensures var f := DrainTail(e, now).value;
      f.core == e.core && OpsFit(f.core, f.ops) && f.task == e.task && f.reviews == e.reviews
  {
    if HasGap(e.core) && !(e.view.waiting.PeerReview? && !SafeContent(e)) && !e.core.c.closure.Cancelled? {
      QueueKeeps(e.(view := View(Reconciling, MissingEvent)), SyncRequest, None, now);
    }
  }

  lemma DrainKeeps(e: Endpoint, now: Instant)
    requires Valid(e) && Drain(e, now).Some?
    ensures Drained(e, Drain(e, now).value)
    ensures Drain(e, now).value.core == DrainLoop(e, now, MAX_EVENTS).value.core
  {
    var e1 := DrainLoop(e, now, MAX_EVENTS).value;
    LoopKeeps(e, now, MAX_EVENTS, e1);
    TailKeeps(e1, now);
    assert Drain(e, now) == DrainTail(e1, now);
  }

  // ---- Storing events ----

  /** A packet that the authenticated peer may hand over. */
  predicate FromPeer(c: Collab, p: Packet) {
    ValidEvent(p) && p.sender == c.peer && p.recipient == c.local && p.collab == c.id
  }

  lemma FreeSlot(core: Core, p: Packet)
    requires StreamStored(core) && FromPeer(core.c, p) && !SlotTaken(core.events, p)
    ensures p.sequence <= 0 || p.sequence > core.c.inSeq
    ensures forall k :: k in core.events ==> !SameSlot(core.events[k].packet, p)
  {
    assert HasSlot(core.events, core.c.peer, p.sequence) ==> IsSync(p.kind);
  }

  lemma AdmitStream(core: Core, p: Packet, now: Instant, fin: Core)
    requires EventsPlaced(core) && CursorsFit(core) && SlotsUnique(core.events) && StreamStored(core)
    requires FromPeer(core.c, p) && KeyOf(p) !in core.events && !SlotTaken(core.events, p)
    requires fin == core.(events := core.events[KeyOf(p) := Record(p, AdmittedStatus(p, now), false, None)])
    ensures EventsPlaced(fin) && CursorsFit(fin) && SlotsUnique(fin.events) && StreamStored(fin)
  {
    FreeSlot(core, p);
    forall n | 1 <= n <= core.c.inSeq ensures HasSlot(fin.events, core.c.peer, n) {
      assert HasSlot(core.events, core.c.peer, n);
      var j :| j in core.events && InSlot(core.events, j, core.c.peer, n);
      assert InSlot(fin.events, j, core.c.peer, n);
    }
    forall k1, k2 | k1 in fin.events && k2 in fin.events && SameSlot(fin.events[k1].packet, fin.events[k2].packet)
      ensures k1 == k2
    {
      if k1 in core.events && k2 in core.events {
        assert SameSlot(core.events[k1].packet, core.events[k2].packet);
      }
    }
  }

  lemma AdmitRecords(core: Core, p: Packet, now: Instant)
    requires EventsPlaced(core) && CursorsFit(core) && SlotsUnique(core.events) && StreamStored(core)
    requires FromPeer(core.c, p) && Admit(core, p, now).Done? && PartiesDistinct(core.c)
    ensures var fin := Admit(core, p, now).value;
      && EventsPlaced(fin) && CursorsFit(fin) && SlotsUnique(fin.events) && StreamStored(fin)
      && fin.c == core.c && KeyOf(p) in fin.events && fin.events[KeyOf(p)].packet == p
      && (forall k :: k in core.events ==> k in fin.events && fin.events[k] == core.events[k])
      && (forall k :: k in fin.events ==> k in core.events || (k == KeyOf(p) && !fin.events[k].outgoing))
      && (KeyOf(p) !in core.events ==> !fin.events[KeyOf(p)].status.Applied? && fin.events[KeyOf(p)].receipt.None?)
  {
    if KeyOf(p) !in core.events {
      AdmitStream(core, p, now, Admit(core, p, now).value);
    }
  }

  lemma AdmitSame(core: Core, fin: Core, key: Key)
    requires fin.c == core.c && (forall k :: k in core.events ==> k in fin.events && fin.events[k] == core.events[k])
    requires forall k :: k in fin.events ==> k in core.events || (k == key && !fin.events[k].outgoing)
    requires key !in core.events ==> key in fin.events && !fin.events[key].status.Applied? && fin.events[key].receipt.None?
    ensures SameApplied(core, fin) && Incoming(core, fin)
  {
  }

  lemma AdmitKeeps(core: Core, p: Packet, now: Instant)
    requires Sound(core) && FromPeer(core.c, p) && Admit(core, p, now).Done?
    ensures Sound(Admit(core, p, now).value) && Incoming(core, Admit(core, p, now).value)
  {
    var fin := Admit(core, p, now).value;
    AdmitRecords(core, p, now);
    AdmitSame(core, fin, KeyOf(p));
    SameFactsKept(core, fin);
  }

  /** Which packets a recovery response may bring in besides itself. */
  function Carried(p: Packet): set<Packet> {
    {p} + if p.kind.SyncResponse? && p.payload.HistoryBody? then (set i | 0 <= i < |p.payload.events| :: p.payload.events[i])
          else {}
  }

  /** Every stored incoming event is among `from` or was stored before. */
  ghost predicate NewFrom(core: Core, next: Core, from: set<Packet>) {
    forall k :: k in next.events && !next.events[k].outgoing ==> k in core.events || next.events[k].packet in from
  }

  /** Storing several events adds only those events, undecided. */
  lemma {:induction false} AdmitAllRecords(core: Core, ps: seq<Packet>, now: Instant, from: set<Packet>)
    requires AdmitAll(core, ps, now).Done? && forall i :: 0 <= i < |ps| ==> ps[i] in from
    ensures var fin := AdmitAll(core, ps, now).value;
      && fin.c == core.c && NewFrom(core, fin, from) && NoReceipt(core, fin)
      && (forall k :: k in core.events ==> k in fin.events && fin.events[k] == core.events[k])
      && (forall k :: AppliedAt(fin.events, k) ==> AppliedAt(core.events, k))
    decreases |ps|
  {
    if ps == [] {
    } else {
      var next := Admit(core, ps[0], now).value;
      AdmitAllRecords(next, ps[1..], now, from);
    }
  }

  lemma {:induction false} AdmitAllSound(core: Core, ps: seq<Packet>, now: Instant)
    requires Sound(core) && (forall i :: 0 <= i < |ps| ==> FromPeer(core.c, ps[i]))
    requires AdmitAll(core, ps, now).Done?
    ensures Sound(AdmitAll(core, ps, now).value) && Incoming(core, AdmitAll(core, ps, now).value)
    decreases |ps|
  {
    if ps == [] {
    } else {
      AdmitKeeps(core, ps[0], now);
      var next := Admit(core, ps[0], now).value;
      assert forall i :: 0 <= i < |ps[1..]| ==> ps[1..][i] == ps[i+1];
      AdmitAllSound(next, ps[1..], now);
      IncomingTrans(core, next, AdmitAll(core, ps, now).value);
    }
  }

  lemma AdmitAllKeeps(core: Core, ps: seq<Packet>, now: Instant)
    requires Sound(core) && (forall i :: 0 <= i < |ps| ==> FromPeer(core.c, ps[i]))
    requires AdmitAll(core, ps, now).Done?
    ensures var fin := AdmitAll(core, ps, now).value;
      && Sound(fin) && Incoming(core, fin) && NewFrom(core, fin, set i | 0 <= i < |ps| :: ps[i])
      && (forall k :: k in core.events ==> k in fin.events && fin.events[k] == core.events[k])
      && fin.c == core.c && (forall k :: AppliedAt(fin.events, k) ==> AppliedAt(core.events, k)) && NoReceipt(core, fin)
  {
    AdmitAllSound(core, ps, now);
    AdmitAllRecords(core, ps, now, set i | 0 <= i < |ps| :: ps[i]);
  }

  // ---- Receiving an event ----

  lemma SyncApplies(core: Core, p: Packet, now: Instant)
    requires Sound(core) && FromPeer(core.c, p) && IsSync(p.kind) && ApplyCore(core, p, now, false).Done?
    ensures var fin := ApplyCore(core, p, now, false).value;
      && Sound(fin) && Incoming(core, fin) && NewFrom(core, fin, Carried(p))
      && (forall k :: k in core.events ==> k in fin.events && fin.events[k] == core.events[k])
      && fin.c == core.c.(syncAfter := fin.c.syncAfter) && NoReceipt(core, fin)
      && (forall k :: AppliedAt(fin.events, k) ==> AppliedAt(core.events, k))
  {
    SyncCases(core, p, now);
    var fin := ApplyCore(core, p, now, false).value;
    if p.kind.SyncResponse? {
      AdmitAllKeeps(core, p.payload.events, now);
    } else {
      SyncRequestApplies(core, p, fin);
    }
  }

  lemma SyncCases(core: Core, p: Packet, now: Instant)
    requires FromPeer(core.c, p) && IsSync(p.kind) && ApplyCore(core, p, now, false).Done?
    ensures var fin := ApplyCore(core, p, now, false).value;
      if p.kind.SyncResponse? then
        && p.payload.HistoryBody? && AdmitAll(core, p.payload.events, now) == Done(fin)
        && forall i :: 0 <= i < |p.payload.events| ==> FromPeer(core.c, p.payload.events[i])
      else p.payload.AfterBody? && fin == core.(c := core.c.(syncAfter := p.payload.after))
  {
    if p.kind.SyncResponse? {
      forall i | 0 <= i < |p.payload.events| ensures FromPeer(core.c, p.payload.events[i]) {
        assert OwnHistory(core.c, p.sender, p.payload.events[i]);
      }
    }
  }

  lemma SyncRequestApplies(core: Core, p: Packet, fin: Core)
    requires Sound(core) && p.payload.AfterBody? && fin == core.(c := core.c.(syncAfter := p.payload.after))
    ensures Sound(fin) && Incoming(core, fin)
  {
    LooseSound(core, fin);
  }

  /** The permit and the number asked for are not among the negotiated facts. */
  lemma LooseSound(core: Core, fin: Core)
    requires Sound(core) && fin == core.(c := core.c.(permit := fin.c.permit, syncAfter := fin.c.syncAfter))
    ensures Sound(fin) && Extends(core, fin)
  {
    StreamUnmoved(core, fin);
    LooseApplied(core, fin);
    SameFactsKept(core, fin);
  }

  lemma LooseApplied(core: Core, fin: Core)
    requires fin.events == core.events
    ensures SameApplied(core, fin)
  {
  }

  /** Records that change only in status, at the same cursors. */
  lemma StreamUnmoved(core: Core, fin: Core)
    requires EventsPlaced(core) && CursorsFit(core) && SlotsUnique(core.events) && StreamStored(core)
    requires SameParties(core.c, fin.c) && fin.events.Keys == core.events.Keys
    requires fin.c.inSeq == core.c.inSeq && fin.c.outSeq == core.c.outSeq && fin.c.lastIn == core.c.lastIn
    requires forall j :: j in core.events ==>
      && fin.events[j].packet == core.events[j].packet && fin.events[j].outgoing == core.events[j].outgoing
      && Placed(fin.c, j, fin.events[j]) && CursorFits(fin.c, fin.events[j])
    ensures EventsPlaced(fin) && CursorsFit(fin) && SlotsUnique(fin.events) && StreamStored(fin)
  {
    forall k1, k2 | k1 in fin.events && k2 in fin.events && SameSlot(fin.events[k1].packet, fin.events[k2].packet)
      ensures k1 == k2
    {
      assert SameSlot(core.events[k1].packet, core.events[k2].packet);
    }
    forall n | 1 <= n <= fin.c.inSeq ensures HasSlot(fin.events, fin.c.peer, n) {
      assert HasSlot(core.events, core.c.peer, n);
      var j :| j in core.events && InSlot(core.events, j, core.c.peer, n);
      assert InSlot(fin.events, j, fin.c.peer, n);
    }
  }

  predicate SyncMark(core: Core, k: Key, status: Status, fin: Core) {
    && k in core.events && IsSync(core.events[k].packet.kind) && !core.events[k].outgoing
    && core.events[k].status.Buffered? && (status.Applied? || status.Rejected?)
    && fin == Mark(core, k, status)
  }

  lemma SyncMarkRecords(core: Core, k: Key, status: Status, fin: Core)
    requires EventsPlaced(core) && CursorsFit(core) && SlotsUnique(core.events) && StreamStored(core)
    requires SyncMark(core, k, status, fin)
    ensures EventsPlaced(fin) && CursorsFit(fin) && SlotsUnique(fin.events) && StreamStored(fin) && Incoming(core, fin)
    ensures SameApplied(core, fin)
  {
    assert Placed(core.c, k, core.events[k]);
    forall j | j in core.events ensures Placed(fin.c, j, fin.events[j]) && CursorFits(fin.c, fin.events[j]) {
      assert Placed(core.c, j, core.events[j]) && CursorFits(core.c, core.events[j]);
    }
    StreamUnmoved(core, fin);
  }

  /** A recovery event gets its final status without touching the ordered stream. */
  lemma SyncMarked(core: Core, k: Key, status: Status, fin: Core)
    requires Sound(core) && SyncMark(core, k, status, fin)
    ensures Sound(fin) && Incoming(core, fin)
  {
    SyncMarkRecords(core, k, status, fin);
    SameFactsKept(core, fin);
  }

  /** No event of the ordered stream is decided. */
  ghost predicate SameDecided(core: Core, fin: Core) {
    SameApplied(core, fin) && fin.c == core.c.(syncAfter := fin.c.syncAfter)
  }

  /** Storing an event, and applying it at once if it belongs to recovery, keeps the
      invariant and brings in only what the packet carries. */
  lemma IngestKeeps(e: Endpoint, p: Packet, now: Instant)
    requires Valid(e) && FromPeer(e.core.c, p) && IngestBound(e, p, now).Done?
    ensures var f := IngestBound(e, p, now).value;
      Progress(e, f) && NewFrom(e.core, f.core, Carried(p)) && SameDecided(e.core, f.core)
  {
    if KeyOf(p) in e.core.events {
      ProgressRefl(e);
    } else {
      var e1 := e.(core := Admit(e.core, p, now).value);
      StoredKeeps(e, p, now);
      if IsSync(p.kind) && e1.core.events[KeyOf(p)].status == Buffered {
        IngestSync(e1, p, now);
        var f := IngestBound(e, p, now).value;
        ProgressTrans(e, e1, f);
        DecidedTrans(e.core, e1.core, f.core, Carried(p));
      }
    }
  }

  lemma StoredKeeps(e: Endpoint, p: Packet, now: Instant)
    requires Valid(e) && FromPeer(e.core.c, p) && Admit(e.core, p, now).Done? && KeyOf(p) !in e.core.events
    ensures var e1 := e.(core := Admit(e.core, p, now).value);
      && Progress(e, e1) && NewFrom(e.core, e1.core, Carried(p)) && SameDecided(e.core, e1.core)
      && KeyOf(p) in e1.core.events && e1.core.events[KeyOf(p)] == Record(p, AdmittedStatus(p, now), false, None)
  {
    AdmitKeeps(e.core, p, now);
    OpsFitExtended(e.core, Admit(e.core, p, now).value, e.ops);
    AdmitDecides(e.core, p, now);
  }

  lemma AdmitDecides(core: Core, p: Packet, now: Instant)
    requires Admit(core, p, now).Done? && KeyOf(p) !in core.events
    ensures var fin := Admit(core, p, now).value; NewFrom(core, fin, Carried(p)) && SameDecided(core, fin)
  {
  }

  lemma DecidedTrans(a: Core, b: Core, c: Core, from: set<Packet>)
    requires SameDecided(a, b) && SameDecided(b, c) && NewFrom(a, b, from) && NewFrom(b, c, from) && Incoming(b, c)
    ensures SameDecided(a, c) && NewFrom(a, c, from)
  {
    forall k | k in c.events && !c.events[k].outgoing ensures k in a.events || c.events[k].packet in from {
      assert k in b.events ==> FinalKept(b.events[k], c.events[k]);
    }
  }

  lemma SyncDone(core: Core, p: Packet, now: Instant, next: Core, fin: Core)
    requires Sound(core) && FromPeer(core.c, p) && IsSync(p.kind) && ApplyCore(core, p, now, false) == Done(next)
    requires KeyOf(p) in core.events && core.events[KeyOf(p)] == Record(p, Buffered, false, None)
    requires KeyOf(p) in next.events ==> fin == Mark(next, KeyOf(p), Applied)
    ensures Sound(next) && Sound(fin) && Incoming(core, next) && Incoming(core, fin) && Incoming(next, fin)
    ensures NewFrom(core, fin, Carried(p)) && SameDecided(core, fin)
  {
    SyncApplies(core, p, now);
    SyncMarked(next, KeyOf(p), Applied, fin);
    IncomingTrans(core, next, fin);
    MarkedDecides(core, p, next, fin);
  }

  lemma MarkedDecides(core: Core, p: Packet, next: Core, fin: Core)
    requires IsSync(p.kind) && KeyOf(p) in core.events && core.events[KeyOf(p)].packet == p
    requires fin == Mark(next, KeyOf(p), Applied) && NewFrom(core, next, Carried(p))
    requires forall k :: k in core.events ==> k in next.events && next.events[k] == core.events[k]
    requires next.c == core.c.(syncAfter := next.c.syncAfter) && NoReceipt(core, next)
    requires forall k :: AppliedAt(next.events, k) ==> AppliedAt(core.events, k)
    ensures NewFrom(core, fin, Carried(p)) && SameDecided(core, fin)
  {
  }

  lemma SyncRefused(core: Core, key: Key, fin: Core)
    requires Sound(core) && SyncMark(core, key, Rejected, fin)
    ensures Sound(fin) && Incoming(core, fin) && SameDecided(core, fin) && fin.events.Keys == core.events.Keys
  {
    SyncMarked(core, key, Rejected, fin);
    SyncMarkRecords(core, key, Rejected, fin);
  }

  lemma IngestSync(e: Endpoint, p: Packet, now: Instant)
    requires Valid(e) && FromPeer(e.core.c, p) && IsSync(p.kind)
    requires KeyOf(p) in e.core.events && e.core.events[KeyOf(p)] == Record(p, Buffered, false, None)
    ensures var f := match Apply(e, p, now, false)
        case Done(e2) => SetStatus(e2, KeyOf(p), Applied)
        case _ => SetStatus(e, KeyOf(p), Rejected);
      Progress(e, f) && NewFrom(e.core, f.core, Carried(p)) && SameDecided(e.core, f.core)
  {
    var key := KeyOf(p);
    if Apply(e, p, now, false).Done? {
      var core := ApplyCore(e.core, p, now, false).value;
      var e2 := Apply(e, p, now, false).value;
      SyncDone(e.core, p, now, core, Mark(core, key, Applied));
      SyncOps(e, p, now, core, e2);
    } else {
      SyncRefused(e.core, key, Mark(e.core, key, Rejected));
      OpsFitExtended(e.core, Mark(e.core, key, Rejected), e.ops);
    }
  }

  lemma SyncOps(e: Endpoint, p: Packet, now: Instant, core: Core, e2: Endpoint)
    requires OpsFit(e.core, e.ops) && ApplyCore(e.core, p, now, false) == Done(core) && Apply(e, p, now, false) == Done(e2)
    requires Incoming(e.core, core) && Incoming(core, Mark(core, KeyOf(p), Applied))
    ensures e2.core == core && OpsFit(Mark(core, KeyOf(p), Applied), e2.ops)
    ensures e2.task == e.task && e2.reviews == e.reviews
  {
    OpsFitExtended(e.core, core, e.ops);
    ReplyKeeps(e.(core := core, view := ViewAfter(e.view, e.core, core, p, false)), e.core.c, p, now, false);
    OpsFitExtended(core, Mark(core, KeyOf(p), Applied), e2.ops);
  }

  /** The main preservation result for incoming traffic: whatever the authenticated
      peer sends, the endpoint stays valid, undoes nothing, decides none of its own
      events, and stores only what the packet carries. */
  lemma IngestRecordKeeps(e: Endpoint, p: Packet, now: Instant)
    requires Valid(e) && IngestRecord(e, p, now).Some?
    ensures Progress(e, IngestRecord(e, p, now).value)
    ensures NewFrom(e.core, IngestRecord(e, p, now).value.core, Carried(p))
  {
    var e1 := IngestUnfolds(e, p, now);
    IngestKeeps(e, p, now);
    DrainedAfter(e, e1, now, IngestRecord(e, p, now).value, Carried(p));
  }

  lemma IngestUnfolds(e: Endpoint, p: Packet, now: Instant) returns (e1: Endpoint)
    requires IngestRecord(e, p, now).Some?
    ensures FromPeer(e.core.c, p) && IngestBound(e, p, now) == Done(e1) && IngestRecord(e, p, now) == Drain(e1, now)
  {
    e1 := IngestBound(e, p, now).value;
  }

  lemma DrainedAfter(e: Endpoint, e1: Endpoint, now: Instant, f: Endpoint, from: set<Packet>)
    requires Progress(e, e1) && NewFrom(e.core, e1.core, from) && Drain(e1, now) == Some(f)
    ensures Progress(e, f) && NewFrom(e.core, f.core, from)
  {
    DrainKeeps(e1, now);
    ProgressTrans(e, e1, f);
    forall k | k in f.core.events && !f.core.events[k].outgoing
      ensures k in e.core.events || f.core.events[k].packet in from
    {
      assert FinalKept(e1.core.events[k], f.core.events[k]);
    }
  }

  lemma DecideReviewKeeps(e: Endpoint, p: Packet, decision: Review, now: Instant)
    requires Valid(e) && DecideReview(e, p, decision, now).Some?
    ensures var f := DecideReview(e, p, decision, now).value;
      Valid(f) && Incoming(e.core, f.core) && f.core.events.Keys == e.core.events.Keys
  {
    DrainKeeps(e.(reviews := e.reviews[p := decision]), now);
  }

  // ---- Outgoing operations ----

  lemma AddOperation(core: Core, ops: map<OpId, Operation>, id: OpId, op: Operation)
    requires OpsFit(core, ops) && OpFits(core, id, op)
    requires id in ops ==> LeftReady(ops[id]) ==> LeftReady(op) && op.packet == ops[id].packet
    ensures OpsFit(core, ops[id := op])
  {
    forall k | k in core.events && core.events[k].outgoing ensures HasOperation(core, ops[id := op], k) {
      assert HasOperation(core, ops, k);
    }
  }

  lemma RequestVouches(core: Core, task: Task, kind: Kind, request: Request)
    requires RequestedPayload(core, task, kind, request).Some?
    ensures Vouches(core, kind, RequestedPayload(core, task, kind, request).value)
  {
    if IsMaintenance(kind) {
      TemplateVouches(core, kind, if kind.Receipt? then Some(request.eventId) else None);
    }
  }

  lemma PreparedOperation(e: Endpoint, id: nat, kind: Kind, request: Request, verdict: Verdict, now: Instant)
    returns (op: Operation)
    requires Prepare(e, id, kind, request, verdict, now).Some?
    ensures Prepare(e, id, kind, request, verdict, now) == Some(e.(ops := e.ops[UserOp(id) := op]))
    ensures UserOp(id) !in e.ops && !LeftReady(op) && op.kind == kind && !op.recoveryUsed && !op.approvedOnce
    ensures op.creates.None? && (op.recoveryOnce ==> !op.maintenance) && op.maintenance == IsMaintenance(kind)
    ensures RequestedPayload(e.core, e.task, kind, request) == Some(op.payload)
  {
    op := OperationFor(e, id, kind, request, verdict, now).value;
  }

  lemma PrepareKeeps(e: Endpoint, id: nat, kind: Kind, request: Request, verdict: Verdict, now: Instant)
    requires OpsFit(e.core, e.ops) && Prepare(e, id, kind, request, verdict, now).Some?
    ensures var f := Prepare(e, id, kind, request, verdict, now).value;
      OpsFit(f.core, f.ops) && f.core == e.core && f.task == e.task
  {
    var op := PreparedOperation(e, id, kind, request, verdict, now);
    RequestVouches(e.core, e.task, kind, request);
    AddOperation(e.core, e.ops, UserOp(id), op);
  }

  lemma ConfirmKeeps(e: Endpoint, id: OpId, approve: bool, now: Instant)
    requires OpsFit(e.core, e.ops) && Confirm(e, id, approve, now).Some?
    ensures var f := Confirm(e, id, approve, now).value;
      OpsFit(f.core, f.ops) && f.core == e.core && f.task == e.task
  {
    assert OpFits(e.core, id, e.ops[id]);
    AddOperation(e.core, e.ops, id, Confirm(e, id, approve, now).value.ops[id]);
  }

  // ---- The two transactions of a dispatch ----

  /** The facts after a reservation: one new outgoing record, the outgoing cursor moved
      unless the packet is outside the stream, and possibly one permit use more. */
  predicate Reserves(core: Core, p: Packet, fin: Core) {
    && ValidEvent(p) && p.sender == core.c.local && p.recipient == core.c.peer && p.collab == core.c.id
    && p.sequence == (if IsSync(p.kind) then 0 else core.c.outSeq + 1)
    && KeyOf(p) !in core.events
    && fin.events == core.events[KeyOf(p) := Record(p, Status.Reserved, true, None)]
    && SameParties(core.c, fin.c) && fin.c.inSeq == core.c.inSeq && fin.c.lastIn == core.c.lastIn
    && fin.c.outSeq == (if IsSync(p.kind) then core.c.outSeq else p.sequence)
    && fin.c.terms == core.c.terms && fin.c.acceptances == core.c.acceptances && fin.c.agreement == core.c.agreement
  }

  lemma ReserveStream(core: Core, p: Packet, fin: Core)
    requires EventsPlaced(core) && CursorsFit(core) && SlotsUnique(core.events) && StreamStored(core)
    requires PartiesDistinct(core.c) && Reserves(core, p, fin)
    ensures EventsPlaced(fin) && CursorsFit(fin) && SlotsUnique(fin.events) && StreamStored(fin)
  {
    forall j | j in fin.events ensures Placed(fin.c, j, fin.events[j]) && CursorFits(fin.c, fin.events[j]) {
      assert j in core.events ==> Placed(core.c, j, core.events[j]) && CursorFits(core.c, core.events[j]);
    }
    forall k1, k2 | k1 in fin.events && k2 in fin.events && SameSlot(fin.events[k1].packet, fin.events[k2].packet)
      ensures k1 == k2
    {
      if k1 in core.events && k2 in core.events {
        assert SameSlot(core.events[k1].packet, core.events[k2].packet);
      }
    }
    forall n | 1 <= n <= fin.c.inSeq ensures HasSlot(fin.events, fin.c.peer, n) {
      assert HasSlot(core.events, core.c.peer, n);
      var j :| j in core.events && InSlot(core.events, j, core.c.peer, n);
      assert InSlot(fin.events, j, fin.c.peer, n);
    }
  }

  lemma ReserveSame(core: Core, p: Packet, fin: Core)
    requires Reserves(core, p, fin) && 0 <= core.c.outSeq
    ensures SameApplied(core, fin) && Extends(core, fin)
  {
  }

  lemma ReserveKeepsSound(core: Core, p: Packet, fin: Core)
    requires Sound(core) && Reserves(core, p, fin)
    ensures Sound(fin) && Extends(core, fin)
  {
    ReserveStream(core, p, fin);
    ReserveSame(core, p, fin);
    SameFactsKept(core, fin);
  }

  /** What a reservation does, given the operation it carries out. */
  lemma ReserveUnfolds(e: Endpoint, id: OpId, verdict: Verdict, connected: bool, now: Instant) returns (p: Packet)
    requires OpsFit(e.core, e.ops) && EventsPlaced(e.core) && CursorsFit(e.core)
    requires Reserve(e, id, verdict, connected, now).Some?
    ensures id in e.ops && e.ops[id].status.Ready? && p == PacketFor(e.core.c, id, e.ops[id], now)
    ensures var f := Reserve(e, id, verdict, connected, now).value;
      && Reserves(e.core, p, f.core)
      && f.ops.Keys == e.ops.Keys && (forall j :: j in e.ops && j != id ==> f.ops[j] == e.ops[j])
      && f.ops[id] == e.ops[id].(status := Sending, packet := Some(p), recoveryUsed := f.ops[id].recoveryUsed)
      && f.reviews == e.reviews && f.view == e.view && f.blocked == e.blocked
  {
    p := PacketFor(e.core.c, id, e.ops[id], now);
    assert KeyOf(p) in e.core.events ==> Placed(e.core.c, KeyOf(p), e.core.events[KeyOf(p)]);
  }

  lemma ReserveOps(e: Endpoint, id: OpId, p: Packet, f: Endpoint)
    requires OpsFit(e.core, e.ops) && Reserves(e.core, p, f.core) && Extends(e.core, f.core)
    requires id in e.ops && p.kind == e.ops[id].kind && p.payload == e.ops[id].payload && p.eventId == EventOf(id)
    requires e.ops[id].status.Ready?
    requires f.ops.Keys == e.ops.Keys && (forall j :: j in e.ops && j != id ==> f.ops[j] == e.ops[j])
    requires f.ops[id] == e.ops[id].(status := Sending, packet := Some(p), recoveryUsed := f.ops[id].recoveryUsed)
    ensures OpsFit(f.core, f.ops)
  {
    forall j | j in f.ops ensures OpFits(f.core, j, f.ops[j]) {
      OpFitsKept(e.core, f.core, j, e.ops[j]);
    }
    forall k | k in f.core.events && f.core.events[k].outgoing ensures HasOperation(f.core, f.ops, k) {
      if k in e.core.events {
        assert HasOperation(e.core, e.ops, k);
      }
    }
  }

  lemma ReserveKeeps(e: Endpoint, id: OpId, verdict: Verdict, connected: bool, now: Instant)
    requires Valid(e) && Reserve(e, id, verdict, connected, now).Some?
    ensures var f := Reserve(e, id, verdict, connected, now).value;
      Valid(f) && Extends(e.core, f.core)
  {
    var p := ReserveUnfolds(e, id, verdict, connected, now);
    var f := Reserve(e, id, verdict, connected, now).value;
    ReserveKeepsSound(e.core, p, f.core);
    ReserveOps(e, id, p, f);
  }

  lemma OpsFitFrom(core: Core, next: Core, ops: map<OpId, Operation>)
    requires OpsFit(core, ops) && Extends(core, next)
    requires forall k :: k in next.events && next.events[k].outgoing ==> k in core.events && core.events[k].outgoing
    ensures OpsFit(next, ops)
  {
    forall id | id in ops ensures OpFits(next, id, ops[id]) {
      OpFitsKept(core, next, id, ops[id]);
    }
    forall k | k in next.events && next.events[k].outgoing ensures HasOperation(next, ops, k) {
      assert FinalKept(core.events[k], next.events[k]) && HasOperation(core, ops, k);
    }
  }

  lemma OutgoingFrame(core: Core, p: Packet, now: Instant)
    requires ApplyCore(core, p, now, true).Done?
    ensures var next := ApplyCore(core, p, now, true).value;
      && Frame(core, next) && Extends(core, next)
      && forall k :: k in next.events && next.events[k].outgoing ==> k in core.events && core.events[k].outgoing
  {
    ApplyFrame(core, p, now, true);
    ApplyTouches(core, p, now, true);
    var next := ApplyCore(core, p, now, true).value;
    forall k | k in core.events ensures FinalKept(core.events[k], next.events[k]) {
    }
  }

  lemma ApplyOutgoingOps(e: Endpoint, p: Packet, now: Instant)
    requires OpsFit(e.core, e.ops) && Apply(e, p, now, true).Done?
    ensures var f := Apply(e, p, now, true).value;
      && ApplyCore(e.core, p, now, true) == Done(f.core) && OpsFit(f.core, f.ops) && f.task == e.task
      && OpsKept(e.ops, f.ops)
  {
    OutgoingFrame(e.core, p, now);
    var core := ApplyCore(e.core, p, now, true).value;
    OpsFitFrom(e.core, core, e.ops);
    ReplyKeeps(e.(core := core, view := ViewAfter(e.view, e.core, core, p, true)), e.core.c, p, now, true);
  }

  lemma DeliveredOps(e: Endpoint, id: OpId, stored: bool)
    requires OpsFit(e.core, e.ops) && id in e.ops && LeftReady(e.ops[id])
    ensures var f := Delivered(e, id, stored); OpsFit(f.core, f.ops) && f.core == e.core && f.task == e.task
  {
    assert OpFits(e.core, id, e.ops[id]);
    if stored {
      AddOperation(e.core, e.ops, id, e.ops[id].(status := OpStatus.Accepted));
    }
  }

  lemma MarkApplied(e: Endpoint, key: Key)
    requires OpsFit(e.core, e.ops) && key in e.core.events && e.core.events[key].status.Reserved?
    ensures var f := SetStatus(e, key, Status.Applied); OpsFit(f.core, f.ops) && f.ops == e.ops && f.task == e.task
  {
    OpsFitFrom(e.core, Mark(e.core, key, Status.Applied), e.ops);
  }

  /** The packet of a submission, and the facts after it. */
  lemma SubmitUnfolds(e: Endpoint, id: OpId, stored: bool, connected: bool, now: Instant) returns (p: Packet)
    requires OpsFit(e.core, e.ops) && Submit(e, id, stored, connected, now).Some?
    ensures id in e.ops && e.ops[id].status.Sending? && e.ops[id].packet == Some(p)
    ensures KeyOf(p) in e.core.events && e.core.events[KeyOf(p)].packet == p && e.core.events[KeyOf(p)].outgoing
    ensures Submit(e, id, stored, connected, now) ==
      if e.core.events[KeyOf(p)].status.Reserved? then
        if Apply(e, p, now, true).Done? then
          Some(Delivered(SetStatus(Apply(e, p, now, true).value, KeyOf(p), Status.Applied), id, stored))
        else None
      else Some(Delivered(e, id, stored))
  {
    p := e.ops[id].packet.value;
    assert OpFits(e.core, id, e.ops[id]);
  }

  lemma SubmitOps(e: Endpoint, id: OpId, p: Packet, now: Instant, e2: Endpoint)
    requires OpsFit(e.core, e.ops) && id in e.ops && LeftReady(e.ops[id]) && KeyOf(p) in e.core.events
    requires e.core.events[KeyOf(p)].status.Reserved? && e.core.events[KeyOf(p)].packet == p && e.core.events[KeyOf(p)].outgoing
    requires Apply(e, p, now, true) == Done(e2)
    ensures Applies(e.core, KeyOf(p), now, true, Mark(e2.core, KeyOf(p), Status.Applied))
    ensures OpsFit(Mark(e2.core, KeyOf(p), Status.Applied), e2.ops)
    ensures id in e2.ops && e2.ops[id] == e.ops[id]
  {
    ApplyOutgoingOps(e, p, now);
    OutgoingFrame(e.core, p, now);
    MarkApplied(e2, KeyOf(p));
    OutgoingApplies(e.core, p, now, e2.core);
  }

  lemma OutgoingApplies(core: Core, p: Packet, now: Instant, next: Core)
    requires KeyOf(p) in core.events && core.events[KeyOf(p)].status.Reserved?
    requires core.events[KeyOf(p)].packet == p && core.events[KeyOf(p)].outgoing
    requires ApplyCore(core, p, now, true) == Done(next) && Frame(core, next)
    ensures Applies(core, KeyOf(p), now, true, Mark(next, KeyOf(p), Status.Applied))
  {
  }

  lemma SubmitKeeps(e: Endpoint, id: OpId, stored: bool, connected: bool, now: Instant)
    requires Valid(e) && Submit(e, id, stored, connected, now).Some?
    ensures var f := Submit(e, id, stored, connected, now).value; Valid(f) && Extends(e.core, f.core)
    ensures var p := e.ops[id].packet.value; var f := Submit(e, id, stored, connected, now).value;
      KeyOf(p) in f.core.events && f.core.events[KeyOf(p)].packet == p && f.core.events[KeyOf(p)].status.Applied?
  {
    var p := SubmitUnfolds(e, id, stored, connected, now);
    var k := KeyOf(p);
    assert Placed(e.core.c, k, e.core.events[k]);
    if e.core.events[k].status.Reserved? {
      var e2 := Apply(e, p, now, true).value;
      SubmitOps(e, id, p, now, e2);
      var fin := Mark(e2.core, k, Status.Applied);
      AppliesKeepsSound(e.core, k, now, true, fin);
      AppliesExtends(e.core, k, now, true, fin);
      AppliesFrame(e.core, k, now, true, fin);
      DeliveredOps(SetStatus(e2, k, Status.Applied), id, stored);
    } else {
      DeliveredOps(e, id, stored);
    }
  }

  lemma RevokeKeeps(e: Endpoint)
    requires Valid(e)
    ensures Valid(Revoke(e)) && Extends(e.core, Revoke(e).core)
  {
    LooseSound(e.core, Revoke(e).core);
    OpsFitFrom(e.core, Revoke(e).core, e.ops);
  }

  lemma OpenStream(local: Urn, task: Task, id: nat, tag: nat, peer: Urn, invitation: Option<Packet>, now: Instant)
    requires Open(local, task, id, tag, peer, invitation, now).Some?
    ensures var core := Open(local, task, id, tag, peer, invitation, now).value.core;
      && PartiesDistinct(core.c) && EventsPlaced(core) && SlotsUnique(core.events) && CursorsFit(core) && StreamStored(core)
  {
    var core := Open(local, task, id, tag, peer, invitation, now).value.core;
    if invitation.Some? {
      assert InSlot(core.events, KeyOf(invitation.value), peer, 1);
    }
  }

  lemma OpenSound(local: Urn, task: Task, id: nat, tag: nat, peer: Urn, invitation: Option<Packet>, now: Instant)
    requires Open(local, task, id, tag, peer, invitation, now).Some?
    ensures Sound(Open(local, task, id, tag, peer, invitation, now).value.core)
  {
    OpenStream(local, task, id, tag, peer, invitation, now);
    NewSound(Open(local, task, id, tag, peer, invitation, now).value.core);
  }

  /** Before anything but an invitation has been applied, the negotiated facts are empty. */
  lemma NewSound(core: Core)
    requires PartiesDistinct(core.c) && EventsPlaced(core) && SlotsUnique(core.events) && CursorsFit(core) && StreamStored(core)
    requires core.c.terms.None? && core.c.acceptances == map[] && core.c.agreement.None?
    requires forall k :: AppliedAt(core.events, k) ==> core.events[k].packet.kind.Invite?
    ensures Sound(core)
  {
    assert IsHistory(core, []);
  }

  lemma OpenOps(local: Urn, task: Task, id: nat, tag: nat, peer: Urn, invitation: Option<Packet>, now: Instant)
    requires Open(local, task, id, tag, peer, invitation, now).Some?
    ensures var e := Open(local, task, id, tag, peer, invitation, now).value; OpsFit(e.core, e.ops)
  {
  }

  lemma OpenValid(local: Urn, task: Task, id: nat, tag: nat, peer: Urn, invitation: Option<Packet>, now: Instant)
    requires Open(local, task, id, tag, peer, invitation, now).Some?
    ensures var e := Open(local, task, id, tag, peer, invitation, now).value;
      && Valid(e) && e.core.c.local == local && e.core.c.peer == peer && e.core.c.id == id
      && e.core.c.initiator == (if invitation.Some? then peer else local)
      && (forall k :: k in e.core.events && !e.core.events[k].outgoing ==> invitation == Some(e.core.events[k].packet))
  {
    OpenSound(local, task, id, tag, peer, invitation, now);
    OpenOps(local, task, id, tag, peer, invitation, now);
  }

  /** Sending stores no incoming event. */
  lemma SubmitIncoming(e: Endpoint, id: OpId, stored: bool, connected: bool, now: Instant)
    requires OpsFit(e.core, e.ops) && Submit(e, id, stored, connected, now).Some?
    ensures var f := Submit(e, id, stored, connected, now).value; f.core.events.Keys == e.core.events.Keys
  {
    var p := SubmitUnfolds(e, id, stored, connected, now);
    if e.core.events[KeyOf(p)].status.Reserved? {
      ApplyOutgoingOps(e, p, now);
      OutgoingFrame(e.core, p, now);
    }
  }
}
