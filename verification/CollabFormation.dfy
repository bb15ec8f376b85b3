/** The moment of formation, and withdrawals that it overtakes: one that the coordinator
    had reserved before it formed, and sends afterwards, makes the peer refuse for good.
    The exact condition for the peer to record a formation is in `CollabRecording`. */
module CollabFormation {
  import opened Basics
  import opened CollabTypes
  import opened CollabReducer
  import opened CollabInbox
  import opened CollabOutbox
  import opened CollabInvariant
  import opened CollabSteps
  import opened CollabIncoming
  import opened CollabBudget

  predicate OwnRef(c: Collab, f: Formation, accept: EventId) {
    exists ref :: ref in f.acceptances && ref.actor == c.local && ref.eventId == accept
  }

  /** An own withdrawal of the consent that `f` refers to, numbered within its cursor:
      it was reserved, though not yet applied, when `f` was formed. */
  predicate Undercuts(c: Collab, f: Formation, r: Record) {
    && r.outgoing && r.packet.kind.Withdraw? && r.packet.payload.WithdrawBody?
    && r.packet.sequence <= f.initiatorSequence && OwnRef(c, f, r.packet.payload.acceptEventId)
  }

  ghost predicate Undercut(core: Core, f: Formation) {
    exists k :: k in core.events && Undercuts(core.c, f, core.events[k])
  }

  /** Own events keep their packets, and new ones are numbered past the cursor. */
  ghost predicate OwnGrows(core: Core, next: Core) {
    && SameParties(core.c, next.c) && core.c.outSeq <= next.c.outSeq
    && (forall k :: k in core.events ==> k in next.events && next.events[k].packet == core.events[k].packet
                                         && next.events[k].outgoing == core.events[k].outgoing)
    && (forall k :: k in next.events && next.events[k].outgoing && k !in core.events ==> NewOwn(core, next.events[k]))
  }

  predicate NewOwn(core: Core, r: Record) {
    IsSync(r.packet.kind) || r.packet.sequence > core.c.outSeq
  }

  lemma ExtendsGrows(core: Core, next: Core)
    requires Extends(core, next)
    requires forall k :: k in next.events && next.events[k].outgoing && k !in core.events ==> NewOwn(core, next.events[k])
    ensures OwnGrows(core, next)
  {
    forall k | k in core.events
      ensures k in next.events && next.events[k].packet == core.events[k].packet
      ensures next.events[k].outgoing == core.events[k].outgoing
    {
      assert FinalKept(core.events[k], next.events[k]);
    }
  }

  lemma ReserveGrows(e: Endpoint, id: OpId, verdict: Verdict, connected: bool, now: Instant)
    requires OpsFit(e.core, e.ops) && EventsPlaced(e.core) && CursorsFit(e.core)
    requires Reserve(e, id, verdict, connected, now).Some?
    ensures OwnGrows(e.core, Reserve(e, id, verdict, connected, now).value.core)
  {
    var p := ReserveUnfolds(e, id, verdict, connected, now);
  }

  lemma SubmitGrows(e: Endpoint, id: OpId, stored: bool, connected: bool, now: Instant)
    requires Valid(e) && Submit(e, id, stored, connected, now).Some?
    ensures OwnGrows(e.core, Submit(e, id, stored, connected, now).value.core)
  {
    SubmitKeeps(e, id, stored, connected, now);
    SubmitIncoming(e, id, stored, connected, now);
    ExtendsGrows(e.core, Submit(e, id, stored, connected, now).value.core);
  }

  lemma ReceiveGrows(e: Endpoint, arrival: Arrival)
    requires Valid(e)
    ensures OwnGrows(e.core, Receive(e, arrival).core)
  {
    ReceiveKeeps(e, arrival);
    ExtendsGrows(e.core, Receive(e, arrival).core);
  }

  lemma DoGrows(e: Endpoint, d: Deed)
    requires Valid(e)
    ensures OwnGrows(e.core, Do(e, d).core)
  {
    match d
    case ReservesPacket(id, verdict, connected, now) =>
      if Reserve(e, id, verdict, connected, now).Some? {
        ReserveGrows(e, id, verdict, connected, now);
      }
    case Submits(id, stored, connected, now) =>
      if Submit(e, id, stored, connected, now).Some? {
        SubmitGrows(e, id, stored, connected, now);
      }
    case Receives(arrival) => ReceiveGrows(e, arrival);
    case _ => QuietGrows(e, d);
  }

  lemma QuietGrows(e: Endpoint, d: Deed)
    requires OpsFit(e.core, e.ops) && !d.ReservesPacket? && !d.Submits? && !d.Receives?
    ensures OwnGrows(e.core, Do(e, d).core)
  {
    match d
    case Prepares(tag, kind, request, verdict, now) =>
      if Prepare(e, tag, kind, request, verdict, now).Some? {
        PrepareKeeps(e, tag, kind, request, verdict, now);
      }
    case Confirms(id, approve, now) =>
      if Confirm(e, id, approve, now).Some? {
        ConfirmKeeps(e, id, approve, now);
      }
    case _ =>
  }

  lemma GrowsKeeps(core: Core, next: Core, f: Formation)
    requires OwnGrows(core, next) && f.initiatorSequence <= core.c.outSeq
    ensures Undercut(next, f) <==> Undercut(core, f)
  {
    if Undercut(core, f) {
      var k :| k in core.events && Undercuts(core.c, f, core.events[k]);
      assert Undercuts(next.c, f, next.events[k]);
    }
    if Undercut(next, f) {
      var k :| k in next.events && Undercuts(next.c, f, next.events[k]);
      assert k in core.events ==> Undercuts(core.c, f, core.events[k]);
    }
  }

  lemma {:induction false} UndercutFixed(e: Endpoint, f: Formation, deeds: seq<Deed>)
    requires Valid(e) && f.initiatorSequence <= e.core.c.outSeq
    ensures Valid(DoAll(e, deeds)) && f.initiatorSequence <= DoAll(e, deeds).core.c.outSeq
    ensures SameParties(e.core.c, DoAll(e, deeds).core.c)
    ensures Undercut(DoAll(e, deeds).core, f) <==> Undercut(e.core, f)
    decreases |deeds|
  {
    if deeds == [] {
    } else {
      var before := DoAll(e, deeds[..|deeds|-1]);
      UndercutFixed(e, f, deeds[..|deeds|-1]);
      DoValid(before, deeds[|deeds|-1]);
      DoGrows(before, deeds[|deeds|-1]);
      GrowsKeeps(before.core, DoAll(e, deeds).core, f);
    }
  }

  lemma GrowsTrans(a: Core, b: Core, c: Core)
    requires OwnGrows(a, b) && OwnGrows(b, c)
    ensures OwnGrows(a, c)
  {
    forall k | k in c.events && c.events[k].outgoing && k !in a.events ensures NewOwn(a, c.events[k]) {
      assert k in b.events ==> b.events[k].outgoing && c.events[k].packet == b.events[k].packet;
    }
  }

  lemma GrowsSelf(core: Core)
    ensures OwnGrows(core, core)
  {
  }

  lemma {:induction false} DeedsKeep(e: Endpoint, deeds: seq<Deed>)
    requires Valid(e)
    ensures Valid(DoAll(e, deeds)) && Extends(e.core, DoAll(e, deeds).core) && OwnGrows(e.core, DoAll(e, deeds).core)
    decreases |deeds|
  {
    if deeds == [] {
      IncomingSelf(e.core);
      GrowsSelf(e.core);
    } else {
      var before := DoAll(e, deeds[..|deeds|-1]);
      DeedsKeep(e, deeds[..|deeds|-1]);
      DoKeeps(before, deeds[|deeds|-1]);
      ExtendsBoth(e.core, before.core, DoAll(e, deeds).core);
      GrowsTrans(e.core, before.core, DoAll(e, deeds).core);
    }
  }

  lemma ExtendsBoth(a: Core, b: Core, c: Core)
    requires Extends(a, b) && Extends(b, c)
    ensures Extends(a, c)
  {
    forall k | k in a.events ensures k in c.events && FinalKept(a.events[k], c.events[k]) {
      assert FinalKept(a.events[k], b.events[k]) && FinalKept(b.events[k], c.events[k]);
    }
  }

  lemma DoKeeps(e: Endpoint, d: Deed)
    requires Valid(e)
    ensures Valid(Do(e, d)) && Extends(e.core, Do(e, d).core) && OwnGrows(e.core, Do(e, d).core)
  {
    DoValid(e, d);
    DoGrows(e, d);
    match d
    case ReservesPacket(id, verdict, connected, now) =>
      if Reserve(e, id, verdict, connected, now).Some? {
        ReserveKeeps(e, id, verdict, connected, now);
      }
    case Submits(id, stored, connected, now) =>
      if Submit(e, id, stored, connected, now).Some? {
        SubmitKeeps(e, id, stored, connected, now);
      }
    case Receives(arrival) => ReceiveKeeps(e, arrival);
    case Revokes => RevokeKeeps(e);
    case _ => PlainDeed(e, d);
  }

  // ---- The moment of formation ----

  predicate Unspoilt(core: Core, f: Formation) {
    forall i :: 0 <= i < |f.acceptances| && f.acceptances[i].actor == core.c.local ==>
      !WithdrawnBy(core.events, core.c.local, f.acceptances[i].eventId, f.initiatorSequence)
  }

  /** An agreement that the coordinator records between two states is its formation at the
      outgoing cursor, and its own consent is not withdrawn by then. */
  ghost predicate FormsWithin(core: Core, next: Core) {
    core.c.agreement.None? && next.c.agreement.Some? && next.c.initiator == next.c.local ==>
      var f := next.c.agreement.value.formation;
      f.initiatorSequence == next.c.outSeq && f.peerSequence <= next.c.inSeq && Unspoilt(next, f)
  }

  lemma AppliedForms(core: Core, k: Key, now: Instant, outgoing: bool, fin: Core)
    requires Sound(core) && Applies(core, k, now, outgoing, fin)
    requires outgoing ==> core.events[k].packet.kind.Agree? ==> core.c.agreement.Some?
    ensures FormsWithin(core, fin)
  {
    if core.c.agreement.None? && fin.c.agreement.Some? && fin.c.initiator == fin.c.local {
      var packet := core.events[k].packet;
      var before := Before(core, packet, outgoing);
      AppliesFrame(core, k, now, outgoing, fin);
      assert Placed(core.c, k, core.events[k]);
      AppliedFacts(core, k, now, outgoing, fin);
      ApplyTouches(before, packet, now, outgoing);
      ApplyConsents(before, packet, now, outgoing);
      var c := before.c.(acceptances := fin.c.acceptances);
      assert packet.kind.Accept? && fin.c.agreement == Some(AgreementFor(c.id, FormationOf(c, now)));
      FormedUnspoilt(core, k, c, now, fin);
    }
  }

  lemma OwnReference(c: Collab, now: Instant, i: nat)
    requires ReadyToForm(c, now) && PartiesDistinct(c) && i < |FormationOf(c, now).acceptances|
    requires FormationOf(c, now).acceptances[i].actor == c.local
    ensures FormationOf(c, now).acceptances[i] == RefOf(c, c.local)
  {
  }

  lemma FormedUnspoilt(core: Core, k: Key, c: Collab, now: Instant, fin: Core)
    requires EventsPlaced(core) && PartiesDistinct(core.c) && WithdrawalsNamed(core) && ActiveNotWithdrawn(core)
    requires core.c.agreement.None? && SameRecords(core, k, fin) && SameParties(core.c, fin.c)
    requires k in core.events && core.events[k].packet.kind.Accept? && !core.events[k].status.Applied?
    requires core.events[k].packet.payload.AcceptBody? && ReadyToForm(c, now) && SameParties(core.c, c)
    requires c.acceptances == core.c.acceptances[core.events[k].packet.sender := ConsentOf(core.events[k].packet)]
    ensures Unspoilt(fin, FormationOf(c, now))
  {
    var f := FormationOf(c, now);
    assert Placed(core.c, k, core.events[k]);
    forall i | 0 <= i < |f.acceptances| && f.acceptances[i].actor == fin.c.local
      ensures !WithdrawnBy(fin.events, fin.c.local, f.acceptances[i].eventId, f.initiatorSequence)
    {
      OwnReference(c, now, i);
      NotWithdrawn(core, k, c.acceptances[c.local], fin, f.initiatorSequence);
    }
  }

  /** A consent that is active, or given by the event `k` just now, is not withdrawn. */
  lemma NotWithdrawn(core: Core, k: Key, a: Consent, fin: Core, upTo: int)
    requires WithdrawalsNamed(core) && ActiveNotWithdrawn(core) && core.c.agreement.None?
    requires SameRecords(core, k, fin) && fin.c.local == core.c.local
    requires k in core.events && k == KeyOf(core.events[k].packet) && core.events[k].packet.kind.Accept?
    requires !core.events[k].status.Applied?
    requires if core.events[k].packet.sender == core.c.local then a.eventId == k.eventId
             else core.c.local in core.c.acceptances && core.c.acceptances[core.c.local] == a && a.active
    ensures !WithdrawnBy(fin.events, fin.c.local, a.eventId, upTo)
  {
    forall j | AppliedAt(fin.events, j) && fin.events[j].packet.kind.Withdraw? && fin.events[j].packet.sender == core.c.local
      ensures fin.events[j].packet.payload.WithdrawBody? && fin.events[j].packet.payload.acceptEventId != a.eventId
    {
      assert AppliedAt(core.events, j) && NamesAccept(core.events, core.events[j]);
    }
    assert forall j :: j in fin.events && Withdraws(fin.events[j], fin.c.local, a.eventId, upTo) ==> AppliedAt(fin.events, j);
  }

  /** What a transaction that stores no own event forms, it forms at the cursor. */
  lemma FormsTrans(a: Core, b: Core, c: Core)
    requires FormsWithin(a, b) && FormsWithin(b, c) && Incoming(a, b) && Incoming(b, c) && EventsPlaced(c)
    ensures FormsWithin(a, c)
  {
    if a.c.agreement.None? && b.c.agreement.Some? && c.c.initiator == c.c.local {
      var f := c.c.agreement.value.formation;
      forall i, j | 0 <= i < |f.acceptances| && f.acceptances[i].actor == c.c.local
        && j in c.events && Withdraws(c.events[j], c.c.local, f.acceptances[i].eventId, f.initiatorSequence)
        ensures j in b.events && Withdraws(b.events[j], b.c.local, f.acceptances[i].eventId, f.initiatorSequence)
      {
        assert Placed(c.c, j, c.events[j]);
      }
    }
  }

  lemma SameForms(core: Core, next: Core)
    requires next.c.agreement == core.c.agreement
    ensures FormsWithin(core, next)
  {
  }

  lemma StepForms(e: Endpoint, now: Instant)
    requires Valid(e) && !DrainStep(e, now).Abort?
    ensures FormsWithin(e.core, DrainStep(e, now).e.core)
  {
    if NextTurn(e.core, e.reviews, now).Take? {
      TurnCases(e.core, e.reviews, now);
      TakeKeeps(e.core, e.reviews, now);
      var turn := NextTurn(e.core, e.reviews, now);
      if turn.reason.WasApplied? {
        AppliedForms(e.core, turn.key, now, false, turn.core);
      }
    }
    StepOps(e, now);
  }

  ghost predicate FormsDrained(e: Endpoint, f: Endpoint) {
    Drained(e, f) && FormsWithin(e.core, f.core)
  }

  lemma FormsDrainedTrans(e: Endpoint, f: Endpoint, g: Endpoint)
    requires FormsDrained(e, f) && FormsDrained(f, g)
    ensures FormsDrained(e, g)
  {
    ProgressTrans(e, f, g);
    FormsTrans(e.core, f.core, g.core);
  }

  lemma DrainForms(e: Endpoint, now: Instant)
    requires Valid(e) && Drain(e, now).Some?
    ensures FormsWithin(e.core, Drain(e, now).value.core)
  {
    var inv := (x: Endpoint) => Valid(x);
    var rel := (x: Endpoint, y: Endpoint) => Valid(x) ==> FormsDrained(x, y);
    forall x | inv(x) ensures rel(x, x) {
      ProgressRefl(x);
    }
    forall x, y, z | rel(x, y) && rel(y, z) ensures rel(x, z) {
      if Valid(x) {
        FormsDrainedTrans(x, y, z);
      }
    }
    forall x | inv(x) && !StepAt(now)(x).Abort? ensures inv(StepAt(now)(x).e) && rel(x, StepAt(now)(x).e) {
      StepKeeps(x, now);
      StepForms(x, now);
    }
    LoopInduction(e, StepAt(now), MAX_EVENTS, DrainLoop(e, now, MAX_EVENTS).value, inv, rel);
    DrainKeeps(e, now);
  }

  lemma IngestForms(e: Endpoint, packet: Packet, now: Instant)
    requires Valid(e) && IngestRecord(e, packet, now).Some?
    ensures FormsWithin(e.core, IngestRecord(e, packet, now).value.core)
  {
    var e1 := IngestUnfolds(e, packet, now);
    IngestKeeps(e, packet, now);
    DrainForms(e1, now);
    DrainKeeps(e1, now);
    SameForms(e.core, e1.core);
    FormsTrans(e.core, e1.core, Drain(e1, now).value.core);
  }

  lemma ReceiveForms(e: Endpoint, a: Arrival)
    requires Valid(e)
    ensures FormsWithin(e.core, Receive(e, a).core)
  {
    match a
    case Arrives(packet, now) =>
      if IngestRecord(e, packet, now).Some? {
        IngestForms(e, packet, now);
      }
    case Decides(packet, decision, now) =>
      if DecideReview(e, packet, decision, now).Some? {
        DrainForms(e.(reviews := e.reviews[packet := decision]), now);
      }
  }

  /** An agreement event is sent only where the agreement is recorded. */
  lemma AgreementSender(e: Endpoint, k: Key)
    requires OpsFit(e.core, e.ops) && k in e.core.events && e.core.events[k].outgoing
    ensures e.core.events[k].packet.kind.Agree? ==> e.core.c.initiator == e.core.c.local && e.core.c.agreement.Some?
  {
    assert HasOperation(e.core, e.ops, k);
    assert OpFits(e.core, k.eventId.op, e.ops[k.eventId.op]);
  }

  lemma SubmitForms(e: Endpoint, id: OpId, stored: bool, connected: bool, now: Instant)
    requires Valid(e) && Submit(e, id, stored, connected, now).Some?
    ensures FormsWithin(e.core, Submit(e, id, stored, connected, now).value.core)
  {
    var p := SubmitUnfolds(e, id, stored, connected, now);
    if e.core.events[KeyOf(p)].status.Reserved? {
      var e2 := Apply(e, p, now, true).value;
      SubmitOps(e, id, p, now, e2);
      AgreementSender(e, KeyOf(p));
      AppliedForms(e.core, KeyOf(p), now, true, Mark(e2.core, KeyOf(p), Status.Applied));
      DeliveredOps(SetStatus(e2, KeyOf(p), Status.Applied), id, stored);
    }
  }

  lemma DoForms(e: Endpoint, d: Deed)
    requires Valid(e)
    ensures FormsWithin(e.core, Do(e, d).core)
  {
    match d
    case ReservesPacket(id, verdict, connected, now) =>
      if Reserve(e, id, verdict, connected, now).Some? {
        var p := ReserveUnfolds(e, id, verdict, connected, now);
      }
    case Submits(id, stored, connected, now) =>
      if Submit(e, id, stored, connected, now).Some? {
        SubmitForms(e, id, stored, connected, now);
      }
    case Receives(arrival) => ReceiveForms(e, arrival);
    case Revokes =>
    case _ => PlainDeed(e, d);
  }

  /** Only these deeds record an agreement, and they number no own event. */
  lemma FormingKeeps(e: Endpoint, d: Deed)
    requires Valid(e) && e.core.c.agreement.None? && Do(e, d).core.c.agreement.Some?
    ensures Do(e, d).core.c.outSeq == e.core.c.outSeq
  {
    match d
    case ReservesPacket(id, verdict, connected, now) =>
      if Reserve(e, id, verdict, connected, now).Some? {
        var p := ReserveUnfolds(e, id, verdict, connected, now);
      }
    case Submits(id, stored, connected, now) =>
      if Submit(e, id, stored, connected, now).Some? {
        SubmitCursor(e, id, stored, connected, now);
      }
    case Receives(arrival) => ReceiveKeeps(e, arrival);
    case Revokes =>
    case _ => PlainDeed(e, d);
  }

  lemma SubmitCursor(e: Endpoint, id: OpId, stored: bool, connected: bool, now: Instant)
    requires Valid(e) && Submit(e, id, stored, connected, now).Some?
    ensures Submit(e, id, stored, connected, now).value.core.c.outSeq == e.core.c.outSeq
  {
    var p := SubmitUnfolds(e, id, stored, connected, now);
    if e.core.events[KeyOf(p)].status.Reserved? {
      var e2 := Apply(e, p, now, true).value;
      SubmitOps(e, id, p, now, e2);
      AppliesFrame(e.core, KeyOf(p), now, true, Mark(e2.core, KeyOf(p), Status.Applied));
      DeliveredOps(SetStatus(e2, KeyOf(p), Status.Applied), id, stored);
    }
  }

  // ---- A withdrawal overtaken by the formation ----

  /** `k` was reserved, and not yet sent, as the withdrawal of the own consent `accept`
      that `f` refers to, and `f` numbers it within its cursor. */
  predicate Overtaken(core: Core, f: Formation, accept: EventId, k: Key) {
    && k in core.events && core.events[k].status.Reserved? && Undercuts(core.c, f, core.events[k])
    && core.events[k].packet.payload.acceptEventId == accept
  }

  lemma WithdrawsUndercuts(core: Core, f: Formation, accept: EventId, k: Key)
    requires EventsPlaced(core) && OwnRef(core.c, f, accept) && k in core.events
    ensures Withdraws(core.events[k], core.c.local, accept, f.initiatorSequence) <==>
      AppliedAt(core.events, k) && Undercuts(core.c, f, core.events[k])
      && core.events[k].packet.payload.acceptEventId == accept
  {
    assert Placed(core.c, k, core.events[k]);
  }

  /** The deed `d` makes the coordinator form an agreement. Whatever it does afterwards, it
      holds an applied withdrawal of its own consent within the formation's cursor if and
      only if it had reserved that withdrawal before the formation and has sent it since. */
  lemma WithdrawnIffUndercut(e: Endpoint, d: Deed, deeds: seq<Deed>, accept: EventId)
    requires Valid(e) && e.core.c.initiator == e.core.c.local
    requires e.core.c.agreement.None? && Do(e, d).core.c.agreement.Some?
    requires OwnRef(e.core.c, Do(e, d).core.c.agreement.value.formation, accept)
    ensures var f := Do(e, d).core.c.agreement.value.formation;
      var core := DoAll(Do(e, d), deeds).core;
      && core.c.agreement.Some? && core.c.agreement.value.formation == f && f.initiatorSequence == e.core.c.outSeq
      && (WithdrawnBy(core.events, core.c.local, accept, f.initiatorSequence) <==>
            exists k :: Overtaken(e.core, f, accept, k) && Overtaken(Do(e, d).core, f, accept, k) && AppliedAt(core.events, k))
  {
    var formed := Do(e, d);
    var f := formed.core.c.agreement.value.formation;
    var core := DoAll(formed, deeds).core;
    DoKeeps(e, d);
    DoForms(e, d);
    FormingKeeps(e, d);
    DeedsKeep(formed, deeds);
    forall k | k in core.events && Withdraws(core.events[k], core.c.local, accept, f.initiatorSequence)
      ensures Overtaken(e.core, f, accept, k) && Overtaken(formed.core, f, accept, k) && AppliedAt(core.events, k)
    {
      WithdrawsUndercuts(core, f, accept, k);
      SentSince(e.core, formed.core, core, f, accept, k);
    }
    forall k | Overtaken(formed.core, f, accept, k) && AppliedAt(core.events, k)
      ensures Withdraws(core.events[k], core.c.local, accept, f.initiatorSequence)
    {
      assert FinalKept(formed.core.events[k], core.events[k]);
      WithdrawsUndercuts(core, f, accept, k);
    }
  }

  /** An own withdrawal within the cursor was there, and unsent, before the formation. */
  lemma SentSince(before: Core, formed: Core, core: Core, f: Formation, accept: EventId, k: Key)
    requires Extends(before, formed) && OwnGrows(before, formed) && EventsPlaced(before) && EventsPlaced(formed)
    requires Extends(formed, core) && OwnGrows(formed, core) && Unspoilt(formed, f)
    requires f.initiatorSequence == before.c.outSeq && before.c.outSeq == formed.c.outSeq
    requires OwnRef(formed.c, f, accept) && AppliedAt(core.events, k) && Undercuts(core.c, f, core.events[k])
    requires core.events[k].packet.payload.acceptEventId == accept
    ensures Overtaken(before, f, accept, k) && Overtaken(formed, f, accept, k)
  {
    assert k in formed.events && Undercuts(formed.c, f, formed.events[k]);
    assert k in before.events && Undercuts(before.c, f, before.events[k]);
    assert FinalKept(before.events[k], formed.events[k]);
    assert Placed(before.c, k, before.events[k]) && Placed(formed.c, k, formed.events[k]);
    var i :| 0 <= i < |f.acceptances| && f.acceptances[i].actor == formed.c.local && f.acceptances[i].eventId == accept;
    assert !Withdraws(formed.events[k], formed.c.local, f.acceptances[i].eventId, f.initiatorSequence);
  }

  // ---- The peer's side ----

  /** A reference of `f` whose consent its own actor has withdrawn within the cursor. */
  ghost predicate Spoiled(core: Core, f: Formation) {
    exists i :: 0 <= i < |f.acceptances|
      && WithdrawnBy(core.events, f.acceptances[i].actor, f.acceptances[i].eventId, Cursor(core.c, f, f.acceptances[i].actor))
  }

  lemma {:induction false} SpoiledRefs(core: Core, f: Formation, refs: seq<AcceptanceRef>, seen: set<Urn>, i: nat)
    requires i < |refs| && WithdrawnBy(core.events, refs[i].actor, refs[i].eventId, Cursor(core.c, f, refs[i].actor))
    ensures CheckRefs(core, f, refs, seen) != Pass
    decreases i
  {
    if i == 0 || CheckRef(core, f, refs[0], seen) != Pass {
    } else {
      assert refs[1..][i-1] == refs[i];
      SpoiledRefs(core, f, refs[1..], seen + {refs[0].actor}, i - 1);
    }
  }

  lemma SpoiledKept(core: Core, next: Core, f: Formation)
    requires Spoiled(core, f) && Extends(core, next)
    ensures Spoiled(next, f)
  {
    var i :| 0 <= i < |f.acceptances|
      && WithdrawnBy(core.events, f.acceptances[i].actor, f.acceptances[i].eventId, Cursor(core.c, f, f.acceptances[i].actor));
    var ref := f.acceptances[i];
    var k :| k in core.events && Withdraws(core.events[k], ref.actor, ref.eventId, Cursor(core.c, f, ref.actor));
    assert FinalKept(core.events[k], next.events[k]);
    assert Withdraws(next.events[k], ref.actor, ref.eventId, Cursor(next.c, f, ref.actor));
  }

  /** The party that did not initiate records no agreement by sending. */
  lemma SendingRecordsNone(e: Endpoint, id: OpId, stored: bool, connected: bool, now: Instant)
    requires Valid(e) && Submit(e, id, stored, connected, now).Some? && e.core.c.initiator == e.core.c.peer
    ensures Submit(e, id, stored, connected, now).value.core.c.agreement == e.core.c.agreement
  {
    var p := SubmitUnfolds(e, id, stored, connected, now);
    if e.core.events[KeyOf(p)].status.Reserved? {
      var e2 := Apply(e, p, now, true).value;
      SubmitOps(e, id, p, now, e2);
      AgreementSender(e, KeyOf(p));
      assert Placed(e.core.c, KeyOf(p), e.core.events[KeyOf(p)]);
      ApplyTouches(e.core, p, now, true);
      ApplyConsents(e.core, p, now, true);
      AppliedFacts(e.core, KeyOf(p), now, true, Mark(e2.core, KeyOf(p), Status.Applied));
      DeliveredOps(SetStatus(e2, KeyOf(p), Status.Applied), id, stored);
    }
  }

  /** Nothing but an arrival changes the agreement of the party that did not initiate. */
  lemma OnlyArrivalsRecord(e: Endpoint, d: Deed)
    requires Valid(e) && e.core.c.initiator == e.core.c.peer && !d.Receives?
    ensures Do(e, d).core.c.agreement == e.core.c.agreement
  {
    match d
    case ReservesPacket(id, verdict, connected, now) =>
      if Reserve(e, id, verdict, connected, now).Some? {
        var p := ReserveUnfolds(e, id, verdict, connected, now);
      }
    case Submits(id, stored, connected, now) =>
      if Submit(e, id, stored, connected, now).Some? {
        SendingRecordsNone(e, id, stored, connected, now);
      }
    case Revokes =>
    case _ => PlainDeed(e, d);
  }

  /** A spoiled formation is not the one that a deed records. */
  lemma SpoiledDeed(e: Endpoint, d: Deed, f: Formation)
    requires Valid(e) && Spoiled(e.core, f) && e.core.c.initiator == e.core.c.peer && e.core.c.agreement.None?
    ensures var c := Do(e, d).core.c; c.agreement.Some? ==> c.agreement.value.formation != f
  {
    if d.Receives? {
      var arrivals := [d.arrival];
      assert arrivals[..|arrivals|-1] == [] && ReceiveAll(e, []) == e;
      assert ReceiveAll(e, arrivals) == Do(e, d);
      FormationEvidence(e, arrivals);
      ReceiveKeeps(e, d.arrival);
      SpoiledKept(e.core, Do(e, d).core, f);
      SpoiledUnevidenced(Do(e, d).core, f);
    } else {
      OnlyArrivalsRecord(e, d);
    }
  }

  lemma SpoiledUnevidenced(core: Core, f: Formation)
    requires Spoiled(core, f)
    ensures !FullEvidence(core, f)
  {
    var i :| 0 <= i < |f.acceptances|
      && WithdrawnBy(core.events, f.acceptances[i].actor, f.acceptances[i].eventId, Cursor(core.c, f, f.acceptances[i].actor));
    if |f.acceptances| == 2 {
      assert 0 <= i < 2;
    }
  }

  /** Once the peer has applied such a withdrawal it never records that formation, by any
      traffic and any deeds of its own, and any agreement event that carries it is refused. */
  lemma {:induction false} SpoiledRefused(e: Endpoint, deeds: seq<Deed>, f: Formation, packet: Packet, now: Instant)
    requires Valid(e) && Spoiled(e.core, f) && e.core.c.agreement.None? && e.core.c.initiator == e.core.c.peer
    requires packet.kind.Agree? && packet.payload.AgreementBody? && packet.payload.agreement.formation == f
    ensures var core := DoAll(e, deeds).core;
      && Valid(DoAll(e, deeds)) && Extends(e.core, core) && Spoiled(core, f)
      && (core.c.agreement.Some? ==> core.c.agreement.value.formation != f)
      && !ApplyCore(core, packet, now, false).Done?
    decreases |deeds|
  {
    DeedsKeep(e, deeds);
    SpoiledKept(e.core, DoAll(e, deeds).core, f);
    if deeds == [] {
    } else {
      var before, d := DoAll(e, deeds[..|deeds|-1]), deeds[|deeds|-1];
      SpoiledRefused(e, deeds[..|deeds|-1], f, packet, now);
      DoKeeps(before, d);
      if before.core.c.agreement.None? {
        SpoiledDeed(before, d, f);
      }
    }
    SpoiledNotApplied(DoAll(e, deeds).core, f, packet, now);
  }

  lemma SpoiledNotApplied(core: Core, f: Formation, packet: Packet, now: Instant)
    requires Spoiled(core, f) && packet.kind.Agree? && packet.payload.AgreementBody?
    requires packet.payload.agreement.formation == f
    requires core.c.agreement.Some? ==> core.c.agreement.value.formation != f
    ensures !ApplyCore(core, packet, now, false).Done?
  {
    var i :| 0 <= i < |f.acceptances|
      && WithdrawnBy(core.events, f.acceptances[i].actor, f.acceptances[i].eventId, Cursor(core.c, f, f.acceptances[i].actor));
    SpoiledRefs(core, f, f.acceptances, {}, i);
  }
}
