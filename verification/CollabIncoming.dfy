/** What incoming events alone can and cannot do to one endpoint, whatever its
    authenticated peer sends: consent, formation evidence, and the drain itself. */
module CollabIncoming {
  import opened Basics
  import opened CollabTypes
  import opened CollabReducer
  import opened CollabInbox
  import opened CollabInvariant
  import opened CollabSteps

  // ---- Own consent ----

  datatype Arrival = Arrives(packet: Packet, now: Instant) | Decides(packet: Packet, decision: Review, now: Instant)

  /** An arrival that the source refuses leaves the endpoint as it was. */
  ghost function Receive(e: Endpoint, a: Arrival): Endpoint {
    var r := match a
      case Arrives(packet, now) => IngestRecord(e, packet, now)
      case Decides(packet, decision, now) => DecideReview(e, packet, decision, now);
    if r.Some? then r.value else e
  }

  ghost function ReceiveAll(e: Endpoint, arrivals: seq<Arrival>): Endpoint
    decreases |arrivals|
  {
    if arrivals == [] then e else Receive(ReceiveAll(e, arrivals[..|arrivals|-1]), arrivals[|arrivals|-1])
  }

  ghost predicate NoOwnAccept(core: Core) {
    forall k :: k in core.events && core.events[k].outgoing ==> !core.events[k].packet.kind.Accept?
  }

  lemma IngestedKeeps(e: Endpoint, packet: Packet, now: Instant)
    requires Valid(e) && IngestRecord(e, packet, now).Some?
    ensures Valid(IngestRecord(e, packet, now).value) && Incoming(e.core, IngestRecord(e, packet, now).value.core)
  {
    IngestRecordKeeps(e, packet, now);
  }

  lemma StaysKept(e: Endpoint)
    requires Valid(e)
    ensures Incoming(e.core, e.core)
  {
  }

  lemma ReceiveKeeps(e: Endpoint, a: Arrival)
    requires Valid(e)
    ensures Valid(Receive(e, a)) && Incoming(e.core, Receive(e, a).core)
  {
    StaysKept(e);
    match a
    case Arrives(packet, now) =>
      if IngestRecord(e, packet, now).Some? {
        IngestedKeeps(e, packet, now);
      }
    case Decides(packet, decision, now) =>
      if DecideReview(e, packet, decision, now).Some? {
        DecideReviewKeeps(e, packet, decision, now);
      }
  }

  lemma {:induction false} ReceiveAllKeeps(e: Endpoint, arrivals: seq<Arrival>)
    requires Valid(e)
    ensures Valid(ReceiveAll(e, arrivals)) && Incoming(e.core, ReceiveAll(e, arrivals).core)
    decreases |arrivals|
  {
    if arrivals == [] {
    } else {
      var before := ReceiveAll(e, arrivals[..|arrivals|-1]);
      ReceiveAllKeeps(e, arrivals[..|arrivals|-1]);
      ReceiveKeeps(before, arrivals[|arrivals|-1]);
      IncomingTrans(e.core, before.core, ReceiveAll(e, arrivals).core);
    }
  }

  /** A consent under the endpoint's own identity is backed by its own accept event. */
  lemma OwnConsentRecorded(core: Core)
    requires Sound(core)
    ensures core.c.local in core.c.acceptances ==> !NoOwnAccept(core)
  {
    if core.c.local in core.c.acceptances {
      var k := Key(core.c.local, core.c.acceptances[core.c.local].eventId);
      assert ConsentBacked(core, core.c.local, core.c.acceptances[core.c.local]);
      assert Placed(core.c, k, core.events[k]);
    }
  }

  /** So is a recorded agreement, in either role. */
  lemma OwnAcceptForAgreement(core: Core)
    requires Sound(core)
    ensures core.c.agreement.Some? ==> !NoOwnAccept(core)
  {
    if core.c.agreement.Some? {
      var f := core.c.agreement.value.formation;
      assert core.c.local in {f.acceptances[0].actor, f.acceptances[1].actor};
      var ref := if f.acceptances[0].actor == core.c.local then f.acceptances[0] else f.acceptances[1];
      var k := Key(ref.actor, ref.eventId);
      assert RefBacked(core, f, ref);
      assert Placed(core.c, k, core.events[k]);
    }
  }

  /** Own consent: without an accept event of its own, no sequence of incoming packets
      (recovery responses included) and reviews gives an endpoint an acceptance under
      its own identity, or an agreement, in either role. */
  lemma OwnConsent(e: Endpoint, arrivals: seq<Arrival>)
    requires Valid(e) && NoOwnAccept(e.core)
    ensures var c := ReceiveAll(e, arrivals).core.c; c.local !in c.acceptances && c.agreement.None?
  {
    ReceiveAllKeeps(e, arrivals);
    OwnConsentRecorded(ReceiveAll(e, arrivals).core);
    OwnAcceptForAgreement(ReceiveAll(e, arrivals).core);
  }

  // ---- Formation evidence at the moment of recording ----

  /** The evidence, created before the formation and not withdrawn within its cursors. */
  ghost predicate FullEvidence(core: Core, f: Formation) {
    && Evidence(core, f)
    && forall i :: 0 <= i < 2 ==>
         && core.events[Key(f.acceptances[i].actor, f.acceptances[i].eventId)].packet.createdAt <= f.formedAt
         && !WithdrawnBy(core.events, f.acceptances[i].actor, f.acceptances[i].eventId, Cursor(core.c, f, f.acceptances[i].actor))
  }

  /** An agreement received by the party that did not initiate is fully evidenced. */
  ghost predicate ReceivedClean(core: Core) {
    core.c.agreement.Some? && core.c.initiator == core.c.peer ==>
      FullEvidence(core, core.c.agreement.value.formation)
      && core.c.agreement.value.formation.initiatorSequence < core.c.inSeq
  }

  predicate LaterWithdrawal(core: Core, f: Formation, p: Packet) {
    p.kind.Withdraw? ==> p.sender == core.c.peer && p.sequence > f.initiatorSequence
  }

  /** Incoming events decided later cannot taint evidence that was clean. */
  lemma CleanKept(core: Core, fin: Core, f: Formation)
    requires FullEvidence(core, f) && Evidence(fin, f) && SameParties(core.c, fin.c) && PartiesDistinct(core.c)
    requires forall k :: AppliedAt(core.events, k) ==> AppliedAt(fin.events, k) && fin.events[k].packet == core.events[k].packet
    requires forall k :: AppliedAt(fin.events, k) && !AppliedAt(core.events, k) ==> LaterWithdrawal(core, f, fin.events[k].packet)
    requires core.c.initiator == core.c.peer
    ensures FullEvidence(fin, f)
  {
    forall i | 0 <= i < 2
      ensures fin.events[Key(f.acceptances[i].actor, f.acceptances[i].eventId)].packet.createdAt <= f.formedAt
      ensures !WithdrawnBy(fin.events, f.acceptances[i].actor, f.acceptances[i].eventId, Cursor(fin.c, f, f.acceptances[i].actor))
    {
      var ref := f.acceptances[i];
      assert RefBacked(core, f, f.acceptances[0]) && RefBacked(core, f, f.acceptances[1]);
      assert AppliedAt(core.events, Key(ref.actor, ref.eventId));
      forall k | k in fin.events && Withdraws(fin.events[k], ref.actor, ref.eventId, Cursor(fin.c, f, ref.actor))
        ensures k in core.events && Withdraws(core.events[k], ref.actor, ref.eventId, Cursor(core.c, f, ref.actor))
      {
        assert AppliedAt(fin.events, k);
      }
    }
  }

  lemma AppliedClean(core: Core, k: Key, now: Instant, fin: Core)
    requires EventsPlaced(core) && CursorsFit(core) && SlotsUnique(core.events) && PartiesDistinct(core.c)
    requires ReceivedClean(core) && Applies(core, k, now, false, fin) && AgreementFits(fin)
    ensures ReceivedClean(fin)
  {
    var packet := core.events[k].packet;
    var before := Before(core, packet, false);
    AppliesFrame(core, k, now, false, fin);
    assert Placed(core.c, k, core.events[k]);
    ApplyTouches(before, packet, now, false);
    if fin.c.agreement.Some? && fin.c.initiator == fin.c.peer {
      var f := fin.c.agreement.value.formation;
      if core.c.agreement.None? {
        RecordedClean(core, k, now, fin);
      } else {
        CleanKept(core, fin, f);
      }
    }
  }

  /** Formation evidence: when the party that did not initiate records an agreement, it
      has applied exactly two accept events, one per participant, for exactly those
      terms, each within its formation cursor, created no later than the formation and
      valid past it, with no applied withdrawal of either within those cursors. */
  lemma RecordedClean(core: Core, k: Key, now: Instant, fin: Core)
    requires EventsPlaced(core) && CursorsFit(core) && PartiesDistinct(core.c) && SlotsUnique(core.events)
    requires Applies(core, k, now, false, fin)
    requires core.c.agreement.None? && fin.c.agreement.Some? && core.c.initiator == core.c.peer
    ensures core.events[k].packet.kind.Agree? && FullEvidence(fin, fin.c.agreement.value.formation)
    ensures fin.c.agreement.value.formation.initiatorSequence < fin.c.inSeq
  {
    var packet := core.events[k].packet;
    var before := Before(core, packet, false);
    AppliesFrame(core, k, now, false, fin);
    assert Placed(core.c, k, core.events[k]);
    ApplyTouches(before, packet, now, false);
    if packet.kind.Accept? {
      ApplyConsents(before, packet, now, false);
    }
    AgreementChecked(before, packet, now);
    var f := packet.payload.agreement.formation;
    CheckedRefs(before, f);
    EvidenceKept(before, fin, f);
    forall i | 0 <= i < 2
      ensures fin.events[Key(f.acceptances[i].actor, f.acceptances[i].eventId)].packet.createdAt <= f.formedAt
      ensures !WithdrawnBy(fin.events, f.acceptances[i].actor, f.acceptances[i].eventId, Cursor(fin.c, f, f.acceptances[i].actor))
    {
      var ref := f.acceptances[i];
      assert ref in f.acceptances;
      WithdrawnEarlier(core, fin, k, ref.actor, ref.eventId, Cursor(fin.c, f, ref.actor));
    }
  }

  lemma WithdrawnEarlier(core: Core, fin: Core, k: Key, actor: Urn, accept: EventId, upTo: int)
    requires SameRecords(core, k, fin) && k in core.events && !core.events[k].packet.kind.Withdraw?
    ensures WithdrawnBy(fin.events, actor, accept, upTo) ==> WithdrawnBy(core.events, actor, accept, upTo)
  {
    if WithdrawnBy(fin.events, actor, accept, upTo) {
      var j :| j in fin.events && Withdraws(fin.events[j], actor, accept, upTo);
      assert Withdraws(core.events[j], actor, accept, upTo);
    }
  }

  /** What an applied agreement event has passed. */
  lemma AgreementChecked(core: Core, packet: Packet, now: Instant)
    requires packet.kind.Agree? && ApplyCore(core, packet, now, false).Done? && core.c.agreement.None?
    ensures packet.payload.AgreementBody?
    ensures ApplyCore(core, packet, now, false).value == core.(c := core.c.(agreement := Some(packet.payload.agreement)))
    ensures var f := packet.payload.agreement.formation;
      |f.acceptances| == 2 && f.initiatorSequence < packet.sequence && CheckRefs(core, f, f.acceptances, {}) == Pass
  {
  }

  lemma TakenClean(core: Core, turn: Turn, now: Instant)
    requires EventsPlaced(core) && CursorsFit(core) && SlotsUnique(core.events) && PartiesDistinct(core.c)
    requires ReceivedClean(core) && turn.Take? && AgreementFits(turn.core)
    requires if turn.reason.WasApplied? then Applies(core, turn.key, now, false, turn.core)
             else Rejects(core, turn.key, turn.core)
    ensures ReceivedClean(turn.core)
  {
    if turn.reason.WasApplied? {
      AppliedClean(core, turn.key, now, turn.core);
    } else {
      RejectRecords(core, turn.key, turn.core);
      if core.c.agreement.Some? && core.c.initiator == core.c.peer {
        CleanKept(core, turn.core, core.c.agreement.value.formation);
      }
    }
  }

  lemma StepClean(e: Endpoint, now: Instant)
    requires Valid(e) && ReceivedClean(e.core) && !DrainStep(e, now).Abort?
    ensures Valid(DrainStep(e, now).e) && ReceivedClean(DrainStep(e, now).e.core)
  {
    StepKeeps(e, now);
    if NextTurn(e.core, e.reviews, now).Take? {
      TurnCases(e.core, e.reviews, now);
      TakeKeeps(e.core, e.reviews, now);
      TakenClean(e.core, NextTurn(e.core, e.reviews, now), now);
    }
    StepOps(e, now);
  }

  lemma DrainClean(e: Endpoint, now: Instant)
    requires Valid(e) && ReceivedClean(e.core) && Drain(e, now).Some?
    ensures ReceivedClean(Drain(e, now).value.core)
  {
    DrainKeeps(e, now);
    var inv := (x: Endpoint) => Valid(x) && ReceivedClean(x.core);
    forall x | inv(x) && !StepAt(now)(x).Abort? ensures inv(StepAt(now)(x).e) {
      StepClean(x, now);
    }
    LoopInduction(e, StepAt(now), MAX_EVENTS, DrainLoop(e, now, MAX_EVENTS).value, inv, (x: Endpoint, y: Endpoint) => true);
  }

  lemma StoredClean(core: Core, fin: Core)
    requires PartiesDistinct(core.c) && AgreementFits(fin) && ReceivedClean(core) && SameDecided(core, fin)
    ensures ReceivedClean(fin)
  {
    if core.c.agreement.Some? && core.c.initiator == core.c.peer {
      CleanKept(core, fin, core.c.agreement.value.formation);
    }
  }

  lemma IngestClean(e: Endpoint, packet: Packet, now: Instant)
    requires Valid(e) && ReceivedClean(e.core) && IngestRecord(e, packet, now).Some?
    ensures ReceivedClean(IngestRecord(e, packet, now).value.core)
  {
    var e1 := IngestUnfolds(e, packet, now);
    IngestKeeps(e, packet, now);
    StoredClean(e.core, e1.core);
    DrainClean(e1, now);
  }

  lemma ReceiveClean(e: Endpoint, a: Arrival)
    requires Valid(e) && ReceivedClean(e.core)
    ensures ReceivedClean(Receive(e, a).core)
  {
    match a
    case Arrives(packet, now) =>
      if IngestRecord(e, packet, now).Some? {
        IngestClean(e, packet, now);
      }
    case Decides(packet, decision, now) =>
      if DecideReview(e, packet, decision, now).Some? {
        DrainClean(e.(reviews := e.reviews[packet := decision]), now);
      }
  }

  lemma {:induction false} ReceiveAllClean(e: Endpoint, arrivals: seq<Arrival>)
    requires Valid(e) && ReceivedClean(e.core)
    ensures ReceivedClean(ReceiveAll(e, arrivals).core)
    decreases |arrivals|
  {
    if arrivals == [] {
    } else {
      ReceiveAllKeeps(e, arrivals[..|arrivals|-1]);
      ReceiveAllClean(e, arrivals[..|arrivals|-1]);
      ReceiveClean(ReceiveAll(e, arrivals[..|arrivals|-1]), arrivals[|arrivals|-1]);
    }
  }

  /** Formation evidence, for any traffic: an endpoint that did not initiate and holds no
      agreement yet ends every sequence of arrivals without one, or with one that is
      fully evidenced by its own records. */
  lemma FormationEvidence(e: Endpoint, arrivals: seq<Arrival>)
    requires Valid(e) && e.core.c.initiator == e.core.c.peer && e.core.c.agreement.None?
    ensures var core := ReceiveAll(e, arrivals).core;
      core.c.agreement.Some? ==> FullEvidence(core, core.c.agreement.value.formation)
  {
    ReceiveAllKeeps(e, arrivals);
    ReceiveAllClean(e, arrivals);
  }

  // ---- The coordinator's formation under its peer's checks ----

  /** The coordinator forms an agreement from records that pass the peer's own checks if
      and only if neither acceptance was created, by its sender's clock, after the
      formation. */
  lemma FormationSelfCheck(core: Core, now: Instant)
    requires Sound(core) && ReadyToForm(core.c, now)
    ensures var f := FormationOf(core.c, now);
      CheckRefs(core, f, f.acceptances, {}) == Pass <==>
        forall u :: u in core.c.acceptances ==>
          core.events[Key(u, core.c.acceptances[u].eventId)].packet.createdAt <= now
  {
    var f := FormationOf(core.c, now);
    FormedEvidence(core, core.c, now);
    var r0, r1 := f.acceptances[0], f.acceptances[1];
    TwoRefs(core, f, f.acceptances);
    RefSelfCheck(core, now, r0.actor, {});
    RefSelfCheck(core, now, r1.actor, {r0.actor});
  }

  lemma TwoRefs(core: Core, f: Formation, refs: seq<AcceptanceRef>)
    requires |refs| == 2
    ensures CheckRefs(core, f, refs, {}) == Pass <==>
      CheckRef(core, f, refs[0], {}) == Pass && CheckRef(core, f, refs[1], {refs[0].actor}) == Pass
  {
    assert refs[1..] == [refs[1]] && {} + {refs[0].actor} == {refs[0].actor};
    assert CheckRefs(core, f, refs[1..], {refs[0].actor}) == CheckRef(core, f, refs[1], {refs[0].actor});
  }

  lemma RefSelfCheck(core: Core, now: Instant, u: Urn, seen: set<Urn>)
    requires Sound(core) && ReadyToForm(core.c, now) && u in core.c.acceptances && u !in seen
    ensures var f := FormationOf(core.c, now);
      CheckRef(core, f, RefOf(core.c, u), seen) ==
        if core.events[Key(u, core.c.acceptances[u].eventId)].packet.createdAt <= now then Pass else Never
  {
    var f := FormationOf(core.c, now);
    var k := Key(u, core.c.acceptances[u].eventId);
    assert ConsentBacked(core, u, core.c.acceptances[u]);
    assert Placed(core.c, k, core.events[k]) && CursorFits(core.c, core.events[k]);
    assert !WithdrawnBy(core.events, u, core.c.acceptances[u].eventId, Cursor(core.c, f, u)) by {
      forall j | j in core.events && Withdraws(core.events[j], u, core.c.acceptances[u].eventId, Cursor(core.c, f, u))
        ensures false
      {
        assert AppliedAt(core.events, j);
      }
    }
  }

  // ---- Cancellation ----

  /** A cancelled collaboration takes no event that would change what was negotiated, and
      it stays cancelled unless, and only unless, the applied event is an incoming
      acknowledgement of the agreement. */
  lemma CancelledUntilAck(core: Core, packet: Packet, now: Instant, outgoing: bool)
    requires outgoing || !IsSync(packet.kind)
    requires core.c.closure.Cancelled? && ApplyCore(core, packet, now, outgoing).Done?
    ensures var c := ApplyCore(core, packet, now, outgoing).value.c;
      && (c.closure.Cancelled? <==> !(packet.kind.AgreementAck? && !outgoing))
      && c.terms == core.c.terms && c.acceptances == core.c.acceptances
      && (core.c.agreement.Some? ==> c.agreement == core.c.agreement)
  {
    ApplyTouches(core, packet, now, outgoing);
    match packet.kind
    case Receipt =>
    case Agree =>
    case SyncRequest =>
    case SyncResponse =>
    case _ =>
  }
}
