/** The guards of the negotiation, on the stored fields: when each event is taken, and
    what no life and no run of an endpoint gets around. */
module CollabGuards {
  import opened Basics
  import opened CollabTypes
  import opened CollabReducer
  import opened CollabInbox
  import opened CollabInvariant
  import opened CollabSteps
  import opened CollabBudget
  import opened CollabLaws
  import CollabAgreement

  // ---- When an event is taken ----

  /** Both parties may still negotiate. */
  predicate Negotiable(c: Collab) {
    c.joined && c.closure != Cancelled && c.agreement == None
  }

  /** The only meeting that can be proposed: between the two parties, of a positive
      length, with a version that fits its field. */
  predicate Meeting(c: Collab, t: Terms) {
    && t.fixed && t.start < t.end && 1 <= t.version <= 2147483647
    && (t.participants == [c.local, c.peer] || t.participants == [c.peer, c.local])
  }

  predicate StatesTerms(c: Collab, p: Payload) {
    p.TermsBody? && Meeting(c, p.terms) && p.termsDigest == DigestOf(p.terms)
  }

  /** The terms follow the current ones: the next version, naming their digest. */
  predicate NextTerms(c: Collab, p: Payload) {
    p.TermsBody? && match c.terms
      case None => p.parent == None && p.terms.version == 1
      case Some(t) => p.parent == Some(DigestOf(t)) && p.terms.version == t.version + 1
  }

  /** A proposal is taken exactly if it is the initiator's next version in an open
      negotiation and nobody's acceptance is active; it replaces the terms. */
  lemma ProposalTaken(core: Core, packet: Packet, now: Instant, outgoing: bool)
    requires packet.kind.Proposal?
    ensures ApplyCore(core, packet, now, outgoing).Done? <==>
      && Negotiable(core.c) && packet.sender == core.c.initiator
      && StatesTerms(core.c, packet.payload) && NextTerms(core.c, packet.payload)
      && forall u :: u in core.c.acceptances ==> !core.c.acceptances[u].active
    ensures ApplyCore(core, packet, now, outgoing).Done? ==>
      ApplyCore(core, packet, now, outgoing).value ==
        core.(c := core.c.(terms := Some(packet.payload.terms), acceptances := map[], withdrawPending := false))
  {
  }

  /** A proposal waits exactly if it is the initiator's but does not follow the terms. */
  lemma ProposalWaits(core: Core, packet: Packet, now: Instant, outgoing: bool)
    requires packet.kind.Proposal?
    ensures ApplyCore(core, packet, now, outgoing).Missing? <==>
      && Negotiable(core.c) && packet.sender == core.c.initiator && packet.payload.TermsBody?
      && packet.payload.parent != (if core.c.terms.Some? then Some(DigestOf(core.c.terms.value)) else None)
      && forall u :: u in core.c.acceptances ==> !core.c.acceptances[u].active
  {
  }

  /** Only the other party requests a change, before an agreement; the terms stay. */
  lemma ChangeRequestTaken(core: Core, packet: Packet, now: Instant, outgoing: bool)
    requires packet.kind.ChangeRequest?
    ensures ApplyCore(core, packet, now, outgoing).Done? <==>
      Negotiable(core.c) && packet.sender != core.c.initiator && StatesTerms(core.c, packet.payload)
    ensures ApplyCore(core, packet, now, outgoing).Done? ==>
      ApplyCore(core, packet, now, outgoing).value == core.(c := core.c.(changeRequest := Some(packet.payload)))
    ensures !ApplyCore(core, packet, now, outgoing).Missing?
  {
  }

  /** An acceptance is taken exactly if its sender accepts the current terms for itself,
      validly, and holds no other active acceptance. */
  lemma AcceptTaken(core: Core, packet: Packet, now: Instant, outgoing: bool)
    requires packet.kind.Accept?
    ensures ApplyCore(core, packet, now, outgoing).Done? <==>
      && Negotiable(core.c) && packet.payload.AcceptBody? && packet.payload.actor == packet.sender
      && packet.payload.accepted.DigestOf? && core.c.terms == Some(packet.payload.accepted.terms)
      && packet.payload.supportedBasis && packet.payload.validUntil > now
      && !(packet.sender in core.c.acceptances && core.c.acceptances[packet.sender].active
           && core.c.acceptances[packet.sender].eventId != packet.eventId)
  {
  }

  /** What a taken acceptance records, and exactly when it completes an agreement: at the
      coordinator, with both parties' acceptances of the terms active and valid. */
  lemma AcceptRecords(core: Core, packet: Packet, now: Instant, outgoing: bool)
    requires packet.kind.Accept? && ApplyCore(core, packet, now, outgoing).Done?
    ensures var c, d := core.c, ApplyCore(core, packet, now, outgoing).value.c;
      && d == c.(acceptances := d.acceptances, agreement := d.agreement)
      && d.acceptances.Keys == c.acceptances.Keys + {packet.sender}
      && (forall u :: u in c.acceptances && u != packet.sender ==> d.acceptances[u] == c.acceptances[u])
      && packet.payload.AcceptBody?
      && d.acceptances[packet.sender] == Consent(packet.payload.accepted, packet.payload.actor, packet.payload.validUntil,
                                                 packet.eventId, EventDigestOf(packet), true)
    ensures var c, d := core.c, ApplyCore(core, packet, now, outgoing).value.c;
      d.agreement.Some? <==>
        && c.initiator == c.local && d.acceptances.Keys == {c.local, c.peer}
        && c.terms.Some?
        && forall u :: u in d.acceptances ==>
             && d.acceptances[u].active && d.acceptances[u].validUntil > now
             && d.acceptances[u].accepted == DigestOf(c.terms.value)
    ensures var c, d := core.c, ApplyCore(core, packet, now, outgoing).value.c;
      d.agreement.Some? ==>
        && c.terms.Some? && d.agreement.value.formation.termsDigest == DigestOf(c.terms.value)
        && d.agreement.value.formation.formedAt == now
        && d.agreement.value.formation.initiatorSequence == c.outSeq
        && d.agreement.value.formation.peerSequence == c.inSeq
  {
  }

  /** One reference of a formation: an acceptance of these terms by one of the parties for
      itself, applied here exactly as the reference names it, within the party's cursor, made
      no later than the formation and valid past it, and not withdrawn within the cursor. */
  ghost predicate Witnessed(core: Core, f: Formation, ref: AcceptanceRef) {
    var c, k := core.c, Key(ref.actor, ref.eventId);
    var upTo := if ref.actor == c.initiator then f.initiatorSequence else f.peerSequence;
    && (ref.actor == c.local || ref.actor == c.peer) && k in core.events
    && core.events[k].status.Applied? && core.events[k].packet.kind.Accept?
    && EventDigestOf(core.events[k].packet) == ref.eventDigest
    && core.events[k].packet.payload.AcceptBody? && core.events[k].packet.payload.supportedBasis
    && core.events[k].packet.payload.actor == ref.actor && core.events[k].packet.payload.accepted == f.termsDigest
    && core.events[k].packet.sequence <= upTo && core.events[k].packet.createdAt <= f.formedAt
    && core.events[k].packet.payload.validUntil > f.formedAt
    && forall j :: OwnWithdrawal(core.events, j, ref.actor, ref.eventId) ==> core.events[j].packet.sequence > upTo
  }

  lemma WitnessedCheck(core: Core, f: Formation, ref: AcceptanceRef, seen: set<Urn>)
    ensures CheckRef(core, f, ref, seen) == Pass <==> Witnessed(core, f, ref) && ref.actor !in seen
  {
    var k, upTo := Key(ref.actor, ref.eventId), Cursor(core.c, f, ref.actor);
    assert WithdrawnBy(core.events, ref.actor, ref.eventId, upTo) <==>
      exists j :: OwnWithdrawal(core.events, j, ref.actor, ref.eventId) && core.events[j].packet.sequence <= upTo by {
      forall j | OwnWithdrawal(core.events, j, ref.actor, ref.eventId) && core.events[j].packet.sequence <= upTo
        ensures WithdrawnBy(core.events, ref.actor, ref.eventId, upTo)
      {
        assert Withdraws(core.events[j], ref.actor, ref.eventId, upTo);
      }
    }
  }

  /** An agreement event is taken exactly if it is the initiator's, does not contradict the
      recorded agreement, and either repeats the cancelled one or carries a formation for the
      current terms with two witnessed acceptances of the two parties, with cursors before the
      event, formed no later than the event and at most a minute ahead of the clock. */
  lemma AgreementTaken(core: Core, packet: Packet, now: Instant, outgoing: bool)
    requires packet.kind.Agree? && packet.payload.AgreementBody?
    ensures var c, g := core.c, packet.payload.agreement;
      var f := g.formation;
      ApplyCore(core, packet, now, outgoing).Done? <==>
        && packet.sender == c.initiator && (c.agreement.Some? ==> c.agreement.value == g)
        && ((c.agreement == Some(g) && c.closure == Cancelled)
            || (&& c.terms.Some? && f.termsDigest == DigestOf(c.terms.value) && |f.acceptances| == 2
                && 1 <= f.initiatorSequence <= 256 && 1 <= f.peerSequence <= 256
                && (outgoing || f.initiatorSequence < packet.sequence)
                && f.formedAt <= packet.createdAt && f.formedAt <= now + 60
                && Witnessed(core, f, f.acceptances[0]) && Witnessed(core, f, f.acceptances[1])
                && f.acceptances[0].actor != f.acceptances[1].actor))
    ensures ApplyCore(core, packet, now, outgoing).Done? ==>
      ApplyCore(core, packet, now, outgoing).value == core.(c := core.c.(agreement := Some(packet.payload.agreement)))
  {
    var f := packet.payload.agreement.formation;
    if |f.acceptances| == 2 {
      var a, b := f.acceptances[0], f.acceptances[1];
      WitnessedCheck(core, f, a, {});
      WitnessedCheck(core, f, b, {a.actor});
      assert f.acceptances[1..] == [b] && {} + {a.actor} == {a.actor} && [b][1..] == [];
      assert CheckRefs(core, f, [b], {a.actor}) == CheckRef(core, f, b, {a.actor});
    }
  }

  /** A withdrawal is taken exactly if it names its sender's own recorded acceptance; it
      ends that acceptance unless an agreement has been recorded. */
  lemma WithdrawTaken(core: Core, packet: Packet, now: Instant, outgoing: bool)
    requires packet.kind.Withdraw?
    ensures ApplyCore(core, packet, now, outgoing).Done? <==>
      && core.c.joined && core.c.closure != Cancelled && packet.payload.WithdrawBody?
      && packet.sender in core.c.acceptances
      && core.c.acceptances[packet.sender].eventId == packet.payload.acceptEventId
      && core.c.acceptances[packet.sender].accepted == packet.payload.withdrawn
    ensures !ApplyCore(core, packet, now, outgoing).Missing?
    ensures ApplyCore(core, packet, now, outgoing).Done? ==>
      var c, next := core.c, ApplyCore(core, packet, now, outgoing).value;
      next == core.(c := c.(withdrawPending := next.c.withdrawPending, acceptances := next.c.acceptances))
      && if c.agreement.Some? then next.c.withdrawPending && next.c.acceptances == c.acceptances
         else && next.c.withdrawPending == (c.initiator != c.local)
              && next.c.acceptances == c.acceptances[packet.sender := c.acceptances[packet.sender].(active := false)]
  {
  }

  /** Cancelling takes two steps that name the recorded agreement: one party's request,
      and the other party's acknowledgement. */
  lemma CancelTaken(core: Core, packet: Packet, now: Instant, outgoing: bool)
    requires packet.kind.CancelRequest? || packet.kind.CancelAck?
    ensures ApplyCore(core, packet, now, outgoing).Done? <==>
      && core.c.joined && core.c.closure != Cancelled && packet.payload.AgreementNameBody?
      && core.c.agreement.Some? && core.c.agreement.value.id == packet.payload.agreementId
      && (packet.kind.CancelAck? ==> core.c.cancelRequest.Some? && core.c.cancelRequest.value.sender != packet.sender)
    ensures !ApplyCore(core, packet, now, outgoing).Missing?
    ensures ApplyCore(core, packet, now, outgoing).Done? ==>
      ApplyCore(core, packet, now, outgoing).value.c ==
        if packet.kind.CancelAck? then core.c.(closure := Cancelled)
        else core.c.(cancelRequest := Some(CancelNote(packet.sender, packet.eventId)))
  {
  }

  /** Only the other party acknowledges the agreement, which must be recorded first;
      receiving the acknowledgement completes the collaboration. */
  lemma AckTaken(core: Core, packet: Packet, now: Instant, outgoing: bool)
    requires packet.kind.AgreementAck?
    ensures ApplyCore(core, packet, now, outgoing).Done? <==>
      && packet.sender != core.c.initiator && packet.payload.AgreementNameBody?
      && core.c.agreement.Some? && core.c.agreement.value.id == packet.payload.agreementId
    ensures ApplyCore(core, packet, now, outgoing).Invalid? <==>
      packet.sender == core.c.initiator || !packet.payload.AgreementNameBody?
    ensures ApplyCore(core, packet, now, outgoing).Done? ==>
      ApplyCore(core, packet, now, outgoing).value.c ==
        if outgoing then core.c else core.c.(synced := true, closure := Complete)
  {
  }

  /** The other party joins the topic of the invitation. */
  lemma OpeningTaken(core: Core, packet: Packet, now: Instant, outgoing: bool)
    requires packet.kind.Invite? || packet.kind.Join?
    ensures ApplyCore(core, packet, now, outgoing).Done? <==>
      && packet.payload.OpeningBody? && packet.payload.supported
      && (packet.kind.Join? ==> packet.sender != core.c.initiator && packet.payload.topic == core.c.topic)
    ensures !ApplyCore(core, packet, now, outgoing).Missing?
    ensures ApplyCore(core, packet, now, outgoing).Done? ==>
      ApplyCore(core, packet, now, outgoing).value == core.(c := core.c.(joined := core.c.joined || packet.kind.Join?))
  {
  }

  // ---- Consents end by their own party's withdrawal alone ----

  /** `k` is the withdrawal of the acceptance `accept` that `u` itself sent. */
  predicate OwnWithdrawal(events: map<Key, Record>, k: Key, u: Urn, accept: EventId) {
    && AppliedAt(events, k) && events[k].packet.kind.Withdraw? && events[k].packet.sender == u
    && events[k].packet.payload.WithdrawBody? && events[k].packet.payload.acceptEventId == accept
  }

  /** `u`'s acceptance stands unchanged, or `u` has withdrawn it since. */
  ghost predicate Stands(core: Core, next: Core, u: Urn)
    requires u in core.c.acceptances
  {
    || (u in next.c.acceptances && next.c.acceptances[u] == core.c.acceptances[u])
    || exists k :: OwnWithdrawal(next.events, k, u, core.c.acceptances[u].eventId) && !AppliedAt(core.events, k)
  }

  ghost predicate ConsentsStand(core: Core, next: Core) {
    forall u :: u in core.c.acceptances && core.c.acceptances[u].active ==> Stands(core, next, u)
  }

  /** What one event can do to the acceptances of others. */
  lemma ConsentsAfter(core: Core, packet: Packet, now: Instant, outgoing: bool, u: Urn)
    requires outgoing || !IsSync(packet.kind)
    requires ApplyCore(core, packet, now, outgoing).Done? && u in core.c.acceptances && core.c.acceptances[u].active
    ensures var d := ApplyCore(core, packet, now, outgoing).value.c;
      || (u in d.acceptances && d.acceptances[u] == core.c.acceptances[u])
      || (packet.sender == u && packet.kind.Accept? && packet.eventId == core.c.acceptances[u].eventId)
      || (packet.sender == u && packet.kind.Withdraw? && packet.payload.WithdrawBody?
          && packet.payload.acceptEventId == core.c.acceptances[u].eventId)
  {
    match packet.kind
    case Proposal => ProposalTaken(core, packet, now, outgoing);
    case Accept =>
      AcceptTaken(core, packet, now, outgoing);
      AcceptRecords(core, packet, now, outgoing);
    case Withdraw => WithdrawTaken(core, packet, now, outgoing);
    case _ => ApplyTouches(core, packet, now, outgoing);
  }

  lemma AppliedStands(core: Core, k: Key, now: Instant, outgoing: bool, fin: Core)
    requires AppliesOne(core, k, now, outgoing, fin)
    ensures ConsentsStand(core, fin)
  {
    var packet := core.events[k].packet;
    assert Placed(core.c, k, core.events[k]);
    AppliesFrame(core, k, now, outgoing, fin);
    AppliedFacts(core, k, now, outgoing, fin);
    forall u | u in core.c.acceptances && core.c.acceptances[u].active ensures Stands(core, fin, u) {
      assert ConsentBacked(core, u, core.c.acceptances[u]);
      ConsentsAfter(Before(core, packet, outgoing), packet, now, outgoing, u);
      if !(u in fin.c.acceptances && fin.c.acceptances[u] == core.c.acceptances[u]) {
        assert OwnWithdrawal(fin.events, k, u, core.c.acceptances[u].eventId);
      }
    }
  }

  lemma StandsTrans(a: Core, b: Core, c: Core)
    requires ConsentsStand(a, b) && ConsentsStand(b, c) && Extends(a, b) && Extends(b, c)
    ensures ConsentsStand(a, c)
  {
    forall u | u in a.c.acceptances && a.c.acceptances[u].active ensures Stands(a, c, u) {
      var accept := a.c.acceptances[u].eventId;
      if k :| OwnWithdrawal(b.events, k, u, accept) && !AppliedAt(a.events, k) {
        assert FinalKept(b.events[k], c.events[k]);
        assert OwnWithdrawal(c.events, k, u, accept);
      } else if k :| OwnWithdrawal(c.events, k, u, accept) && !AppliedAt(b.events, k) {
        assert k in a.events ==> FinalKept(a.events[k], b.events[k]);
      } else {
        assert Stands(a, b, u) && Stands(b, c, u);
      }
    }
  }

  lemma StandsLaw()
    ensures IsLaw((core: Core, next: Core) => ConsentsStand(core, next))
  {
    forall core, k, now, outgoing, fin | AppliesOne(core, k, now, outgoing, fin) ensures ConsentsStand(core, fin) {
      AppliedStands(core, k, now, outgoing, fin);
    }
    forall a, b, c | ConsentsStand(a, b) && ConsentsStand(b, c) && Extends(a, b) && Extends(b, c) ensures ConsentsStand(a, c) {
      StandsTrans(a, b, c);
    }
  }

  /** Through any life of an endpoint, an active acceptance stands until its own party's
      withdrawal of exactly that acceptance has been applied. */
  lemma ConsentLife(e: Endpoint, deeds: seq<Deed>, u: Urn)
    requires Valid(e) && u in e.core.c.acceptances && e.core.c.acceptances[u].active
    ensures var core, accept := DoAll(e, deeds).core, e.core.c.acceptances[u].eventId;
      || (u in core.c.acceptances && core.c.acceptances[u] == e.core.c.acceptances[u])
      || exists k :: OwnWithdrawal(core.events, k, u, accept) && !AppliedAt(e.core.events, k)
  {
    StandsLaw();
    LifeLaw(e, deeds, (core: Core, next: Core) => ConsentsStand(core, next));
    assert Stands(e.core, DoAll(e, deeds).core, u);
  }

  /** The same between any two moments of any run. */
  lemma ConsentRun(pair: CollabAgreement.Pair, s: CollabAgreement.System, actions: seq<CollabAgreement.Action>,
                   side: CollabAgreement.Side, u: Urn)
    requires pair.first != pair.second && CollabAgreement.SystemFits(pair, s) && CollabAgreement.At(s, side).Bound?
    requires u in CollabAgreement.At(s, side).e.core.c.acceptances
    requires CollabAgreement.At(s, side).e.core.c.acceptances[u].active
    ensures CollabAgreement.At(CollabAgreement.Run(pair, s, actions), side).Bound?
    ensures var before, core := CollabAgreement.At(s, side).e.core, CollabAgreement.At(CollabAgreement.Run(pair, s, actions), side).e.core;
      || (u in core.c.acceptances && core.c.acceptances[u] == before.c.acceptances[u])
      || exists k :: OwnWithdrawal(core.events, k, u, before.c.acceptances[u].eventId) && !AppliedAt(before.events, k)
  {
    StandsLaw();
    RunLaw(pair, s, actions, side, (core: Core, next: Core) => ConsentsStand(core, next));
    assert Stands(CollabAgreement.At(s, side).e.core, CollabAgreement.At(CollabAgreement.Run(pair, s, actions), side).e.core, u);
  }

  // ---- A cancellation needs both parties ----

  /** `k` is an applied event of one of the two cancellation kinds for this agreement. */
  predicate Cancels(core: Core, k: Key, kind: Kind) {
    && AppliedAt(core.events, k) && core.events[k].packet.kind == kind && core.c.agreement.Some?
    && core.events[k].packet.payload == AgreementNameBody(core.c.agreement.value.id)
  }

  /** A noted request was sent by the noted party; a cancellation was requested by one
      party and acknowledged by another. */
  ghost predicate CancelledByBoth(core: Core) {
    && (core.c.cancelRequest.Some? ==>
          Cancels(core, Key(core.c.cancelRequest.value.sender, core.c.cancelRequest.value.eventId), CancelRequest))
    && (core.c.closure.Cancelled? ==>
          exists k, l :: Cancels(core, k, CancelRequest) && Cancels(core, l, CancelAck) && k.sender != l.sender)
  }

  lemma CancelsKept(core: Core, next: Core, k: Key, kind: Kind)
    requires Cancels(core, k, kind) && Extends(core, next)
    ensures Cancels(next, k, kind)
  {
    assert FinalKept(core.events[k], next.events[k]);
  }

  /** What neither requests nor closes keeps the evidence. */
  lemma StillBoth(core: Core, next: Core)
    requires CancelledByBoth(core) && Extends(core, next) && next.c.cancelRequest == core.c.cancelRequest
    requires next.c.closure.Cancelled? ==> core.c.closure.Cancelled?
    ensures CancelledByBoth(next)
  {
    if core.c.cancelRequest.Some? {
      CancelsKept(core, next, Key(core.c.cancelRequest.value.sender, core.c.cancelRequest.value.eventId), CancelRequest);
    }
    if next.c.closure.Cancelled? {
      var k, l :| Cancels(core, k, CancelRequest) && Cancels(core, l, CancelAck) && k.sender != l.sender;
      CancelsKept(core, next, k, CancelRequest);
      CancelsKept(core, next, l, CancelAck);
    }
  }

  lemma AppliedBoth(core: Core, k: Key, now: Instant, outgoing: bool, fin: Core)
    requires AppliesOne(core, k, now, outgoing, fin) && CancelledByBoth(core)
    ensures CancelledByBoth(fin)
  {
    var packet := core.events[k].packet;
    var before := Before(core, packet, outgoing);
    assert Placed(core.c, k, core.events[k]);
    AppliesFrame(core, k, now, outgoing, fin);
    AppliedFacts(core, k, now, outgoing, fin);
    if packet.kind.CancelRequest? || packet.kind.CancelAck? {
      CancelTaken(before, packet, now, outgoing);
      assert Cancels(fin, k, packet.kind);
      if packet.kind.CancelAck? {
        var asked := Key(core.c.cancelRequest.value.sender, core.c.cancelRequest.value.eventId);
        CancelsKept(core, fin, asked, CancelRequest);
      }
    } else {
      OthersNeverCancel(before, packet, now, outgoing);
      StillBoth(core, fin);
    }
  }

  lemma OthersNeverCancel(core: Core, packet: Packet, now: Instant, outgoing: bool)
    requires outgoing || !IsSync(packet.kind)
    requires ApplyCore(core, packet, now, outgoing).Done? && !packet.kind.CancelRequest? && !packet.kind.CancelAck?
    ensures var d := ApplyCore(core, packet, now, outgoing).value.c;
      d.cancelRequest == core.c.cancelRequest && (d.closure.Cancelled? ==> core.c.closure.Cancelled?)
  {
    match packet.kind
    case Receipt =>
    case Accept =>
    case Agree =>
    case Withdraw =>
    case SyncRequest =>
    case SyncResponse =>
    case _ =>
  }

  lemma BothInvariant()
    ensures IsInvariant((core: Core) => CancelledByBoth(core))
  {
    forall core | Opened(core) ensures CancelledByBoth(core) {
      OpenedBoth(core);
    }
    forall core, next | Quietly(core, next) && CancelledByBoth(core) ensures CancelledByBoth(next) {
      StillBoth(core, next);
    }
    forall core, k, now, outgoing, fin | AppliesOne(core, k, now, outgoing, fin) && CancelledByBoth(core)
      ensures CancelledByBoth(fin)
    {
      AppliedBoth(core, k, now, outgoing, fin);
    }
  }

  lemma OpenedBoth(core: Core)
    requires Opened(core)
    ensures CancelledByBoth(core)
  {
  }
}
