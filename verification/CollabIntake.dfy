/** The guards of incoming events, on the stored fields: what is stored, what becomes of the
    next event, and which replies are queued. */
module CollabIntake {
  import opened Basics
  import opened CollabTypes
  import opened CollabReducer
  import opened CollabInbox
  import opened CollabInvariant

  // ---- Storing ----

  /** No other event of the sender holds this number. */
  predicate NumberFree(core: Core, p: Packet) {
    p.kind.SyncRequest? || p.kind.SyncResponse?
    || forall k :: k in core.events && core.events[k].packet.sender == p.sender ==> core.events[k].packet.sequence != p.sequence
  }

  /** An event is stored exactly if it is the one already stored, or its identifier and its
      number are free; it is rejected at once if it is from more than a minute ahead, or has
      expired and is neither an agreement nor an answer to a recovery request. */
  lemma AdmitsExactly(core: Core, p: Packet, now: Instant)
    ensures Admit(core, p, now).Done? <==>
      if Key(p.sender, p.eventId) in core.events then core.events[Key(p.sender, p.eventId)].packet == p else NumberFree(core, p)
    ensures Admit(core, p, now).Done? ==>
      Admit(core, p, now).value ==
        if Key(p.sender, p.eventId) in core.events then core
        else
          var late := now + 60 < p.createdAt || (p.expiresAt <= now && !p.kind.Agree? && !p.kind.SyncResponse?);
          core.(events := core.events[Key(p.sender, p.eventId) := Record(p, if late then Rejected else Buffered, false, None)])
  {
  }

  /** Receiving a packet goes on exactly if it is a well-formed event of the bound peer for
      this party and this collaboration. */
  lemma ReceivesOnly(e: Endpoint, p: Packet, now: Instant)
    requires IngestRecord(e, p, now).Some?
    ensures p.sender == e.core.c.peer && p.recipient == e.core.c.local && p.collab == e.core.c.id
    ensures p.sender != p.recipient && p.createdAt < p.expiresAt && (p.previous.None? <==> p.sequence <= 1)
    ensures if p.kind.SyncRequest? || p.kind.SyncResponse? then p.sequence == 0 else 1 <= p.sequence <= 256
  {
  }

  /** A recovery request notes the number asked for; an answer brings in at most eight
      ordered events of its sender for this party. */
  lemma RecoveryTaken(core: Core, p: Packet, now: Instant)
    requires p.kind.SyncRequest? || p.kind.SyncResponse?
    ensures p.kind.SyncRequest? ==>
      && (ApplyCore(core, p, now, false).Done? <==> p.payload.AfterBody? && 0 <= p.payload.after <= 256)
      && (ApplyCore(core, p, now, false).Done? ==>
            ApplyCore(core, p, now, false).value == core.(c := core.c.(syncAfter := p.payload.after)))
    ensures p.kind.SyncResponse? && ApplyCore(core, p, now, false).Done? ==>
      && p.payload.HistoryBody? && |p.payload.events| <= 8
      && ApplyCore(core, p, now, false) == AdmitAll(core, p.payload.events, now)
      && forall i :: 0 <= i < |p.payload.events| ==>
           var past := p.payload.events[i];
           && past.sender == p.sender && past.recipient == core.c.local && past.collab == core.c.id
           && !past.kind.SyncRequest? && !past.kind.SyncResponse? && 1 <= past.sequence <= 256
           && past.createdAt < past.expiresAt && (past.previous.None? <==> past.sequence == 1)
  {
    if p.kind.SyncResponse? && ApplyCore(core, p, now, false).Done? {
      forall i | 0 <= i < |p.payload.events| ensures OwnHistory(core.c, p.sender, p.payload.events[i]) {
      }
    }
  }

  // ---- The next event ----

  predicate HasText(kind: Kind) {
    kind.Invite? || kind.Proposal? || kind.ChangeRequest?
  }

  /** What the owner has decided about the text. */
  function Decision(reviews: map<Packet, Review>, p: Packet): Review {
    if p in reviews then reviews[p] else Pending
  }

  /** The next stored event waits for a missing predecessor, for the owner or for evidence,
      or leaves the stream: rejected by the owner, expired (agreements do not expire), refused
      by the reducer, or applied. Whenever it leaves, the cursor names it. */
  lemma TurnExactly(core: Core, k: Key, reviews: map<Packet, Review>, now: Instant)
    requires k in core.events && k == KeyOf(core.events[k].packet)
    requires ValidEvent(core.events[k].packet) && core.events[k].packet.sequence >= 1
    ensures var r, turn := core.events[k], TurnOf(core, k, reviews, now);
      var outcome := ApplyCore(core.(c := core.c.(inSeq := r.packet.sequence, lastIn := Some(r.packet.eventId))), r.packet, now, false);
      && (turn.BrokenChain? <==> r.packet.previous != core.c.lastIn)
      && (turn.AwaitReview? <==> r.packet.previous == core.c.lastIn && r.status.Buffered?
                                 && HasText(r.packet.kind) && Decision(reviews, r.packet).Pending?)
      && (turn.Take? ==>
            && turn.key == k && k in turn.core.events
            && turn.core.c.inSeq == r.packet.sequence && turn.core.c.lastIn == Some(r.packet.eventId)
            && (turn.reason.AlreadyDecided? <==> !r.status.Buffered?)
            && (turn.reason.ReviewDeclined? <==> r.status.Buffered? && HasText(r.packet.kind) && Decision(reviews, r.packet).Declined?)
            && (turn.reason.Expired? <==>
                  r.status.Buffered? && !turn.reason.ReviewDeclined? && r.packet.expiresAt <= now && !r.packet.kind.Agree?)
            && (turn.reason.WasApplied? ==> outcome.Done? && turn.core.events[k].status.Applied?)
            && (turn.reason.WasInvalid? ==> outcome.Invalid?)
            && (turn.reason.AlreadyDecided? ==> turn.core.events == core.events)
            && (turn.reason.ReviewDeclined? || turn.reason.Expired? || turn.reason.WasInvalid? ==>
                  turn.core.events == core.events[k := r.(status := Rejected)]))
      && (turn.AwaitEvidence? ==>
            outcome.Missing? && r.packet.previous == core.c.lastIn && r.status.Buffered?
            && (r.packet.kind.Agree? || now < r.packet.expiresAt))
  {
    var p := core.events[k].packet;
    if ApplyCore(core.(c := Advance(core.c, p)), p, now, false).Done? {
      ApplyFrame(core.(c := Advance(core.c, p)), p, now, false);
    }
  }

  // ---- Replies ----

  /** A reply is queued exactly if the permit stands and has room for everything queued under
      it; otherwise nothing but the shown reason changes. */
  lemma QueuesExactly(e: Endpoint, kind: Kind, about: Option<EventId>, now: Instant)
    requires Queue(e, kind, about, now).Some?
    ensures var f, permit := Queue(e, kind, about, now).value, e.core.c.permit;
      && f.core == e.core && f.task == e.task && f.reviews == e.reviews && f.blocked == e.blocked
      && if permit.None? || permit.value.revoked || permit.value.until <= now then f.ops == e.ops
         else
           var payload := TemplatePayload(e.core, kind, about);
           && payload.Some?
           && var id := AutoOp(kind, payload.value);
              var queued := set j | j in e.ops && e.ops[j].maintenance && (e.ops[j].status.Ready? || e.ops[j].status.Sending?);
              if id in e.ops || |queued| + permit.value.used >= permit.value.maxEvents then f.ops == e.ops
              else
                && id in f.ops && f.ops == e.ops[id := f.ops[id]]
                && f.ops[id].kind == kind && f.ops[id].payload == payload.value && f.ops[id].status.Ready?
                && f.ops[id].maintenance && f.ops[id].expiresAt == permit.value.until
  {
    assert MaintenanceWith(e.ops, {Ready, Sending})
        == set j | j in e.ops && e.ops[j].maintenance && (e.ops[j].status.Ready? || e.ops[j].status.Sending?);
  }

  /** The reply that an applied event calls for: an acceptance that leaves an agreement, and a
      withdrawal at the coordinator of one, the agreement event; a received agreement its
      acknowledgement, unless that agreement was cancelled; a request the stored history. */
  lemma RepliesExactly(before: Collab, after: Collab, packet: Packet, outgoing: bool)
    ensures ReplyTo(before, after, packet, outgoing) ==
      if packet.kind.Accept? && after.agreement.Some? then Some(Kind.Agree)
      else if packet.kind.Withdraw? && after.agreement.Some? && after.initiator == after.local then Some(Kind.Agree)
      else if packet.kind.Agree? && !outgoing
              && !(before.closure.Cancelled? && packet.payload.AgreementBody? && before.agreement == Some(packet.payload.agreement))
           then Some(Kind.AgreementAck)
      else if packet.kind.SyncRequest? && !outgoing then Some(Kind.SyncResponse)
      else None
  {
  }

  /** What the receipt of the event `k` says. */
  function ReceiptOf(core: Core, k: Key): Payload
    requires k in core.events
  {
    var r := core.events[k];
    ReceiptBody(k.eventId, EventDigestOf(r.packet),
                if r.status.Applied? then ReportsApplied else if r.status.Rejected? then ReportsRejected
                else if r.status.Buffered? then ReportsBuffered else ReportsOther)
  }

  /** Taking an event off the stream queues the reply it calls for and then its receipt, which
      says what became of it. A text that the owner declined gets none, and neither do receipts
      and recovery answers, unless they had expired. */
  lemma StepAnswers(e: Endpoint, now: Instant)
    requires DrainStep(e, now).Go?
    ensures var turn := NextTurn(e.core, e.reviews, now);
      && turn.Take? && turn.key in e.core.events
      && var p := e.core.events[turn.key].packet;
         var e1 := e.(core := turn.core);
         var silent := p.kind.Receipt? || p.kind.SyncResponse?;
         && (turn.reason.ReviewDeclined? ==> DrainStep(e, now).e == e1)
         && (turn.reason.Expired? || (!silent && (turn.reason.WasInvalid? || turn.reason.AlreadyDecided?)) ==>
               Queue(e1, Receipt, Some(p.eventId), now) == Some(DrainStep(e, now).e))
         && (silent && (turn.reason.WasInvalid? || turn.reason.AlreadyDecided?) ==> DrainStep(e, now).e == e1)
         && (turn.reason.WasApplied? ==>
               var e2 := e1.(view := ViewAfter(e.view, e.core, turn.core, p, false));
               var kind := ReplyTo(e.core.c, turn.core.c, p, false);
               var e3 := if kind.None? then Some(e2) else Queue(e2, kind.value, None, now);
               e3.Some? && (if silent then DrainStep(e, now).e == e3.value
                            else Queue(e3.value, Receipt, Some(p.eventId), now) == Some(DrainStep(e, now).e)))
  {
  }

  lemma ReceiptSays(core: Core, about: EventId)
    ensures var k := Key(core.c.peer, about);
      TemplatePayload(core, Receipt, Some(about)) ==
        if k !in core.events || core.events[k].packet.kind.Receipt? || core.events[k].packet.kind.SyncResponse? then None
        else Some(ReceiptOf(core, k))
  {
  }

  /** After the loop, missing events are asked for exactly while some event is still undecided,
      the collaboration is not cancelled, and the owner is not the one waited for. */
  lemma TailAsks(e: Endpoint, now: Instant)
    requires DrainTail(e, now).Some?
    ensures var gap := exists k :: k in e.core.events && e.core.events[k].packet.sender == e.core.c.peer
                                   && e.core.events[k].status.Buffered?;
      var f := DrainTail(e, now).value;
      if gap && !e.core.c.closure.Cancelled? && !(e.view.waiting.PeerReview? && !SafeContent(e)) then
        Queue(e.(view := View(Reconciling, MissingEvent)), SyncRequest, None, now) == Some(f)
      else f.ops == e.ops && f.core == e.core
  {
  }

  /** A review is decided once, and lets the stream go on at once. */
  lemma DecidesOnce(e: Endpoint, packet: Packet, decision: Review, now: Instant)
    ensures DecideReview(e, packet, decision, now).Some? ==>
      !decision.Pending? && (packet in e.reviews ==> e.reviews[packet].Pending?)
      && DecideReview(e, packet, decision, now) == Drain(e.(reviews := e.reviews[packet := decision]), now)
  {
  }

  // ---- What the owner is shown ----

  /** The event ends the collaboration as completed or as cancelled: an acknowledgement that
      arrives, one of a cancellation, or a receipt for the own acknowledgement. */
  predicate Closes(before: Core, packet: Packet, outgoing: bool) {
    || packet.kind.CancelAck?
    || (packet.kind.AgreementAck? && !outgoing)
    || (&& packet.kind.Receipt? && !outgoing && packet.payload.ReceiptBody? && packet.payload.report.ReportsApplied?
        && Key(packet.recipient, packet.payload.eventId) in before.events
        && before.events[Key(packet.recipient, packet.payload.eventId)].packet.kind.AgreementAck?
        && !before.c.closure.Cancelled?)
  }

  /** The collaboration is shown closed after an event exactly if the event ends it, or it
      was shown closed and the event says nothing new; it is shown agreed exactly after the
      event that agrees, until the next one that says something else. */
  lemma ShowsExactly(v: View, before: Core, after: Core, packet: Packet, outgoing: bool)
    ensures var w := ViewAfter(v, before, after, packet, outgoing);
      var agrees := (packet.kind.Accept? && after.c.agreement.Some?)
                    || (packet.kind.Agree? && !AlreadyCancelled(before.c, packet)) || (packet.kind.AgreementAck? && outgoing);
      var reopens := packet.kind.Join? || packet.kind.Proposal?
                     || (packet.kind.Receipt? && !outgoing && packet.payload.ReceiptBody? && packet.payload.report.ReportsApplied?
                         && Key(packet.recipient, packet.payload.eventId) in before.events
                         && before.events[Key(packet.recipient, packet.payload.eventId)].packet.kind.Withdraw?
                         && before.c.agreement.None?);
      && (w.phase.Closed? <==> Closes(before, packet, outgoing) || (v.phase.Closed? && w == v))
      && (w.phase.Agreed? <==> agrees || (v.phase.Agreed? && w == v))
      && (w.phase.Negotiating? <==> reopens || (v.phase.Negotiating? && w == v))
      && (w.phase.PartiallyAccepted? <==>
            (packet.kind.Accept? && after.c.agreement.None?) || (v.phase.PartiallyAccepted? && w == v))
      && (w.phase.Reconciling? <==> packet.kind.Withdraw? || packet.kind.CancelRequest? || (v.phase.Reconciling? && w == v))
  {
  }

  /** A drain that stops says why: a missing or wrong predecessor, the owner's review, or
      missing evidence. */
  lemma StopsShow(e: Endpoint, now: Instant)
    requires DrainStep(e, now).Stop?
    ensures var f, turn := DrainStep(e, now).e, NextTurn(e.core, e.reviews, now);
      && f == e.(view := f.view)
      && (turn.Idle? ==> f == e) && (turn.BrokenChain? ==> f.view == View(Reconciling, ChainConflict))
      && (turn.AwaitReview? ==> f.view == e.view.(waiting := PeerReview))
      && (turn.AwaitEvidence? ==> f.view == View(Reconciling, MissingEvent))
  {
  }
}
