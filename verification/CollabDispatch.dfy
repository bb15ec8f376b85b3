/** The guards of outgoing operations, on the stored fields: what a request becomes, and
    exactly when its packet is stored and handed over. */
module CollabDispatch {
  import opened Basics
  import opened CollabTypes
  import opened CollabInbox
  import opened CollabOutbox

  /** The kinds that the standing permit covers. */
  predicate Permitted(kind: Kind) {
    kind.Agree? || kind.AgreementAck? || kind.Receipt? || kind.SyncRequest? || kind.SyncResponse?
  }

  /** The kinds that a policy judges. */
  predicate Judged(kind: Kind) {
    kind.Proposal? || kind.ChangeRequest? || kind.Accept?
  }

  predicate MandateOpen(t: Task, now: Instant) {
    t.active && t.expiresAt > now && t.usedCount < t.maxActions
  }

  /** What a prepared operation says: the owner's terms between the two parties in order,
      on top of the current ones; the acceptance of the current terms for itself until
      the mandate ends; the withdrawal of the own acceptance; or the agreement's name. */
  lemma PreparedSays(e: Endpoint, tag: nat, kind: Kind, request: Request, verdict: Verdict, now: Instant)
    requires Prepare(e, tag, kind, request, verdict, now).Some?
    ensures var c, p := e.core.c, Prepare(e, tag, kind, request, verdict, now).value.ops[UserOp(tag)].payload;
      match kind
      case Proposal =>
        && p.TermsBody? && request.TermsRequest? && p.termsDigest == DigestOf(p.terms)
        && p.terms.proposalId == request.proposalId && p.terms.version == request.version && p.terms.topic == request.topic
        && p.terms.start == request.start && p.terms.end == request.end
        && (p.terms.participants == [c.local, c.peer] || p.terms.participants == [c.peer, c.local])
        && p.parent == (if c.terms.Some? then Some(DigestOf(c.terms.value)) else None)
      case Accept =>
        && c.terms.Some?
        && p == AcceptBody(DigestOf(c.terms.value), c.local, true, e.task.expiresAt)
      case Withdraw =>
        && c.local in c.acceptances
        && p == WithdrawBody(c.acceptances[c.local].eventId, c.acceptances[c.local].accepted)
      case CancelRequest => c.agreement.Some? && p == AgreementNameBody(c.agreement.value.id)
      case CancelAck => c.agreement.Some? && c.cancelRequest.Some? && p == AgreementNameBody(c.agreement.value.id)
      case SyncRequest => p == AfterBody(c.inSeq)
      case _ => true
  {
  }

  /** Whether the owner is asked, and how long the operation can be carried out: within the
      permit, within the mandate, or for fifteen minutes after the mandate ended. */
  lemma PreparedAsks(e: Endpoint, tag: nat, kind: Kind, request: Request, verdict: Verdict, now: Instant)
    requires Prepare(e, tag, kind, request, verdict, now).Some?
    ensures var op := Prepare(e, tag, kind, request, verdict, now).value.ops[UserOp(tag)];
      && op.status == (if Permitted(kind) || (Judged(kind) && verdict.MayAllow?) then Ready else Awaiting)
      && (if Permitted(kind) then e.core.c.permit.Some? && op.expiresAt == e.core.c.permit.value.until
          else if MandateOpen(e.task, now) then op.expiresAt == e.task.expiresAt
          else (kind.Withdraw? || kind.CancelRequest? || kind.CancelAck?) && op.expiresAt == now + 900)
      && (Judged(kind) ==> !verdict.MayDeny?)
      && op.maintenance == Permitted(kind) && op.hasAction == Judged(kind) && op.asked == op.status.Awaiting?
      && op.recoveryOnce == (!Permitted(kind) && !MandateOpen(e.task, now))
      && !op.approvedOnce && !op.recoveryUsed && op.creates.None? && op.fullReview && Unchanged(e, op)
  {
  }

  /** Every stored text of the peer that needs a review was approved, and the peer is not
      blocked. */
  predicate Cleared(e: Endpoint) {
    && !e.blocked
    && forall k :: k in e.core.events && !e.core.events[k].outgoing ==>
         var p := e.core.events[k].packet;
         (p.kind.Invite? || p.kind.Proposal? || p.kind.ChangeRequest?) ==> p in e.reviews && e.reviews[p].Approved?
  }

  predicate PermitStands(c: Collab, now: Instant) {
    c.permit.Some? && !c.permit.value.revoked && c.permit.value.until > now
  }

  /** The facts and the mandate are those that the operation was prepared on. */
  predicate Unchanged(e: Endpoint, op: Operation) {
    && e.task.revision == op.revision && e.core.c.joined == op.context.joined && e.core.c.terms == op.context.terms
    && e.core.c.acceptances == op.context.acceptances && e.core.c.agreement == op.context.agreement
    && e.core.c.cancelRequest == op.context.cancelRequest && e.core.c.withdrawPending == op.context.withdrawPending
  }

  /** In time, to a cleared peer, and under the permit or the mandate that it started with. */
  predicate Current(e: Endpoint, op: Operation, now: Instant) {
    && now < op.expiresAt && Cleared(e)
    && if op.maintenance then
         PermitStands(e.core.c, now)
         && (op.status.Sending? || e.core.c.permit.value.used < e.core.c.permit.value.maxEvents)
       else
         && e.task.revision == op.revision && (op.status.Sending? || Unchanged(e, op))
         && (op.recoveryOnce || (e.task.active && e.task.expiresAt > now))
  }

  lemma CurrentExactly(e: Endpoint, op: Operation, now: Instant)
    requires (op.creates.None? && op.fullReview) || op.status.Sending?
    ensures OperationCurrent(e, op, now) <==> Current(e, op, now)
  {
  }

  /** The decision that the operation needs was made, and its budget can pay. */
  predicate Payable(e: Endpoint, op: Operation, verdict: Verdict) {
    if op.maintenance then true
    else if op.recoveryOnce then op.approvedOnce && !op.recoveryUsed
    else
      && e.task.usedCount < e.task.maxActions
      && (if op.hasAction then verdict.MayAllow? || (verdict.MayAsk? && op.approvedOnce) else op.asked ==> op.approvedOnce)
  }

  /** The next packet has a number and a predecessor in the own stream; recovery events
      have neither. */
  predicate Numbers(c: Collab, kind: Kind) {
    c.local != c.peer && (IsSync(kind) || (0 <= c.outSeq < 256 && (c.outSeq == 0 <==> c.lastOut.None?)))
  }

  /** The first transaction succeeds exactly for a ready operation that is current, to a
      connected peer, with its decision and its budget, while numbers are left. */
  lemma ReservesExactly(e: Endpoint, id: OpId, verdict: Verdict, connected: bool, now: Instant)
    requires id in e.ops && e.ops[id].creates.None? && e.ops[id].fullReview
    ensures Reserve(e, id, verdict, connected, now).Some? <==>
      && e.ops[id].status.Ready? && connected && Current(e, e.ops[id], now)
      && Payable(e, e.ops[id], verdict) && Numbers(e.core.c, e.ops[id].kind)
  {
    CurrentExactly(e, e.ops[id], now);
  }

  /** The second transaction hands the stored packet over exactly while the operation is
      in time and current, and the packet was applied before or is applied now. */
  lemma SubmitsExactly(e: Endpoint, id: OpId, stored: bool, connected: bool, now: Instant)
    requires id in e.ops && e.ops[id].status.Sending? && e.ops[id].packet.Some?
    requires KeyOf(e.ops[id].packet.value) in e.core.events
    ensures var op, p := e.ops[id], e.ops[id].packet.value;
      Submit(e, id, stored, connected, now).Some? <==>
        && connected && Current(e, op, now)
        && (e.core.events[KeyOf(p)].status.Reserved? ==> Apply(e, p, now, true).Done?)
  {
    CurrentExactly(e, e.ops[id], now);
  }

  /** The owner's approval takes effect exactly while the operation could still be carried
      out as it was asked. */
  lemma ApprovesExactly(e: Endpoint, id: OpId, now: Instant)
    requires id in e.ops && e.ops[id].creates.None? && e.ops[id].fullReview
    ensures Confirm(e, id, true, now).Some? <==> e.ops[id].status.Awaiting? && Current(e, e.ops[id], now)
    ensures Confirm(e, id, false, now).Some? <==> e.ops[id].status.Awaiting?
  {
    CurrentExactly(e, e.ops[id], now);
  }

  /** The packet that is stored: the next number and the predecessor of the own stream, made
      now and valid as long as the operation, with the operation's content. */
  lemma StoresPacket(e: Endpoint, id: OpId, verdict: Verdict, connected: bool, now: Instant)
    requires Reserve(e, id, verdict, connected, now).Some?
    ensures id in e.ops
    ensures var c, op, f := e.core.c, e.ops[id], Reserve(e, id, verdict, connected, now).value;
      var sync := op.kind.SyncRequest? || op.kind.SyncResponse?;
      var p := Packet(c.id, EventOf(id), op.kind, c.local, c.peer, if sync then 0 else c.outSeq + 1,
                      if sync then None else c.lastOut, now, op.expiresAt, op.payload);
      && f.core.events == e.core.events[Key(c.local, EventOf(id)) := Record(p, Status.Reserved, true, None)]
      && f.ops.Keys == e.ops.Keys && f.ops[id].status.Sending? && f.ops[id].packet == Some(p)
      && (if sync then f.core.c.outSeq == c.outSeq && f.core.c.lastOut == c.lastOut
          else f.core.c.outSeq == c.outSeq + 1 && f.core.c.lastOut == Some(EventOf(id)))
  {
  }

  /** A collaboration is opened exactly with another party, under a live mandate with an
      action left, and, if it answers an invitation, for an unexpired one that the peer sent
      first, for this party, this collaboration and the mandate's topic. It costs one action,
      and gives a permit of 32 events until a day after the mandate, a week at most. */
  lemma OpensExactly(local: Urn, task: Task, id: nat, tag: nat, peer: Urn, invitation: Option<Packet>, now: Instant)
    ensures Open(local, task, id, tag, peer, invitation, now).Some? <==>
      && local != peer && task.active && now < task.expiresAt && task.usedCount < task.maxActions
      && (invitation.Some? ==>
            var p := invitation.value;
            && p.kind.Invite? && p.collab == id && p.sender == peer && p.recipient == local && p.sequence == 1
            && p.previous.None? && p.createdAt < p.expiresAt && now < p.expiresAt
            && p.payload.OpeningBody? && p.payload.supported && p.payload.topic == task.topic)
    ensures Open(local, task, id, tag, peer, invitation, now).Some? ==>
      var e := Open(local, task, id, tag, peer, invitation, now).value;
      var end := if task.expiresAt + 86400 < now + 604800 then task.expiresAt + 86400 else now + 604800;
      && e.core.c.permit == Some(Permit(end, 32, 0, false)) && e.task == task.(usedCount := task.usedCount + 1)
      && e.core.c.initiator == (if invitation.Some? then peer else local) && e.core.c.topic == task.topic
      && !e.core.c.joined && e.core.c.terms.None? && e.core.c.acceptances == map[] && e.core.c.agreement.None?
      && e.core.c.outSeq == 1 && e.core.c.inSeq == (if invitation.Some? then 1 else 0)
  {
  }
}
