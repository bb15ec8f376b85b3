/** Outgoing operations: preparing them, the owner's confirmation, and the two
    transactions of a dispatch (reserve the exact packet, then apply and send it). */
module CollabOutbox {
  import opened Basics
  import opened CollabTypes
  import opened CollabReducer
  import opened CollabInbox

  datatype Request = NoRequest | AboutEvent(eventId: EventId)
                   | TermsRequest(proposalId: nat, version: int, topic: nat, start: Instant, end: Instant)

  function BothParties(c: Collab): seq<Urn> {
    if c.local < c.peer then [c.local, c.peer] else [c.peer, c.local]
  }

  /** The wire payload of a requested operation, compiled from the request and local
      facts; `None` is the source's refusal. */
  ghost function RequestedPayload(core: Core, task: Task, kind: Kind, request: Request): Option<Payload> {
    var c := core.c;
    match kind
    case Invite => None
    case Join => None
    case Proposal => TermsPayload(c, request)
    case ChangeRequest => TermsPayload(c, request)
    case Accept =>
      if !request.NoRequest? || c.terms.None? || !TermsSupported(c, c.terms.value) then None
      else Some(AcceptBody(DigestOf(c.terms.value), c.local, true, task.expiresAt))
    case CancelRequest =>
      if !request.NoRequest? || c.agreement.None? then None else Some(AgreementNameBody(c.agreement.value.id))
    case CancelAck =>
      if !request.NoRequest? || c.agreement.None? || c.cancelRequest.None? then None
      else Some(AgreementNameBody(c.agreement.value.id))
    case Withdraw =>
      if !request.NoRequest? || c.local !in c.acceptances then None
      else Some(WithdrawBody(c.acceptances[c.local].eventId, c.acceptances[c.local].accepted))
    case Receipt =>
      if request.AboutEvent? then TemplatePayload(core, Receipt, Some(request.eventId)) else None
    case _ =>
      if request.NoRequest? then TemplatePayload(core, kind, None) else None
  }

  function TermsPayload(c: Collab, request: Request): Option<Payload> {
    if !request.TermsRequest? || !(1 <= request.version <= 2147483647) || request.start >= request.end then None
    else
      var t := Terms(request.proposalId, request.version, request.topic, BothParties(c),
                     request.start, request.end, true);
      Some(TermsBody(t, DigestOf(t), CurrentDigest(c)))
  }

  function NewOperation(e: Endpoint, kind: Kind, payload: Payload, status: OpStatus, expires: Instant,
                        maintenance: bool, recovery: bool): Operation {
    Operation(kind, payload, kind.Proposal? || kind.ChangeRequest? || kind.Accept?, e.task.revision,
              ContextOf(e.core.c), status, status.Awaiting?, true, expires, maintenance, recovery,
              false, false, None, None)
  }

  /** The operation that a request on a bound collaboration becomes. `verdict` is the
      policy decision about its action. */
  ghost function OperationFor(e: Endpoint, id: nat, kind: Kind, request: Request, verdict: Verdict, now: Instant)
    : Option<Operation>
  {
    var c, t := e.core.c, e.task;
    if UserOp(id) in e.ops || (!SafeContent(e) && !IsMaintenance(kind)) then None
    else match RequestedPayload(e.core, t, kind, request)
      case None => None
      case Some(payload) =>
        if Precondition(c, kind, payload, c.local) != Pass then None
        else if IsMaintenance(kind) then
          if !PermitLive(c, now) then None
          else Some(NewOperation(e, kind, payload, Ready, c.permit.value.until, true, false))
        else if IsRecovery(kind) && (!TaskLive(t, now) || t.usedCount >= t.maxActions) then
          Some(NewOperation(e, kind, payload, Awaiting, now + 900, false, true))
        else if !TaskLive(t, now) || t.usedCount >= t.maxActions then None
        else
          var status := if !kind.Proposal? && !kind.ChangeRequest? && !kind.Accept? then MayAsk else verdict;
          if status.MayDeny? then None
          else Some(NewOperation(e, kind, payload, if status.MayAllow? then Ready else Awaiting, t.expiresAt, false, false))
  }

  ghost function Prepare(e: Endpoint, id: nat, kind: Kind, request: Request, verdict: Verdict, now: Instant)
    : Option<Endpoint>
  {
    match OperationFor(e, id, kind, request, verdict, now)
    case None => None
    case Some(op) => Some(e.(ops := e.ops[UserOp(id) := op]))
  }

  /** The operation may still be carried out. */
  predicate OperationCurrent(e: Endpoint, op: Operation, now: Instant) {
    var c, t := e.core.c, e.task;
    && op.expiresAt > now
    && !(op.kind.Accept? && op.asked && !op.status.Sending? && !op.status.Accepted? && !op.fullReview)
    && (op.creates.Some? ==> op.status.Sending?)
    && SafeContent(e)
    && if op.maintenance then
         c.permit.Some? && !c.permit.value.revoked && c.permit.value.until > now
         && (op.status.Sending? || c.permit.value.used < c.permit.value.maxEvents)
       else
         && t.revision == op.revision
         && (op.recoveryOnce || TaskLive(t, now))
         && (!op.status.Sending? ==> ContextOf(c) == op.context)
  }

  /** The owner's confirmation of exactly this operation, or its refusal. */
  function Confirm(e: Endpoint, id: OpId, approve: bool, now: Instant): Option<Endpoint> {
    if id !in e.ops || !e.ops[id].status.Awaiting? then None
    else if !approve then Some(e.(ops := e.ops[id := e.ops[id].(status := Denied)]))
    else if !OperationCurrent(e, e.ops[id], now) then None
    else Some(e.(ops := e.ops[id := e.ops[id].(status := Ready, approvedOnce := true)]))
  }

  // ---- The first transaction: charge one budget and store the exact packet ----

  datatype Charge = Maintenance | Recovery | TaskAction

  function ChargeOf(op: Operation): Charge {
    if op.maintenance then Maintenance else if op.recoveryOnce then Recovery else TaskAction
  }

  predicate MayCharge(e: Endpoint, op: Operation, verdict: Verdict, now: Instant) {
    match ChargeOf(op)
    case Maintenance => PermitLive(e.core.c, now)
    case Recovery => op.approvedOnce && !op.recoveryUsed
    case TaskAction =>
      && e.task.usedCount < e.task.maxActions
      && (if op.hasAction then verdict.MayAllow? || (verdict.MayAsk? && op.approvedOnce)
          else !op.asked || op.approvedOnce)
  }

  function PacketFor(c: Collab, id: OpId, op: Operation, now: Instant): Packet {
    Packet(c.id, EventOf(id), op.kind, c.local, c.peer,
           if IsSync(op.kind) then 0 else c.outSeq + 1, if IsSync(op.kind) then None else c.lastOut,
           now, op.expiresAt, op.payload)
  }

  function Charged(e: Endpoint, id: OpId): Endpoint
    requires id in e.ops
    requires e.ops[id].maintenance ==> e.core.c.permit.Some?
  {
    var op := e.ops[id];
    match ChargeOf(op)
    case Maintenance =>
      var permit := e.core.c.permit.value;
      e.(core := e.core.(c := e.core.c.(permit := Some(permit.(used := permit.used + 1)))))
    case Recovery => e.(ops := e.ops[id := op.(recoveryUsed := true)])
    case TaskAction => e.(task := e.task.(usedCount := e.task.usedCount + 1))
  }

  function Reserve(e: Endpoint, id: OpId, verdict: Verdict, connected: bool, now: Instant): Option<Endpoint> {
    if id !in e.ops || !e.ops[id].status.Ready? || !OperationCurrent(e, e.ops[id], now) || !connected then None
    else if !MayCharge(e, e.ops[id], verdict, now) then None
    else
      var packet := PacketFor(e.core.c, id, e.ops[id], now);
      if !ValidEvent(packet) then None
      else
        var e1 := Charged(e, id);
        var c := if IsSync(packet.kind) then e1.core.c
                 else e1.core.c.(outSeq := packet.sequence, lastOut := Some(packet.eventId));
        Some(e1.(core := Core(c, e1.core.events[KeyOf(packet) := Record(packet, Status.Reserved, true, None)]),
                 ops := e1.ops[id := e1.ops[id].(status := Sending, packet := Some(packet))]))
  }

  // ---- The second transaction: apply the packet once and hand it over ----

  /** `stored` is whether the transport acknowledged the packet; a packet handed over
      may be on its way in either case. */
  ghost function Submit(e: Endpoint, id: OpId, stored: bool, connected: bool, now: Instant): Option<Endpoint> {
    if id !in e.ops || !e.ops[id].status.Sending? || e.ops[id].packet.None?
       || !OperationCurrent(e, e.ops[id], now) || !connected then None
    else
      var packet := e.ops[id].packet.value;
      var key := KeyOf(packet);
      if key !in e.core.events then None
      else if e.core.events[key].status.Reserved? then
        match Apply(e, packet, now, true)
        case Done(e1) => Some(Delivered(SetStatus(e1, key, Status.Applied), id, stored))
        case _ => None
      else Some(Delivered(e, id, stored))
  }

  function Delivered(e: Endpoint, id: OpId, stored: bool): Endpoint {
    if stored && id in e.ops then e.(ops := e.ops[id := e.ops[id].(status := OpStatus.Accepted)]) else e
  }

  /** The owner takes the standing permit back. */
  function Revoke(e: Endpoint): Endpoint {
    var c := e.core.c;
    e.(core := e.core.(c := if c.permit.Some? then c.(permit := Some(c.permit.value.(revoked := true))) else c),
       view := e.view.(waiting := PermitMissing))
  }

  // ---- Binding ----

  function NewCollab(id: nat, local: Urn, peer: Urn, initiator: Urn, topic: nat): Collab {
    Collab(id, local, peer, initiator, topic, false, None, map[], None, false, false, None, None,
           NotClosed, 0, 0, None, 0, None, None)
  }

  /** Send the approved opening operation of an unbound collaboration: an invitation,
      or a join that answers the invitation recorded from the peer. */
  function Open(local: Urn, task: Task, id: nat, tag: nat, peer: Urn, invitation: Option<Packet>, now: Instant)
    : Option<Endpoint>
  {
    var initiator := if invitation.Some? then peer else local;
    var c := NewCollab(id, local, peer, initiator, task.topic);
    var op := Operation(if invitation.Some? then Join else Invite, OpeningBody(task.topic, true), false, task.revision,
                        ContextOf(c), Sending, true, true, task.expiresAt, false, false, true, false,
                        Some(Creation(c, invitation)), None);
    var permit := Permit(Min(task.expiresAt + 86400, now + 7 * 86400), MAX_MAINTENANCE, 0, false);
    var bound := if invitation.Some? then
                   c.(permit := Some(permit), inSeq := 1, lastIn := Some(invitation.value.eventId))
                 else c.(permit := Some(permit));
    var packet := PacketFor(bound, UserOp(tag), op, now);
    if local == peer || !TaskLive(task, now) || task.usedCount >= task.maxActions || !ValidEvent(packet) then None
    else if invitation.Some? && !Acceptable(invitation.value, id, local, peer, task.topic, now) then None
    else
      var past := if invitation.Some? then map[KeyOf(invitation.value) := Record(invitation.value, Status.Applied, false, None)]
                  else map[];
      Some(Endpoint(Core(bound.(outSeq := 1, lastOut := Some(packet.eventId)),
                         past[KeyOf(packet) := Record(packet, Status.Reserved, true, None)]),
                    View(Invited, NotWaiting),
                    map[UserOp(tag) := op.(packet := Some(packet))],
                    if invitation.Some? then map[invitation.value := Approved] else map[],
                    false, task.(usedCount := task.usedCount + 1)))
  }

  function Min(x: int, y: int): int {
    if x < y then x else y
  }

  /** An invitation that an unbound endpoint records and its owner may join. */
  predicate Acceptable(p: Packet, id: nat, local: Urn, peer: Urn, topic: nat, now: Instant) {
    && ValidEvent(p) && p.kind.Invite? && p.sequence == 1 && p.collab == id
    && p.sender == peer && p.recipient == local
    && p.payload.OpeningBody? && p.payload.supported && p.payload.topic == topic
    && p.expiresAt > now
  }
}
