/** The records of one bilateral collaboration: wire events, stored events, the
    shared negotiation facts, and outgoing operations.

    Identifiers and texts that the protocol only compares are numbers. A digest is
    the value it was computed from, wrapped in a constructor, so that digests are
    injective; every digest type also has values that match nothing. Instants are
    numbers on one scale. */
module CollabTypes {
  import opened Basics

  type Urn = nat
  type Instant = int

  const MAX_EVENTS: int := 256
  const MAX_MAINTENANCE: nat := 32

  datatype Kind =
    | Invite | Join | Proposal | ChangeRequest | Accept | Agree | AgreementAck
    | Withdraw | CancelRequest | CancelAck | Receipt | SyncRequest | SyncResponse

  predicate IsSync(k: Kind) {
    k.SyncRequest? || k.SyncResponse?
  }

  predicate IsMaintenance(k: Kind) {
    k.Agree? || k.AgreementAck? || k.Receipt? || IsSync(k)
  }

  predicate IsRecovery(k: Kind) {
    k.Withdraw? || k.CancelRequest? || k.CancelAck?
  }

  /** Kinds whose free text the local owner reviews before it is used. */
  predicate NeedsReview(k: Kind) {
    k.Invite? || k.Proposal? || k.ChangeRequest?
  }

  /** A meeting proposal. `fixed` says that the mode, obligations and formation rule
      are the only ones the protocol supports. */
  datatype Terms = Terms(proposalId: nat, version: int, topic: nat, participants: seq<Urn>,
                         start: Instant, end: Instant, fixed: bool)

  datatype TermsDigest = DigestOf(terms: Terms) | OtherTerms(tag: nat)

  datatype EventDigest = EventDigestOf(packet: Packet) | OtherEvent(tag: nat)

  datatype OpId = UserOp(tag: nat) | AutoOp(kind: Kind, payload: Payload)

  datatype EventId = EventOf(op: OpId) | OtherId(tag: nat)

  datatype AcceptanceRef = AcceptanceRef(actor: Urn, eventId: EventId, eventDigest: EventDigest)

  datatype Formation = Formation(termsDigest: TermsDigest, formedAt: Instant, acceptances: seq<AcceptanceRef>,
                                 initiatorSequence: int, peerSequence: int)

  datatype DecisionId = DecisionOf(collab: nat, formation: Formation) | OtherDecision(tag: nat)

  datatype AgreementId = AgreementOf(collab: nat, decision: DecisionId) | OtherAgreement(tag: nat)

  datatype Agreement = Agreement(id: AgreementId, decision: DecisionId, formation: Formation)

  /** What a receipt may report; `ReportsOther` is any unsupported text. */
  datatype Report = ReportsApplied | ReportsBuffered | ReportsRejected | ReportsOther

  datatype Payload =
    | OpeningBody(topic: nat, supported: bool)
    | TermsBody(terms: Terms, termsDigest: TermsDigest, parent: Option<TermsDigest>)
    | AcceptBody(accepted: TermsDigest, actor: Urn, supportedBasis: bool, validUntil: Instant)
    | AgreementBody(agreement: Agreement)
    | AgreementNameBody(agreementId: AgreementId)
    | WithdrawBody(acceptEventId: EventId, withdrawn: TermsDigest)
    | ReceiptBody(eventId: EventId, eventDigest: EventDigest, report: Report)
    | AfterBody(after: int)
    | HistoryBody(events: seq<Packet>)
    | Malformed

  datatype Packet = Packet(collab: nat, eventId: EventId, kind: Kind, sender: Urn, recipient: Urn,
                           sequence: int, previous: Option<EventId>,
                           createdAt: Instant, expiresAt: Instant, payload: Payload)

  datatype Status = Reserved | Buffered | Applied | Rejected

  datatype Record = Record(packet: Packet, status: Status, outgoing: bool, receipt: Option<Payload>)

  datatype Key = Key(sender: Urn, eventId: EventId)

  function KeyOf(p: Packet): Key {
    Key(p.sender, p.eventId)
  }

  /** One party's current acceptance of the current terms. */
  datatype Consent = Consent(accepted: TermsDigest, actor: Urn, validUntil: Instant,
                             eventId: EventId, eventDigest: EventDigest, active: bool)

  datatype CancelNote = CancelNote(sender: Urn, eventId: EventId)

  datatype Permit = Permit(until: Instant, maxEvents: nat, used: nat, revoked: bool)

  datatype Closure = NotClosed | Cancelled | Complete

  /** The negotiation facts of one collaboration as one endpoint stores them. */
  datatype Collab = Collab(
    id: nat, local: Urn, peer: Urn, initiator: Urn, topic: nat,
    joined: bool, terms: Option<Terms>, acceptances: map<Urn, Consent>,
    agreement: Option<Agreement>, synced: bool, withdrawPending: bool,
    cancelRequest: Option<CancelNote>, changeRequest: Option<Payload>,
    closure: Closure, syncAfter: int,
    outSeq: int, lastOut: Option<EventId>, inSeq: int, lastIn: Option<EventId>,
    permit: Option<Permit>)

  /** The facts that decide every event: the collaboration and its stored events. */
  datatype Core = Core(c: Collab, events: map<Key, Record>)

  datatype Phase = Invited | Negotiating | PartiallyAccepted | Agreed | Reconciling | Closed

  datatype Waiting =
    | NotWaiting | AgreementSync | AgreementAckDue | AckDelivery | WithdrawalDecision
    | CancelDecision | MissingEvent | ChainConflict | PeerReview | PermitMissing | PermitSpent

  /** What is shown to the owner; no decision about an event reads it. */
  datatype View = View(phase: Phase, waiting: Waiting)

  datatype Review = Pending | Approved | Declined

  /** The collaboration facts an operation was prepared against. */
  datatype Context = Context(joined: bool, terms: Option<Terms>, acceptances: map<Urn, Consent>,
                             agreement: Option<Agreement>, cancelRequest: Option<CancelNote>, withdrawPending: bool)

  function ContextOf(c: Collab): Context {
    Context(c.joined, c.terms, c.acceptances, c.agreement, c.cancelRequest, c.withdrawPending)
  }

  /** The policy decision about an action. */
  datatype Verdict = MayAllow | MayAsk | MayDeny

  datatype OpStatus = Awaiting | Ready | Sending | Accepted | Denied

  /** What an opening operation will create when it is sent. */
  datatype Creation = Creation(collab: Collab, invitation: Option<Packet>)

  datatype Operation = Operation(
    kind: Kind, payload: Payload, hasAction: bool, revision: nat, context: Context,
    status: OpStatus, asked: bool, fullReview: bool, expiresAt: Instant,
    maintenance: bool, recoveryOnce: bool, approvedOnce: bool, recoveryUsed: bool,
    creates: Option<Creation>, packet: Option<Packet>)

  /** The local mandate. `otherActions` counts what other features charged to it. */
  datatype Task = Task(active: bool, expiresAt: Instant, revision: nat, topic: nat,
                       maxActions: nat, usedCount: nat, otherActions: nat)

  predicate TaskLive(t: Task, now: Instant) {
    t.active && t.expiresAt > now
  }
}
