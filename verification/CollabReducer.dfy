/** The reducer: what one event does to the negotiation facts. */
module CollabReducer {
  import opened Basics
  import opened CollabTypes

  /** `Missing` keeps the event buffered until earlier evidence arrives; `Invalid`
      rejects it for good. Neither changes any stored fact. */
  datatype Outcome<+T> = Done(value: T) | Missing | Invalid

  datatype Check = Pass | NotYet | Never

  // ---- Reading the stored facts ----

  predicate PermitOpen(c: Collab, now: Instant) {
    c.permit.Some? && !c.permit.value.revoked && c.permit.value.until > now
  }

  predicate PermitLive(c: Collab, now: Instant) {
    PermitOpen(c, now) && c.permit.value.used < c.permit.value.maxEvents
  }

  function CurrentDigest(c: Collab): Option<TermsDigest> {
    if c.terms.Some? then Some(DigestOf(c.terms.value)) else None
  }

  predicate HasActive(c: Collab) {
    exists u :: u in c.acceptances && c.acceptances[u].active
  }

  /** Only a bilateral online meeting between the two bound parties is supported. */
  predicate TermsSupported(c: Collab, t: Terms) {
    && t.fixed
    && (t.participants == [c.local, c.peer] || t.participants == [c.peer, c.local])
    && 1 <= t.version <= 2147483647
    && t.start < t.end
  }

  // ---- The precondition of an event ----

  function Precondition(c: Collab, kind: Kind, p: Payload, sender: Urn): Check {
    if IsMaintenance(kind) then
      if kind.AgreementAck? && sender == c.initiator then Never else Pass
    else if kind.Invite? || kind.Join? then Pass
    else if !c.joined then Never
    else if c.closure.Cancelled? then Never
    else if (kind.Proposal? || kind.ChangeRequest? || kind.Accept?) && c.agreement.Some? then Never
    else match kind
      case Proposal =>
        if sender != c.initiator || HasActive(c) || !p.TermsBody? then Never
        else if p.parent != CurrentDigest(c) then NotYet
        else if p.terms.version != (if c.terms.Some? then c.terms.value.version + 1 else 1) then Never
        else Pass
      case ChangeRequest =>
        if sender == c.initiator then Never else Pass
      case Accept =>
        if c.terms.None? then NotYet
        else if !p.AcceptBody? then Never
        else if p.accepted != DigestOf(c.terms.value) then NotYet
        else if p.actor != sender then Never
        else Pass
      case _ => Pass
  }

  // ---- Formation: the coordinator's durable decision ----

  predicate ReadyToForm(c: Collab, now: Instant) {
    && c.initiator == c.local && c.agreement.None? && c.terms.Some?
    && c.acceptances.Keys == {c.local, c.peer}
    && (forall u :: u in c.acceptances ==>
          && c.acceptances[u].active
          && c.acceptances[u].validUntil > now
          && c.acceptances[u].accepted == DigestOf(c.terms.value))
  }

  function RefOf(c: Collab, u: Urn): AcceptanceRef
    requires u in c.acceptances
  {
    AcceptanceRef(u, c.acceptances[u].eventId, c.acceptances[u].eventDigest)
  }

  function FormationOf(c: Collab, now: Instant): Formation
    requires ReadyToForm(c, now)
  {
    var refs := if c.local < c.peer then [RefOf(c, c.local), RefOf(c, c.peer)]
                else [RefOf(c, c.peer), RefOf(c, c.local)];
    Formation(DigestOf(c.terms.value), now, refs, c.outSeq, c.inSeq)
  }

  function AgreementFor(collab: nat, f: Formation): Agreement {
    Agreement(AgreementOf(collab, DecisionOf(collab, f)), DecisionOf(collab, f), f)
  }

  function Form(c: Collab, now: Instant): Collab {
    if ReadyToForm(c, now) then c.(agreement := Some(AgreementFor(c.id, FormationOf(c, now))))
    else c
  }

  // ---- One function per group of kinds ----

  function ApplyOpening(c: Collab, packet: Packet): Outcome<Collab> {
    if !packet.payload.OpeningBody? || !packet.payload.supported then Invalid
    else if packet.kind.Invite? then Done(c)
    else if packet.sender == c.initiator || packet.payload.topic != c.topic then Invalid
    else Done(c.(joined := true))
  }

  function ApplyTerms(c: Collab, packet: Packet): Outcome<Collab> {
    var p := packet.payload;
    if !p.TermsBody? || !TermsSupported(c, p.terms) || p.termsDigest != DigestOf(p.terms) then Invalid
    else if packet.kind.Proposal? then
      Done(c.(terms := Some(p.terms), acceptances := map[], withdrawPending := false))
    else Done(c.(changeRequest := Some(p)))
  }

  function ConsentOf(packet: Packet): Consent
    requires packet.payload.AcceptBody?
  {
    var p := packet.payload;
    Consent(p.accepted, p.actor, p.validUntil, packet.eventId, EventDigestOf(packet), true)
  }

  function ApplyAccept(c: Collab, packet: Packet, now: Instant): Outcome<Collab> {
    var p := packet.payload;
    if !p.AcceptBody? || !p.supportedBasis || p.validUntil <= now then Invalid
    else if packet.sender in c.acceptances && c.acceptances[packet.sender].active
            && c.acceptances[packet.sender].eventId != packet.eventId then Invalid
    else Done(Form(c.(acceptances := c.acceptances[packet.sender := ConsentOf(packet)]), now))
  }

  /** The formation cursor of one party. */
  function Cursor(c: Collab, f: Formation, actor: Urn): int {
    if actor == c.initiator then f.initiatorSequence else f.peerSequence
  }

  /** `r` is the accept event that `ref` names, made for these terms before the
      formation and still valid at it. */
  predicate AcceptMatches(c: Collab, f: Formation, ref: AcceptanceRef, r: Record) {
    && r.status.Applied?
    && EventDigestOf(r.packet) == ref.eventDigest
    && r.packet.kind.Accept?
    && r.packet.payload.AcceptBody?
    && r.packet.payload.actor == ref.actor
    && r.packet.payload.accepted == f.termsDigest
    && r.packet.payload.supportedBasis
    && r.packet.sequence <= Cursor(c, f, ref.actor)
    && r.packet.createdAt <= f.formedAt
    && r.packet.payload.validUntil > f.formedAt
  }

  predicate Withdraws(r: Record, actor: Urn, accept: EventId, upTo: int) {
    && r.status.Applied? && r.packet.sender == actor && r.packet.kind.Withdraw?
    && r.packet.sequence <= upTo
    && r.packet.payload.WithdrawBody? && r.packet.payload.acceptEventId == accept
  }

  predicate WithdrawnBy(events: map<Key, Record>, actor: Urn, accept: EventId, upTo: int) {
    exists k :: k in events && Withdraws(events[k], actor, accept, upTo)
  }

  function CheckRef(core: Core, f: Formation, ref: AcceptanceRef, seen: set<Urn>): Check {
    var c := core.c;
    var key := Key(ref.actor, ref.eventId);
    if ref.actor !in {c.local, c.peer} || ref.actor in seen then Never
    else if key !in core.events then NotYet
    else if !AcceptMatches(c, f, ref, core.events[key]) then Never
    else if WithdrawnBy(core.events, ref.actor, ref.eventId, Cursor(c, f, ref.actor)) then Never
    else Pass
  }

  function CheckRefs(core: Core, f: Formation, refs: seq<AcceptanceRef>, seen: set<Urn>): Check
    decreases |refs|
  {
    if refs == [] then Pass
    else match CheckRef(core, f, refs[0], seen)
      case Pass => CheckRefs(core, f, refs[1..], seen + {refs[0].actor})
      case other => other
  }

  predicate AlreadyCancelled(c: Collab, packet: Packet) {
    packet.payload.AgreementBody? && c.agreement == Some(packet.payload.agreement) && c.closure.Cancelled?
  }

  function ApplyAgreement(core: Core, packet: Packet, now: Instant, outgoing: bool): Outcome<Collab> {
    var c := core.c;
    if !packet.payload.AgreementBody? then Invalid
    else
      var g := packet.payload.agreement;
      var f := g.formation;
      if packet.sender != c.initiator then Invalid
      else if c.agreement.Some? && c.agreement.value != g then Invalid
      else if AlreadyCancelled(c, packet) then Done(c)
      else if c.terms.None? || DigestOf(c.terms.value) != f.termsDigest then Missing
      else if |f.acceptances| != 2 then Invalid
      else if !(1 <= f.initiatorSequence <= MAX_EVENTS && 1 <= f.peerSequence <= MAX_EVENTS) then Invalid
      else if f.initiatorSequence >= packet.sequence && !outgoing then Invalid
      else if f.formedAt > packet.createdAt || f.formedAt > now + 60 then Invalid
      else match CheckRefs(core, f, f.acceptances, {})
        case NotYet => Missing
        case Never => Invalid
        case Pass => Done(c.(agreement := Some(g)))
  }

  function ApplyAck(c: Collab, packet: Packet, outgoing: bool): Outcome<Collab> {
    if !packet.payload.AgreementNameBody? then Invalid
    else if c.agreement.None? || packet.payload.agreementId != c.agreement.value.id then Missing
    else if outgoing then Done(c)
    else Done(c.(synced := true, closure := Complete))
  }

  function ApplyWithdraw(c: Collab, packet: Packet): Outcome<Collab> {
    var p := packet.payload;
    if !p.WithdrawBody? || packet.sender !in c.acceptances then Invalid
    else
      var consent := c.acceptances[packet.sender];
      if consent.eventId != p.acceptEventId || consent.accepted != p.withdrawn then Invalid
      else if c.agreement.Some? then Done(c.(withdrawPending := true))
      else Done(c.(acceptances := c.acceptances[packet.sender := consent.(active := false)],
                   withdrawPending := c.initiator != c.local))
  }

  function ApplyCancel(c: Collab, packet: Packet): Outcome<Collab> {
    if !packet.payload.AgreementNameBody? || c.agreement.None?
       || packet.payload.agreementId != c.agreement.value.id then Invalid
    else if packet.kind.CancelRequest? then
      Done(c.(cancelRequest := Some(CancelNote(packet.sender, packet.eventId))))
    else if c.cancelRequest.None? || c.cancelRequest.value.sender == packet.sender then Invalid
    else Done(c.(closure := Cancelled))
  }

  /** A receipt is kept with the event that it reports on. */
  function ApplyReceipt(core: Core, packet: Packet, outgoing: bool): Outcome<Core> {
    var c, p := core.c, packet.payload;
    if !p.ReceiptBody? then Invalid
    else
      var key := Key(packet.recipient, p.eventId);
      if key !in core.events || EventDigestOf(core.events[key].packet) != p.eventDigest
         || p.report.ReportsOther? then Invalid
      else if outgoing then Done(core)
      else
        var r := core.events[key];
        var c1 := if r.packet.kind.Withdraw? && p.report.ReportsApplied? && c.agreement.None?
                  then c.(withdrawPending := false) else c;
        var c2 := if r.packet.kind.AgreementAck? && p.report.ReportsApplied? && !c.closure.Cancelled?
                  then c1.(synced := true, closure := Complete) else c1;
        Done(Core(c2, core.events[key := r.(receipt := Some(p))]))
  }

  function Lift(core: Core, r: Outcome<Collab>): Outcome<Core> {
    match r
    case Done(c) => Done(core.(c := c))
    case Missing => Missing
    case Invalid => Invalid
  }

  /** The effect of one event of the ordered stream on the stored facts. */
  function ApplyCore(core: Core, packet: Packet, now: Instant, outgoing: bool): Outcome<Core> {
    var c := core.c;
    match Precondition(c, packet.kind, packet.payload, packet.sender)
    case NotYet => Missing
    case Never => Invalid
    case Pass =>
      match packet.kind
      case Invite => Lift(core, ApplyOpening(c, packet))
      case Join => Lift(core, ApplyOpening(c, packet))
      case Proposal => Lift(core, ApplyTerms(c, packet))
      case ChangeRequest => Lift(core, ApplyTerms(c, packet))
      case Accept => Lift(core, ApplyAccept(c, packet, now))
      case Agree => Lift(core, ApplyAgreement(core, packet, now, outgoing))
      case AgreementAck => Lift(core, ApplyAck(c, packet, outgoing))
      case Withdraw => Lift(core, ApplyWithdraw(c, packet))
      case CancelRequest => Lift(core, ApplyCancel(c, packet))
      case CancelAck => Lift(core, ApplyCancel(c, packet))
      case Receipt => ApplyReceipt(core, packet, outgoing)
      case SyncRequest => ApplySyncRequest(core, packet, outgoing)
      case SyncResponse => ApplySyncResponse(core, packet, now, outgoing)
  }

  // ---- Admission of events, and the recovery events that bypass the stream ----

  /** The checks made on every event before it is looked at. */
  predicate ValidEvent(p: Packet) {
    && p.sender != p.recipient
    && (if IsSync(p.kind) then p.sequence == 0 else 1 <= p.sequence <= MAX_EVENTS)
    && (p.previous.None? <==> p.sequence <= 1)
    && p.createdAt < p.expiresAt
  }

  /** An event of the ordered stream with the same sender and number is stored. */
  predicate SlotTaken(events: map<Key, Record>, p: Packet) {
    !IsSync(p.kind) && exists k :: k in events && events[k].packet.sender == p.sender
                                   && events[k].packet.sequence == p.sequence
  }

  function AdmittedStatus(p: Packet, now: Instant): Status {
    if p.createdAt > now + 60 then Rejected
    else if p.expiresAt <= now && !p.kind.Agree? && !p.kind.SyncResponse? then Rejected
    else Buffered
  }

  /** Store an incoming event without applying it; a stored event is immutable. */
  function Admit(core: Core, p: Packet, now: Instant): Outcome<Core> {
    var key := KeyOf(p);
    if key in core.events then
      if core.events[key].packet == p then Done(core) else Invalid
    else if SlotTaken(core.events, p) then Invalid
    else Done(core.(events := core.events[key := Record(p, AdmittedStatus(p, now), false, None)]))
  }

  function AdmitAll(core: Core, ps: seq<Packet>, now: Instant): Outcome<Core>
    decreases |ps|
  {
    if ps == [] then Done(core)
    else match Admit(core, ps[0], now)
      case Done(next) => AdmitAll(next, ps[1..], now)
      case other => other
  }

  function ApplySyncRequest(core: Core, packet: Packet, outgoing: bool): Outcome<Core> {
    if !packet.payload.AfterBody? || !(0 <= packet.payload.after <= MAX_EVENTS) then Invalid
    else if outgoing then Done(core)
    else Done(core.(c := core.c.(syncAfter := packet.payload.after)))
  }

  /** A recovery response vouches only for its own sender's ordered events. */
  predicate OwnHistory(c: Collab, sender: Urn, past: Packet) {
    && ValidEvent(past) && past.sender == sender && past.recipient == c.local
    && past.collab == c.id && !IsSync(past.kind)
  }

  function ApplySyncResponse(core: Core, packet: Packet, now: Instant, outgoing: bool): Outcome<Core> {
    var p := packet.payload;
    if !p.HistoryBody? || |p.events| > 8 then Invalid
    else if outgoing then Done(core)
    else if exists i :: 0 <= i < |p.events| && !OwnHistory(core.c, packet.sender, p.events[i]) then Invalid
    else AdmitAll(core, p.events, now)
  }
}
