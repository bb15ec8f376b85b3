/** Incoming events: storing them, draining the ordered stream, and the templated
    replies that a standing permit allows. */
module CollabInbox {
  import opened Basics
  import opened CollabTypes
  import opened CollabReducer

  /** Everything one endpoint stores about a bound collaboration. */
  datatype Endpoint = Endpoint(core: Core, view: View, ops: map<OpId, Operation>,
                               reviews: map<Packet, Review>, blocked: bool, task: Task)

  // ---- Finding events by their place in a sender's stream ----

  /** `k` is the stored event number `n` of the ordered stream of `sender`. */
  predicate InSlot(events: map<Key, Record>, k: Key, sender: Urn, n: int) {
    k in events && events[k].packet.sender == sender && events[k].packet.sequence == n
  }

  predicate HasSlot(events: map<Key, Record>, sender: Urn, n: int) {
    exists k :: k in events && InSlot(events, k, sender, n)
  }

  ghost function SlotKey(events: map<Key, Record>, sender: Urn, n: int): (k: Key)
    requires HasSlot(events, sender, n)
    ensures InSlot(events, k, sender, n)
  {
    var k :| k in events && InSlot(events, k, sender, n);
    k
  }

  // ---- Templated replies ----

  /** `p` is an ordered event of this endpoint that has been applied. */
  predicate OwnApplied(core: Core, p: Packet) {
    && KeyOf(p) in core.events
    && core.events[KeyOf(p)].packet == p
    && core.events[KeyOf(p)].status.Applied?
    && p.sender == core.c.local && !IsSync(p.kind)
  }

  /** The endpoint's own applied ordered events numbered `n` and above, in order. */
  ghost function OwnFrom(core: Core, n: int): (r: seq<Packet>)
    requires 1 <= n
    decreases MAX_EVENTS - n
  {
    if n > MAX_EVENTS then []
    else
      var rest := OwnFrom(core, n + 1);
      if HasSlot(core.events, core.c.local, n)
         && OwnApplied(core, core.events[SlotKey(core.events, core.c.local, n)].packet)
      then [core.events[SlotKey(core.events, core.c.local, n)].packet] + rest
      else rest
  }

  function FirstEight(ps: seq<Packet>): seq<Packet> {
    if |ps| <= 8 then ps else ps[..8]
  }

  function ReportOf(s: Status): Report {
    match s
    case Applied => ReportsApplied
    case Buffered => ReportsBuffered
    case Rejected => ReportsRejected
    case Reserved => ReportsOther
  }

  /** The wire payload of a templated kind, compiled from local facts only; `None`
      is the source's refusal. */
  ghost function TemplatePayload(core: Core, kind: Kind, about: Option<EventId>): Option<Payload> {
    var c := core.c;
    match kind
    case Agree =>
      if c.agreement.Some? && c.initiator == c.local then Some(AgreementBody(c.agreement.value)) else None
    case AgreementAck =>
      if c.agreement.Some? then Some(AgreementNameBody(c.agreement.value.id)) else None
    case Receipt =>
      if about.None? || Key(c.peer, about.value) !in core.events then None
      else
        var r := core.events[Key(c.peer, about.value)];
        if r.packet.kind.Receipt? || r.packet.kind.SyncResponse? then None
        else Some(ReceiptBody(about.value, EventDigestOf(r.packet), ReportOf(r.status)))
    case SyncRequest => Some(AfterBody(c.inSeq))
    case SyncResponse =>
      Some(HistoryBody(FirstEight(OwnFrom(core, (if c.syncAfter < 0 then 0 else c.syncAfter) + 1))))
    case _ => None
  }

  function MaintenanceWith(ops: map<OpId, Operation>, statuses: set<OpStatus>): set<OpId> {
    set id | id in ops && ops[id].maintenance && ops[id].status in statuses
  }

  function ReplyOperation(e: Endpoint, kind: Kind, payload: Payload): Operation
    requires e.core.c.permit.Some?
  {
    Operation(kind, payload, false, e.task.revision, ContextOf(e.core.c), Ready, false, false,
              e.core.c.permit.value.until, true, false, false, false, None, None)
  }

  /** Put one templated reply into the outbox; `None` aborts the transaction. */
  ghost function Queue(e: Endpoint, kind: Kind, about: Option<EventId>, now: Instant): Option<Endpoint> {
    if !PermitOpen(e.core.c, now) then Some(e.(view := e.view.(waiting := PermitMissing)))
    else match TemplatePayload(e.core, kind, about)
      case None => None
      case Some(payload) =>
        var id := AutoOp(kind, payload);
        var permit := e.core.c.permit.value;
        if id in e.ops then Some(e)
        else if |MaintenanceWith(e.ops, {Ready, Sending})| + permit.used >= permit.maxEvents then
          Some(e.(view := e.view.(waiting := PermitSpent)))
        else Some(e.(ops := e.ops[id := ReplyOperation(e, kind, payload)]))
  }

  /** The reply that applying `packet` asks for, given the facts after it. */
  function ReplyTo(before: Collab, after: Collab, packet: Packet, outgoing: bool): Option<Kind> {
    match packet.kind
    case Accept => if after.agreement.Some? then Some(Agree) else None
    case Agree => if !outgoing && !AlreadyCancelled(before, packet) then Some(AgreementAck) else None
    case Withdraw => if after.agreement.Some? && after.initiator == after.local then Some(Agree) else None
    case SyncRequest => if !outgoing then Some(SyncResponse) else None
    case _ => None
  }

  /** What the owner is shown after `packet` was applied. */
  function ViewAfter(v: View, before: Core, after: Core, packet: Packet, outgoing: bool): View {
    var c := after.c;
    match packet.kind
    case Join => v.(phase := Negotiating)
    case Proposal => v.(phase := Negotiating)
    case Accept => if c.agreement.Some? then View(Agreed, AgreementSync) else v.(phase := PartiallyAccepted)
    case Agree => if AlreadyCancelled(before.c, packet) then v else View(Agreed, AgreementAckDue)
    case AgreementAck => if outgoing then View(Agreed, AckDelivery) else View(Closed, NotWaiting)
    case Withdraw =>
      View(Reconciling, if c.agreement.None? && c.initiator == c.local then NotWaiting else WithdrawalDecision)
    case CancelRequest => View(Reconciling, CancelDecision)
    case CancelAck => View(Closed, NotWaiting)
    case Receipt =>
      if outgoing || !packet.payload.ReceiptBody? || Key(packet.recipient, packet.payload.eventId) !in before.events then v
      else
        var r := before.events[Key(packet.recipient, packet.payload.eventId)];
        if !packet.payload.report.ReportsApplied? then v
        else if r.packet.kind.Withdraw? && before.c.agreement.None? then View(Negotiating, NotWaiting)
        else if r.packet.kind.AgreementAck? && !before.c.closure.Cancelled? then View(Closed, NotWaiting)
        else v
    case _ => v
  }

  /** How a transaction step continues: the loop ends, goes on, or an exception
      undoes the whole transaction. */
  datatype Step = Stop(e: Endpoint) | Go(e: Endpoint) | Abort

  /** Queue the reply, if any, to an event just applied on top of `before`. */
  ghost function Reply(e: Endpoint, before: Collab, packet: Packet, now: Instant, outgoing: bool): Step {
    match ReplyTo(before, e.core.c, packet, outgoing)
    case None => Go(e)
    case Some(kind) =>
      match Queue(e, kind, None, now)
      case None => Abort
      case Some(e1) => Go(e1)
  }

  /** Apply one event with the view and the reply that follow from it. */
  ghost function Apply(e: Endpoint, packet: Packet, now: Instant, outgoing: bool): Outcome<Endpoint> {
    match ApplyCore(e.core, packet, now, outgoing)
    case Missing => Missing
    case Invalid => Invalid
    case Done(core) =>
      var e1 := e.(core := core, view := ViewAfter(e.view, e.core, core, packet, outgoing));
      match Reply(e1, e.core.c, packet, now, outgoing)
      case Go(e2) => Done(e2)
      case _ => Invalid
  }

  // ---- Storing an incoming event ----

  ghost function IngestBound(e: Endpoint, packet: Packet, now: Instant): Outcome<Endpoint> {
    var key := KeyOf(packet);
    match Admit(e.core, packet, now)
    case Missing => Missing
    case Invalid => Invalid
    case Done(core) =>
      if key in e.core.events then Done(e)
      else
        var e1 := e.(core := core);
        if !IsSync(packet.kind) || core.events[key].status != Buffered then Done(e1)
        else match Apply(e1, packet, now, false)
          case Done(e2) => Done(SetStatus(e2, key, Applied))
          case _ => Done(SetStatus(e1, key, Rejected))
  }

  function Mark(core: Core, key: Key, status: Status): Core {
    if key in core.events then core.(events := core.events[key := core.events[key].(status := status)]) else core
  }

  function SetStatus(e: Endpoint, key: Key, status: Status): Endpoint {
    e.(core := Mark(e.core, key, status))
  }

  // ---- Draining the ordered stream ----

  function ReviewOf(reviews: map<Packet, Review>, p: Packet): Review {
    if p in reviews then reviews[p] else Pending
  }

  /** Why the next stored event leaves the stream. */
  datatype Reason = ReviewDeclined | Expired | WasApplied | WasInvalid | AlreadyDecided

  /** What the reducer does with the next event: nothing is stored, the chain of
      predecessors is broken, the owner's review is awaited, evidence is missing, or
      the event is taken from the stream. */
  datatype Turn = Idle | BrokenChain | AwaitReview | AwaitEvidence | Take(key: Key, core: Core, reason: Reason)

  function Advance(c: Collab, packet: Packet): Collab {
    c.(inSeq := packet.sequence, lastIn := Some(packet.eventId))
  }

  function Decide(core: Core, key: Key, status: Status): Core
    requires key in core.events
  {
    Mark(core.(c := Advance(core.c, core.events[key].packet)), key, status)
  }

  /** What happens to the stored event `key` when it is its turn. */
  ghost function TurnOf(core: Core, key: Key, reviews: map<Packet, Review>, now: Instant): Turn
    requires key in core.events
  {
    var c, packet := core.c, core.events[key].packet;
    if packet.previous != c.lastIn then BrokenChain
    else if core.events[key].status != Buffered then
      Take(key, core.(c := Advance(c, packet)), AlreadyDecided)
    else if NeedsReview(packet.kind) && ReviewOf(reviews, packet).Pending? then AwaitReview
    else if NeedsReview(packet.kind) && ReviewOf(reviews, packet).Declined? then
      Take(key, Decide(core, key, Rejected), ReviewDeclined)
    else if packet.expiresAt <= now && !packet.kind.Agree? then
      Take(key, Decide(core, key, Rejected), Expired)
    else match ApplyCore(core.(c := Advance(c, packet)), packet, now, false)
      case Missing => AwaitEvidence
      case Invalid => Take(key, Decide(core, key, Rejected), WasInvalid)
      case Done(after) => Take(key, Mark(after.(c := Advance(after.c, packet)), key, Applied), WasApplied)
  }

  ghost function NextTurn(core: Core, reviews: map<Packet, Review>, now: Instant): Turn {
    if !HasSlot(core.events, core.c.peer, core.c.inSeq + 1) then Idle
    else TurnOf(core, SlotKey(core.events, core.c.peer, core.c.inSeq + 1), reviews, now)
  }

  ghost function Receipted(e: Endpoint, packet: Packet, now: Instant): Step {
    match Queue(e, Receipt, Some(packet.eventId), now)
    case None => Abort
    case Some(e1) => Go(e1)
  }

  predicate Unreceipted(k: Kind) {
    k.Receipt? || k.SyncResponse?
  }

  /** One iteration of the drain. Only an event that expired while it was buffered is
      receipted whatever its kind. */
  ghost function DrainStep(e: Endpoint, now: Instant): Step {
    match NextTurn(e.core, e.reviews, now)
    case Idle => Stop(e)
    case BrokenChain => Stop(e.(view := View(Reconciling, ChainConflict)))
    case AwaitReview => Stop(e.(view := e.view.(waiting := PeerReview)))
    case AwaitEvidence => Stop(e.(view := View(Reconciling, MissingEvent)))
    case Take(key, core, reason) =>
      if key !in e.core.events then Abort
      else
        var packet := e.core.events[key].packet;
        var e1 := e.(core := core);
        match reason
        case ReviewDeclined => Go(e1)
        case Expired => Receipted(e1, packet, now)
        case WasApplied =>
          var e2 := e1.(view := ViewAfter(e.view, e.core, core, packet, false));
          (match Reply(e2, e.core.c, packet, now, false)
           case Go(e3) => if Unreceipted(packet.kind) then Go(e3) else Receipted(e3, packet, now)
           case other => other)
        case _ => if Unreceipted(packet.kind) then Go(e1) else Receipted(e1, packet, now)
  }

  ghost function StepAt(now: Instant): Endpoint -> Step {
    (e: Endpoint) => DrainStep(e, now)
  }

  /** A loop of at most `fuel` iterations. */
  ghost function Iterate(e: Endpoint, step: Endpoint -> Step, fuel: nat): Option<Endpoint>
    decreases fuel
  {
    if fuel == 0 then Some(e)
    else match step(e)
      case Stop(e1) => Some(e1)
      case Go(e1) => Iterate(e1, step, fuel - 1)
      case Abort => None
  }

  /** The drain loop, which the source runs at most `MAX_EVENTS` times. */
  ghost function DrainLoop(e: Endpoint, now: Instant, fuel: nat): Option<Endpoint> {
    Iterate(e, StepAt(now), fuel)
  }

  /** No unreviewed or declined free text of an unblocked peer is stored. */
  predicate SafeContent(e: Endpoint) {
    !e.blocked && forall k :: k in e.core.events && !e.core.events[k].outgoing
                              && NeedsReview(e.core.events[k].packet.kind)
                              ==> ReviewOf(e.reviews, e.core.events[k].packet).Approved?
  }

  predicate HasGap(core: Core) {
    exists k :: k in core.events && core.events[k].packet.sender == core.c.peer && core.events[k].status.Buffered?
  }

  /** After the loop: ask for missing events, or show that none is missing any more. */
  ghost function DrainTail(e: Endpoint, now: Instant): Option<Endpoint> {
    var c := e.core.c;
    if HasGap(e.core) && e.view.waiting.PeerReview? && !SafeContent(e) then Some(e)
    else if HasGap(e.core) && !c.closure.Cancelled? then
      Queue(e.(view := View(Reconciling, MissingEvent)), SyncRequest, None, now)
    else if e.view.waiting.MissingEvent? || (e.view.waiting.PeerReview? && SafeContent(e)) then
      Some(e.(view :=
        if c.agreement.Some? then (if c.synced then View(Closed, NotWaiting) else View(Agreed, AgreementSync))
        else if c.withdrawPending then View(Reconciling, WithdrawalDecision)
        else View(if HasActive(c) then PartiallyAccepted else Negotiating, NotWaiting)))
    else Some(e)
  }

  ghost function Drain(e: Endpoint, now: Instant): Option<Endpoint> {
    match DrainLoop(e, now, MAX_EVENTS)
    case None => None
    case Some(e1) => DrainTail(e1, now)
  }

  /** Receive one event from the authenticated peer; `None` leaves everything as it was. */
  ghost function IngestRecord(e: Endpoint, packet: Packet, now: Instant): Option<Endpoint> {
    var c := e.core.c;
    if !ValidEvent(packet) || packet.sender != c.peer || packet.recipient != c.local || packet.collab != c.id then None
    else match IngestBound(e, packet, now)
      case Done(e1) => Drain(e1, now)
      case _ => None
  }

  /** The owner's final decision about one event's free text lets the stream move on. */
  ghost function DecideReview(e: Endpoint, packet: Packet, decision: Review, now: Instant): Option<Endpoint> {
    if ReviewOf(e.reviews, packet) != Pending || decision.Pending? then None
    else Drain(e.(reviews := e.reviews[packet := decision]), now)
  }
}
