/** What each transaction of the mailbox does to the tables. */
module MailOps {
  import opened Basics
  import opened MailTypes

  // ---- Accepting and preparing a message ----

  /** Persist a send request; `None` when the identifier is reserved for repairs or
      already stands for another request. */
  function Accept(m: Mail, id: MessageId, request: Request, now: Instant): Option<Mail> {
    if id.SkipOf? then None
    else if id in m.outbox then
      if m.outbox[id].request == request then Some(m) else None
    else
      Some(m.(outbox := m.outbox[id := Row(request, now, Accepted, 0, 0, NoError, None, 0, 0, false)]))
  }

  /** Commit the sealed envelope and the sequence it uses together; an envelope that is
      already stored stays. */
  function SaveEnvelope(m: Mail, id: MessageId, peer: Urn, expected: nat, sealed: Envelope,
                        policy: PolicyHash, session: SessionId): Option<Mail>
  {
    if id !in m.outbox then None
    else if m.outbox[id].envelope.Some? then Some(m)
    else if peer !in m.sessions then None
    else
      var s := m.sessions[peer];
      if !s.ready || s.id != session || s.policy != policy || s.sendSequence + 1 != expected then None
      else Some(m.(sessions := m.sessions[peer := s.(sendSequence := expected)],
                   outbox := m.outbox[id := m.outbox[id].(envelope := Some(sealed), policy := policy, session := session)]))
  }

  /** Only an accepted row changes its status. */
  function Update(m: Mail, id: MessageId, status: Status, error: ErrorText, attempts: nat, receipt: bool, next: Instant): Mail {
    if id in m.outbox && m.outbox[id].status.Accepted? then
      var r := m.outbox[id];
      m.(outbox := m.outbox[id := r.(status := status, lastError := error, attempts := Max(r.attempts, attempts),
                                     nextAttempt := next, receipt := receipt || r.receipt)])
    else m
  }

  function Max(x: nat, y: nat): nat {
    if x < y then y else x
  }

  function Defer(m: Mail, id: MessageId, next: Instant): Mail {
    if id in m.outbox && m.outbox[id].status.Accepted? then
      m.(outbox := m.outbox[id := m.outbox[id].(nextAttempt := next)])
    else m
  }

  predicate Retires(r: Row) {
    r.status.Accepted? && r.attempts > 0 && r.lastError.ConflictText?
  }

  function RetireRow(r: Row): Row {
    if Retires(r) then r.(status := Conflict) else r
  }

  /** Retire refusals that an older release kept as retryable errors. */
  function Retire(m: Mail): Mail {
    m.(outbox := map id | id in m.outbox :: RetireRow(m.outbox[id]))
  }

  // ---- Policy epochs ----

  function Quarantine(r: Row): Row {
    if r.status.Accepted? then r.(status := Quarantined) else r
  }

  /** Store a verified policy; `None` on an epoch rollback or two policies at one epoch.
      A new epoch quarantines all pending work and drops all sessions. */
  function SavePolicy(m: Mail, p: Policy): Option<Mail> {
    match m.stored
    case None => Some(m.(stored := Some(p)))
    case Some(q) =>
      if q.epoch > p.epoch then None
      else if q.epoch == p.epoch then (if q.hash != p.hash then None else Some(m))
      else Some(m.(stored := Some(p), sessions := map[],
                   outbox := map id | id in m.outbox :: Quarantine(m.outbox[id])))
  }

  /** The worker uses a policy only after it is stored. */
  function RefreshPolicy(m: Mail, p: Policy): Option<Mail> {
    match SavePolicy(m, p)
    case None => None
    case Some(n) => Some(n.(engine := Some(p)))
  }

  function SaveSession(m: Mail, peer: Urn, s: Session): Mail {
    m.(sessions := m.sessions[peer := s])
  }

  function DeleteSession(m: Mail, peer: Urn): Mail {
    m.(sessions := m.sessions - {peer})
  }

  // ---- Handing one row to the platform ----

  /** The row's deadline has passed. */
  predicate Overdue(r: Request, now: Instant) {
    r.deadline.Some? && r.deadline.value <= now
  }

  predicate Ready(m: Mail, id: MessageId, now: Instant) {
    id in m.outbox && m.outbox[id].status.Accepted? && m.outbox[id].nextAttempt <= now
  }

  /** Repairs go first, then older rows. */
  predicate Precedes(m: Mail, a: MessageId, b: MessageId)
    requires a in m.outbox && b in m.outbox
  {
    (a.SkipOf? && b.UserMessage?) || (a.SkipOf? == b.SkipOf? && m.outbox[a].createdAt < m.outbox[b].createdAt)
  }

  /** The place of each identifier in the order of their texts. */
  type Rank = MessageId -> real

  /** The database's order of rows: by age, and by identifier among rows of one age. */
  predicate Older(m: Mail, rank: Rank, a: MessageId, b: MessageId)
    requires a in m.outbox && b in m.outbox
  {
    m.outbox[a].createdAt < m.outbox[b].createdAt
    || (m.outbox[a].createdAt == m.outbox[b].createdAt && rank(a) < rank(b))
  }

  /** The order in which ready rows are handled. */
  predicate Comes(m: Mail, rank: Rank, a: MessageId, b: MessageId)
    requires a in m.outbox && b in m.outbox
  {
    (a.SkipOf? && b.UserMessage?) || (a.SkipOf? == b.SkipOf? && Older(m, rank, a, b))
  }

  ghost predicate IsNext(m: Mail, id: MessageId, now: Instant) {
    && Ready(m, id, now)
    && forall other :: Ready(m, other, now) ==> !Precedes(m, other, id)
  }

  /** The platform's answer to a hand-over. A refusal binds the identifier to other
      bytes; `exact` says that its text is the one the repair step looks for. A lost
      answer, or a crash before it is recorded, may follow a hand-over that succeeded. */
  datatype Reply = Receipted | Refused(exact: bool) | Lost(stored: bool) | Crashed(stored: bool)

  /** What the worker learns from outside while it handles one row: the recipient's
      current key, whether starting a handshake fails, whether the envelope still
      verifies, the platform's answer, and when to try again. */
  datatype Outside = Outside(recipientKey: Option<KeyId>, handshakeFails: bool, verifies: bool, reply: Reply, next: Instant)

  /** The platform has stored the envelope. */
  predicate Stored(reply: Reply) {
    match reply
    case Receipted => true
    case Refused(_) => false
    case Lost(stored) => stored
    case Crashed(stored) => stored
  }

  /** The tables after a step, and the envelope given to the platform in it, if any,
      whatever the platform answered. */
  datatype Sent = Sent(mail: Mail, handed: Option<Envelope>)

  function Retry(m: Mail, id: MessageId, attempts: nat, next: Instant): Mail {
    Update(m, id, Accepted, OtherText, attempts + 1, false, next)
  }

  function StartHandshake(m: Mail, id: MessageId, attempts: nat, o: Outside): Mail {
    if o.handshakeFails then Retry(m, id, attempts, o.next) else Defer(m, id, o.next)
  }

  function Sealed(m: Mail, id: MessageId, policy: Policy): Envelope
    requires id in m.outbox && m.outbox[id].request.recipient in m.sessions
  {
    var r := m.outbox[id].request;
    var s := m.sessions[r.recipient];
    Envelope(id, m.self, r.recipient, s.id, s.sendSequence + 1, policy.hash, s.peerKey, Business(r.text))
  }

  /** Deliver one ready row under the worker's policy. */
  function Deliver(m: Mail, id: MessageId, policy: Policy, o: Outside, now: Instant): Sent
    requires id in m.outbox
  {
    var row := m.outbox[id];
    var peer := row.request.recipient;
    if Overdue(row.request, now) then Sent(Update(m, id, Expired, OtherText, row.attempts, false, o.next), None)
    else if row.envelope.Some? then
      if row.policy != policy.hash then Sent(Update(m, id, Quarantined, OtherText, row.attempts, false, o.next), None)
      else HandOver(m, id, row.envelope.value, row.attempts, o)
    else if peer !in m.sessions || !m.sessions[peer].ready || m.sessions[peer].policy != policy.hash then
      Sent(StartHandshake(m, id, row.attempts, o), None)
    else if o.recipientKey.None? then Sent(Retry(m, id, row.attempts, o.next), None)
    else if m.sessions[peer].peerKey != o.recipientKey.value then
      Sent(StartHandshake(DeleteSession(m, peer), id, row.attempts, o), None)
    else
      var s := m.sessions[peer];
      var sealed := Sealed(m, id, policy);
      match SaveEnvelope(m, id, peer, s.sendSequence + 1, sealed, policy.hash, s.id)
      case None => Sent(Retry(m, id, row.attempts, o.next), None)
      case Some(n) => HandOver(n, id, sealed, row.attempts, o)
  }

  function HandOver(m: Mail, id: MessageId, e: Envelope, attempts: nat, o: Outside): Sent {
    if !o.verifies then Sent(Update(m, id, Quarantined, OtherText, attempts, false, o.next), None)
    else
      var after := match o.reply
        case Receipted => Update(m, id, PlatformQueued, NoError, attempts + 1, true, o.next)
        case Refused(exact) =>
          Update(m, id, Conflict, if exact then ConflictText else OtherText, attempts + 1, false, o.next)
        case Lost(_) => Retry(m, id, attempts, o.next)
        case Crashed(_) => m;
      Sent(after, Some(e))
  }

  // ---- Repairing a refused sequence ----

  /** A refused row, still without a repair. */
  predicate Candidate(m: Mail, id: MessageId) {
    && id in m.outbox && id !in m.repairs
    && m.outbox[id].status.Conflict? && !m.outbox[id].receipt
    && m.outbox[id].envelope.Some? && m.outbox[id].lastError.ConflictText?
  }

  /** A later sequence of the same session was admitted by the platform. */
  predicate AdmittedLater(m: Mail, e: Envelope) {
    exists id :: id in m.outbox && Admitted(m.outbox[id], e)
  }

  predicate Admitted(r: Row, e: Envelope) {
    && r.status.PlatformQueued? && r.receipt && r.envelope.Some?
    && r.policy == e.policy && r.session == e.session
    && r.envelope.value.recipient == e.recipient && r.envelope.value.session == e.session
    && r.envelope.value.sequence > e.sequence
  }

  /** The repair step accepts this candidate under the worker's policy; `keys` gives the
      recipients' current keys. */
  predicate Schedulable(m: Mail, id: MessageId, policy: Policy, keys: map<Urn, KeyId>) {
    && Candidate(m, id)
    && var r := m.outbox[id];
       var e := r.envelope.value;
       && e.id == id && r.request.recipient == e.recipient && e.sender == m.self
       && e.session == r.session && e.policy == r.policy && e.policy == policy.hash && e.sequence > 0
       && e.recipient in m.sessions
       && var s := m.sessions[e.recipient];
          && s.ready && s.id == r.session && s.policy == r.policy && s.peerKey == e.key && s.sendSequence > e.sequence
          && AdmittedLater(m, e)
          && e.recipient in keys && keys[e.recipient] == e.key
  }

  function SkipEnvelope(e: Envelope): Envelope {
    e.(id := SkipOf(e), body := SkipControl(e.id, e))
  }

  /** Store the repair of a refused envelope in the same transaction as the mapping that
      makes it the only one. */
  function SaveSkip(m: Mail, id: MessageId, e: Envelope): Option<Mail> {
    if e.sequence == 0 || e.sequence > MAX_SEQUENCE then None
    else if id in m.repairs then
      if m.repairs[id] != Repair(SkipOf(e), e, e.session, e.sequence) then None
      else if SkipOf(e) !in m.outbox || m.outbox[SkipOf(e)].envelope.None? then None
      else Some(m)
    else if id !in m.outbox || !m.outbox[id].status.Conflict? || !m.outbox[id].lastError.ConflictText?
            || m.outbox[id].receipt || m.outbox[id].envelope != Some(e)
            || m.outbox[id].policy != e.policy || m.outbox[id].session != e.session then None
    else if e.recipient !in m.sessions then None
    else
      var s := m.sessions[e.recipient];
      if !s.ready || s.id != e.session || s.policy != e.policy || s.sendSequence <= e.sequence then None
      else if SkipOf(e) in m.outbox then None
      else
        var row := Row(Request(e.recipient, 0, None), m.outbox[id].createdAt, Accepted, 0, 0, NoError,
                       Some(SkipEnvelope(e)), e.policy, e.session, false);
        Some(m.(outbox := m.outbox[SkipOf(e) := row],
                repairs := m.repairs[id := Repair(SkipOf(e), e, e.session, e.sequence)]))
  }

  // ---- Receiving ----

  /** The envelope passes the checks that precede both kinds of commit. */
  predicate Acceptable(m: Mail, policy: Policy, e: Envelope) {
    && e.recipient == m.self && e.policy == policy.hash
    && e.sender in m.sessions
    && m.sessions[e.sender].ready && m.sessions[e.sender].id == e.session && m.sessions[e.sender].policy == e.policy
  }

  function Consume(m: Mail, e: Envelope): Option<Mail> {
    if e.sender !in m.sessions then None
    else
      var s := m.sessions[e.sender];
      if !s.ready || s.id != e.session || s.policy != e.policy || e.sequence != s.receiveSequence + 1 then None
      else Some(m.(sessions := m.sessions[e.sender := s.(receiveSequence := e.sequence)]))
  }

  /** Commit a message and the sequence it consumes; the same message again is a success
      that changes nothing. */
  function ReceiveMessage(m: Mail, e: Envelope): Option<Mail>
    requires e.body.Business?
  {
    var msg := Message(e.sender, e.body.text, e);
    if e.id in m.inbox then (if m.inbox[e.id] == msg then Some(m) else None)
    else match Consume(m, e)
      case None => None
      case Some(n) => Some(n.(inbox := n.inbox[e.id := msg]))
  }

  /** Commit a repair control: it consumes the sequence and leaves a tombstone. */
  function ReceiveSkip(m: Mail, e: Envelope): Option<Mail>
    requires e.body.SkipControl?
  {
    var t := Tombstone(e.body.inReplyTo, e.body.original, e);
    if e.id.UserMessage? then None
    else if e.id in m.skipped then (if m.skipped[e.id] == t then Some(m) else None)
    else if e.id in m.inbox || e.sequence > MAX_SEQUENCE then None
    else match Consume(m, e)
      case None => None
      case Some(n) => Some(n.(skipped := n.skipped[e.id := t]))
  }

  /** Store a message of the older protocol, which has neither sessions nor numbers, under
      the identifier its sender chose; the same message again is a success. */
  function ReceivePlain(m: Mail, id: MessageId, sender: Urn, text: nat): Option<Mail> {
    if id in m.inbox then (if m.inbox[id] == PlainMessage(sender, text) then Some(m) else None)
    else Some(m.(inbox := m.inbox[id := PlainMessage(sender, text)]))
  }

  function Receive(m: Mail, policy: Policy, e: Envelope): Option<Mail> {
    if !Acceptable(m, policy, e) then None
    else if e.body.Business? then ReceiveMessage(m, e)
    else ReceiveSkip(m, e)
  }
}
