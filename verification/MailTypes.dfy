/** The durable tables of one helper: outbox, sequence repairs, sessions, inbox and
    policy state.

    A message identifier is either the owner's or the digest of the envelope that a
    repair replaces; digests are the values they were computed from. An envelope's body
    stands for its plaintext, which only the holders of the session keys can produce or
    read. */
module MailTypes {
  import opened Basics

  type Urn = nat
  type SessionId = nat
  type PolicyHash = nat
  type KeyId = nat
  type Instant = int

  const MAX_SEQUENCE: nat := 0x7fff_ffff_ffff_ffff

  datatype MessageId = UserMessage(tag: nat) | SkipOf(original: Envelope)

  /** A repair control carries no user content: only which envelope it replaces. */
  datatype Body = Business(text: nat) | SkipControl(inReplyTo: MessageId, original: Envelope)

  datatype Envelope = Envelope(id: MessageId, sender: Urn, recipient: Urn, session: SessionId,
                               sequence: nat, policy: PolicyHash, key: KeyId, body: Body)

  datatype Request = Request(recipient: Urn, text: nat, deadline: Option<Instant>)

  datatype Status = Accepted | PlatformQueued | Conflict | Quarantined | Expired

  /** The texts that the source compares; `ConflictText` is the platform's refusal of a
      message identifier bound to other bytes. */
  datatype ErrorText = NoError | ConflictText | OtherText

  datatype Row = Row(request: Request, createdAt: Instant, status: Status, attempts: nat, nextAttempt: Instant,
                     lastError: ErrorText, envelope: Option<Envelope>, policy: PolicyHash, session: SessionId,
                     receipt: bool)

  datatype Repair = Repair(repairId: MessageId, original: Envelope, session: SessionId, sequence: nat)

  datatype Session = Session(id: SessionId, ready: bool, policy: PolicyHash, peerKey: KeyId,
                             sendSequence: nat, receiveSequence: nat)

  datatype Policy = Policy(epoch: nat, hash: PolicyHash)

  /** A row of the inbox: a committed message of the sequenced protocol, or a plain one
      that the listener for the older protocol stored in the same table. */
  datatype Message = Message(sender: Urn, text: nat, envelope: Envelope) | PlainMessage(sender: Urn, text: nat)

  datatype Tombstone = Tombstone(inReplyTo: MessageId, original: Envelope, envelope: Envelope)

  /** `stored` is the persisted policy, `engine` the one the running worker holds. */
  datatype Mail = Mail(self: Urn, outbox: map<MessageId, Row>, repairs: map<MessageId, Repair>,
                       sessions: map<Urn, Session>, inbox: map<MessageId, Message>,
                       skipped: map<MessageId, Tombstone>, stored: Option<Policy>, engine: Option<Policy>)
}
