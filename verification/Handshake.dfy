/** The session handshake: Init, Accept and Finished frames, and the session that both
    ends derive. `encode` stands for the canonical encoding of a frame; the results that
    need it assume it injective. An identity stands for its URN and its signing key. */
module Handshake {
  import opened Basics
  import opened HandshakeCrypto

  type PolicyHash = nat
  type KeyId = nat
  type Instant = int

  datatype Mode = Private | Compliance

  datatype Policy = Policy(hash: PolicyHash, mode: Mode, suite: nat, expiresAt: Instant)

  /** What both payloads repeat of the negotiated parameters. */
  datatype Offer = Offer(policy: PolicyHash, mode: Mode, suite: nat, recipientKey: KeyId, expiry: Instant)

  datatype Payload = InitPayload(point: Point, nonce: nat, offer: Offer)
                   | AcceptPayload(initHash: Digest, point: Point, nonce: nat, offer: Offer)
                   | FinishedPayload(mac: Mac)
                   | OtherPayload(tag: nat)

  datatype FrameKind = InitFrame | AcceptFrame | FinishedFrame

  datatype Content = Content(currentVersion: bool, kind: FrameKind, session: Bytes, sender: Identity, recipient: Identity,
                       payload: Payload)

  datatype Signature = Unsigned | Signed(key: Identity, body: Content) | OtherSignature(tag: nat)

  datatype Frame = Frame(body: Content, signature: Signature)

  type Encoding = Frame -> Bytes

  ghost predicate Injective(encode: Encoding) {
    forall f, g :: encode(f) == encode(g) ==> f == g
  }

  function HashOf(encode: Encoding, f: Frame): Digest {
    Sha256(encode(f))
  }

  predicate WellFormed(b: Content) {
    b.currentVersion && b.session != ""
  }

  function SignFrame(b: Content, key: Identity): Option<Frame> {
    if WellFormed(b) then Some(Frame(b, Signed(key, b))) else None
  }

  /** The frame is by the owner of the pinned key. */
  predicate VerifyFrame(f: Frame, pinned: Identity) {
    f.body.sender == pinned && WellFormed(f.body) && f.signature == Signed(pinned, f.body)
  }

  predicate OfferFits(o: Offer, policy: Policy, now: Instant) {
    o.policy == policy.hash && o.mode == policy.mode && o.suite == policy.suite && o.expiry > now
  }

  // ---- Init and Accept ----

  function NewInit(policy: Policy, sender: Identity, recipient: Identity, recipientKey: KeyId, session: Bytes,
                   expiry: Instant, ephemeral: Scalar, nonce: nat, now: Instant): Option<Frame>
  {
    if sender == recipient || session == "" || expiry <= now || expiry > policy.expiresAt then None
    else
      var offer := Offer(policy.hash, policy.mode, policy.suite, recipientKey, expiry);
      SignFrame(Content(true, InitFrame, session, sender, recipient, InitPayload(PointOf(ephemeral), nonce, offer)), sender)
  }

  function ParseInit(f: Frame, policy: Policy, sender: Identity, now: Instant): Option<Payload> {
    var p := f.body.payload;
    if !f.body.kind.InitFrame? || !VerifyFrame(f, sender) || !p.InitPayload? then None
    else if !OfferFits(p.offer, policy, now) || p.offer.expiry > policy.expiresAt then None
    else Some(p)
  }

  function NewAccept(encode: Encoding, policy: Policy, init: Frame, initiator: Identity, responder: Identity,
                     ownKey: KeyId, ephemeral: Scalar, nonce: nat, now: Instant): Option<Frame>
  {
    match ParseInit(init, policy, initiator, now)
    case None => None
    case Some(p) =>
      if init.body.recipient != responder || p.offer.recipientKey != ownKey then None
      else SignFrame(Content(true, AcceptFrame, init.body.session, init.body.recipient, init.body.sender,
                          AcceptPayload(HashOf(encode, init), PointOf(ephemeral), nonce,
                                        Offer(policy.hash, policy.mode, policy.suite, p.offer.recipientKey, p.offer.expiry))),
                     responder)
  }

  function ParseAccept(encode: Encoding, policy: Policy, init: Frame, accept: Frame, responder: Identity, now: Instant)
    : Option<Payload>
  {
    var a, p := accept.body.payload, init.body.payload;
    if !accept.body.kind.AcceptFrame? || accept.body.session != init.body.session
       || accept.body.sender != init.body.recipient || accept.body.recipient != init.body.sender then None
    else if !VerifyFrame(accept, responder) || !a.AcceptPayload? || !p.InitPayload? then None
    else if a.initHash != HashOf(encode, init) || !OfferFits(a.offer, policy, now)
            || a.offer.recipientKey != p.offer.recipientKey || a.offer.expiry != p.offer.expiry then None
    else Some(a)
  }

  // ---- The session ----

  datatype Session = Session(id: Bytes, initiator: Identity, responder: Identity, mode: Mode, policy: PolicyHash,
                             transcript: Digest, secret: Secret)

  function DeriveSession(encode: Encoding, policy: Policy, init: Frame, accept: Frame, own: Scalar, peer: Point)
    : Option<Session>
  {
    var a, b := encode(init), encode(accept);
    if Exchange(own, peer).None? || |a| > MAX_FRAME || |b| > MAX_FRAME then None
    else
      var transcript := Sha256(Transcript(a, b));
      Some(Session(init.body.session, init.body.sender, init.body.recipient, policy.mode, policy.hash, transcript,
                   Extract(transcript, Exchange(own, peer).value)))
  }

  function CompleteInitiator(encode: Encoding, policy: Policy, init: Frame, accept: Frame, ephemeral: Scalar,
                             own: Identity, responder: Identity, now: Instant): Option<Session>
  {
    if ParseInit(init, policy, own, now).None? then None
    else match ParseAccept(encode, policy, init, accept, responder, now)
      case None => None
      case Some(a) => DeriveSession(encode, policy, init, accept, ephemeral, a.point)
  }

  function CompleteResponder(encode: Encoding, policy: Policy, init: Frame, accept: Frame, ephemeral: Scalar,
                             initiator: Identity, own: Identity, now: Instant): Option<Session>
  {
    match ParseInit(init, policy, initiator, now)
    case None => None
    case Some(p) =>
      if ParseAccept(encode, policy, init, accept, own, now).None? then None
      else DeriveSession(encode, policy, init, accept, ephemeral, p.point)
  }

  // ---- Finished frames and keys ----

  function DirectionOf(s: Session, sender: Identity): Option<Direction> {
    if sender == s.initiator then Some(AToB) else if sender == s.responder then Some(BToA) else None
  }

  function FinishedMac(s: Session, sender: Identity): Option<Mac> {
    match DirectionOf(s, sender)
    case None => None
    case Some(d) => Some(Hmac(Expand(s.secret, Info(s.id, Finished(d))), s.transcript))
  }

  function FinishedFrameOf(s: Session, sender: Identity): Option<Frame> {
    match FinishedMac(s, sender)
    case None => None
    case Some(mac) =>
      SignFrame(Content(true, FinishedFrame, s.id, sender, if sender == s.initiator then s.responder else s.initiator,
                     FinishedPayload(mac)), sender)
  }

  predicate FinishedFits(s: Session, f: Frame, pinned: Identity, own: Identity) {
    && f.body.kind.FinishedFrame? && f.body.session == s.id && f.body.recipient == own && f.body.sender != own
    && VerifyFrame(f, pinned) && FinishedMac(s, f.body.sender).Some?
    && f.body.payload == FinishedPayload(FinishedMac(s, f.body.sender).value)
  }

  function KeyFor(s: Session, purpose: Purpose): KeyMaterial {
    Expand(s.secret, Info(s.id, purpose))
  }

  /** One end's resumable session record. */
  class SessionRecord {
    const session: Session
    var ownFinishedSent: bool
    var peerFinishedVerified: bool

    constructor (session: Session)
      ensures this.session == session && !ownFinishedSent && !peerFinishedVerified
    {
      this.session := session;
      ownFinishedSent, peerFinishedVerified := false, false;
    }

    predicate Ready()
      reads this
    {
      ownFinishedSent && peerFinishedVerified
    }

    method MakeFinished(sender: Identity) returns (frame: Option<Frame>)
      modifies this`ownFinishedSent
      ensures frame == FinishedFrameOf(session, sender)
      ensures ownFinishedSent == (old(ownFinishedSent) || frame.Some?)
    {
      var mac := FinishedMac(session, sender);
      if mac.None? {
        return None;
      }
      var to := session.initiator;
      if sender == session.initiator {
        to := session.responder;
      }
      frame := SignFrame(Content(true, FinishedFrame, session.id, sender, to, FinishedPayload(mac.value)), sender);
      if frame.Some? {
        ownFinishedSent := true;
      }
    }

    method VerifyFinished(frame: Frame, pinned: Identity, own: Identity) returns (ok: bool)
      modifies this`peerFinishedVerified
      ensures ok == FinishedFits(session, frame, pinned, own)
      ensures peerFinishedVerified == (old(peerFinishedVerified) || ok)
    {
      var b := frame.body;
      if !b.kind.FinishedFrame? || b.session != session.id || b.recipient != own || b.sender == own {
        return false;
      }
      if !VerifyFrame(frame, pinned) {
        return false;
      }
      var expected := FinishedMac(session, b.sender);
      if expected.None? || b.payload != FinishedPayload(expected.value) {
        return false;
      }
      peerFinishedVerified := true;
      ok := true;
    }

    /** The key of one private message or repair; only a verified private session has any. */
    method PrivateKey(purpose: Purpose) returns (key: Option<KeyMaterial>)
      requires !purpose.Finished?
      ensures key.Some? <==> Ready() && session.mode.Private? && purpose.sequence > 0
      ensures key.Some? ==> forall p :: Fits(p) && Fits(purpose) ==> (KeyFor(session, p) == key.value <==> p == purpose)
    {
      if !ownFinishedSent || !peerFinishedVerified || !session.mode.Private? || purpose.sequence == 0 {
        return None;
      }
      forall p | Fits(p) && Fits(purpose) ensures KeyFor(session, p) == KeyFor(session, purpose) <==> p == purpose {
        KeysSeparate(session, p, purpose);
      }
      key := Some(Expand(session.secret, Info(session.id, purpose)));
      assert key.value == KeyFor(session, purpose);
    }
  }

  // ---- Session agreement ----

  lemma ExchangeCommutes(x: Scalar, y: Scalar)
    ensures Exchange(x, PointOf(y)) == Exchange(y, PointOf(x))
  {
  }

  /** Both ends that complete the same two frames, each holding the scalar of its own
      point, derive the same session: identifier, parties, transcript and secret. */
  lemma SessionAgreement(encode: Encoding, policy: Policy, init: Frame, accept: Frame, x: Scalar, y: Scalar,
                         initiator: Identity, responder: Identity, now: Instant, later: Instant)
    requires CompleteInitiator(encode, policy, init, accept, x, initiator, responder, now).Some?
    requires CompleteResponder(encode, policy, init, accept, y, initiator, responder, later).Some?
    requires init.body.payload.point == PointOf(x) && accept.body.payload.point == PointOf(y)
    ensures CompleteInitiator(encode, policy, init, accept, x, initiator, responder, now)
         == CompleteResponder(encode, policy, init, accept, y, initiator, responder, later)
    ensures var s := CompleteInitiator(encode, policy, init, accept, x, initiator, responder, now).value;
      && s.initiator == initiator && s.responder == responder && s.id == init.body.session
      && s.policy == policy.hash && s.mode == policy.mode
  {
    ExchangeCommutes(x, y);
  }

  /** The handshake completes: an Init and the Accept made for it give both ends the same
      session, exactly as long as the offer has not expired and both frames are short enough. */
  lemma HandshakeCompletes(encode: Encoding, policy: Policy, initiator: Identity, responder: Identity, key: KeyId,
                           session: Bytes, expiry: Instant, x: Scalar, y: Scalar, n: nat, m: nat, t0: Instant, t1: Instant,
                           now: Instant)
    returns (init: Frame, accept: Frame)
    requires initiator != responder && session != "" && t0 < expiry <= policy.expiresAt && t1 < expiry
    ensures NewInit(policy, initiator, responder, key, session, expiry, x, n, t0) == Some(init)
    ensures NewAccept(encode, policy, init, initiator, responder, key, y, m, t1) == Some(accept)
    ensures CompleteInitiator(encode, policy, init, accept, x, initiator, responder, now).Some? <==>
      now < expiry && |encode(init)| <= MAX_FRAME && |encode(accept)| <= MAX_FRAME
    ensures CompleteInitiator(encode, policy, init, accept, x, initiator, responder, now)
         == CompleteResponder(encode, policy, init, accept, y, initiator, responder, now)
  {
    init := NewInit(policy, initiator, responder, key, session, expiry, x, n, t0).value;
    accept := NewAccept(encode, policy, init, initiator, responder, key, y, m, t1).value;
    ExchangeCommutes(x, y);
  }

  /** `f` is a frame of this kind that the owner of the pinned key signed as it stands. */
  predicate SignedBy(f: Frame, kind: FrameKind, pinned: Identity) {
    && f.signature == Signed(pinned, f.body) && f.body.sender == pinned && f.body.kind == kind
    && f.body.currentVersion && f.body.session != ""
  }

  /** The parameters of both frames are those of the policy, and still hold. */
  predicate Offered(policy: Policy, init: Payload, accept: Payload, now: Instant) {
    && init.InitPayload? && accept.AcceptPayload?
    && accept.offer == init.offer
    && init.offer.policy == policy.hash && init.offer.mode == policy.mode && init.offer.suite == policy.suite
    && now < init.offer.expiry <= policy.expiresAt
  }

  /** `accept` answers exactly this `init`: the same session, back to its sender. */
  predicate Answers(encode: Encoding, init: Frame, accept: Frame) {
    && accept.body.session == init.body.session && accept.body.recipient == init.body.sender
    && accept.body.sender == init.body.recipient
    && accept.body.payload.AcceptPayload? && accept.body.payload.initHash == Sha256(encode(init))
  }

  /** An Init is made exactly for another party, under a session name, with an expiry that is
      ahead and within the policy's; it is signed and offers what the policy says. */
  lemma InitExactly(policy: Policy, sender: Identity, recipient: Identity, key: KeyId, session: Bytes,
                    expiry: Instant, x: Scalar, nonce: nat, now: Instant)
    ensures NewInit(policy, sender, recipient, key, session, expiry, x, nonce, now).Some? <==>
      sender != recipient && session != "" && now < expiry <= policy.expiresAt
    ensures NewInit(policy, sender, recipient, key, session, expiry, x, nonce, now).Some? ==>
      var f := NewInit(policy, sender, recipient, key, session, expiry, x, nonce, now).value;
      && SignedBy(f, InitFrame, sender) && f.body.session == session && f.body.recipient == recipient
      && f.body.payload == InitPayload(PointOf(x), nonce, Offer(policy.hash, policy.mode, policy.suite, key, expiry))
  {
  }

  /** A responder answers exactly an Init that the initiator signed, to itself and its current
      key, under its policy and before the expiry; the answer is signed, names that Init and
      repeats its offer. */
  lemma AcceptExactly(encode: Encoding, policy: Policy, init: Frame, initiator: Identity, responder: Identity,
                      key: KeyId, y: Scalar, nonce: nat, now: Instant)
    ensures NewAccept(encode, policy, init, initiator, responder, key, y, nonce, now).Some? <==>
      && SignedBy(init, InitFrame, initiator) && init.body.recipient == responder && init.body.payload.InitPayload?
      && var o := init.body.payload.offer;
         && o.policy == policy.hash && o.mode == policy.mode && o.suite == policy.suite && o.recipientKey == key
         && now < o.expiry <= policy.expiresAt
    ensures NewAccept(encode, policy, init, initiator, responder, key, y, nonce, now).Some? ==>
      var f := NewAccept(encode, policy, init, initiator, responder, key, y, nonce, now).value;
      && SignedBy(f, AcceptFrame, responder) && Answers(encode, init, f)
      && Offered(policy, init.body.payload, f.body.payload, now)
      && f.body.payload.point == PointOf(y) && f.body.payload.nonce == nonce
  {
  }

  /** Either end completes exactly on an Init signed by the initiator and an Accept signed
      by the responder for that Init, under this policy and before the offer expires, if the
      frames are short enough and the exchange with the other end's point works out. */
  lemma CompletesExactly(encode: Encoding, policy: Policy, init: Frame, accept: Frame, x: Scalar,
                         initiator: Identity, responder: Identity, now: Instant)
    ensures
      var fits := SignedBy(init, InitFrame, initiator) && SignedBy(accept, AcceptFrame, responder) && Answers(encode, init, accept)
                  && Offered(policy, init.body.payload, accept.body.payload, now)
                  && |encode(init)| <= MAX_FRAME && |encode(accept)| <= MAX_FRAME;
      && (CompleteInitiator(encode, policy, init, accept, x, initiator, responder, now).Some? <==>
            fits && Exchange(x, accept.body.payload.point).Some?)
      && (CompleteResponder(encode, policy, init, accept, x, initiator, responder, now).Some? <==>
            fits && Exchange(x, init.body.payload.point).Some?)
  {
  }

  /** An Accept belongs to one Init: two ends that completed on the same Accept also saw
      the same Init. */
  lemma SameInit(encode: Encoding, policy: Policy, other: Policy, init: Frame, init': Frame, accept: Frame, x: Scalar, y: Scalar,
                 initiator: Identity, responder: Identity, initiator': Identity, responder': Identity, now: Instant, later: Instant)
    requires Injective(encode)
    requires CompleteInitiator(encode, policy, init, accept, x, initiator, responder, now).Some?
    requires CompleteResponder(encode, other, init', accept, y, initiator', responder', later).Some?
    ensures init == init' && initiator == initiator' && responder == responder'
  {
    CompletesExactly(encode, policy, init, accept, x, initiator, responder, now);
    CompletesExactly(encode, other, init', accept, y, initiator', responder', later);
    assert Sha256(encode(init)) == Sha256(encode(init'));
  }

  /** Two sessions share a secret only if they come from the same two frames and the same
      pair of scalars. */
  lemma SecretBindsTranscript(encode: Encoding, policy: Policy, other: Policy, init: Frame, accept: Frame,
                              init': Frame, accept': Frame, x: Scalar, p: Point, x': Scalar, p': Point)
    requires Injective(encode)
    requires DeriveSession(encode, policy, init, accept, x, p).Some?
    requires DeriveSession(encode, other, init', accept', x', p').Some?
    requires DeriveSession(encode, policy, init, accept, x, p).value.secret
          == DeriveSession(encode, other, init', accept', x', p').value.secret
    ensures init == init' && accept == accept' && Exchange(x, p) == Exchange(x', p')
  {
    TranscriptInjective(encode(init), encode(accept), encode(init'), encode(accept'));
  }

  /** The session has two different parties and a usable identifier. */
  predicate ProperSession(s: Session) {
    s.initiator != s.responder && s.id != ""
  }

  lemma CompletedProper(encode: Encoding, policy: Policy, init: Frame, accept: Frame, x: Scalar,
                        own: Identity, responder: Identity, now: Instant)
    requires CompleteInitiator(encode, policy, init, accept, x, own, responder, now).Some? && own != responder
    ensures ProperSession(CompleteInitiator(encode, policy, init, accept, x, own, responder, now).value)
  {
  }

  /** A Finished frame is accepted by an end exactly when it is the peer's own one for this
      very session. */
  lemma FinishedExactly(s: Session, f: Frame, own: Identity, peer: Identity)
    requires ProperSession(s) && {own, peer} == {s.initiator, s.responder}
    ensures FinishedFits(s, f, peer, own) <==> Some(f) == FinishedFrameOf(s, peer)
  {
    assert own in {s.initiator, s.responder} && peer in {s.initiator, s.responder};
    assert s.initiator in {own, peer} && s.responder in {own, peer};
  }

  /** Each end's Finished frame is accepted by the other and refused by the end that made
      it, and neither end's frame passes for the other's. */
  lemma FinishedVerifies(s: Session, pinned: Identity)
    requires ProperSession(s)
    ensures var a, b := FinishedFrameOf(s, s.initiator), FinishedFrameOf(s, s.responder);
      && a.Some? && b.Some?
      && FinishedFits(s, a.value, s.initiator, s.responder) && FinishedFits(s, b.value, s.responder, s.initiator)
      && !FinishedFits(s, a.value, pinned, s.initiator) && !FinishedFits(s, b.value, pinned, s.responder)
      && FinishedMac(s, s.initiator) != FinishedMac(s, s.responder)
  {
    if FinishedMac(s, s.initiator) == FinishedMac(s, s.responder) {
      InfoInjective(s.id, Finished(AToB), Finished(BToA));
    }
  }

  /** The two ends that complete a handshake accept exactly each other's Finished frame,
      and each refuses its own. */
  lemma CompletedFinished(encode: Encoding, policy: Policy, init: Frame, accept: Frame, x: Scalar, y: Scalar,
                          initiator: Identity, responder: Identity, now: Instant, later: Instant, f: Frame)
    requires CompleteInitiator(encode, policy, init, accept, x, initiator, responder, now).Some?
    requires CompleteResponder(encode, policy, init, accept, y, initiator, responder, later).Some?
    requires init.body.payload.point == PointOf(x) && accept.body.payload.point == PointOf(y) && initiator != responder
    ensures var a := CompleteInitiator(encode, policy, init, accept, x, initiator, responder, now).value;
      var b := CompleteResponder(encode, policy, init, accept, y, initiator, responder, later).value;
      && FinishedFrameOf(a, initiator).Some? && FinishedFrameOf(b, responder).Some?
      && (FinishedFits(b, f, initiator, responder) <==> Some(f) == FinishedFrameOf(a, initiator))
      && (FinishedFits(a, f, responder, initiator) <==> Some(f) == FinishedFrameOf(b, responder))
      && FinishedFrameOf(a, initiator) != FinishedFrameOf(b, responder)
  {
    SessionAgreement(encode, policy, init, accept, x, y, initiator, responder, now, later);
    CompletedProper(encode, policy, init, accept, x, initiator, responder, now);
    var s := CompleteInitiator(encode, policy, init, accept, x, initiator, responder, now).value;
    FinishedExactly(s, f, responder, initiator);
    FinishedExactly(s, f, initiator, responder);
    FinishedVerifies(s, initiator);
  }

  /** Whatever the session and the pinned key are, nobody accepts a Finished frame in its own
      name, to somebody else, or not signed by the pinned key. */
  lemma FinishedSigned(s: Session, f: Frame, pinned: Identity, own: Identity)
    requires FinishedFits(s, f, pinned, own)
    ensures SignedBy(f, FinishedFrame, pinned) && pinned != own && f.body.recipient == own && f.body.session == s.id
  {
  }

  /** A frame of another session is refused, unless that session has the same secret. */
  lemma FinishedOfOther(s: Session, t: Session, own: Identity, peer: Identity)
    requires FinishedFrameOf(t, peer).Some? && FinishedFits(s, FinishedFrameOf(t, peer).value, peer, own)
    ensures s.secret == t.secret && s.transcript == t.transcript && s.id == t.id
  {
  }

  /** Keys separate: in one session two keys are equal only for the same purpose, direction
      and sequence. */
  lemma KeysSeparate(s: Session, p: Purpose, q: Purpose)
    requires Fits(p) && Fits(q)
    ensures KeyFor(s, p) == KeyFor(s, q) <==> p == q
  {
    if KeyFor(s, p) == KeyFor(s, q) {
      InfoInjective(s.id, p, q);
    }
  }

  /** Both ends of a completed handshake derive the same key for the same purpose,
      direction and sequence, and only then. */
  lemma EndsShareKeys(encode: Encoding, policy: Policy, init: Frame, accept: Frame, x: Scalar, y: Scalar,
                      initiator: Identity, responder: Identity, now: Instant, later: Instant, p: Purpose, q: Purpose)
    requires CompleteInitiator(encode, policy, init, accept, x, initiator, responder, now).Some?
    requires CompleteResponder(encode, policy, init, accept, y, initiator, responder, later).Some?
    requires init.body.payload.point == PointOf(x) && accept.body.payload.point == PointOf(y)
    requires Fits(p) && Fits(q)
    ensures var a := CompleteInitiator(encode, policy, init, accept, x, initiator, responder, now).value;
      var b := CompleteResponder(encode, policy, init, accept, y, initiator, responder, later).value;
      KeyFor(a, p) == KeyFor(b, q) <==> p == q
  {
    SessionAgreement(encode, policy, init, accept, x, y, initiator, responder, now, later);
    KeysSeparate(CompleteInitiator(encode, policy, init, accept, x, initiator, responder, now).value, p, q);
  }
}
