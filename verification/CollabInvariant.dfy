/** What every endpoint keeps, whatever its authenticated peer sends. */
module CollabInvariant {
  import opened Basics
  import opened CollabTypes
  import opened CollabReducer
  import opened CollabInbox

  // ---- Stored events ----

  /** A record is stored under its own key, between the two bound parties, and its
      status fits its direction. */
  predicate Placed(c: Collab, k: Key, r: Record) {
    && k == KeyOf(r.packet) && ValidEvent(r.packet) && r.packet.collab == c.id
    && (if r.outgoing then
          r.packet.sender == c.local && r.packet.recipient == c.peer && (r.status.Reserved? || r.status.Applied?)
        else
          r.packet.sender == c.peer && r.packet.recipient == c.local && !r.status.Reserved?)
  }

  ghost predicate EventsPlaced(core: Core) {
    forall k :: k in core.events ==> Placed(core.c, k, core.events[k])
  }

  predicate SameSlot(p: Packet, q: Packet) {
    p.sender == q.sender && p.sequence == q.sequence && p.sequence > 0
  }

  ghost predicate SlotsUnique(events: map<Key, Record>) {
    forall k1, k2 :: k1 in events && k2 in events && SameSlot(events[k1].packet, events[k2].packet) ==> k1 == k2
  }

  /** Relative to the cursors: which events have been decided, and which numbers exist. */
  predicate CursorFits(c: Collab, r: Record) {
    if r.packet.sequence == 0 then true
    else if r.outgoing then r.packet.sequence <= c.outSeq
    else if r.packet.sequence <= c.inSeq then r.status.Applied? || r.status.Rejected?
    else r.status.Buffered? || r.status.Rejected?
  }

  ghost predicate CursorsFit(core: Core) {
    && 0 <= core.c.outSeq && 0 <= core.c.inSeq
    && forall k :: k in core.events ==> CursorFits(core.c, core.events[k])
  }

  /** Every number up to the incoming cursor is stored, and the cursor names the last. */
  ghost predicate StreamStored(core: Core) {
    && (forall n :: 1 <= n <= core.c.inSeq ==> HasSlot(core.events, core.c.peer, n))
    && (if core.c.inSeq == 0 then core.c.lastIn.None?
        else core.c.lastIn.Some? && InSlot(core.events, Key(core.c.peer, core.c.lastIn.value), core.c.peer, core.c.inSeq))
  }

  predicate PartiesDistinct(c: Collab) {
    c.local != c.peer && (c.initiator == c.local || c.initiator == c.peer)
  }

  predicate AppliedAt(events: map<Key, Record>, k: Key) {
    k in events && events[k].status.Applied?
  }

  // ---- Consents ----

  predicate ConsentBacked(core: Core, u: Urn, a: Consent) {
    var k := Key(u, a.eventId);
    && u in {core.c.local, core.c.peer}
    && AppliedAt(core.events, k) && core.events[k].packet.kind.Accept?
    && core.events[k].packet.payload.AcceptBody? && core.events[k].packet.payload.supportedBasis
    && a == ConsentOf(core.events[k].packet).(active := a.active)
    && a.actor == u
    && core.c.terms.Some? && a.accepted == DigestOf(core.c.terms.value)
  }

  ghost predicate ConsentsBacked(core: Core) {
    forall u :: u in core.c.acceptances ==> ConsentBacked(core, u, core.c.acceptances[u])
  }

  predicate NamesAccept(events: map<Key, Record>, w: Record) {
    w.packet.payload.WithdrawBody? && AppliedAt(events, Key(w.packet.sender, w.packet.payload.acceptEventId))
  }

  /** An applied withdrawal names an applied event of its sender. */
  ghost predicate WithdrawalsNamed(core: Core) {
    forall k :: AppliedAt(core.events, k) && core.events[k].packet.kind.Withdraw?
      ==> NamesAccept(core.events, core.events[k])
  }

  /** Until an agreement is recorded, no active consent has been withdrawn. */
  ghost predicate ActiveNotWithdrawn(core: Core) {
    core.c.agreement.None? ==>
      forall u, k :: u in core.c.acceptances && core.c.acceptances[u].active && AppliedAt(core.events, k)
        && core.events[k].packet.kind.Withdraw? && core.events[k].packet.sender == u
        && core.events[k].packet.payload.WithdrawBody?
        ==> core.events[k].packet.payload.acceptEventId != core.c.acceptances[u].eventId
  }

  // ---- Agreements ----

  /** The stored accept event `r` backs the reference `ref` of a formation. */
  predicate Backs(c: Collab, f: Formation, ref: AcceptanceRef, r: Record) {
    && r.status.Applied? && EventDigestOf(r.packet) == ref.eventDigest
    && r.packet.kind.Accept? && r.packet.payload.AcceptBody?
    && r.packet.payload.actor == ref.actor && r.packet.payload.accepted == f.termsDigest
    && r.packet.payload.supportedBasis
    && r.packet.sequence <= Cursor(c, f, ref.actor)
    && r.packet.payload.validUntil > f.formedAt
  }

  predicate RefBacked(core: Core, f: Formation, ref: AcceptanceRef) {
    && Key(ref.actor, ref.eventId) in core.events
    && Backs(core.c, f, ref, core.events[Key(ref.actor, ref.eventId)])
  }

  /** Exactly two references, one per party, each backed by an applied accept event for
      the agreed terms within the formation cursors. */
  ghost predicate Evidence(core: Core, f: Formation) {
    && |f.acceptances| == 2
    && {f.acceptances[0].actor, f.acceptances[1].actor} == {core.c.local, core.c.peer}
    && RefBacked(core, f, f.acceptances[0]) && RefBacked(core, f, f.acceptances[1])
  }

  ghost predicate AgreementFits(core: Core) {
    core.c.agreement.Some? ==>
      && core.c.terms.Some?
      && core.c.agreement.value.formation.termsDigest == DigestOf(core.c.terms.value)
      && Evidence(core, core.c.agreement.value.formation)
  }

  predicate IsAgreementEvent(r: Record, g: Agreement) {
    r.status.Applied? && !r.outgoing && r.packet.kind.Agree? && r.packet.payload == AgreementBody(g)
  }

  /** The party that did not initiate holds only an agreement that the initiator sent. */
  ghost predicate AgreementReceived(core: Core) {
    core.c.agreement.Some? && core.c.initiator == core.c.peer ==>
      exists k :: k in core.events && IsAgreementEvent(core.events[k], core.c.agreement.value)
  }

  // ---- Terms history ----

  predicate IsProposal(events: map<Key, Record>, p: Packet) {
    && AppliedAt(events, KeyOf(p)) && events[KeyOf(p)].packet == p
    && p.kind.Proposal? && p.payload.TermsBody?
  }

  predicate Succeeds(c: Collab, h: seq<Packet>, i: nat)
    requires i < |h|
  {
    && h[i].sender == c.initiator && h[i].payload.TermsBody?
    && h[i].payload.terms.version == i + 1
    && if i == 0 then h[i].payload.parent == None
       else h[i-1].payload.TermsBody? && h[i].payload.parent == Some(DigestOf(h[i-1].payload.terms))
  }

  /** `h` lists all applied proposals: numbered 1, 2, 3, ..., all by the initiator, each
      naming the digest of its predecessor; the last one is the current terms. */
  ghost predicate IsHistory(core: Core, h: seq<Packet>) {
    && (forall i :: 0 <= i < |h| ==> IsProposal(core.events, h[i]))
    && (forall i :: 0 <= i < |h| ==> Succeeds(core.c, h, i))
    && (forall k :: AppliedAt(core.events, k) && core.events[k].packet.kind.Proposal? ==> core.events[k].packet in h)
    && core.c.terms == if h == [] then None else Some(h[|h|-1].payload.terms)
  }

  ghost predicate HasHistory(core: Core) {
    exists h :: IsHistory(core, h)
  }

  /** `k` accepts terms that an applied proposal spelled out. */
  ghost predicate AcceptKnown(events: map<Key, Record>, k: Key)
    requires k in events
  {
    && events[k].packet.payload.AcceptBody?
    && exists p :: IsProposal(events, p) && events[k].packet.payload.accepted == DigestOf(p.payload.terms)
  }

  ghost predicate AcceptsKnown(core: Core) {
    forall k :: AppliedAt(core.events, k) && core.events[k].packet.kind.Accept? ==> AcceptKnown(core.events, k)
  }

  ghost predicate Sound(core: Core) {
    && PartiesDistinct(core.c)
    && EventsPlaced(core) && SlotsUnique(core.events) && CursorsFit(core) && StreamStored(core)
    && ConsentsBacked(core) && WithdrawalsNamed(core) && ActiveNotWithdrawn(core)
    && AgreementFits(core) && AgreementReceived(core)
    && HasHistory(core) && AcceptsKnown(core)
  }

  lemma SoundPieces(core: Core)
    requires Sound(core)
    ensures PartiesDistinct(core.c) && EventsPlaced(core) && SlotsUnique(core.events) && CursorsFit(core)
  {
  }

  // ---- One applied event of the ordered stream, or one event applied as it is sent ----

  /** The facts an event is applied to: an incoming event moves the cursor first. */
  function Before(core: Core, p: Packet, outgoing: bool): Core {
    if outgoing then core else core.(c := Advance(core.c, p))
  }

  predicate AboutToApply(core: Core, k: Key, outgoing: bool) {
    && k in core.events
    && core.events[k].outgoing == outgoing
    && if outgoing then core.events[k].status.Reserved?
       else && core.events[k].status.Buffered? && core.events[k].packet.sequence == core.c.inSeq + 1
            && core.events[k].packet.previous == core.c.lastIn
  }

  function After(core: Core, k: Key, outgoing: bool): Core
    requires k in core.events
  {
    Mark(if outgoing then core else core.(c := Advance(core.c, core.events[k].packet)), k, Status.Applied)
  }

  /** `fin` is the result of applying the stored event `k`. */
  predicate Applies(core: Core, k: Key, now: Instant, outgoing: bool, fin: Core) {
    && AboutToApply(core, k, outgoing)
    && var r := ApplyCore(Before(core, core.events[k].packet, outgoing), core.events[k].packet, now, outgoing);
       r.Done? && k in r.value.events && r.value.events[k].packet == core.events[k].packet
       && fin == After(r.value, k, outgoing)
  }

  /** Applying keeps every record but for a receipt, and never moves a cursor. */
  ghost predicate Frame(core: Core, after: Core) {
    && after.events.Keys == core.events.Keys
    && (forall j :: j in core.events ==> after.events[j] == core.events[j].(receipt := after.events[j].receipt))
    && after.c.id == core.c.id && after.c.local == core.c.local && after.c.peer == core.c.peer
    && after.c.initiator == core.c.initiator && after.c.outSeq == core.c.outSeq && after.c.inSeq == core.c.inSeq
    && after.c.lastIn == core.c.lastIn && after.c.lastOut == core.c.lastOut && after.c.permit == core.c.permit
  }

  lemma ApplyFrame(core: Core, packet: Packet, now: Instant, outgoing: bool)
    requires outgoing || !IsSync(packet.kind)
    requires ApplyCore(core, packet, now, outgoing).Done?
    ensures Frame(core, ApplyCore(core, packet, now, outgoing).value)
  {
    match packet.kind
    case Receipt =>
    case Accept =>
    case Agree =>
    case Withdraw =>
    case SyncRequest =>
    case SyncResponse =>
    case _ =>
  }

  /** Applying an event keeps all records but for its own status and a receipt. */
  ghost predicate SameRecords(core: Core, k: Key, fin: Core) {
    && fin.events.Keys == core.events.Keys
    && forall j :: j in core.events ==>
         && fin.events[j].packet == core.events[j].packet
         && fin.events[j].outgoing == core.events[j].outgoing
         && fin.events[j].status == if j == k then Status.Applied else core.events[j].status
  }

  predicate SameParties(c: Collab, d: Collab) {
    d.id == c.id && d.local == c.local && d.peer == c.peer && d.initiator == c.initiator
  }

  lemma AppliesFrame(core: Core, k: Key, now: Instant, outgoing: bool, fin: Core)
    requires EventsPlaced(core) && CursorsFit(core) && Applies(core, k, now, outgoing, fin)
    ensures SameRecords(core, k, fin) && SameParties(core.c, fin.c)
    ensures fin.c.outSeq == core.c.outSeq
    ensures if outgoing then fin.c.inSeq == core.c.inSeq && fin.c.lastIn == core.c.lastIn
            else fin.c.inSeq == core.c.inSeq + 1 && fin.c.lastIn == Some(k.eventId)
  {
    assert Placed(core.c, k, core.events[k]);
    ApplyFrame(Before(core, core.events[k].packet, outgoing), core.events[k].packet, now, outgoing);
  }

  /** Deciding one event moves the incoming cursor past it, or marks an outgoing one. */
  lemma StreamKept(core: Core, k: Key, fin: Core)
    requires EventsPlaced(core) && CursorsFit(core) && SlotsUnique(core.events) && StreamStored(core)
    requires k in core.events && SameParties(core.c, fin.c) && fin.events.Keys == core.events.Keys
    requires forall j :: j in core.events ==>
      && fin.events[j].packet == core.events[j].packet && fin.events[j].outgoing == core.events[j].outgoing
      && (j != k ==> fin.events[j].status == core.events[j].status)
    requires fin.events[k].status.Applied? || (fin.events[k].status.Rejected? && !core.events[k].outgoing)
    requires fin.c.outSeq == core.c.outSeq
    requires if core.events[k].outgoing then fin.c.inSeq == core.c.inSeq && fin.c.lastIn == core.c.lastIn
             else && core.events[k].packet.sequence == core.c.inSeq + 1
                  && fin.c.inSeq == core.c.inSeq + 1 && fin.c.lastIn == Some(k.eventId)
    ensures EventsPlaced(fin) && CursorsFit(fin) && SlotsUnique(fin.events) && StreamStored(fin)
  {
    assert Placed(core.c, k, core.events[k]) && CursorFits(core.c, core.events[k]);
    forall j | j in fin.events ensures Placed(fin.c, j, fin.events[j]) && CursorFits(fin.c, fin.events[j]) {
      assert Placed(core.c, j, core.events[j]) && CursorFits(core.c, core.events[j]);
      if j != k && !core.events[k].outgoing {
        assert !SameSlot(core.events[j].packet, core.events[k].packet);
      }
    }
    forall k1, k2 | k1 in fin.events && k2 in fin.events && SameSlot(fin.events[k1].packet, fin.events[k2].packet)
      ensures k1 == k2
    {
      assert SameSlot(core.events[k1].packet, core.events[k2].packet);
    }
    forall n | 1 <= n <= fin.c.inSeq ensures HasSlot(fin.events, fin.c.peer, n) {
      if n <= core.c.inSeq {
        assert HasSlot(core.events, core.c.peer, n);
        var j :| j in core.events && InSlot(core.events, j, core.c.peer, n);
        assert InSlot(fin.events, j, fin.c.peer, n);
      } else {
        assert InSlot(fin.events, k, fin.c.peer, n);
      }
    }
  }

  lemma AppliesKeepsStream(core: Core, k: Key, now: Instant, outgoing: bool, fin: Core)
    requires EventsPlaced(core) && CursorsFit(core) && SlotsUnique(core.events) && StreamStored(core)
    requires Applies(core, k, now, outgoing, fin)
    ensures EventsPlaced(fin) && CursorsFit(fin) && SlotsUnique(fin.events) && StreamStored(fin)
  {
    AppliesFrame(core, k, now, outgoing, fin);
    StreamKept(core, k, fin);
  }

  /** What one kind of event may change among the negotiated facts. */
  lemma ApplyTouches(core: Core, packet: Packet, now: Instant, outgoing: bool)
    requires outgoing || !IsSync(packet.kind)
    requires ApplyCore(core, packet, now, outgoing).Done?
    ensures var c, d := core.c, ApplyCore(core, packet, now, outgoing).value.c;
      && (d.terms != c.terms ==> packet.kind.Proposal?)
      && (d.acceptances != c.acceptances ==> packet.kind.Proposal? || packet.kind.Accept? || packet.kind.Withdraw?)
      && (d.agreement != c.agreement ==> packet.kind.Accept? || packet.kind.Agree?)
      && (c.agreement.Some? ==> d.agreement == c.agreement && d.terms == c.terms && d.acceptances == c.acceptances)
  {
    match packet.kind
    case Receipt =>
    case Accept =>
    case Agree =>
    case Withdraw =>
    case SyncRequest =>
    case SyncResponse =>
    case _ =>
  }

  /** How the consents change, kind by kind. */
  lemma ApplyConsents(core: Core, packet: Packet, now: Instant, outgoing: bool)
    requires outgoing || !IsSync(packet.kind)
    requires ApplyCore(core, packet, now, outgoing).Done?
    ensures var c, d := core.c, ApplyCore(core, packet, now, outgoing).value.c;
      match packet.kind
      case Proposal => d.acceptances == map[]
      case Accept =>
        && c.agreement.None? && c.terms.Some?
        && packet.payload.AcceptBody? && packet.payload.supportedBasis && packet.payload.actor == packet.sender
        && packet.payload.accepted == DigestOf(c.terms.value) && packet.payload.validUntil > now
        && d.acceptances == c.acceptances[packet.sender := ConsentOf(packet)]
        && d.agreement == Form(c.(acceptances := d.acceptances), now).agreement
      case Withdraw =>
        && packet.payload.WithdrawBody? && packet.sender in c.acceptances
        && c.acceptances[packet.sender].eventId == packet.payload.acceptEventId
        && d.acceptances == if c.agreement.Some? then c.acceptances
                            else c.acceptances[packet.sender := c.acceptances[packet.sender].(active := false)]
      case _ => d.acceptances == c.acceptances
  {
    match packet.kind
    case Receipt =>
    case Accept =>
    case Agree =>
    case Withdraw =>
    case SyncRequest =>
    case SyncResponse =>
    case _ =>
  }

  lemma AppliesKeepsConsents(core: Core, k: Key, now: Instant, outgoing: bool, fin: Core)
    requires EventsPlaced(core) && CursorsFit(core) && PartiesDistinct(core.c)
    requires ConsentsBacked(core)
    requires Applies(core, k, now, outgoing, fin)
    ensures ConsentsBacked(fin)
  {
    var packet := core.events[k].packet;
    AppliesFrame(core, k, now, outgoing, fin);
    assert Placed(core.c, k, core.events[k]);
    ApplyTouches(Before(core, packet, outgoing), packet, now, outgoing);
    ApplyConsents(Before(core, packet, outgoing), packet, now, outgoing);
    forall u | u in fin.c.acceptances ensures ConsentBacked(fin, u, fin.c.acceptances[u]) {
      ConsentKept(core, k, fin, u);
    }
  }

  lemma ConsentKept(core: Core, k: Key, fin: Core, u: Urn)
    requires SameRecords(core, k, fin) && SameParties(core.c, fin.c) && k in core.events && Placed(core.c, k, core.events[k])
    requires u in fin.c.acceptances
    requires u in core.c.acceptances ==> ConsentBacked(core, u, core.c.acceptances[u])
    requires fin.c.terms == core.c.terms
    requires if u in core.c.acceptances && fin.c.acceptances[u] == core.c.acceptances[u].(active := fin.c.acceptances[u].active) then true
             else var p := core.events[k].packet;
                  && p.kind.Accept? && p.sender == u && p.payload.AcceptBody? && p.payload.supportedBasis
                  && fin.c.acceptances[u] == ConsentOf(p) && p.payload.actor == u
                  && core.c.terms.Some? && p.payload.accepted == DigestOf(core.c.terms.value)
    ensures ConsentBacked(fin, u, fin.c.acceptances[u])
  {
  }

  /** A withdrawal names the accept event of a consent its sender had given. */
  lemma WithdrawalsKept(core: Core, k: Key, fin: Core)
    requires WithdrawalsNamed(core) && ConsentsBacked(core) && SameRecords(core, k, fin) && k in core.events
    requires var p := core.events[k].packet;
      p.kind.Withdraw? ==> p.payload.WithdrawBody? && p.sender in core.c.acceptances
                           && core.c.acceptances[p.sender].eventId == p.payload.acceptEventId
    ensures WithdrawalsNamed(fin)
  {
    var p := core.events[k].packet;
    forall j | AppliedAt(fin.events, j) && fin.events[j].packet.kind.Withdraw?
      ensures NamesAccept(fin.events, fin.events[j])
    {
      if j == k {
        assert ConsentBacked(core, p.sender, core.c.acceptances[p.sender]);
      } else {
        assert AppliedAt(core.events, j) && NamesAccept(core.events, core.events[j]);
      }
    }
  }

  lemma AppliesKeepsWithdrawals(core: Core, k: Key, now: Instant, outgoing: bool, fin: Core)
    requires EventsPlaced(core) && CursorsFit(core) && PartiesDistinct(core.c)
    requires ConsentsBacked(core) && WithdrawalsNamed(core) && ActiveNotWithdrawn(core)
    requires Applies(core, k, now, outgoing, fin)
    ensures WithdrawalsNamed(fin) && ActiveNotWithdrawn(fin)
  {
    var packet := core.events[k].packet;
    AppliesFrame(core, k, now, outgoing, fin);
    assert Placed(core.c, k, core.events[k]);
    ApplyTouches(Before(core, packet, outgoing), packet, now, outgoing);
    ApplyConsents(Before(core, packet, outgoing), packet, now, outgoing);
    WithdrawalsKept(core, k, fin);
    if fin.c.agreement.None? {
      forall u, j | u in fin.c.acceptances && fin.c.acceptances[u].active && AppliedAt(fin.events, j)
        && fin.events[j].packet.kind.Withdraw? && fin.events[j].packet.sender == u
        && fin.events[j].packet.payload.WithdrawBody?
        ensures fin.events[j].packet.payload.acceptEventId != fin.c.acceptances[u].eventId
      {
        if j != k {
          assert AppliedAt(core.events, j) && NamesAccept(core.events, core.events[j]);
        }
      }
    }
  }

  /** Two passing references name both parties, each with a matching, unwithdrawn accept. */
  lemma CheckedRefs(core: Core, f: Formation)
    requires PartiesDistinct(core.c) && |f.acceptances| == 2 && CheckRefs(core, f, f.acceptances, {}) == Pass
    ensures Evidence(core, f)
    ensures forall ref :: ref in f.acceptances ==>
      && Key(ref.actor, ref.eventId) in core.events
      && AcceptMatches(core.c, f, ref, core.events[Key(ref.actor, ref.eventId)])
      && !WithdrawnBy(core.events, ref.actor, ref.eventId, Cursor(core.c, f, ref.actor))
  {
    var r0, r1 := f.acceptances[0], f.acceptances[1];
    assert f.acceptances[1..] == [r1];
    assert CheckRef(core, f, r0, {}) == Pass;
    assert CheckRefs(core, f, [r1], {r0.actor}) == CheckRefs(core, f, f.acceptances[1..], {} + {r0.actor});
    assert CheckRef(core, f, r1, {r0.actor}) == Pass;
  }

  lemma EvidenceKept(core: Core, fin: Core, f: Formation)
    requires Evidence(core, f) && SameParties(core.c, fin.c)
    requires forall k :: AppliedAt(core.events, k) ==> AppliedAt(fin.events, k) && fin.events[k].packet == core.events[k].packet
    ensures Evidence(fin, f)
  {
    assert AppliedAt(core.events, Key(f.acceptances[0].actor, f.acceptances[0].eventId));
    assert AppliedAt(core.events, Key(f.acceptances[1].actor, f.acceptances[1].eventId));
  }

  /** Whatever an endpoint forms is backed by the accept events it has applied. */
  lemma FormedEvidence(fin: Core, c: Collab, now: Instant)
    requires EventsPlaced(fin) && CursorsFit(fin) && ConsentsBacked(fin) && PartiesDistinct(fin.c)
    requires ReadyToForm(c, now) && SameParties(c, fin.c) && c.acceptances == fin.c.acceptances && c.terms == fin.c.terms
    requires c.outSeq == fin.c.outSeq && c.inSeq == fin.c.inSeq
    ensures Evidence(fin, FormationOf(c, now))
  {
    forall u | u in {c.local, c.peer} ensures RefBacked(fin, FormationOf(c, now), RefOf(c, u)) {
      var k := Key(u, c.acceptances[u].eventId);
      assert ConsentBacked(fin, u, c.acceptances[u]);
      assert Placed(fin.c, k, fin.events[k]) && CursorFits(fin.c, fin.events[k]);
    }
  }

  /** A recorded agreement and its evidence stay. */
  lemma AgreementStays(core: Core, k: Key, fin: Core)
    requires AgreementFits(core) && AgreementReceived(core) && core.c.agreement.Some?
    requires SameRecords(core, k, fin) && SameParties(core.c, fin.c) && k in core.events
    requires fin.c.agreement == core.c.agreement && fin.c.terms == core.c.terms
    ensures AgreementFits(fin) && AgreementReceived(fin)
  {
    EvidenceKept(core, fin, core.c.agreement.value.formation);
    if core.c.initiator == core.c.peer {
      var j :| j in core.events && IsAgreementEvent(core.events[j], core.c.agreement.value);
      assert IsAgreementEvent(fin.events[j], core.c.agreement.value);
    }
  }

  /** An agreement formed by an acceptance rests on both acceptances. */
  lemma AgreementFormed(before: Core, packet: Packet, now: Instant, outgoing: bool, fin: Core)
    requires packet.kind.Accept? && ApplyCore(before, packet, now, outgoing).Done?
    requires fin.c == ApplyCore(before, packet, now, outgoing).value.c && before.c.agreement.None? && fin.c.agreement.Some?
    requires PartiesDistinct(fin.c) && EventsPlaced(fin) && CursorsFit(fin) && ConsentsBacked(fin)
    ensures AgreementFits(fin) && AgreementReceived(fin)
  {
    ApplyConsents(before, packet, now, outgoing);
    ApplyFrame(before, packet, now, outgoing);
    ApplyTouches(before, packet, now, outgoing);
    var c := before.c.(acceptances := fin.c.acceptances);
    assert ReadyToForm(c, now);
    FormedEvidence(fin, c, now);
  }

  /** An agreement recorded from an event of the initiator passed the checks. */
  lemma AgreementTaken(before: Core, packet: Packet, now: Instant, outgoing: bool, k: Key, fin: Core)
    requires packet.kind.Agree? && ApplyCore(before, packet, now, outgoing).Done?
    requires fin.c == ApplyCore(before, packet, now, outgoing).value.c && before.c.agreement.None? && fin.c.agreement.Some?
    requires PartiesDistinct(before.c) && SameRecords(before, k, fin) && k in fin.events && fin.events[k].packet == packet
    requires fin.events[k].outgoing == outgoing && (outgoing <==> packet.sender == before.c.local)
    ensures AgreementFits(fin) && AgreementReceived(fin)
  {
    CheckedRefs(before, packet.payload.agreement.formation);
    EvidenceKept(before, fin, packet.payload.agreement.formation);
    assert IsAgreementEvent(fin.events[k], fin.c.agreement.value) || fin.c.initiator == fin.c.local;
  }

  lemma AppliesKeepsAgreement(core: Core, k: Key, now: Instant, outgoing: bool, fin: Core)
    requires EventsPlaced(core) && CursorsFit(core) && PartiesDistinct(core.c)
    requires AgreementFits(core) && AgreementReceived(core)
    requires Applies(core, k, now, outgoing, fin)
    requires EventsPlaced(fin) && CursorsFit(fin) && ConsentsBacked(fin)
    ensures AgreementFits(fin) && AgreementReceived(fin)
  {
    var packet := core.events[k].packet;
    var before := Before(core, packet, outgoing);
    AppliesFrame(core, k, now, outgoing, fin);
    assert Placed(core.c, k, core.events[k]);
    ApplyTouches(before, packet, now, outgoing);
    AppliedFacts(core, k, now, outgoing, fin);
    if core.c.agreement.Some? {
      AgreementStays(core, k, fin);
    } else if fin.c.agreement.Some? {
      if packet.kind.Accept? {
        AgreementFormed(before, packet, now, outgoing, fin);
      } else {
        AgreementTaken(before, packet, now, outgoing, k, fin);
      }
    }
  }

  /** The facts after an event are the reducer's; an incoming event had moved the cursor. */
  lemma AppliedFacts(core: Core, k: Key, now: Instant, outgoing: bool, fin: Core)
    requires Applies(core, k, now, outgoing, fin) && (outgoing || !IsSync(core.events[k].packet.kind))
    ensures fin.c == ApplyCore(Before(core, core.events[k].packet, outgoing), core.events[k].packet, now, outgoing).value.c
  {
    ApplyFrame(Before(core, core.events[k].packet, outgoing), core.events[k].packet, now, outgoing);
  }

  /** An applied proposal is the initiator's next version of the current terms. */
  lemma ApplyProposal(core: Core, packet: Packet, now: Instant, outgoing: bool)
    requires packet.kind.Proposal? && ApplyCore(core, packet, now, outgoing).Done?
    ensures packet.sender == core.c.initiator && packet.payload.TermsBody?
    ensures packet.payload.parent == CurrentDigest(core.c)
    ensures packet.payload.terms.version == if core.c.terms.Some? then core.c.terms.value.version + 1 else 1
    ensures ApplyCore(core, packet, now, outgoing).value.c.terms == Some(packet.payload.terms)
  {
  }

  lemma HistoryExtended(core: Core, k: Key, fin: Core, h: seq<Packet>)
    requires SameRecords(core, k, fin) && SameParties(core.c, fin.c) && k in core.events
    requires IsHistory(core, h) && k == KeyOf(core.events[k].packet)
    requires var p := core.events[k].packet;
      if p.kind.Proposal? then
        && p.sender == core.c.initiator && p.payload.TermsBody? && p.payload.parent == CurrentDigest(core.c)
        && p.payload.terms.version == (if core.c.terms.Some? then core.c.terms.value.version + 1 else 1)
        && fin.c.terms == Some(p.payload.terms)
      else fin.c.terms == core.c.terms
    ensures HasHistory(fin)
  {
    var p := core.events[k].packet;
    var h' := if p.kind.Proposal? then h + [p] else h;
    forall i | 0 <= i < |h'| ensures IsProposal(fin.events, h'[i]) {
      if i < |h| {
        assert h'[i] == h[i] && IsProposal(core.events, h[i]);
      }
    }
    forall j | AppliedAt(fin.events, j) && fin.events[j].packet.kind.Proposal?
      ensures fin.events[j].packet in h'
    {
      if j != k {
        assert AppliedAt(core.events, j);
      }
    }
    forall i | 0 <= i < |h'| ensures Succeeds(fin.c, h', i) {
      if i < |h| {
        assert Succeeds(core.c, h, i) && h'[i] == h[i] && (i > 0 ==> h'[i-1] == h[i-1]);
      } else if h != [] {
        assert Succeeds(core.c, h, |h| - 1) && h'[i-1] == h[|h|-1];
      }
    }
    assert IsHistory(fin, h');
  }

  lemma AppliesKeepsHistory(core: Core, k: Key, now: Instant, outgoing: bool, fin: Core)
    requires EventsPlaced(core) && CursorsFit(core)
    requires HasHistory(core) && Applies(core, k, now, outgoing, fin)
    ensures HasHistory(fin)
  {
    var packet := core.events[k].packet;
    var before := Before(core, packet, outgoing);
    AppliesFrame(core, k, now, outgoing, fin);
    assert Placed(core.c, k, core.events[k]);
    ApplyTouches(before, packet, now, outgoing);
    if packet.kind.Proposal? {
      ApplyProposal(before, packet, now, outgoing);
    }
    var h :| IsHistory(core, h);
    HistoryExtended(core, k, fin, h);
  }

  lemma AcceptKnownKept(core: Core, fin: Core, k: Key)
    requires k in core.events && k in fin.events && fin.events[k].packet == core.events[k].packet
    requires AcceptKnown(core.events, k)
    requires forall j :: AppliedAt(core.events, j) ==> AppliedAt(fin.events, j) && fin.events[j].packet == core.events[j].packet
    ensures AcceptKnown(fin.events, k)
  {
    var p :| IsProposal(core.events, p) && core.events[k].packet.payload.accepted == DigestOf(p.payload.terms);
    assert IsProposal(fin.events, p);
  }

  lemma AppliesKeepsAccepts(core: Core, k: Key, now: Instant, outgoing: bool, fin: Core)
    requires EventsPlaced(core) && CursorsFit(core) && HasHistory(core) && AcceptsKnown(core)
    requires Applies(core, k, now, outgoing, fin)
    ensures AcceptsKnown(fin)
  {
    var packet := core.events[k].packet;
    AppliesFrame(core, k, now, outgoing, fin);
    assert Placed(core.c, k, core.events[k]);
    ApplyConsents(Before(core, packet, outgoing), packet, now, outgoing);
    forall j | AppliedAt(fin.events, j) && fin.events[j].packet.kind.Accept? ensures AcceptKnown(fin.events, j) {
      if j == k {
        var h :| IsHistory(core, h);
        assert IsProposal(core.events, h[|h|-1]);
        assert IsProposal(fin.events, h[|h|-1]);
      } else {
        AcceptKnownKept(core, fin, j);
      }
    }
  }

  lemma AppliesKeepsSound(core: Core, k: Key, now: Instant, outgoing: bool, fin: Core)
    requires Sound(core) && Applies(core, k, now, outgoing, fin)
    ensures Sound(fin)
  {
    AppliesFrame(core, k, now, outgoing, fin);
    AppliesKeepsStream(core, k, now, outgoing, fin);
    AppliesKeepsConsents(core, k, now, outgoing, fin);
    AppliesKeepsWithdrawals(core, k, now, outgoing, fin);
    AppliesKeepsAgreement(core, k, now, outgoing, fin);
    AppliesKeepsHistory(core, k, now, outgoing, fin);
    AppliesKeepsAccepts(core, k, now, outgoing, fin);
  }
}
