/** What stays in the owner's hands over whole lives and runs: no free text of the peer
    takes effect before the owner approved it, and nothing is sent under a standing permit
    that ended or was taken back. */
module CollabOwner {
  import opened Basics
  import opened CollabTypes
  import opened CollabReducer
  import opened CollabInbox
  import opened CollabOutbox
  import opened CollabInvariant
  import opened CollabSteps
  import opened CollabIncoming
  import opened CollabBudget

  // ---- Reviewed text ----

  predicate Approves(reviews: map<Packet, Review>, p: Packet) {
    p in reviews && reviews[p].Approved?
  }

  /** `k` is an applied event of the peer that carries free text. */
  predicate TextApplied(core: Core, k: Key) {
    && AppliedAt(core.events, k) && !core.events[k].outgoing
    && (core.events[k].packet.kind.Invite? || core.events[k].packet.kind.Proposal? || core.events[k].packet.kind.ChangeRequest?)
  }

  ghost predicate TextReviewed(core: Core, reviews: map<Packet, Review>) {
    forall k :: TextApplied(core, k) ==> Approves(reviews, core.events[k].packet)
  }

  /** What has been decided about a text stays decided. */
  ghost predicate ReviewsKept(reviews: map<Packet, Review>, next: map<Packet, Review>) {
    forall p :: p in reviews && !reviews[p].Pending? ==> p in next && next[p] == reviews[p]
  }

  /** No text of the peer is applied that was not before. */
  ghost predicate NoText(core: Core, next: Core) {
    forall k :: TextApplied(next, k) ==> TextApplied(core, k) && next.events[k].packet == core.events[k].packet
  }

  lemma ReviewedKept(core: Core, next: Core, reviews: map<Packet, Review>, more: map<Packet, Review>)
    requires TextReviewed(core, reviews) && NoText(core, next) && ReviewsKept(reviews, more)
    ensures TextReviewed(next, more)
  {
  }

  /** A text is applied only when its review is approved. */
  lemma TurnApproved(core: Core, reviews: map<Packet, Review>, now: Instant)
    requires NextTurn(core, reviews, now).Take? && NextTurn(core, reviews, now).reason.WasApplied?
    ensures var turn := NextTurn(core, reviews, now);
      && turn.key in core.events
      && var p := core.events[turn.key].packet;
         p.kind.Invite? || p.kind.Proposal? || p.kind.ChangeRequest? ==> Approves(reviews, p)
  {
  }

  lemma AppliedReviewed(core: Core, k: Key, fin: Core, reviews: map<Packet, Review>)
    requires TextReviewed(core, reviews) && SameRecords(core, k, fin) && k in core.events
    requires TextApplied(fin, k) ==> Approves(reviews, core.events[k].packet)
    ensures TextReviewed(fin, reviews)
  {
    forall j | TextApplied(fin, j) ensures Approves(reviews, fin.events[j].packet) {
      if j != k {
        assert TextApplied(core, j);
      }
    }
  }

  lemma TurnReviewed(core: Core, reviews: map<Packet, Review>, now: Instant)
    requires Sound(core) && TextReviewed(core, reviews) && NextTurn(core, reviews, now).Take?
    ensures TextReviewed(NextTurn(core, reviews, now).core, reviews)
  {
    var turn := NextTurn(core, reviews, now);
    TurnCases(core, reviews, now);
    if turn.reason.WasApplied? {
      AppliesFrame(core, turn.key, now, false, turn.core);
      TurnApproved(core, reviews, now);
      AppliedReviewed(core, turn.key, turn.core, reviews);
    } else {
      RejectRecords(core, turn.key, turn.core);
      RejectedNoText(core, turn.key, turn.core);
      ReviewedKept(core, turn.core, reviews, reviews);
    }
  }

  lemma RejectedNoText(core: Core, k: Key, fin: Core)
    requires fin.events.Keys == core.events.Keys && k in core.events && fin.events[k].status.Rejected?
    requires forall j :: j in core.events && j != k ==> fin.events[j] == core.events[j]
    ensures NoText(core, fin)
  {
  }

  ghost predicate Reviewed(e: Endpoint) {
    Valid(e) && TextReviewed(e.core, e.reviews)
  }

  lemma StepReviewed(e: Endpoint, now: Instant)
    requires Reviewed(e) && !DrainStep(e, now).Abort?
    ensures Reviewed(DrainStep(e, now).e) && DrainStep(e, now).e.reviews == e.reviews
  {
    StepKeeps(e, now);
    if NextTurn(e.core, e.reviews, now).Take? {
      TakeKeeps(e.core, e.reviews, now);
      TurnReviewed(e.core, e.reviews, now);
    }
    StepOps(e, now);
  }

  lemma DrainReviewed(e: Endpoint, now: Instant)
    requires Reviewed(e) && Drain(e, now).Some?
    ensures Reviewed(Drain(e, now).value) && Drain(e, now).value.reviews == e.reviews
  {
    var step := StepAt(now);
    var inv := (x: Endpoint) => Reviewed(x);
    var rel := (x: Endpoint, y: Endpoint) => y.reviews == x.reviews;
    forall x | inv(x) && !step(x).Abort? ensures inv(step(x).e) && rel(x, step(x).e) {
      StepReviewed(x, now);
    }
    LoopInduction(e, step, MAX_EVENTS, DrainLoop(e, now, MAX_EVENTS).value, inv, rel);
    DrainKeeps(e, now);
  }

  lemma StoredNoText(core: Core, next: Core)
    requires SameDecided(core, next) && Incoming(core, next)
    ensures NoText(core, next)
  {
    forall k | TextApplied(next, k) ensures TextApplied(core, k) && next.events[k].packet == core.events[k].packet {
      assert AppliedAt(core.events, k) && FinalKept(core.events[k], next.events[k]);
    }
  }

  lemma IngestReviewed(e: Endpoint, packet: Packet, now: Instant)
    requires Reviewed(e) && IngestRecord(e, packet, now).Some?
    ensures Reviewed(IngestRecord(e, packet, now).value) && IngestRecord(e, packet, now).value.reviews == e.reviews
  {
    var e1 := IngestUnfolds(e, packet, now);
    IngestKeeps(e, packet, now);
    StoredNoText(e.core, e1.core);
    ReviewedKept(e.core, e1.core, e.reviews, e1.reviews);
    DrainReviewed(e1, now);
  }

  lemma ReceiveReviewed(e: Endpoint, a: Arrival)
    requires Reviewed(e)
    ensures Reviewed(Receive(e, a)) && ReviewsKept(e.reviews, Receive(e, a).reviews)
  {
    match a
    case Arrives(packet, now) =>
      if IngestRecord(e, packet, now).Some? {
        IngestReviewed(e, packet, now);
      }
    case Decides(packet, decision, now) =>
      if DecideReview(e, packet, decision, now).Some? {
        var f := e.(reviews := e.reviews[packet := decision]);
        ReviewedKept(e.core, f.core, e.reviews, f.reviews);
        DrainReviewed(f, now);
      }
  }

  lemma SubmitNoText(e: Endpoint, id: OpId, stored: bool, connected: bool, now: Instant)
    requires Valid(e) && Submit(e, id, stored, connected, now).Some?
    ensures var f := Submit(e, id, stored, connected, now).value; NoText(e.core, f.core) && f.reviews == e.reviews
  {
    var p := SubmitUnfolds(e, id, stored, connected, now);
    if e.core.events[KeyOf(p)].status.Reserved? {
      var e2 := Apply(e, p, now, true).value;
      SubmitOps(e, id, p, now, e2);
      OwnNoText(e.core, KeyOf(p), now, Mark(e2.core, KeyOf(p), Status.Applied));
      ApplyReviews(e, p, now, true);
    }
  }

  lemma OwnNoText(core: Core, k: Key, now: Instant, fin: Core)
    requires EventsPlaced(core) && CursorsFit(core) && Applies(core, k, now, true, fin)
    ensures NoText(core, fin)
  {
    AppliesFrame(core, k, now, true, fin);
  }

  lemma ApplyReviews(e: Endpoint, p: Packet, now: Instant, outgoing: bool)
    requires OpsFit(e.core, e.ops) && outgoing && Apply(e, p, now, outgoing).Done?
    ensures Apply(e, p, now, outgoing).value.reviews == e.reviews
  {
    var core := ApplyCore(e.core, p, now, outgoing).value;
    OutgoingFrame(e.core, p, now);
    OpsFitFrom(e.core, core, e.ops);
    ReplyKeeps(e.(core := core, view := ViewAfter(e.view, e.core, core, p, outgoing)), e.core.c, p, now, outgoing);
  }

  lemma ReserveNoText(e: Endpoint, id: OpId, verdict: Verdict, connected: bool, now: Instant)
    requires Valid(e) && Reserve(e, id, verdict, connected, now).Some?
    ensures var f := Reserve(e, id, verdict, connected, now).value; NoText(e.core, f.core) && f.reviews == e.reviews
  {
    var p := ReserveUnfolds(e, id, verdict, connected, now);
  }

  lemma DoReviewed(e: Endpoint, d: Deed)
    requires Reviewed(e)
    ensures Reviewed(Do(e, d)) && ReviewsKept(e.reviews, Do(e, d).reviews)
  {
    DoValid(e, d);
    match d
    case ReservesPacket(id, verdict, connected, now) =>
      if Reserve(e, id, verdict, connected, now).Some? {
        ReserveNoText(e, id, verdict, connected, now);
        ReviewedKept(e.core, Do(e, d).core, e.reviews, Do(e, d).reviews);
      }
    case Submits(id, stored, connected, now) =>
      if Submit(e, id, stored, connected, now).Some? {
        SubmitNoText(e, id, stored, connected, now);
        ReviewedKept(e.core, Do(e, d).core, e.reviews, Do(e, d).reviews);
      }
    case Receives(arrival) => ReceiveReviewed(e, arrival);
    case _ => PlainReviewed(e, d);
  }

  lemma PlainReviewed(e: Endpoint, d: Deed)
    requires TextReviewed(e.core, e.reviews) && !d.ReservesPacket? && !d.Submits? && !d.Receives?
    ensures TextReviewed(Do(e, d).core, Do(e, d).reviews) && ReviewsKept(e.reviews, Do(e, d).reviews)
  {
  }

  lemma OpenReviewed(local: Urn, task: Task, cid: nat, tag: nat, peer: Urn, invitation: Option<Packet>, now: Instant)
    requires Open(local, task, cid, tag, peer, invitation, now).Some?
    ensures Reviewed(Open(local, task, cid, tag, peer, invitation, now).value)
  {
    OpenValid(local, task, cid, tag, peer, invitation, now);
  }

  lemma {:induction false} LifeReviewed(e: Endpoint, deeds: seq<Deed>)
    requires Reviewed(e)
    ensures Reviewed(DoAll(e, deeds)) && ReviewsKept(e.reviews, DoAll(e, deeds).reviews)
    decreases |deeds|
  {
    if deeds == [] {
    } else {
      LifeReviewed(e, deeds[..|deeds|-1]);
      DoReviewed(DoAll(e, deeds[..|deeds|-1]), deeds[|deeds|-1]);
    }
  }

  /** In any life, every invitation, proposal or change request of the peer that has been
      applied was approved by the owner, and no later decision takes that back. */
  lemma ReviewedText(local: Urn, task: Task, cid: nat, tag: nat, peer: Urn, invitation: Option<Packet>, now: Instant,
                     deeds: seq<Deed>, k: Key)
    requires Open(local, task, cid, tag, peer, invitation, now).Some?
    requires TextApplied(DoAll(Open(local, task, cid, tag, peer, invitation, now).value, deeds).core, k)
    ensures var f := DoAll(Open(local, task, cid, tag, peer, invitation, now).value, deeds);
      f.core.events[k].packet in f.reviews && f.reviews[f.core.events[k].packet].Approved?
  {
    OpenReviewed(local, task, cid, tag, peer, invitation, now);
    LifeReviewed(Open(local, task, cid, tag, peer, invitation, now).value, deeds);
  }

  // ---- The standing permit ----

  /** The permit's end and size are fixed, and it is not given back once it was taken. */
  predicate PermitKept(e: Endpoint, f: Endpoint) {
    && e.core.c.permit.Some? && f.core.c.permit.Some?
    && f.core.c.permit.value.until == e.core.c.permit.value.until
    && f.core.c.permit.value.maxEvents == e.core.c.permit.value.maxEvents
    && (e.core.c.permit.value.revoked ==> f.core.c.permit.value.revoked)
  }

  lemma SubmitPermit(e: Endpoint, id: OpId, stored: bool, connected: bool, now: Instant)
    requires Valid(e) && e.core.c.permit.Some? && Submit(e, id, stored, connected, now).Some?
    ensures Submit(e, id, stored, connected, now).value.core.c.permit == e.core.c.permit
  {
    var p := SubmitUnfolds(e, id, stored, connected, now);
    if e.core.events[KeyOf(p)].status.Reserved? {
      ApplyOutgoingOps(e, p, now);
      OutgoingFrame(e.core, p, now);
    }
  }

  lemma ReservePermit(e: Endpoint, id: OpId, verdict: Verdict, connected: bool, now: Instant)
    requires e.core.c.permit.Some? && Reserve(e, id, verdict, connected, now).Some?
    ensures PermitKept(e, Reserve(e, id, verdict, connected, now).value)
  {
  }

  lemma DoPermit(e: Endpoint, d: Deed)
    requires Valid(e) && e.core.c.permit.Some?
    ensures PermitKept(e, Do(e, d)) && (d.Revokes? ==> Do(e, d).core.c.permit.value.revoked)
  {
    match d
    case Submits(id, stored, connected, now) =>
      if Submit(e, id, stored, connected, now).Some? {
        SubmitPermit(e, id, stored, connected, now);
      }
    case Receives(arrival) => ReceiveKeeps(e, arrival);
    case ReservesPacket(id, verdict, connected, now) =>
      if Reserve(e, id, verdict, connected, now).Some? {
        ReservePermit(e, id, verdict, connected, now);
      }
    case _ => PlainPermit(e, d);
  }

  lemma PlainPermit(e: Endpoint, d: Deed)
    requires e.core.c.permit.Some? && !d.Submits? && !d.Receives? && !d.ReservesPacket?
    ensures PermitKept(e, Do(e, d)) && (d.Revokes? ==> Do(e, d).core.c.permit.value.revoked)
  {
  }

  lemma {:induction false} LifePermit(e: Endpoint, deeds: seq<Deed>)
    requires Valid(e) && e.core.c.permit.Some?
    ensures Valid(DoAll(e, deeds)) && PermitKept(e, DoAll(e, deeds))
    decreases |deeds|
  {
    if deeds == [] {
    } else {
      LifePermit(e, deeds[..|deeds|-1]);
      DoValid(DoAll(e, deeds[..|deeds|-1]), deeds[|deeds|-1]);
      DoPermit(DoAll(e, deeds[..|deeds|-1]), deeds[|deeds|-1]);
    }
  }

  /** The kinds that only the permit covers. */
  predicate UnderPermit(kind: Kind) {
    kind.Agree? || kind.AgreementAck? || kind.Receipt? || kind.SyncRequest? || kind.SyncResponse?
  }

  /** In any life: an agreement event, an acknowledgement, a receipt or a recovery event is
      stored or handed over only before the end that the permit was given, which is a day
      after the mandate's end and at most a week after the opening. */
  lemma PermitEnds(local: Urn, task: Task, cid: nat, tag: nat, peer: Urn, invitation: Option<Packet>, at: Instant,
                   deeds: seq<Deed>, id: OpId, verdict: Verdict, stored: bool, connected: bool, now: Instant)
    requires Open(local, task, cid, tag, peer, invitation, at).Some?
    requires var e := DoAll(Open(local, task, cid, tag, peer, invitation, at).value, deeds);
      id in e.ops && UnderPermit(e.ops[id].kind)
      && (Reserve(e, id, verdict, connected, now).Some? || Submit(e, id, stored, connected, now).Some?)
    ensures now < task.expiresAt + 86400 && now < at + 604800
  {
    var e := Open(local, task, cid, tag, peer, invitation, at).value;
    OpenValid(local, task, cid, tag, peer, invitation, at);
    LifePermit(e, deeds);
    var f := DoAll(e, deeds);
    assert OpFits(f.core, id, f.ops[id]);
  }

  /** Once the owner has taken the permit back, none of these is stored or handed over, by
      any later deeds. */
  lemma RevokedForGood(e: Endpoint, deeds: seq<Deed>, id: OpId, verdict: Verdict, stored: bool, connected: bool, now: Instant)
    requires Valid(e) && e.core.c.permit.Some?
    requires var f := DoAll(Revoke(e), deeds); id in f.ops && UnderPermit(f.ops[id].kind)
    ensures var f := DoAll(Revoke(e), deeds);
      Reserve(f, id, verdict, connected, now).None? && Submit(f, id, stored, connected, now).None?
  {
    RevokeKeeps(e);
    LifePermit(Revoke(e), deeds);
    var f := DoAll(Revoke(e), deeds);
    assert OpFits(f.core, id, f.ops[id]);
  }
}
