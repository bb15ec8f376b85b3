/** The store of one bound collaboration, updated in place: every transaction has the
    effect that its specification function gives, and a failed one is rolled back. */
module CollabStore {
  import opened Basics
  import opened CollabTypes
  import opened CollabReducer
  import Inbox = CollabInbox
  import Outbox = CollabOutbox
  import opened CollabInvariant
  import opened CollabSteps
  import opened CollabStall

  /** How an iteration of the drain ends. */
  datatype Signal = Halted | Going | Failed

  lemma OwnFromUnfolds(core: Core, n: int)
    requires 1 <= n <= MAX_EVENTS
    ensures Inbox.OwnFrom(core, n) ==
      if Inbox.HasSlot(core.events, core.c.local, n)
         && Inbox.OwnApplied(core, core.events[Inbox.SlotKey(core.events, core.c.local, n)].packet)
      then [core.events[Inbox.SlotKey(core.events, core.c.local, n)].packet] + Inbox.OwnFrom(core, n + 1)
      else Inbox.OwnFrom(core, n + 1)
  {
  }

  lemma Regroup(a: seq<Packet>, p: Packet, b: seq<Packet>)
    ensures a + ([p] + b) == (a + [p]) + b
  {
  }

  /** One iteration of the loop of the drain. */
  lemma LoopUnfolds(e: Inbox.Endpoint, now: Instant, fuel: nat)
    requires fuel > 0
    ensures Inbox.DrainLoop(e, now, fuel) ==
      match Inbox.DrainStep(e, now)
      case Stop(f) => Some(f)
      case Go(f) => Inbox.DrainLoop(f, now, fuel - 1)
      case Abort => None
  {
    assert Inbox.StepAt(now)(e) == Inbox.DrainStep(e, now);
  }

  lemma ValidPieces(e: Inbox.Endpoint)
    requires Valid(e)
    ensures EventsPlaced(e.core) && CursorsFit(e.core) && SlotsUnique(e.core.events)
  {
  }

  lemma StepValid(e: Inbox.Endpoint, now: Instant)
    requires Valid(e) && !Inbox.DrainStep(e, now).Abort?
    ensures Valid(Inbox.DrainStep(e, now).e)
  {
    StepKeeps(e, now);
  }

  /** Events keep their places while one of them is applied. */
  lemma ReduceSlots(core: Core, packet: Packet, now: Instant, outgoing: bool)
    requires SlotsUnique(core.events) && ApplyCore(core, packet, now, outgoing).Done?
    requires IsSync(packet.kind) && !outgoing ==> Sound(core) && FromPeer(core.c, packet)
    ensures SlotsUnique(ApplyCore(core, packet, now, outgoing).value.events)
  {
    if IsSync(packet.kind) && !outgoing {
      SyncApplies(core, packet, now);
    } else {
      ApplyFrame(core, packet, now, outgoing);
      var next := ApplyCore(core, packet, now, outgoing).value;
      forall k1, k2 | k1 in next.events && k2 in next.events && SameSlot(next.events[k1].packet, next.events[k2].packet)
        ensures k1 == k2
      {
        assert SameSlot(core.events[k1].packet, core.events[k2].packet);
      }
    }
  }

  lemma MarkSlots(core: Core, k: Key, status: Status)
    requires SlotsUnique(core.events)
    ensures SlotsUnique(Inbox.Mark(core, k, status).events)
  {
    var next := Inbox.Mark(core, k, status);
    forall k1, k2 | k1 in next.events && k2 in next.events && SameSlot(next.events[k1].packet, next.events[k2].packet)
      ensures k1 == k2
    {
      assert SameSlot(core.events[k1].packet, core.events[k2].packet);
    }
  }

  /** The reply to an ordered event does not depend on the event's own status. */
  lemma ReplyUnmarked(e: Inbox.Endpoint, f: Inbox.Endpoint, before: Collab, packet: Packet, now: Instant)
    requires !IsSync(packet.kind) && f == e.(core := e.core.(events := f.core.events))
    ensures Inbox.Reply(f, before, packet, now, false) ==
      match Inbox.Reply(e, before, packet, now, false)
      case Go(g) => Inbox.Go(g.(core := f.core))
      case other => other
  {
    var kind := Inbox.ReplyTo(before, e.core.c, packet, false);
    if kind.Some? {
      assert Inbox.TemplatePayload(e.core, kind.value, None) == Inbox.TemplatePayload(f.core, kind.value, None);
    }
  }

  /** The event leaves the stream with a final status, and is acknowledged where asked. */
  ghost function Settled(e: Inbox.Endpoint, key: Key, status: Status, receipted: bool, now: Instant): Inbox.Step
    requires key in e.core.events
  {
    var packet := e.core.events[key].packet;
    var f := e.(core := Inbox.Decide(e.core, key, status));
    if receipted then Inbox.Receipted(f, packet, now) else Inbox.Go(f)
  }

  /** The drain's step at a stored next event, case by case. */
  lemma StepCases(e: Inbox.Endpoint, key: Key, now: Instant)
    requires Inbox.HasSlot(e.core.events, e.core.c.peer, e.core.c.inSeq + 1)
    requires key == Inbox.SlotKey(e.core.events, e.core.c.peer, e.core.c.inSeq + 1)
    ensures var r := e.core.events[key];
      var review := Inbox.ReviewOf(e.reviews, r.packet);
      var applied := ApplyCore(e.core.(c := Inbox.Advance(e.core.c, r.packet)), r.packet, now, false);
      var step := Inbox.DrainStep(e, now);
      if r.packet.previous != e.core.c.lastIn then step == Inbox.Stop(e.(view := View(Reconciling, ChainConflict)))
      else if !r.status.Buffered? then step == Settled(e, key, r.status, !Inbox.Unreceipted(r.packet.kind), now)
      else if NeedsReview(r.packet.kind) && review.Pending? then step == Inbox.Stop(e.(view := e.view.(waiting := PeerReview)))
      else if NeedsReview(r.packet.kind) && review.Declined? then step == Settled(e, key, Rejected, false, now)
      else if r.packet.expiresAt <= now && !r.packet.kind.Agree? then step == Settled(e, key, Rejected, true, now)
      else if applied.Missing? then step == Inbox.Stop(e.(view := View(Reconciling, MissingEvent)))
      else if applied.Invalid? then step == Settled(e, key, Rejected, !Inbox.Unreceipted(r.packet.kind), now)
      else && Inbox.NextTurn(e.core, e.reviews, now).Take? && Inbox.NextTurn(e.core, e.reviews, now).key == key
           && Inbox.NextTurn(e.core, e.reviews, now).reason.WasApplied?
  {
    var r := e.core.events[key];
    if !r.status.Buffered? {
      assert e.core.events == e.core.events[key := r.(status := r.status)];
    }
  }

  /** Applying the next event in place, reply included, and marking it afterwards is the
      step that the drain specifies. */
  lemma AppliedStep(e: Inbox.Endpoint, key: Key, now: Instant)
    requires EventsPlaced(e.core) && CursorsFit(e.core) && SlotsUnique(e.core.events)
    requires key in e.core.events && Inbox.NextTurn(e.core, e.reviews, now).Take?
    requires Inbox.NextTurn(e.core, e.reviews, now).key == key && Inbox.NextTurn(e.core, e.reviews, now).reason.WasApplied?
    ensures var packet := e.core.events[key].packet;
      var r := Inbox.Apply(e.(core := e.core.(c := Inbox.Advance(e.core.c, packet))), packet, now, false);
      && r.Done? && key in r.value.core.events && SlotsUnique(Inbox.Mark(r.value.core, key, Applied).events)
      && r.value.core.events[key].packet == packet
      && Inbox.DrainStep(e, now) ==
           Settled(r.value, key, Applied, !Inbox.Unreceipted(packet.kind), now)
  {
    var packet := e.core.events[key].packet;
    var advanced := e.core.(c := Inbox.Advance(e.core.c, packet));
    TurnCases(e.core, e.reviews, now);
    assert Placed(e.core.c, key, e.core.events[key]);
    ApplyFrame(advanced, packet, now, false);
    ReduceSlots(advanced, packet, now, false);
    var after := ApplyCore(advanced, packet, now, false).value;
    MarkSlots(after, key, Applied);
    var fin := Inbox.NextTurn(e.core, e.reviews, now).core;
    AppliedReplies(e.core, key, now, fin);
    assert fin == Inbox.Mark(after, key, Applied) && fin.c == after.c;
    ViewSame(e, key, advanced, after, fin, packet, now);
  }

  lemma ViewSame(e: Inbox.Endpoint, key: Key, advanced: Core, after: Core, fin: Core, packet: Packet, now: Instant)
    requires key in e.core.events && e.core.events[key].packet == packet && !IsSync(packet.kind)
    requires advanced == e.core.(c := Inbox.Advance(e.core.c, packet)) && ApplyCore(advanced, packet, now, false) == Done(after)
    requires key in after.events && after.events[key].packet == packet && after.c == Inbox.Advance(after.c, packet)
    requires fin == Inbox.Mark(after, key, Applied)
    requires Inbox.NextTurn(e.core, e.reviews, now) == Inbox.Take(key, fin, Inbox.WasApplied)
    requires var kind := Inbox.ReplyTo(e.core.c, fin.c, packet, false);
      kind.Some? ==> Inbox.TemplatePayload(fin, kind.value, None).Some?
    ensures var r := Inbox.Apply(e.(core := advanced), packet, now, false);
      && r.Done? && r.value.core == after
      && Inbox.DrainStep(e, now) ==
           Settled(r.value, key, Applied, !Inbox.Unreceipted(packet.kind), now)
  {
    var view := Inbox.ViewAfter(e.view, e.core, fin, packet, false);
    assert view == Inbox.ViewAfter(e.view, advanced, after, packet, false);
    var marked, unmarked := e.(core := fin, view := view), e.(core := after, view := view);
    ReplyUnmarked(unmarked, marked, e.core.c, packet, now);
    ReplyGoes(marked, e.core.c, packet, now);
    assert Inbox.Reply(unmarked, advanced.c, packet, now, false) == Inbox.Reply(unmarked, e.core.c, packet, now, false);
  }

  class Store {
    var c: Collab
    var events: map<Key, Record>
    var view: View
    var ops: map<OpId, Operation>
    var reviews: map<Packet, Review>
    var blocked: bool
    var task: Task

    /** A store holds what the opening transaction created. */
    constructor (e: Inbox.Endpoint)
      ensures State() == e
    {
      c, events, view, ops := e.core.c, e.core.events, e.view, e.ops;
      reviews, blocked, task := e.reviews, e.blocked, e.task;
    }

    function Facts(): Core
      reads this
    {
      Core(c, events)
    }

    function State(): Inbox.Endpoint
      reads this
    {
      Inbox.Endpoint(Facts(), view, ops, reviews, blocked, task)
    }

    /** Roll back to a savepoint. */
    method Restore(e: Inbox.Endpoint)
      modifies this
      ensures State() == e
    {
      c, events, view, ops := e.core.c, e.core.events, e.view, e.ops;
      reviews, blocked, task := e.reviews, e.blocked, e.task;
    }

    method FindSlot(sender: Urn, n: int) returns (found: Option<Key>)
      requires SlotsUnique(events) && n > 0
      ensures found.Some? <==> Inbox.HasSlot(events, sender, n)
      ensures found.Some? ==> found.value == Inbox.SlotKey(events, sender, n)
    {
      var left := events.Keys;
      while left != {}
        invariant left <= events.Keys
        invariant forall k :: k in events && Inbox.InSlot(events, k, sender, n) ==> k in left
        decreases |left|
      {
        var k :| k in left;
        if Inbox.InSlot(events, k, sender, n) {
          ghost var j := Inbox.SlotKey(events, sender, n);
          assert SameSlot(events[j].packet, events[k].packet);
          return Some(k);
        }
        left := left - {k};
      }
      found := None;
    }

    // ---- Templated replies ----

    /** The own applied events after a number, by increasing number. */
    method OwnEventsAfter(after: nat) returns (r: seq<Packet>)
      requires SlotsUnique(events)
      ensures r == Inbox.OwnFrom(Facts(), after + 1)
    {
      r := [];
      var n := after + 1;
      while n <= MAX_EVENTS
        invariant n >= after + 1
        invariant r + Inbox.OwnFrom(Facts(), n) == Inbox.OwnFrom(Facts(), after + 1)
        decreases MAX_EVENTS - n
      {
        var k := FindSlot(c.local, n);
        OwnFromUnfolds(Facts(), n);
        if k.Some? && Inbox.OwnApplied(Facts(), events[k.value].packet) {
          Regroup(r, events[k.value].packet, Inbox.OwnFrom(Facts(), n + 1));
          r := r + [events[k.value].packet];
        }
        n := n + 1;
      }
    }

    method Template(kind: Kind, about: Option<EventId>) returns (r: Option<Payload>)
      requires SlotsUnique(events)
      ensures r == Inbox.TemplatePayload(Facts(), kind, about)
    {
      r := None;
      match kind {
        case Agree =>
          if c.agreement.Some? && c.initiator == c.local {
            r := Some(AgreementBody(c.agreement.value));
          }
        case AgreementAck =>
          if c.agreement.Some? {
            r := Some(AgreementNameBody(c.agreement.value.id));
          }
        case Receipt =>
          if about.Some? && Key(c.peer, about.value) in events {
            var record := events[Key(c.peer, about.value)];
            if !record.packet.kind.Receipt? && !record.packet.kind.SyncResponse? {
              r := Some(ReceiptBody(about.value, EventDigestOf(record.packet), Inbox.ReportOf(record.status)));
            }
          }
        case SyncRequest => r := Some(AfterBody(c.inSeq));
        case SyncResponse =>
          var past := OwnEventsAfter(if c.syncAfter < 0 then 0 else c.syncAfter);
          r := Some(HistoryBody(if |past| <= 8 then past else past[..8]));
        case _ =>
      }
    }

    method Queue(kind: Kind, about: Option<EventId>, now: Instant) returns (ok: bool)
      requires SlotsUnique(events)
      modifies this`view, this`ops
      ensures ok <==> Inbox.Queue(old(State()), kind, about, now).Some?
      ensures ok ==> State() == Inbox.Queue(old(State()), kind, about, now).value
    {
      ok := true;
      if !PermitOpen(c, now) {
        view := view.(waiting := PermitMissing);
        return;
      }
      var payload := Template(kind, about);
      if payload.None? {
        return false;
      }
      var id := AutoOp(kind, payload.value);
      if id in ops {
        return;
      }
      var pending := set i | i in ops && ops[i].maintenance && ops[i].status in {Ready, Sending};
      assert pending == Inbox.MaintenanceWith(ops, {Ready, Sending});
      if |pending| + c.permit.value.used >= c.permit.value.maxEvents {
        view := view.(waiting := PermitSpent);
        return;
      }
      ops := ops[id := Operation(kind, payload.value, false, task.revision, ContextOf(c), Ready, false, false,
                                 c.permit.value.until, true, false, false, false, None, None)];
    }

    // ---- The reducer in place; after a failure the facts may be half changed ----

    method CheckAcceptances(f: Formation) returns (r: Check)
      ensures r == CheckRefs(Facts(), f, f.acceptances, {})
    {
      var seen: set<Urn> := {};
      var i := 0;
      while i < |f.acceptances|
        invariant i <= |f.acceptances|
        invariant CheckRefs(Facts(), f, f.acceptances[i..], seen) == CheckRefs(Facts(), f, f.acceptances, {})
      {
        var ref := f.acceptances[i];
        r := CheckRef(Facts(), f, ref, seen);
        if !r.Pass? {
          return;
        }
        seen := seen + {ref.actor};
        i := i + 1;
      }
      r := Pass;
    }

    /** The coordinator forms the agreement as soon as both parties accept the terms. */
    method Form(now: Instant) returns (formed: bool)
      modifies this`c, this`view
      ensures formed == ReadyToForm(old(c), now)
      ensures c == CollabReducer.Form(old(c), now)
      ensures view == if formed then View(Agreed, AgreementSync) else old(view)
    {
      formed := false;
      if c.initiator != c.local || c.agreement.Some? || c.terms.None? {
        return;
      }
      if c.acceptances.Keys != {c.local, c.peer} {
        return;
      }
      var mine, theirs := c.acceptances[c.local], c.acceptances[c.peer];
      var goal := DigestOf(c.terms.value);
      if !(mine.active && mine.validUntil > now && mine.accepted == goal)
         || !(theirs.active && theirs.validUntil > now && theirs.accepted == goal) {
        return;
      }
      var refs := if c.local < c.peer then [RefOf(c, c.local), RefOf(c, c.peer)]
                  else [RefOf(c, c.peer), RefOf(c, c.local)];
      var f := Formation(goal, now, refs, c.outSeq, c.inSeq);
      c := c.(agreement := Some(AgreementFor(c.id, f)));
      view := View(Agreed, AgreementSync);
      formed := true;
    }

    method RecordAgreement(packet: Packet, now: Instant, outgoing: bool) returns (r: Check)
      requires packet.kind.Agree?
      modifies this`c, this`view
      ensures match ApplyAgreement(old(Facts()), packet, now, outgoing)
              case Done(d) => r.Pass? && c == d && view == Inbox.ViewAfter(old(view), old(Facts()), Facts(), packet, outgoing)
              case Missing => r.NotYet?
              case Invalid => r.Never?
    {
      var p := packet.payload;
      if !p.AgreementBody? || packet.sender != c.initiator {
        return Never;
      }
      var g := p.agreement;
      var f := g.formation;
      if c.agreement.Some? && c.agreement.value != g {
        return Never;
      }
      if c.agreement == Some(g) && c.closure.Cancelled? {
        return Pass;
      }
      if c.terms.None? || DigestOf(c.terms.value) != f.termsDigest {
        return NotYet;
      }
      if |f.acceptances| != 2 || !(1 <= f.initiatorSequence <= MAX_EVENTS && 1 <= f.peerSequence <= MAX_EVENTS) {
        return Never;
      }
      if (f.initiatorSequence >= packet.sequence && !outgoing) || f.formedAt > packet.createdAt || f.formedAt > now + 60 {
        return Never;
      }
      r := CheckAcceptances(f);
      if r.Pass? {
        c := c.(agreement := Some(g));
        view := View(Agreed, AgreementAckDue);
      }
    }

    method RecordAccept(packet: Packet, now: Instant) returns (ok: bool)
      requires packet.kind.Accept? && c.agreement.None?
      modifies this`c, this`view
      ensures if ok then ApplyAccept(old(c), packet, now).Done? else ApplyAccept(old(c), packet, now).Invalid?
      ensures ok ==> c == ApplyAccept(old(c), packet, now).value
      ensures ok ==> view == Inbox.ViewAfter(old(view), old(Facts()), Facts(), packet, false)
    {
      var p := packet.payload;
      if !p.AcceptBody? || !p.supportedBasis || p.validUntil <= now {
        return false;
      }
      if packet.sender in c.acceptances {
        var previous := c.acceptances[packet.sender];
        if previous.active && previous.eventId != packet.eventId {
          return false;
        }
      }
      var consent := Consent(p.accepted, p.actor, p.validUntil, packet.eventId, EventDigestOf(packet), true);
      c := c.(acceptances := c.acceptances[packet.sender := consent]);
      view := view.(phase := PartiallyAccepted);
      var formed := Form(now);
      ok := true;
    }

    method RecordWithdraw(packet: Packet) returns (ok: bool)
      requires packet.kind.Withdraw?
      modifies this`c, this`view
      ensures if ok then ApplyWithdraw(old(c), packet).Done? else ApplyWithdraw(old(c), packet).Invalid?
      ensures ok ==> c == ApplyWithdraw(old(c), packet).value
      ensures ok ==> view == Inbox.ViewAfter(old(view), old(Facts()), Facts(), packet, false)
    {
      var p := packet.payload;
      if !p.WithdrawBody? || packet.sender !in c.acceptances {
        return false;
      }
      var consent := c.acceptances[packet.sender];
      if consent.eventId != p.acceptEventId || consent.accepted != p.withdrawn {
        return false;
      }
      view := View(Reconciling, WithdrawalDecision);
      c := c.(withdrawPending := true);
      if c.agreement.None? {
        c := c.(acceptances := c.acceptances[packet.sender := consent.(active := false)]);
        if c.initiator == c.local {
          c := c.(withdrawPending := false);
          view := view.(waiting := NotWaiting);
        }
      }
      ok := true;
    }

    method RecordReceipt(packet: Packet, outgoing: bool) returns (ok: bool)
      requires packet.kind.Receipt?
      modifies this`c, this`view, this`events
      ensures if ok then ApplyReceipt(old(Facts()), packet, outgoing).Done? else ApplyReceipt(old(Facts()), packet, outgoing).Invalid?
      ensures ok ==> Facts() == ApplyReceipt(old(Facts()), packet, outgoing).value
      ensures ok ==> view == Inbox.ViewAfter(old(view), old(Facts()), Facts(), packet, outgoing)
    {
      var p := packet.payload;
      if !p.ReceiptBody? || p.report.ReportsOther? {
        return false;
      }
      var key := Key(packet.recipient, p.eventId);
      if key !in events || EventDigestOf(events[key].packet) != p.eventDigest {
        return false;
      }
      ok := true;
      if !outgoing {
        var kind := events[key].packet.kind;
        events := events[key := events[key].(receipt := Some(p))];
        if kind.Withdraw? && p.report.ReportsApplied? && c.agreement.None? {
          c := c.(withdrawPending := false);
          view := View(Negotiating, NotWaiting);
        }
        if kind.AgreementAck? && p.report.ReportsApplied? && !c.closure.Cancelled? {
          c := c.(synced := true, closure := Complete);
          view := View(Closed, NotWaiting);
        }
      }
    }

    /** Store an event unless it conflicts with a stored one. */
    method Save(p: Packet, now: Instant) returns (ok: bool)
      modifies this`events
      ensures if ok then Admit(old(Facts()), p, now).Done? else Admit(old(Facts()), p, now).Invalid?
      ensures Facts() == if ok then Admit(old(Facts()), p, now).value else old(Facts())
    {
      var key := KeyOf(p);
      if key in events {
        return events[key].packet == p;
      }
      if SlotTaken(events, p) {
        return false;
      }
      var status := Buffered;
      if p.createdAt > now + 60 {
        status := Rejected;
      } else if p.expiresAt <= now && !p.kind.Agree? && !p.kind.SyncResponse? {
        status := Rejected;
      }
      events := events[key := Record(p, status, false, None)];
      ok := true;
    }

    /** Take the sender's own history out of a recovery response, event by event. */
    method RecordHistory(packet: Packet, now: Instant, outgoing: bool) returns (ok: bool)
      modifies this`events
      ensures if ok then ApplySyncResponse(old(Facts()), packet, now, outgoing).Done? else ApplySyncResponse(old(Facts()), packet, now, outgoing).Invalid?
      ensures ok ==> Facts() == ApplySyncResponse(old(Facts()), packet, now, outgoing).value
    {
      var p := packet.payload;
      if !p.HistoryBody? || |p.events| > 8 {
        return false;
      }
      if outgoing {
        return true;
      }
      if exists i :: 0 <= i < |p.events| && !OwnHistory(c, packet.sender, p.events[i]) {
        return false;
      }
      var i := 0;
      while i < |p.events|
        invariant i <= |p.events|
        invariant AdmitAll(Facts(), p.events[i..], now) == AdmitAll(old(Facts()), p.events, now)
      {
        ok := Save(p.events[i], now);
        if !ok {
          return;
        }
        i := i + 1;
      }
      ok := true;
    }

    /** Apply one event to the facts in place. */
    method Reduce(packet: Packet, now: Instant, outgoing: bool) returns (r: Check)
      modifies this`c, this`view, this`events
      ensures match ApplyCore(old(Facts()), packet, now, outgoing)
              case Done(core) => r.Pass? && Facts() == core
                                 && view == Inbox.ViewAfter(old(view), old(Facts()), core, packet, outgoing)
              case Missing => r.NotYet?
              case Invalid => r.Never?
    {
      var p := packet.payload;
      r := Precondition(c, packet.kind, p, packet.sender);
      if !r.Pass? {
        return;
      }
      var ok := true;
      match packet.kind {
        case Invite => ok := p.OpeningBody? && p.supported;
        case Join =>
          ok := p.OpeningBody? && p.supported && packet.sender != c.initiator && p.topic == c.topic;
          if ok {
            c := c.(joined := true);
            view := view.(phase := Negotiating);
          }
        case Proposal =>
          ok := p.TermsBody? && TermsSupported(c, p.terms) && p.termsDigest == DigestOf(p.terms);
          if ok {
            c := c.(terms := Some(p.terms), acceptances := map[], withdrawPending := false);
            view := view.(phase := Negotiating);
          }
        case ChangeRequest =>
          ok := p.TermsBody? && TermsSupported(c, p.terms) && p.termsDigest == DigestOf(p.terms);
          if ok {
            c := c.(changeRequest := Some(p));
          }
        case Accept => ok := RecordAccept(packet, now);
        case Agree =>
          r := RecordAgreement(packet, now, outgoing);
          return;
        case AgreementAck =>
          if !p.AgreementNameBody? {
            ok := false;
          } else if c.agreement.None? || p.agreementId != c.agreement.value.id {
            return NotYet;
          } else if outgoing {
            view := View(Agreed, AckDelivery);
          } else {
            c := c.(synced := true, closure := Complete);
            view := View(Closed, NotWaiting);
          }
        case Withdraw => ok := RecordWithdraw(packet);
        case CancelRequest =>
          ok := p.AgreementNameBody? && c.agreement.Some? && p.agreementId == c.agreement.value.id;
          if ok {
            c := c.(cancelRequest := Some(CancelNote(packet.sender, packet.eventId)));
            view := View(Reconciling, CancelDecision);
          }
        case CancelAck =>
          ok := p.AgreementNameBody? && c.agreement.Some? && p.agreementId == c.agreement.value.id
                && c.cancelRequest.Some? && c.cancelRequest.value.sender != packet.sender;
          if ok {
            c := c.(closure := Cancelled);
            view := View(Closed, NotWaiting);
          }
        case Receipt => ok := RecordReceipt(packet, outgoing);
        case SyncRequest =>
          ok := p.AfterBody? && 0 <= p.after <= MAX_EVENTS;
          if ok && !outgoing {
            c := c.(syncAfter := p.after);
          }
        case SyncResponse => ok := RecordHistory(packet, now, outgoing);
      }
      r := if ok then Pass else Never;
    }

    /** Apply one event and queue the reply that it asks for. */
    method Apply(packet: Packet, now: Instant, outgoing: bool) returns (r: Check)
      requires SlotsUnique(events)
      requires IsSync(packet.kind) && !outgoing ==> Sound(Facts()) && FromPeer(c, packet)
      modifies this`c, this`view, this`events, this`ops
      ensures r.Pass? <==> Inbox.Apply(old(State()), packet, now, outgoing).Done?
      ensures r.NotYet? <==> Inbox.Apply(old(State()), packet, now, outgoing).Missing?
      ensures r.Pass? ==> State() == Inbox.Apply(old(State()), packet, now, outgoing).value
    {
      var before := c;
      r := Reduce(packet, now, outgoing);
      assert r.NotYet? <==> ApplyCore(old(Facts()), packet, now, outgoing).Missing?;
      if r.Pass? {
        ReduceSlots(old(Facts()), packet, now, outgoing);
        var reply := Inbox.ReplyTo(before, c, packet, outgoing);
        if reply.Some? {
          var ok := Queue(reply.value, None, now);
          r := if ok then Pass else Never;
        }
      }
    }

    // ---- Storing and draining ----

    /** Apply a stored recovery event inside a savepoint. */
    method ApplyRecovery(packet: Packet, now: Instant)
      requires Sound(Facts()) && FromPeer(c, packet) && IsSync(packet.kind) && KeyOf(packet) in events
      modifies this
      ensures State() ==
        match Inbox.Apply(old(State()), packet, now, false)
        case Done(e) => Inbox.SetStatus(e, KeyOf(packet), Applied)
        case _ => Inbox.SetStatus(old(State()), KeyOf(packet), Rejected)
    {
      var key := KeyOf(packet);
      var savepoint := State();
      var r := Apply(packet, now, false);
      var status := Applied;
      if !r.Pass? {
        Restore(savepoint);
        status := Rejected;
      }
      if key in events {
        events := events[key := events[key].(status := status)];
      }
    }

    /** Store an incoming event; a recovery event is applied at once or rejected whole. */
    method IngestBound(packet: Packet, now: Instant) returns (ok: bool)
      requires Valid(State()) && FromPeer(c, packet)
      modifies this
      ensures ok <==> Inbox.IngestBound(old(State()), packet, now).Done?
      ensures ok ==> State() == Inbox.IngestBound(old(State()), packet, now).value
    {
      var known := KeyOf(packet) in events;
      ghost var before := State();
      ok := Save(packet, now);
      if ok && !known && IsSync(packet.kind) && events[KeyOf(packet)].status.Buffered? {
        AdmitKeeps(before.core, packet, now);
        ApplyRecovery(packet, now);
      }
    }

    /** Record the final status of the next event, and acknowledge it where asked. */
    method Settle(key: Key, status: Status, receipted: bool, now: Instant) returns (signal: Signal)
      requires key in events && SlotsUnique(Inbox.Mark(Facts(), key, status).events)
      modifies this`c, this`events, this`view, this`ops
      ensures Signals(signal, Settled(old(State()), key, status, receipted, now))
    {
      var packet := events[key].packet;
      events := events[key := events[key].(status := status)];
      c := c.(inSeq := packet.sequence, lastIn := Some(packet.eventId));
      signal := Going;
      if receipted {
        var ok := Queue(Receipt, Some(packet.eventId), now);
        signal := if ok then Going else Failed;
      }
    }

    /** The signal and the state are those of the specified step; a failed step is undone
        by the caller. */
    ghost predicate Signals(signal: Signal, step: Inbox.Step)
      reads this
    {
      match step
      case Stop(e) => signal.Halted? && State() == e
      case Go(e) => signal.Going? && State() == e
      case Abort => signal.Failed?
    }

    /** Try the next event of the ordered stream. */
    method DrainOnce(now: Instant) returns (signal: Signal)
      requires EventsPlaced(Facts()) && CursorsFit(Facts()) && SlotsUnique(events)
      modifies this
      ensures Signals(signal, Inbox.DrainStep(old(State()), now))
    {
      var slot := FindSlot(c.peer, c.inSeq + 1);
      if slot.None? {
        return Halted;
      }
      var key := slot.value;
      var packet := events[key].packet;
      StepCases(State(), key, now);
      MarkSlots(Facts(), key, Rejected);
      MarkSlots(Facts(), key, events[key].status);
      if packet.previous != c.lastIn {
        view := View(Reconciling, ChainConflict);
        return Halted;
      }
      if !events[key].status.Buffered? {
        signal := Settle(key, events[key].status, !Inbox.Unreceipted(packet.kind), now);
        return;
      }
      if NeedsReview(packet.kind) {
        var review := Inbox.ReviewOf(reviews, packet);
        if review.Pending? {
          view := view.(waiting := PeerReview);
          return Halted;
        }
        if review.Declined? {
          signal := Settle(key, Rejected, false, now);
          return;
        }
      }
      if packet.expiresAt <= now && !packet.kind.Agree? {
        signal := Settle(key, Rejected, true, now);
        return;
      }
      signal := ReduceNext(key, now);
    }

    /** Apply the next event inside a savepoint. */
    method ReduceNext(key: Key, now: Instant) returns (signal: Signal)
      requires EventsPlaced(Facts()) && CursorsFit(Facts()) && SlotsUnique(events)
      requires Inbox.HasSlot(events, c.peer, c.inSeq + 1) && key == Inbox.SlotKey(events, c.peer, c.inSeq + 1)
      requires events[key].packet.previous == c.lastIn && events[key].status.Buffered?
      requires NeedsReview(events[key].packet.kind) ==> Inbox.ReviewOf(reviews, events[key].packet).Approved?
      requires events[key].packet.expiresAt > now || events[key].packet.kind.Agree?
      modifies this
      ensures Signals(signal, Inbox.DrainStep(old(State()), now))
    {
      var packet := events[key].packet;
      var savepoint := State();
      ghost var applied := ApplyCore(Facts().(c := Inbox.Advance(c, packet)), packet, now, false);
      assert !IsSync(packet.kind) by {
        assert Placed(c, key, events[key]);
      }
      StepCases(savepoint, key, now);
      MarkSlots(savepoint.core, key, Rejected);
      if applied.Done? {
        AppliedStep(savepoint, key, now);
      }
      c := c.(inSeq := packet.sequence, lastIn := Some(packet.eventId));
      var r := Apply(packet, now, false);
      match r {
        case NotYet =>
          Restore(savepoint);
          view := View(Reconciling, MissingEvent);
          signal := Halted;
        case Never =>
          Restore(savepoint);
          signal := Settle(key, Rejected, !Inbox.Unreceipted(packet.kind), now);
        case Pass =>
          signal := Settle(key, Applied, !Inbox.Unreceipted(packet.kind), now);
      }
    }

    /** Take events from the stream until none can be taken, at most `MAX_EVENTS` times. */
    method DrainEvents(now: Instant) returns (ok: bool)
      requires Valid(State())
      modifies this
      ensures ok <==> Inbox.DrainLoop(old(State()), now, MAX_EVENTS).Some?
      ensures ok ==> Valid(State()) && Inbox.DrainLoop(old(State()), now, MAX_EVENTS) == Some(State())
    {
      var n: nat := 0;
      ok := true;
      while n < MAX_EVENTS
        invariant n <= MAX_EVENTS && Valid(State()) && ok
        invariant Inbox.DrainLoop(old(State()), now, MAX_EVENTS) == Inbox.DrainLoop(State(), now, MAX_EVENTS - n)
      {
        ghost var before := State();
        ValidPieces(before);
        LoopUnfolds(before, now, MAX_EVENTS - n);
        var signal := DrainOnce(now);
        if signal.Failed? {
          return false;
        }
        StepValid(before, now);
        if signal.Halted? {
          return;
        }
        n := n + 1;
      }
    }

    /** Drain, then ask for what is missing, or show that nothing is. */
    method Drain(now: Instant) returns (ok: bool)
      requires Valid(State())
      modifies this
      ensures ok <==> Inbox.Drain(old(State()), now).Some?
      ensures ok ==> State() == Inbox.Drain(old(State()), now).value
    {
      ok := DrainEvents(now);
      if ok {
        ValidPieces(State());
        ok := Finish(now);
      }
    }

    method Finish(now: Instant) returns (ok: bool)
      requires SlotsUnique(events)
      modifies this`view, this`ops
      ensures ok && Inbox.DrainTail(old(State()), now) == Some(State())
    {
      var gap := exists k :: k in events && events[k].packet.sender == c.peer && events[k].status.Buffered?;
      var reviewing := view.waiting.PeerReview?;
      ok := true;
      if gap && reviewing && !Inbox.SafeContent(State()) {
        return;
      }
      if gap && !c.closure.Cancelled? {
        view := View(Reconciling, MissingEvent);
        ok := Queue(SyncRequest, None, now);
      } else if view.waiting.MissingEvent? || (reviewing && Inbox.SafeContent(State())) {
        if c.agreement.Some? {
          view := if c.synced then View(Closed, NotWaiting) else View(Agreed, AgreementSync);
        } else if c.withdrawPending {
          view := View(Reconciling, WithdrawalDecision);
        } else {
          view := View(if HasActive(c) then PartiallyAccepted else Negotiating, NotWaiting);
        }
      }
    }

    /** Receive one event in one transaction. */
    method IngestRecord(packet: Packet, now: Instant) returns (ok: bool)
      requires Valid(State())
      modifies this
      ensures Valid(State())
      ensures ok <==> Inbox.IngestRecord(old(State()), packet, now).Some?
      ensures State() == if ok then Inbox.IngestRecord(old(State()), packet, now).value else old(State())
    {
      var before := State();
      if !ValidEvent(packet) || packet.sender != c.peer || packet.recipient != c.local || packet.collab != c.id {
        return false;
      }
      ok := IngestBound(packet, now);
      if ok {
        IngestKeeps(before, packet, now);
        ok := Drain(now);
      }
      if ok {
        IngestRecordKeeps(before, packet, now);
      } else {
        Restore(before);
      }
    }

    // ---- Dispatch: reserve the exact packet, then apply and send it ----

    /** Pay for one packet from the budget of its operation. */
    method PayFor(id: OpId, verdict: Verdict, now: Instant) returns (ok: bool)
      requires id in ops
      modifies this`c, this`ops, this`task
      ensures ok <==> Outbox.MayCharge(old(State()), old(ops)[id], verdict, now)
      ensures State() == if ok then Outbox.Charged(old(State()), id) else old(State())
    {
      var op := ops[id];
      if op.maintenance {
        if !PermitLive(c, now) {
          return false;
        }
        c := c.(permit := Some(c.permit.value.(used := c.permit.value.used + 1)));
      } else if op.recoveryOnce {
        if !op.approvedOnce || op.recoveryUsed {
          return false;
        }
        ops := ops[id := op.(recoveryUsed := true)];
      } else {
        if task.usedCount >= task.maxActions {
          return false;
        }
        if op.hasAction && (verdict.MayDeny? || (verdict.MayAsk? && !op.approvedOnce)) {
          return false;
        }
        if !op.hasAction && op.asked && !op.approvedOnce {
          return false;
        }
        task := task.(usedCount := task.usedCount + 1);
      }
      ok := true;
    }

    method Reserve(id: OpId, verdict: Verdict, connected: bool, now: Instant) returns (ok: bool)
      modifies this
      ensures ok <==> Outbox.Reserve(old(State()), id, verdict, connected, now).Some?
      ensures State() == if ok then Outbox.Reserve(old(State()), id, verdict, connected, now).value else old(State())
    {
      if id !in ops || !ops[id].status.Ready? || !Outbox.OperationCurrent(State(), ops[id], now) || !connected {
        return false;
      }
      var packet := Outbox.PacketFor(c, id, ops[id], now);
      if !ValidEvent(packet) {
        return false;
      }
      ok := PayFor(id, verdict, now);
      if !ok {
        return;
      }
      if !IsSync(packet.kind) {
        c := c.(outSeq := packet.sequence, lastOut := Some(packet.eventId));
      }
      events := events[KeyOf(packet) := Record(packet, Status.Reserved, true, None)];
      ops := ops[id := ops[id].(status := Sending, packet := Some(packet))];
    }

    method Submit(id: OpId, stored: bool, connected: bool, now: Instant) returns (ok: bool)
      requires SlotsUnique(events)
      modifies this
      ensures ok <==> Outbox.Submit(old(State()), id, stored, connected, now).Some?
      ensures State() == if ok then Outbox.Submit(old(State()), id, stored, connected, now).value else old(State())
    {
      if id !in ops || !ops[id].status.Sending? || ops[id].packet.None?
         || !Outbox.OperationCurrent(State(), ops[id], now) || !connected {
        return false;
      }
      var packet := ops[id].packet.value;
      var key := KeyOf(packet);
      if key !in events {
        return false;
      }
      if events[key].status.Reserved? {
        var before := State();
        var r := Apply(packet, now, true);
        if !r.Pass? {
          Restore(before);
          return false;
        }
        if key in events {
          events := events[key := events[key].(status := Status.Applied)];
        }
      }
      if stored && id in ops {
        ops := ops[id := ops[id].(status := OpStatus.Accepted)];
      }
      ok := true;
    }
  }
}
