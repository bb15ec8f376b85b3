/** The mailbox tables updated in place, and the worker's loops over them. */
module MailStore {
  import opened Basics
  import opened MailTypes
  import Ops = MailOps

  /** The repair step accepts this candidate and its transaction commits. */
  predicate Repairable(m: Mail, id: MessageId, policy: Policy, keys: map<Urn, KeyId>) {
    Ops.Schedulable(m, id, policy, keys) && Ops.SaveSkip(m, id, m.outbox[id].envelope.value).Some?
  }

  /** Different identifiers have different texts. */
  ghost predicate Ranked(rank: Ops.Rank) {
    forall a, b :: rank(a) == rank(b) ==> a == b
  }

  class Mailbox {
    const self: Urn
    const rank: Ops.Rank
    var outbox: map<MessageId, Row>
    var repairs: map<MessageId, Repair>
    var sessions: map<Urn, Session>
    var inbox: map<MessageId, Message>
    var skipped: map<MessageId, Tombstone>
    var stored: Option<Policy>
    var engine: Option<Policy>

    constructor (self: Urn, rank: Ops.Rank)
      ensures this.rank == rank && State() == Mail(self, map[], map[], map[], map[], map[], None, None)
    {
      this.self, this.rank := self, rank;
      outbox, repairs, sessions, inbox, skipped := map[], map[], map[], map[], map[];
      stored, engine := None, None;
    }

    function State(): Mail
      reads this
    {
      Mail(self, outbox, repairs, sessions, inbox, skipped, stored, engine)
    }

    // ---- Outgoing rows ----

    method Accept(id: MessageId, request: Request, now: Instant) returns (status: Option<Status>)
      modifies this`outbox
      ensures status.Some? <==> Ops.Accept(old(State()), id, request, now).Some?
      ensures State() == if status.Some? then Ops.Accept(old(State()), id, request, now).value else old(State())
      ensures status.Some? ==> id in outbox && status.value == outbox[id].status
    {
      if id.SkipOf? {
        return None;
      }
      if id !in outbox {
        outbox := outbox[id := Row(request, now, Accepted, 0, 0, NoError, None, 0, 0, false)];
      }
      status := if outbox[id].request == request then Some(outbox[id].status) else None;
    }

    /** The row to handle next: a ready one, repairs first, then the oldest, then by
        identifier. */
    method NextOutgoing(now: Instant) returns (next: Option<MessageId>)
      ensures next.None? ==> forall id :: !Ops.Ready(State(), id, now)
      ensures next.Some? ==> Ops.IsNext(State(), next.value, now)
      ensures next.Some? ==> forall id :: Ops.Ready(State(), id, now) ==> !Ops.Comes(State(), rank, id, next.value)
    {
      next := None;
      var left := outbox.Keys;
      while left != {}
        invariant left <= outbox.Keys
        invariant next.None? ==> forall id :: Ops.Ready(State(), id, now) ==> id in left
        invariant next.Some? ==> Ops.Ready(State(), next.value, now)
        invariant next.Some? ==> forall id ::
          Ops.Ready(State(), id, now) && id !in left ==> !Ops.Comes(State(), rank, id, next.value)
        decreases |left|
      {
        var id :| id in left;
        if outbox[id].status.Accepted? && outbox[id].nextAttempt <= now {
          if next.None? || Ops.Comes(State(), rank, id, next.value) {
            next := Some(id);
          }
        }
        left := left - {id};
      }
    }

    method SaveEnvelope(id: MessageId, peer: Urn, expected: nat, sealed: Envelope, policy: PolicyHash, session: SessionId)
      returns (kept: Option<Envelope>)
      modifies this`outbox, this`sessions
      ensures kept.Some? <==> Ops.SaveEnvelope(old(State()), id, peer, expected, sealed, policy, session).Some?
      ensures State() == if kept.Some? then Ops.SaveEnvelope(old(State()), id, peer, expected, sealed, policy, session).value
                         else old(State())
      ensures kept.Some? ==> id in outbox && outbox[id].envelope == kept
    {
      if id !in outbox {
        return None;
      }
      if outbox[id].envelope.Some? {
        return outbox[id].envelope;
      }
      if peer !in sessions {
        return None;
      }
      var s := sessions[peer];
      if !s.ready || s.id != session || s.policy != policy || s.sendSequence + 1 != expected {
        return None;
      }
      sessions := sessions[peer := s.(sendSequence := expected)];
      outbox := outbox[id := outbox[id].(envelope := Some(sealed), policy := policy, session := session)];
      kept := Some(sealed);
    }

    method Update(id: MessageId, status: Status, error: ErrorText, attempts: nat, receipt: bool, next: Instant)
      modifies this`outbox
      ensures State() == Ops.Update(old(State()), id, status, error, attempts, receipt, next)
    {
      if id in outbox && outbox[id].status.Accepted? {
        var row := outbox[id].(status := status, lastError := error, nextAttempt := next);
        if row.attempts < attempts {
          row := row.(attempts := attempts);
        }
        if receipt {
          row := row.(receipt := true);
        }
        outbox := outbox[id := row];
      }
    }

    method Defer(id: MessageId, next: Instant)
      modifies this`outbox
      ensures State() == Ops.Defer(old(State()), id, next)
    {
      if id in outbox && outbox[id].status.Accepted? {
        outbox := outbox[id := outbox[id].(nextAttempt := next)];
      }
    }

    method Retire() returns (retired: nat)
      modifies this`outbox
      ensures State() == Ops.Retire(old(State()))
      ensures retired == |set id | id in old(outbox) && Ops.Retires(old(outbox)[id])|
    {
      retired := 0;
      var left := outbox.Keys;
      ghost var done: set<MessageId> := {};
      while left != {}
        invariant left <= old(outbox).Keys && outbox.Keys == old(outbox).Keys
        invariant forall id :: id in left ==> outbox[id] == old(outbox)[id]
        invariant forall id :: id in outbox && id !in left ==> outbox[id] == Ops.RetireRow(old(outbox)[id])
        invariant forall id :: id in done <==> id in old(outbox) && id !in left && Ops.Retires(old(outbox)[id])
        invariant retired == |done|
        decreases |left|
      {
        var id :| id in left;
        if Ops.Retires(outbox[id]) {
          outbox := outbox[id := outbox[id].(status := Conflict)];
          retired := retired + 1;
          done := done + {id};
        }
        left := left - {id};
      }
      assert done == set id | id in old(outbox) && Ops.Retires(old(outbox)[id]);
    }

    // ---- Policy ----

    method QuarantineAll()
      modifies this`outbox
      ensures outbox == map id | id in old(outbox) :: Ops.Quarantine(old(outbox)[id])
    {
      var left := outbox.Keys;
      while left != {}
        invariant left <= old(outbox).Keys && outbox.Keys == old(outbox).Keys
        invariant forall id :: id in left ==> outbox[id] == old(outbox)[id]
        invariant forall id :: id in outbox && id !in left ==> outbox[id] == Ops.Quarantine(old(outbox)[id])
        decreases |left|
      {
        var id :| id in left;
        if outbox[id].status.Accepted? {
          outbox := outbox[id := outbox[id].(status := Quarantined)];
        }
        left := left - {id};
      }
    }

    method SavePolicy(policy: Policy) returns (ok: bool)
      modifies this`outbox, this`sessions, this`stored
      ensures ok <==> Ops.SavePolicy(old(State()), policy).Some?
      ensures State() == if ok then Ops.SavePolicy(old(State()), policy).value else old(State())
    {
      if stored.Some? {
        var previous := stored.value;
        if previous.epoch > policy.epoch {
          return false;
        }
        if previous.epoch == policy.epoch {
          return previous.hash == policy.hash;
        }
        QuarantineAll();
        sessions := map[];
      }
      stored := Some(policy);
      ok := true;
    }

    /** The worker adopts a fetched policy only once it is stored. */
    method RefreshPolicy(policy: Policy) returns (ok: bool)
      modifies this`outbox, this`sessions, this`stored, this`engine
      ensures ok <==> Ops.RefreshPolicy(old(State()), policy).Some?
      ensures State() == if ok then Ops.RefreshPolicy(old(State()), policy).value else old(State())
    {
      ok := SavePolicy(policy);
      if ok {
        engine := Some(policy);
      }
    }

    // ---- Handing one row to the platform ----

    method Retry(id: MessageId, attempts: nat, next: Instant)
      modifies this`outbox
      ensures State() == Ops.Retry(old(State()), id, attempts, next)
    {
      Update(id, Accepted, OtherText, attempts + 1, false, next);
    }

    method StartHandshake(id: MessageId, attempts: nat, o: Ops.Outside)
      modifies this`outbox
      ensures State() == Ops.StartHandshake(old(State()), id, attempts, o)
    {
      if o.handshakeFails {
        Retry(id, attempts, o.next);
      } else {
        Defer(id, o.next);
      }
    }

    method HandOver(id: MessageId, e: Envelope, attempts: nat, o: Ops.Outside) returns (handed: Option<Envelope>)
      modifies this`outbox
      ensures Ops.Sent(State(), handed) == Ops.HandOver(old(State()), id, e, attempts, o)
    {
      handed := None;
      if !o.verifies {
        Update(id, Quarantined, OtherText, attempts, false, o.next);
        return;
      }
      handed := Some(e);
      match o.reply {
        case Receipted => Update(id, PlatformQueued, NoError, attempts + 1, true, o.next);
        case Refused(exact) =>
          Update(id, Conflict, if exact then ConflictText else OtherText, attempts + 1, false, o.next);
        case Lost(_) => Retry(id, attempts, o.next);
        case Crashed(_) =>
      }
    }

    /** Handle the next row, if any, under the worker's policy. */
    method DeliverNext(o: Ops.Outside, now: Instant) returns (row: Option<MessageId>, handed: Option<Envelope>)
      requires engine.Some?
      modifies this`outbox, this`sessions
      ensures row.None? ==> State() == old(State()) && handed.None? && forall id :: !Ops.Ready(old(State()), id, now)
      ensures row.Some? ==> Ops.IsNext(old(State()), row.value, now)
      ensures row.Some? ==>
        Ops.Sent(State(), handed) == Ops.Deliver(old(State()), row.value, old(engine).value, o, now)
    {
      handed := None;
      row := NextOutgoing(now);
      if row.None? {
        return;
      }
      var id := row.value;
      var r := outbox[id];
      var policy := engine.value;
      var peer := r.request.recipient;
      if Ops.Overdue(r.request, now) {
        Update(id, Expired, OtherText, r.attempts, false, o.next);
        return;
      }
      if r.envelope.Some? {
        if r.policy != policy.hash {
          Update(id, Quarantined, OtherText, r.attempts, false, o.next);
        } else {
          handed := HandOver(id, r.envelope.value, r.attempts, o);
        }
        return;
      }
      if peer !in sessions || !sessions[peer].ready || sessions[peer].policy != policy.hash {
        StartHandshake(id, r.attempts, o);
        return;
      }
      if o.recipientKey.None? {
        Retry(id, r.attempts, o.next);
        return;
      }
      var s := sessions[peer];
      if s.peerKey != o.recipientKey.value {
        sessions := sessions - {peer};
        StartHandshake(id, r.attempts, o);
        return;
      }
      var e := Envelope(id, self, peer, s.id, s.sendSequence + 1, policy.hash, o.recipientKey.value, Business(r.request.text));
      var kept := SaveEnvelope(id, peer, s.sendSequence + 1, e, policy.hash, s.id);
      // No other worker moves the session, so the commit of the envelope is not refused.
      handed := HandOver(id, kept.value, r.attempts, o);
    }

    // ---- Repairs ----

    method SaveSkip(id: MessageId, e: Envelope) returns (ok: bool)
      modifies this`outbox, this`repairs
      ensures ok <==> Ops.SaveSkip(old(State()), id, e).Some?
      ensures State() == if ok then Ops.SaveSkip(old(State()), id, e).value else old(State())
    {
      if e.sequence == 0 || e.sequence > MAX_SEQUENCE {
        return false;
      }
      if id in repairs {
        if repairs[id] != Repair(SkipOf(e), e, e.session, e.sequence) {
          return false;
        }
        return SkipOf(e) in outbox && outbox[SkipOf(e)].envelope.Some?;
      }
      if id !in outbox {
        return false;
      }
      var r := outbox[id];
      if !r.status.Conflict? || !r.lastError.ConflictText? || r.receipt || r.envelope != Some(e)
         || r.policy != e.policy || r.session != e.session {
        return false;
      }
      if e.recipient !in sessions {
        return false;
      }
      var s := sessions[e.recipient];
      if !s.ready || s.id != e.session || s.policy != e.policy || s.sendSequence <= e.sequence || SkipOf(e) in outbox {
        return false;
      }
      outbox := outbox[SkipOf(e) := Row(Request(e.recipient, 0, None), r.createdAt, Accepted, 0, 0, NoError,
                                        Some(Ops.SkipEnvelope(e)), e.policy, e.session, false)];
      repairs := repairs[id := Repair(SkipOf(e), e, e.session, e.sequence)];
      ok := true;
    }

    method HasLaterReceipt(e: Envelope) returns (later: bool)
      ensures later == Ops.AdmittedLater(State(), e)
    {
      var left := outbox.Keys;
      while left != {}
        invariant left <= outbox.Keys
        invariant forall id :: id in outbox && Ops.Admitted(outbox[id], e) ==> id in left
        decreases |left|
      {
        var id :| id in left;
        if Ops.Admitted(outbox[id], e) {
          return true;
        }
        left := left - {id};
      }
      later := false;
    }

    /** Try one candidate. */
    method ScheduleOne(id: MessageId, policy: Policy, keys: map<Urn, KeyId>) returns (ok: bool)
      requires Ops.Candidate(State(), id)
      modifies this`outbox, this`repairs
      ensures ok <==> Repairable(old(State()), id, policy, keys)
      ensures State() == if ok then Ops.SaveSkip(old(State()), id, old(outbox)[id].envelope.value).value else old(State())
    {
      var r := outbox[id];
      var e := r.envelope.value;
      if e.id != id || r.request.recipient != e.recipient || e.sender != self || e.session != r.session
         || e.policy != r.policy || e.policy != policy.hash || e.sequence == 0 || e.recipient !in sessions {
        return false;
      }
      var s := sessions[e.recipient];
      if !s.ready || s.id != r.session || s.policy != r.policy || s.peerKey != e.key || s.sendSequence <= e.sequence {
        return false;
      }
      var later := HasLaterReceipt(e);
      if !later {
        return false;
      }
      if e.recipient !in keys || keys[e.recipient] != e.key {
        return false;
      }
      ok := SaveSkip(id, e);
    }

    /** The candidate `id` comes after the cursor, which is the candidate tried last. */
    predicate Past(after: Option<MessageId>, id: MessageId)
      reads this
    {
      id in outbox && (after.Some? ==> after.value in outbox && Ops.Older(State(), rank, after.value, id))
    }

    /** The first candidate after the cursor. */
    method NextGapCandidate(after: Option<MessageId>) returns (next: Option<MessageId>)
      ensures next.None? ==> forall id :: Ops.Candidate(State(), id) ==> !Past(after, id)
      ensures next.Some? ==> Ops.Candidate(State(), next.value) && Past(after, next.value)
      ensures next.Some? ==> forall id ::
        Ops.Candidate(State(), id) && Past(after, id) ==> !Ops.Older(State(), rank, id, next.value)
    {
      next := None;
      var left := outbox.Keys;
      while left != {}
        invariant left <= outbox.Keys
        invariant next.None? ==> forall id :: Ops.Candidate(State(), id) && Past(after, id) ==> id in left
        invariant next.Some? ==> Ops.Candidate(State(), next.value) && Past(after, next.value)
        invariant next.Some? ==> forall id ::
          Ops.Candidate(State(), id) && Past(after, id) && id !in left ==> !Ops.Older(State(), rank, id, next.value)
        decreases |left|
      {
        var id :| id in left;
        if Ops.Candidate(State(), id) && Past(after, id) {
          if next.None? || Ops.Older(State(), rank, id, next.value) {
            next := Some(id);
          }
        }
        left := left - {id};
      }
    }

    /** Go through the refused rows in the order of their creation until one repair is
        stored. A row that cannot be repaired does not hold up later ones. */
    method ScheduleSkips(policy: Policy, keys: map<Urn, KeyId>) returns (repaired: Option<MessageId>)
      requires Ranked(rank)
      modifies this`outbox, this`repairs
      ensures repaired.None? ==> State() == old(State()) && forall id :: !Repairable(old(State()), id, policy, keys)
      ensures repaired.Some? ==>
        && Repairable(old(State()), repaired.value, policy, keys)
        && (forall id :: Repairable(old(State()), id, policy, keys) ==> !Ops.Older(old(State()), rank, id, repaired.value))
        && State() == Ops.SaveSkip(old(State()), repaired.value, old(outbox)[repaired.value].envelope.value).value
    {
      var after: Option<MessageId> := None;
      ghost var left := outbox.Keys;
      while true
        invariant State() == old(State()) && left <= outbox.Keys
        invariant forall id :: Past(after, id) ==> id in left
        invariant forall id :: Repairable(State(), id, policy, keys) ==> Past(after, id)
        decreases |left|
      {
        var next := NextGapCandidate(after);
        if next.None? {
          return None;
        }
        var ok := ScheduleOne(next.value, policy, keys);
        if ok {
          return next;
        }
        left := left - {next.value};
        after := next;
      }
    }

    // ---- Receiving ----

    /** Store a message of the older protocol; a row that is there already stays. */
    method ReceivePlain(id: MessageId, sender: Urn, text: nat) returns (ok: bool)
      modifies this`inbox
      ensures ok <==> id !in old(inbox) || old(inbox)[id] == PlainMessage(sender, text)
      ensures State() == if ok then Ops.ReceivePlain(old(State()), id, sender, text).value else old(State())
    {
      if id !in inbox {
        inbox := inbox[id := PlainMessage(sender, text)];
      }
      ok := inbox[id] == PlainMessage(sender, text);
    }

    method Consume(e: Envelope) returns (ok: bool)
      modifies this`sessions
      ensures ok <==> Ops.Consume(old(State()), e).Some?
      ensures State() == if ok then Ops.Consume(old(State()), e).value else old(State())
    {
      if e.sender !in sessions {
        return false;
      }
      var s := sessions[e.sender];
      if !s.ready || s.id != e.session || s.policy != e.policy || e.sequence != s.receiveSequence + 1 {
        return false;
      }
      sessions := sessions[e.sender := s.(receiveSequence := e.sequence)];
      ok := true;
    }

    method ReceiveMessage(e: Envelope) returns (ok: bool)
      requires e.body.Business?
      modifies this`sessions, this`inbox
      ensures ok <==> Ops.ReceiveMessage(old(State()), e).Some?
      ensures State() == if ok then Ops.ReceiveMessage(old(State()), e).value else old(State())
    {
      var msg := Message(e.sender, e.body.text, e);
      if e.id in inbox {
        return inbox[e.id] == msg;
      }
      ok := Consume(e);
      if ok {
        inbox := inbox[e.id := msg];
      }
    }

    method ReceiveSkip(e: Envelope) returns (ok: bool)
      requires e.body.SkipControl?
      modifies this`sessions, this`skipped
      ensures ok <==> Ops.ReceiveSkip(old(State()), e).Some?
      ensures State() == if ok then Ops.ReceiveSkip(old(State()), e).value else old(State())
    {
      var t := Tombstone(e.body.inReplyTo, e.body.original, e);
      if e.id.UserMessage? {
        return false;
      }
      if e.id in skipped {
        return skipped[e.id] == t;
      }
      if e.id in inbox || e.sequence > MAX_SEQUENCE {
        return false;
      }
      ok := Consume(e);
      if ok {
        skipped := skipped[e.id := t];
      }
    }

    /** Process one retrieved envelope; it is acknowledged to the relay exactly when this
        succeeds. `genuine` says that its signature, encryption, receipt and body pass
        their checks, and `ownKey` is the current key of this party. */
    method ProcessOne(e: Envelope, ownKey: KeyId, genuine: bool) returns (ok: bool)
      requires engine.Some?
      modifies this`sessions, this`inbox, this`skipped
      ensures ok <==> genuine && e.key == ownKey && Ops.Receive(old(State()), engine.value, e).Some?
      ensures State() == if ok then Ops.Receive(old(State()), engine.value, e).value else old(State())
    {
      if e.key != ownKey || !genuine {
        return false;
      }
      if e.recipient != self || e.policy != engine.value.hash || e.sender !in sessions {
        return false;
      }
      var s := sessions[e.sender];
      if !s.ready || s.id != e.session || s.policy != e.policy {
        return false;
      }
      if e.body.Business? {
        ok := ReceiveMessage(e);
      } else {
        ok := ReceiveSkip(e);
      }
    }
  }
}
