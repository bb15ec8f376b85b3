/** The guards of the mailbox, on the stored fields: which requests, envelopes and repairs
    its tables take, and in every run why a repair is there. */
module MailGuards {
  import opened Basics
  import opened MailTypes
  import opened MailOps
  import opened MailInvariant
  import opened MailDelivery
  import opened MailStatus

  // ---- Accepting, choosing and sealing ----

  /** An identifier stands for one request: it is accepted exactly if it is the owner's and
      stands for no other one, and afterwards it stands for this one. */
  lemma AcceptsExactly(m: Mail, id: MessageId, request: Request, now: Instant)
    ensures Accept(m, id, request, now).Some? <==> id.UserMessage? && (id in m.outbox ==> m.outbox[id].request == request)
    ensures Accept(m, id, request, now).Some? ==>
      var n := Accept(m, id, request, now).value;
      && id in n.outbox && n.outbox[id].request == request
      && (if id in m.outbox then n == m
          else n == m.(outbox := n.outbox) && n.outbox.Keys == m.outbox.Keys + {id} && n.outbox[id].status.Accepted?
               && n.outbox[id].envelope.None? && n.outbox[id].nextAttempt == 0 && n.outbox[id].createdAt == now
               && forall j :: j in m.outbox ==> n.outbox[j] == m.outbox[j])
  {
  }

  /** The row is pending and its time has come. */
  predicate Due(m: Mail, id: MessageId, now: Instant) {
    id in m.outbox && m.outbox[id].status.Accepted? && m.outbox[id].nextAttempt <= now
  }

  /** The row that is handled next is due; no other due row is a repair, unless it is one
      itself, and no due row of its own kind is older. */
  lemma NextExactly(m: Mail, id: MessageId, now: Instant)
    ensures IsNext(m, id, now) <==>
      && Due(m, id, now)
      && (id.UserMessage? ==> forall j :: j in m.outbox && Due(m, j, now) ==> j.UserMessage?)
      && (forall j :: j in m.outbox && Due(m, j, now) && j.SkipOf? == id.SkipOf? ==> m.outbox[id].createdAt <= m.outbox[j].createdAt)
  {
    if IsNext(m, id, now) {
      forall j | j in m.outbox && Due(m, j, now)
        ensures (id.UserMessage? ==> j.UserMessage?) && (j.SkipOf? == id.SkipOf? ==> m.outbox[id].createdAt <= m.outbox[j].createdAt)
      {
        assert Ready(m, j, now) && !Precedes(m, j, id);
      }
    }
  }

  /** Among due rows of one kind and age the database's identifier order decides. */
  lemma ComesExactly(m: Mail, rank: Rank, a: MessageId, b: MessageId)
    requires a in m.outbox && b in m.outbox
    ensures Comes(m, rank, a, b) <==>
      if a.SkipOf? != b.SkipOf? then a.SkipOf?
      else m.outbox[a].createdAt < m.outbox[b].createdAt
           || (m.outbox[a].createdAt == m.outbox[b].createdAt && rank(a) < rank(b))
  {
  }

  /** A sealed envelope is stored with the number it uses exactly if the row has none yet and
      the session is ready, the same, under the same policy, and at the number before. */
  lemma SealsExactly(m: Mail, id: MessageId, peer: Urn, expected: nat, sealed: Envelope, policy: PolicyHash, session: SessionId)
    ensures SaveEnvelope(m, id, peer, expected, sealed, policy, session).Some? <==>
      && id in m.outbox
      && (m.outbox[id].envelope.Some?
          || (&& peer in m.sessions && m.sessions[peer].ready && m.sessions[peer].id == session
              && m.sessions[peer].policy == policy && m.sessions[peer].sendSequence + 1 == expected))
    ensures SaveEnvelope(m, id, peer, expected, sealed, policy, session).Some? ==>
      var n := SaveEnvelope(m, id, peer, expected, sealed, policy, session).value;
      && id in n.outbox && n.outbox[id].envelope.Some?
      && (if m.outbox[id].envelope.Some? then n == m
          else && n.outbox[id] == m.outbox[id].(envelope := Some(sealed), policy := policy, session := session)
               && peer in n.sessions && n.sessions[peer] == m.sessions[peer].(sendSequence := expected))
  {
  }

  /** Handling the row costs an attempt: it was given to the platform and an answer, or the
      lack of one, was noted; or what it needs from outside is not there. */
  predicate Costs(m: Mail, id: MessageId, policy: PolicyHash, o: Outside, now: Instant)
    requires id in m.outbox
  {
    var r := m.outbox[id];
    && !Late(r, now)
    && if r.envelope.Some? && r.policy != policy then false
       else if Presentable(m, id, policy, o.recipientKey) then o.verifies && !o.reply.Crashed?
       else if r.request.recipient in m.sessions && m.sessions[r.request.recipient].ready
               && m.sessions[r.request.recipient].policy == policy && o.recipientKey.None? then true
       else o.handshakeFails
  }

  lemma HandOverCosts(m: Mail, id: MessageId, e: Envelope, o: Outside)
    requires id in m.outbox && m.outbox[id].status.Accepted?
    ensures var n := HandOver(m, id, e, m.outbox[id].attempts, o).mail;
      && id in n.outbox
      && n.outbox[id].attempts == m.outbox[id].attempts + (if o.verifies && !o.reply.Crashed? then 1 else 0)
      && n.outbox[id].nextAttempt == if o.verifies && o.reply.Crashed? then m.outbox[id].nextAttempt else o.next
  {
  }

  /** The attempts of a row count exactly what cost one, and the row waits until the time
      that was set, unless the step crashed before it noted anything. */
  lemma CostsExactly(m: Mail, id: MessageId, policy: Policy, o: Outside, now: Instant)
    requires id in m.outbox && m.outbox[id].status.Accepted?
    ensures var n := Deliver(m, id, policy, o, now).mail;
      && id in n.outbox
      && n.outbox[id].attempts == m.outbox[id].attempts + (if Costs(m, id, policy.hash, o, now) then 1 else 0)
      && n.outbox[id].nextAttempt ==
           if !Late(m.outbox[id], now) && Presentable(m, id, policy.hash, o.recipientKey) && o.verifies && o.reply.Crashed?
           then m.outbox[id].nextAttempt else o.next
  {
    var r := m.outbox[id];
    if !Late(r, now) {
      if !Presentable(m, id, policy.hash, o.recipientKey) {
        UnpresentedCosts(m, id, policy, o, now);
      } else if r.envelope.Some? {
        HandOverCosts(m, id, r.envelope.value, o);
      } else {
        SealedCosts(m, id, policy, o, now);
      }
    }
  }

  lemma UnpresentedCosts(m: Mail, id: MessageId, policy: Policy, o: Outside, now: Instant)
    requires id in m.outbox && m.outbox[id].status.Accepted?
    requires !Late(m.outbox[id], now) && !Presentable(m, id, policy.hash, o.recipientKey)
    ensures var n := Deliver(m, id, policy, o, now).mail;
      && id in n.outbox && n.outbox[id].nextAttempt == o.next
      && n.outbox[id].attempts == m.outbox[id].attempts + (if Costs(m, id, policy.hash, o, now) then 1 else 0)
  {
  }

  lemma SealedCosts(m: Mail, id: MessageId, policy: Policy, o: Outside, now: Instant)
    requires id in m.outbox && m.outbox[id].status.Accepted? && m.outbox[id].envelope.None?
    requires !Late(m.outbox[id], now) && Presentable(m, id, policy.hash, o.recipientKey)
    ensures var n := Deliver(m, id, policy, o, now).mail;
      && id in n.outbox
      && n.outbox[id].attempts == m.outbox[id].attempts + (if o.verifies && !o.reply.Crashed? then 1 else 0)
      && n.outbox[id].nextAttempt == if o.verifies && o.reply.Crashed? then m.outbox[id].nextAttempt else o.next
  {
    var peer, e := m.outbox[id].request.recipient, Sealed(m, id, policy);
    var n := SaveEnvelope(m, id, peer, m.sessions[peer].sendSequence + 1, e, policy.hash, m.sessions[peer].id).value;
    HandOverCosts(n, id, e, o);
  }

  // ---- Receiving ----

  /** The session that the envelope names is the live one, under the worker's policy. */
  predicate InSession(m: Mail, policy: PolicyHash, e: Envelope) {
    && e.recipient == m.self && e.sender in m.sessions
    && m.sessions[e.sender].ready && m.sessions[e.sender].id == e.session
    && e.policy == policy && m.sessions[e.sender].policy == policy
  }

  /** The table has this very message already. */
  predicate Repeats(m: Mail, e: Envelope) {
    if e.body.Business? then e.id in m.inbox && m.inbox[e.id] == Message(e.sender, e.body.text, e)
    else e.id.SkipOf? && e.id in m.skipped && m.skipped[e.id] == Tombstone(e.body.inReplyTo, e.body.original, e)
  }

  /** The envelope's identifier is free, and its number is the next one. */
  predicate IsNew(m: Mail, e: Envelope)
    requires e.sender in m.sessions
  {
    && e.id !in m.inbox && e.sequence == m.sessions[e.sender].receiveSequence + 1
    && (e.body.SkipControl? ==> e.id.SkipOf? && e.id !in m.skipped && e.sequence <= MAX_SEQUENCE)
  }

  /** An envelope is taken exactly if it is for the live session and either repeats what is
      there, which changes nothing, or brings the next number under a free identifier. */
  lemma ReceivesExactly(m: Mail, policy: Policy, e: Envelope)
    ensures Receive(m, policy, e).Some? <==> InSession(m, policy.hash, e) && (Repeats(m, e) || IsNew(m, e))
    ensures Receive(m, policy, e).Some? ==>
      var n := Receive(m, policy, e).value;
      if Repeats(m, e) then n == m
      else && n.sessions == m.sessions[e.sender := m.sessions[e.sender].(receiveSequence := e.sequence)]
           && n.inbox == (if e.body.Business? then m.inbox[e.id := Message(e.sender, e.body.text, e)] else m.inbox)
           && n.skipped == (if e.body.Business? then m.skipped
                            else m.skipped[e.id := Tombstone(e.body.inReplyTo, e.body.original, e)])
  {
  }

  // ---- Repairs ----

  /** A number after the envelope's, in its session and to its recipient, was receipted. */
  predicate Overtakes(m: Mail, j: MessageId, e: Envelope) {
    && j in m.outbox && m.outbox[j].status.PlatformQueued? && m.outbox[j].envelope.Some?
    && m.outbox[j].session == e.session && m.outbox[j].policy == e.policy
    && m.outbox[j].envelope.value.recipient == e.recipient && m.outbox[j].envelope.value.session == e.session
    && m.outbox[j].envelope.value.sequence > e.sequence
  }

  /** The refused row, the session it was sent in, and the recipient's key are as they were,
      and the session has gone on. */
  ghost predicate Repairable(m: Mail, id: MessageId, policy: PolicyHash, keys: map<Urn, KeyId>) {
    && id in m.outbox && id !in m.repairs && m.outbox[id].status.Conflict? && m.outbox[id].lastError.ConflictText?
    && m.outbox[id].envelope.Some?
    && var e := m.outbox[id].envelope.value;
       && e.policy == policy && 0 < e.sequence <= MAX_SEQUENCE
       && e.recipient in m.sessions
       && m.sessions[e.recipient].ready && m.sessions[e.recipient].id == e.session && m.sessions[e.recipient].policy == e.policy
       && m.sessions[e.recipient].peerKey == e.key && e.recipient in keys && keys[e.recipient] == e.key
       && m.sessions[e.recipient].sendSequence > e.sequence
       && exists j :: Overtakes(m, j, e)
  }

  lemma OvertakesAdmits(m: Mail, installed: set<SessionId>, e: Envelope)
    requires RowsFit(m, installed)
    ensures AdmittedLater(m, e) <==> exists j :: Overtakes(m, j, e)
  {
    if j :| Overtakes(m, j, e) {
      assert RowFits(m, installed, j) && Admitted(m.outbox[j], e);
    }
    if j :| j in m.outbox && Admitted(m.outbox[j], e) {
      assert Overtakes(m, j, e);
    }
  }

  lemma SchedulesExactly(m: Mail, installed: set<SessionId>, id: MessageId, policy: Policy, keys: map<Urn, KeyId>)
    requires Fits(m, installed)
    ensures Schedulable(m, id, policy, keys) && m.outbox[id].envelope.value.sequence <= MAX_SEQUENCE
            <==> Repairable(m, id, policy.hash, keys)
  {
    if id in m.outbox && m.outbox[id].envelope.Some? {
      assert RowFits(m, installed, id);
      OvertakesAdmits(m, installed, m.outbox[id].envelope.value);
    }
  }

  /** The transaction that stores a repair checks again what can have changed since. */
  lemma SavesExactly(m: Mail, id: MessageId, e: Envelope)
    ensures SaveSkip(m, id, e).Some? <==>
      && 0 < e.sequence <= MAX_SEQUENCE
      && if id in m.repairs then
           && m.repairs[id] == Repair(SkipOf(e), e, e.session, e.sequence)
           && SkipOf(e) in m.outbox && m.outbox[SkipOf(e)].envelope.Some?
         else
           && Refuses(m, id, e) && m.outbox[id].policy == e.policy && m.outbox[id].session == e.session
           && e.recipient in m.sessions && m.sessions[e.recipient].ready && m.sessions[e.recipient].id == e.session
           && m.sessions[e.recipient].policy == e.policy && m.sessions[e.recipient].sendSequence > e.sequence
           && SkipOf(e) !in m.outbox
    ensures id in m.repairs && SaveSkip(m, id, e).Some? ==> SaveSkip(m, id, e).value == m
  {
  }

  /** One new row with a control in place of the message, under its number, session and
      policy, due at once. */
  predicate Repaired(m: Mail, n: Mail, id: MessageId, e: Envelope) {
    && SkipOf(e) !in m.outbox && n == m.(outbox := n.outbox, repairs := n.repairs)
    && n.repairs == m.repairs[id := Repair(SkipOf(e), e, e.session, e.sequence)]
    && n.outbox.Keys == m.outbox.Keys + {SkipOf(e)}
    && (forall j :: j in m.outbox ==> n.outbox[j] == m.outbox[j])
    && n.outbox[SkipOf(e)].envelope
         == Some(Envelope(SkipOf(e), e.sender, e.recipient, e.session, e.sequence, e.policy, e.key, SkipControl(e.id, e)))
    && n.outbox[SkipOf(e)].status.Accepted? && n.outbox[SkipOf(e)].nextAttempt == 0
  }

  lemma SavedRepair(m: Mail, id: MessageId, e: Envelope)
    requires id !in m.repairs && SaveSkip(m, id, e).Some?
    ensures Repaired(m, SaveSkip(m, id, e).value, id, e)
  {
  }

  /** In every run, a repair step stores a repair exactly if the refused row can be repaired. */
  lemma RepairsExactly(first: Urn, second: Urn, actions: seq<Action>, a: Action)
    requires first != second && a.Repairs?
    ensures var m := At(Run(Start(first, second), actions), a.side).mail;
      var n := At(Act(Run(Start(first, second), actions), a), a.side).mail;
      if m.engine.Some? && Repairable(m, a.id, m.engine.value.hash, a.keys) then Repaired(m, n, a.id, m.outbox[a.id].envelope.value)
      else n == m
  {
    StartFits(first, second);
    RunMoves(Start(first, second), actions);
    RepairStep(Run(Start(first, second), actions), a);
  }

  lemma RepairStep(s: System, a: Action)
    requires SystemFits(s) && a.Repairs?
    ensures var m, n := At(s, a.side).mail, At(Act(s, a), a.side).mail;
      if m.engine.Some? && Repairable(m, a.id, m.engine.value.hash, a.keys) then Repaired(m, n, a.id, m.outbox[a.id].envelope.value)
      else n == m
  {
    var site := At(s, a.side);
    if site.mail.engine.Some? {
      SchedulesExactly(site.mail, site.installed, a.id, site.mail.engine.value, a.keys);
      if Schedulable(site.mail, a.id, site.mail.engine.value, a.keys) {
        RepairStored(site.mail, site.installed, a.id, site.mail.engine.value, a.keys);
        if SaveSkip(site.mail, a.id, EnvelopeOf(site.mail, a.id)).Some? {
          SavedRepair(site.mail, a.id, EnvelopeOf(site.mail, a.id));
        }
      }
    }
  }

  // ---- Why a repair is there ----

  predicate Justified(m: Mail, id: MessageId, j: MessageId) {
    id in m.repairs && Refuses(m, id, m.repairs[id].original) && Overtakes(m, j, m.repairs[id].original)
  }

  ghost predicate RepairsJustified(m: Mail) {
    forall id :: id in m.repairs ==> exists j :: Justified(m, id, j)
  }

  lemma JustifiedKept(m: Mail, n: Mail, id: MessageId, j: MessageId)
    requires Justified(m, id, j) && Kept(m, n)
    ensures Justified(n, id, j)
  {
    assert RowKept(m.outbox[id], n.outbox[id]) && RowKept(m.outbox[j], n.outbox[j]);
  }

  /** Only the repair step adds a repair. */
  lemma OnlyRepairs(s: System, a: Action, side: Side, id: MessageId)
    requires id in At(Act(s, a), side).mail.repairs && id !in At(s, side).mail.repairs
    ensures a.Repairs? && a.side == side && a.id == id
  {
    if a.side != side {
      OtherSide(s, a);
    } else if !a.Repairs? {
      SameRepairs(s, a);
    } else {
      OneRepair(s, a, id);
    }
  }

  lemma SameRepairs(s: System, a: Action)
    requires !a.Repairs?
    ensures At(Act(s, a), a.side).mail.repairs == At(s, a.side).mail.repairs
  {
    var m := At(s, a.side).mail;
    match a
    case Delivers(_, id, outside, now) =>
      if m.engine.Some? && IsNext(m, id, now) {
        HandledRow(m, id, m.engine.value, outside, now);
      }
    case Receives(_, e) =>
      if m.engine.Some? && Receive(m, m.engine.value, e).Some? {
        ReceiveFrame(m, m.engine.value, e);
      }
    case Refreshes(_, _) =>
    case _ => PlainRepairs(s, a);
  }

  lemma PlainRepairs(s: System, a: Action)
    requires !a.Repairs? && !a.Delivers? && !a.Receives? && !a.Refreshes?
    ensures At(Act(s, a), a.side).mail.repairs == At(s, a.side).mail.repairs
  {
  }

  lemma OneRepair(s: System, a: Action, id: MessageId)
    requires a.Repairs? && id in At(Act(s, a), a.side).mail.repairs && id !in At(s, a.side).mail.repairs
    ensures a.id == id
  {
  }

  lemma {:induction false} RunJustified(first: Urn, second: Urn, actions: seq<Action>, side: Side)
    requires first != second
    ensures RepairsJustified(At(Run(Start(first, second), actions), side).mail)
    decreases |actions|
  {
    if actions == [] {
    } else {
      var front, a := actions[..|actions|-1], actions[|actions|-1];
      var s := Run(Start(first, second), front);
      var m, n := At(s, side).mail, At(Act(s, a), side).mail;
      RunJustified(first, second, front, side);
      StartFits(first, second);
      RunMoves(Start(first, second), front);
      ActMoves(s, a);
      forall id | id in n.repairs ensures exists j :: Justified(n, id, j) {
        if id in m.repairs {
          var j :| Justified(m, id, j);
          JustifiedKept(m, n, id, j);
        } else {
          OnlyRepairs(s, a, side, id);
          RepairsExactly(first, second, front, a);
          var j :| Overtakes(m, j, m.outbox[id].envelope.value);
          assert Justified(n, id, j);
        }
      }
    }
  }

  /** In every run, a number is given up only for a reason: its message was refused for good,
      and the platform had already taken a later number of the same session. */
  lemma RepairReason(first: Urn, second: Urn, actions: seq<Action>, side: Side, id: MessageId) returns (j: MessageId)
    requires first != second && id in At(Run(Start(first, second), actions), side).mail.repairs
    ensures var m := At(Run(Start(first, second), actions), side).mail;
      && id in m.outbox && m.outbox[id].status.Conflict? && m.outbox[id].envelope == Some(m.repairs[id].original)
      && j in m.outbox && m.outbox[j].status.PlatformQueued? && m.outbox[j].envelope.Some?
      && m.outbox[j].session == m.repairs[id].original.session
      && m.outbox[j].envelope.value.sequence > m.repairs[id].original.sequence
  {
    RunJustified(first, second, actions, side);
    j :| Justified(At(Run(Start(first, second), actions), side).mail, id, j);
  }
}
