/** What becomes of an accepted row: for every step of either helper, exactly when the row
    is handed over, and exactly which status it gets. */
module MailStatus {
  import opened Basics
  import opened MailTypes
  import opened MailOps
  import opened MailInvariant
  import opened MailDelivery
  import opened MailPolicy

  // ---- Handling one row ----

  /** The deadline is at or before the clock. */
  predicate Late(r: Row, now: Instant) {
    r.request.deadline.Some? && r.request.deadline.value <= now
  }

  /** An envelope is there for the worker's policy, or can be sealed: the session is ready
      under that policy and the recipient's key is still the one it was made for. */
  predicate Presentable(m: Mail, id: MessageId, policy: PolicyHash, key: Option<KeyId>)
    requires id in m.outbox
  {
    var r := m.outbox[id];
    if r.envelope.Some? then r.policy == policy
    else
      && r.request.recipient in m.sessions
      && var s := m.sessions[r.request.recipient]; s.ready && s.policy == policy && key == Some(s.peerKey)
  }

  /** The status after the row was handled. */
  function StatusAfter(m: Mail, id: MessageId, policy: PolicyHash, o: Outside, now: Instant): Status
    requires id in m.outbox
  {
    var r := m.outbox[id];
    if Late(r, now) then Expired
    else if r.envelope.Some? && r.policy != policy then Quarantined
    else if !Presentable(m, id, policy, o.recipientKey) then Accepted
    else if !o.verifies then Quarantined
    else match o.reply
      case Receipted => PlatformQueued
      case Refused(_) => Conflict
      case _ => Accepted
  }

  /** Only the row `id` changes. */
  predicate OneRow(m: Mail, n: Mail, id: MessageId) {
    && n.outbox.Keys == m.outbox.Keys && n.repairs == m.repairs
    && forall j :: j in m.outbox && j != id ==> n.outbox[j] == m.outbox[j]
  }

  lemma UpdateOne(m: Mail, id: MessageId, status: Status, error: ErrorText, attempts: nat, receipt: bool, next: Instant)
    requires id in m.outbox && m.outbox[id].status.Accepted?
    ensures var n := Update(m, id, status, error, attempts, receipt, next);
      && OneRow(m, n, id) && n.outbox[id].status == status && n.outbox[id].lastError == error
      && n.outbox[id].envelope == m.outbox[id].envelope && n.outbox[id].receipt == (receipt || m.outbox[id].receipt)
      && n.outbox[id].nextAttempt == next
  {
  }

  lemma HandOverOne(m: Mail, id: MessageId, e: Envelope, attempts: nat, o: Outside)
    requires id in m.outbox && m.outbox[id].status.Accepted?
    ensures var sent := HandOver(m, id, e, attempts, o);
      && OneRow(m, sent.mail, id)
      && (sent.handed.Some? <==> o.verifies)
      && sent.mail.outbox[id].status ==
           if !o.verifies then Quarantined
           else if o.reply.Receipted? then PlatformQueued else if o.reply.Refused? then Conflict else Accepted
  {
    UpdateOne(m, id, Quarantined, OtherText, attempts, false, o.next);
    match o.reply
    case Receipted => UpdateOne(m, id, PlatformQueued, NoError, attempts + 1, true, o.next);
    case Refused(exact) => UpdateOne(m, id, Conflict, if exact then ConflictText else OtherText, attempts + 1, false, o.next);
    case Lost(_) => UpdateOne(m, id, Accepted, OtherText, attempts + 1, false, o.next);
    case Crashed(_) =>
  }

  lemma StartOne(m: Mail, id: MessageId, attempts: nat, o: Outside)
    requires id in m.outbox && m.outbox[id].status.Accepted?
    ensures OneRow(m, StartHandshake(m, id, attempts, o), id)
    ensures StartHandshake(m, id, attempts, o).outbox[id].status.Accepted?
  {
    UpdateOne(m, id, Accepted, OtherText, attempts + 1, false, o.next);
  }

  /** The row as it is sealed, if it has to be. */
  lemma SealedOne(m: Mail, id: MessageId, policy: Policy, o: Outside) returns (n: Mail, e: Envelope)
    requires id in m.outbox && m.outbox[id].status.Accepted? && Presentable(m, id, policy.hash, o.recipientKey)
    ensures OneRow(m, n, id) && n.outbox[id].status.Accepted?
    ensures forall now :: !Overdue(m.outbox[id].request, now) ==>
      Deliver(m, id, policy, o, now) == HandOver(n, id, e, m.outbox[id].attempts, o)
  {
    var r := m.outbox[id];
    if r.envelope.Some? {
      n, e := m, r.envelope.value;
    } else {
      var peer := r.request.recipient;
      e := Sealed(m, id, policy);
      n := SaveEnvelope(m, id, peer, m.sessions[peer].sendSequence + 1, e, policy.hash, m.sessions[peer].id).value;
    }
  }

  /** Handling an accepted row: exactly when it is handed over, and its status afterwards. */
  lemma HandledRow(m: Mail, id: MessageId, policy: Policy, o: Outside, now: Instant)
    requires id in m.outbox && m.outbox[id].status.Accepted?
    ensures var sent := Deliver(m, id, policy, o, now);
      && OneRow(m, sent.mail, id) && sent.mail.outbox[id].status == StatusAfter(m, id, policy.hash, o, now)
      && (sent.handed.Some? <==> !Late(m.outbox[id], now) && Presentable(m, id, policy.hash, o.recipientKey) && o.verifies)
  {
    var r := m.outbox[id];
    UpdateOne(m, id, Expired, OtherText, r.attempts, false, o.next);
    UpdateOne(m, id, Quarantined, OtherText, r.attempts, false, o.next);
    if !Late(r, now) {
      if Presentable(m, id, policy.hash, o.recipientKey) {
        var n, e := SealedOne(m, id, policy, o);
        HandOverOne(n, id, e, r.attempts, o);
      } else if r.envelope.None? {
        UnpreparedRow(m, id, policy, o, now);
      }
    }
  }

  lemma UnpreparedRow(m: Mail, id: MessageId, policy: Policy, o: Outside, now: Instant)
    requires id in m.outbox && m.outbox[id].status.Accepted? && m.outbox[id].envelope.None?
    requires !Late(m.outbox[id], now) && !Presentable(m, id, policy.hash, o.recipientKey)
    ensures var sent := Deliver(m, id, policy, o, now);
      OneRow(m, sent.mail, id) && sent.mail.outbox[id].status.Accepted? && sent.handed.None?
  {
    var r := m.outbox[id];
    StartOne(m, id, r.attempts, o);
    StartOne(DeleteSession(m, r.request.recipient), id, r.attempts, o);
    UpdateOne(m, id, Accepted, OtherText, r.attempts + 1, false, o.next);
  }

  /** A refusal leaves the text that the repair step looks for, exactly if the platform
      answered with it. */
  lemma RefusedRow(m: Mail, id: MessageId, policy: Policy, o: Outside, now: Instant)
    requires id in m.outbox && m.outbox[id].status.Accepted? && !m.outbox[id].receipt && o.reply.Refused?
    requires !Late(m.outbox[id], now) && Presentable(m, id, policy.hash, o.recipientKey) && o.verifies
    ensures var r := Deliver(m, id, policy, o, now).mail.outbox[id];
      && id in Deliver(m, id, policy, o, now).mail.outbox
      && r.status.Conflict? && r.envelope.Some? && !r.receipt && (r.lastError.ConflictText? <==> o.reply.exact)
  {
  }

  // ---- Every step of a run ----

  /** The step handles the row `id` of `side`. */
  ghost predicate Handles(s: System, a: Action, side: Side, id: MessageId) {
    && a.Delivers? && a.side == side && a.id == id
    && At(s, side).mail.engine.Some? && IsNext(At(s, side).mail, id, a.now)
  }

  /** A new epoch replaces the stored policy of `side`. */
  predicate NewEpoch(s: System, a: Action, side: Side) {
    a.Refreshes? && a.side == side
    && At(s, side).mail.stored.Some? && At(s, side).mail.stored.value.epoch < a.policy.epoch
  }

  /** A refusal that an older release kept as a retryable error is retired. */
  predicate RetiresRow(s: System, a: Action, side: Side, id: MessageId)
    requires id in At(s, side).mail.outbox
  {
    var r := At(s, side).mail.outbox[id];
    a.Retires? && a.side == side && r.attempts > 0 && r.lastError.ConflictText?
  }

  /** The status of an accepted row after a step, in terms of what happens to it. */
  lemma AcceptedRow(s: System, a: Action, side: Side, id: MessageId)
    requires SystemFits(s) && id in At(s, side).mail.outbox && At(s, side).mail.outbox[id].status.Accepted?
    ensures var m, n := At(s, side).mail, At(Act(s, a), side).mail;
      && id in n.outbox
      && n.outbox[id].status ==
           if Handles(s, a, side, id) then StatusAfter(m, id, m.engine.value.hash, a.outside, a.now)
           else if NewEpoch(s, a, side) then Quarantined
           else if RetiresRow(s, a, side, id) then Conflict
           else Accepted
  {
    if a.side != side {
      OtherSide(s, a);
    } else if a.Delivers? {
      DeliveredRow(s, a, id);
    } else {
      QuietRow(s, a, id);
    }
  }

  /** A step of one side leaves the other side's tables alone. */
  lemma OtherSide(s: System, a: Action)
    ensures At(Act(s, a), Other(a.side)) == At(s, Other(a.side))
  {
  }

  lemma DeliveredRow(s: System, a: Action, id: MessageId)
    requires SystemFits(s) && a.Delivers?
    requires id in At(s, a.side).mail.outbox && At(s, a.side).mail.outbox[id].status.Accepted?
    ensures var m, n := At(s, a.side).mail, At(Act(s, a), a.side).mail;
      && id in n.outbox
      && n.outbox[id].status ==
           if Handles(s, a, a.side, id) then StatusAfter(m, id, m.engine.value.hash, a.outside, a.now) else Accepted
  {
    var m := At(s, a.side).mail;
    if m.engine.Some? && IsNext(m, a.id, a.now) {
      HandledRow(m, a.id, m.engine.value, a.outside, a.now);
    }
  }

  lemma QuietRow(s: System, a: Action, id: MessageId)
    requires SystemFits(s) && !a.Delivers?
    requires id in At(s, a.side).mail.outbox && At(s, a.side).mail.outbox[id].status.Accepted?
    ensures var n := At(Act(s, a), a.side).mail;
      && id in n.outbox
      && n.outbox[id].status ==
           if NewEpoch(s, a, a.side) then Quarantined else if RetiresRow(s, a, a.side, id) then Conflict else Accepted
  {
    match a
    case Refreshes(_, policy) =>
      if RefreshPolicy(At(s, a.side).mail, policy).Some? {
        RefreshedRow(At(s, a.side).mail, policy, id);
      }
    case Repairs(_, _, _) => RepairedRow(s, a, id);
    case Receives(_, _) => ReceivedRow(s, a);
    case _ => OtherRow(s, a, id);
  }

  lemma OtherRow(s: System, a: Action, id: MessageId)
    requires !a.Delivers? && !a.Refreshes? && !a.Repairs? && !a.Receives?
    requires id in At(s, a.side).mail.outbox && At(s, a.side).mail.outbox[id].status.Accepted?
    ensures var n := At(Act(s, a), a.side).mail;
      id in n.outbox && n.outbox[id].status == if RetiresRow(s, a, a.side, id) then Conflict else Accepted
  {
  }

  lemma RefreshedRow(m: Mail, policy: Policy, id: MessageId)
    requires id in m.outbox && m.outbox[id].status.Accepted? && RefreshPolicy(m, policy).Some?
    ensures var n := RefreshPolicy(m, policy).value;
      && id in n.outbox
      && n.outbox[id].status ==
           if m.stored.Some? && m.stored.value.epoch < policy.epoch then Quarantined else Accepted
  {
  }

  lemma RepairedRow(s: System, a: Action, id: MessageId)
    requires a.Repairs? && id in At(s, a.side).mail.outbox
    ensures id in At(Act(s, a), a.side).mail.outbox
    ensures At(Act(s, a), a.side).mail.outbox[id] == At(s, a.side).mail.outbox[id]
  {
  }

  lemma ReceivedRow(s: System, a: Action)
    requires a.Receives?
    ensures At(Act(s, a), a.side).mail.outbox == At(s, a.side).mail.outbox
  {
    var m := At(s, a.side).mail;
    if m.engine.Some? && Receive(m, m.engine.value, a.envelope).Some? {
      ReceiveFrame(m, m.engine.value, a.envelope);
    }
  }

  /** At every hand-over of every run the row has no deadline, or a later one than the
      clock of the step; and a row is handed over exactly if besides it is next, can be
      presented under the worker's policy, and still verifies. */
  lemma HandedExactly(first: Urn, second: Urn, actions: seq<Action>, a: Action)
    requires first != second
    ensures var s := Run(Start(first, second), actions);
      var m := At(s, a.side).mail;
      HandedIn(s, a).Some? <==>
        && a.Delivers? && Handles(s, a, a.side, a.id)
        && (m.outbox[a.id].request.deadline.None? || a.now < m.outbox[a.id].request.deadline.value)
        && Presentable(m, a.id, m.engine.value.hash, a.outside.recipientKey) && a.outside.verifies
  {
    var s := Run(Start(first, second), actions);
    if a.Delivers? && Handles(s, a, a.side, a.id) {
      HandledRow(At(s, a.side).mail, a.id, At(s, a.side).mail.engine.value, a.outside, a.now);
    }
  }

  /** In every run a row becomes expired in a step if and only if the step handles it at or
      after its deadline. */
  lemma ExpiresExactly(first: Urn, second: Urn, actions: seq<Action>, a: Action, side: Side, id: MessageId)
    requires first != second && id in At(Run(Start(first, second), actions), side).mail.outbox
    requires !At(Run(Start(first, second), actions), side).mail.outbox[id].status.Expired?
    ensures var s := Run(Start(first, second), actions);
      var r, n := At(s, side).mail.outbox[id], At(Act(s, a), side).mail;
      && id in n.outbox
      && (n.outbox[id].status.Expired? <==>
            Handles(s, a, side, id) && r.request.deadline.Some? && r.request.deadline.value <= a.now)
  {
    StartFits(first, second);
    RunMoves(Start(first, second), actions);
    ExpiresStep(Run(Start(first, second), actions), a, side, id);
  }

  lemma ExpiresStep(s: System, a: Action, side: Side, id: MessageId)
    requires SystemFits(s) && id in At(s, side).mail.outbox && !At(s, side).mail.outbox[id].status.Expired?
    ensures var r, n := At(s, side).mail.outbox[id], At(Act(s, a), side).mail;
      && id in n.outbox
      && (n.outbox[id].status.Expired? <==>
            Handles(s, a, side, id) && r.request.deadline.Some? && r.request.deadline.value <= a.now)
  {
    var r := At(s, side).mail.outbox[id];
    if r.status.Accepted? {
      AcceptedRow(s, a, side, id);
      if Handles(s, a, side, id) {
        ExpiredMeans(At(s, side).mail, id, At(s, side).mail.engine.value.hash, a.outside, a.now);
      }
    } else {
      FinalStays(s, a, side, id);
    }
  }

  lemma ExpiredMeans(m: Mail, id: MessageId, policy: PolicyHash, o: Outside, now: Instant)
    requires id in m.outbox
    ensures var r := m.outbox[id];
      StatusAfter(m, id, policy, o, now).Expired? <==> r.request.deadline.Some? && r.request.deadline.value <= now
  {
  }

  lemma FinalStays(s: System, a: Action, side: Side, id: MessageId)
    requires SystemFits(s) && id in At(s, side).mail.outbox && !At(s, side).mail.outbox[id].status.Accepted?
    ensures id in At(Act(s, a), side).mail.outbox && At(Act(s, a), side).mail.outbox[id] == At(s, side).mail.outbox[id]
  {
    ActMoves(s, a);
    assert RowKept(At(s, side).mail.outbox[id], At(Act(s, a), side).mail.outbox[id]);
  }

  /** A new row is an accepted one. */
  lemma NewRow(s: System, a: Action, side: Side, id: MessageId)
    requires SystemFits(s) && id !in At(s, side).mail.outbox && id in At(Act(s, a), side).mail.outbox
    ensures At(Act(s, a), side).mail.outbox[id].status.Accepted?
  {
    if a.side != side {
      OtherSide(s, a);
    } else if a.Delivers? {
      NoNewRow(s, a);
    } else if a.Receives? {
      ReceivedRow(s, a);
    } else {
      AddedRow(s, a, id);
    }
  }

  lemma NoNewRow(s: System, a: Action)
    requires SystemFits(s) && a.Delivers?
    ensures At(Act(s, a), a.side).mail.outbox.Keys == At(s, a.side).mail.outbox.Keys
  {
    var m := At(s, a.side).mail;
    if m.engine.Some? && IsNext(m, a.id, a.now) {
      HandledRow(m, a.id, m.engine.value, a.outside, a.now);
    }
  }

  lemma AddedRow(s: System, a: Action, id: MessageId)
    requires !a.Delivers? && !a.Receives? && id !in At(s, a.side).mail.outbox && id in At(Act(s, a), a.side).mail.outbox
    ensures At(Act(s, a), a.side).mail.outbox[id].status.Accepted?
  {
    if a.Refreshes? {
      SameKeys(At(s, a.side).mail, a.policy);
    }
  }

  lemma SameKeys(m: Mail, policy: Policy)
    ensures RefreshPolicy(m, policy).Some? ==> RefreshPolicy(m, policy).value.outbox.Keys == m.outbox.Keys
  {
  }

  /** A row without a deadline never expires, in any run. */
  lemma {:induction false} NoDeadlineStays(first: Urn, second: Urn, actions: seq<Action>, side: Side, id: MessageId)
    requires first != second && id in At(Run(Start(first, second), actions), side).mail.outbox
    requires At(Run(Start(first, second), actions), side).mail.outbox[id].request.deadline.None?
    ensures !At(Run(Start(first, second), actions), side).mail.outbox[id].status.Expired?
    decreases |actions|
  {
    if actions == [] {
    } else {
      var front, a := actions[..|actions|-1], actions[|actions|-1];
      var s := Run(Start(first, second), front);
      StartFits(first, second);
      RunMoves(Start(first, second), front);
      ActMoves(s, a);
      if id in At(s, side).mail.outbox {
        assert RowKept(At(s, side).mail.outbox[id], At(Act(s, a), side).mail.outbox[id]);
        NoDeadlineStays(first, second, front, side, id);
        ExpiresExactly(first, second, front, a, side, id);
      } else {
        NewRow(s, a, side, id);
      }
    }
  }

  /** A refusal makes the row a candidate for a repair if and only if its text is the exact
      one. */
  lemma RefusedIsCandidate(first: Urn, second: Urn, actions: seq<Action>, a: Action)
    requires first != second && HandedIn(Run(Start(first, second), actions), a).Some? && a.outside.reply.Refused?
    ensures var s := Run(Start(first, second), actions);
      var n := At(Act(s, a), a.side).mail;
      && a.id in n.outbox && n.outbox[a.id].status.Conflict?
      && n.outbox[a.id].envelope == HandedIn(s, a)
      && (Candidate(n, a.id) <==> a.outside.reply.exact)
  {
    var s := Run(Start(first, second), actions);
    var m := At(s, a.side).mail;
    StartFits(first, second);
    RunMoves(Start(first, second), actions);
    HandedExactly(first, second, actions, a);
    HandedStep(s, a, HandedIn(s, a).value);
    HandledRow(m, a.id, m.engine.value, a.outside, a.now);
    assert RowFits(m, At(s, a.side).installed, a.id);
    RefusedRow(m, a.id, m.engine.value, a.outside, a.now);
    assert a.id in m.repairs ==> MappingFits(m, a.id);
  }
}
