/** What every transaction of one mailbox keeps: envelopes are immutable, the sequences of
    a session are used once each, refused rows end in a chain of repairs, and everything
    live belongs to the stored policy. */
module MailInvariant {
  import opened Basics
  import opened MailTypes
  import opened MailOps

  // ---- Rows ----

  predicate Sealing(m: Mail, id: MessageId) {
    id in m.outbox && m.outbox[id].envelope.Some?
  }

  function EnvelopeOf(m: Mail, id: MessageId): Envelope
    requires Sealing(m, id)
  {
    m.outbox[id].envelope.value
  }

  /** The envelope of a row speaks for that row, under a session that was installed. */
  predicate RowFits(m: Mail, installed: set<SessionId>, id: MessageId)
    requires id in m.outbox
  {
    var r := m.outbox[id];
    && (r.receipt <==> r.status.PlatformQueued?)
    && (id.SkipOf? ==> r.envelope == Some(SkipEnvelope(id.original)))
    && (r.envelope.Some? ==>
          var e := r.envelope.value;
          && e.id == id && e.sender == m.self && e.recipient == r.request.recipient
          && e.session == r.session && e.policy == r.policy && e.session in installed && e.sequence >= 1
          && (id.UserMessage? ==> e.body == Business(r.request.text)))
  }

  ghost predicate RowsFit(m: Mail, installed: set<SessionId>) {
    forall id :: id in m.outbox ==> RowFits(m, installed, id)
  }

  /** A row refused for good, holding exactly `e`. */
  predicate Refuses(m: Mail, id: MessageId, e: Envelope) {
    && id in m.outbox && m.outbox[id].status.Conflict? && m.outbox[id].lastError.ConflictText?
    && !m.outbox[id].receipt && m.outbox[id].envelope == Some(e)
  }

  /** A repair replaces one refused envelope, at the same sequence, and is the only one
      that does. */
  predicate RepairFits(m: Mail, id: MessageId) {
    && id.SkipOf? ==>
    && Refuses(m, id.original.id, id.original)
    && id.original.id in m.repairs
    && m.repairs[id.original.id] == Repair(id, id.original, id.original.session, id.original.sequence)
  }

  predicate MappingFits(m: Mail, id: MessageId)
    requires id in m.repairs
  {
    var r := m.repairs[id];
    Refuses(m, id, r.original) && r.repairId == SkipOf(r.original) && r.repairId in m.outbox
  }

  ghost predicate RepairsFit(m: Mail) {
    && (forall id :: id in m.outbox ==> RepairFits(m, id))
    && (forall id :: id in m.repairs ==> MappingFits(m, id))
  }

  // ---- Sequences ----

  /** `id` is the ordinary message number `n` of session `s`. */
  predicate Ordinary(m: Mail, id: MessageId, s: SessionId, n: nat) {
    id.UserMessage? && Sealing(m, id) && EnvelopeOf(m, id).session == s && EnvelopeOf(m, id).sequence == n
  }

  ghost predicate Used(m: Mail, s: SessionId, n: nat) {
    exists id :: Ordinary(m, id, s, n)
  }

  ghost predicate UsedOnce(m: Mail) {
    forall a, b, s, n :: Ordinary(m, a, s, n) && Ordinary(m, b, s, n) ==> a == b
  }

  ghost predicate NoGaps(m: Mail) {
    forall id, s, n, k :: Ordinary(m, id, s, n) && 1 <= k <= n ==> Used(m, s, k)
  }

  /** A live session has used exactly the numbers up to its counter. */
  ghost predicate SessionFits(m: Mail, installed: set<SessionId>, peer: Urn)
    requires peer in m.sessions
  {
    var s := m.sessions[peer];
    && s.id in installed
    && (s.sendSequence > 0 ==> Used(m, s.id, s.sendSequence))
    && (forall id, n: nat :: Ordinary(m, id, s.id, n) ==> n <= s.sendSequence && EnvelopeOf(m, id).recipient == peer)
  }

  ghost predicate SessionsFit(m: Mail, installed: set<SessionId>) {
    && (forall p :: p in m.sessions ==> SessionFits(m, installed, p))
    && (forall p, q :: p in m.sessions && q in m.sessions && m.sessions[p].id == m.sessions[q].id ==> p == q)
  }

  // ---- Policy ----

  predicate UnderPolicy(m: Mail, r: Row) {
    r.status.Accepted? && r.envelope.Some? ==> m.stored.Some? && r.policy == m.stored.value.hash
  }

  ghost predicate PolicyFits(m: Mail) {
    && (m.engine.Some? ==> m.engine == m.stored)
    && (forall id :: id in m.outbox ==> UnderPolicy(m, m.outbox[id]))
    && (forall p :: p in m.sessions ==> m.stored.Some? && m.sessions[p].policy == m.stored.value.hash)
  }

  ghost predicate Fits(m: Mail, installed: set<SessionId>) {
    && RowsFit(m, installed) && RepairsFit(m) && UsedOnce(m) && NoGaps(m)
    && SessionsFit(m, installed) && PolicyFits(m)
  }

  // ---- What no transaction undoes ----

  /** A stored envelope never changes; a refused row stays refused for good. */
  predicate RowKept(r: Row, t: Row) {
    && t.request == r.request
    && (r.envelope.Some? ==> t.envelope == r.envelope && t.session == r.session && t.policy == r.policy)
    && (!r.status.Accepted? ==> t == r)
  }

  ghost predicate Kept(m: Mail, n: Mail) {
    && n.self == m.self
    && (forall id :: id in m.outbox ==> id in n.outbox && RowKept(m.outbox[id], n.outbox[id]))
    && (forall id :: id in m.repairs ==> id in n.repairs && n.repairs[id] == m.repairs[id])
    && PolicyKept(m, n)
  }

  /** The stored epoch never decreases, and one epoch has one policy. */
  predicate PolicyKept(m: Mail, n: Mail) {
    m.stored.Some? ==>
      && n.stored.Some? && m.stored.value.epoch <= n.stored.value.epoch
      && (m.stored.value.epoch == n.stored.value.epoch ==> n.stored == m.stored)
  }

  lemma KeptTrans(a: Mail, b: Mail, c: Mail)
    requires Kept(a, b) && Kept(b, c)
    ensures Kept(a, c)
  {
    forall id | id in a.outbox ensures id in c.outbox && RowKept(a.outbox[id], c.outbox[id]) {
      assert RowKept(a.outbox[id], b.outbox[id]) && RowKept(b.outbox[id], c.outbox[id]);
    }
  }

  // ---- Transactions that leave envelopes and sessions as they are ----

  /** Same identifiers, same envelopes, same repairs. */
  ghost predicate SameEnvelopes(m: Mail, n: Mail) {
    && n.self == m.self && n.repairs == m.repairs && n.outbox.Keys == m.outbox.Keys
    && forall id :: id in m.outbox ==>
         && n.outbox[id].envelope == m.outbox[id].envelope && n.outbox[id].request == m.outbox[id].request
         && n.outbox[id].session == m.outbox[id].session && n.outbox[id].policy == m.outbox[id].policy
  }

  lemma SameOrdinary(m: Mail, n: Mail)
    requires SameEnvelopes(m, n)
    ensures forall id, s, k :: Ordinary(n, id, s, k) <==> Ordinary(m, id, s, k)
    ensures forall s, k :: Used(n, s, k) <==> Used(m, s, k)
  {
    forall s, k ensures Used(n, s, k) <==> Used(m, s, k) {
      if Used(m, s, k) {
        var id :| Ordinary(m, id, s, k);
        assert Ordinary(n, id, s, k);
      }
      if Used(n, s, k) {
        var id :| Ordinary(n, id, s, k);
        assert Ordinary(m, id, s, k);
      }
    }
  }

  /** Sequences survive any change of statuses, and any loss of sessions. */
  lemma SequencesKept(m: Mail, n: Mail, installed: set<SessionId>)
    requires UsedOnce(m) && NoGaps(m) && SessionsFit(m, installed) && SameEnvelopes(m, n)
    requires forall p :: p in n.sessions ==> p in m.sessions && n.sessions[p].id == m.sessions[p].id
                                             && n.sessions[p].sendSequence == m.sessions[p].sendSequence
    ensures UsedOnce(n) && NoGaps(n) && SessionsFit(n, installed)
  {
    SameOrdinary(m, n);
    forall id, s, k, j | Ordinary(n, id, s, k) && 1 <= j <= k ensures Used(n, s, j) {
      assert Ordinary(m, id, s, k);
    }
    forall p | p in n.sessions ensures SessionFits(n, installed, p) {
      assert SessionFits(m, installed, p);
      forall id, k: nat | Ordinary(n, id, n.sessions[p].id, k)
        ensures k <= n.sessions[p].sendSequence && EnvelopeOf(n, id).recipient == p
      {
        assert Ordinary(m, id, m.sessions[p].id, k);
      }
    }
  }

  /** A change of statuses in which every row is kept. */
  lemma RepairsKept(m: Mail, n: Mail)
    requires RepairsFit(m) && SameEnvelopes(m, n)
    requires forall id :: id in m.outbox ==> RowKept(m.outbox[id], n.outbox[id])
    ensures RepairsFit(n)
  {
    forall id | id in n.outbox ensures RepairFits(n, id) {
      assert RepairFits(m, id);
    }
    forall id | id in n.repairs ensures MappingFits(n, id) {
      assert MappingFits(m, id);
    }
  }

  /** Every row keeps its envelope; accepted ones may get another status, receipt or
      error, but a receipt exactly with the queued status. */
  ghost predicate Restamps(m: Mail, n: Mail) {
    && SameEnvelopes(m, n)
    && (forall id :: id in m.outbox ==> Restamped(m.outbox[id], n.outbox[id]))
  }

  predicate Restamped(r: Row, t: Row) {
    && RowKept(r, t) && (t.receipt <==> t.status.PlatformQueued?)
    && (t.status.Accepted? ==> r.status.Accepted?)
  }

  /** No session is added or renumbered. */
  ghost predicate FewerSessions(m: Mail, n: Mail) {
    forall p :: p in n.sessions ==> p in m.sessions && n.sessions[p] == m.sessions[p]
  }

  lemma RestampKeeps(m: Mail, n: Mail, installed: set<SessionId>)
    requires Fits(m, installed) && Restamps(m, n) && FewerSessions(m, n) && PolicyFits(n) && PolicyKept(m, n)
    ensures Fits(n, installed) && Kept(m, n)
  {
    forall id | id in n.outbox ensures RowFits(n, installed, id) {
      assert RowFits(m, installed, id) && Restamped(m.outbox[id], n.outbox[id]);
    }
    forall id | id in m.outbox ensures RowKept(m.outbox[id], n.outbox[id]) {
      assert Restamped(m.outbox[id], n.outbox[id]);
    }
    RepairsKept(m, n);
    SequencesKept(m, n, installed);
  }

  /** The rows alone: their receipts fit, and the pending ones are under the policy. */
  ghost predicate RowsPlain(m: Mail) {
    forall id :: id in m.outbox ==> (m.outbox[id].receipt <==> m.outbox[id].status.PlatformQueued?)
  }

  lemma FitsPlain(m: Mail, installed: set<SessionId>)
    requires RowsFit(m, installed)
    ensures RowsPlain(m)
  {
    forall id | id in m.outbox ensures m.outbox[id].receipt <==> m.outbox[id].status.PlatformQueued? {
      assert RowFits(m, installed, id);
    }
  }

  lemma UpdateRestamps(m: Mail, id: MessageId, status: Status, error: ErrorText, attempts: nat, receipt: bool, next: Instant)
    requires RowsPlain(m) && PolicyFits(m) && (receipt <==> status.PlatformQueued?)
    ensures var n := Update(m, id, status, error, attempts, receipt, next);
      Restamps(m, n) && FewerSessions(m, n) && PolicyFits(n) && PolicyKept(m, n)
  {
    if id in m.outbox && m.outbox[id].status.Accepted? {
      var r := m.outbox[id];
      RowRestamps(m, id, r.(status := status, lastError := error, attempts := Max(r.attempts, attempts),
                            nextAttempt := next, receipt := receipt || r.receipt));
    }
  }

  lemma RowRestamps(m: Mail, id: MessageId, t: Row)
    requires RowsPlain(m) && PolicyFits(m) && id in m.outbox && m.outbox[id].status.Accepted?
    requires t.envelope == m.outbox[id].envelope && t.request == m.outbox[id].request
    requires t.policy == m.outbox[id].policy && t.session == m.outbox[id].session
    requires t.receipt <==> t.status.PlatformQueued?
    ensures var n := m.(outbox := m.outbox[id := t]);
      Restamps(m, n) && FewerSessions(m, n) && PolicyFits(n) && PolicyKept(m, n)
  {
    var n := m.(outbox := m.outbox[id := t]);
    assert n.outbox.Keys == m.outbox.Keys;
    forall j | j in m.outbox ensures Restamped(m.outbox[j], n.outbox[j]) && UnderPolicy(n, n.outbox[j]) {
      assert UnderPolicy(m, m.outbox[j]);
    }
  }

  lemma UpdateKeeps(m: Mail, installed: set<SessionId>, id: MessageId, status: Status, error: ErrorText,
                    attempts: nat, receipt: bool, next: Instant)
    requires Fits(m, installed) && (receipt <==> status.PlatformQueued?)
    ensures Fits(Update(m, id, status, error, attempts, receipt, next), installed)
    ensures Kept(m, Update(m, id, status, error, attempts, receipt, next))
  {
    FitsPlain(m, installed);
    UpdateRestamps(m, id, status, error, attempts, receipt, next);
    RestampKeeps(m, Update(m, id, status, error, attempts, receipt, next), installed);
  }

  lemma DeferRestamps(m: Mail, id: MessageId, next: Instant)
    requires RowsPlain(m) && PolicyFits(m)
    ensures var n := Defer(m, id, next); Restamps(m, n) && FewerSessions(m, n) && PolicyFits(n) && PolicyKept(m, n)
  {
    if id in m.outbox && m.outbox[id].status.Accepted? {
      RowRestamps(m, id, m.outbox[id].(nextAttempt := next));
    }
  }

  lemma DeferKeeps(m: Mail, installed: set<SessionId>, id: MessageId, next: Instant)
    requires Fits(m, installed)
    ensures Fits(Defer(m, id, next), installed) && Kept(m, Defer(m, id, next))
  {
    FitsPlain(m, installed);
    DeferRestamps(m, id, next);
    RestampKeeps(m, Defer(m, id, next), installed);
  }

  lemma RetireRestamps(m: Mail)
    requires RowsPlain(m) && PolicyFits(m)
    ensures var n := Retire(m); Restamps(m, n) && FewerSessions(m, n) && PolicyFits(n) && PolicyKept(m, n)
  {
    var n := Retire(m);
    forall j | j in m.outbox ensures Restamped(m.outbox[j], n.outbox[j]) && UnderPolicy(n, n.outbox[j]) {
      assert UnderPolicy(m, m.outbox[j]);
    }
  }

  lemma RetireKeeps(m: Mail, installed: set<SessionId>)
    requires Fits(m, installed)
    ensures Fits(Retire(m), installed) && Kept(m, Retire(m))
  {
    FitsPlain(m, installed);
    RetireRestamps(m);
    RestampKeeps(m, Retire(m), installed);
  }

  /** Rows stay, or are quarantined. */
  lemma QuarantineRestamps(m: Mail, n: Mail)
    requires RowsPlain(m) && n.self == m.self && n.repairs == m.repairs && n.outbox.Keys == m.outbox.Keys
    requires forall id :: id in m.outbox ==> n.outbox[id] == m.outbox[id] || n.outbox[id] == Quarantine(m.outbox[id])
    ensures Restamps(m, n)
  {
    forall j | j in m.outbox ensures Restamped(m.outbox[j], n.outbox[j]) {
    }
  }

  lemma PolicyRestamps(m: Mail, p: Policy)
    requires RowsPlain(m) && PolicyFits(m) && SavePolicy(m, p).Some?
    ensures var n := SavePolicy(m, p).value.(engine := Some(p));
      Restamps(m, n) && FewerSessions(m, n) && PolicyFits(n) && PolicyKept(m, n)
  {
    var n := SavePolicy(m, p).value.(engine := Some(p));
    assert n.outbox.Keys == m.outbox.Keys;
    QuarantineRestamps(m, n);
    forall j | j in m.outbox ensures UnderPolicy(n, n.outbox[j]) {
      assert UnderPolicy(m, m.outbox[j]);
    }
  }

  /** A new epoch leaves no pending work and no session under the old policy. */
  lemma RefreshKeeps(m: Mail, installed: set<SessionId>, p: Policy)
    requires Fits(m, installed) && RefreshPolicy(m, p).Some?
    ensures Fits(RefreshPolicy(m, p).value, installed) && Kept(m, RefreshPolicy(m, p).value)
  {
    FitsPlain(m, installed);
    PolicyRestamps(m, p);
    RestampKeeps(m, RefreshPolicy(m, p).value, installed);
  }

  lemma DeleteSessionKeeps(m: Mail, installed: set<SessionId>, peer: Urn)
    requires Fits(m, installed)
    ensures Fits(DeleteSession(m, peer), installed) && Kept(m, DeleteSession(m, peer))
  {
    FitsPlain(m, installed);
    assert Restamps(m, DeleteSession(m, peer)) && PolicyFits(DeleteSession(m, peer)) by {
      DeleteRestamps(m, peer);
    }
    RestampKeeps(m, DeleteSession(m, peer), installed);
  }

  lemma DeleteRestamps(m: Mail, peer: Urn)
    requires RowsPlain(m) && PolicyFits(m)
    ensures Restamps(m, DeleteSession(m, peer)) && PolicyFits(DeleteSession(m, peer))
  {
    var n := DeleteSession(m, peer);
    forall j | j in n.outbox ensures UnderPolicy(n, n.outbox[j]) {
      assert UnderPolicy(m, m.outbox[j]);
    }
  }

  /** A worker that restarts holds no policy until it has refreshed it. */
  lemma RestartKeeps(m: Mail, installed: set<SessionId>)
    requires Fits(m, installed)
    ensures Fits(m.(engine := None), installed) && Kept(m, m.(engine := None))
  {
    FitsPlain(m, installed);
    RestartRestamps(m);
    RestampKeeps(m, m.(engine := None), installed);
  }

  lemma RestartRestamps(m: Mail)
    requires RowsPlain(m) && PolicyFits(m)
    ensures Restamps(m, m.(engine := None)) && PolicyFits(m.(engine := None))
  {
    forall j | j in m.outbox ensures UnderPolicy(m.(engine := None), m.outbox[j]) {
      assert UnderPolicy(m, m.outbox[j]);
    }
  }

  // ---- A new session ----

  /** A completed handshake leaves a session with both counters at zero. */
  predicate NewSession(m: Mail, installed: set<SessionId>, s: Session) {
    && s.id !in installed && s.sendSequence == 0 && s.receiveSequence == 0
    && m.engine.Some? && s.policy == m.engine.value.hash
  }

  lemma FreshUnused(m: Mail, installed: set<SessionId>, s: SessionId)
    requires RowsFit(m, installed) && s !in installed
    ensures forall id, k: nat :: !Ordinary(m, id, s, k)
  {
    forall id, k: nat ensures !Ordinary(m, id, s, k) {
      if id in m.outbox {
        assert RowFits(m, installed, id);
      }
    }
  }

  lemma SaveSessionKeeps(m: Mail, installed: set<SessionId>, peer: Urn, s: Session)
    requires Fits(m, installed) && NewSession(m, installed, s)
    ensures Fits(SaveSession(m, peer, s), installed + {s.id}) && Kept(m, SaveSession(m, peer, s))
  {
    var n := SaveSession(m, peer, s);
    assert SameEnvelopes(m, n);
    SameOrdinary(m, n);
    forall id | id in n.outbox ensures RowFits(n, installed + {s.id}, id) && UnderPolicy(n, n.outbox[id]) {
      assert RowFits(m, installed, id) && UnderPolicy(m, m.outbox[id]);
    }
    RepairsKept(m, n);
    forall p | p in n.sessions ensures SessionFits(n, installed + {s.id}, p) {
      if p != peer {
        assert SessionFits(m, installed, p);
        forall id, k: nat | Ordinary(n, id, n.sessions[p].id, k)
          ensures k <= n.sessions[p].sendSequence && EnvelopeOf(n, id).recipient == p
        {
          assert Ordinary(m, id, m.sessions[p].id, k);
        }
      } else {
        FreshUnused(m, installed, s.id);
      }
    }
    forall p, q | p in n.sessions && q in n.sessions && n.sessions[p].id == n.sessions[q].id ensures p == q {
      assert p in m.sessions ==> SessionFits(m, installed, p);
      assert q in m.sessions ==> SessionFits(m, installed, q);
    }
    forall id, t, k, j | Ordinary(n, id, t, k) && 1 <= j <= k ensures Used(n, t, j) {
      assert Ordinary(m, id, t, k);
    }
  }

  // ---- Accepting, sealing and repairing ----

  /** One new row that is not an ordinary sealed message. */
  lemma AddedOrdinary(m: Mail, n: Mail, id: MessageId, r: Row)
    requires n.outbox == m.outbox[id := r] && id !in m.outbox && (id.SkipOf? || r.envelope.None?)
    ensures forall j, s, k :: Ordinary(n, j, s, k) <==> Ordinary(m, j, s, k)
    ensures forall s, k :: Used(n, s, k) <==> Used(m, s, k)
  {
    forall j, s, k ensures Ordinary(n, j, s, k) <==> Ordinary(m, j, s, k) {
    }
    forall s, k ensures Used(n, s, k) <==> Used(m, s, k) {
      if Used(m, s, k) {
        var j :| Ordinary(m, j, s, k);
        assert Ordinary(n, j, s, k);
      }
      if Used(n, s, k) {
        var j :| Ordinary(n, j, s, k);
        assert Ordinary(m, j, s, k);
      }
    }
  }

  lemma AddedSequences(m: Mail, n: Mail, installed: set<SessionId>, id: MessageId, r: Row)
    requires UsedOnce(m) && NoGaps(m) && SessionsFit(m, installed) && n.sessions == m.sessions
    requires n.outbox == m.outbox[id := r] && id !in m.outbox && (id.SkipOf? || r.envelope.None?)
    ensures UsedOnce(n) && NoGaps(n) && SessionsFit(n, installed)
  {
    AddedOrdinary(m, n, id, r);
    forall j, s, k, i | Ordinary(n, j, s, k) && 1 <= i <= k ensures Used(n, s, i) {
      assert Ordinary(m, j, s, k);
    }
    forall p | p in n.sessions ensures SessionFits(n, installed, p) {
      assert SessionFits(m, installed, p);
      forall j, k: nat | Ordinary(n, j, n.sessions[p].id, k)
        ensures k <= n.sessions[p].sendSequence && EnvelopeOf(n, j).recipient == p
      {
        assert Ordinary(m, j, m.sessions[p].id, k);
      }
    }
  }

  lemma AddedRows(m: Mail, n: Mail, installed: set<SessionId>, id: MessageId, r: Row)
    requires RowsFit(m, installed) && PolicyFits(m)
    requires n == m.(outbox := m.outbox[id := r], repairs := n.repairs) && id !in m.outbox
    requires RowFits(n, installed, id) && UnderPolicy(m, r)
    ensures RowsFit(n, installed) && PolicyFits(n)
    ensures forall j :: j in m.outbox ==> j in n.outbox && RowKept(m.outbox[j], n.outbox[j])
  {
    forall j | j in n.outbox ensures RowFits(n, installed, j) && UnderPolicy(n, n.outbox[j]) {
      assert j in m.outbox ==> RowFits(m, installed, j) && UnderPolicy(m, m.outbox[j]);
    }
  }

  lemma AcceptKeeps(m: Mail, installed: set<SessionId>, id: MessageId, request: Request, now: Instant)
    requires Fits(m, installed) && Accept(m, id, request, now).Some?
    ensures Fits(Accept(m, id, request, now).value, installed) && Kept(m, Accept(m, id, request, now).value)
  {
    var n := Accept(m, id, request, now).value;
    if id !in m.outbox {
      var r := n.outbox[id];
      AddedRows(m, n, installed, id, r);
      AddedSequences(m, n, installed, id, r);
      NewRowRepairs(m, n, id, r);
    }
  }

  lemma NewRowRepairs(m: Mail, n: Mail, id: MessageId, r: Row)
    requires RepairsFit(m) && n == m.(outbox := m.outbox[id := r]) && id !in m.outbox && id.UserMessage?
    ensures RepairsFit(n)
  {
    forall j | j in n.outbox ensures RepairFits(n, j) {
      assert j in m.outbox ==> RepairFits(m, j);
    }
    forall j | j in n.repairs ensures MappingFits(n, j) {
      assert MappingFits(m, j);
    }
  }

  /** The envelope that the sealing step produces. */
  predicate SealedFor(m: Mail, id: MessageId, peer: Urn, e: Envelope) {
    && id in m.outbox && peer in m.sessions && peer == m.outbox[id].request.recipient
    && e.id == id && e.sender == m.self && e.recipient == peer && e.session == m.sessions[peer].id
    && e.sequence == m.sessions[peer].sendSequence + 1 && e.policy == m.sessions[peer].policy
    && e.body == Business(m.outbox[id].request.text)
  }

  /** Sealing gives the row the next unused number of its session. */
  predicate Seals(m: Mail, n: Mail, id: MessageId, e: Envelope) {
    && id in m.outbox && m.outbox[id].envelope.None? && m.outbox[id].status.Accepted? && id.UserMessage?
    && SealedFor(m, id, e.recipient, e)
    && n == m.(sessions := m.sessions[e.recipient := m.sessions[e.recipient].(sendSequence := e.sequence)],
               outbox := m.outbox[id := m.outbox[id].(envelope := Some(e), policy := e.policy, session := e.session)])
  }

  lemma SealedOrdinary(m: Mail, n: Mail, id: MessageId, e: Envelope)
    requires Seals(m, n, id, e)
    ensures forall j, s, k :: Ordinary(n, j, s, k) <==> Ordinary(m, j, s, k) || (j == id && s == e.session && k == e.sequence)
    ensures forall s, k :: Used(m, s, k) ==> Used(n, s, k)
    ensures Used(n, e.session, e.sequence)
  {
    assert Ordinary(n, id, e.session, e.sequence);
    forall s, k | Used(m, s, k) ensures Used(n, s, k) {
      var j :| Ordinary(m, j, s, k);
      assert Ordinary(n, j, s, k);
    }
  }

  lemma SealSequences(m: Mail, n: Mail, installed: set<SessionId>, id: MessageId, e: Envelope)
    requires UsedOnce(m) && NoGaps(m) && SessionsFit(m, installed) && Seals(m, n, id, e)
    ensures UsedOnce(n) && NoGaps(n) && SessionsFit(n, installed)
  {
    SealedOrdinary(m, n, id, e);
    assert SessionFits(m, installed, e.recipient);
    forall j, s, k: nat, i: nat | Ordinary(n, j, s, k) && 1 <= i <= k ensures Used(n, s, i) {
      if j == id && i < k {
        var top :| Ordinary(m, top, e.session, m.sessions[e.recipient].sendSequence);
        assert Used(m, s, i);
      } else if j != id {
        assert Used(m, s, i);
      }
    }
    forall p | p in n.sessions ensures SessionFits(n, installed, p) {
      assert SessionFits(m, installed, p);
      forall j, k: nat | Ordinary(n, j, n.sessions[p].id, k)
        ensures k <= n.sessions[p].sendSequence && EnvelopeOf(n, j).recipient == p
      {
        assert j != id ==> Ordinary(m, j, m.sessions[p].id, k);
      }
    }
  }

  lemma SealRows(m: Mail, n: Mail, installed: set<SessionId>, id: MessageId, e: Envelope)
    requires RowsFit(m, installed) && RepairsFit(m) && PolicyFits(m) && Seals(m, n, id, e) && e.session in installed
    ensures RowsFit(n, installed) && RepairsFit(n) && PolicyFits(n) && Kept(m, n)
  {
    forall j | j in n.outbox
      ensures RowFits(n, installed, j) && RepairFits(n, j) && UnderPolicy(n, n.outbox[j]) && RowKept(m.outbox[j], n.outbox[j])
    {
      assert RowFits(m, installed, j) && RepairFits(m, j) && UnderPolicy(m, m.outbox[j]);
    }
    forall j | j in n.repairs ensures MappingFits(n, j) {
      assert MappingFits(m, j);
    }
  }

  lemma SealKeeps(m: Mail, n: Mail, installed: set<SessionId>, id: MessageId, e: Envelope)
    requires Fits(m, installed) && Seals(m, n, id, e)
    ensures Fits(n, installed) && Kept(m, n)
  {
    assert SessionFits(m, installed, e.recipient);
    SealRows(m, n, installed, id, e);
    SealSequences(m, n, installed, id, e);
  }

  lemma SaveSkipCases(m: Mail, id: MessageId, e: Envelope)
    requires SaveSkip(m, id, e).Some?
    ensures SaveSkip(m, id, e).value == m || (
      && id !in m.repairs && Refuses(m, id, e) && m.outbox[id].policy == e.policy && m.outbox[id].session == e.session
      && e.recipient in m.sessions && m.sessions[e.recipient].id == e.session && m.sessions[e.recipient].policy == e.policy
      && SkipOf(e) !in m.outbox && e.sequence >= 1
      && var n := SaveSkip(m, id, e).value;
         && SkipOf(e) in n.outbox && n.outbox[SkipOf(e)].envelope == Some(SkipEnvelope(e))
         && n.outbox[SkipOf(e)].status.Accepted? && !n.outbox[SkipOf(e)].receipt
         && n.outbox[SkipOf(e)].policy == e.policy && n.outbox[SkipOf(e)].session == e.session
         && n.outbox[SkipOf(e)].request.recipient == e.recipient
         && n == m.(outbox := m.outbox[SkipOf(e) := n.outbox[SkipOf(e)]],
                    repairs := m.repairs[id := Repair(SkipOf(e), e, e.session, e.sequence)]))
  {
  }

  lemma SaveSkipKeeps(m: Mail, installed: set<SessionId>, id: MessageId, e: Envelope)
    requires Fits(m, installed) && SaveSkip(m, id, e).Some?
    ensures Fits(SaveSkip(m, id, e).value, installed) && Kept(m, SaveSkip(m, id, e).value)
  {
    SaveSkipCases(m, id, e);
    var n := SaveSkip(m, id, e).value;
    if n == m {
      FitsPlain(m, installed);
      forall j | j in m.outbox ensures RowKept(m.outbox[j], n.outbox[j]) {
      }
    } else {
      assert RowFits(m, installed, id);
      var r := n.outbox[SkipOf(e)];
      AddedRows(m, n, installed, SkipOf(e), r);
      AddedSequences(m, n, installed, SkipOf(e), r);
      SkipRepairs(m, n, id, e, r);
    }
  }

  lemma SkipRepairs(m: Mail, n: Mail, id: MessageId, e: Envelope, r: Row)
    requires RepairsFit(m) && Refuses(m, id, e) && e.id == id && id !in m.repairs && SkipOf(e) !in m.outbox
    requires n == m.(outbox := m.outbox[SkipOf(e) := r], repairs := m.repairs[id := Repair(SkipOf(e), e, e.session, e.sequence)])
    ensures RepairsFit(n)
  {
    forall j | j in n.outbox ensures RepairFits(n, j) {
      assert j in m.outbox ==> RepairFits(m, j);
    }
    forall j | j in n.repairs ensures MappingFits(n, j) {
      assert j in m.repairs ==> MappingFits(m, j);
    }
  }

  // ---- Receiving ----

  /** A commit touches the inbox tables and one session's receive counter only. */
  lemma ReceiveFrame(m: Mail, policy: Policy, e: Envelope)
    requires Receive(m, policy, e).Some?
    ensures var n := Receive(m, policy, e).value;
      && n.self == m.self && n.outbox == m.outbox && n.repairs == m.repairs && n.stored == m.stored && n.engine == m.engine
      && n.sessions.Keys == m.sessions.Keys
      && (forall p :: p in n.sessions ==> n.sessions[p] == m.sessions[p].(receiveSequence := n.sessions[p].receiveSequence))
  {
    ConsumeFrame(m, e);
  }

  lemma ConsumeFrame(m: Mail, e: Envelope)
    ensures Consume(m, e).Some? ==>
      var n := Consume(m, e).value;
      && n == m.(sessions := n.sessions) && n.sessions.Keys == m.sessions.Keys
      && (forall p :: p in n.sessions ==> n.sessions[p] == m.sessions[p].(receiveSequence := n.sessions[p].receiveSequence))
  {
  }

  /** Receiving keeps the invariant and leaves the outgoing side as it was: outbox, repairs,
      policy, and of every session all but the receive counter. */
  lemma ReceiveKeeps(m: Mail, installed: set<SessionId>, policy: Policy, e: Envelope)
    requires Fits(m, installed) && Receive(m, policy, e).Some?
    ensures Fits(Receive(m, policy, e).value, installed) && Kept(m, Receive(m, policy, e).value)
    ensures var n := Receive(m, policy, e).value;
      && n.outbox == m.outbox && n.repairs == m.repairs && n.stored == m.stored && n.engine == m.engine
      && n.sessions.Keys == m.sessions.Keys
      && (forall p :: p in n.sessions ==> n.sessions[p] == m.sessions[p].(receiveSequence := n.sessions[p].receiveSequence))
  {
    ReceiveFrame(m, policy, e);
    FrameKeeps(m, Receive(m, policy, e).value, installed);
  }

  lemma FrameKeeps(m: Mail, n: Mail, installed: set<SessionId>)
    requires Fits(m, installed)
    requires n.self == m.self && n.outbox == m.outbox && n.repairs == m.repairs && n.stored == m.stored && n.engine == m.engine
    requires n.sessions.Keys == m.sessions.Keys
    requires forall p :: p in n.sessions ==> n.sessions[p] == m.sessions[p].(receiveSequence := n.sessions[p].receiveSequence)
    ensures Fits(n, installed) && Kept(m, n)
  {
    ReceivedRows(m, n, installed);
    SequencesKept(m, n, installed);
    ReceivedPolicy(m, n);
  }

  lemma ReceivedRows(m: Mail, n: Mail, installed: set<SessionId>)
    requires RowsFit(m, installed) && RepairsFit(m)
    requires n.outbox == m.outbox && n.repairs == m.repairs && n.stored == m.stored && n.self == m.self
    ensures RowsFit(n, installed) && RepairsFit(n) && Kept(m, n)
  {
    forall j | j in n.outbox ensures RowFits(n, installed, j) && RepairFits(n, j) && RowKept(m.outbox[j], n.outbox[j]) {
      assert RowFits(m, installed, j) && RepairFits(m, j);
    }
    forall j | j in n.repairs ensures MappingFits(n, j) {
      assert MappingFits(m, j);
    }
  }

  lemma ReceivedPolicy(m: Mail, n: Mail)
    requires PolicyFits(m) && n.outbox == m.outbox && n.stored == m.stored && n.engine == m.engine
    requires forall p :: p in n.sessions ==> p in m.sessions && n.sessions[p].policy == m.sessions[p].policy
    ensures PolicyFits(n)
  {
    forall j | j in n.outbox ensures UnderPolicy(n, n.outbox[j]) {
      assert UnderPolicy(m, m.outbox[j]);
    }
  }

  // ---- Handing a row over ----

  lemma RetryKeeps(m: Mail, installed: set<SessionId>, id: MessageId, attempts: nat, next: Instant)
    requires Fits(m, installed)
    ensures Fits(Retry(m, id, attempts, next), installed) && Kept(m, Retry(m, id, attempts, next))
  {
    UpdateKeeps(m, installed, id, Accepted, OtherText, attempts + 1, false, next);
  }

  lemma StayKept(m: Mail)
    ensures Kept(m, m)
  {
  }

  lemma HandOverKeeps(m: Mail, installed: set<SessionId>, id: MessageId, e: Envelope, attempts: nat, o: Outside)
    requires Fits(m, installed)
    ensures Fits(HandOver(m, id, e, attempts, o).mail, installed) && Kept(m, HandOver(m, id, e, attempts, o).mail)
  {
    if !o.verifies {
      UpdateKeeps(m, installed, id, Quarantined, OtherText, attempts, false, o.next);
    } else {
      match o.reply
      case Receipted => UpdateKeeps(m, installed, id, PlatformQueued, NoError, attempts + 1, true, o.next);
      case Refused(exact) =>
        UpdateKeeps(m, installed, id, Conflict, if exact then ConflictText else OtherText, attempts + 1, false, o.next);
      case Lost(_) => RetryKeeps(m, installed, id, attempts, o.next);
      case Crashed(_) => StayKept(m);
    }
  }

  lemma StartHandshakeKeeps(m: Mail, installed: set<SessionId>, id: MessageId, attempts: nat, o: Outside)
    requires Fits(m, installed)
    ensures Fits(StartHandshake(m, id, attempts, o), installed) && Kept(m, StartHandshake(m, id, attempts, o))
  {
    RetryKeeps(m, installed, id, attempts, o.next);
    DeferKeeps(m, installed, id, o.next);
  }

  /** What is handed over is the row's own stored envelope, under the worker's policy. */
  predicate HandedOver(m: Mail, id: MessageId, policy: Policy, e: Envelope) {
    && id in m.outbox && m.outbox[id].envelope == Some(e) && m.outbox[id].policy == policy.hash
  }

  predicate SealsNext(m: Mail, n: Mail, id: MessageId, policy: Policy) {
    && id in m.outbox && m.outbox[id].request.recipient in m.sessions
    && Seals(m, n, id, Sealed(m, id, policy)) && m.sessions[m.outbox[id].request.recipient].policy == policy.hash
  }

  /** The tables after the preparation: unchanged, sealed, or without the stale session. */
  predicate Prepared(m: Mail, n: Mail, id: MessageId, policy: Policy)
    requires id in m.outbox
  {
    n == m || SealsNext(m, n, id, policy) || n == DeleteSession(m, m.outbox[id].request.recipient)
  }

  /** The ways in which the handling of one row ends. */
  predicate Ends(m: Mail, n: Mail, id: MessageId, policy: Policy, o: Outside, sent: Sent)
    requires id in m.outbox
  {
    var row := m.outbox[id];
    || sent == Sent(Update(n, id, Expired, OtherText, row.attempts, false, o.next), None)
    || sent == Sent(Update(n, id, Quarantined, OtherText, row.attempts, false, o.next), None)
    || sent == Sent(StartHandshake(n, id, row.attempts, o), None)
    || sent == Sent(Retry(n, id, row.attempts, o.next), None)
    || (id in n.outbox && n.outbox[id].envelope.Some? && n.outbox[id].policy == policy.hash
        && sent == HandOver(n, id, n.outbox[id].envelope.value, row.attempts, o))
  }

  lemma DeliverCases(m: Mail, id: MessageId, policy: Policy, o: Outside, now: Instant) returns (n: Mail)
    requires id in m.outbox && m.outbox[id].status.Accepted? && (id.SkipOf? ==> m.outbox[id].envelope.Some?)
    ensures Prepared(m, n, id, policy) && Ends(m, n, id, policy, o, Deliver(m, id, policy, o, now))
  {
    var row := m.outbox[id];
    var peer := row.request.recipient;
    n := m;
    if !Overdue(row.request, now) && row.envelope.None?
       && peer in m.sessions && m.sessions[peer].ready && m.sessions[peer].policy == policy.hash && o.recipientKey.Some?
    {
      if m.sessions[peer].peerKey != o.recipientKey.value {
        n := DeleteSession(m, peer);
      } else {
        n := SaveEnvelope(m, id, peer, m.sessions[peer].sendSequence + 1, Sealed(m, id, policy), policy.hash, m.sessions[peer].id).value;
      }
    }
  }

  lemma PreparedKeeps(m: Mail, n: Mail, installed: set<SessionId>, id: MessageId, policy: Policy)
    requires Fits(m, installed) && id in m.outbox && Prepared(m, n, id, policy)
    ensures Fits(n, installed) && Kept(m, n)
  {
    if n == m {
      StayKept(m);
    } else if n == DeleteSession(m, m.outbox[id].request.recipient) {
      DeleteSessionKeeps(m, installed, m.outbox[id].request.recipient);
    } else {
      SealKeeps(m, n, installed, id, Sealed(m, id, policy));
    }
  }

  lemma EndsKeeps(m: Mail, n: Mail, installed: set<SessionId>, id: MessageId, policy: Policy, o: Outside, sent: Sent)
    requires Fits(n, installed) && id in m.outbox && Ends(m, n, id, policy, o, sent)
    ensures Fits(sent.mail, installed) && Kept(n, sent.mail)
  {
    var row := m.outbox[id];
    UpdateKeeps(n, installed, id, Expired, OtherText, row.attempts, false, o.next);
    UpdateKeeps(n, installed, id, Quarantined, OtherText, row.attempts, false, o.next);
    RetryKeeps(n, installed, id, row.attempts, o.next);
    StartHandshakeKeeps(n, installed, id, row.attempts, o);
    if id in n.outbox && n.outbox[id].envelope.Some? {
      HandOverKeeps(n, installed, id, n.outbox[id].envelope.value, row.attempts, o);
    }
  }

  /** Handling a row hands over at most the row's own envelope, sealed under the worker's
      policy. */
  lemma EndsHandOver(m: Mail, n: Mail, id: MessageId, policy: Policy, o: Outside, sent: Sent)
    requires id in m.outbox && Ends(m, n, id, policy, o, sent)
    ensures sent.handed.Some? ==> HandedOver(sent.mail, id, policy, sent.handed.value)
  {
    if sent.handed.Some? {
      HandOverRow(n, id, m.outbox[id].attempts, o);
    }
  }

  lemma HandOverRow(n: Mail, id: MessageId, attempts: nat, o: Outside)
    requires id in n.outbox && n.outbox[id].envelope.Some?
    ensures var sent := HandOver(n, id, n.outbox[id].envelope.value, attempts, o);
      && (sent.handed.Some? ==> sent.handed == n.outbox[id].envelope)
      && id in sent.mail.outbox && sent.mail.outbox[id].envelope == n.outbox[id].envelope
      && sent.mail.outbox[id].policy == n.outbox[id].policy
  {
  }

  lemma DeliverKeeps(m: Mail, installed: set<SessionId>, id: MessageId, policy: Policy, o: Outside, now: Instant)
    requires Fits(m, installed) && id in m.outbox && m.outbox[id].status.Accepted?
    ensures var sent := Deliver(m, id, policy, o, now);
      && Fits(sent.mail, installed) && Kept(m, sent.mail)
      && (sent.handed.Some? ==> HandedOver(sent.mail, id, policy, sent.handed.value))
  {
    assert RowFits(m, installed, id);
    var n := DeliverCases(m, id, policy, o, now);
    var sent := Deliver(m, id, policy, o, now);
    PreparedKeeps(m, n, installed, id, policy);
    EndsKeeps(m, n, installed, id, policy, o, sent);
    EndsHandOver(m, n, id, policy, o, sent);
    KeptTrans(m, n, sent.mail);
  }
}
