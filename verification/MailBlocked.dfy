/** A session whose next number is blocked by an occupied identifier delivers nothing
    more, whatever either side does. */
module MailBlocked {
  import opened MailTypes
  import opened MailOps
  import opened MailInvariant
  import opened MailDelivery

  // ---- Rows of the inbox stay ----

  ghost predicate RowsStay(m: Mail, n: Mail) {
    && (forall id :: id in m.inbox ==> id in n.inbox && n.inbox[id] == m.inbox[id])
    && (forall id :: id in m.skipped ==> id in n.skipped && n.skipped[id] == m.skipped[id])
  }

  lemma OccupiedStays(m: Mail, n: Mail, e: Envelope)
    requires RowsStay(m, n) && Occupied(m, e)
    ensures Occupied(n, e)
  {
  }

  lemma OccupiedUnconsumed(m: Mail, policy: Policy, e: Envelope)
    requires Occupied(m, e)
    ensures Receive(m, policy, e).Some? ==> !Consumed(m, Receive(m, policy, e).value, e)
  {
  }

  lemma CommitStays(site: Site, policy: Policy, e: Envelope)
    ensures RowsStay(site.mail, Commit(site, policy, e).mail)
  {
  }

  /** Every action of either side keeps the rows of every inbox. */
  lemma ActStays(s: System, a: Action, side: Side)
    requires SystemFits(s)
    ensures RowsStay(At(s, side).mail, At(Act(s, a), side).mail)
  {
    var site := At(s, a.side);
    match a
    case Delivers(_, id, outside, now) =>
      if site.mail.engine.Some? && IsNext(site.mail, id, now) {
        DeliverFrame(site.mail, site.installed, id, site.mail.engine.value, outside, now);
      }
    case Receives(_, e) =>
      if site.mail.engine.Some? {
        CommitStays(site, site.mail.engine.value, e);
      }
    case _ => QuietStays(s, a);
  }

  lemma QuietStays(s: System, a: Action)
    requires !a.Delivers? && !a.Receives?
    ensures RowsStay(At(s, a.side).mail, At(Act(s, a), a.side).mail)
  {
  }

  // ---- A blocked number ----

  /** `e` is an ordinary envelope of `other` that the platform has admitted; at `site` it
      has the next number of its session, and its identifier is occupied. */
  ghost predicate Blocked(site: Site, other: Site, e: Envelope) {
    && e.sender == other.mail.self && e.id.UserMessage? && Holds(other.mail, e)
    && other.mail.outbox[e.id].status.PlatformQueued?
    && Occupied(site.mail, e)
    && e.session in site.commits && |site.commits[e.session]| == e.sequence - 1
    && (forall p :: p in site.mail.sessions && site.mail.sessions[p].id == e.session ==> p == e.sender)
  }

  /** A commit of that number would be the envelope itself or a repair for it, and an
      admitted envelope has no repair. */
  lemma OnlyItself(s: System, side: Side, e: Envelope, g: Envelope)
    requires SystemFits(s) && Blocked(At(s, side), At(s, Other(side)), e)
    requires Holds(At(s, Other(side)).mail, g) && g.session == e.session && g.sequence == e.sequence
    ensures g == e
  {
    var other := At(s, Other(side));
    assert RowFits(other.mail, other.installed, e.id) && RowFits(other.mail, other.installed, g.id);
    SlotChain(other.mail, other.installed, e.id, g.id);
  }

  /** No arrival is committed in the session. */
  lemma NoneConsumed(s: System, side: Side, e: Envelope, g: Envelope)
    requires SystemFits(s) && Blocked(At(s, side), At(s, Other(side)), e) && MayArrive(s, g)
    requires At(s, side).mail.engine.Some? && g.session == e.session
    requires Receive(At(s, side).mail, At(s, side).mail.engine.value, g).Some?
    ensures var m := At(s, side).mail; !Consumed(m, Receive(m, m.engine.value, g).value, g)
  {
    var site := At(s, side);
    OccupiedUnconsumed(site.mail, site.mail.engine.value, e);
    ReceiveCases(site.mail, site.mail.engine.value, g);
    if Consumed(site.mail, Receive(site.mail, site.mail.engine.value, g).value, g) {
      assert CounterFits(site.mail, site.commits, g.sender);
      ArrivedHeld(s, side, g);
      OnlyItself(s, side, e, g);
    }
  }

  lemma ArrivalStuck(s: System, side: Side, e: Envelope, g: Envelope)
    requires SystemFits(s) && Blocked(At(s, side), At(s, Other(side)), e) && MayArrive(s, g)
    requires At(s, side).mail.engine.Some?
    ensures var next := Commit(At(s, side), At(s, side).mail.engine.value, g);
      e.session in next.commits && next.commits[e.session] == At(s, side).commits[e.session]
  {
    if Receive(At(s, side).mail, At(s, side).mail.engine.value, g).Some? && g.session == e.session {
      NoneConsumed(s, side, e, g);
    }
  }

  lemma QuietLog(s: System, a: Action, session: SessionId)
    requires session in At(s, a.side).commits && session in At(s, a.side).installed && !a.Receives?
    ensures var next := At(Act(s, a), a.side);
      session in next.commits && next.commits[session] == At(s, a.side).commits[session]
  {
  }

  lemma LogStuck(s: System, side: Side, e: Envelope, a: Action)
    requires SystemFits(s) && Blocked(At(s, side), At(s, Other(side)), e)
    ensures var site, next := At(s, side), At(Act(s, a), side);
      e.session in next.commits && next.commits[e.session] == site.commits[e.session]
  {
    if a.side == side && !a.Receives? {
      QuietLog(s, a, e.session);
    } else if a.side == side && At(s, side).mail.engine.Some? && MayArrive(s, a.envelope) {
      ArrivalStuck(s, side, e, a.envelope);
    }
  }

  /** Sessions keep their peers and identifiers, but for one under a new identifier. */
  ghost predicate SessionsMove(m: Mail, n: Mail, installed: set<SessionId>) {
    forall p :: p in n.sessions ==>
      (p in m.sessions && n.sessions[p].id == m.sessions[p].id) || n.sessions[p].id !in installed
  }

  lemma QuietSessions(s: System, a: Action)
    requires !a.Delivers? && !a.Receives?
    ensures SessionsMove(At(s, a.side).mail, At(Act(s, a), a.side).mail, At(s, a.side).installed)
  {
  }

  lemma ReceivedSessions(s: System, a: Action)
    requires a.Receives?
    ensures SessionsMove(At(s, a.side).mail, At(Act(s, a), a.side).mail, At(s, a.side).installed)
  {
    var m := At(s, a.side).mail;
    if m.engine.Some? && Receive(m, m.engine.value, a.envelope).Some? {
      ReceiveFrame(m, m.engine.value, a.envelope);
    }
  }

  lemma DeliveredSessions(s: System, a: Action)
    requires SystemFits(s) && a.Delivers?
    ensures SessionsMove(At(s, a.side).mail, At(Act(s, a), a.side).mail, At(s, a.side).installed)
  {
    var site := At(s, a.side);
    if site.mail.engine.Some? && IsNext(site.mail, a.id, a.now) {
      DeliverFrame(site.mail, site.installed, a.id, site.mail.engine.value, a.outside, a.now);
    }
  }

  /** No session but the peer's ever has that identifier. */
  lemma OwnerStays(s: System, side: Side, session: SessionId, owner: Urn, a: Action)
    requires SystemFits(s) && session in At(s, side).installed
    requires forall p :: p in At(s, side).mail.sessions && At(s, side).mail.sessions[p].id == session ==> p == owner
    ensures var m := At(Act(s, a), side).mail; forall p :: p in m.sessions && m.sessions[p].id == session ==> p == owner
  {
    if a.side == side {
      if a.Delivers? {
        DeliveredSessions(s, a);
      } else if a.Receives? {
        ReceivedSessions(s, a);
      } else {
        QuietSessions(s, a);
      }
    }
  }

  lemma StillBlocked(s: System, side: Side, e: Envelope, a: Action)
    requires SystemFits(s) && Blocked(At(s, side), At(s, Other(side)), e)
    ensures Blocked(At(Act(s, a), side), At(Act(s, a), Other(side)), e)
    ensures At(Act(s, a), side).commits[e.session] == At(s, side).commits[e.session]
  {
    var t := Act(s, a);
    ActMoves(s, a);
    ActStays(s, a, side);
    OccupiedStays(At(s, side).mail, At(t, side).mail, e);
    LogStuck(s, side, e, a);
    OwnerStays(s, side, e.session, e.sender, a);
    AdmittedStays(At(s, Other(side)), At(t, Other(side)), e);
  }

  lemma AdmittedStays(other: Site, next: Site, e: Envelope)
    requires Grows(other, next) && Holds(other.mail, e) && other.mail.outbox[e.id].status.PlatformQueued?
    ensures Holds(next.mail, e) && next.mail.outbox[e.id].status.PlatformQueued?
  {
    assert RowKept(other.mail.outbox[e.id], next.mail.outbox[e.id]);
  }

  /** Once the next number of a session is blocked, the session commits nothing more, in any
      continuation: the admitted envelope cannot be repaired, and its identifier stays
      occupied. */
  lemma {:induction false} BlockedForGood(s: System, side: Side, e: Envelope, actions: seq<Action>)
    requires SystemFits(s) && Blocked(At(s, side), At(s, Other(side)), e)
    ensures var t := Run(s, actions);
      && SystemFits(t) && Blocked(At(t, side), At(t, Other(side)), e)
      && At(t, side).commits[e.session] == At(s, side).commits[e.session]
    decreases |actions|
  {
    RunMoves(s, actions);
    if actions == [] {
    } else {
      var before := Run(s, actions[..|actions|-1]);
      BlockedForGood(s, side, e, actions[..|actions|-1]);
      StillBlocked(before, side, e, actions[|actions|-1]);
    }
  }

  /** A live session is blocked as soon as its next number arrives occupied. */
  lemma BlockedNow(s: System, side: Side, e: Envelope)
    requires SystemFits(s) && Holds(At(s, Other(side)).mail, e) && e.sender == At(s, Other(side)).mail.self
    requires e.id.UserMessage? && At(s, Other(side)).mail.outbox[e.id].status.PlatformQueued?
    requires e.sender in At(s, side).mail.sessions && At(s, side).mail.sessions[e.sender].id == e.session
    requires e.sequence == At(s, side).mail.sessions[e.sender].receiveSequence + 1
    ensures Occupied(At(s, side).mail, e) <==> Blocked(At(s, side), At(s, Other(side)), e)
  {
    var site := At(s, side);
    assert CounterFits(site.mail, site.commits, e.sender);
  }
}
