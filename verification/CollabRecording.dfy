/** Exactly when the peer records the coordinator's formation, in every reachable state. */
module CollabRecording {
  import opened Basics
  import opened CollabTypes
  import opened CollabReducer
  import opened CollabInbox
  import opened CollabOutbox
  import opened CollabInvariant
  import opened CollabSteps
  import opened CollabFormation
  import CollabIncoming
  import CollabBudget
  import opened CollabAgreement

  // ---- Numbers of agreement events ----

  /** The outgoing cursor is in range; the coordinator's formation lies within its
      cursors, and its agreement events are numbered after the formation. */
  ghost predicate Numbered(core: Core) {
    && core.c.outSeq <= MAX_EVENTS
    && (core.c.agreement.Some? && core.c.initiator == core.c.local ==>
          var f := core.c.agreement.value.formation;
          && f.initiatorSequence <= core.c.outSeq && f.peerSequence <= core.c.inSeq
          && forall k :: k in core.events && core.events[k].outgoing && core.events[k].packet.kind.Agree?
                         ==> core.events[k].packet.sequence > f.initiatorSequence)
  }

  lemma AgreementNumbered(e: Endpoint, next: Core)
    requires OpsFit(e.core, e.ops) && Numbered(e.core) && Extends(e.core, next) && OwnGrows(e.core, next)
    requires FormsWithin(e.core, next) && next.c.outSeq <= MAX_EVENTS
    requires e.core.c.agreement.None? && next.c.agreement.Some? ==> next.c.outSeq == e.core.c.outSeq
    ensures Numbered(next)
  {
    if next.c.agreement.Some? && next.c.initiator == next.c.local {
      var f := next.c.agreement.value.formation;
      assert f.initiatorSequence <= next.c.outSeq && f.peerSequence <= next.c.inSeq;
      forall k | k in next.events && next.events[k].outgoing && next.events[k].packet.kind.Agree?
        ensures next.events[k].packet.sequence > f.initiatorSequence
      {
        LaterNumber(e, next, k);
      }
    }
  }

  lemma LaterNumber(e: Endpoint, next: Core, k: Key)
    requires OpsFit(e.core, e.ops) && Numbered(e.core) && OwnGrows(e.core, next) && next.c.agreement.Some?
    requires if e.core.c.agreement.Some? then next.c.agreement == e.core.c.agreement
             else next.c.agreement.value.formation.initiatorSequence <= e.core.c.outSeq
    requires next.c.initiator == next.c.local
    requires k in next.events && next.events[k].outgoing && next.events[k].packet.kind.Agree?
    ensures next.events[k].packet.sequence > next.c.agreement.value.formation.initiatorSequence
  {
    if k in e.core.events {
      AgreementSender(e, k);
    } else {
      assert NewOwn(e.core, next.events[k]);
    }
  }

  lemma CursorBound(e: Endpoint, d: CollabBudget.Deed)
    requires Valid(e) && e.core.c.outSeq <= MAX_EVENTS
    ensures CollabBudget.Do(e, d).core.c.outSeq <= MAX_EVENTS
  {
    match d
    case ReservesPacket(id, verdict, connected, now) =>
      if Reserve(e, id, verdict, connected, now).Some? {
        var p := ReserveUnfolds(e, id, verdict, connected, now);
      }
    case Submits(id, stored, connected, now) =>
      if Submit(e, id, stored, connected, now).Some? {
        SubmitCursor(e, id, stored, connected, now);
      }
    case Receives(arrival) => CollabIncoming.ReceiveKeeps(e, arrival);
    case Revokes =>
    case _ => CollabBudget.PlainDeed(e, d);
  }

  lemma DoNumbered(e: Endpoint, d: CollabBudget.Deed)
    requires Valid(e) && Numbered(e.core)
    ensures Numbered(CollabBudget.Do(e, d).core)
  {
    var next := CollabBudget.Do(e, d);
    DoKeeps(e, d);
    DoForms(e, d);
    CursorBound(e, d);
    if e.core.c.agreement.None? && next.core.c.agreement.Some? {
      FormingKeeps(e, d);
    }
    AgreementNumbered(e, next.core);
  }

  function DeedOf(a: Action): CollabBudget.Deed {
    match a
    case Prepares(_, tag, kind, request, verdict, now) => CollabBudget.Prepares(tag, kind, request, verdict, now)
    case Confirms(_, id, approve, now) => CollabBudget.Confirms(id, approve, now)
    case ReservesPacket(_, id, verdict, connected, now) => CollabBudget.ReservesPacket(id, verdict, connected, now)
    case Submits(_, id, stored, connected, now) => CollabBudget.Submits(id, stored, connected, now)
    case Delivers(_, packet, now) => CollabBudget.Receives(CollabIncoming.Arrives(packet, now))
    case Reviews(_, packet, decision, now) => CollabBudget.Receives(CollabIncoming.Decides(packet, decision, now))
    case Revokes(_) => CollabBudget.Revokes
    case Blocks(_, blocked) => CollabBudget.Blocks(blocked)
    case _ => CollabBudget.OtherAction
  }

  lemma OwnDeed(a: Action, e: Endpoint)
    requires !a.OpenFirst? && !a.OpenSecond? && !a.Submits? && !a.Delivers? && !a.ChangesTask?
    ensures CollabBudget.OrSame(e, OwnAction(a, e)) == CollabBudget.Do(e, DeedOf(a))
  {
  }

  /** What an action of a run does to the facts of a bound site is one of its deeds. */
  lemma ActDeed(pair: Pair, s: System, a: Action, side: Side)
    requires At(s, side).Bound?
    ensures At(Act(pair, s, a), side).Bound?
    ensures var e, f := At(s, side).e, At(Act(pair, s, a), side).e;
      f.core == e.core || f == CollabBudget.Do(e, DeedOf(a))
  {
    if !a.OpenFirst? && !a.OpenSecond? && a.side == side && !a.Submits? && !a.Delivers? && !a.ChangesTask? {
      OwnDeed(a, At(s, side).e);
    }
  }

  lemma OpenNumbered(local: Urn, task: Task, id: nat, tag: nat, peer: Urn, invitation: Option<Packet>, now: Instant)
    requires Open(local, task, id, tag, peer, invitation, now).Some?
    ensures Numbered(Open(local, task, id, tag, peer, invitation, now).value.core)
  {
  }

  ghost predicate SiteNumbered(site: Site) {
    site.Bound? ==> Numbered(site.e.core)
  }

  lemma ActNumbered(pair: Pair, s: System, a: Action, side: Side)
    requires SystemFits(pair, s) && SiteNumbered(At(s, side))
    ensures SiteNumbered(At(Act(pair, s, a), side))
  {
    if At(s, side).Bound? {
      var e := At(s, side).e;
      ActDeed(pair, s, a, side);
      DoNumbered(e, DeedOf(a));
    } else if At(Act(pair, s, a), side).Bound? {
      match a
      case OpenFirst(tag, task, now) => OpenNumbered(pair.first, task, pair.collab, tag, pair.second, None, now);
      case OpenSecond(tag, task, invitation, now) =>
        OpenNumbered(pair.second, task, pair.collab, tag, pair.first, Some(invitation), now);
      case _ =>
    }
  }

  lemma {:induction false} RunNumbered(pair: Pair, actions: seq<Action>, side: Side)
    requires pair.first != pair.second
    ensures SystemFits(pair, Run(pair, START, actions)) && SiteNumbered(At(Run(pair, START, actions), side))
    decreases |actions|
  {
    StartFits(pair);
    RunKeeps(pair, START, actions);
    if actions == [] {
    } else {
      RunNumbered(pair, actions[..|actions|-1], side);
      ActNumbered(pair, Run(pair, START, actions[..|actions|-1]), actions[|actions|-1], side);
    }
  }

  // ---- What the peer checks ----

  /** The peer's own record of one consent bears the formation out. */
  predicate Attested(core: Core, f: Formation, ref: AcceptanceRef) {
    var k := Key(ref.actor, ref.eventId);
    && AppliedAt(core.events, k) && core.events[k].packet.createdAt <= f.formedAt
    && !WithdrawnBy(core.events, ref.actor, ref.eventId, Cursor(core.c, f, ref.actor))
  }

  /** The peer stores the event behind a reference, as the coordinator does. */
  predicate Referenced(core: Core, f: Formation, ref: AcceptanceRef) {
    var k := Key(ref.actor, ref.eventId);
    && ref.actor in {core.c.local, core.c.peer} && k in core.events
    && EventDigestOf(core.events[k].packet) == ref.eventDigest
    && core.events[k].packet.kind.Accept? && core.events[k].packet.payload.AcceptBody?
    && core.events[k].packet.payload.actor == ref.actor && core.events[k].packet.payload.accepted == f.termsDigest
    && core.events[k].packet.payload.supportedBasis && core.events[k].packet.payload.validUntil > f.formedAt
    && core.events[k].packet.sequence <= Cursor(core.c, f, ref.actor)
  }

  lemma ReferenceCheck(core: Core, f: Formation, ref: AcceptanceRef, seen: set<Urn>)
    requires Referenced(core, f, ref) && ref.actor !in seen
    ensures CheckRef(core, f, ref, seen) == if Attested(core, f, ref) then Pass else Never
  {
  }

  lemma ReferencesCheck(core: Core, f: Formation)
    requires |f.acceptances| == 2 && f.acceptances[0].actor != f.acceptances[1].actor
    requires Referenced(core, f, f.acceptances[0]) && Referenced(core, f, f.acceptances[1])
    ensures CheckRefs(core, f, f.acceptances, {}) ==
      if Attested(core, f, f.acceptances[0]) && Attested(core, f, f.acceptances[1]) then Pass else Never
  {
    var r0, r1 := f.acceptances[0], f.acceptances[1];
    assert f.acceptances[1..] == [r1] && {} + {r0.actor} == {r0.actor};
    ReferenceCheck(core, f, r0, {});
    ReferenceCheck(core, f, r1, {r0.actor});
    assert CheckRefs(core, f, [r1], {r0.actor}) == CheckRef(core, f, r1, {r0.actor});
  }

  // ---- What the peer knows when the agreement event is its next one ----

  /** Every ordered event of the coordinator that is numbered before the peer's next one
      is stored at the peer. */
  lemma EarlierStored(pair: Pair, s: System, p: Packet)
    requires pair.first != pair.second && SystemFits(pair, s) && s.second.Bound? && SentBy(s.first, p)
    requires 1 <= p.sequence <= s.second.e.core.c.inSeq && p.sender == pair.first
    ensures KeyOf(p) in s.second.e.core.events && s.second.e.core.events[KeyOf(p)].packet == p
  {
    var core := s.second.e.core;
    assert HasSlot(core.events, core.c.peer, p.sequence);
    var k := SlotKey(core.events, core.c.peer, p.sequence);
    assert Placed(core.c, k, core.events[k]);
    assert SentBy(s.first, core.events[k].packet);
    assert SameSlot(core.events[k].packet, p);
    assert SlotsUnique(s.first.e.core.events);
  }

  /** The accept event that the coordinator's own records hold for a reference. */
  lemma ReferenceEvent(core: Core, f: Formation, ref: AcceptanceRef) returns (p: Packet)
    requires EventsPlaced(core) && PartiesDistinct(core.c) && Evidence(core, f) && ref in f.acceptances
    ensures KeyOf(p) == Key(ref.actor, ref.eventId) && AppliedAt(core.events, KeyOf(p))
    ensures core.events[KeyOf(p)].packet == p && Backs(core.c, f, ref, core.events[KeyOf(p)])
    ensures p.sender == ref.actor && ref.actor in {core.c.local, core.c.peer} && p.sequence >= 1
    ensures core.events[KeyOf(p)].outgoing <==> ref.actor == core.c.local
  {
    var k := Key(ref.actor, ref.eventId);
    assert RefBacked(core, f, f.acceptances[0]) && RefBacked(core, f, f.acceptances[1]);
    assert ref.actor in {f.acceptances[0].actor, f.acceptances[1].actor};
    assert Placed(core.c, k, core.events[k]);
    p := core.events[k].packet;
  }

  lemma ReferenceHeld(mine: Core, core: Core, f: Formation, ref: AcceptanceRef, p: Packet)
    requires core.c.local == mine.c.peer && core.c.peer == mine.c.local && core.c.initiator == mine.c.initiator
    requires KeyOf(p) == Key(ref.actor, ref.eventId) && ref.actor in {mine.c.local, mine.c.peer}
    requires KeyOf(p) in mine.events && mine.events[KeyOf(p)].packet == p && Backs(mine.c, f, ref, mine.events[KeyOf(p)])
    requires KeyOf(p) in core.events && core.events[KeyOf(p)].packet == p
    ensures Referenced(core, f, ref)
  {
  }

  /** Both sites are bound, and the coordinator's formation lies before the peer's cursor. */
  ghost predicate Informed(pair: Pair, s: System) {
    && pair.first != pair.second && SystemFits(pair, s) && s.first.Bound? && s.second.Bound?
    && s.first.e.core.c.agreement.Some?
    && s.first.e.core.c.agreement.value.formation.initiatorSequence <= s.second.e.core.c.inSeq
  }

  /** The event behind either reference of the coordinator's formation is stored. */
  lemma ReferenceStored(pair: Pair, s: System, ref: AcceptanceRef)
    requires Informed(pair, s) && ref in s.first.e.core.c.agreement.value.formation.acceptances
    ensures Referenced(s.second.e.core, s.first.e.core.c.agreement.value.formation, ref)
    ensures ref.actor == pair.second ==> AppliedAt(s.second.e.core.events, Key(ref.actor, ref.eventId))
  {
    var mine, core := s.first.e.core, s.second.e.core;
    var f := mine.c.agreement.value.formation;
    var p := ReferenceEvent(mine, f, ref);
    if ref.actor == pair.first {
      assert SentBy(s.first, p);
      EarlierStored(pair, s, p);
    } else {
      assert SentBy(s.second, p);
    }
    ReferenceHeld(mine, core, f, ref, p);
  }

  lemma ReferenceOf(core: Core, f: Formation, actor: Urn) returns (ref: AcceptanceRef)
    requires Evidence(core, f) && actor in {core.c.local, core.c.peer}
    ensures ref in f.acceptances && ref.actor == actor
  {
    assert actor in {f.acceptances[0].actor, f.acceptances[1].actor};
    ref := if f.acceptances[0].actor == actor then f.acceptances[0] else f.acceptances[1];
  }

  /** The second party has applied a proposal with the agreed terms. */
  lemma TermsKnown(pair: Pair, s: System) returns (p: Packet)
    requires Informed(pair, s)
    ensures IsProposal(s.second.e.core.events, p)
    ensures s.first.e.core.c.terms == Some(p.payload.terms)
  {
    var ref := ReferenceOf(s.first.e.core, s.first.e.core.c.agreement.value.formation, pair.second);
    ReferenceStored(pair, s, ref);
    p := AcceptedProposal(s.second.e.core, s.first.e.core.c.agreement.value.formation, ref);
  }

  lemma AcceptedProposal(core: Core, f: Formation, ref: AcceptanceRef) returns (p: Packet)
    requires AcceptsKnown(core) && Referenced(core, f, ref) && AppliedAt(core.events, Key(ref.actor, ref.eventId))
    ensures IsProposal(core.events, p) && f.termsDigest == DigestOf(p.payload.terms)
  {
    var k := Key(ref.actor, ref.eventId);
    assert AcceptKnown(core.events, k);
    p :| IsProposal(core.events, p) && core.events[k].packet.payload.accepted == DigestOf(p.payload.terms);
  }

  /** So it still holds the agreed terms. */
  lemma TermsHeld(pair: Pair, s: System)
    requires Informed(pair, s)
    ensures s.second.e.core.c.terms == s.first.e.core.c.terms
  {
    var p := TermsKnown(pair, s);
    var h :| IsHistory(s.first.e.core, h);
    var theirs :| IsHistory(s.second.e.core, theirs);
    HistoryPrefix(pair, s, h, theirs);
    LastTerms(s.first.e.core, s.second.e.core, h, theirs, p);
  }

  lemma LastTerms(mine: Core, core: Core, h: seq<Packet>, theirs: seq<Packet>, p: Packet)
    requires IsHistory(mine, h) && IsHistory(core, theirs) && theirs <= h && IsProposal(core.events, p)
    requires mine.c.terms == Some(p.payload.terms)
    ensures core.c.terms == mine.c.terms
  {
    assert p in theirs;
    var j :| 0 <= j < |theirs| && theirs[j] == p;
    assert Succeeds(core.c, theirs, j) && Succeeds(mine.c, h, |h|-1);
    assert theirs == h;
  }

  // ---- The exact condition ----

  /** The peer's records and clock bear the formation out: both accepts applied, created no
      later than the formation and not withdrawn within its cursors, and the formation
      neither later than the event that carries it nor over a minute ahead of the peer. */
  predicate Recordable(core: Core, f: Formation, p: Packet, now: Instant) {
    && (forall ref :: ref in f.acceptances ==> Attested(core, f, ref))
    && f.formedAt <= p.createdAt && f.formedAt <= now + 60
  }

  /** All that the reducer checks of the coordinator's formation but what `Recordable` says. */
  predicate Formed(core: Core, f: Formation) {
    && core.c.terms.Some? && DigestOf(core.c.terms.value) == f.termsDigest
    && |f.acceptances| == 2 && f.acceptances[0].actor != f.acceptances[1].actor
    && Referenced(core, f, f.acceptances[0]) && Referenced(core, f, f.acceptances[1])
    && 1 <= f.initiatorSequence <= MAX_EVENTS && 1 <= f.peerSequence <= MAX_EVENTS
  }

  lemma AgreementOutcome(core: Core, g: Agreement, p: Packet, now: Instant)
    requires p.kind.Agree? && p.payload == AgreementBody(g) && p.sender == core.c.initiator && core.c.agreement.None?
    requires Formed(core, g.formation) && g.formation.initiatorSequence < p.sequence
    ensures ApplyCore(core, p, now, false) ==
      if Recordable(core, g.formation, p, now) then Done(core.(c := core.c.(agreement := Some(g)))) else Invalid
  {
    var f := g.formation;
    ReferencesCheck(core, f);
    assert f.acceptances[0] in f.acceptances && f.acceptances[1] in f.acceptances;
  }

  /** The coordinator's own agreement event passes, when it is sent, by the same condition
      on the coordinator's records. */
  lemma SendOutcome(core: Core, g: Agreement, p: Packet, now: Instant)
    requires p.kind.Agree? && p.payload == AgreementBody(g) && p.sender == core.c.initiator
    requires core.c.agreement == Some(g) && Formed(core, g.formation)
    ensures ApplyCore(core, p, now, true) ==
      if core.c.closure.Cancelled? || Recordable(core, g.formation, p, now) then Done(core) else Invalid
  {
    var f := g.formation;
    ReferencesCheck(core, f);
    assert f.acceptances[0] in f.acceptances && f.acceptances[1] in f.acceptances;
  }

  /** The formation's numbers are in range at the peer's next event. */
  lemma NumbersFit(core: Core)
    requires Sound(core) && Numbered(core) && core.c.agreement.Some? && core.c.initiator == core.c.local
    ensures var f := core.c.agreement.value.formation;
      1 <= f.initiatorSequence <= MAX_EVENTS && 1 <= f.peerSequence <= MAX_EVENTS
  {
    var f := core.c.agreement.value.formation;
    var p0 := ReferenceEvent(core, f, f.acceptances[0]);
    var p1 := ReferenceEvent(core, f, f.acceptances[1]);
    assert core.c.inSeq > 0 ==> HasSlot(core.events, core.c.peer, core.c.inSeq);
    if core.c.inSeq > 0 {
      var k := SlotKey(core.events, core.c.peer, core.c.inSeq);
      assert Placed(core.c, k, core.events[k]);
    }
  }

  lemma FormedAtCoordinator(core: Core)
    requires Sound(core) && Numbered(core) && core.c.agreement.Some? && core.c.initiator == core.c.local
    ensures Formed(core, core.c.agreement.value.formation)
  {
    var f := core.c.agreement.value.formation;
    var p0 := ReferenceEvent(core, f, f.acceptances[0]);
    var p1 := ReferenceEvent(core, f, f.acceptances[1]);
    NumbersFit(core);
  }

  /** Carrying out an operation that sends the agreement: its remaining guards, and the
      condition on the coordinator's own records unless the event was applied before. */
  lemma SubmitOutcome(e: Endpoint, id: OpId, stored: bool, connected: bool, now: Instant)
    requires Valid(e) && Numbered(e.core) && id in e.ops && e.ops[id].kind.Agree? && e.ops[id].status.Sending?
    ensures e.core.c.agreement.Some? && e.ops[id].packet.Some? && KeyOf(e.ops[id].packet.value) in e.core.events
    ensures var p := e.ops[id].packet.value;
      Submit(e, id, stored, connected, now).Some? <==>
        && OperationCurrent(e, e.ops[id], now) && connected
        && (e.core.events[KeyOf(p)].status.Applied? || e.core.c.closure.Cancelled?
            || Recordable(e.core, e.core.c.agreement.value.formation, p, now))
  {
    assert OpFits(e.core, id, e.ops[id]);
    var p := e.ops[id].packet.value;
    assert Placed(e.core.c, KeyOf(p), e.core.events[KeyOf(p)]);
    FormedAtCoordinator(e.core);
    SendOutcome(e.core, e.core.c.agreement.value, p, now);
    AgreementApplies(e, p, now);
  }

  /** Sending the agreement queues no reply. */
  lemma AgreementApplies(e: Endpoint, p: Packet, now: Instant)
    requires p.kind.Agree?
    ensures Apply(e, p, now, true).Done? <==> ApplyCore(e.core, p, now, true).Done?
  {
  }

  /** In every run: an operation of the coordinator that sends its agreement can be carried
      out if and only if it is still current, the contact is connected, and the coordinator's
      own records bear the agreement out (unless it was sent before, or is cancelled). */
  lemma SendableExactly(pair: Pair, actions: seq<Action>, id: OpId, stored: bool, connected: bool, now: Instant)
    requires pair.first != pair.second && Run(pair, START, actions).first.Bound?
    requires var e := Run(pair, START, actions).first.e; id in e.ops && e.ops[id].kind.Agree? && e.ops[id].status.Sending?
    ensures var e := Run(pair, START, actions).first.e;
      && e.core.c.agreement.Some? && e.ops[id].packet.Some? && KeyOf(e.ops[id].packet.value) in e.core.events
      && (Submit(e, id, stored, connected, now).Some? <==>
            && OperationCurrent(e, e.ops[id], now) && connected
            && (e.core.events[KeyOf(e.ops[id].packet.value)].status.Applied? || e.core.c.closure.Cancelled?
                || Recordable(e.core, e.core.c.agreement.value.formation, e.ops[id].packet.value, now)))
  {
    RunNumbered(pair, actions, First);
    SubmitOutcome(Run(pair, START, actions).first.e, id, stored, connected, now);
  }

  /** `k` is an agreement event that waits as the next one of the stream. */
  predicate NextAgreement(core: Core, k: Key) {
    && InSlot(core.events, k, core.c.peer, core.c.inSeq + 1) && core.events[k].packet.kind.Agree?
    && core.events[k].status.Buffered? && core.events[k].packet.previous == core.c.lastIn
  }

  lemma NextCarries(pair: Pair, s: System, k: Key)
    requires pair.first != pair.second && SystemFits(pair, s) && s.second.Bound? && SiteNumbered(s.first)
    requires NextAgreement(s.second.e.core, k)
    ensures Informed(pair, s) && s.second.e.core.events[k].packet.payload == AgreementBody(s.first.e.core.c.agreement.value)
    ensures s.first.e.core.c.agreement.value.formation.initiatorSequence < s.second.e.core.events[k].packet.sequence
    ensures s.second.e.core.events[k].packet.sender == s.second.e.core.c.initiator
  {
    var core := s.second.e.core;
    assert Placed(core.c, k, core.events[k]);
    assert SentBy(s.first, core.events[k].packet);
    SentAgreement(s.first, core.events[k].packet);
  }

  lemma Advanced(core: Core, g: Agreement, p: Packet, now: Instant)
    requires Recordable(core.(c := Advance(core.c, p)), g.formation, p, now)
    ensures Recordable(core, g.formation, p, now)
  {
    forall ref | ref in g.formation.acceptances ensures Attested(core, g.formation, ref) {
      assert Attested(core.(c := Advance(core.c, p)), g.formation, ref);
    }
  }

  lemma AdvancedBack(core: Core, g: Agreement, p: Packet, now: Instant)
    requires Recordable(core, g.formation, p, now)
    ensures Recordable(core.(c := Advance(core.c, p)), g.formation, p, now)
  {
    forall ref | ref in g.formation.acceptances ensures Attested(core.(c := Advance(core.c, p)), g.formation, ref) {
      assert Attested(core, g.formation, ref);
    }
  }

  lemma FormedAtPeer(pair: Pair, s: System)
    requires Informed(pair, s) && SiteNumbered(s.first)
    ensures Formed(s.second.e.core, s.first.e.core.c.agreement.value.formation)
  {
    TermsHeld(pair, s);
    ReferencesStored(pair, s);
    CoordinatorForms(pair, s);
  }

  lemma ReferencesStored(pair: Pair, s: System)
    requires Informed(pair, s) && |s.first.e.core.c.agreement.value.formation.acceptances| == 2
    ensures var f := s.first.e.core.c.agreement.value.formation;
      Referenced(s.second.e.core, f, f.acceptances[0]) && Referenced(s.second.e.core, f, f.acceptances[1])
  {
    var f := s.first.e.core.c.agreement.value.formation;
    assert f.acceptances[0] in f.acceptances && f.acceptances[1] in f.acceptances;
    ReferenceStored(pair, s, f.acceptances[0]);
    ReferenceStored(pair, s, f.acceptances[1]);
  }

  lemma CoordinatorForms(pair: Pair, s: System)
    requires Informed(pair, s) && SiteNumbered(s.first)
    ensures Formed(s.first.e.core, s.first.e.core.c.agreement.value.formation)
  {
    FormedAtCoordinator(s.first.e.core);
  }

  lemma TurnIs(core: Core, k: Key, g: Agreement, reviews: map<Packet, Review>, now: Instant)
    requires NextAgreement(core, k) && Formed(core, g.formation) && core.c.agreement.None?
    requires core.events[k].packet.payload == AgreementBody(g) && core.events[k].packet.sender == core.c.initiator
    requires g.formation.initiatorSequence < core.events[k].packet.sequence
    ensures var turn := TurnOf(core, k, reviews, now);
      if Recordable(core, g.formation, core.events[k].packet, now)
      then turn.Take? && turn.reason.WasApplied? && turn.core.c.agreement == Some(g) && AppliedAt(turn.core.events, k)
      else turn == Take(k, Decide(core, k, Rejected), WasInvalid)
  {
    var p := core.events[k].packet;
    AgreementOutcome(core.(c := Advance(core.c, p)), g, p, now);
    if Recordable(core, g.formation, p, now) {
      AdvancedBack(core, g, p, now);
    } else if Recordable(core.(c := Advance(core.c, p)), g.formation, p, now) {
      Advanced(core, g, p, now);
    }
  }

  /** In every run: when the peer, holding no agreement, comes to the coordinator's
      agreement event, it records the coordinator's agreement if and only if its records
      and clock bear the formation out; otherwise it rejects the event for good. */
  lemma RecordedExactly(pair: Pair, actions: seq<Action>, k: Key, now: Instant)
    requires pair.first != pair.second && Run(pair, START, actions).second.Bound?
    requires Run(pair, START, actions).second.e.core.c.agreement.None?
    requires NextAgreement(Run(pair, START, actions).second.e.core, k)
    ensures var s := Run(pair, START, actions);
      && s.first.Bound? && s.first.e.core.c.agreement.Some?
      && var core, g, turn := s.second.e.core, s.first.e.core.c.agreement, TurnOf(s.second.e.core, k, s.second.e.reviews, now);
         if Recordable(core, g.value.formation, core.events[k].packet, now)
         then turn.Take? && turn.reason.WasApplied? && turn.core.c.agreement == g && AppliedAt(turn.core.events, k)
         else turn == Take(k, Decide(core, k, Rejected), WasInvalid)
  {
    var s := Run(pair, START, actions);
    RunNumbered(pair, actions, First);
    NextCarries(pair, s, k);
    FormedAtPeer(pair, s);
    TurnIs(s.second.e.core, k, s.first.e.core.c.agreement.value, s.second.e.reviews, now);
  }

  /** A peer that has applied a withdrawal within the cursor, as the coordinator overtook it
      with its formation, never comes to hold an agreement: the two sides differ for good. */
  lemma {:induction false} SpoiledForGood(pair: Pair, s: System, actions: seq<Action>)
    requires pair.first != pair.second && SystemFits(pair, s) && s.first.Bound? && s.second.Bound?
    requires s.first.e.core.c.agreement.Some? && s.second.e.core.c.agreement.None?
    requires Spoiled(s.second.e.core, s.first.e.core.c.agreement.value.formation)
    ensures var t := Run(pair, s, actions);
      t.first.Bound? && t.second.Bound? && t.first.e.core.c.agreement == s.first.e.core.c.agreement
      && t.second.e.core.c.agreement.None?
    decreases |actions|
  {
    RunKeeps(pair, s, actions);
    if actions == [] {
    } else {
      var before := Run(pair, s, actions[..|actions|-1]);
      RunKeeps(pair, s, actions[..|actions|-1]);
      SpoiledForGood(pair, s, actions[..|actions|-1]);
      StillSpoiled(pair, s, before, actions[|actions|-1]);
    }
  }

  lemma StillSpoiled(pair: Pair, s: System, before: System, a: Action)
    requires pair.first != pair.second && SystemFits(pair, before) && before.first.Bound? && before.second.Bound?
    requires s.second.Bound? && SiteExtends(s.second, before.second) && before.first.e.core.c.agreement.Some?
    requires Spoiled(s.second.e.core, before.first.e.core.c.agreement.value.formation)
    requires before.second.e.core.c.agreement.None?
    ensures Act(pair, before, a).second.Bound? && Act(pair, before, a).second.e.core.c.agreement.None?
  {
    var f := before.first.e.core.c.agreement.value.formation;
    SpoiledKept(s.second.e.core, before.second.e.core, f);
    ActKeeps(pair, before, a);
    ActDeed(pair, before, a, Second);
    SpoiledDeed(before.second.e, DeedOf(a), f);
    var t := Act(pair, before, a);
    if t.second.e.core.c.agreement.Some? {
      SecondAgrees(pair, t);
    }
  }

  // ---- The evidence in whole runs ----

  predicate LaterOwn(core: Core, f: Formation, p: Packet) {
    p.kind.Withdraw? ==> p.sender == core.c.local && p.sequence > f.peerSequence
  }

  /** The evidence survives own withdrawals that are numbered past the formation's cursor. */
  lemma OwnCleanKept(core: Core, fin: Core, f: Formation)
    requires CollabIncoming.FullEvidence(core, f) && Evidence(fin, f) && SameParties(core.c, fin.c)
    requires PartiesDistinct(core.c) && core.c.initiator == core.c.peer
    requires forall k :: AppliedAt(core.events, k) ==> AppliedAt(fin.events, k) && fin.events[k].packet == core.events[k].packet
    requires forall k :: AppliedAt(fin.events, k) && !AppliedAt(core.events, k) ==> LaterOwn(core, f, fin.events[k].packet)
    ensures CollabIncoming.FullEvidence(fin, f)
  {
    forall i | 0 <= i < 2
      ensures fin.events[Key(f.acceptances[i].actor, f.acceptances[i].eventId)].packet.createdAt <= f.formedAt
      ensures !WithdrawnBy(fin.events, f.acceptances[i].actor, f.acceptances[i].eventId, Cursor(fin.c, f, f.acceptances[i].actor))
    {
      var ref := f.acceptances[i];
      assert RefBacked(core, f, f.acceptances[0]) && RefBacked(core, f, f.acceptances[1]);
      assert AppliedAt(core.events, Key(ref.actor, ref.eventId));
      forall k | k in fin.events && Withdraws(fin.events[k], ref.actor, ref.eventId, Cursor(fin.c, f, ref.actor))
        ensures k in core.events && Withdraws(core.events[k], ref.actor, ref.eventId, Cursor(core.c, f, ref.actor))
      {
        assert AppliedAt(fin.events, k);
      }
    }
  }

  /** What the peer has not sent yet is numbered past what the coordinator took in. */
  lemma UnsentLater(pair: Pair, s: System, k: Key)
    requires pair.first != pair.second && SystemFits(pair, s) && s.first.Bound? && s.second.Bound?
    requires k in s.second.e.core.events && s.second.e.core.events[k].outgoing && s.second.e.core.events[k].status.Reserved?
    requires !IsSync(s.second.e.core.events[k].packet.kind)
    ensures s.second.e.core.events[k].packet.sequence > s.first.e.core.c.inSeq
  {
    var core, p := s.first.e.core, s.second.e.core.events[k].packet;
    assert Placed(s.second.e.core.c, k, s.second.e.core.events[k]);
    if p.sequence <= core.c.inSeq {
      assert HasSlot(core.events, core.c.peer, p.sequence);
      var j := SlotKey(core.events, core.c.peer, p.sequence);
      StoredSent(pair, s, j);
      assert SameSlot(core.events[j].packet, p);
    }
  }

  lemma StoredSent(pair: Pair, s: System, j: Key)
    requires pair.first != pair.second && SystemFits(pair, s) && s.first.Bound? && j in s.first.e.core.events
    requires s.first.e.core.events[j].packet.sender == pair.second
    ensures SentBy(s.second, s.first.e.core.events[j].packet)
  {
    assert Placed(s.first.e.core.c, j, s.first.e.core.events[j]);
  }

  /** An own deed applies at most an event that was reserved before. */
  lemma OwnDeedApplies(e: Endpoint, d: CollabBudget.Deed)
    requires Valid(e) && !d.Receives?
    ensures forall k :: AppliedAt(CollabBudget.Do(e, d).core.events, k) && !AppliedAt(e.core.events, k) ==>
      k in e.core.events && e.core.events[k].outgoing && e.core.events[k].status.Reserved?
  {
    match d
    case ReservesPacket(id, verdict, connected, now) =>
      if Reserve(e, id, verdict, connected, now).Some? {
        var p := ReserveUnfolds(e, id, verdict, connected, now);
      }
    case Submits(id, stored, connected, now) =>
      if Submit(e, id, stored, connected, now).Some? {
        SubmitApplies(e, id, stored, connected, now);
      }
    case Revokes =>
    case _ => CollabBudget.PlainDeed(e, d);
  }

  lemma SubmitApplies(e: Endpoint, id: OpId, stored: bool, connected: bool, now: Instant)
    requires Valid(e) && Submit(e, id, stored, connected, now).Some?
    ensures forall k :: AppliedAt(Submit(e, id, stored, connected, now).value.core.events, k) && !AppliedAt(e.core.events, k) ==>
      k in e.core.events && e.core.events[k].outgoing && e.core.events[k].status.Reserved?
  {
    var p := SubmitUnfolds(e, id, stored, connected, now);
    if e.core.events[KeyOf(p)].status.Reserved? {
      var e2 := Apply(e, p, now, true).value;
      SubmitOps(e, id, p, now, e2);
      AppliesFrame(e.core, KeyOf(p), now, true, Mark(e2.core, KeyOf(p), Status.Applied));
      DeliveredOps(SetStatus(e2, KeyOf(p), Status.Applied), id, stored);
    }
  }

  /** The peer's records bear out the agreement that it holds. */
  ghost predicate Evidenced(s: System) {
    s.second.Bound? ==> CollabIncoming.ReceivedClean(s.second.e.core)
  }

  lemma OwnDeedEvidenced(pair: Pair, s: System, d: CollabBudget.Deed)
    requires pair.first != pair.second && SystemFits(pair, s) && SiteNumbered(s.first) && s.second.Bound? && Evidenced(s)
    requires !d.Receives?
    ensures CollabIncoming.ReceivedClean(CollabBudget.Do(s.second.e, d).core)
  {
    var e, fin := s.second.e, CollabBudget.Do(s.second.e, d).core;
    DoKeeps(e, d);
    OnlyArrivalsRecord(e, d);
    OwnDeedApplies(e, d);
    if e.core.c.agreement.Some? {
      SecondAgrees(pair, s);
      var f := e.core.c.agreement.value.formation;
      forall k | AppliedAt(e.core.events, k) ensures AppliedAt(fin.events, k) && fin.events[k].packet == e.core.events[k].packet {
        assert FinalKept(e.core.events[k], fin.events[k]);
      }
      forall k | AppliedAt(fin.events, k) && !AppliedAt(e.core.events, k) ensures LaterOwn(e.core, f, fin.events[k].packet) {
        AppliedLater(pair, s, fin, f, k);
      }
      OwnCleanKept(e.core, fin, f);
    }
  }

  lemma AppliedLater(pair: Pair, s: System, fin: Core, f: Formation, k: Key)
    requires pair.first != pair.second && SystemFits(pair, s) && s.first.Bound? && s.second.Bound?
    requires f.peerSequence <= s.first.e.core.c.inSeq && Extends(s.second.e.core, fin) && k in fin.events
    requires k in s.second.e.core.events && s.second.e.core.events[k].outgoing && s.second.e.core.events[k].status.Reserved?
    ensures LaterOwn(s.second.e.core, f, fin.events[k].packet)
  {
    var core := s.second.e.core;
    assert FinalKept(core.events[k], fin.events[k]) && Placed(core.c, k, core.events[k]);
    if core.events[k].packet.kind.Withdraw? {
      UnsentLater(pair, s, k);
    }
  }

  lemma DeedEvidenced(pair: Pair, s: System, d: CollabBudget.Deed)
    requires pair.first != pair.second && SystemFits(pair, s) && SiteNumbered(s.first) && s.second.Bound? && Evidenced(s)
    ensures CollabIncoming.ReceivedClean(CollabBudget.Do(s.second.e, d).core)
  {
    if d.Receives? {
      CollabIncoming.ReceiveClean(s.second.e, d.arrival);
    } else {
      OwnDeedEvidenced(pair, s, d);
    }
  }

  lemma ActEvidenced(pair: Pair, s: System, a: Action)
    requires pair.first != pair.second && SystemFits(pair, s) && SiteNumbered(s.first) && Evidenced(s)
    ensures Evidenced(Act(pair, s, a))
  {
    if s.second.Bound? {
      ActDeed(pair, s, a, Second);
      DeedEvidenced(pair, s, DeedOf(a));
    }
  }

  lemma {:induction false} RunEvidenced(pair: Pair, actions: seq<Action>)
    requires pair.first != pair.second
    ensures Evidenced(Run(pair, START, actions))
    decreases |actions|
  {
    if actions == [] {
    } else {
      RunNumbered(pair, actions[..|actions|-1], First);
      RunEvidenced(pair, actions[..|actions|-1]);
      ActEvidenced(pair, Run(pair, START, actions[..|actions|-1]), actions[|actions|-1]);
    }
  }

  /** Formation evidence in every run, whatever both parties do before and after: a peer that
      holds an agreement has applied exactly two accepts for its terms, one per party, each
      within its formation cursor, created no later than the formation and valid past it,
      and no withdrawal of either within the cursors. */
  lemma EvidenceInRuns(pair: Pair, actions: seq<Action>)
    requires pair.first != pair.second
    ensures var s := Run(pair, START, actions);
      s.second.Bound? && s.second.e.core.c.agreement.Some? ==>
        CollabIncoming.FullEvidence(s.second.e.core, s.second.e.core.c.agreement.value.formation)
  {
    RunEvidenced(pair, actions);
    RunNumbered(pair, actions, First);
  }
}
