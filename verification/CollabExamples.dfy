/** Concrete runs, from the start, at which the coordinator's formation is not what the
    peer records, and one at which a cancelled collaboration is completed. */
module CollabExamples {
  import opened Basics
  import opened CollabTypes
  import opened CollabReducer
  import opened CollabInbox
  import opened CollabOutbox
  import opened CollabInvariant
  import opened CollabSteps
  import opened CollabFormation
  import opened CollabAgreement
  import opened CollabRecording
  import opened CollabTalk

  const TWO := Pair(42, 1, 2)
  const PLAN := Terms(5, 1, 7, [1, 2], 2000, 3000, true)
  const ASKED := TermsRequest(5, 1, 7, 2000, 3000)

  function Tag(n: nat): EventId {
    EventOf(UserOp(n))
  }

  const INVITATION := Packet(42, Tag(0), Invite, 1, 2, 1, None, 0, 100000, OpeningBody(7, true))
  const JOINING := Packet(42, Tag(0), Join, 2, 1, 1, None, 0, 100000, OpeningBody(7, true))
  const PROPOSING := Packet(42, Tag(1), Proposal, 1, 2, 2, Some(Tag(0)), 0, 100000, TermsBody(PLAN, DigestOf(PLAN), None))
  const ACCEPTING := Packet(42, Tag(2), Accept, 1, 2, 3, Some(Tag(1)), 0, 100000, AcceptBody(DigestOf(PLAN), 1, true, 100000))

  function PeerAccepting(now: Instant): Packet {
    Packet(42, Tag(1), Accept, 2, 1, 2, Some(Tag(0)), now, 100000, AcceptBody(DigestOf(PLAN), 2, true, 100000))
  }

  const ALLOWED := Some(Permit(186400, MAX_MAINTENANCE, 0, false))

  // The coordinator's facts after each of its steps, and the peer's.
  const INVITED_1 := NewCollab(42, 1, 2, 1, 7).(permit := ALLOWED, outSeq := 1, lastOut := Some(Tag(0)))
  const JOINED_1 := INVITED_1.(joined := true, inSeq := 1, lastIn := Some(Tag(0)))
  const PROPOSED_1 := JOINED_1.(terms := Some(PLAN), outSeq := 2, lastOut := Some(Tag(1)))
  const ACCEPTED_1 := PROPOSED_1.(acceptances := map[1 := ConsentOf(ACCEPTING)], outSeq := 3, lastOut := Some(Tag(2)))
  const JOINED_2 := NewCollab(42, 2, 1, 1, 7).(permit := ALLOWED, joined := true, inSeq := 1, lastIn := Some(Tag(0)),
                                              outSeq := 1, lastOut := Some(Tag(0)))
  const PROPOSED_2 := JOINED_2.(terms := Some(PLAN), inSeq := 2, lastIn := Some(Tag(1)))

  ghost predicate Holds(core: Core, p: Packet) {
    AppliedAt(core.events, KeyOf(p)) && core.events[KeyOf(p)].packet == p
  }

  ghost predicate NoWithdrawal(core: Core) {
    forall k :: AppliedAt(core.events, k) ==> !core.events[k].packet.kind.Withdraw?
  }

  /** Both sites are bound and may speak, with these facts. */
  ghost predicate Stage(s: System, c: Collab, n: nat, d: Collab, m: nat) {
    && Reaches(TWO, s) && s.first.Bound? && s.second.Bound?
    && s.first.e.core.c == c && Talks(s.first.e, n) && s.second.e.core.c == d && Talks(s.second.e, m)
  }

  lemma GrewHolds(core: Core, next: Core, p: Packet)
    requires Grew(core, next, p, Applied)
    ensures Holds(next, p) && (forall q :: Holds(core, q) ==> Holds(next, q))
    ensures NoWithdrawal(core) && !p.kind.Withdraw? ==> NoWithdrawal(next)
  {
  }

  // ---- The common beginning: invitation, join, proposal, the coordinator's acceptance ----

  lemma Opening() returns (s: System)
    ensures Reaches(TWO, s) && s.first.Bound? && s.second.Unbound? && s.net == {}
    ensures s.first.e.core == Core(INVITED_1, map[KeyOf(INVITATION) := Record(INVITATION, Reserved, true, None)])
    ensures Talks(s.first.e, 1) && Unsent(s.first.e, UserOp(0), INVITATION)
  {
    assert Run(TWO, START, []) == START;
    var e := Open(1, MANDATE, 42, 0, 2, None, 0).value;
    assert ValidEvent(INVITATION);
    Acted(TWO, START, OpenFirst(0, MANDATE, 0));
    s := Put(START, First, e);
  }

  lemma Inviting() returns (s: System)
    ensures Reaches(TWO, s) && s.first.Bound? && s.second.Unbound? && s.net == {INVITATION}
    ensures s.first.e.core == Core(INVITED_1, map[KeyOf(INVITATION) := Record(INVITATION, Applied, true, None)])
    ensures Talks(s.first.e, 1)
  {
    var s0 := Opening();
    var core := s0.first.e.core;
    assert ApplyCore(core, INVITATION, 0, true) == Done(core);
    s := Sends(TWO, s0, First, 1, UserOp(0), INVITATION, 0, core);
    assert s.first.e.core.events == map[KeyOf(INVITATION) := Record(INVITATION, Applied, true, None)];
  }

  lemma PeerOpens(s: System) returns (t: System)
    requires Reaches(TWO, s) && s.first.Bound? && s.second.Unbound? && s.net == {INVITATION}
    ensures Reaches(TWO, t) && t.first == s.first && t.second.Bound? && t.net == s.net && Talks(t.second.e, 1)
    ensures t.second.e.core == Core(JOINED_2.(joined := false),
      map[KeyOf(INVITATION) := Record(INVITATION, Applied, false, None), KeyOf(JOINING) := Record(JOINING, Reserved, true, None)])
    ensures t.second.e.reviews == map[INVITATION := Approved] && Unsent(t.second.e, UserOp(0), JOINING)
  {
    var e := Open(2, MANDATE, 42, 0, 1, Some(INVITATION), 0).value;
    assert ValidEvent(JOINING) && Acceptable(INVITATION, 42, 2, 1, 7, 0);
    Acted(TWO, s, OpenSecond(0, MANDATE, INVITATION, 0));
    t := Put(s, Second, e);
  }

  lemma PeerJoins(s: System) returns (t: System)
    requires Reaches(TWO, s) && s.first.Bound? && s.second.Unbound? && s.net == {INVITATION}
    ensures Reaches(TWO, t) && t.first == s.first && t.second.Bound? && t.net == {INVITATION, JOINING}
    ensures t.second.e.core.c == JOINED_2 && Talks(t.second.e, 1) && NoWithdrawal(t.second.e.core)
    ensures t.second.e.reviews == map[INVITATION := Approved]
  {
    var s0 := PeerOpens(s);
    var core := s0.second.e.core;
    var next := core.(c := JOINED_2);
    assert ApplyCore(core, JOINING, 0, true) == Done(next);
    t := Sends(TWO, s0, Second, 1, UserOp(0), JOINING, 0, next);
  }

  lemma Beginning() returns (s: System)
    ensures Stage(s, JOINED_1, 1, JOINED_2, 1) && JOINING in s.net
    ensures NoWithdrawal(s.first.e.core) && NoWithdrawal(s.second.e.core) && s.second.e.reviews == map[INVITATION := Approved]
  {
    var s0 := Inviting();
    var s1 := PeerJoins(s0);
    var core := s1.first.e.core;
    assert NoWithdrawal(core);
    s := HearsApplied(TWO, s1, First, 1, JOINING, 0, JOINED_1);
    GrewHolds(core, s.first.e.core, JOINING);
  }

  lemma Proposes() returns (s: System)
    ensures Stage(s, PROPOSED_1, 2, PROPOSED_2, 1) && NoWithdrawal(s.first.e.core) && NoWithdrawal(s.second.e.core)
  {
    var s0 := Beginning();
    var core := s0.first.e.core;
    assert Spoken(JOINED_1, 1, Proposal, PROPOSING.payload, 0) == PROPOSING;
    var s1 := Says(TWO, s0, First, 1, Proposal, ASKED, PROPOSING.payload, 0, PROPOSED_1);
    GrewHolds(core, s1.first.e.core, PROPOSING);
    s := HearsApplied(TWO, s1, Second, 1, PROPOSING, 0, PROPOSED_2);
    GrewHolds(s1.second.e.core, s.second.e.core, PROPOSING);
  }

  lemma Accepts() returns (s: System)
    ensures Stage(s, ACCEPTED_1, 3, PROPOSED_2, 1) && NoWithdrawal(s.first.e.core) && NoWithdrawal(s.second.e.core)
    ensures ACCEPTING in s.net && Holds(s.first.e.core, ACCEPTING)
  {
    var s0 := Proposes();
    assert Spoken(PROPOSED_1, 2, Accept, ACCEPTING.payload, 0) == ACCEPTING;
    s := Says(TWO, s0, First, 2, Accept, NoRequest, ACCEPTING.payload, 0, ACCEPTED_1);
    GrewHolds(s0.first.e.core, s.first.e.core, ACCEPTING);
  }

  // ---- Forming ----

  function Refs(now: Instant): seq<AcceptanceRef> {
    [AcceptanceRef(1, Tag(2), EventDigestOf(ACCEPTING)), AcceptanceRef(2, Tag(1), EventDigestOf(PeerAccepting(now)))]
  }

  /** The agreement that the coordinator forms at clock 0, with `sent` own events numbered. */
  function Formed1(now: Instant, sent: int): Agreement {
    AgreementFor(42, Formation(DigestOf(PLAN), 0, Refs(now), sent, 2))
  }

  function Both(now: Instant): map<Urn, Consent> {
    map[1 := ConsentOf(ACCEPTING), 2 := ConsentOf(PeerAccepting(now))]
  }

  /** The coordinator's facts after forming from `c`. */
  function Forming(c: Collab, now: Instant, sent: int): Collab {
    c.(inSeq := 2, lastIn := Some(Tag(1)), acceptances := Both(now), agreement := Some(Formed1(now, sent)))
  }

  function Accepted2(now: Instant): Collab {
    PROPOSED_2.(acceptances := map[2 := ConsentOf(PeerAccepting(now))], outSeq := 2, lastOut := Some(Tag(1)))
  }

  lemma PeerAccepts(s: System, c: Collab, n: nat, now: Instant) returns (t: System)
    requires Stage(s, c, n, PROPOSED_2, 1) && NoWithdrawal(s.second.e.core) && 0 <= now <= 60
    ensures Stage(t, c, n, Accepted2(now), 2) && t.first == s.first && t.net == s.net + {PeerAccepting(now)}
    ensures NoWithdrawal(t.second.e.core) && Holds(t.second.e.core, PeerAccepting(now))
  {
    assert Spoken(PROPOSED_2, 1, Accept, PeerAccepting(now).payload, now) == PeerAccepting(now);
    t := Says(TWO, s, Second, 1, Accept, NoRequest, PeerAccepting(now).payload, now, Accepted2(now));
    GrewHolds(s.second.e.core, t.second.e.core, PeerAccepting(now));
  }

  lemma FormsNow(events: map<Key, Record>, c: Collab, now: Instant, sent: int)
    requires c == ACCEPTED_1.(outSeq := sent, lastOut := c.lastOut) && 0 <= now <= 60
    ensures ApplyCore(Core(Advance(c, PeerAccepting(now)), events), PeerAccepting(now), 0, false)
      == Done(Core(Forming(c, now, sent), events))
  {
    var before := Advance(c, PeerAccepting(now));
    var d := before.(acceptances := before.acceptances[2 := ConsentOf(PeerAccepting(now))]);
    assert d.acceptances == Both(now);
    assert ReadyToForm(d, 0) && FormationOf(d, 0) == Formed1(now, sent).formation;
  }

  /** The coordinator hears the peer's acceptance and forms. */
  lemma CoordinatorForms(s: System, c: Collab, n: nat, m: nat, now: Instant, sent: int) returns (t: System)
    requires Stage(s, c, n, Accepted2(now), m) && PeerAccepting(now) in s.net && 0 <= now <= 60
    requires c == ACCEPTED_1.(outSeq := sent, lastOut := c.lastOut)
    requires NoWithdrawal(s.first.e.core) && Holds(s.first.e.core, ACCEPTING)
    ensures Stage(t, Forming(c, now, sent), n, Accepted2(now), m) && t.second == s.second && t.net == s.net
    ensures Holds(t.first.e.core, ACCEPTING) && Holds(t.first.e.core, PeerAccepting(now)) && NoWithdrawal(t.first.e.core)
    ensures OpsKept(s.first.e.ops, t.first.e.ops)
    ensures Grew(s.first.e.core, t.first.e.core, PeerAccepting(now), Applied)
  {
    FormsNow(StoredCore(s.first.e.core, PeerAccepting(now)).events, c, now, sent);
    t := HearsApplied(TWO, s, First, n, PeerAccepting(now), 0, Forming(c, now, sent));
    GrewHolds(s.first.e.core, t.first.e.core, PeerAccepting(now));
  }

  // ---- The coordinator's agreement event ----

  function Agreeing(n: nat, now: Instant, sent: int): Packet
    requires n > 0
  {
    Packet(42, Tag(n), Agree, 1, 2, sent + 1, Some(Tag(n - 1)), 0, 186400, AgreementBody(Formed1(now, sent)))
  }

  /** Records with both acceptances have all that the reducer asks about a formation. */
  lemma FormedHere(core: Core, now: Instant, sent: int)
    requires core.c.terms == Some(PLAN) && {core.c.local, core.c.peer} == {1, 2} && core.c.initiator == 1
    requires Holds(core, ACCEPTING) && Holds(core, PeerAccepting(now)) && 3 <= sent <= 4 && 0 <= now <= 60
    ensures Formed(core, Formed1(now, sent).formation)
  {
  }

  lemma RecordableHere(core: Core, p: Packet, sent: int, clock: Instant)
    requires Holds(core, ACCEPTING) && Holds(core, PeerAccepting(0)) && NoWithdrawal(core)
    requires 0 <= p.createdAt && 0 <= clock
    ensures Recordable(core, Formed1(0, sent).formation, p, clock)
  {
    var f := Formed1(0, sent).formation;
    forall ref | ref in f.acceptances ensures Attested(core, f, ref) {
      assert ref == Refs(0)[0] || ref == Refs(0)[1];
      assert forall k :: k in core.events && core.events[k].status.Applied? ==> AppliedAt(core.events, k);
    }
  }

  function Charged1(c: Collab): Collab {
    c.(permit := Some(Permit(186400, MAX_MAINTENANCE, 1, false)))
  }

  /** The coordinator sends its agreement at clock 0. */
  lemma CoordinatorSends(s: System, c: Collab, d: Collab, n: nat, m: nat, sent: int) returns (t: System)
    requires Stage(s, Forming(c, 0, sent), n, d, m) && 3 <= n < 20 && 3 <= sent <= 4
    requires c == ACCEPTED_1.(outSeq := sent, lastOut := Some(Tag(n - 1)))
    requires Holds(s.first.e.core, ACCEPTING) && Holds(s.first.e.core, PeerAccepting(0)) && NoWithdrawal(s.first.e.core)
    ensures Stage(t, Charged1(Forming(c, 0, sent)).(outSeq := sent + 1, lastOut := Some(Tag(n))), n + 1, d, m)
    ensures t.second == s.second && t.net == s.net + {Agreeing(n, 0, sent)}
    ensures Grew(s.first.e.core, t.first.e.core, Agreeing(n, 0, sent), Applied)
    ensures OthersKept(s.first.e.ops, t.first.e.ops, UserOp(n))
  {
    var core, g, p := s.first.e.core, Formed1(0, sent), Agreeing(n, 0, sent);
    assert Spoken(core.c, n, Agree, AgreementBody(g), 0) == p;
    var reserved := ReservedCore(core, p);
    FormedHere(reserved, 0, sent);
    RecordableHere(reserved, p, sent, 0);
    SendOutcome(reserved, g, p, 0);
    t := Says(TWO, s, First, n, Agree, NoRequest, AgreementBody(g), 0, reserved.c);
  }

  // ---- A withdrawal that the formation overtakes ----

  const WITHDRAWING := Packet(42, Tag(3), Withdraw, 1, 2, 4, Some(Tag(2)), 0, 100000, WithdrawBody(Tag(2), DigestOf(PLAN)))
  const WITHDRAWN_1 := ACCEPTED_1.(outSeq := 4, lastOut := Some(Tag(3)))

  predicate Waiting3(e: Endpoint) {
    && Unsent(e, UserOp(3), WITHDRAWING)
    && KeyOf(WITHDRAWING) in e.core.events && e.core.events[KeyOf(WITHDRAWING)] == Record(WITHDRAWING, Reserved, true, None)
  }

  /** The coordinator accepts, then reserves the withdrawal of its acceptance; the peer's
      acceptance arrives, and the coordinator forms at its outgoing cursor, 4. */
  lemma Overtakes() returns (s: System)
    ensures Stage(s, Forming(WITHDRAWN_1, 0, 4), 4, Accepted2(0), 2) && ACCEPTING in s.net && Waiting3(s.first.e)
    ensures Holds(s.first.e.core, ACCEPTING) && Holds(s.first.e.core, PeerAccepting(0)) && NoWithdrawal(s.first.e.core)
    ensures Holds(s.second.e.core, PeerAccepting(0)) && NoWithdrawal(s.second.e.core)
  {
    var s0 := Accepts();
    assert Spoken(ACCEPTED_1, 3, Withdraw, WITHDRAWING.payload, 0) == WITHDRAWING;
    var s1 := ReservesOne(TWO, s0, First, 3, Withdraw, NoRequest, WITHDRAWING.payload, 0);
    assert NoWithdrawal(s1.first.e.core);
    var s2 := PeerAccepts(s1, WITHDRAWN_1, 4, 0);
    s := CoordinatorForms(s2, WITHDRAWN_1, 4, 2, 0, 4);
  }

  const AGREEMENT_SENT := Agreeing(4, 0, 4)
  const SENT_1 := Charged1(Forming(WITHDRAWN_1, 0, 4)).(outSeq := 5, lastOut := Some(Tag(4)))

  /** It sends the agreement, and then the withdrawal. */
  lemma BothSent() returns (s: System)
    ensures Stage(s, SENT_1.(withdrawPending := true), 5, Accepted2(0), 2)
    ensures {ACCEPTING, WITHDRAWING, AGREEMENT_SENT} <= s.net
    ensures Holds(s.second.e.core, PeerAccepting(0)) && NoWithdrawal(s.second.e.core)
  {
    var s0 := Overtakes();
    var s1 := CoordinatorSends(s0, WITHDRAWN_1, Accepted2(0), 4, 2, 4);
    s := WithdrawalSent(s1);
  }

  lemma WithdrawalSent(s: System) returns (t: System)
    requires Stage(s, SENT_1, 5, Accepted2(0), 2) && Waiting3(s.first.e)
    ensures Stage(t, SENT_1.(withdrawPending := true), 5, Accepted2(0), 2)
    ensures t.second == s.second && t.net == s.net + {WITHDRAWING}
  {
    var next := s.first.e.core.(c := SENT_1.(withdrawPending := true));
    assert ApplyCore(s.first.e.core, WITHDRAWING, 0, true) == Done(next);
    t := Sends(TWO, s, First, 5, UserOp(3), WITHDRAWING, 0, next);
  }

  function Heard2(now: Instant): Collab {
    Accepted2(now).(inSeq := 3, lastIn := Some(Tag(2)), acceptances := Both(now))
  }

  lemma PeerHearsAccept(s: System, c: Collab, n: nat, now: Instant, m: nat) returns (t: System)
    requires Stage(s, c, n, Accepted2(now), m) && ACCEPTING in s.net && 0 <= now <= 60
    requires Holds(s.second.e.core, PeerAccepting(now)) && NoWithdrawal(s.second.e.core)
    ensures Stage(t, c, n, Heard2(now), m) && t.first == s.first && t.net == s.net
    ensures Holds(t.second.e.core, PeerAccepting(now)) && Holds(t.second.e.core, ACCEPTING) && NoWithdrawal(t.second.e.core)
  {
    var d := Advance(Accepted2(now), ACCEPTING);
    assert d.acceptances[1 := ConsentOf(ACCEPTING)] == Both(now);
    t := HearsApplied(TWO, s, Second, m, ACCEPTING, 0, Heard2(now));
    GrewHolds(s.second.e.core, t.second.e.core, ACCEPTING);
  }

  const WITHDRAWN_2 := Heard2(0).(inSeq := 4, lastIn := Some(Tag(3)), withdrawPending := true,
                                 acceptances := map[1 := ConsentOf(ACCEPTING).(active := false), 2 := ConsentOf(PeerAccepting(0))])

  lemma PeerHearsWithdrawal(s: System, c: Collab, n: nat, m: nat) returns (t: System)
    requires Stage(s, c, n, Heard2(0), m) && WITHDRAWING in s.net
    requires Holds(s.second.e.core, PeerAccepting(0)) && Holds(s.second.e.core, ACCEPTING)
    ensures Stage(t, c, n, WITHDRAWN_2, m) && t.first == s.first && t.net == s.net
    ensures Holds(t.second.e.core, PeerAccepting(0)) && Holds(t.second.e.core, ACCEPTING) && Holds(t.second.e.core, WITHDRAWING)
  {
    var d := Advance(Heard2(0), WITHDRAWING);
    assert d.acceptances[1 := ConsentOf(ACCEPTING).(active := false)] == WITHDRAWN_2.acceptances;
    t := HearsApplied(TWO, s, Second, m, WITHDRAWING, 0, WITHDRAWN_2);
    GrewHolds(s.second.e.core, t.second.e.core, WITHDRAWING);
  }

  lemma SpoiledHere(core: Core)
    requires core.c.initiator == 1 && Holds(core, WITHDRAWING)
    ensures Spoiled(core, Formed1(0, 4).formation) && !Attested(core, Formed1(0, 4).formation, Refs(0)[0])
  {
    assert Withdraws(core.events[KeyOf(WITHDRAWING)], 1, Tag(2), 4);
    assert Formed1(0, 4).formation.acceptances[0] == Refs(0)[0];
  }

  ghost predicate Refused(core: Core) {
    && core.c.agreement.None? && core.c.initiator == 1 && Holds(core, WITHDRAWING)
    && KeyOf(AGREEMENT_SENT) in core.events
    && core.events[KeyOf(AGREEMENT_SENT)] == Record(AGREEMENT_SENT, Rejected, false, None)
  }

  lemma RefusedTurn(core: Core, reviews: map<Packet, Review>)
    requires core.c == WITHDRAWN_2 && KeyOf(AGREEMENT_SENT) !in core.events
    requires Holds(core, PeerAccepting(0)) && Holds(core, ACCEPTING) && Holds(core, WITHDRAWING)
    ensures var turn := TurnOf(StoredCore(core, AGREEMENT_SENT), KeyOf(AGREEMENT_SENT), reviews, 0);
      turn.Take? && Refused(turn.core)
  {
    var stored := StoredCore(core, AGREEMENT_SENT);
    FormedHere(stored, 0, 4);
    SpoiledHere(stored);
    assert Refs(0)[0] in Formed1(0, 4).formation.acceptances;
    TurnIs(stored, KeyOf(AGREEMENT_SENT), Formed1(0, 4), reviews, 0);
  }

  /** The peer comes to the agreement event and rejects it. */
  lemma PeerRefuses(s: System, c: Collab, n: nat, m: nat) returns (t: System)
    requires Stage(s, c, n, WITHDRAWN_2, m) && AGREEMENT_SENT in s.net
    requires Holds(s.second.e.core, PeerAccepting(0)) && Holds(s.second.e.core, ACCEPTING) && Holds(s.second.e.core, WITHDRAWING)
    ensures Reaches(TWO, t) && t.first == s.first && t.second.Bound? && Refused(t.second.e.core)
  {
    assert AGREEMENT_SENT.sequence == 5 && AGREEMENT_SENT.previous == Some(Tag(3)) && AdmittedStatus(AGREEMENT_SENT, 0).Buffered?;
    HeardNew(TWO, s, Second, AGREEMENT_SENT, 0);
    RefusedTurn(s.second.e.core, s.second.e.reviews);
    t := Hears(TWO, s, Second, m, AGREEMENT_SENT, 0);
  }

  /** The concrete case: the coordinator accepts and reserves the withdrawal of its
      acceptance, then the peer's acceptance arrives and it forms the agreement; it sends
      the agreement and the withdrawal. The peer rejects the agreement and, whatever either
      side does afterwards, never holds one, while the coordinator keeps it. */
  lemma OvertakenExample() returns (s: System)
    ensures Reaches(TWO, s) && s.first.Bound? && s.second.Bound?
    ensures s.first.e.core.c.agreement == Some(Formed1(0, 4)) && s.second.e.core.c.agreement.None?
    ensures KeyOf(AGREEMENT_SENT) in s.second.e.core.events
    ensures s.second.e.core.events[KeyOf(AGREEMENT_SENT)] == Record(AGREEMENT_SENT, Rejected, false, None)
    ensures forall actions :: var t := Run(TWO, s, actions);
      t.first.Bound? && t.second.Bound?
      && t.first.e.core.c.agreement == Some(Formed1(0, 4)) && t.second.e.core.c.agreement.None?
  {
    var s0 := BothSent();
    var s1 := PeerHearsAccept(s0, SENT_1.(withdrawPending := true), 5, 0, 2);
    var s2 := PeerHearsWithdrawal(s1, SENT_1.(withdrawPending := true), 5, 2);
    s := PeerRefuses(s2, SENT_1.(withdrawPending := true), 5, 2);
    SpoiledHere(s.second.e.core);
    ReachedFits(TWO, s);
    forall actions ensures var t := Run(TWO, s, actions);
      t.first.Bound? && t.second.Bound?
      && t.first.e.core.c.agreement == Some(Formed1(0, 4)) && t.second.e.core.c.agreement.None?
    {
      SpoiledForGood(TWO, s, actions);
    }
  }

  // ---- An acceptance from a clock that is ahead ----

  /** The concrete case: the peer's clock is 50 ahead, within the minute that is tolerated.
      The coordinator forms on its acceptance, but it can send that agreement at no later
      clock value, so the peer never hears of it. */
  lemma AheadExample() returns (s: System)
    ensures Reaches(TWO, s) && s.first.Bound? && s.second.Bound?
    ensures s.first.e.core.c.agreement == Some(Formed1(50, 3)) && s.second.e.core.c.agreement.None?
    ensures Unsent(s.first.e, UserOp(3), Agreeing(3, 50, 3))
    ensures forall stored, connected, now :: Submit(s.first.e, UserOp(3), stored, connected, now).None?
  {
    var s2 := FormsAhead();
    assert Spoken(s2.first.e.core.c, 3, Agree, AgreementBody(Formed1(50, 3)), 0) == Agreeing(3, 50, 3);
    s := ReservesOne(TWO, s2, First, 3, Agree, NoRequest, AgreementBody(Formed1(50, 3)), 0);
    assert Holds(s.first.e.core, ACCEPTING) && Holds(s.first.e.core, PeerAccepting(50));
    forall stored, connected, now ensures Submit(s.first.e, UserOp(3), stored, connected, now).None? {
      Unsendable(s.first.e, stored, connected, now);
    }
  }

  lemma FormsAhead() returns (s: System)
    ensures Stage(s, Forming(ACCEPTED_1, 50, 3), 3, Accepted2(50), 2)
    ensures Holds(s.first.e.core, ACCEPTING) && Holds(s.first.e.core, PeerAccepting(50))
  {
    var s0 := Accepts();
    var s1 := PeerAccepts(s0, ACCEPTED_1, 3, 50);
    s := CoordinatorForms(s1, ACCEPTED_1, 3, 2, 50, 3);
  }

  lemma Unsendable(e: Endpoint, stored: bool, connected: bool, now: Instant)
    requires Unsent(e, UserOp(3), Agreeing(3, 50, 3)) && Holds(e.core, ACCEPTING) && Holds(e.core, PeerAccepting(50))
    requires e.core.c.agreement == Some(Formed1(50, 3)) && !e.core.c.closure.Cancelled? && e.core.c.initiator == 1
    requires e.core.c.terms == Some(PLAN) && e.core.c.local == 1 && e.core.c.peer == 2
    requires KeyOf(Agreeing(3, 50, 3)) in e.core.events && e.core.events[KeyOf(Agreeing(3, 50, 3))].status.Reserved?
    ensures Submit(e, UserOp(3), stored, connected, now).None?
  {
    FormedHere(e.core, 50, 3);
    assert !Attested(e.core, Formed1(50, 3).formation, Refs(50)[1]);
    assert Formed1(50, 3).formation.acceptances[1] == Refs(50)[1];
    SendOutcome(e.core, Formed1(50, 3), Agreeing(3, 50, 3), now);
  }

  // ---- A cancelled collaboration that is completed ----

  const AGREED_1 := Charged1(Forming(ACCEPTED_1, 0, 3)).(outSeq := 4, lastOut := Some(Tag(3)))
  const AGREEMENT_AT_4 := Agreeing(3, 0, 3)
  const AGREED_2 := Heard2(0).(inSeq := 4, lastIn := Some(Tag(3)), agreement := Some(Formed1(0, 3)))

  lemma AgreementTaken2(core: Core)
    requires core.c == Heard2(0) && KeyOf(AGREEMENT_AT_4) !in core.events
    requires Holds(core, PeerAccepting(0)) && Holds(core, ACCEPTING) && NoWithdrawal(core)
    ensures ApplyCore(StoredCore(core, AGREEMENT_AT_4).(c := Advance(core.c, AGREEMENT_AT_4)), AGREEMENT_AT_4, 0, false)
      == Done(StoredCore(core, AGREEMENT_AT_4).(c := AGREED_2))
  {
    var stored := StoredCore(core, AGREEMENT_AT_4).(c := Advance(core.c, AGREEMENT_AT_4));
    assert NoWithdrawal(stored);
    FormedHere(stored, 0, 3);
    RecordableHere(stored, AGREEMENT_AT_4, 3, 0);
    AgreementOutcome(stored, Formed1(0, 3), AGREEMENT_AT_4, 0);
  }

  /** Both sides hold the agreement. */
  lemma Agrees() returns (s: System)
    ensures Stage(s, AGREED_1, 4, AGREED_2, 2)
  {
    var s0 := AgreementOut();
    HeardNew(TWO, s0, Second, AGREEMENT_AT_4, 0);
    AgreementTaken2(s0.second.e.core);
    s := HearsApplied(TWO, s0, Second, 2, AGREEMENT_AT_4, 0, AGREED_2);
  }

  lemma AgreementOut() returns (s: System)
    ensures Stage(s, AGREED_1, 4, Heard2(0), 2) && AGREEMENT_AT_4 in s.net
    ensures Holds(s.second.e.core, PeerAccepting(0)) && Holds(s.second.e.core, ACCEPTING) && NoWithdrawal(s.second.e.core)
  {
    var s0 := Accepts();
    var s1 := PeerAccepts(s0, ACCEPTED_1, 3, 0);
    var s2 := CoordinatorForms(s1, ACCEPTED_1, 3, 2, 0, 3);
    var s3 := CoordinatorSends(s2, ACCEPTED_1, Accepted2(0), 3, 2, 3);
    s := PeerHearsAccept(s3, AGREED_1, 4, 0, 2);
  }

  const NAMING := AgreementNameBody(Formed1(0, 3).id)
  const CANCELLING := Packet(42, Tag(4), CancelRequest, 1, 2, 5, Some(Tag(3)), 0, 100000, NAMING)
  const CONFIRMING := Packet(42, Tag(2), CancelAck, 2, 1, 3, Some(Tag(1)), 0, 100000, NAMING)
  const ACKNOWLEDGING := Packet(42, Tag(3), AgreementAck, 2, 1, 4, Some(Tag(2)), 0, 186400, NAMING)
  const ASKING := Some(CancelNote(1, Tag(4)))
  const ASKED_1 := AGREED_1.(cancelRequest := ASKING, outSeq := 5, lastOut := Some(Tag(4)))
  const ASKED_2 := AGREED_2.(cancelRequest := ASKING, inSeq := 5, lastIn := Some(Tag(4)))
  const CANCELLED_2 := ASKED_2.(closure := Cancelled, outSeq := 3, lastOut := Some(Tag(2)))
  const DONE_2 := CANCELLED_2.(permit := Some(Permit(186400, MAX_MAINTENANCE, 1, false)), outSeq := 4, lastOut := Some(Tag(3)))
  const CANCELLED_1 := ASKED_1.(closure := Cancelled, inSeq := 3, lastIn := Some(Tag(2)))
  const COMPLETED_1 := CANCELLED_1.(synced := true, closure := Complete, inSeq := 4, lastIn := Some(Tag(3)))

  lemma Asks() returns (s: System)
    ensures Stage(s, ASKED_1, 5, ASKED_2, 2)
  {
    var s0 := Agrees();
    assert Spoken(AGREED_1, 4, CancelRequest, NAMING, 0) == CANCELLING;
    var s1 := Says(TWO, s0, First, 4, CancelRequest, NoRequest, NAMING, 0, ASKED_1);
    s := HearsApplied(TWO, s1, Second, 2, CANCELLING, 0, ASKED_2);
  }

  lemma Confirms2(s: System) returns (t: System)
    requires Stage(s, ASKED_1, 5, ASKED_2, 2)
    ensures Stage(t, ASKED_1, 5, CANCELLED_2, 3) && CONFIRMING in t.net
  {
    assert Spoken(ASKED_2, 2, CancelAck, NAMING, 0) == CONFIRMING;
    t := Says(TWO, s, Second, 2, CancelAck, NoRequest, NAMING, 0, CANCELLED_2);
  }

  /** The coordinator asks to cancel, the peer confirms, and then acknowledges the agreement. */
  lemma Cancels() returns (s: System)
    ensures Stage(s, ASKED_1, 5, DONE_2, 4) && {CONFIRMING, ACKNOWLEDGING} <= s.net
  {
    var s0 := Asks();
    var s1 := Confirms2(s0);
    assert Spoken(CANCELLED_2, 3, AgreementAck, NAMING, 0) == ACKNOWLEDGING;
    s := Says(TWO, s1, Second, 3, AgreementAck, NoRequest, NAMING, 0, DONE_2);
  }

  lemma CancelHeard() returns (s: System)
    ensures Stage(s, CANCELLED_1, 5, DONE_2, 4) && ACKNOWLEDGING in s.net
  {
    var s0 := Cancels();
    s := HearsApplied(TWO, s0, First, 5, CONFIRMING, 0, CANCELLED_1);
  }

  /** The concrete case: both sides have agreed and cancelled, and the coordinator knows
      it; the peer's acknowledgement of the agreement then makes the collaboration complete
      at the coordinator, while it stays cancelled at the peer. */
  lemma CompletedExample() returns (s: System, t: System)
    ensures Reaches(TWO, s) && s.first.Bound? && s.second.Bound?
    ensures s.first.e.core.c.closure.Cancelled? && s.second.e.core.c.closure.Cancelled?
    ensures t == Act(TWO, s, Delivers(First, ACKNOWLEDGING, 0)) && t.first.Bound? && t.second == s.second
    ensures t.first.e.core.c.closure.Complete?
  {
    s := CancelHeard();
    t := HearsApplied(TWO, s, First, 5, ACKNOWLEDGING, 0, COMPLETED_1);
  }
}
