/** Concrete runs in which the next number of a session is blocked for good: by a
    stranger's message, and by a plain message of anybody, the very sender included. */
module MailExample {
  import opened Basics
  import opened MailTypes
  import opened MailOps
  import opened MailDelivery
  import opened MailBlocked

  ghost predicate Reaches(s: System) {
    exists actions :: Run(Start(1, 2), actions) == s
  }

  lemma Acted(s: System, a: Action)
    requires Reaches(s)
    ensures Reaches(Act(s, a))
  {
    var actions :| Run(Start(1, 2), actions) == s;
    assert (actions + [a])[..|actions|] == actions;
    assert Run(Start(1, 2), actions + [a]) == Act(s, a);
  }

  const RULES := Policy(1, 11)

  /** A message of party 9 under an identifier of its choice, and party 1's own under the
      same identifier. */
  const STRANGE := Envelope(UserMessage(1), 9, 2, 100, 1, 11, 0, Business(5))
  const HONEST := Envelope(UserMessage(1), 1, 2, 7, 1, 11, 0, Business(6))

  const TO_PEER := Request(2, 6, None)
  const ADMITTING := Outside(Some(0), false, true, Receipted, 0)
  const WAITING := Row(TO_PEER, 0, Accepted, 0, 0, NoError, None, 0, 0, false)

  /** The receiver holds sessions with both, and has committed the stranger's message. */
  const RECEIVER_2 := Site(
    Mail(2, map[], map[], map[9 := Session(100, true, 11, 0, 0, 1), 1 := Session(7, true, 11, 0, 0, 0)],
         map[UserMessage(1) := Message(9, 5, STRANGE)], map[], Some(RULES), Some(RULES)),
    {100, 7}, map[100 := [STRANGE], 7 := []])

  function Table(self: Urn): Mail {
    EmptyMail(self).(stored := Some(RULES), engine := Some(RULES))
  }

  lemma Refreshed() returns (s: System)
    ensures Reaches(s) && s == System(Site(Table(1), {}, map[]), Site(Table(2), {}, map[]), {})
  {
    var s0 := Start(1, 2);
    assert Run(s0, []) == s0;
    Acted(s0, Refreshes(First, RULES));
    var s1 := Act(s0, Refreshes(First, RULES));
    Acted(s1, Refreshes(Second, RULES));
    s := Act(s1, Refreshes(Second, RULES));
  }

  const LISTENER := Site(Table(2).(sessions := map[9 := Session(100, true, 11, 0, 0, 0)]), {100}, map[100 := []])
  const HEARER := Site(Table(2).(sessions := map[9 := Session(100, true, 11, 0, 0, 1)],
                                 inbox := map[UserMessage(1) := Message(9, 5, STRANGE)]), {100}, map[100 := [STRANGE]])

  lemma StrangeHeard() returns (s: System)
    ensures Reaches(s) && s == System(Site(Table(1), {}, map[]), HEARER, {})
  {
    var s0 := Refreshed();
    Acted(s0, Installs(Second, 9, 100, 0));
    var s1 := s0.(second := LISTENER);
    assert Install(s0.second, 9, 100, 0) == LISTENER;
    assert Act(s0, Installs(Second, 9, 100, 0)) == s1;
    Acted(s1, Receives(Second, STRANGE));
    s := s1.(second := HEARER);
    StrangeCommit();
    assert Act(s1, Receives(Second, STRANGE)) == s;
  }

  lemma StrangeCommit()
    ensures Commit(LISTENER, RULES, STRANGE) == HEARER
  {
    var sessions := LISTENER.mail.sessions;
    assert sessions[9 := sessions[9].(receiveSequence := 1)] == HEARER.mail.sessions;
    assert LISTENER.mail.inbox[UserMessage(1) := Message(9, 5, STRANGE)] == HEARER.mail.inbox;
    assert Consume(LISTENER.mail, STRANGE) == Some(LISTENER.mail.(sessions := HEARER.mail.sessions));
    assert Receive(LISTENER.mail, RULES, STRANGE) == Some(HEARER.mail);
    assert LISTENER.commits[100] + [STRANGE] == [STRANGE];
    assert LISTENER.commits[100 := LISTENER.commits[100] + [STRANGE]] == HEARER.commits;
  }

  lemma Listens() returns (s: System)
    ensures Reaches(s) && s == System(Site(Table(1), {}, map[]), RECEIVER_2, {})
  {
    var s0 := StrangeHeard();
    Acted(s0, Installs(Second, 1, 7, 0));
    s := s0.(second := RECEIVER_2);
    assert HEARER.mail.sessions[1 := Session(7, true, 11, 0, 0, 0)] == RECEIVER_2.mail.sessions;
    assert HEARER.commits[7 := []] == RECEIVER_2.commits && HEARER.installed + {7} == RECEIVER_2.installed;
    assert Install(HEARER, 1, 7, 0) == RECEIVER_2;
  }

  const SPEAKER := Site(Table(1).(sessions := map[2 := Session(7, true, 11, 0, 0, 0)], outbox := map[UserMessage(1) := WAITING]),
                        {7}, map[7 := []])

  /** Party 1 prepares its message while party 2 is in the state `r`. */
  lemma Prepares(s: System, r: Site) returns (t: System)
    requires Reaches(s) && s == System(Site(Table(1), {}, map[]), r, {})
    ensures Reaches(t) && t == System(SPEAKER, r, {})
  {
    Acted(s, Installs(First, 2, 7, 0));
    var s1 := Act(s, Installs(First, 2, 7, 0));
    Acted(s1, Accepts(First, UserMessage(1), TO_PEER, 0));
    t := Act(s1, Accepts(First, UserMessage(1), TO_PEER, 0));
    assert t.first.mail.outbox == SPEAKER.mail.outbox && t.first.mail.sessions == SPEAKER.mail.sessions;
    assert t.first.commits == SPEAKER.commits && t.first.installed == SPEAKER.installed;
  }

  lemma Speaks(s: System, r: Site) returns (t: System)
    requires Reaches(s) && s == System(Site(Table(1), {}, map[]), r, {})
    ensures Reaches(t) && t.second == r && t.net == {HONEST}
    ensures t.first.mail.self == 1 && Holds(t.first.mail, HONEST)
    ensures t.first.mail.outbox[HONEST.id].status.PlatformQueued?
  {
    var s0 := Prepares(s, r);
    assert IsNext(s0.first.mail, UserMessage(1), 0);
    Acted(s0, Delivers(First, UserMessage(1), ADMITTING, 0));
    t := Act(s0, Delivers(First, UserMessage(1), ADMITTING, 0));
  }

  lemma ReachedFits(s: System)
    requires Reaches(s)
    ensures SystemFits(s)
  {
    var actions :| Run(Start(1, 2), actions) == s;
    StartFits(1, 2);
    RunMoves(Start(1, 2), actions);
  }

  /** The platform has admitted the peer's envelope, it is the next number of a live session
      and passes every check before the commit; yet it is refused at every arrival, and the
      session commits nothing in any continuation. */
  ghost predicate BlockedAlways(s: System) {
    && Reaches(s) && HONEST in s.net && Holds(s.first.mail, HONEST)
    && Acceptable(s.second.mail, RULES, HONEST) && Occupied(s.second.mail, HONEST)
    && HONEST.sequence == s.second.mail.sessions[1].receiveSequence + 1
    && Act(s, Receives(Second, HONEST)) == s
    && forall actions :: CommitsNone(Run(s, actions).second, HONEST.session)
  }

  predicate CommitsNone(site: Site, session: SessionId) {
    session in site.commits && site.commits[session] == []
  }

  lemma Blocks(s: System)
    requires Reaches(s) && HONEST in s.net && Holds(s.first.mail, HONEST) && s.first.mail.self == 1
    requires s.first.mail.outbox[HONEST.id].status.PlatformQueued? && Occupied(s.second.mail, HONEST)
    requires s.second.mail.self == 2 && s.second.mail.engine == Some(RULES) && 1 in s.second.mail.sessions
    requires s.second.mail.sessions[1] == Session(7, true, 11, 0, 0, 0) && CommitsNone(s.second, 7)
    ensures BlockedAlways(s)
  {
    ReachedFits(s);
    BlockedNow(s, Second, HONEST);
    OccupiedUnconsumed(s.second.mail, RULES, HONEST);
    forall actions ensures CommitsNone(Run(s, actions).second, HONEST.session) {
      BlockedForGood(s, Second, HONEST, actions);
    }
  }

  /** The concrete case: a stranger with a session of its own has sent a message under the
      identifier that the peer chooses next. */
  lemma OccupiedExample() returns (s: System)
    ensures BlockedAlways(s) && s.second.mail.inbox[HONEST.id] == Message(9, 5, STRANGE)
  {
    var s0 := Listens();
    s := Speaks(s0, RECEIVER_2);
    Blocks(s);
  }

  function PlainReceiver2(who: Urn, text: nat): Site {
    Site(Table(2).(sessions := map[1 := Session(7, true, 11, 0, 0, 0)],
                   inbox := map[UserMessage(1) := PlainMessage(who, text)]), {7}, map[7 := []])
  }

  lemma PlainStored(who: Urn, text: nat) returns (s: System)
    ensures Reaches(s) && s == System(Site(Table(1), {}, map[]), PlainReceiver2(who, text), {})
  {
    var s0 := Refreshed();
    Acted(s0, StoresPlain(Second, UserMessage(1), who, text));
    var s1 := Act(s0, StoresPlain(Second, UserMessage(1), who, text));
    Acted(s1, Installs(Second, 1, 7, 0));
    s := Act(s1, Installs(Second, 1, 7, 0));
    assert s.second.mail.inbox == PlainReceiver2(who, text).mail.inbox;
    assert s.second.mail.sessions == PlainReceiver2(who, text).mail.sessions;
    assert s.second.commits == PlainReceiver2(who, text).commits && s.second.installed == PlainReceiver2(who, text).installed;
  }

  /** The concrete case: a message of the older protocol stands under that identifier. It
      needs no session, it may be by anybody, by the peer itself (`who` is 1) as well, and
      its text may be the very text. */
  lemma PlainExample(who: Urn, text: nat) returns (s: System)
    ensures BlockedAlways(s) && s.second.mail.inbox[HONEST.id] == PlainMessage(who, text)
  {
    var s0 := PlainStored(who, text);
    s := Speaks(s0, PlainReceiver2(who, text));
    Blocks(s);
  }
}
