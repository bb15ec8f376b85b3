/** Two helpers and a relay that loses, reorders and repeats what it was handed: what the
    receiver commits, session by session. */
module MailDelivery {
  import opened Basics
  import opened MailTypes
  import opened MailOps
  import opened MailInvariant

  // ---- One live envelope per sequence ----

  function Depth(id: MessageId): nat {
    match id
    case UserMessage(_) => 0
    case SkipOf(e) => 1 + Depth(e.id)
  }

  /** The ordinary message that a chain of repairs started from. */
  function RootOf(id: MessageId): MessageId {
    match id
    case UserMessage(_) => id
    case SkipOf(e) => RootOf(e.id)
  }

  predicate SameSlot(m: Mail, a: MessageId, b: MessageId) {
    && Sealing(m, a) && Sealing(m, b)
    && EnvelopeOf(m, a).session == EnvelopeOf(m, b).session && EnvelopeOf(m, a).sequence == EnvelopeOf(m, b).sequence
  }

  /** The row that a repair replaces, one step up the chain. */
  lemma Parent(m: Mail, installed: set<SessionId>, id: MessageId)
    requires RowsFit(m, installed) && RepairsFit(m) && Sealing(m, id) && id.SkipOf?
    ensures Refuses(m, id.original.id, id.original) && SameSlot(m, id, id.original.id)
    ensures EnvelopeOf(m, id) == SkipEnvelope(id.original)
  {
    assert RowFits(m, installed, id) && RepairFits(m, id);
  }

  lemma {:induction false} RootRow(m: Mail, installed: set<SessionId>, id: MessageId)
    requires RowsFit(m, installed) && RepairsFit(m) && Sealing(m, id)
    ensures Ordinary(m, RootOf(id), EnvelopeOf(m, id).session, EnvelopeOf(m, id).sequence)
    decreases Depth(id)
  {
    if id.SkipOf? {
      Parent(m, installed, id);
      RootRow(m, installed, id.original.id);
    }
  }

  /** One live envelope per sequence: the rows of one sequence form a chain, an original,
      its repair, the repair's repair, ..., in which every row but the last is refused
      for good. */
  lemma {:induction false} SlotChain(m: Mail, installed: set<SessionId>, a: MessageId, b: MessageId)
    requires RowsFit(m, installed) && RepairsFit(m) && UsedOnce(m) && SameSlot(m, a, b)
    ensures RootOf(a) == RootOf(b)
    ensures Depth(a) == Depth(b) ==> a == b
    ensures Depth(a) < Depth(b) ==> Refuses(m, a, EnvelopeOf(m, a))
    ensures Depth(b) < Depth(a) ==> Refuses(m, b, EnvelopeOf(m, b))
    decreases Depth(a) + Depth(b)
  {
    RootRow(m, installed, a);
    RootRow(m, installed, b);
    if Depth(a) < Depth(b) {
      Parent(m, installed, b);
      SlotChain(m, installed, a, b.original.id);
    } else if Depth(b) < Depth(a) {
      Parent(m, installed, a);
      SlotChain(m, installed, a.original.id, b);
    } else if a.SkipOf? {
      Parent(m, installed, a);
      Parent(m, installed, b);
      SlotChain(m, installed, a.original.id, b.original.id);
    }
  }

  /** The ordinary envelopes of a live session occupy exactly the numbers from 1 to its
      counter, each once. */
  lemma SequencesExact(m: Mail, installed: set<SessionId>, peer: Urn, n: nat)
    requires Fits(m, installed) && peer in m.sessions
    ensures var s := m.sessions[peer]; Used(m, s.id, n) <==> 1 <= n <= s.sendSequence
  {
    var s := m.sessions[peer];
    assert SessionFits(m, installed, peer);
    if Used(m, s.id, n) {
      var id :| Ordinary(m, id, s.id, n);
      assert RowFits(m, installed, id);
    }
    if 1 <= n <= s.sendSequence {
      var top :| Ordinary(m, top, s.id, s.sendSequence);
    }
  }

  // ---- Two sites and a relay ----

  /** A mailbox with the history of what it committed in each session ever installed. */
  datatype Site = Site(mail: Mail, installed: set<SessionId>, commits: map<SessionId, seq<Envelope>>)

  /** `net` holds every envelope ever handed over; the relay may deliver any of them any
      number of times in any order, or never. */
  datatype System = System(first: Site, second: Site, net: set<Envelope>)

  datatype Side = First | Second

  datatype Action =
    | Accepts(side: Side, id: MessageId, request: Request, now: Instant)
    | Refreshes(side: Side, policy: Policy)
    | Restarts(side: Side)
    | Installs(side: Side, peer: Urn, session: SessionId, key: KeyId)
    | Drops(side: Side, peer: Urn)
    | Delivers(side: Side, id: MessageId, outside: Outside, now: Instant)
    | Retires(side: Side)
    | Repairs(side: Side, id: MessageId, keys: map<Urn, KeyId>)
    | Receives(side: Side, envelope: Envelope)
    | StoresPlain(side: Side, id: MessageId, sender: Urn, text: nat)

  function At(s: System, side: Side): Site {
    if side.First? then s.first else s.second
  }

  function Other(side: Side): Side {
    if side.First? then Second else First
  }

  function Put(s: System, side: Side, site: Site): System {
    if side.First? then s.(first := site) else s.(second := site)
  }

  function OrSame(site: Site, r: Option<Mail>): Site {
    if r.Some? then site.(mail := r.value) else site
  }

  /** Nobody can sign for either party but that party itself. */
  predicate MayArrive(s: System, e: Envelope) {
    e in s.net || (e.sender != s.first.mail.self && e.sender != s.second.mail.self)
  }

  /** Receiving `e` consumed a number of its session. */
  predicate Consumed(m: Mail, n: Mail, e: Envelope) {
    && e.sender in m.sessions && e.sender in n.sessions
    && n.sessions[e.sender].receiveSequence != m.sessions[e.sender].receiveSequence
  }

  function Commit(site: Site, policy: Policy, e: Envelope): Site {
    match Receive(site.mail, policy, e)
    case None => site
    case Some(n) =>
      if Consumed(site.mail, n, e) && e.session in site.commits then
        site.(mail := n, commits := site.commits[e.session := site.commits[e.session] + [e]])
      else site.(mail := n)
  }

  function Install(site: Site, peer: Urn, session: SessionId, key: KeyId): Site
    requires site.mail.engine.Some?
  {
    var s := Session(session, true, site.mail.engine.value.hash, key, 0, 0);
    Site(SaveSession(site.mail, peer, s), site.installed + {session}, site.commits[session := []])
  }

  function SendTo(s: System, side: Side, sent: Sent, reply: Reply): System {
    Put(s, side, At(s, side).(mail := sent.mail)).(net := s.net +
      if sent.handed.Some? && Stored(reply) then {sent.handed.value} else {})
  }

  /** One atomic action. Sessions are installed under identifiers that were never used
      before, and nothing is delivered or received without a policy. */
  ghost function Act(s: System, a: Action): System {
    var site := At(s, a.side);
    match a
    case Accepts(side, id, request, now) => Put(s, side, OrSame(site, Accept(site.mail, id, request, now)))
    case Refreshes(side, policy) => Put(s, side, OrSame(site, RefreshPolicy(site.mail, policy)))
    case Restarts(side) => Put(s, side, site.(mail := site.mail.(engine := None)))
    case Installs(side, peer, session, key) =>
      if session in site.installed || site.mail.engine.None? then s
      else Put(s, side, Install(site, peer, session, key))
    case Drops(side, peer) => Put(s, side, site.(mail := DeleteSession(site.mail, peer)))
    case Delivers(side, id, outside, now) =>
      if site.mail.engine.None? || !IsNext(site.mail, id, now) then s
      else SendTo(s, side, Deliver(site.mail, id, site.mail.engine.value, outside, now), outside.reply)
    case Retires(side) => Put(s, side, site.(mail := Retire(site.mail)))
    case Repairs(side, id, keys) =>
      if site.mail.engine.None? || !Schedulable(site.mail, id, site.mail.engine.value, keys) then s
      else Put(s, side, OrSame(site, SaveSkip(site.mail, id, site.mail.outbox[id].envelope.value)))
    case Receives(side, e) =>
      if site.mail.engine.None? || !MayArrive(s, e) then s
      else Put(s, side, Commit(site, site.mail.engine.value, e))
    case StoresPlain(side, id, sender, text) => Put(s, side, OrSame(site, ReceivePlain(site.mail, id, sender, text)))
  }

  ghost function Run(s: System, actions: seq<Action>): System
    decreases |actions|
  {
    if actions == [] then s else Act(Run(s, actions[..|actions|-1]), actions[|actions|-1])
  }

  function EmptyMail(self: Urn): Mail {
    Mail(self, map[], map[], map[], map[], map[], None, None)
  }

  function Start(first: Urn, second: Urn): System {
    System(Site(EmptyMail(first), {}, map[]), Site(EmptyMail(second), {}, map[]), {})
  }

  // ---- What a receiver keeps ----

  /** `e` is the commit of its number in its session. */
  predicate Recorded(commits: map<SessionId, seq<Envelope>>, e: Envelope) {
    e.session in commits && 1 <= e.sequence <= |commits[e.session]| && commits[e.session][e.sequence - 1] == e
  }

  predicate InInbox(m: Mail, e: Envelope) {
    e.body.Business? && e.id in m.inbox && m.inbox[e.id] == Message(e.sender, e.body.text, e)
  }

  predicate InSkipped(m: Mail, e: Envelope) {
    && e.body.SkipControl? && e.id.SkipOf? && e.id in m.skipped
    && m.skipped[e.id] == Tombstone(e.body.inReplyTo, e.body.original, e)
  }

  /** The commits of one session are numbered 1, 2, 3, ..., and each is stored as a message
      or as a skip. */
  ghost predicate LogFits(m: Mail, s: SessionId, log: seq<Envelope>) {
    forall i :: 0 <= i < |log| ==> LogEntry(m, s, log, i)
  }

  predicate LogEntry(m: Mail, s: SessionId, log: seq<Envelope>, i: nat)
    requires i < |log|
  {
    log[i].session == s && log[i].sequence == i + 1 && (InInbox(m, log[i]) || InSkipped(m, log[i]))
  }

  ghost predicate InboxFits(m: Mail, commits: map<SessionId, seq<Envelope>>) {
    && (forall id :: id in m.inbox && m.inbox[id].Message? ==>
          m.inbox[id].envelope.id == id && InInbox(m, m.inbox[id].envelope) && Recorded(commits, m.inbox[id].envelope))
    && (forall id :: id in m.skipped ==> m.skipped[id].envelope.id == id && InSkipped(m, m.skipped[id].envelope)
                                         && Recorded(commits, m.skipped[id].envelope))
  }

  /** A live session counts its commits, all of them from its peer. */
  ghost predicate CounterFits(m: Mail, commits: map<SessionId, seq<Envelope>>, p: Urn)
    requires p in m.sessions
  {
    var id := m.sessions[p].id;
    && id in commits && |commits[id]| == m.sessions[p].receiveSequence
    && forall i :: 0 <= i < |commits[id]| ==> commits[id][i].sender == p
  }

  ghost predicate Receiver(site: Site) {
    && site.commits.Keys == site.installed
    && (forall s :: s in site.commits ==> LogFits(site.mail, s, site.commits[s]))
    && (forall p :: p in site.mail.sessions ==> CounterFits(site.mail, site.commits, p))
    && InboxFits(site.mail, site.commits)
  }

  /** A change that commits nothing. */
  lemma NoCommit(site: Site, n: Mail)
    requires Receiver(site) && Unreceived(site.mail, n)
    ensures Receiver(site.(mail := n))
  {
    forall s | s in site.commits ensures LogFits(n, s, site.commits[s]) {
      assert LogFits(site.mail, s, site.commits[s]);
      forall i | 0 <= i < |site.commits[s]| ensures LogEntry(n, s, site.commits[s], i) {
        assert LogEntry(site.mail, s, site.commits[s], i);
      }
    }
    forall p | p in n.sessions ensures CounterFits(n, site.commits, p) {
      assert CounterFits(site.mail, site.commits, p);
    }
  }

  lemma InstallReceiver(site: Site, peer: Urn, session: SessionId, key: KeyId)
    requires Receiver(site) && Fits(site.mail, site.installed) && session !in site.installed && site.mail.engine.Some?
    ensures Receiver(Install(site, peer, session, key))
  {
    var next := Install(site, peer, session, key);
    forall s | s in next.commits ensures LogFits(next.mail, s, next.commits[s]) {
      if s != session {
        assert LogFits(site.mail, s, site.commits[s]);
        forall i | 0 <= i < |site.commits[s]| ensures LogEntry(next.mail, s, site.commits[s], i) {
          assert LogEntry(site.mail, s, site.commits[s], i);
        }
      }
    }
    forall p | p in next.mail.sessions ensures CounterFits(next.mail, next.commits, p) {
      if p != peer {
        assert CounterFits(site.mail, site.commits, p) && SessionFits(site.mail, site.installed, p);
      }
    }
    InboxStays(site.mail, next.mail, site.commits, next.commits);
  }

  lemma InboxStays(m: Mail, n: Mail, commits: map<SessionId, seq<Envelope>>, more: map<SessionId, seq<Envelope>>)
    requires InboxFits(m, commits) && n.inbox == m.inbox && n.skipped == m.skipped
    requires forall s :: s in commits ==> s in more && commits[s] <= more[s]
    ensures InboxFits(n, more)
  {
    forall id | id in n.inbox && n.inbox[id].Message?
      ensures InInbox(n, n.inbox[id].envelope) && Recorded(more, n.inbox[id].envelope)
    {
      assert InInbox(m, m.inbox[id].envelope) && Recorded(commits, m.inbox[id].envelope);
    }
    forall id | id in n.skipped ensures InSkipped(n, n.skipped[id].envelope) && Recorded(more, n.skipped[id].envelope) {
      assert InSkipped(m, m.skipped[id].envelope) && Recorded(commits, m.skipped[id].envelope);
    }
  }

  /** What a commit does: nothing, or exactly the next number of the session, stored under
      a new identifier. */
  predicate CommitsNext(m: Mail, n: Mail, e: Envelope) {
    && e.sender in m.sessions && m.sessions[e.sender].id == e.session
    && e.sequence == m.sessions[e.sender].receiveSequence + 1
    && n.sessions == m.sessions[e.sender := m.sessions[e.sender].(receiveSequence := e.sequence)]
    && e.id !in m.inbox
    && if e.body.Business? then n.inbox == m.inbox[e.id := Message(e.sender, e.body.text, e)] && n.skipped == m.skipped
       else && e.id.SkipOf? && e.id !in m.skipped && n.inbox == m.inbox
            && n.skipped == m.skipped[e.id := Tombstone(e.body.inReplyTo, e.body.original, e)]
  }

  lemma ReceiveCases(m: Mail, policy: Policy, e: Envelope)
    requires Receive(m, policy, e).Some?
    ensures var n := Receive(m, policy, e).value;
      if Consumed(m, n, e) then CommitsNext(m, n, e) && e.policy == policy.hash && e.recipient == m.self
      else n == m && (InInbox(m, e) || InSkipped(m, e))
  {
  }

  lemma CommitReceiver(site: Site, n: Mail, e: Envelope)
    requires Receiver(site) && SessionsFit(site.mail, site.installed) && CommitsNext(site.mail, n, e)
    ensures e.session in site.commits
    ensures Receiver(site.(mail := n, commits := site.commits[e.session := site.commits[e.session] + [e]]))
  {
    assert CounterFits(site.mail, site.commits, e.sender);
    var log := site.commits[e.session] + [e];
    var next := site.(mail := n, commits := site.commits[e.session := log]);
    forall s | s in next.commits ensures LogFits(n, s, next.commits[s]) {
      assert LogFits(site.mail, s, site.commits[s]);
      CommitLog(site.mail, n, e, s, site.commits[s]);
    }
    forall p | p in n.sessions ensures CounterFits(n, next.commits, p) {
      assert CounterFits(site.mail, site.commits, p);
    }
    CommitInbox(site.mail, n, e, site.commits, next.commits);
  }

  lemma CommitLog(m: Mail, n: Mail, e: Envelope, s: SessionId, log: seq<Envelope>)
    requires LogFits(m, s, log) && CommitsNext(m, n, e) && (s == e.session ==> |log| == e.sequence - 1)
    ensures LogFits(n, s, if s == e.session then log + [e] else log)
  {
    var more := if s == e.session then log + [e] else log;
    forall i | 0 <= i < |more| ensures LogEntry(n, s, more, i) {
      if i < |log| {
        assert LogEntry(m, s, log, i);
      }
    }
  }

  lemma CommitInbox(m: Mail, n: Mail, e: Envelope, commits: map<SessionId, seq<Envelope>>, more: map<SessionId, seq<Envelope>>)
    requires InboxFits(m, commits) && CommitsNext(m, n, e) && e.session in commits
    requires |commits[e.session]| == e.sequence - 1 && more == commits[e.session := commits[e.session] + [e]]
    ensures InboxFits(n, more)
  {
    forall id | id in n.inbox && n.inbox[id].Message?
      ensures n.inbox[id].envelope.id == id && InInbox(n, n.inbox[id].envelope) && Recorded(more, n.inbox[id].envelope)
    {
      assert id in m.inbox && m.inbox[id].Message? ==>
        InInbox(m, m.inbox[id].envelope) && Recorded(commits, m.inbox[id].envelope);
    }
    forall id | id in n.skipped
      ensures n.skipped[id].envelope.id == id && InSkipped(n, n.skipped[id].envelope) && Recorded(more, n.skipped[id].envelope)
    {
      assert id in m.skipped ==> InSkipped(m, m.skipped[id].envelope) && Recorded(commits, m.skipped[id].envelope);
    }
  }

  /** A plain message takes a free identifier and commits nothing. */
  lemma PlainReceiver(site: Site, id: MessageId, sender: Urn, text: nat)
    requires Receiver(site) && id !in site.mail.inbox
    ensures Receiver(site.(mail := ReceivePlain(site.mail, id, sender, text).value))
  {
    var n := ReceivePlain(site.mail, id, sender, text).value;
    forall s | s in site.commits ensures LogFits(n, s, site.commits[s]) {
      assert LogFits(site.mail, s, site.commits[s]);
      forall i | 0 <= i < |site.commits[s]| ensures LogEntry(n, s, site.commits[s], i) {
        assert LogEntry(site.mail, s, site.commits[s], i);
      }
    }
    forall p | p in n.sessions ensures CounterFits(n, site.commits, p) {
      assert CounterFits(site.mail, site.commits, p);
    }
    PlainInbox(site.mail, n, site.commits, id, sender, text);
  }

  lemma PlainInbox(m: Mail, n: Mail, commits: map<SessionId, seq<Envelope>>, id: MessageId, sender: Urn, text: nat)
    requires InboxFits(m, commits) && id !in m.inbox && n == m.(inbox := m.inbox[id := PlainMessage(sender, text)])
    ensures InboxFits(n, commits)
  {
    forall j | j in n.inbox && n.inbox[j].Message?
      ensures n.inbox[j].envelope.id == j && InInbox(n, n.inbox[j].envelope) && Recorded(commits, n.inbox[j].envelope)
    {
      assert InInbox(m, m.inbox[j].envelope);
    }
    forall j | j in n.skipped
      ensures n.skipped[j].envelope.id == j && InSkipped(n, n.skipped[j].envelope) && Recorded(commits, n.skipped[j].envelope)
    {
      assert InSkipped(m, m.skipped[j].envelope);
    }
  }

  // ---- The system invariant ----

  predicate Holds(m: Mail, e: Envelope) {
    e.id in m.outbox && m.outbox[e.id].envelope == Some(e)
  }

  predicate InLog(site: Site, e: Envelope) {
    exists s, i :: s in site.commits && 0 <= i < |site.commits[s]| && site.commits[s][i] == e
  }

  /** What a site committed from the other party is the other party's stored envelope. */
  ghost predicate Backed(site: Site, other: Site) {
    forall e :: InLog(site, e) && e.sender == other.mail.self ==> Holds(other.mail, e)
  }

  ghost predicate SiteFits(site: Site) {
    Fits(site.mail, site.installed) && Receiver(site)
  }

  ghost predicate SystemFits(s: System) {
    && s.first.mail.self != s.second.mail.self
    && SiteFits(s.first) && SiteFits(s.second)
    && (forall e :: e in s.net ==> Holds(s.first.mail, e) || Holds(s.second.mail, e))
    && Backed(s.first, s.second) && Backed(s.second, s.first)
  }

  /** Nothing is undone at a site: rows, epochs and commits are kept. */
  ghost predicate Grows(site: Site, next: Site) {
    && Kept(site.mail, next.mail) && site.installed <= next.installed
    && forall s :: s in site.commits ==> s in next.commits && site.commits[s] <= next.commits[s]
  }

  lemma GrowsTrans(a: Site, b: Site, c: Site)
    requires Grows(a, b) && Grows(b, c)
    ensures Grows(a, c)
  {
    KeptTrans(a.mail, b.mail, c.mail);
  }

  lemma HoldsKept(m: Mail, n: Mail, e: Envelope)
    requires Kept(m, n) && Holds(m, e)
    ensures Holds(n, e)
  {
    assert RowKept(m.outbox[e.id], n.outbox[e.id]);
  }

  ghost predicate Moves(s: System, t: System) {
    SystemFits(t) && Grows(s.first, t.first) && Grows(s.second, t.second)
  }

  lemma StayMoves(s: System)
    requires SystemFits(s)
    ensures Moves(s, s)
  {
    StayKept(s.first.mail);
    StayKept(s.second.mail);
  }

  /** One site moves, commits at most `extra`, and hands over at most what it holds. */
  lemma PutMoves(s: System, side: Side, next: Site, net: set<Envelope>, extra: set<Envelope>)
    requires SystemFits(s) && SiteFits(next) && Grows(At(s, side), next)
    requires forall e :: InLog(next, e) ==> InLog(At(s, side), e) || e in extra
    requires forall e :: e in extra && e.sender == At(s, Other(side)).mail.self ==> Holds(At(s, Other(side)).mail, e)
    requires forall e :: e in net ==> e in s.net || Holds(next.mail, e)
    ensures Moves(s, Put(s, side, next).(net := net))
  {
    var t := Put(s, side, next).(net := net);
    var site, other := At(s, side), At(s, Other(side));
    StayKept(other.mail);
    forall e | e in t.net ensures Holds(next.mail, e) || Holds(other.mail, e) {
      if e in s.net && Holds(site.mail, e) {
        HoldsKept(site.mail, next.mail, e);
      }
    }
    assert Backed(next, other);
    forall e | InLog(other, e) && e.sender == next.mail.self ensures Holds(next.mail, e) {
      HoldsKept(site.mail, next.mail, e);
    }
    assert Backed(other, next);
  }

  lemma QuietMoves(s: System, side: Side, n: Mail)
    requires SystemFits(s) && Fits(n, At(s, side).installed) && Kept(At(s, side).mail, n)
    requires Unreceived(At(s, side).mail, n)
    ensures Moves(s, Put(s, side, At(s, side).(mail := n)))
  {
    var next := At(s, side).(mail := n);
    NoCommit(At(s, side), n);
    SameLog(At(s, side), next);
    PutMoves(s, side, next, s.net, {});
    assert Put(s, side, next).(net := s.net) == Put(s, side, next);
  }

  lemma SameLog(site: Site, next: Site)
    requires next.commits == site.commits
    ensures forall e :: InLog(next, e) <==> InLog(site, e)
  {
    forall e ensures InLog(next, e) <==> InLog(site, e) {
    }
  }

  lemma MoreLog(site: Site, next: Site, session: SessionId, log: seq<Envelope>)
    requires next.commits == site.commits[session := log]
    requires forall e :: e in log ==> InLog(site, e) || e == log[|log|-1]
    ensures forall e :: InLog(next, e) ==> InLog(site, e) || (log != [] && e == log[|log|-1])
  {
    forall e | InLog(next, e) ensures InLog(site, e) || (log != [] && e == log[|log|-1]) {
      var s, i :| s in next.commits && 0 <= i < |next.commits[s]| && next.commits[s][i] == e;
      if s == session {
        assert e in log;
      } else {
        assert s in site.commits && site.commits[s][i] == e;
      }
    }
  }

  lemma CommitMoves(s: System, side: Side, e: Envelope)
    requires SystemFits(s) && At(s, side).mail.engine.Some? && MayArrive(s, e)
    ensures Moves(s, Put(s, side, Commit(At(s, side), At(s, side).mail.engine.value, e)))
  {
    var site := At(s, side);
    var policy := site.mail.engine.value;
    var r := Receive(site.mail, policy, e);
    if r.None? {
      StayMoves(s);
      assert Put(s, side, site) == s;
    } else {
      ReceiveCases(site.mail, policy, e);
      ReceiveKeeps(site.mail, site.installed, policy, e);
      if Consumed(site.mail, r.value, e) {
        CommitReceiver(site, r.value, e);
        Committed(s, side, r.value, e);
      } else {
        StayMoves(s);
        assert Put(s, side, site) == s;
      }
    }
  }

  /** Only the other party can have signed what arrives in its name. */
  lemma ArrivedHeld(s: System, side: Side, e: Envelope)
    requires SystemFits(s) && MayArrive(s, e) && e.sender == At(s, Other(side)).mail.self
    ensures Holds(At(s, Other(side)).mail, e)
  {
    if Holds(At(s, side).mail, e) {
      HeldSender(At(s, side), e);
    }
  }

  lemma HeldSender(site: Site, e: Envelope)
    requires Fits(site.mail, site.installed) && Holds(site.mail, e)
    ensures e.sender == site.mail.self
  {
    assert RowFits(site.mail, site.installed, e.id);
  }

  lemma Committed(s: System, side: Side, n: Mail, e: Envelope)
    requires SystemFits(s) && MayArrive(s, e) && e.session in At(s, side).commits
    requires var site := At(s, side);
      && Fits(n, site.installed) && Kept(site.mail, n)
      && Receiver(site.(mail := n, commits := site.commits[e.session := site.commits[e.session] + [e]]))
    ensures var site := At(s, side);
      Moves(s, Put(s, side, site.(mail := n, commits := site.commits[e.session := site.commits[e.session] + [e]])))
  {
    var site := At(s, side);
    var log := site.commits[e.session] + [e];
    var next := site.(mail := n, commits := site.commits[e.session := log]);
    forall f | f in log ensures InLog(site, f) || f == log[|log|-1] {
      var i :| 0 <= i < |log| && log[i] == f;
      assert i < |site.commits[e.session]| ==> site.commits[e.session][i] == f;
    }
    MoreLog(site, next, e.session, log);
    if e.sender == At(s, Other(side)).mail.self {
      ArrivedHeld(s, side, e);
    }
    PutMoves(s, side, next, s.net, {e});
    assert Put(s, side, next).(net := s.net) == Put(s, side, next);
  }

  lemma InstallMoves(s: System, side: Side, peer: Urn, session: SessionId, key: KeyId)
    requires SystemFits(s) && session !in At(s, side).installed && At(s, side).mail.engine.Some?
    ensures Moves(s, Put(s, side, Install(At(s, side), peer, session, key)))
  {
    var site := At(s, side);
    var next := Install(site, peer, session, key);
    SaveSessionKeeps(site.mail, site.installed, peer, Session(session, true, site.mail.engine.value.hash, key, 0, 0));
    InstallReceiver(site, peer, session, key);
    MoreLog(site, next, session, []);
    PutMoves(s, side, next, s.net, {});
    assert Put(s, side, next).(net := s.net) == Put(s, side, next);
  }

  /** Nothing is committed, and no session is added or moved. */
  ghost predicate Unreceived(m: Mail, n: Mail) {
    && n.inbox == m.inbox && n.skipped == m.skipped
    && forall p :: p in n.sessions ==> p in m.sessions && n.sessions[p].id == m.sessions[p].id
                                       && n.sessions[p].receiveSequence == m.sessions[p].receiveSequence
  }

  lemma PreparedFrame(m: Mail, n: Mail, id: MessageId, policy: Policy)
    requires id in m.outbox && Prepared(m, n, id, policy)
    ensures Unreceived(m, n)
  {
  }

  /** Only rows change. */
  predicate OnlyRows(m: Mail, n: Mail) {
    n == m.(outbox := n.outbox)
  }

  lemma HandOverFrame(m: Mail, id: MessageId, e: Envelope, attempts: nat, o: Outside)
    ensures OnlyRows(m, HandOver(m, id, e, attempts, o).mail)
  {
    UpdateFrame(m, id, Quarantined, OtherText, attempts, false, o.next);
    match o.reply
    case Receipted => UpdateFrame(m, id, PlatformQueued, NoError, attempts + 1, true, o.next);
    case Refused(exact) =>
      UpdateFrame(m, id, Conflict, if exact then ConflictText else OtherText, attempts + 1, false, o.next);
    case Lost(_) => UpdateFrame(m, id, Accepted, OtherText, attempts + 1, false, o.next);
    case Crashed(_) =>
  }

  lemma UpdateFrame(m: Mail, id: MessageId, status: Status, error: ErrorText, attempts: nat, receipt: bool, next: Instant)
    ensures OnlyRows(m, Update(m, id, status, error, attempts, receipt, next))
  {
  }

  lemma EndsFrame(m: Mail, n: Mail, id: MessageId, policy: Policy, o: Outside, sent: Sent)
    requires id in m.outbox && Ends(m, n, id, policy, o, sent)
    ensures OnlyRows(n, sent.mail)
  {
    if id in n.outbox && n.outbox[id].envelope.Some? {
      HandOverFrame(n, id, n.outbox[id].envelope.value, m.outbox[id].attempts, o);
    }
  }

  /** Handing a row over commits nothing. */
  lemma DeliverFrame(m: Mail, installed: set<SessionId>, id: MessageId, policy: Policy, o: Outside, now: Instant)
    requires RowsFit(m, installed) && id in m.outbox && m.outbox[id].status.Accepted?
    ensures Unreceived(m, Deliver(m, id, policy, o, now).mail)
  {
    assert RowFits(m, installed, id);
    var n := DeliverCases(m, id, policy, o, now);
    PreparedFrame(m, n, id, policy);
    EndsFrame(m, n, id, policy, o, Deliver(m, id, policy, o, now));
  }

  /** The site after a row was handled, and what it handed over. */
  ghost predicate SentFits(site: Site, id: MessageId, policy: Policy, sent: Sent) {
    && Fits(sent.mail, site.installed) && Kept(site.mail, sent.mail) && Unreceived(site.mail, sent.mail)
    && (sent.handed.Some? ==> HandedOver(sent.mail, id, policy, sent.handed.value))
  }

  lemma DeliverSite(site: Site, id: MessageId, policy: Policy, outside: Outside, now: Instant)
    requires Fits(site.mail, site.installed) && id in site.mail.outbox && site.mail.outbox[id].status.Accepted?
    ensures SentFits(site, id, policy, Deliver(site.mail, id, policy, outside, now))
  {
    DeliverKeeps(site.mail, site.installed, id, policy, outside, now);
    DeliverFrame(site.mail, site.installed, id, policy, outside, now);
  }

  lemma SentMoves(s: System, side: Side, id: MessageId, policy: Policy, sent: Sent, reply: Reply)
    requires SystemFits(s) && SentFits(At(s, side), id, policy, sent)
    ensures Moves(s, SendTo(s, side, sent, reply))
  {
    var site := At(s, side);
    var next := site.(mail := sent.mail);
    NoCommit(site, sent.mail);
    SameLog(site, next);
    if sent.handed.Some? {
      assert RowFits(next.mail, next.installed, id);
    }
    PutMoves(s, side, next, s.net + if sent.handed.Some? && Stored(reply) then {sent.handed.value} else {}, {});
  }

  lemma AcceptSteps(m: Mail, installed: set<SessionId>, id: MessageId, request: Request, now: Instant)
    requires Fits(m, installed) && Accept(m, id, request, now).Some?
    ensures var n := Accept(m, id, request, now).value; Fits(n, installed) && Kept(m, n) && Unreceived(m, n)
  {
    AcceptKeeps(m, installed, id, request, now);
  }

  lemma RefreshSteps(m: Mail, installed: set<SessionId>, policy: Policy)
    requires Fits(m, installed) && RefreshPolicy(m, policy).Some?
    ensures var n := RefreshPolicy(m, policy).value; Fits(n, installed) && Kept(m, n) && Unreceived(m, n)
  {
    RefreshKeeps(m, installed, policy);
  }

  lemma RepairSteps(m: Mail, installed: set<SessionId>, id: MessageId, e: Envelope)
    requires Fits(m, installed) && SaveSkip(m, id, e).Some?
    ensures var n := SaveSkip(m, id, e).value; Fits(n, installed) && Kept(m, n) && Unreceived(m, n)
  {
    SaveSkipKeeps(m, installed, id, e);
    SaveSkipCases(m, id, e);
  }

  lemma RepairMoves(s: System, side: Side, id: MessageId, e: Envelope)
    requires SystemFits(s)
    ensures Moves(s, Put(s, side, OrSame(At(s, side), SaveSkip(At(s, side).mail, id, e))))
  {
    StayMoves(s);
    if SaveSkip(At(s, side).mail, id, e).Some? {
      RepairSteps(At(s, side).mail, At(s, side).installed, id, e);
      QuietMoves(s, side, SaveSkip(At(s, side).mail, id, e).value);
    } else {
      assert Put(s, side, At(s, side)) == s;
    }
  }

  lemma RestartMoves(s: System, side: Side)
    requires SystemFits(s)
    ensures Moves(s, Put(s, side, At(s, side).(mail := At(s, side).mail.(engine := None))))
  {
    RestartKeeps(At(s, side).mail, At(s, side).installed);
    QuietMoves(s, side, At(s, side).mail.(engine := None));
  }

  lemma DropMoves(s: System, side: Side, peer: Urn)
    requires SystemFits(s)
    ensures Moves(s, Put(s, side, At(s, side).(mail := DeleteSession(At(s, side).mail, peer))))
  {
    DeleteSessionKeeps(At(s, side).mail, At(s, side).installed, peer);
    QuietMoves(s, side, DeleteSession(At(s, side).mail, peer));
  }

  lemma RetireMoves(s: System, side: Side)
    requires SystemFits(s)
    ensures Moves(s, Put(s, side, At(s, side).(mail := Retire(At(s, side).mail))))
  {
    RetireKeeps(At(s, side).mail, At(s, side).installed);
    QuietMoves(s, side, Retire(At(s, side).mail));
  }

  lemma PlainMoves(s: System, side: Side, id: MessageId, sender: Urn, text: nat)
    requires SystemFits(s) && id !in At(s, side).mail.inbox
    ensures Moves(s, Put(s, side, At(s, side).(mail := ReceivePlain(At(s, side).mail, id, sender, text).value)))
  {
    var site := At(s, side);
    var next := site.(mail := ReceivePlain(site.mail, id, sender, text).value);
    FrameKeeps(site.mail, next.mail, site.installed);
    PlainReceiver(site, id, sender, text);
    SameLog(site, next);
    PutMoves(s, side, next, s.net, {});
    assert Put(s, side, next).(net := s.net) == Put(s, side, next);
  }

  lemma AcceptMoves(s: System, side: Side, id: MessageId, request: Request, now: Instant)
    requires SystemFits(s)
    ensures Moves(s, Put(s, side, OrSame(At(s, side), Accept(At(s, side).mail, id, request, now))))
  {
    var m := At(s, side).mail;
    if Accept(m, id, request, now).Some? {
      AcceptSteps(m, At(s, side).installed, id, request, now);
      QuietMoves(s, side, Accept(m, id, request, now).value);
    } else {
      StayMoves(s);
      assert Put(s, side, At(s, side)) == s;
    }
  }

  lemma RefreshMoves(s: System, side: Side, policy: Policy)
    requires SystemFits(s)
    ensures Moves(s, Put(s, side, OrSame(At(s, side), RefreshPolicy(At(s, side).mail, policy))))
  {
    var m := At(s, side).mail;
    if RefreshPolicy(m, policy).Some? {
      RefreshSteps(m, At(s, side).installed, policy);
      QuietMoves(s, side, RefreshPolicy(m, policy).value);
    } else {
      StayMoves(s);
      assert Put(s, side, At(s, side)) == s;
    }
  }

  lemma DeliverMoves(s: System, side: Side, id: MessageId, outside: Outside, now: Instant)
    requires SystemFits(s) && At(s, side).mail.engine.Some? && IsNext(At(s, side).mail, id, now)
    ensures var m := At(s, side).mail;
      Moves(s, SendTo(s, side, Deliver(m, id, m.engine.value, outside, now), outside.reply))
  {
    var m := At(s, side).mail;
    DeliverSite(At(s, side), id, m.engine.value, outside, now);
    SentMoves(s, side, id, m.engine.value, Deliver(m, id, m.engine.value, outside, now), outside.reply);
  }

  /** The steps that need no worker. */
  lemma OwnMoves(s: System, a: Action)
    requires SystemFits(s) && !a.Installs? && !a.Delivers? && !a.Repairs? && !a.Receives?
    ensures Moves(s, Act(s, a))
  {
    match a
    case Accepts(side, id, request, now) => AcceptMoves(s, side, id, request, now);
    case Refreshes(side, policy) => RefreshMoves(s, side, policy);
    case Restarts(side) => RestartMoves(s, side);
    case Drops(side, peer) => DropMoves(s, side, peer);
    case Retires(side) => RetireMoves(s, side);
    case StoresPlain(side, id, sender, text) =>
      if id !in At(s, side).mail.inbox {
        PlainMoves(s, side, id, sender, text);
      } else {
        StayMoves(s);
        assert Put(s, side, At(s, side)) == s;
      }
  }

  /** The steps that need a worker with its policy. */
  lemma WorkerMoves(s: System, a: Action)
    requires SystemFits(s) && At(s, a.side).mail.engine.Some? && Act(s, a) != s
    requires a.Installs? || a.Delivers? || a.Repairs? || a.Receives?
    ensures Moves(s, Act(s, a))
  {
    match a
    case Installs(side, peer, session, key) => InstallMoves(s, side, peer, session, key);
    case Delivers(side, id, outside, now) => DeliverMoves(s, side, id, outside, now);
    case Repairs(side, id, keys) => RepairMoves(s, side, id, At(s, side).mail.outbox[id].envelope.value);
    case Receives(side, e) => CommitMoves(s, side, e);
  }

  lemma ActMoves(s: System, a: Action)
    requires SystemFits(s)
    ensures Moves(s, Act(s, a))
  {
    if Act(s, a) == s {
      StayMoves(s);
    } else if a.Installs? || a.Delivers? || a.Repairs? || a.Receives? {
      WorkerMoves(s, a);
    } else {
      OwnMoves(s, a);
    }
  }

  lemma {:induction false} RunMoves(s: System, actions: seq<Action>)
    requires SystemFits(s)
    ensures Moves(s, Run(s, actions))
    decreases |actions|
  {
    if actions == [] {
      StayMoves(s);
    } else {
      var before := Run(s, actions[..|actions|-1]);
      RunMoves(s, actions[..|actions|-1]);
      ActMoves(before, actions[|actions|-1]);
      GrowsTrans(s.first, before.first, Run(s, actions).first);
      GrowsTrans(s.second, before.second, Run(s, actions).second);
    }
  }

  lemma StartFits(first: Urn, second: Urn)
    requires first != second
    ensures SystemFits(Start(first, second))
  {
  }

  lemma {:induction false} RunSplits(s: System, xs: seq<Action>, ys: seq<Action>)
    ensures Run(s, xs + ys) == Run(Run(s, xs), ys)
    decreases |ys|
  {
    if ys == [] {
      assert xs + ys == xs;
    } else {
      assert (xs + ys)[..|xs + ys|-1] == xs + ys[..|ys|-1];
      RunSplits(s, xs, ys[..|ys|-1]);
    }
  }

  // ---- Delivery ----

  /** The `i`-th commit of session `session` is number `i + 1`: the sender's stored
      envelope, either the one ordinary message of that number or a repair for it. */
  ghost predicate CommitOf(receiver: Site, sender: Site, session: SessionId, i: nat)
    requires session in receiver.commits && i < |receiver.commits[session]|
  {
    var e := receiver.commits[session][i];
    && e.session == session && e.sequence == i + 1
    && Holds(sender.mail, e)
    && Ordinary(sender.mail, RootOf(e.id), session, i + 1)
    && (e.id.UserMessage? ==> InInbox(receiver.mail, e) && e.body == Business(sender.mail.outbox[e.id].request.text))
    && (e.id.SkipOf? ==> InSkipped(receiver.mail, e) && Refuses(sender.mail, e.id.original.id, e.id.original))
  }

  lemma CommitIs(s: System, side: Side, session: SessionId, i: nat)
    requires SystemFits(s)
    requires session in At(s, side).commits && i < |At(s, side).commits[session]|
    requires At(s, side).commits[session][i].sender == At(s, Other(side)).mail.self
    ensures CommitOf(At(s, side), At(s, Other(side)), session, i)
  {
    var site, other := At(s, side), At(s, Other(side));
    var e := site.commits[session][i];
    assert LogFits(site.mail, session, site.commits[session]);
    assert LogEntry(site.mail, session, site.commits[session], i);
    assert InLog(site, e);
    assert RowFits(other.mail, other.installed, e.id);
    RootRow(other.mail, other.installed, e.id);
    if e.id.SkipOf? {
      Parent(other.mail, other.installed, e.id);
    }
  }

  /** In-order, exactly-once delivery: in every run, whatever the relay does, the `i`-th
      commit that a site made in a session is number `i`, and is the other party's
      envelope of that number or its repair. */
  lemma InOrderDelivery(first: Urn, second: Urn, actions: seq<Action>, side: Side, session: SessionId, i: nat)
    requires first != second
    requires var site := At(Run(Start(first, second), actions), side);
      session in site.commits && i < |site.commits[session]|
    requires var s := Run(Start(first, second), actions);
      At(s, side).commits[session][i].sender == At(s, Other(side)).mail.self
    ensures var s := Run(Start(first, second), actions);
      CommitOf(At(s, side), At(s, Other(side)), session, i)
  {
    StartFits(first, second);
    RunMoves(Start(first, second), actions);
    CommitIs(Run(Start(first, second), actions), side, session, i);
  }

  /** A site stores at most one of a message and a skip for each number of a session. */
  lemma NeverBoth(site: Site, message: MessageId, skip: MessageId)
    requires SiteFits(site) && message in site.mail.inbox && skip in site.mail.skipped
    requires site.mail.inbox[message].Message?
    ensures var e, f := site.mail.inbox[message].envelope, site.mail.skipped[skip].envelope;
      e.session != f.session || e.sequence != f.sequence
  {
    var e, f := site.mail.inbox[message].envelope, site.mail.skipped[skip].envelope;
    assert Recorded(site.commits, e) && Recorded(site.commits, f);
    assert InInbox(site.mail, e) && InSkipped(site.mail, f);
  }

  /** What was committed once is, when it arrives again, refused or acknowledged without
      any change. */
  lemma DuplicateChangesNothing(site: Site, policy: Policy, e: Envelope)
    requires SiteFits(site) && InLog(site, e)
    ensures Receive(site.mail, policy, e).None? || Receive(site.mail, policy, e) == Some(site.mail)
    ensures Commit(site, policy, e) == site
  {
    var s, i :| s in site.commits && 0 <= i < |site.commits[s]| && site.commits[s][i] == e;
    assert LogFits(site.mail, s, site.commits[s]);
    assert LogEntry(site.mail, s, site.commits[s], i);
  }

  /** The receiver never runs ahead: while both ends hold the session, its receive counter
      is at most the sender's send counter; in any case every number it committed is one
      that the sender used. */
  lemma ReceiverBehind(s: System, side: Side, peer: Urn, i: nat)
    requires SystemFits(s) && peer in At(s, side).mail.sessions && peer == At(s, Other(side)).mail.self
    requires 1 <= i <= At(s, side).mail.sessions[peer].receiveSequence
    ensures var site, other := At(s, side), At(s, Other(side));
      && Used(other.mail, site.mail.sessions[peer].id, i)
      && (site.mail.self in other.mail.sessions && other.mail.sessions[site.mail.self].id == site.mail.sessions[peer].id
          ==> site.mail.sessions[peer].receiveSequence <= other.mail.sessions[site.mail.self].sendSequence)
  {
    var site, other := At(s, side), At(s, Other(side));
    var session := site.mail.sessions[peer].id;
    assert CounterFits(site.mail, site.commits, peer);
    CommitIs(s, side, session, i - 1);
    CommitIs(s, side, session, |site.commits[session]| - 1);
    if site.mail.self in other.mail.sessions && other.mail.sessions[site.mail.self].id == session {
      assert SessionFits(other.mail, other.installed, site.mail.self);
    }
  }

  // ---- Progress of one session ----

  /** The identifier of `e` holds a row that is not `e` itself: in the inbox another
      message, or for a repair any message, or another tombstone. */
  predicate Occupied(m: Mail, e: Envelope) {
    match e.body
    case Business(text) => e.id in m.inbox && m.inbox[e.id] != Message(e.sender, text, e)
    case SkipControl(inReplyTo, original) =>
      e.id in m.inbox || (e.id in m.skipped && m.skipped[e.id] != Tombstone(inReplyTo, original, e))
  }

  /** A row that was not committed from `sender`: a plain message, whoever sent it, or a
      commit from another sender. */
  predicate Foreign(row: Message, sender: Urn) {
    row.PlainMessage? || row.envelope.sender != sender
  }

  /** An entry of the same sender under the same identifier is the very envelope. */
  lemma SameEntry(s: System, side: Side, e: Envelope, f: Envelope)
    requires SystemFits(s) && Holds(At(s, Other(side)).mail, e) && e.sender == At(s, Other(side)).mail.self
    requires Recorded(At(s, side).commits, f) && f.id == e.id && f.sender == e.sender
    ensures f == e
  {
    var site := At(s, side);
    assert site.commits[f.session][f.sequence - 1] == f;
    assert InLog(site, f);
  }

  /** An envelope of the next number is stored under no identifier of its own sender: what
      occupies its identifier is a plain message or comes from another sender. */
  lemma NextIsNew(s: System, side: Side, e: Envelope)
    requires SystemFits(s) && e.sender in At(s, side).mail.sessions
    requires Holds(At(s, Other(side)).mail, e) && e.sender == At(s, Other(side)).mail.self
    requires At(s, side).mail.sessions[e.sender].id == e.session
    requires e.sequence == At(s, side).mail.sessions[e.sender].receiveSequence + 1
    ensures var m := At(s, side).mail;
      && (e.id in m.inbox ==> Foreign(m.inbox[e.id], e.sender))
      && (e.id in m.skipped ==> m.skipped[e.id].envelope.sender != e.sender)
  {
    var site := At(s, side);
    assert CounterFits(site.mail, site.commits, e.sender);
    if e.id in site.mail.inbox && !Foreign(site.mail.inbox[e.id], e.sender) {
      SameEntry(s, side, e, site.mail.inbox[e.id].envelope);
    }
    if e.id in site.mail.skipped && site.mail.skipped[e.id].envelope.sender == e.sender {
      SameEntry(s, side, e, site.mail.skipped[e.id].envelope);
    }
  }

  lemma CommitNext(site: Site, policy: Policy, e: Envelope)
    requires Acceptable(site.mail, policy, e) && e.sequence == site.mail.sessions[e.sender].receiveSequence + 1
    requires e.sequence <= MAX_SEQUENCE && e.session in site.commits && (e.body.SkipControl? <==> e.id.SkipOf?)
    requires e.id in site.mail.inbox ==> Foreign(site.mail.inbox[e.id], e.sender)
    requires e.id in site.mail.skipped ==> site.mail.skipped[e.id].envelope.sender != e.sender
    ensures var next := Commit(site, policy, e);
      if Occupied(site.mail, e) then next == site
      else e.session in next.commits && next.commits[e.session] == site.commits[e.session] + [e]
  {
  }

  /** The next number of a live session is committed when it arrives and its checks pass,
      unless its identifier is occupied; only then is it refused. What occupies it is a
      plain message, of the same sender or another, or a commit from another sender. */
  lemma NextIsCommitted(s: System, side: Side, e: Envelope)
    requires SystemFits(s) && At(s, side).mail.engine.Some? && Acceptable(At(s, side).mail, At(s, side).mail.engine.value, e)
    requires Holds(At(s, Other(side)).mail, e) && e.sender == At(s, Other(side)).mail.self
    requires e.sequence == At(s, side).mail.sessions[e.sender].receiveSequence + 1 && e.sequence <= MAX_SEQUENCE
    ensures var site := At(s, side);
      var next := Commit(site, site.mail.engine.value, e);
      && e.session in site.commits
      && if Occupied(site.mail, e) then next == site
         else e.session in next.commits && next.commits[e.session] == site.commits[e.session] + [e]
    ensures var m := At(s, side).mail;
      Occupied(m, e) <==> (e.id in m.inbox && Foreign(m.inbox[e.id], e.sender))
                          || (e.id in m.skipped && m.skipped[e.id].envelope.sender != e.sender)
  {
    var site, other := At(s, side), At(s, Other(side));
    assert RowFits(other.mail, other.installed, e.id);
    assert CounterFits(site.mail, site.commits, e.sender);
    NextIsNew(s, side, e);
    TablesFit(site, e);
    CommitNext(site, site.mail.engine.value, e);
  }

  /** Tombstones are kept under identifiers of repairs only. */
  lemma TablesFit(site: Site, e: Envelope)
    requires InboxFits(site.mail, site.commits)
    ensures e.id in site.mail.skipped ==> e.id.SkipOf?
  {
    assert e.id in site.mail.skipped ==> InSkipped(site.mail, site.mail.skipped[e.id].envelope);
  }

  // ---- Repairs ----

  /** Whenever the repair step accepts a candidate, it stores the one repair for it, ahead
      of every other pending row; only the limit on numbers can prevent it. */
  lemma RepairStored(m: Mail, installed: set<SessionId>, id: MessageId, policy: Policy, keys: map<Urn, KeyId>)
    requires Fits(m, installed) && Schedulable(m, id, policy, keys)
    ensures var e := EnvelopeOf(m, id);
      if e.sequence > MAX_SEQUENCE then SaveSkip(m, id, e).None?
      else && SaveSkip(m, id, e).Some?
           && var n := SaveSkip(m, id, e).value;
              && SkipOf(e) !in m.outbox && SkipOf(e) in n.outbox && n.outbox[SkipOf(e)].envelope == Some(SkipEnvelope(e))
              && SameSlot(n, id, SkipOf(e)) && Depth(SkipOf(e)) == Depth(id) + 1
              && (forall now :: now >= 0 ==> Ready(n, SkipOf(e), now))
              && !Schedulable(n, id, policy, keys)
  {
    var e := EnvelopeOf(m, id);
    assert RepairsFit(m) && SkipOf(e) in m.outbox ==> RepairFits(m, SkipOf(e));
  }
}
