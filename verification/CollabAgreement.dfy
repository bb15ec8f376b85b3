/** Two honest endpoints over an authenticated network that loses, reorders and
    duplicates packets: in every run their records of an agreement coincide. */
module CollabAgreement {
  import opened Basics
  import opened CollabTypes
  import opened CollabInbox
  import opened CollabOutbox
  import opened CollabInvariant
  import opened CollabSteps

  /** The two parties and their collaboration; `first` is the coordinator. */
  datatype Pair = Pair(collab: nat, first: Urn, second: Urn)

  datatype Site = Unbound | Bound(e: Endpoint)

  /** `net` holds every packet ever handed over. Delivery picks from it any number of
      times in any order, so it covers loss, reordering and duplication. */
  datatype System = System(first: Site, second: Site, net: set<Packet>)

  datatype Side = First | Second

  datatype Action =
    | OpenFirst(tag: nat, task: Task, now: Instant)
    | OpenSecond(tag: nat, task: Task, invitation: Packet, now: Instant)
    | Prepares(side: Side, tag: nat, kind: Kind, request: Request, verdict: Verdict, now: Instant)
    | Confirms(side: Side, id: OpId, approve: bool, now: Instant)
    | ReservesPacket(side: Side, id: OpId, verdict: Verdict, connected: bool, now: Instant)
    | Submits(side: Side, id: OpId, stored: bool, connected: bool, now: Instant)
    | Delivers(side: Side, packet: Packet, now: Instant)
    | Reviews(side: Side, packet: Packet, decision: Review, now: Instant)
    | Revokes(side: Side)
    | Blocks(side: Side, blocked: bool)
    | ChangesTask(side: Side, task: Task)

  function At(s: System, side: Side): Site {
    if side.First? then s.first else s.second
  }

  function Put(s: System, side: Side, e: Endpoint): System {
    if side.First? then s.(first := Bound(e)) else s.(second := Bound(e))
  }

  function Other(side: Side): Side {
    if side.First? then Second else First
  }

  function UrnOf(pair: Pair, side: Side): Urn {
    if side.First? then pair.first else pair.second
  }

  function TryPut(s: System, side: Side, e: Option<Endpoint>): System {
    if e.Some? then Put(s, side, e.value) else s
  }

  /** One atomic action; an action that the source refuses changes nothing. */
  ghost function Act(pair: Pair, s: System, a: Action): System {
    match a
    case OpenFirst(tag, task, now) =>
      if s.first.Bound? then s else TryPut(s, First, Open(pair.first, task, pair.collab, tag, pair.second, None, now))
    case OpenSecond(tag, task, invitation, now) =>
      if s.second.Bound? || invitation !in s.net then s
      else TryPut(s, Second, Open(pair.second, task, pair.collab, tag, pair.first, Some(invitation), now))
    case _ =>
      if At(s, a.side).Unbound? then s
      else ActBound(s, a, At(s, a.side).e)
  }

  ghost function ActBound(s: System, a: Action, e: Endpoint): System
    requires !a.OpenFirst? && !a.OpenSecond?
  {
    if a.Submits? then
      var r := Submit(e, a.id, a.stored, a.connected, a.now);
      if r.None? || a.id !in e.ops || e.ops[a.id].packet.None? then s
      else Put(s, a.side, r.value).(net := s.net + {e.ops[a.id].packet.value})
    else if a.Delivers? then
      if a.packet in s.net then TryPut(s, a.side, IngestRecord(e, a.packet, a.now)) else s
    else TryPut(s, a.side, OwnAction(a, e))
  }

  /** An action of one endpoint that neither sends nor takes in a packet. */
  ghost function OwnAction(a: Action, e: Endpoint): Option<Endpoint>
    requires !a.OpenFirst? && !a.OpenSecond? && !a.Submits? && !a.Delivers?
  {
    match a
    case Prepares(_, tag, kind, request, verdict, now) => Prepare(e, tag, kind, request, verdict, now)
    case Confirms(_, id, approve, now) => Confirm(e, id, approve, now)
    case ReservesPacket(_, id, verdict, connected, now) => Reserve(e, id, verdict, connected, now)
    case Reviews(_, packet, decision, now) => DecideReview(e, packet, decision, now)
    case Revokes(_) => Some(Revoke(e))
    case Blocks(_, blocked) => Some(e.(blocked := blocked))
    case ChangesTask(_, task) => Some(e.(task := task))
  }

  ghost function Run(pair: Pair, s: System, actions: seq<Action>): System
    decreases |actions|
  {
    if actions == [] then s else Act(pair, Run(pair, s, actions[..|actions|-1]), actions[|actions|-1])
  }

  const START := System(Unbound, Unbound, {})

  // ---- The system invariant ----

  ghost predicate SiteFits(pair: Pair, side: Side, site: Site) {
    site.Bound? ==>
      && Valid(site.e)
      && site.e.core.c.id == pair.collab && site.e.core.c.initiator == pair.first
      && site.e.core.c.local == UrnOf(pair, side) && site.e.core.c.peer == UrnOf(pair, Other(side))
  }

  /** `p` is an event that this site itself has applied and handed over. */
  predicate SentBy(site: Site, p: Packet) {
    && site.Bound? && AppliedAt(site.e.core.events, KeyOf(p))
    && site.e.core.events[KeyOf(p)].packet == p && site.e.core.events[KeyOf(p)].outgoing
  }

  predicate SentSomewhere(s: System, p: Packet) {
    SentBy(s.first, p) || SentBy(s.second, p)
  }

  /** Every incoming event of `site` was really applied and sent by the other site. */
  ghost predicate Authentic(site: Site, other: Site) {
    site.Bound? ==> forall k :: k in site.e.core.events && !site.e.core.events[k].outgoing
                                ==> SentBy(other, site.e.core.events[k].packet)
  }

  ghost predicate SystemFits(pair: Pair, s: System) {
    && SiteFits(pair, First, s.first) && SiteFits(pair, Second, s.second)
    && (forall p :: p in s.net ==> SentSomewhere(s, p))
    && Authentic(s.first, s.second) && Authentic(s.second, s.first)
  }

  ghost predicate SiteExtends(site: Site, next: Site) {
    site.Bound? ==> next.Bound? && Extends(site.e.core, next.e.core)
  }

  // ---- Preservation ----

  lemma SentKept(site: Site, next: Site, p: Packet)
    requires SiteExtends(site, next) && SentBy(site, p)
    ensures SentBy(next, p)
  {
    assert FinalKept(site.e.core.events[KeyOf(p)], next.e.core.events[KeyOf(p)]);
  }

  /** What one site sends vouches for everything it carries. */
  lemma CarriedSent(site: Site, p: Packet)
    requires site.Bound? && Valid(site.e) && SentBy(site, p)
    ensures forall q :: q in Carried(p) ==> SentBy(site, q)
  {
    var core := site.e.core;
    assert HasOperation(core, site.e.ops, KeyOf(p)) && Placed(core.c, KeyOf(p), core.events[KeyOf(p)]);
    var id := KeyOf(p).eventId.op;
    assert OpFits(core, id, site.e.ops[id]);
    forall q | q in Carried(p) ensures SentBy(site, q) {
      if q != p {
        assert OwnApplied(core, q);
        assert Placed(core.c, KeyOf(q), core.events[KeyOf(q)]);
      }
    }
  }

  /** What was vouched for stays vouched for while one site extends its records. */
  lemma NetKept(s: System, side: Side, next: Endpoint)
    requires forall p :: p in s.net ==> SentSomewhere(s, p)
    requires At(s, side).Bound? && Extends(At(s, side).e.core, next.core)
    ensures forall p :: p in s.net ==> SentSomewhere(Put(s, side, next), p)
  {
    forall p | p in s.net ensures SentSomewhere(Put(s, side, next), p) {
      assert SentSomewhere(s, p);
      if SentBy(At(s, side), p) {
        SentKept(At(s, side), Bound(next), p);
      }
    }
  }

  lemma AuthenticKept(site: Site, other: Site, next: Endpoint)
    requires site.Bound? && Extends(site.e.core, next.core) && Authentic(site, other) && Authentic(other, site)
    requires forall k :: k in next.core.events && !next.core.events[k].outgoing ==>
      k in site.e.core.events || SentBy(other, next.core.events[k].packet)
    ensures Authentic(Bound(next), other) && Authentic(other, Bound(next))
  {
    forall k | k in next.core.events && !next.core.events[k].outgoing
      ensures SentBy(other, next.core.events[k].packet)
    {
      if k in site.e.core.events {
        assert FinalKept(site.e.core.events[k], next.core.events[k]);
      }
    }
    if other.Bound? {
      forall k | k in other.e.core.events && !other.e.core.events[k].outgoing
        ensures SentBy(Bound(next), other.e.core.events[k].packet)
      {
        SentKept(site, Bound(next), other.e.core.events[k].packet);
      }
    }
  }

  /** A site that extends its records and takes in only what the other site sent keeps
      the system invariant. */
  lemma PutKeeps(pair: Pair, s: System, side: Side, next: Endpoint)
    requires SystemFits(pair, s) && At(s, side).Bound?
    requires Valid(next) && Extends(At(s, side).e.core, next.core)
    requires forall k :: k in next.core.events && !next.core.events[k].outgoing ==>
      k in At(s, side).e.core.events || SentBy(At(s, Other(side)), next.core.events[k].packet)
    ensures SystemFits(pair, Put(s, side, next))
    ensures SiteExtends(s.first, Put(s, side, next).first) && SiteExtends(s.second, Put(s, side, next).second)
  {
    var t, site, other := Put(s, side, next), At(s, side), At(s, Other(side));
    assert At(t, side) == Bound(next) && At(t, Other(side)) == other && t.net == s.net;
    Pieces(pair, s, side);
    NetKept(s, side, next);
    AuthenticKept(site, other, next);
    NextFits(pair, side, site, next);
    Assembled(pair, t, side);
    PutExtends(s, side, next);
  }

  lemma PutExtends(s: System, side: Side, next: Endpoint)
    requires SiteExtends(At(s, side), Bound(next))
    ensures SiteExtends(s.first, Put(s, side, next).first) && SiteExtends(s.second, Put(s, side, next).second)
  {
  }

  lemma Pieces(pair: Pair, s: System, side: Side)
    requires SystemFits(pair, s)
    ensures SiteFits(pair, side, At(s, side)) && SiteFits(pair, Other(side), At(s, Other(side)))
    ensures forall p :: p in s.net ==> SentSomewhere(s, p)
    ensures Authentic(At(s, side), At(s, Other(side))) && Authentic(At(s, Other(side)), At(s, side))
  {
  }

  lemma NextFits(pair: Pair, side: Side, site: Site, next: Endpoint)
    requires SiteFits(pair, side, site) && site.Bound? && Valid(next) && Extends(site.e.core, next.core)
    ensures SiteFits(pair, side, Bound(next))
  {
  }

  /** The system invariant from its pieces, seen from either side. */
  lemma Assembled(pair: Pair, t: System, side: Side)
    requires SiteFits(pair, side, At(t, side)) && SiteFits(pair, Other(side), At(t, Other(side)))
    requires forall p :: p in t.net ==> SentSomewhere(t, p)
    requires Authentic(At(t, side), At(t, Other(side))) && Authentic(At(t, Other(side)), At(t, side))
    ensures SystemFits(pair, t)
  {
  }

  lemma PutNewKeeps(pair: Pair, s: System, side: Side, e: Endpoint)
    requires SystemFits(pair, s) && At(s, side).Unbound? && SiteFits(pair, side, Bound(e))
    requires forall k :: k in e.core.events && !e.core.events[k].outgoing ==>
      SentBy(At(s, Other(side)), e.core.events[k].packet)
    ensures SystemFits(pair, Put(s, side, e))
    ensures SiteExtends(s.first, Put(s, side, e).first) && SiteExtends(s.second, Put(s, side, e).second)
  {
    var t, other := Put(s, side, e), At(s, Other(side));
    assert At(t, side) == Bound(e) && At(t, Other(side)) == other && t.net == s.net;
    Pieces(pair, s, side);
    assert Authentic(Bound(e), other) && Authentic(other, Bound(e));
    forall p | p in t.net ensures SentSomewhere(t, p) {
      assert SentSomewhere(s, p);
    }
    Assembled(pair, t, side);
    PutExtends(s, side, e);
  }

  ghost predicate Moves(pair: Pair, s: System, t: System) {
    SystemFits(pair, t) && SiteExtends(s.first, t.first) && SiteExtends(s.second, t.second)
  }

  lemma StayKeeps(pair: Pair, s: System)
    requires SystemFits(pair, s)
    ensures Moves(pair, s, s)
  {
  }

  /** An endpoint that extends its records and stores no further incoming event. */
  ghost predicate Quiet(e: Endpoint, f: Endpoint) {
    && Valid(f) && Extends(e.core, f.core)
    && forall k :: k in f.core.events && !f.core.events[k].outgoing ==> k in e.core.events
  }

  lemma QuietPut(pair: Pair, s: System, side: Side, e: Endpoint, f: Endpoint)
    requires SystemFits(pair, s) && At(s, side) == Bound(e) && Quiet(e, f)
    ensures Moves(pair, s, Put(s, side, f))
  {
    PutKeeps(pair, s, side, f);
  }

  lemma ReserveQuiet(e: Endpoint, id: OpId, verdict: Verdict, connected: bool, now: Instant)
    requires Valid(e) && Reserve(e, id, verdict, connected, now).Some?
    ensures Quiet(e, Reserve(e, id, verdict, connected, now).value)
  {
    ReserveKeeps(e, id, verdict, connected, now);
    var p := ReserveUnfolds(e, id, verdict, connected, now);
  }

  lemma ReviewQuiet(e: Endpoint, packet: Packet, decision: Review, now: Instant)
    requires Valid(e) && DecideReview(e, packet, decision, now).Some?
    ensures Quiet(e, DecideReview(e, packet, decision, now).value)
  {
    DecideReviewKeeps(e, packet, decision, now);
  }

  lemma RevokeQuiet(e: Endpoint)
    requires Valid(e)
    ensures Quiet(e, Revoke(e))
  {
    RevokeKeeps(e);
  }

  lemma PlainQuiet(e: Endpoint, f: Endpoint)
    requires Valid(e) && f.core == e.core && OpsFit(f.core, f.ops)
    ensures Quiet(e, f)
  {
  }

  /** Every operation of one bound site, apart from taking in events, stores only its
      own new events. */
  lemma OwnActionKeeps(pair: Pair, s: System, a: Action, e: Endpoint)
    requires SystemFits(pair, s) && !a.OpenFirst? && !a.OpenSecond? && At(s, a.side) == Bound(e)
    requires !a.Delivers? && !a.Submits?
    ensures Moves(pair, s, ActBound(s, a, e))
  {
    StayKeeps(pair, s);
    if OwnAction(a, e).Some? {
      OwnActionQuiet(a, e);
      QuietPut(pair, s, a.side, e, OwnAction(a, e).value);
    }
  }

  lemma PrepareQuiet(e: Endpoint, tag: nat, kind: Kind, request: Request, verdict: Verdict, now: Instant)
    requires Valid(e) && Prepare(e, tag, kind, request, verdict, now).Some?
    ensures Quiet(e, Prepare(e, tag, kind, request, verdict, now).value)
  {
    PrepareKeeps(e, tag, kind, request, verdict, now);
    PlainQuiet(e, Prepare(e, tag, kind, request, verdict, now).value);
  }

  lemma ConfirmQuiet(e: Endpoint, id: OpId, approve: bool, now: Instant)
    requires Valid(e) && Confirm(e, id, approve, now).Some?
    ensures Quiet(e, Confirm(e, id, approve, now).value)
  {
    ConfirmKeeps(e, id, approve, now);
    PlainQuiet(e, Confirm(e, id, approve, now).value);
  }

  lemma OwnActionQuiet(a: Action, e: Endpoint)
    requires !a.OpenFirst? && !a.OpenSecond? && !a.Submits? && !a.Delivers?
    requires Valid(e) && OwnAction(a, e).Some?
    ensures Quiet(e, OwnAction(a, e).value)
  {
    match a
    case ReservesPacket(_, id, verdict, connected, now) => ReserveQuiet(e, id, verdict, connected, now);
    case Reviews(_, packet, decision, now) => ReviewQuiet(e, packet, decision, now);
    case Revokes(_) => RevokeQuiet(e);
    case _ => PlainActionQuiet(a, e);
  }

  lemma PlainActionQuiet(a: Action, e: Endpoint)
    requires a.Prepares? || a.Confirms? || a.Blocks? || a.ChangesTask?
    requires Valid(e) && OwnAction(a, e).Some?
    ensures Quiet(e, OwnAction(a, e).value)
  {
    match a
    case Prepares(_, tag, kind, request, verdict, now) => PrepareQuiet(e, tag, kind, request, verdict, now);
    case Confirms(_, id, approve, now) => ConfirmQuiet(e, id, approve, now);
    case Blocks(_, blocked) => PlainQuiet(e, e.(blocked := blocked));
    case ChangesTask(_, task) => PlainQuiet(e, e.(task := task));
  }

  lemma DeliverKeeps(pair: Pair, s: System, side: Side, packet: Packet, now: Instant, e: Endpoint)
    requires SystemFits(pair, s) && At(s, side) == Bound(e) && packet in s.net && IngestRecord(e, packet, now).Some?
    ensures Moves(pair, s, Put(s, side, IngestRecord(e, packet, now).value))
  {
    IngestRecordKeeps(e, packet, now);
    var f := IngestRecord(e, packet, now).value;
    var other := At(s, Other(side));
    assert SentSomewhere(s, packet);
    assert SentBy(other, packet) by {
      if SentBy(At(s, side), packet) {
        assert Placed(e.core.c, KeyOf(packet), e.core.events[KeyOf(packet)]);
        var e1 := IngestUnfolds(e, packet, now);
      }
    }
    CarriedSent(other, packet);
    PutKeeps(pair, s, side, f);
  }

  /** A submission stores no incoming event, and its packet counts as sent. */
  lemma Submitted(e: Endpoint, id: OpId, stored: bool, connected: bool, now: Instant)
    requires Valid(e) && Submit(e, id, stored, connected, now).Some? && id in e.ops && e.ops[id].packet.Some?
    ensures var f := Submit(e, id, stored, connected, now).value;
      && Valid(f) && Extends(e.core, f.core) && f.core.events.Keys == e.core.events.Keys
      && SentBy(Bound(f), e.ops[id].packet.value)
  {
    SubmitKeeps(e, id, stored, connected, now);
    var f := Submit(e, id, stored, connected, now).value;
    var p := SubmitUnfolds(e, id, stored, connected, now);
    assert FinalKept(e.core.events[KeyOf(p)], f.core.events[KeyOf(p)]);
    SubmitIncoming(e, id, stored, connected, now);
  }

  lemma HandedOver(pair: Pair, s: System, side: Side, p: Packet)
    requires SystemFits(pair, s) && SentBy(At(s, side), p)
    ensures SystemFits(pair, s.(net := s.net + {p}))
  {
  }

  lemma SubmitActKeeps(pair: Pair, s: System, side: Side, id: OpId, stored: bool, connected: bool, now: Instant, e: Endpoint)
    requires SystemFits(pair, s) && At(s, side) == Bound(e) && Submit(e, id, stored, connected, now).Some?
    requires id in e.ops && e.ops[id].packet.Some?
    ensures Moves(pair, s, Put(s, side, Submit(e, id, stored, connected, now).value).(net := s.net + {e.ops[id].packet.value}))
  {
    Submitted(e, id, stored, connected, now);
    SentKeeps(pair, s, side, Submit(e, id, stored, connected, now).value, e.ops[id].packet.value);
  }

  lemma SentKeeps(pair: Pair, s: System, side: Side, f: Endpoint, p: Packet)
    requires SystemFits(pair, s) && At(s, side).Bound? && Valid(f) && Extends(At(s, side).e.core, f.core)
    requires f.core.events.Keys == At(s, side).e.core.events.Keys && SentBy(Bound(f), p)
    ensures Moves(pair, s, Put(s, side, f).(net := s.net + {p}))
  {
    PutKeeps(pair, s, side, f);
    HandedOver(pair, Put(s, side, f), side, p);
  }

  lemma OpenFirstKeeps(pair: Pair, s: System, tag: nat, task: Task, now: Instant)
    requires pair.first != pair.second && SystemFits(pair, s) && s.first.Unbound?
    requires Open(pair.first, task, pair.collab, tag, pair.second, None, now).Some?
    ensures Moves(pair, s, Put(s, First, Open(pair.first, task, pair.collab, tag, pair.second, None, now).value))
  {
    OpenValid(pair.first, task, pair.collab, tag, pair.second, None, now);
    PutNewKeeps(pair, s, First, Open(pair.first, task, pair.collab, tag, pair.second, None, now).value);
  }

  lemma OpenSecondKeeps(pair: Pair, s: System, tag: nat, task: Task, invitation: Packet, now: Instant)
    requires pair.first != pair.second && SystemFits(pair, s) && s.second.Unbound? && invitation in s.net
    requires Open(pair.second, task, pair.collab, tag, pair.first, Some(invitation), now).Some?
    ensures Moves(pair, s, Put(s, Second, Open(pair.second, task, pair.collab, tag, pair.first, Some(invitation), now).value))
  {
    OpenValid(pair.second, task, pair.collab, tag, pair.first, Some(invitation), now);
    assert SentSomewhere(s, invitation);
    PutNewKeeps(pair, s, Second, Open(pair.second, task, pair.collab, tag, pair.first, Some(invitation), now).value);
  }

  lemma BoundKeeps(pair: Pair, s: System, a: Action, e: Endpoint)
    requires SystemFits(pair, s) && !a.OpenFirst? && !a.OpenSecond? && At(s, a.side) == Bound(e)
    ensures Moves(pair, s, ActBound(s, a, e))
  {
    StayKeeps(pair, s);
    if a.Submits? {
      if Submit(e, a.id, a.stored, a.connected, a.now).Some? && a.id in e.ops && e.ops[a.id].packet.Some? {
        SubmitActKeeps(pair, s, a.side, a.id, a.stored, a.connected, a.now, e);
      }
    } else if a.Delivers? {
      if a.packet in s.net && IngestRecord(e, a.packet, a.now).Some? {
        DeliverKeeps(pair, s, a.side, a.packet, a.now, e);
      }
    } else {
      OwnActionKeeps(pair, s, a, e);
    }
  }

  lemma ActKeeps(pair: Pair, s: System, a: Action)
    requires pair.first != pair.second && SystemFits(pair, s)
    ensures Moves(pair, s, Act(pair, s, a))
  {
    StayKeeps(pair, s);
    match a
    case OpenFirst(tag, task, now) =>
      if s.first.Unbound? && Open(pair.first, task, pair.collab, tag, pair.second, None, now).Some? {
        OpenFirstKeeps(pair, s, tag, task, now);
      }
    case OpenSecond(tag, task, invitation, now) =>
      if s.second.Unbound? && invitation in s.net
         && Open(pair.second, task, pair.collab, tag, pair.first, Some(invitation), now).Some? {
        OpenSecondKeeps(pair, s, tag, task, invitation, now);
      }
    case _ =>
      if At(s, a.side).Bound? {
        BoundKeeps(pair, s, a, At(s, a.side).e);
      }
  }

  lemma ExtendsTrans(a: Core, b: Core, c: Core)
    requires Extends(a, b) && Extends(b, c)
    ensures Extends(a, c)
  {
    forall k | k in a.events ensures k in c.events && FinalKept(a.events[k], c.events[k]) {
      assert FinalKept(a.events[k], b.events[k]) && FinalKept(b.events[k], c.events[k]);
    }
  }

  lemma SiteExtendsTrans(a: Site, b: Site, c: Site)
    requires SiteExtends(a, b) && SiteExtends(b, c)
    ensures SiteExtends(a, c)
  {
    if a.Bound? {
      ExtendsTrans(a.e.core, b.e.core, c.e.core);
    }
  }

  lemma MovesTrans(pair: Pair, s: System, t: System, u: System)
    requires Moves(pair, s, t) && Moves(pair, t, u)
    ensures Moves(pair, s, u)
  {
    SiteExtendsTrans(s.first, t.first, u.first);
    SiteExtendsTrans(s.second, t.second, u.second);
  }

  lemma StartFits(pair: Pair)
    ensures SystemFits(pair, START)
  {
  }

  lemma {:induction false} RunKeeps(pair: Pair, s: System, actions: seq<Action>)
    requires pair.first != pair.second && SystemFits(pair, s)
    ensures Moves(pair, s, Run(pair, s, actions))
    decreases |actions|
  {
    if actions == [] {
      StayKeeps(pair, s);
    } else {
      var before := Run(pair, s, actions[..|actions|-1]);
      RunKeeps(pair, s, actions[..|actions|-1]);
      ActKeeps(pair, before, actions[|actions|-1]);
      MovesTrans(pair, s, before, Run(pair, s, actions));
    }
  }

  // ---- Agreement consistency ----

  /** The coordinator sends no agreement but the one it recorded. */
  lemma SentAgreement(site: Site, p: Packet)
    requires site.Bound? && Valid(site.e) && SentBy(site, p) && p.kind.Agree?
    ensures HoldsAgreement(site.e.core.c, p.payload)
  {
    var core := site.e.core;
    assert HasOperation(core, site.e.ops, KeyOf(p));
    var id := KeyOf(p).eventId.op;
    assert OpFits(core, id, site.e.ops[id]);
  }

  /** If the second party has recorded an agreement, the coordinator has recorded the
      same one, and both hold the terms it names. */
  lemma SecondAgrees(pair: Pair, s: System)
    requires pair.first != pair.second && SystemFits(pair, s)
    requires s.second.Bound? && s.second.e.core.c.agreement.Some?
    ensures s.first.Bound? && s.first.e.core.c.agreement == s.second.e.core.c.agreement
    ensures s.first.e.core.c.terms == s.second.e.core.c.terms && s.first.e.core.c.terms.Some?
    ensures DigestOf(s.first.e.core.c.terms.value) == s.first.e.core.c.agreement.value.formation.termsDigest
  {
    var core := s.second.e.core;
    var k :| k in core.events && IsAgreementEvent(core.events[k], core.c.agreement.value);
    var p := core.events[k].packet;
    assert SentBy(s.first, p);
    SentAgreement(s.first, p);
  }

  /** Agreement consistency: in every run, two recorded agreements are equal, and both
      parties hold the same terms, those the agreement names. */
  lemma AgreementConsistency(pair: Pair, actions: seq<Action>)
    requires pair.first != pair.second
    ensures var s := Run(pair, START, actions);
      s.first.Bound? && s.second.Bound? && s.second.e.core.c.agreement.Some? ==>
        && s.first.e.core.c.agreement == s.second.e.core.c.agreement
        && s.first.e.core.c.terms == s.second.e.core.c.terms && s.first.e.core.c.terms.Some?
        && DigestOf(s.first.e.core.c.terms.value) == s.first.e.core.c.agreement.value.formation.termsDigest
  {
    StartFits(pair);
    RunKeeps(pair, START, actions);
    var s := Run(pair, START, actions);
    if s.first.Bound? && s.second.Bound? && s.second.e.core.c.agreement.Some? {
      SecondAgrees(pair, s);
    }
  }

  lemma {:induction false} RunSplits(pair: Pair, s: System, xs: seq<Action>, ys: seq<Action>)
    ensures Run(pair, s, xs + ys) == Run(pair, Run(pair, s, xs), ys)
    decreases |ys|
  {
    if ys == [] {
      assert xs + ys == xs;
    } else {
      assert (xs + ys)[..|xs + ys|-1] == xs + ys[..|ys|-1];
      RunSplits(pair, s, xs, ys[..|ys|-1]);
    }
  }

  /** An agreement is final: once a run has recorded one on a side, no continuation of
      the run changes that side's agreement, terms or acceptances. */
  lemma AgreementFinal(pair: Pair, actions: seq<Action>, more: seq<Action>, side: Side)
    requires pair.first != pair.second
    requires At(Run(pair, START, actions), side).Bound? && At(Run(pair, START, actions), side).e.core.c.agreement.Some?
    ensures var c := At(Run(pair, START, actions), side).e.core.c;
      var t := At(Run(pair, START, actions + more), side);
      t.Bound? && t.e.core.c.agreement == c.agreement && t.e.core.c.terms == c.terms
      && t.e.core.c.acceptances == c.acceptances
  {
    StartFits(pair);
    RunKeeps(pair, START, actions);
    RunKeeps(pair, Run(pair, START, actions), more);
    RunSplits(pair, START, actions, more);
  }

  // ---- Terms history ----

  /** Two histories of one coordinator's proposals agree wherever both are defined. */
  lemma HistoriesAgree(core: Core, mine: seq<Packet>, other: Core, theirs: seq<Packet>)
    requires IsHistory(core, mine) && IsHistory(other, theirs)
    requires forall p :: p in theirs ==> IsProposal(core.events, p)
    ensures theirs <= mine
  {
    forall i | 0 <= i < |theirs| ensures i < |mine| && theirs[i] == mine[i] {
      assert Succeeds(other.c, theirs, i) && IsProposal(core.events, theirs[i]);
      var j :| 0 <= j < |mine| && mine[j] == theirs[i];
      assert Succeeds(core.c, mine, j);
    }
  }

  /** The second party's applied proposals are a prefix of the coordinator's. */
  lemma HistoryPrefix(pair: Pair, s: System, mine: seq<Packet>, theirs: seq<Packet>)
    requires pair.first != pair.second && SystemFits(pair, s) && s.first.Bound? && s.second.Bound?
    requires IsHistory(s.first.e.core, mine) && IsHistory(s.second.e.core, theirs)
    ensures theirs <= mine
  {
    forall p | p in theirs ensures IsProposal(s.first.e.core.events, p) {
      var i :| 0 <= i < |theirs| && theirs[i] == p;
      ProposalSent(pair, s, theirs, i);
    }
    HistoriesAgree(s.first.e.core, mine, s.second.e.core, theirs);
  }

  lemma ProposalSent(pair: Pair, s: System, theirs: seq<Packet>, i: nat)
    requires pair.first != pair.second && SystemFits(pair, s) && s.second.Bound?
    requires IsHistory(s.second.e.core, theirs) && i < |theirs|
    ensures SentBy(s.first, theirs[i]) && IsProposal(s.first.e.core.events, theirs[i])
  {
    var core := s.second.e.core;
    assert IsProposal(core.events, theirs[i]) && Succeeds(core.c, theirs, i);
    assert Placed(core.c, KeyOf(theirs[i]), core.events[KeyOf(theirs[i])]);
  }

  /** In every run each side's applied proposals form one numbered, digest-linked list,
      and the second party's list is a prefix of the coordinator's. */
  lemma TermsHistory(pair: Pair, actions: seq<Action>) returns (mine: seq<Packet>, theirs: seq<Packet>)
    requires pair.first != pair.second
    requires Run(pair, START, actions).first.Bound? && Run(pair, START, actions).second.Bound?
    ensures IsHistory(Run(pair, START, actions).first.e.core, mine)
    ensures IsHistory(Run(pair, START, actions).second.e.core, theirs)
    ensures theirs <= mine
  {
    StartFits(pair);
    RunKeeps(pair, START, actions);
    var s := Run(pair, START, actions);
    mine :| IsHistory(s.first.e.core, mine);
    theirs :| IsHistory(s.second.e.core, theirs);
    HistoryPrefix(pair, s, mine, theirs);
  }

  // ---- Both parties' consent ----

  /** `site` itself applied and sent an accept event for exactly the terms of `f`, as
      the one `f` refers to, after applying a proposal that spelled those terms out. */
  ghost predicate Consented(site: Site, f: Formation) {
    && site.Bound?
    && exists ref :: ref in f.acceptances && ref.actor == site.e.core.c.local
         && ConsentSent(site.e.core, f, ref)
  }

  ghost predicate ConsentSent(core: Core, f: Formation, ref: AcceptanceRef) {
    var k := Key(core.c.local, ref.eventId);
    && k in core.events && core.events[k].outgoing && Backs(core.c, f, ref, core.events[k])
    && exists p :: IsProposal(core.events, p) && f.termsDigest == DigestOf(p.payload.terms)
  }

  lemma SiteConsent(site: Site, f: Formation, ref: AcceptanceRef, p: Packet, c: Collab)
    requires site.Bound? && Valid(site.e) && SentBy(site, p) && site.e.core.c.initiator == c.initiator
    requires ref in f.acceptances && ref.actor == site.e.core.c.local && KeyOf(p) == Key(ref.actor, ref.eventId)
    requires Backs(c, f, ref, Record(p, Applied, false, None))
    ensures Consented(site, f)
  {
    assert AcceptKnown(site.e.core.events, KeyOf(p));
    assert ConsentSent(site.e.core, f, ref);
  }

  /** The reference that `actor` contributed to the coordinator's formation. */
  lemma RefConsent(pair: Pair, s: System, f: Formation, side: Side)
    requires pair.first != pair.second && SystemFits(pair, s) && s.first.Bound?
    requires Evidence(s.first.e.core, f)
    ensures Consented(At(s, side), f)
  {
    var core := s.first.e.core;
    var ref := RefBy(core, f, UrnOf(pair, side));
    var p := core.events[Key(ref.actor, ref.eventId)].packet;
    RefSent(pair, s, f, side, ref);
    SiteConsent(At(s, side), f, ref, p, core.c);
  }

  lemma RefBy(core: Core, f: Formation, u: Urn) returns (ref: AcceptanceRef)
    requires Evidence(core, f) && u in {core.c.local, core.c.peer}
    ensures ref in f.acceptances && ref.actor == u && RefBacked(core, f, ref)
  {
    ref := if f.acceptances[0].actor == u then f.acceptances[0] else f.acceptances[1];
    assert u in {f.acceptances[0].actor, f.acceptances[1].actor};
  }

  lemma RefSent(pair: Pair, s: System, f: Formation, side: Side, ref: AcceptanceRef)
    requires pair.first != pair.second && SystemFits(pair, s) && s.first.Bound?
    requires RefBacked(s.first.e.core, f, ref) && ref.actor == UrnOf(pair, side)
    ensures var p := s.first.e.core.events[Key(ref.actor, ref.eventId)].packet;
      KeyOf(p) == Key(ref.actor, ref.eventId) && SentBy(At(s, side), p)
  {
    var core, k := s.first.e.core, Key(ref.actor, ref.eventId);
    assert Placed(core.c, k, core.events[k]);
  }

  /** A recorded agreement rests on both parties' own acts: each of them applied the
      proposal with the agreed terms, and then sent the acceptance it refers to. */
  lemma MutualConsent(pair: Pair, actions: seq<Action>)
    requires pair.first != pair.second
    ensures var s := Run(pair, START, actions);
      s.first.Bound? && s.first.e.core.c.agreement.Some? ==>
        Consented(s.first, s.first.e.core.c.agreement.value.formation)
        && Consented(s.second, s.first.e.core.c.agreement.value.formation)
  {
    StartFits(pair);
    RunKeeps(pair, START, actions);
    var s := Run(pair, START, actions);
    if s.first.Bound? && s.first.e.core.c.agreement.Some? {
      RefConsent(pair, s, s.first.e.core.c.agreement.value.formation, First);
      RefConsent(pair, s, s.first.e.core.c.agreement.value.formation, Second);
    }
  }
}
