/** Scripts of a run: carrying one operation through its transactions, and taking in one
    event, with the exact facts afterwards. */
module CollabTalk {
  import opened Basics
  import opened CollabTypes
  import opened CollabReducer
  import opened CollabInbox
  import opened CollabOutbox
  import opened CollabInvariant
  import opened CollabSteps
  import opened CollabOrder
  import opened CollabStall
  import opened CollabAgreement

  const MANDATE := Task(true, 100000, 1, 7, 20, 0, 0)

  // ---- Reachable systems ----

  ghost predicate Reaches(pair: Pair, s: System) {
    exists actions :: Run(pair, START, actions) == s
  }

  lemma Acted(pair: Pair, s: System, a: Action)
    requires Reaches(pair, s)
    ensures Reaches(pair, Act(pair, s, a))
  {
    var actions :| Run(pair, START, actions) == s;
    assert (actions + [a])[..|actions|] == actions;
    assert Run(pair, START, actions + [a]) == Act(pair, s, a);
  }

  lemma ReachedFits(pair: Pair, s: System)
    requires pair.first != pair.second && Reaches(pair, s)
    ensures SystemFits(pair, s)
  {
    var actions :| Run(pair, START, actions) == s;
    StartFits(pair);
    RunKeeps(pair, START, actions);
  }

  function OrSame(e: Endpoint, r: Option<Endpoint>): Endpoint {
    if r.Some? then r.value else e
  }

  lemma OwnActed(pair: Pair, s: System, a: Action, e: Endpoint)
    requires Reaches(pair, s) && !a.OpenFirst? && !a.OpenSecond? && !a.Submits? && !a.Delivers?
    requires At(s, a.side) == Bound(e)
    ensures Reaches(pair, Put(s, a.side, OrSame(e, OwnAction(a, e))))
  {
    Acted(pair, s, a);
    assert Put(s, a.side, e) == s;
  }

  // ---- An endpoint in conversation ----

  /** Every stored incoming event has been decided. */
  ghost predicate Settled(core: Core) {
    forall k :: k in core.events && !core.events[k].outgoing
                ==> core.events[k].packet.sequence <= core.c.inSeq && !core.events[k].status.Buffered?
  }

  /** The endpoint may speak: safe content, a live mandate, and tags from `n` on unused. */
  ghost predicate Talks(e: Endpoint, n: nat) {
    && Settled(e.core) && SafeContent(e)
    && e.task == MANDATE.(usedCount := e.task.usedCount) && e.task.usedCount <= n
    && forall t: nat :: UserOp(t) in e.ops ==> t < n
  }

  // ---- Speaking ----

  function Spoken(c: Collab, n: nat, kind: Kind, payload: Payload, now: Instant): Packet {
    Packet(c.id, EventOf(UserOp(n)), kind, c.local, c.peer, c.outSeq + 1, c.lastOut, now,
           if IsMaintenance(kind) && c.permit.Some? then c.permit.value.until else MANDATE.expiresAt, payload)
  }

  function Charging(c: Collab, kind: Kind): Collab {
    if IsMaintenance(kind) && c.permit.Some? then
      c.(permit := Some(c.permit.value.(used := c.permit.value.used + 1)))
    else c
  }

  function ReservedCore(core: Core, p: Packet): Core {
    Core(Charging(core.c, p.kind).(outSeq := p.sequence, lastOut := Some(p.eventId)),
         core.events[KeyOf(p) := Record(p, Status.Reserved, true, None)])
  }

  /** The operation is ready, asked or not, and nothing but its kind decides its budget. */
  predicate ReadyOp(e: Endpoint, op: Operation, kind: Kind, payload: Payload) {
    && op.kind == kind && op.payload == payload && op.status.Ready? && op.context == ContextOf(e.core.c)
    && op.revision == e.task.revision && op.maintenance == IsMaintenance(kind) && !op.recoveryOnce && op.creates.None?
    && op.fullReview && op.packet.None? && (op.asked ==> op.approvedOnce)
    && op.expiresAt == (if IsMaintenance(kind) && e.core.c.permit.Some? then e.core.c.permit.value.until else MANDATE.expiresAt)
  }

  ghost predicate MaySay(e: Endpoint, n: nat, kind: Kind, request: Request, payload: Payload, now: Instant) {
    && Talks(e, n) && n < 20 && 0 <= now < 1000 && !IsSync(kind)
    && RequestedPayload(e.core, e.task, kind, request) == Some(payload)
    && Precondition(e.core.c, kind, payload, e.core.c.local) == Pass
    && (IsMaintenance(kind) ==> PermitLive(e.core.c, now))
  }

  lemma PreparedReady(e: Endpoint, n: nat, kind: Kind, request: Request, payload: Payload, now: Instant)
    returns (g: Endpoint, f: Endpoint)
    requires MaySay(e, n, kind, request, payload, now)
    ensures g == OrSame(e, Prepare(e, n, kind, request, MayAllow, now))
    ensures f == OrSame(g, Confirm(g, UserOp(n), true, now))
    ensures UserOp(n) in f.ops && ReadyOp(e, f.ops[UserOp(n)], kind, payload)
    ensures f == e.(ops := e.ops[UserOp(n) := f.ops[UserOp(n)]])
  {
    g := OrSame(e, Prepare(e, n, kind, request, MayAllow, now));
    f := OrSame(g, Confirm(g, UserOp(n), true, now));
    assert UserOp(n) !in e.ops;
    assert f.ops == e.ops[UserOp(n) := f.ops[UserOp(n)]];
  }

  predicate Unsent(e: Endpoint, id: OpId, p: Packet) {
    && id in e.ops && e.ops[id].status.Sending? && e.ops[id].packet == Some(p) && e.ops[id].expiresAt == p.expiresAt
    && e.ops[id].revision == MANDATE.revision && e.ops[id].maintenance == IsMaintenance(p.kind)
  }

  /** All operations but `id` are as they were. */
  predicate OthersKept(ops: map<OpId, Operation>, next: map<OpId, Operation>, id: OpId) {
    forall j :: j in ops && j != id ==> j in next && next[j] == ops[j]
  }

  lemma ReservedNext(e: Endpoint, n: nat, kind: Kind, payload: Payload, now: Instant) returns (f: Endpoint)
    requires OpsFit(e.core, e.ops) && EventsPlaced(e.core) && CursorsFit(e.core)
    requires SafeContent(e) && e.task == MANDATE.(usedCount := e.task.usedCount) && e.task.usedCount < 20
    requires UserOp(n) in e.ops && ReadyOp(e, e.ops[UserOp(n)], kind, payload) && 0 <= now < 1000 && !IsSync(kind)
    requires IsMaintenance(kind) ==> PermitLive(e.core.c, now)
    requires ValidEvent(Spoken(e.core.c, n, kind, payload, now))
    ensures f == OrSame(e, Reserve(e, UserOp(n), MayAllow, true, now))
    ensures var p := Spoken(e.core.c, n, kind, payload, now);
      f.core == ReservedCore(e.core, p) && Unsent(f, UserOp(n), p) && KeyOf(p) !in e.core.events
    ensures f.ops.Keys == e.ops.Keys && OthersKept(e.ops, f.ops, UserOp(n)) && f.blocked == e.blocked && f.reviews == e.reviews
    ensures f.task == e.task.(usedCount := f.task.usedCount) && f.task.usedCount <= e.task.usedCount + 1
  {
    f := OrSame(e, Reserve(e, UserOp(n), MayAllow, true, now));
    var p := ReserveUnfolds(e, UserOp(n), MayAllow, true, now);
  }

  lemma StoredSafe(e: Endpoint, f: Endpoint)
    requires Settled(e.core) && SafeContent(e) && f.blocked == e.blocked && f.reviews == e.reviews
    requires f.core.c.inSeq == e.core.c.inSeq
    requires forall k :: k in f.core.events && !f.core.events[k].outgoing ==>
      k in e.core.events && !e.core.events[k].outgoing && f.core.events[k].packet == e.core.events[k].packet
      && f.core.events[k].status == e.core.events[k].status
    ensures Settled(f.core) && SafeContent(f)
  {
  }

  /** The endpoint after preparing, confirming and reserving. */
  ghost function AfterReserving(e: Endpoint, n: nat, kind: Kind, request: Request, now: Instant): Endpoint {
    var g := OrSame(e, Prepare(e, n, kind, request, MayAllow, now));
    var h := OrSame(g, Confirm(g, UserOp(n), true, now));
    OrSame(h, Reserve(h, UserOp(n), MayAllow, true, now))
  }

  lemma ReservingIs(e: Endpoint, n: nat, kind: Kind, request: Request, payload: Payload, now: Instant)
    requires OpsFit(e.core, e.ops) && EventsPlaced(e.core) && CursorsFit(e.core)
    requires MaySay(e, n, kind, request, payload, now)
    requires ValidEvent(Spoken(e.core.c, n, kind, payload, now))
    ensures var f, p := AfterReserving(e, n, kind, request, now), Spoken(e.core.c, n, kind, payload, now);
      f.core == ReservedCore(e.core, p) && Unsent(f, UserOp(n), p) && Talks(f, n + 1) && KeyOf(p) !in e.core.events
    ensures OthersKept(e.ops, AfterReserving(e, n, kind, request, now).ops, UserOp(n))
  {
    var g, h := PreparedReady(e, n, kind, request, payload, now);
    PreparedFits(e, n, kind, request, now);
    assert h.core == e.core && h.task == e.task && h.ops.Keys == e.ops.Keys + {UserOp(n)};
    var f := ReservedNext(h, n, kind, payload, now);
    ReservedTalks(e, f, n, Spoken(e.core.c, n, kind, payload, now));
  }

  lemma PreparedFits(e: Endpoint, n: nat, kind: Kind, request: Request, now: Instant)
    requires OpsFit(e.core, e.ops)
    ensures var h := OrSame(e, Prepare(e, n, kind, request, MayAllow, now));
      var f := OrSame(h, Confirm(h, UserOp(n), true, now));
      OpsFit(f.core, f.ops)
  {
    var g := OrSame(e, Prepare(e, n, kind, request, MayAllow, now));
    if Prepare(e, n, kind, request, MayAllow, now).Some? {
      PrepareKeeps(e, n, kind, request, MayAllow, now);
    }
    if Confirm(g, UserOp(n), true, now).Some? {
      ConfirmKeeps(g, UserOp(n), true, now);
    }
  }

  lemma ReservedTalks(e: Endpoint, f: Endpoint, n: nat, p: Packet)
    requires Talks(e, n) && f.core == ReservedCore(e.core, p) && f.ops.Keys == e.ops.Keys + {UserOp(n)}
    requires f.blocked == e.blocked && f.reviews == e.reviews
    requires f.task == e.task.(usedCount := f.task.usedCount) && f.task.usedCount <= e.task.usedCount + 1
    ensures Talks(f, n + 1)
  {
    StoredSafe(e, f);
  }

  lemma ReservingActs(pair: Pair, s: System, side: Side, e: Endpoint, n: nat, kind: Kind, request: Request, now: Instant)
    requires Reaches(pair, s) && At(s, side) == Bound(e)
    ensures Reaches(pair, Put(s, side, AfterReserving(e, n, kind, request, now)))
  {
    var g := OrSame(e, Prepare(e, n, kind, request, MayAllow, now));
    var h := OrSame(g, Confirm(g, UserOp(n), true, now));
    OwnActed(pair, s, Prepares(side, n, kind, request, MayAllow, now), e);
    OwnActed(pair, Put(s, side, g), Confirms(side, UserOp(n), true, now), g);
    assert Put(Put(s, side, g), side, h) == Put(s, side, h);
    OwnActed(pair, Put(s, side, h), ReservesPacket(side, UserOp(n), MayAllow, true, now), h);
    assert Put(Put(s, side, h), side, AfterReserving(e, n, kind, request, now)) == Put(s, side, AfterReserving(e, n, kind, request, now));
  }

  /** Prepare an operation, confirm it if it was asked about, and reserve its packet. */
  lemma ReservesOne(pair: Pair, s: System, side: Side, n: nat, kind: Kind, request: Request, payload: Payload, now: Instant)
    returns (t: System)
    requires pair.first != pair.second && Reaches(pair, s) && At(s, side).Bound?
    requires MaySay(At(s, side).e, n, kind, request, payload, now)
    requires ValidEvent(Spoken(At(s, side).e.core.c, n, kind, payload, now))
    ensures Reaches(pair, t) && At(t, Other(side)) == At(s, Other(side)) && t.net == s.net && At(t, side).Bound?
    ensures var e, f, p := At(s, side).e, At(t, side).e, Spoken(At(s, side).e.core.c, n, kind, payload, now);
      f.core == ReservedCore(e.core, p) && Unsent(f, UserOp(n), p) && Talks(f, n + 1) && KeyOf(p) !in e.core.events
      && OthersKept(e.ops, f.ops, UserOp(n))
  {
    var e := At(s, side).e;
    ReachedFits(pair, s);
    SoundPieces(e.core);
    ReservingIs(e, n, kind, request, payload, now);
    ReservingActs(pair, s, side, e, n, kind, request, now);
    t := Put(s, side, AfterReserving(e, n, kind, request, now));
  }

  // ---- What replies leave alone ----

  /** Only automatic operations were queued. */
  ghost predicate OnlyQueues(e: Endpoint, f: Endpoint) {
    && f.blocked == e.blocked && f.reviews == e.reviews && f.task == e.task
    && OpsKept(e.ops, f.ops) && forall t: nat :: UserOp(t) in f.ops ==> UserOp(t) in e.ops
  }

  lemma QueueOnly(e: Endpoint, kind: Kind, about: Option<EventId>, now: Instant)
    requires Queue(e, kind, about, now).Some?
    ensures OnlyQueues(e, Queue(e, kind, about, now).value)
  {
  }

  lemma ReplyOnly(e: Endpoint, before: Collab, packet: Packet, now: Instant, outgoing: bool)
    requires Reply(e, before, packet, now, outgoing).Go?
    ensures OnlyQueues(e, Reply(e, before, packet, now, outgoing).e)
  {
    var kind := ReplyTo(before, e.core.c, packet, outgoing);
    if kind.Some? {
      QueueOnly(e, kind.value, None, now);
    }
  }

  lemma ReceiptedOnly(e: Endpoint, packet: Packet, now: Instant)
    requires Receipted(e, packet, now).Go?
    ensures OnlyQueues(e, Receipted(e, packet, now).e)
  {
    QueueOnly(e, Receipt, Some(packet.eventId), now);
  }

  lemma StepOnly(e: Endpoint, now: Instant)
    requires !DrainStep(e, now).Abort?
    ensures OnlyQueues(e, DrainStep(e, now).e)
  {
    match NextTurn(e.core, e.reviews, now)
    case Take(key, core, reason) =>
      var packet := e.core.events[key].packet;
      var e1 := e.(core := core);
      if reason.WasApplied? {
        var e2 := e1.(view := ViewAfter(e.view, e.core, core, packet, false));
        ReplyOnly(e2, e.core.c, packet, now, false);
        if !Unreceipted(packet.kind) {
          ReceiptedOnly(Reply(e2, e.core.c, packet, now, false).e, packet, now);
        }
      } else if reason.Expired? || (!reason.ReviewDeclined? && !Unreceipted(packet.kind)) {
        ReceiptedOnly(e1, packet, now);
      }
    case _ =>
  }

  lemma DrainOnly(e: Endpoint, now: Instant)
    requires Drain(e, now).Some?
    ensures OnlyQueues(e, Drain(e, now).value)
  {
    var e1 := DrainLoop(e, now, MAX_EVENTS).value;
    forall x | !StepAt(now)(x).Abort? ensures OnlyQueues(x, StepAt(now)(x).e) {
      StepOnly(x, now);
    }
    LoopInduction(e, StepAt(now), MAX_EVENTS, e1, (x: Endpoint) => true, (x: Endpoint, y: Endpoint) => OnlyQueues(x, y));
    if HasGap(e1.core) && !(e1.view.waiting.PeerReview? && !SafeContent(e1)) && !e1.core.c.closure.Cancelled? {
      QueueOnly(e1.(view := View(Reconciling, MissingEvent)), SyncRequest, None, now);
    }
  }

  // ---- Sending ----

  lemma SentReplies(core: Core, p: Packet, now: Instant, next: Core)
    requires ApplyCore(core, p, now, true) == Done(next) && ReplyTo(core.c, next.c, p, true).Some?
    ensures TemplatePayload(next, ReplyTo(core.c, next.c, p, true).value, None).Some?
  {
    match p.kind
    case Accept =>
    case Withdraw =>
    case _ =>
  }

  ghost predicate MaySend(e: Endpoint, n: nat, id: OpId, p: Packet, now: Instant) {
    && Talks(e, n) && Unsent(e, id, p) && now < MANDATE.expiresAt && now < p.expiresAt
    && (IsMaintenance(p.kind) ==> PermitOpen(e.core.c, now))
    && KeyOf(p) in e.core.events && e.core.events[KeyOf(p)] == Record(p, Status.Reserved, true, None)
  }

  lemma SendIs(e: Endpoint, n: nat, id: OpId, p: Packet, now: Instant, next: Core) returns (f: Endpoint)
    requires MaySend(e, n, id, p, now) && ApplyCore(e.core, p, now, true) == Done(next)
    ensures Submit(e, id, true, true, now) == Some(f) && f.core == Mark(next, KeyOf(p), Status.Applied) && Talks(f, n)
    ensures f.reviews == e.reviews && OthersKept(e.ops, f.ops, id)
  {
    assert OperationCurrent(e, e.ops[id], now);
    OutgoingFrame(e.core, p, now);
    var g := SendApplies(e, p, now, next);
    f := Submit(e, id, true, true, now).value;
    assert f == Delivered(SetStatus(g, KeyOf(p), Status.Applied), id, true);
    SentTalks(e, n, p, next, f);
  }

  lemma SendApplies(e: Endpoint, p: Packet, now: Instant, next: Core) returns (g: Endpoint)
    requires ApplyCore(e.core, p, now, true) == Done(next)
    ensures Apply(e, p, now, true) == Done(g) && g.core == next && OnlyQueues(e, g)
  {
    var e1 := e.(core := next, view := ViewAfter(e.view, e.core, next, p, true));
    var reply := ReplyTo(e.core.c, next.c, p, true);
    if reply.Some? {
      SentReplies(e.core, p, now, next);
      QueueOnly(e1, reply.value, None, now);
    }
    g := Apply(e, p, now, true).value;
  }

  lemma SentTalks(e: Endpoint, n: nat, p: Packet, next: Core, f: Endpoint)
    requires Talks(e, n) && KeyOf(p) in e.core.events && e.core.events[KeyOf(p)].outgoing && Frame(e.core, next)
    requires f.core == Mark(next, KeyOf(p), Status.Applied)
    requires f.blocked == e.blocked && f.reviews == e.reviews && f.task == e.task
    requires forall t: nat :: UserOp(t) in f.ops ==> UserOp(t) in e.ops
    ensures Talks(f, n)
  {
    StoredSafe(e, f);
  }

  /** Send a reserved packet. */
  lemma Sends(pair: Pair, s: System, side: Side, n: nat, id: OpId, p: Packet, now: Instant, next: Core)
    returns (t: System)
    requires pair.first != pair.second && Reaches(pair, s) && At(s, side).Bound? && MaySend(At(s, side).e, n, id, p, now)
    requires ApplyCore(At(s, side).e.core, p, now, true) == Done(next)
    ensures Reaches(pair, t) && At(t, Other(side)) == At(s, Other(side)) && t.net == s.net + {p} && At(t, side).Bound?
    ensures At(t, side).e.core == Mark(next, KeyOf(p), Status.Applied) && Talks(At(t, side).e, n)
    ensures At(t, side).e.reviews == At(s, side).e.reviews && OthersKept(At(s, side).e.ops, At(t, side).e.ops, id)
  {
    var f := SendIs(At(s, side).e, n, id, p, now, next);
    Acted(pair, s, Submits(side, id, true, true, now));
    t := Put(s, side, f).(net := s.net + {p});
  }

  // ---- Hearing ----

  function StoredCore(core: Core, p: Packet): Core {
    core.(events := core.events[KeyOf(p) := Record(p, Buffered, false, None)])
  }

  /** `p` is the peer's next event, not stored yet. */
  ghost predicate NextHeard(core: Core, p: Packet, now: Instant) {
    && Settled(core) && FromPeer(core.c, p) && !IsSync(p.kind) && KeyOf(p) !in core.events
    && p.sequence == core.c.inSeq + 1 && p.previous == core.c.lastIn && AdmittedStatus(p, now).Buffered?
  }

  lemma HeardStored(core: Core, p: Packet, now: Instant)
    requires EventsPlaced(core) && NextHeard(core, p, now)
    ensures Admit(core, p, now) == Done(StoredCore(core, p)) && Fresh(core, now)
  {
    forall k | k in core.events ensures !(core.events[k].packet.sender == p.sender && core.events[k].packet.sequence == p.sequence) {
      assert Placed(core.c, k, core.events[k]);
    }
  }

  lemma HeardTurn(core: Core, p: Packet, reviews: map<Packet, Review>, now: Instant)
    requires EventsPlaced(core) && NextHeard(core, p, now) && SlotsUnique(StoredCore(core, p).events)
    ensures NextTurn(StoredCore(core, p), reviews, now) == TurnOf(StoredCore(core, p), KeyOf(p), reviews, now)
  {
    var stored := StoredCore(core, p);
    assert InSlot(stored.events, KeyOf(p), core.c.peer, core.c.inSeq + 1);
    var k := SlotKey(stored.events, core.c.peer, core.c.inSeq + 1);
    assert SameSlot(stored.events[k].packet, stored.events[KeyOf(p)].packet);
  }

  lemma NothingAfter(core: Core, p: Packet, fin: Core, reviews: map<Packet, Review>, now: Instant)
    requires EventsPlaced(core) && NextHeard(core, p, now) && EventsPlaced(fin) && SameParties(core.c, fin.c)
    requires fin.events.Keys == StoredCore(core, p).events.Keys && fin.c.inSeq == core.c.inSeq + 1
    requires forall k :: k in fin.events ==> fin.events[k].packet == StoredCore(core, p).events[k].packet
    ensures NextTurn(fin, reviews, now).Idle?
  {
    forall k | k in fin.events ensures !InSlot(fin.events, k, fin.c.peer, fin.c.inSeq + 1) {
      assert Placed(fin.c, k, fin.events[k]);
      assert k in core.events ==> Placed(core.c, k, core.events[k]);
    }
  }

  /** A turn that decides the event `k` and leaves the other records as they were. */
  ghost predicate Decided(core: Core, k: Key, fin: Core) {
    && SameParties(core.c, fin.c) && fin.events.Keys == core.events.Keys && fin.c.inSeq == core.c.inSeq + 1
    && (forall j :: j in core.events ==>
          && fin.events[j].packet == core.events[j].packet && fin.events[j].outgoing == core.events[j].outgoing
          && (j != k ==> fin.events[j].status == core.events[j].status))
    && k in fin.events && !fin.events[k].status.Buffered?
  }

  lemma TurnDecides(core: Core, reviews: map<Packet, Review>, now: Instant)
    requires EventsPlaced(core) && CursorsFit(core) && PartiesDistinct(core.c) && NextTurn(core, reviews, now).Take?
    ensures Decided(core, NextTurn(core, reviews, now).key, NextTurn(core, reviews, now).core)
  {
    var turn := NextTurn(core, reviews, now);
    TurnCases(core, reviews, now);
    if turn.reason.WasApplied? {
      AppliesFrame(core, turn.key, now, false, turn.core);
    } else {
      RejectRecords(core, turn.key, turn.core);
    }
  }

  /** After its turn the event is decided, and nothing further waits. */
  lemma HeardSettles(core: Core, p: Packet, reviews: map<Packet, Review>, now: Instant)
    requires Sound(core) && NextHeard(core, p, now) && Sound(StoredCore(core, p))
    requires NextTurn(StoredCore(core, p), reviews, now).Take?
    ensures var fin := NextTurn(StoredCore(core, p), reviews, now).core;
      Decided(StoredCore(core, p), KeyOf(p), fin) && Settled(fin) && NextTurn(fin, reviews, now).Idle?
  {
    var stored := StoredCore(core, p);
    SoundPieces(stored);
    SoundPieces(core);
    HeardTurn(core, p, reviews, now);
    TurnDecides(stored, reviews, now);
    TakeKeeps(stored, reviews, now);
    var fin := NextTurn(stored, reviews, now).core;
    SoundPieces(fin);
    NothingAfter(core, p, fin, reviews, now);
    DecidedSettles(core, p, fin);
  }

  lemma DecidedSettles(core: Core, p: Packet, fin: Core)
    requires Settled(core) && p.sequence == core.c.inSeq + 1 && Decided(StoredCore(core, p), KeyOf(p), fin)
    ensures Settled(fin)
  {
  }

  lemma OneTurn(core: Core, reviews: map<Packet, Review>, now: Instant)
    requires NextTurn(core, reviews, now).Take? && NextTurn(NextTurn(core, reviews, now).core, reviews, now).Idle?
    ensures CoreDrain(core, reviews, now) == NextTurn(core, reviews, now).core
  {
    var turn := TurnAt(reviews, now);
    assert TakeTurns(core, turn, MAX_EVENTS) == TakeTurns(turn(core).core, turn, MAX_EVENTS - 1);
  }

  /** Store an event and drain, at any review decisions. */
  lemma HeardDrains(e: Endpoint, p: Packet, reviews: map<Packet, Review>, now: Instant) returns (g: Endpoint)
    requires Valid(e) && NextHeard(e.core, p, now)
    ensures g == e.(core := StoredCore(e.core, p), reviews := reviews) && Valid(g) && Fresh(g.core, now)
    ensures IngestRecord(e, p, now) == Drain(e.(core := StoredCore(e.core, p)), now)
  {
    var next := StoredCore(e.core, p);
    HeardStored(e.core, p, now);
    BoundIs(e, p, next, now);
    AdmitFresh(e.core, p, now);
    AdmitKeeps(e.core, p, now);
    OpsFitExtended(e.core, next, e.ops);
    g := e.(core := next, reviews := reviews);
  }

  lemma HeardTaken(g: Endpoint, core: Core, p: Packet, now: Instant)
    requires Sound(core) && NextHeard(core, p, now) && g.core == StoredCore(core, p) && Valid(g) && Fresh(g.core, now)
    requires NextTurn(g.core, g.reviews, now).Take?
    ensures Drain(g, now).Some? && Drain(g, now).value.core == NextTurn(g.core, g.reviews, now).core
    ensures OnlyQueues(g, Drain(g, now).value) && Settled(Drain(g, now).value.core)
  {
    StoredDrains(g, now);
    HeardSettles(core, p, g.reviews, now);
    OneTurn(g.core, g.reviews, now);
    DrainOnly(g, now);
  }

  lemma HeardTalks(e: Endpoint, n: nat, p: Packet, f: Endpoint)
    requires Talks(e, n) && Settled(f.core) && f.blocked == e.blocked && f.task == e.task
    requires forall t: nat :: UserOp(t) in f.ops ==> UserOp(t) in e.ops
    requires Decided(StoredCore(e.core, p), KeyOf(p), f.core)
    requires forall q :: q in e.reviews && e.reviews[q].Approved? ==> ReviewOf(f.reviews, q).Approved?
    requires NeedsReview(p.kind) ==> ReviewOf(f.reviews, p).Approved?
    ensures Talks(f, n)
  {
  }

  lemma HearIs(e: Endpoint, n: nat, p: Packet, now: Instant) returns (f: Endpoint)
    requires Valid(e) && Talks(e, n) && NextHeard(e.core, p, now) && !NeedsReview(p.kind)
    requires TurnOf(StoredCore(e.core, p), KeyOf(p), e.reviews, now).Take?
    ensures IngestRecord(e, p, now) == Some(f) && Talks(f, n) && f.reviews == e.reviews && OpsKept(e.ops, f.ops)
    ensures f.core == TurnOf(StoredCore(e.core, p), KeyOf(p), e.reviews, now).core
  {
    var g := HeardDrains(e, p, e.reviews, now);
    HeardTurn(e.core, p, e.reviews, now);
    f := HearTaken(e, g, n, p, now);
  }

  /** Free text first waits for the owner's review, and takes its turn on approval. */
  lemma HearReviewedIs(e: Endpoint, n: nat, p: Packet, now: Instant) returns (e1: Endpoint, f: Endpoint)
    requires Valid(e) && Talks(e, n) && NextHeard(e.core, p, now) && NeedsReview(p.kind) && p !in e.reviews
    requires TurnOf(StoredCore(e.core, p), KeyOf(p), e.reviews[p := Approved], now).Take?
    ensures IngestRecord(e, p, now) == Some(e1) && DecideReview(e1, p, Approved, now) == Some(f) && Talks(f, n)
    ensures f.core == TurnOf(StoredCore(e.core, p), KeyOf(p), e.reviews[p := Approved], now).core
  {
    var reviews := e.reviews[p := Approved];
    e1 := HearWaits(e, n, p, now);
    var g := e1.(reviews := reviews);
    HeardTurn(e.core, p, reviews, now);
    f := HearTaken(e, g, n, p, now);
  }

  lemma HearTaken(e: Endpoint, g: Endpoint, n: nat, p: Packet, now: Instant) returns (f: Endpoint)
    requires Sound(e.core) && Talks(e, n) && NextHeard(e.core, p, now)
    requires g.core == StoredCore(e.core, p) && Valid(g) && Fresh(g.core, now) && NextTurn(g.core, g.reviews, now).Take?
    requires g.blocked == e.blocked && g.task == e.task && forall t: nat :: UserOp(t) in g.ops ==> UserOp(t) in e.ops
    requires forall q :: q in e.reviews && e.reviews[q].Approved? ==> ReviewOf(g.reviews, q).Approved?
    requires NeedsReview(p.kind) ==> ReviewOf(g.reviews, p).Approved?
    ensures Drain(g, now) == Some(f) && Talks(f, n) && f.reviews == g.reviews && OpsKept(g.ops, f.ops)
    ensures f.core == NextTurn(g.core, g.reviews, now).core
  {
    HeardTaken(g, e.core, p, now);
    HeardSettles(e.core, p, g.reviews, now);
    f := Drain(g, now).value;
    HeardTalks(e, n, p, f);
  }

  lemma HearWaits(e: Endpoint, n: nat, p: Packet, now: Instant) returns (e1: Endpoint)
    requires Valid(e) && Talks(e, n) && NextHeard(e.core, p, now) && NeedsReview(p.kind) && p !in e.reviews
    ensures IngestRecord(e, p, now) == Some(e1) && e1.core == StoredCore(e.core, p) && OnlyQueues(e, e1)
    ensures Valid(e1) && Fresh(e1.core, now) && forall reviews :: Valid(e1.(reviews := reviews))
  {
    var g := HeardDrains(e, p, e.reviews, now);
    HeardTurn(e.core, p, e.reviews, now);
    StoredDrains(g, now);
    DrainOnly(g, now);
    e1 := Drain(g, now).value;
    assert TakeTurns(g.core, TurnAt(e.reviews, now), MAX_EVENTS) == g.core;
  }

  // ---- Hearing in a run ----

  /** What the network brings from the peer, if it is the next of its stream, is new. */
  lemma HeardNew(pair: Pair, s: System, side: Side, p: Packet, now: Instant)
    requires pair.first != pair.second && Reaches(pair, s) && At(s, side).Bound? && p in s.net
    requires var core := At(s, side).e.core;
      && Settled(core) && p.sender == core.c.peer && !IsSync(p.kind)
      && p.sequence == core.c.inSeq + 1 && p.previous == core.c.lastIn && AdmittedStatus(p, now).Buffered?
    ensures NextHeard(At(s, side).e.core, p, now) && Valid(At(s, side).e)
  {
    ReachedFits(pair, s);
    var e, other := At(s, side).e, At(s, Other(side));
    Pieces(pair, s, side);
    assert SentSomewhere(s, p);
    if SentBy(At(s, side), p) {
      SentFields(At(s, side), p);
    }
    SentFields(other, p);
    if KeyOf(p) in e.core.events {
      StoredSame(At(s, side), other, p);
    }
  }

  lemma SentFields(site: Site, p: Packet)
    requires site.Bound? && EventsPlaced(site.e.core) && SentBy(site, p)
    ensures p.sender == site.e.core.c.local && p.recipient == site.e.core.c.peer && p.collab == site.e.core.c.id
    ensures ValidEvent(p)
  {
    assert Placed(site.e.core.c, KeyOf(p), site.e.core.events[KeyOf(p)]);
  }

  lemma StoredSame(site: Site, other: Site, p: Packet)
    requires site.Bound? && EventsPlaced(site.e.core) && Authentic(site, other) && SentBy(other, p)
    requires KeyOf(p) in site.e.core.events && p.sender == site.e.core.c.peer && PartiesDistinct(site.e.core.c)
    ensures site.e.core.events[KeyOf(p)].packet == p && !site.e.core.events[KeyOf(p)].outgoing
  {
    assert Placed(site.e.core.c, KeyOf(p), site.e.core.events[KeyOf(p)]);
    assert SentBy(other, site.e.core.events[KeyOf(p)].packet);
  }

  /** Take in the peer's next event: applied or rejected, as its turn says. */
  lemma Hears(pair: Pair, s: System, side: Side, n: nat, p: Packet, now: Instant) returns (t: System)
    requires pair.first != pair.second && Reaches(pair, s) && At(s, side).Bound? && p in s.net
    requires Talks(At(s, side).e, n) && NextHeard(At(s, side).e.core, p, now) && Valid(At(s, side).e) && !NeedsReview(p.kind)
    requires TurnOf(StoredCore(At(s, side).e.core, p), KeyOf(p), At(s, side).e.reviews, now).Take?
    ensures Reaches(pair, t) && At(t, Other(side)) == At(s, Other(side)) && t.net == s.net && At(t, side).Bound?
    ensures Talks(At(t, side).e, n) && At(t, side).e.reviews == At(s, side).e.reviews
    ensures OpsKept(At(s, side).e.ops, At(t, side).e.ops) && t == Act(pair, s, Delivers(side, p, now))
    ensures At(t, side).e.core == TurnOf(StoredCore(At(s, side).e.core, p), KeyOf(p), At(s, side).e.reviews, now).core
  {
    var f := HearIs(At(s, side).e, n, p, now);
    DeliverActs(pair, s, side, p, now, f);
    t := Put(s, side, f);
  }

  lemma HearsReviewed(pair: Pair, s: System, side: Side, n: nat, p: Packet, now: Instant) returns (t: System)
    requires pair.first != pair.second && Reaches(pair, s) && At(s, side).Bound? && p in s.net
    requires Talks(At(s, side).e, n) && NextHeard(At(s, side).e.core, p, now) && Valid(At(s, side).e)
    requires NeedsReview(p.kind) && p !in At(s, side).e.reviews
    requires TurnOf(StoredCore(At(s, side).e.core, p), KeyOf(p), At(s, side).e.reviews[p := Approved], now).Take?
    ensures Reaches(pair, t) && At(t, Other(side)) == At(s, Other(side)) && t.net == s.net && At(t, side).Bound?
    ensures Talks(At(t, side).e, n)
    ensures At(t, side).e.core
      == TurnOf(StoredCore(At(s, side).e.core, p), KeyOf(p), At(s, side).e.reviews[p := Approved], now).core
  {
    var e1, f := HearReviewedIs(At(s, side).e, n, p, now);
    t := ReviewedActs(pair, s, side, p, now, e1, f);
  }

  lemma ReviewedActs(pair: Pair, s: System, side: Side, p: Packet, now: Instant, e1: Endpoint, f: Endpoint)
    returns (t: System)
    requires Reaches(pair, s) && At(s, side).Bound? && p in s.net
    requires IngestRecord(At(s, side).e, p, now) == Some(e1) && DecideReview(e1, p, Approved, now) == Some(f)
    ensures Reaches(pair, t) && At(t, Other(side)) == At(s, Other(side)) && t.net == s.net && At(t, side) == Bound(f)
  {
    DeliverActs(pair, s, side, p, now, e1);
    OwnActed(pair, Put(s, side, e1), Reviews(side, p, Approved, now), e1);
    t := Put(s, side, f);
    assert Put(Put(s, side, e1), side, f) == t;
  }

  lemma DeliverActs(pair: Pair, s: System, side: Side, p: Packet, now: Instant, f: Endpoint)
    requires Reaches(pair, s) && At(s, side).Bound? && p in s.net && IngestRecord(At(s, side).e, p, now) == Some(f)
    ensures Reaches(pair, Put(s, side, f)) && Act(pair, s, Delivers(side, p, now)) == Put(s, side, f)
  {
    Acted(pair, s, Delivers(side, p, now));
  }

  // ---- One event more ----

  /** `next` differs from `core`, apart from the facts, by the decided event `p`. */
  ghost predicate Grew(core: Core, next: Core, p: Packet, status: Status) {
    && next.events.Keys == core.events.Keys + {KeyOf(p)} && KeyOf(p) !in core.events
    && (forall k :: k in core.events ==> next.events[k] == core.events[k])
    && next.events[KeyOf(p)].packet == p && next.events[KeyOf(p)].status == status
  }

  /** Prepare, reserve and send one event that changes only the negotiated facts. */
  lemma Says(pair: Pair, s: System, side: Side, n: nat, kind: Kind, request: Request, payload: Payload, now: Instant,
             next: Collab) returns (t: System)
    requires pair.first != pair.second && Reaches(pair, s) && At(s, side).Bound?
    requires MaySay(At(s, side).e, n, kind, request, payload, now)
    requires var core := At(s, side).e.core; var p := Spoken(core.c, n, kind, payload, now);
      && ValidEvent(p) && now < p.expiresAt
      && ApplyCore(ReservedCore(core, p), p, now, true) == Done(ReservedCore(core, p).(c := next))
    ensures Reaches(pair, t) && At(t, Other(side)) == At(s, Other(side)) && At(t, side).Bound?
    ensures var core, fin := At(s, side).e.core, At(t, side).e.core; var p := Spoken(core.c, n, kind, payload, now);
      t.net == s.net + {p} && Talks(At(t, side).e, n + 1) && fin.c == next && Grew(core, fin, p, Status.Applied)
    ensures OthersKept(At(s, side).e.ops, At(t, side).e.ops, UserOp(n))
  {
    var core := At(s, side).e.core;
    var p := Spoken(core.c, n, kind, payload, now);
    var s1 := ReservesOne(pair, s, side, n, kind, request, payload, now);
    t := Sends(pair, s1, side, n + 1, UserOp(n), p, now, ReservedCore(core, p).(c := next));
  }

  lemma AppliedTurn(core: Core, p: Packet, reviews: map<Packet, Review>, now: Instant, next: Collab)
    requires KeyOf(p) !in core.events && p.previous == core.c.lastIn && (p.expiresAt > now || p.kind.Agree?)
    requires NeedsReview(p.kind) ==> ReviewOf(reviews, p).Approved?
    requires ApplyCore(StoredCore(core, p).(c := Advance(core.c, p)), p, now, false) == Done(StoredCore(core, p).(c := next))
    requires next.inSeq == p.sequence && next.lastIn == Some(p.eventId)
    ensures var turn := TurnOf(StoredCore(core, p), KeyOf(p), reviews, now);
      turn.Take? && turn.core.c == next && Grew(core, turn.core, p, Status.Applied)
  {
  }

  /** Hear one event that is applied and changes only the negotiated facts. */
  lemma HearsApplied(pair: Pair, s: System, side: Side, n: nat, p: Packet, now: Instant, next: Collab)
    returns (t: System)
    requires pair.first != pair.second && Reaches(pair, s) && At(s, side).Bound? && p in s.net
    requires var e := At(s, side).e;
      && Talks(e, n) && p.sender == e.core.c.peer && !IsSync(p.kind) && p.sequence == e.core.c.inSeq + 1
      && p.previous == e.core.c.lastIn && p.createdAt <= now + 60 && p.expiresAt > now
      && (NeedsReview(p.kind) ==> p !in e.reviews)
      && ApplyCore(StoredCore(e.core, p).(c := Advance(e.core.c, p)), p, now, false) == Done(StoredCore(e.core, p).(c := next))
    requires next.inSeq == p.sequence && next.lastIn == Some(p.eventId)
    ensures Reaches(pair, t) && At(t, Other(side)) == At(s, Other(side)) && t.net == s.net && At(t, side).Bound?
    ensures Talks(At(t, side).e, n) && At(t, side).e.core.c == next
    ensures Grew(At(s, side).e.core, At(t, side).e.core, p, Status.Applied)
    ensures !NeedsReview(p.kind) ==>
      OpsKept(At(s, side).e.ops, At(t, side).e.ops) && t == Act(pair, s, Delivers(side, p, now))
  {
    var e := At(s, side).e;
    HeardNew(pair, s, side, p, now);
    if NeedsReview(p.kind) {
      AppliedTurn(e.core, p, e.reviews[p := Approved], now, next);
      t := HearsReviewed(pair, s, side, n, p, now);
    } else {
      AppliedTurn(e.core, p, e.reviews, now, next);
      t := Hears(pair, s, side, n, p, now);
    }
  }
}
