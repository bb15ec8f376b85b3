/** When receiving fails as a whole: exactly which stored event undoes every further
    incoming transaction, for how long, and that none does while no waiting event has
    expired. */
module CollabStall {
  import opened Basics
  import opened CollabTypes
  import opened CollabReducer
  import opened CollabInbox
  import opened CollabOutbox
  import opened CollabInvariant
  import opened CollabSteps
  import opened CollabOrder
  import CollabIncoming
  import CollabBudget

  /** The next event is a receipt that expired while it was buffered. */
  ghost predicate Stalled(core: Core, reviews: map<Packet, Review>, now: Instant) {
    var turn := NextTurn(core, reviews, now);
    && turn.Take? && turn.reason.Expired? && turn.key in core.events
    && core.events[turn.key].packet.kind.Receipt?
    && PermitOpen(core.c, now)
  }

  ghost function StalledAt(reviews: map<Packet, Review>, now: Instant): Core -> bool {
    (core: Core) => Stalled(core, reviews, now)
  }

  lemma ReceiptFails(e: Endpoint, k: Key, now: Instant)
    requires k in e.core.events && k == Key(e.core.c.peer, k.eventId)
    ensures Queue(e, Receipt, Some(k.eventId), now).None?
      <==> PermitOpen(e.core.c, now) && Unreceipted(e.core.events[k].packet.kind)
  {
  }

  lemma ReplyPays(core: Core, packet: Packet, now: Instant)
    requires !IsSync(packet.kind) && ApplyCore(core, packet, now, false).Done?
    ensures var after := ApplyCore(core, packet, now, false).value;
      var kind := ReplyTo(core.c, after.c, packet, false);
      kind.Some? ==> TemplatePayload(after, kind.value, None).Some?
  {
    match packet.kind
    case Accept =>
    case Agree =>
    case Withdraw =>
    case _ =>
  }

  /** The reply to an applied event can always be compiled. */
  lemma AppliedReplies(core: Core, k: Key, now: Instant, fin: Core)
    requires EventsPlaced(core) && CursorsFit(core) && Applies(core, k, now, false, fin)
    ensures var kind := ReplyTo(core.c, fin.c, core.events[k].packet, false);
      kind.Some? ==> TemplatePayload(fin, kind.value, None).Some?
  {
    assert Placed(core.c, k, core.events[k]);
    ReplyPays(Before(core, core.events[k].packet, false), core.events[k].packet, now);
  }

  lemma ReplyGoes(e: Endpoint, before: Collab, packet: Packet, now: Instant)
    requires var kind := ReplyTo(before, e.core.c, packet, false);
      kind.Some? ==> TemplatePayload(e.core, kind.value, None).Some?
    ensures Reply(e, before, packet, now, false).Go? && Reply(e, before, packet, now, false).e.core == e.core
  {
  }

  lemma PermitKept(core: Core, next: Core, k: Key, now: Instant)
    requires Incoming(core, next) && k in core.events
    ensures PermitOpen(next.c, now) == PermitOpen(core.c, now)
    ensures k in next.events && next.events[k].packet == core.events[k].packet && next.c.peer == core.c.peer
  {
    assert FinalKept(core.events[k], next.events[k]);
  }

  /** One iteration of the drain is undone exactly at such a receipt. */
  lemma StepAborts(e: Endpoint, now: Instant)
    requires Valid(e)
    ensures DrainStep(e, now).Abort? <==> Stalled(e.core, e.reviews, now)
  {
    match NextTurn(e.core, e.reviews, now)
    case Take(k, core, reason) =>
      TakeKeeps(e.core, e.reviews, now);
      TurnCases(e.core, e.reviews, now);
      PermitKept(e.core, core, k, now);
      assert Placed(e.core.c, k, e.core.events[k]);
      StepAbortsAt(e, k, core, reason, now);
    case _ =>
  }

  lemma StepAbortsAt(e: Endpoint, k: Key, core: Core, reason: Reason, now: Instant)
    requires NextTurn(e.core, e.reviews, now) == Take(k, core, reason) && k in e.core.events
    requires EventsPlaced(e.core) && CursorsFit(e.core) && k.sender == e.core.c.peer && k == KeyOf(e.core.events[k].packet)
    requires k in core.events && core.events[k].packet == e.core.events[k].packet && core.c.peer == e.core.c.peer
    requires PermitOpen(core.c, now) == PermitOpen(e.core.c, now) && !IsSync(e.core.events[k].packet.kind)
    requires reason.WasApplied? ==> Applies(e.core, k, now, false, core)
    ensures DrainStep(e, now).Abort? <==> Stalled(e.core, e.reviews, now)
  {
    var packet := e.core.events[k].packet;
    var e1 := e.(core := core);
    if reason.WasApplied? {
      var e2 := e1.(view := ViewAfter(e.view, e.core, core, packet, false));
      AppliedReplies(e.core, k, now, core);
      ReplyGoes(e2, e.core.c, packet, now);
      ReceiptFails(Reply(e2, e.core.c, packet, now, false).e, k, now);
    } else {
      ReceiptFails(e1, k, now);
    }
  }

  /** Some turn of the drain meets such a receipt. */
  ghost predicate RunsInto(core: Core, turn: Core -> Turn, bad: Core -> bool, fuel: nat) {
    exists n :: 0 <= n < fuel && bad(TakeTurns(core, turn, n))
  }

  lemma {:induction false} LoopAborts(e: Endpoint, step: Endpoint -> Step, turn: Core -> Turn, bad: Core -> bool,
                                      fuel: nat, inv: Endpoint -> bool)
    requires forall x :: inv(x) ==> (step(x).Abort? <==> bad(x.core)) && (bad(x.core) ==> turn(x.core).Take?)
    requires forall x :: inv(x) && !step(x).Abort? ==>
      && inv(step(x).e) && (step(x).Go? <==> turn(x.core).Take?)
      && step(x).e.core == if turn(x.core).Take? then turn(x.core).core else x.core
    requires inv(e)
    ensures Iterate(e, step, fuel).None? <==> RunsInto(e.core, turn, bad, fuel)
    decreases fuel
  {
    if fuel == 0 {
    } else {
      assert TakeTurns(e.core, turn, 0) == e.core;
      if step(e).Go? {
        var next := step(e).e;
        LoopAborts(next, step, turn, bad, fuel - 1, inv);
        if RunsInto(e.core, turn, bad, fuel) {
          var n :| 0 <= n < fuel && bad(TakeTurns(e.core, turn, n));
          assert bad(TakeTurns(next.core, turn, n - 1));
        }
        if RunsInto(next.core, turn, bad, fuel - 1) {
          var n :| 0 <= n < fuel - 1 && bad(TakeTurns(next.core, turn, n));
          assert bad(TakeTurns(e.core, turn, n + 1));
        }
      } else if step(e).Stop? {
        StoppedTurns(e.core, turn, bad, fuel);
      }
    }
  }

  lemma StoppedTurns(core: Core, turn: Core -> Turn, bad: Core -> bool, fuel: nat)
    requires !turn(core).Take? && !bad(core)
    ensures !RunsInto(core, turn, bad, fuel)
  {
    assert forall n: nat :: TakeTurns(core, turn, n) == core;
  }

  lemma TailGoes(e: Endpoint, now: Instant)
    ensures DrainTail(e, now).Some?
  {
  }

  /** Receiving is undone as a whole if and only if the drain, before it comes to rest,
      reaches a receipt that expired while it was buffered. */
  lemma DrainAborts(e: Endpoint, now: Instant)
    requires Valid(e)
    ensures Drain(e, now).None?
      <==> RunsInto(e.core, TurnAt(e.reviews, now), StalledAt(e.reviews, now), MAX_EVENTS)
  {
    var inv := (x: Endpoint) => Valid(x) && x.reviews == e.reviews;
    var step, turn, bad := StepAt(now), TurnAt(e.reviews, now), StalledAt(e.reviews, now);
    forall x | inv(x) ensures (step(x).Abort? <==> bad(x.core)) && (bad(x.core) ==> turn(x.core).Take?) {
      StepAborts(x, now);
    }
    forall x | inv(x) && !step(x).Abort?
      ensures inv(step(x).e) && (step(x).Go? <==> turn(x.core).Take?)
      ensures step(x).e.core == if turn(x.core).Take? then turn(x.core).core else x.core
    {
      StepKeeps(x, now);
      if turn(x.core).Take? {
        TakeKeeps(x.core, x.reviews, now);
      }
      StepOps(x, now);
    }
    LoopAborts(e, step, turn, bad, MAX_EVENTS, inv);
    if DrainLoop(e, now, MAX_EVENTS).Some? {
      TailGoes(DrainLoop(e, now, MAX_EVENTS).value, now);
    }
  }

  // ---- How long a stall lasts ----

  /** `next` stores further events and moves no cursor. */
  ghost predicate StoresMore(core: Core, next: Core) {
    && next.c == core.c.(syncAfter := next.c.syncAfter)
    && forall k :: k in core.events ==> k in next.events && next.events[k] == core.events[k]
  }

  /** The next event keeps its place. */
  lemma NextSlotKept(core: Core, next: Core, sender: Urn, n: int)
    requires SlotsUnique(next.events) && n > 0 && HasSlot(core.events, sender, n)
    requires forall k :: k in core.events ==> k in next.events && next.events[k] == core.events[k]
    ensures HasSlot(next.events, sender, n) && SlotKey(next.events, sender, n) == SlotKey(core.events, sender, n)
  {
    var k := SlotKey(core.events, sender, n);
    assert InSlot(next.events, k, sender, n);
    var j := SlotKey(next.events, sender, n);
    assert SameSlot(next.events[k].packet, next.events[j].packet);
  }

  lemma StalledKept(core: Core, next: Core, reviews: map<Packet, Review>, more: map<Packet, Review>,
                    now: Instant, later: Instant)
    requires StoresMore(core, next) && SlotsUnique(next.events) && CursorsFit(core)
    requires Stalled(core, reviews, now) && now <= later && PermitOpen(core.c, later)
    ensures Stalled(next, more, later)
  {
    NextSlotKept(core, next, core.c.peer, core.c.inSeq + 1);
  }

  lemma IngestStores(e: Endpoint, p: Packet, now: Instant)
    requires Valid(e) && FromPeer(e.core.c, p) && IngestBound(e, p, now).Done?
    ensures var f := IngestBound(e, p, now).value; StoresMore(e.core, f.core) && f.reviews == e.reviews
  {
    var core := Admit(e.core, p, now).value;
    AdmitRecords(e.core, p, now);
    var e1 := e.(core := core);
    if KeyOf(p) !in e.core.events && IsSync(p.kind) && Apply(e1, p, now, false).Done? {
      AdmitKeeps(e.core, p, now);
      SyncStores(core, e1, p, now);
    }
    BoundCases(e, p, now);
  }

  lemma SyncStores(core: Core, e: Endpoint, p: Packet, now: Instant)
    requires Sound(core) && e.core == core && FromPeer(core.c, p) && IsSync(p.kind) && Apply(e, p, now, false).Done?
    ensures StoresMore(core, Apply(e, p, now, false).value.core) && Apply(e, p, now, false).value.reviews == e.reviews
  {
    var e2 := Apply(e, p, now, false).value;
    SyncStored(e, p, now, e2);
    SyncApplies(core, p, now);
  }

  lemma BoundCases(e: Endpoint, p: Packet, now: Instant)
    requires IngestBound(e, p, now).Done? && Admit(e.core, p, now).Done?
    requires StoresMore(e.core, Admit(e.core, p, now).value)
    requires var e1 := e.(core := Admit(e.core, p, now).value);
      KeyOf(p) !in e.core.events && IsSync(p.kind) && Apply(e1, p, now, false).Done? ==>
        StoresMore(e1.core, Apply(e1, p, now, false).value.core) && Apply(e1, p, now, false).value.reviews == e.reviews
    ensures var f := IngestBound(e, p, now).value; StoresMore(e.core, f.core) && f.reviews == e.reviews
  {
    if KeyOf(p) !in e.core.events {
      var e1 := e.(core := Admit(e.core, p, now).value);
      if IsSync(p.kind) && e1.core.events[KeyOf(p)].status == Buffered {
        match Apply(e1, p, now, false)
        case Done(e2) =>
          assert IngestBound(e, p, now).value == SetStatus(e2, KeyOf(p), Applied);
        case _ =>
          assert IngestBound(e, p, now).value == SetStatus(e1, KeyOf(p), Rejected);
      }
    }
  }

  lemma SyncStored(e: Endpoint, p: Packet, now: Instant, e2: Endpoint)
    requires Apply(e, p, now, false) == Done(e2)
    ensures ApplyCore(e.core, p, now, false) == Done(e2.core) && e2.reviews == e.reviews
  {
    var core := ApplyCore(e.core, p, now, false).value;
    QueueCore(e.(core := core, view := ViewAfter(e.view, e.core, core, p, false)), e.core.c, p, now);
  }

  lemma QueueCore(e: Endpoint, before: Collab, p: Packet, now: Instant)
    ensures Reply(e, before, p, now, false).Go? ==>
      Reply(e, before, p, now, false).e.core == e.core && Reply(e, before, p, now, false).e.reviews == e.reviews
  {
  }

  lemma StalledAborts(e: Endpoint, now: Instant)
    requires Valid(e) && Stalled(e.core, e.reviews, now)
    ensures Drain(e, now).None?
  {
    StepAborts(e, now);
    assert Iterate(e, StepAt(now), MAX_EVENTS) == None;
  }

  /** Nothing is drained from any later state of a stalled endpoint. */
  lemma StalledBlocks(core: Core, f: Endpoint, reviews: map<Packet, Review>, now: Instant, later: Instant)
    requires CursorsFit(core) && Stalled(core, reviews, now) && now <= later && PermitOpen(core.c, later)
    requires StoresMore(core, f.core) && Valid(f)
    ensures Drain(f, later).None?
  {
    SoundPieces(f.core);
    StalledKept(core, f.core, reviews, f.reviews, now, later);
    StalledAborts(f, later);
  }

  lemma IngestBlocked(e: Endpoint, p: Packet, now: Instant, later: Instant)
    requires Valid(e) && Stalled(e.core, e.reviews, now) && now <= later && PermitOpen(e.core.c, later)
    ensures IngestRecord(e, p, later).None?
  {
    if FromPeer(e.core.c, p) && IngestBound(e, p, later).Done? {
      IngestKeeps(e, p, later);
      IngestStores(e, p, later);
      StalledBlocks(e.core, IngestBound(e, p, later).value, e.reviews, now, later);
    }
  }

  /** At a stall nothing is taken in: no event that the peer sends, recovery responses
      included, and no review decision. */
  lemma ArrivalBlocked(e: Endpoint, a: CollabIncoming.Arrival, now: Instant)
    requires Valid(e) && Stalled(e.core, e.reviews, now) && now <= a.now && PermitOpen(e.core.c, a.now)
    ensures CollabIncoming.Receive(e, a) == e
  {
    match a
    case Arrives(p, later) => IngestBlocked(e, p, now, later);
    case Decides(p, decision, later) =>
      StalledBlocks(e.core, e.(reviews := e.reviews[p := decision]), e.reviews, now, later);
  }

  /** The stored event `k` stalls the stream from the clock value `now` on. */
  predicate StalledBy(core: Core, k: Key, now: Instant) {
    && InSlot(core.events, k, core.c.peer, core.c.inSeq + 1) && core.events[k].packet.kind.Receipt?
    && core.events[k].status.Buffered? && core.events[k].packet.previous == core.c.lastIn
    && core.events[k].packet.expiresAt <= now
  }

  lemma StalledByIs(core: Core, k: Key, reviews: map<Packet, Review>, now: Instant)
    requires SlotsUnique(core.events) && CursorsFit(core) && StalledBy(core, k, now) && PermitOpen(core.c, now)
    ensures Stalled(core, reviews, now)
  {
    var j := SlotKey(core.events, core.c.peer, core.c.inSeq + 1);
    assert SameSlot(core.events[j].packet, core.events[k].packet);
  }

  /** No incoming event is stored, decided or counted. */
  ghost predicate TakesNothing(core: Core, next: Core) {
    && next.c.inSeq == core.c.inSeq && next.c.lastIn == core.c.lastIn && next.c.peer == core.c.peer
    && forall k :: k in next.events && !next.events[k].outgoing ==>
         k in core.events && !core.events[k].outgoing && next.events[k].packet == core.events[k].packet
         && next.events[k].status == core.events[k].status
  }

  ghost predicate KeepsIncoming(core: Core, next: Core) {
    && TakesNothing(core, next)
    && forall k :: k in core.events && !core.events[k].outgoing ==> k in next.events && !next.events[k].outgoing
  }

  lemma SubmitTakesNothing(e: Endpoint, id: OpId, stored: bool, connected: bool, now: Instant)
    requires Valid(e) && Submit(e, id, stored, connected, now).Some?
    ensures KeepsIncoming(e.core, Submit(e, id, stored, connected, now).value.core)
  {
    var p := SubmitUnfolds(e, id, stored, connected, now);
    if e.core.events[KeyOf(p)].status.Reserved? {
      var e2 := Apply(e, p, now, true).value;
      SubmitOps(e, id, p, now, e2);
      AppliesFrame(e.core, KeyOf(p), now, true, Mark(e2.core, KeyOf(p), Status.Applied));
      DeliveredOps(SetStatus(e2, KeyOf(p), Status.Applied), id, stored);
    }
  }

  lemma ReserveTakesNothing(e: Endpoint, id: OpId, verdict: Verdict, connected: bool, now: Instant)
    requires OpsFit(e.core, e.ops) && EventsPlaced(e.core) && CursorsFit(e.core)
    requires Reserve(e, id, verdict, connected, now).Some?
    ensures KeepsIncoming(e.core, Reserve(e, id, verdict, connected, now).value.core)
  {
    var p := ReserveUnfolds(e, id, verdict, connected, now);
  }

  /** The endpoint's own deeds take nothing in. */
  lemma OwnDeedTakesNothing(e: Endpoint, d: CollabBudget.Deed)
    requires Valid(e) && !d.Receives?
    ensures KeepsIncoming(e.core, CollabBudget.Do(e, d).core)
  {
    match d
    case ReservesPacket(id, verdict, connected, now) =>
      if Reserve(e, id, verdict, connected, now).Some? {
        ReserveTakesNothing(e, id, verdict, connected, now);
      }
    case Submits(id, stored, connected, now) =>
      if Submit(e, id, stored, connected, now).Some? {
        SubmitTakesNothing(e, id, stored, connected, now);
      }
    case Revokes =>
    case _ => CollabBudget.PlainDeed(e, d);
  }

  /** Every arrival among the deeds comes at a clock value past `now` and an open permit. */
  ghost predicate ArriveOpen(e: Endpoint, deeds: seq<CollabBudget.Deed>, now: Instant) {
    forall i :: 0 <= i < |deeds| && deeds[i].Receives? ==>
      now <= deeds[i].arrival.now && PermitOpen(CollabBudget.DoAll(e, deeds[..i]).core.c, deeds[i].arrival.now)
  }

  /** A stall lasts as long as the standing permit: whatever the peer sends and the endpoint
      itself does meanwhile, in any order, the endpoint takes in nothing. */
  lemma {:induction false} StallLasts(e: Endpoint, k: Key, deeds: seq<CollabBudget.Deed>, now: Instant)
    requires Valid(e) && StalledBy(e.core, k, now) && ArriveOpen(e, deeds, now)
    ensures var f := CollabBudget.DoAll(e, deeds);
      Valid(f) && TakesNothing(e.core, f.core) && StalledBy(f.core, k, now)
    decreases |deeds|
  {
    if deeds == [] {
      assert TakesNothing(e.core, e.core);
    } else {
      var front, d := deeds[..|deeds|-1], deeds[|deeds|-1];
      assert forall i :: 0 <= i < |front| ==> deeds[..i] == front[..i];
      StallLasts(e, k, front, now);
      var before := CollabBudget.DoAll(e, front);
      CollabBudget.DoValid(before, d);
      StallStep(before, k, d, now);
      TakesTrans(e.core, before.core, CollabBudget.Do(before, d).core);
    }
  }

  lemma StallStep(e: Endpoint, k: Key, d: CollabBudget.Deed, now: Instant)
    requires Valid(e) && StalledBy(e.core, k, now)
    requires d.Receives? ==> now <= d.arrival.now && PermitOpen(e.core.c, d.arrival.now)
    ensures TakesNothing(e.core, CollabBudget.Do(e, d).core) && StalledBy(CollabBudget.Do(e, d).core, k, now)
  {
    if d.Receives? {
      DeedBlocked(e, k, d.arrival, now);
      TakesSelf(e.core);
    } else {
      OwnDeedTakesNothing(e, d);
      SoundPieces(e.core);
      StalledIncoming(e.core, k, now);
      StalledOn(e.core, CollabBudget.Do(e, d).core, k, now);
    }
  }

  lemma TakesSelf(core: Core)
    ensures TakesNothing(core, core)
  {
  }

  lemma StalledOn(core: Core, next: Core, k: Key, now: Instant)
    requires KeepsIncoming(core, next) && StalledBy(core, k, now) && !core.events[k].outgoing
    ensures StalledBy(next, k, now)
  {
  }

  lemma StalledIncoming(core: Core, k: Key, now: Instant)
    requires EventsPlaced(core) && PartiesDistinct(core.c) && StalledBy(core, k, now)
    ensures !core.events[k].outgoing
  {
    assert Placed(core.c, k, core.events[k]);
  }

  lemma TakesTrans(a: Core, b: Core, c: Core)
    requires TakesNothing(a, b) && TakesNothing(b, c)
    ensures TakesNothing(a, c)
  {
  }

  lemma DeedBlocked(e: Endpoint, k: Key, a: CollabIncoming.Arrival, now: Instant)
    requires Valid(e) && StalledBy(e.core, k, now) && now <= a.now && PermitOpen(e.core.c, a.now)
    ensures CollabIncoming.Receive(e, a) == e
  {
    SoundPieces(e.core);
    StalledByIs(e.core, k, e.reviews, a.now);
    ArrivalBlocked(e, a, a.now);
  }

  /** It ends with the permit: without an open permit no drain is undone. */
  lemma StallEnds(e: Endpoint, now: Instant)
    requires Valid(e) && !PermitOpen(e.core.c, now)
    ensures Drain(e, now).Some?
  {
    var turn := TurnAt(e.reviews, now);
    var inv := (x: Core) => Sound(x) && !PermitOpen(x.c, now);
    var rank := (x: Core) => MAX_EVENTS - x.c.inSeq;
    forall x | inv(x) && turn(x).Take? ensures inv(turn(x).core) && rank(turn(x).core) < rank(x) && rank(x) > 0 {
      SlotBound(x, e.reviews, now);
      TakeKeeps(x, e.reviews, now);
      PermitKept(x, turn(x).core, turn(x).key, now);
    }
    forall n: nat ensures !PermitOpen(TakeTurns(e.core, turn, n).c, now) {
      TurnInduction(e.core, turn, n, inv, rank);
    }
    DrainAborts(e, now);
  }

  // ---- One clock: nothing stalls ----

  predicate NotExpired(r: Record, now: Instant) {
    !r.outgoing && r.status.Buffered? ==> r.packet.expiresAt > now || r.packet.kind.Agree?
  }

  /** No waiting event has expired. */
  ghost predicate Fresh(core: Core, now: Instant) {
    forall k :: k in core.events ==> NotExpired(core.events[k], now)
  }

  lemma FreshTurn(core: Core, reviews: map<Packet, Review>, now: Instant)
    requires EventsPlaced(core) && CursorsFit(core) && PartiesDistinct(core.c) && Fresh(core, now)
    ensures !Stalled(core, reviews, now)
    ensures NextTurn(core, reviews, now).Take? ==> Fresh(NextTurn(core, reviews, now).core, now)
  {
    if NextTurn(core, reviews, now).Take? {
      FreshNext(core, reviews, now);
      TurnCases(core, reviews, now);
      FreshTaken(core, NextTurn(core, reviews, now), now);
    }
  }

  lemma FreshNext(core: Core, reviews: map<Packet, Review>, now: Instant)
    requires EventsPlaced(core) && PartiesDistinct(core.c) && Fresh(core, now)
    ensures !Stalled(core, reviews, now)
  {
    if HasSlot(core.events, core.c.peer, core.c.inSeq + 1) {
      var k := SlotKey(core.events, core.c.peer, core.c.inSeq + 1);
      assert Placed(core.c, k, core.events[k]) && NotExpired(core.events[k], now);
    }
  }

  lemma FreshTaken(core: Core, turn: Turn, now: Instant)
    requires EventsPlaced(core) && CursorsFit(core) && PartiesDistinct(core.c) && Fresh(core, now) && turn.Take?
    requires if turn.reason.WasApplied? then Applies(core, turn.key, now, false, turn.core)
             else Rejects(core, turn.key, turn.core)
    ensures Fresh(turn.core, now)
  {
    if turn.reason.WasApplied? {
      AppliesFrame(core, turn.key, now, false, turn.core);
    } else {
      RejectRecords(core, turn.key, turn.core);
    }
    forall j | j in turn.core.events ensures NotExpired(turn.core.events[j], now) {
      assert NotExpired(core.events[j], now);
    }
  }

  lemma FreshDrains(e: Endpoint, now: Instant)
    requires Valid(e) && Fresh(e.core, now)
    ensures Drain(e, now).Some? && Fresh(Drain(e, now).value.core, now)
    ensures Drain(e, now).value.core == CoreDrain(e.core, e.reviews, now)
  {
    var turn := TurnAt(e.reviews, now);
    var inv := (x: Core) => Sound(x) && Fresh(x, now);
    var rank := (x: Core) => MAX_EVENTS - x.c.inSeq;
    forall x | inv(x) && turn(x).Take? ensures inv(turn(x).core) && rank(turn(x).core) < rank(x) && rank(x) > 0 {
      SlotBound(x, e.reviews, now);
      TakeKeeps(x, e.reviews, now);
      FreshTurn(x, e.reviews, now);
    }
    forall n: nat ensures inv(TakeTurns(e.core, turn, n)) && !Stalled(TakeTurns(e.core, turn, n), e.reviews, now) {
      TurnInduction(e.core, turn, n, inv, rank);
      FreshTurn(TakeTurns(e.core, turn, n), e.reviews, now);
    }
    DrainAborts(e, now);
    DrainKeeps(e, now);
    LoopCore(e, now);
  }

  lemma AdmitFresh(core: Core, p: Packet, now: Instant)
    requires Fresh(core, now) && Admit(core, p, now).Done? && !IsSync(p.kind)
    ensures Fresh(Admit(core, p, now).value, now)
  {
    var next := Admit(core, p, now).value;
    forall k | k in next.events ensures NotExpired(next.events[k], now) {
      assert k in core.events ==> NotExpired(core.events[k], now);
    }
  }

  lemma BoundIs(e: Endpoint, p: Packet, next: Core, now: Instant)
    requires FromPeer(e.core.c, p) && !IsSync(p.kind) && Admit(e.core, p, now) == Done(next)
    ensures IngestBound(e, p, now) == Done(e.(core := next))
    ensures IngestRecord(e, p, now) == Drain(e.(core := next), now)
  {
  }

  lemma StoredDrains(e: Endpoint, now: Instant)
    requires Valid(e) && Fresh(e.core, now)
    ensures var r := Drain(e, now);
      && r.Some? && Valid(r.value) && r.value.reviews == e.reviews && Fresh(r.value.core, now)
      && r.value.core == CoreDrain(e.core, e.reviews, now)
      && Reached(e.core, r.value.core) && AtRest(r.value.core, e.reviews, now)
  {
    FreshDrains(e, now);
    DrainKeeps(e, now);
    CoreDrainKeeps(e.core, e.reviews, now);
  }

  // ---- A stall that the peer's own traffic brings about ----

  const EARLY := Packet(42, OtherId(2), Receipt, 2, 1, 2, Some(OtherId(1)), 0, 100,
                        ReceiptBody(OtherId(9), OtherEvent(0), ReportsApplied))
  const JOINING := Packet(42, OtherId(1), Join, 2, 1, 1, None, 0, 100000, OpeningBody(7, true))

  lemma ExampleOpens() returns (e: Endpoint)
    ensures Valid(e) && e.core.events.Keys == {OPENING} && e.reviews == map[]
    ensures e.core.events[OPENING].outgoing
    ensures e.core.c == NewCollab(42, 1, 2, 1, 7).(permit := Some(Permit(186400, MAX_MAINTENANCE, 0, false)),
                                                   outSeq := 1, lastOut := Some(EventOf(UserOp(0))))
  {
    var task := Task(true, 100000, 0, 7, 5, 0, 0);
    assert ValidEvent(Packet(42, EventOf(UserOp(0)), Invite, 1, 2, 1, None, 0, 100000, OpeningBody(7, true)));
    e := Open(1, task, 42, 0, 2, None, 0).value;
    OpenValid(1, task, 42, 0, 2, None, 0);
  }

  const OPENING := Key(1, EventOf(UserOp(0)))

  /** Storing an event beside the invitation. */
  lemma ExampleStores(core: Core, p: Packet, status: Status, now: Instant)
    requires EventsPlaced(core) && core.c.local == 1 && core.c.peer == 2
    requires OPENING in core.events && core.events[OPENING].outgoing
    requires forall k :: k in core.events ==> k == OPENING || (k == KeyOf(EARLY) && core.events[k].packet == EARLY)
    requires p == JOINING || (p == EARLY && KeyOf(EARLY) !in core.events)
    requires AdmittedStatus(p, now) == status
    ensures Admit(core, p, now) == Done(core.(events := core.events[KeyOf(p) := Record(p, status, false, None)]))
  {
    assert Placed(core.c, OPENING, core.events[OPENING]);
  }

  lemma ExampleAdmits(e: Endpoint, next: Core)
    requires EventsPlaced(e.core) && e.core.c.id == 42 && e.core.c.local == 1 && e.core.c.peer == 2
    requires e.core.events.Keys == {OPENING} && e.core.events[OPENING].outgoing
    requires next == e.core.(events := e.core.events[KeyOf(EARLY) := Record(EARLY, Buffered, false, None)])
    ensures Admit(e.core, EARLY, 10) == Done(next) && IngestRecord(e, EARLY, 10) == Drain(e.(core := next), 10)
    ensures Fresh(next, 10) && (e.core.c.inSeq == 0 ==> NextTurn(next, e.reviews, 10).Idle?)
  {
    ExampleStores(e.core, EARLY, Buffered, 10);
    BoundIs(e, EARLY, next, 10);
    AdmitFresh(e.core, EARLY, 10);
  }

  /** The early receipt is buffered as a gap. */
  lemma ExampleBuffers(e: Endpoint) returns (f: Endpoint)
    requires Valid(e) && e.core.c.id == 42 && e.core.c.local == 1 && e.core.c.peer == 2 && e.core.c.inSeq == 0
    requires e.core.events.Keys == {OPENING} && e.core.events[OPENING].outgoing
    ensures IngestRecord(e, EARLY, 10) == Some(f) && Valid(f) && f.reviews == e.reviews
    ensures f.core == e.core.(events := e.core.events[KeyOf(EARLY) := Record(EARLY, Buffered, false, None)])
  {
    var next := e.core.(events := e.core.events[KeyOf(EARLY) := Record(EARLY, Buffered, false, None)]);
    SoundPieces(e.core);
    ExampleAdmits(e, next);
    AdmitKeeps(e.core, EARLY, 10);
    OpsFitExtended(e.core, next, e.ops);
    f := StoredRests(e.(core := next), 10);
  }

  /** With nothing in the next slot, draining changes nothing. */
  lemma StoredRests(e: Endpoint, now: Instant) returns (f: Endpoint)
    requires Valid(e) && Fresh(e.core, now) && NextTurn(e.core, e.reviews, now).Idle?
    ensures Drain(e, now) == Some(f) && Valid(f) && f.reviews == e.reviews && f.core == e.core
  {
    StoredDrains(e, now);
    f := Drain(e, now).value;
  }

  lemma JoinTurn(core: Core, reviews: map<Packet, Review>) returns (next: Core)
    requires SlotsUnique(core.events)
    requires core.c.local == 1 && core.c.peer == 2 && core.c.initiator == 1
    requires core.c.topic == 7 && core.c.inSeq == 0 && core.c.lastIn == None
    requires KeyOf(JOINING) in core.events && core.events[KeyOf(JOINING)] == Record(JOINING, Buffered, false, None)
    requires KeyOf(EARLY) in core.events && core.events[KeyOf(EARLY)] == Record(EARLY, Buffered, false, None)
    ensures NextTurn(core, reviews, 200) == Take(KeyOf(JOINING), next, WasApplied)
    ensures KeyOf(EARLY) in next.events && next.events[KeyOf(EARLY)] == Record(EARLY, Buffered, false, None)
    ensures next.c == Advance(core.c, JOINING).(joined := true)
  {
    assert InSlot(core.events, KeyOf(JOINING), 2, 1);
    var k := SlotKey(core.events, 2, 1);
    assert SameSlot(core.events[k].packet, core.events[KeyOf(JOINING)].packet);
    next := NextTurn(core, reviews, 200).core;
  }

  lemma ReceiptTurn(core: Core, reviews: map<Packet, Review>)
    requires SlotsUnique(core.events) && core.c.peer == 2 && core.c.inSeq == 1 && core.c.lastIn == Some(OtherId(1))
    requires KeyOf(EARLY) in core.events && core.events[KeyOf(EARLY)] == Record(EARLY, Buffered, false, None)
    requires PermitOpen(core.c, 200)
    ensures Stalled(core, reviews, 200)
  {
    assert InSlot(core.events, KeyOf(EARLY), 2, 2);
    var j := SlotKey(core.events, 2, 2);
    assert SameSlot(core.events[j].packet, core.events[KeyOf(EARLY)].packet);
  }

  lemma NextSlots(core: Core, reviews: map<Packet, Review>, now: Instant)
    requires Sound(core) && NextTurn(core, reviews, now).Take?
    ensures SlotsUnique(NextTurn(core, reviews, now).core.events)
  {
    TakeKeeps(core, reviews, now);
  }

  /** Storing the join makes it the next turn, and the expired receipt the one after. */
  lemma ExampleTurns(core: Core, next: Core, reviews: map<Packet, Review>)
    requires NextTurn(core, reviews, 200) == Take(KeyOf(JOINING), next, WasApplied) && SlotsUnique(next.events)
    requires next.c.peer == 2 && next.c.inSeq == 1 && next.c.lastIn == Some(OtherId(1)) && PermitOpen(next.c, 200)
    requires KeyOf(EARLY) in next.events && next.events[KeyOf(EARLY)] == Record(EARLY, Buffered, false, None)
    ensures RunsInto(core, TurnAt(reviews, 200), StalledAt(reviews, 200), MAX_EVENTS)
  {
    var turn := TurnAt(reviews, 200);
    ReceiptTurn(next, reviews);
    assert TakeTurns(core, turn, 1) == TakeTurns(next, turn, 0) == next;
    assert StalledAt(reviews, 200)(TakeTurns(core, turn, 1));
  }

  /** The concrete case: a receipt numbered 2 arrives before the join numbered 1 and
      expires while it waits. The join is then refused, although without the receipt the
      same join would be taken in. */
  lemma StallExample() returns (e: Endpoint, f: Endpoint)
    ensures Valid(e) && IngestRecord(e, EARLY, 10) == Some(f)
    ensures IngestRecord(f, JOINING, 200).None?
    ensures IngestRecord(e, JOINING, 200).Some?
  {
    e := ExampleOpens();
    f := ExampleBuffers(e);
    ExampleRefused(f);
    ExampleTaken(e);
  }

  /** The join is stored, and the drain goes on from there. */
  lemma JoiningStored(e: Endpoint) returns (next: Core)
    requires Valid(e) && e.core.c.id == 42 && e.core.c.local == 1 && e.core.c.peer == 2
    requires OPENING in e.core.events && e.core.events[OPENING].outgoing
    requires forall k :: k in e.core.events ==> k == OPENING || (k == KeyOf(EARLY) && e.core.events[k].packet == EARLY)
    ensures next == e.core.(events := e.core.events[KeyOf(JOINING) := Record(JOINING, Buffered, false, None)])
    ensures Valid(e.(core := next)) && IngestRecord(e, JOINING, 200) == Drain(e.(core := next), 200)
    ensures Admit(e.core, JOINING, 200) == Done(next)
  {
    SoundPieces(e.core);
    ExampleStores(e.core, JOINING, Buffered, 200);
    next := Admit(e.core, JOINING, 200).value;
    BoundIs(e, JOINING, next, 200);
    AdmitKeeps(e.core, JOINING, 200);
    OpsFitExtended(e.core, next, e.ops);
  }

  lemma ExampleTaken(e: Endpoint)
    requires Valid(e) && e.core.c.id == 42 && e.core.c.local == 1 && e.core.c.peer == 2
    requires e.core.events.Keys == {OPENING} && e.core.events[OPENING].outgoing
    ensures IngestRecord(e, JOINING, 200).Some?
  {
    var next := JoiningStored(e);
    SoundPieces(e.core);
    OpeningFresh(e.core, next);
    StoredDrains(e.(core := next), 200);
  }

  lemma OpeningFresh(core: Core, next: Core)
    requires EventsPlaced(core) && core.events.Keys == {OPENING} && core.events[OPENING].outgoing
    requires next == core.(events := core.events[KeyOf(JOINING) := Record(JOINING, Buffered, false, None)])
    ensures Fresh(next, 200)
  {
    assert Placed(core.c, OPENING, core.events[OPENING]);
  }

  lemma ExampleRuns(core: Core, reviews: map<Packet, Review>)
    requires Sound(core) && core.c.local == 1 && core.c.peer == 2 && core.c.initiator == 1
    requires core.c.topic == 7 && core.c.inSeq == 0 && core.c.lastIn == None && PermitOpen(core.c, 200)
    requires KeyOf(EARLY) in core.events && core.events[KeyOf(EARLY)] == Record(EARLY, Buffered, false, None)
    requires KeyOf(JOINING) in core.events && core.events[KeyOf(JOINING)] == Record(JOINING, Buffered, false, None)
    ensures RunsInto(core, TurnAt(reviews, 200), StalledAt(reviews, 200), MAX_EVENTS)
  {
    var next := JoinTurn(core, reviews);
    NextSlots(core, reviews, 200);
    ExampleTurns(core, next, reviews);
  }

  lemma ExampleRefused(f: Endpoint)
    requires Valid(f) && f.core.c.id == 42 && f.core.c.local == 1 && f.core.c.peer == 2 && f.core.c.initiator == 1
    requires f.core.c.topic == 7 && f.core.c.inSeq == 0 && f.core.c.lastIn == None && PermitOpen(f.core.c, 200)
    requires f.core.events.Keys == {OPENING, KeyOf(EARLY)}
    requires f.core.events[KeyOf(EARLY)] == Record(EARLY, Buffered, false, None) && f.core.events[OPENING].outgoing
    ensures IngestRecord(f, JOINING, 200).None?
  {
    var next := JoiningStored(f);
    ExampleRuns(next, f.reviews);
    DrainAborts(f.(core := next), 200);
  }
}
