/** The drain of the ordered stream: its bound, when it fails, and its independence of
    the order in which events arrive. */
module CollabOrder {
  import opened Basics
  import opened CollabTypes
  import opened CollabReducer
  import opened CollabInbox
  import opened CollabInvariant
  import opened CollabSteps

  // ---- The drain on the deciding facts alone ----

  ghost function TurnAt(reviews: map<Packet, Review>, now: Instant): Core -> Turn {
    (core: Core) => NextTurn(core, reviews, now)
  }

  ghost function TakeTurns(core: Core, turn: Core -> Turn, fuel: nat): Core
    decreases fuel
  {
    if fuel == 0 || !turn(core).Take? then core else TakeTurns(turn(core).core, turn, fuel - 1)
  }

  ghost function CoreDrain(core: Core, reviews: map<Packet, Review>, now: Instant): Core {
    TakeTurns(core, TurnAt(reviews, now), MAX_EVENTS)
  }

  ghost predicate AtRest(core: Core, reviews: map<Packet, Review>, now: Instant) {
    !NextTurn(core, reviews, now).Take?
  }

  lemma SlotBound(core: Core, reviews: map<Packet, Review>, now: Instant)
    requires Sound(core) && !AtRest(core, reviews, now)
    ensures core.c.inSeq + 1 <= MAX_EVENTS
  {
    TakeKeeps(core, reviews, now);
    var k := NextTurn(core, reviews, now).key;
    assert Placed(core.c, k, core.events[k]);
  }

  /** What one turn keeps, all turns keep; they come to rest when a rank decreases. */
  lemma {:induction false} TurnInduction(core: Core, turn: Core -> Turn, fuel: nat, inv: Core -> bool, rank: Core -> int)
    requires forall x :: inv(x) && turn(x).Take? ==> inv(turn(x).core) && rank(turn(x).core) < rank(x) && rank(x) > 0
    requires inv(core)
    ensures inv(TakeTurns(core, turn, fuel))
    ensures fuel >= rank(core) ==> !turn(TakeTurns(core, turn, fuel)).Take?
    decreases fuel
  {
    if fuel == 0 || !turn(core).Take? {
    } else {
      TurnInduction(turn(core).core, turn, fuel - 1, inv, rank);
    }
  }

  lemma {:induction false} MoreFuel(core: Core, turn: Core -> Turn, n: nat, fuel: nat)
    requires n <= fuel && !turn(TakeTurns(core, turn, n)).Take?
    ensures TakeTurns(core, turn, fuel) == TakeTurns(core, turn, n)
    decreases fuel
  {
    if !turn(core).Take? {
    } else {
      MoreFuel(turn(core).core, turn, n - 1, fuel - 1);
    }
  }

  lemma TurnsKeep(core: Core, reviews: map<Packet, Review>, now: Instant, fuel: nat)
    requires Sound(core)
    ensures Sound(TakeTurns(core, TurnAt(reviews, now), fuel))
    ensures fuel >= MAX_EVENTS - core.c.inSeq ==> AtRest(TakeTurns(core, TurnAt(reviews, now), fuel), reviews, now)
  {
    var inv := (x: Core) => Sound(x);
    var rank := (x: Core) => MAX_EVENTS - x.c.inSeq;
    var turn := TurnAt(reviews, now);
    forall x | inv(x) && turn(x).Take? ensures inv(turn(x).core) && rank(turn(x).core) < rank(x) && rank(x) > 0 {
      SlotBound(x, reviews, now);
      TakeKeeps(x, reviews, now);
    }
    TurnInduction(core, turn, fuel, inv, rank);
  }

  /** The source's bound on the loop never cuts a drain short: after `MAX_EVENTS` turns no
      event is left that could be taken, and a larger bound changes nothing. */
  lemma DrainComplete(core: Core, reviews: map<Packet, Review>, now: Instant, fuel: nat)
    requires Sound(core) && fuel >= MAX_EVENTS
    ensures AtRest(CoreDrain(core, reviews, now), reviews, now) && Sound(CoreDrain(core, reviews, now))
    ensures TakeTurns(core, TurnAt(reviews, now), fuel) == CoreDrain(core, reviews, now)
  {
    TurnsKeep(core, reviews, now, MAX_EVENTS);
    MoreFuel(core, TurnAt(reviews, now), MAX_EVENTS, fuel);
  }

  lemma {:induction false} LoopTurns(e: Endpoint, step: Endpoint -> Step, turn: Core -> Turn, fuel: nat, inv: Endpoint -> bool)
    requires forall x :: inv(x) && !step(x).Abort? ==>
      && inv(step(x).e) && (step(x).Go? <==> turn(x.core).Take?)
      && step(x).e.core == if turn(x.core).Take? then turn(x.core).core else x.core
    requires inv(e) && Iterate(e, step, fuel).Some?
    ensures Iterate(e, step, fuel).value.core == TakeTurns(e.core, turn, fuel)
    decreases fuel
  {
    if fuel == 0 || !step(e).Go? {
    } else {
      LoopTurns(step(e).e, step, turn, fuel - 1, inv);
    }
  }

  /** The endpoint's drain decides events exactly as the drain on the facts alone. */
  lemma LoopCore(e: Endpoint, now: Instant)
    requires Valid(e) && DrainLoop(e, now, MAX_EVENTS).Some?
    ensures DrainLoop(e, now, MAX_EVENTS).value.core == CoreDrain(e.core, e.reviews, now)
  {
    var inv := (x: Endpoint) => Valid(x) && x.reviews == e.reviews;
    var step, turn := StepAt(now), TurnAt(e.reviews, now);
    forall x | inv(x) && !step(x).Abort?
      ensures inv(step(x).e) && (step(x).Go? <==> turn(x.core).Take?)
      ensures step(x).e.core == if turn(x.core).Take? then turn(x.core).core else x.core
    {
      StepKeeps(x, now);
      if turn(x.core).Take? {
        TakeKeeps(x.core, x.reviews, now);
      }
      StepOps(x, now);
    }
    LoopTurns(e, step, turn, MAX_EVENTS, inv);
  }

  // ---- More stored events do not change a decision ----

  /** `core` with further events of the peer stored beside it: ordered ones undecided or
      refused, recovery ones with any status. */
  function Plus(core: Core, extra: map<Key, Record>): Core {
    core.(events := core.events + extra)
  }

  ghost predicate Spare(core: Core, extra: map<Key, Record>) {
    forall k :: k in extra ==>
      && k !in core.events && k.sender == core.c.peer && extra[k].packet.sender == core.c.peer
      && (extra[k].status.Applied? ==> IsSync(extra[k].packet.kind))
      && (forall j :: j in core.events ==> !SameSlot(core.events[j].packet, extra[k].packet))
  }

  lemma PlusUpdate(events: map<Key, Record>, extra: map<Key, Record>, k: Key, r: Record)
    requires k !in extra
    ensures events[k := r] + extra == (events + extra)[k := r]
  {
  }

  lemma WithdrawnPlus(core: Core, extra: map<Key, Record>, actor: Urn, accept: EventId, upTo: int)
    requires Spare(core, extra)
    ensures WithdrawnBy(core.events + extra, actor, accept, upTo) <==> WithdrawnBy(core.events, actor, accept, upTo)
  {
    if WithdrawnBy(core.events, actor, accept, upTo) {
      var k :| k in core.events && Withdraws(core.events[k], actor, accept, upTo);
      assert k in core.events + extra && Withdraws((core.events + extra)[k], actor, accept, upTo);
    }
  }

  lemma {:induction false} CheckRefsPlus(core: Core, extra: map<Key, Record>, f: Formation, refs: seq<AcceptanceRef>, seen: set<Urn>)
    requires Spare(core, extra) && CheckRefs(core, f, refs, seen) != NotYet
    ensures CheckRefs(Plus(core, extra), f, refs, seen) == CheckRefs(core, f, refs, seen)
    decreases |refs|
  {
    if refs == [] {
    } else {
      WithdrawnPlus(core, extra, refs[0].actor, refs[0].eventId, Cursor(core.c, f, refs[0].actor));
      assert CheckRef(Plus(core, extra), f, refs[0], seen) == CheckRef(core, f, refs[0], seen);
      if CheckRef(core, f, refs[0], seen) == Pass {
        CheckRefsPlus(core, extra, f, refs[1..], seen + {refs[0].actor});
      }
    }
  }

  lemma AgreementPlus(core: Core, extra: map<Key, Record>, packet: Packet, now: Instant)
    requires Spare(core, extra) && packet.kind.Agree? && !ApplyCore(core, packet, now, false).Missing?
    ensures ApplyCore(Plus(core, extra), packet, now, false) ==
      match ApplyCore(core, packet, now, false)
      case Done(next) => Done(Plus(next, extra))
      case other => other
  {
    if packet.payload.AgreementBody? {
      var f := packet.payload.agreement.formation;
      if CheckRefs(core, f, f.acceptances, {}) != NotYet {
        CheckRefsPlus(core, extra, f, f.acceptances, {});
      }
    }
  }

  lemma ReceiptPlus(core: Core, extra: map<Key, Record>, packet: Packet, now: Instant)
    requires Spare(core, extra) && packet.kind == Receipt && !ApplyCore(core, packet, now, false).Missing?
    requires packet.recipient == core.c.local && core.c.local != core.c.peer
    ensures ApplyCore(Plus(core, extra), packet, now, false) ==
      match ApplyCore(core, packet, now, false)
      case Done(next) => Done(Plus(next, extra))
      case other => other
  {
    if packet.payload.ReceiptBody? {
      var key := Key(packet.recipient, packet.payload.eventId);
      assert key !in extra;
      if key in core.events {
        PlusUpdate(core.events, extra, key, core.events[key].(receipt := Some(packet.payload)));
      }
    }
  }

  /** A decision other than waiting for evidence survives any further stored events. */
  lemma ApplyPlus(core: Core, extra: map<Key, Record>, packet: Packet, now: Instant)
    requires Spare(core, extra) && !IsSync(packet.kind) && !ApplyCore(core, packet, now, false).Missing?
    requires packet.recipient == core.c.local && core.c.local != core.c.peer
    ensures ApplyCore(Plus(core, extra), packet, now, false) ==
      match ApplyCore(core, packet, now, false)
      case Done(next) => Done(Plus(next, extra))
      case other => other
  {
    match packet.kind
    case Agree => AgreementPlus(core, extra, packet, now);
    case Receipt => ReceiptPlus(core, extra, packet, now);
    case _ =>
  }

  lemma MarkPlus(core: Core, extra: map<Key, Record>, k: Key, status: Status)
    requires k in core.events && k !in extra
    ensures Mark(Plus(core, extra), k, status) == Plus(Mark(core, k, status), extra)
  {
    PlusUpdate(core.events, extra, k, core.events[k].(status := status));
  }

  lemma SlotPlus(core: Core, extra: map<Key, Record>, n: int)
    requires EventsPlaced(core) && SlotsUnique(core.events) && Spare(core, extra) && n > 0
    requires HasSlot(core.events, core.c.peer, n)
    ensures HasSlot(core.events + extra, core.c.peer, n)
    ensures SlotKey(core.events + extra, core.c.peer, n) == SlotKey(core.events, core.c.peer, n)
  {
    var k := SlotKey(core.events, core.c.peer, n);
    assert InSlot(core.events + extra, k, core.c.peer, n);
    var j := SlotKey(core.events + extra, core.c.peer, n);
    assert j in extra ==> SameSlot(core.events[k].packet, extra[j].packet);
    assert SameSlot(core.events[k].packet, (core.events + extra)[j].packet);
  }

  lemma AppliedPlus(core: Core, extra: map<Key, Record>, k: Key, now: Instant)
    requires k in core.events && k !in extra && Spare(core, extra)
    requires !IsSync(core.events[k].packet.kind) && core.events[k].packet.recipient == core.c.local
    requires core.c.local != core.c.peer
    ensures var packet := core.events[k].packet;
      var advanced := core.(c := Advance(core.c, packet));
      match ApplyCore(advanced, packet, now, false)
      case Missing => true
      case Invalid => ApplyCore(Plus(core, extra).(c := advanced.c), packet, now, false) == Invalid
      case Done(after) =>
        && ApplyCore(Plus(core, extra).(c := advanced.c), packet, now, false) == Done(Plus(after, extra))
        && Mark(Plus(after, extra).(c := Advance(after.c, packet)), k, Applied)
             == Plus(Mark(after.(c := Advance(after.c, packet)), k, Applied), extra)
  {
    var packet := core.events[k].packet;
    var advanced := core.(c := Advance(core.c, packet));
    assert Spare(advanced, extra) && Plus(advanced, extra) == Plus(core, extra).(c := advanced.c);
    if !ApplyCore(advanced, packet, now, false).Missing? {
      ApplyPlus(advanced, extra, packet, now);
      if ApplyCore(advanced, packet, now, false).Done? {
        ApplyFrame(advanced, packet, now, false);
        var after := ApplyCore(advanced, packet, now, false).value;
        MarkPlus(after.(c := Advance(after.c, packet)), extra, k, Applied);
      }
    }
  }

  lemma TurnOfPlus(core: Core, extra: map<Key, Record>, k: Key, reviews: map<Packet, Review>, now: Instant)
    requires k in core.events && k !in extra && Spare(core, extra) && TurnOf(core, k, reviews, now).Take?
    requires !IsSync(core.events[k].packet.kind) && core.events[k].packet.recipient == core.c.local
    requires core.c.local != core.c.peer
    ensures var turn := TurnOf(core, k, reviews, now);
      TurnOf(Plus(core, extra), k, reviews, now) == turn.(core := Plus(turn.core, extra))
  {
    AppliedPlus(core, extra, k, now);
    MarkPlus(core.(c := Advance(core.c, core.events[k].packet)), extra, k, Rejected);
  }

  /** The next turn is the same turn when further events are stored. */
  lemma TurnPlus(core: Core, extra: map<Key, Record>, reviews: map<Packet, Review>, now: Instant)
    requires EventsPlaced(core) && SlotsUnique(core.events) && CursorsFit(core) && PartiesDistinct(core.c)
    requires Spare(core, extra) && NextTurn(core, reviews, now).Take?
    ensures var turn := NextTurn(core, reviews, now);
      NextTurn(Plus(core, extra), reviews, now) == turn.(core := Plus(turn.core, extra))
  {
    var k := SlotKey(core.events, core.c.peer, core.c.inSeq + 1);
    SlotPlus(core, extra, core.c.inSeq + 1);
    assert Placed(core.c, k, core.events[k]) && k !in extra;
    TurnOfPlus(core, extra, k, reviews, now);
  }

  lemma SpareAfter(core: Core, next: Core, extra: map<Key, Record>)
    requires Spare(core, extra) && Incoming(core, next) && next.events.Keys == core.events.Keys
    ensures Spare(next, extra)
  {
    forall k, j | k in extra && j in next.events ensures !SameSlot(next.events[j].packet, extra[k].packet) {
      assert FinalKept(core.events[j], next.events[j]);
    }
  }

  /** One turn first or last: the drain with further events ends the same. */
  lemma TurnFirst(core: Core, extra: map<Key, Record>, reviews: map<Packet, Review>, now: Instant)
    requires Sound(core) && Sound(Plus(core, extra)) && Spare(core, extra) && NextTurn(core, reviews, now).Take?
    ensures var next := NextTurn(core, reviews, now).core;
      && Sound(next) && Sound(Plus(next, extra)) && Spare(next, extra)
      && CoreDrain(Plus(next, extra), reviews, now) == CoreDrain(Plus(core, extra), reviews, now)
  {
    var turn, next := TurnAt(reviews, now), NextTurn(core, reviews, now).core;
    TurnPlus(core, extra, reviews, now);
    TakeKeeps(core, reviews, now);
    TakeKeeps(Plus(core, extra), reviews, now);
    SpareAfter(core, next, extra);
    DrainComplete(Plus(core, extra), reviews, now, MAX_EVENTS + 1);
    assert turn(Plus(core, extra)).core == Plus(next, extra);
    assert TakeTurns(Plus(core, extra), turn, MAX_EVENTS + 1) == TakeTurns(Plus(next, extra), turn, MAX_EVENTS);
  }

  lemma {:induction false} DrainFirst(core: Core, extra: map<Key, Record>, turn: Core -> Turn, fuel: nat,
                                      inv: Core -> bool, end: Core -> Core)
    requires forall x :: inv(x) && turn(x).Take? ==>
      inv(turn(x).core) && end(Plus(turn(x).core, extra)) == end(Plus(x, extra))
    requires inv(core)
    ensures end(Plus(TakeTurns(core, turn, fuel), extra)) == end(Plus(core, extra))
    decreases fuel
  {
    if fuel == 0 || !turn(core).Take? {
    } else {
      DrainFirst(turn(core).core, extra, turn, fuel - 1, inv, end);
    }
  }

  /** Draining before further events are stored makes no difference. */
  lemma DrainPlus(core: Core, extra: map<Key, Record>, reviews: map<Packet, Review>, now: Instant)
    requires Sound(core) && Sound(Plus(core, extra)) && Spare(core, extra)
    ensures CoreDrain(Plus(CoreDrain(core, reviews, now), extra), reviews, now) == CoreDrain(Plus(core, extra), reviews, now)
  {
    var turn := TurnAt(reviews, now);
    var inv := (x: Core) => Sound(x) && Sound(Plus(x, extra)) && Spare(x, extra);
    var end := (x: Core) => CoreDrain(x, reviews, now);
    forall x | inv(x) && turn(x).Take?
      ensures inv(turn(x).core) && end(Plus(turn(x).core, extra)) == end(Plus(x, extra))
    {
      TurnFirst(x, extra, reviews, now);
    }
    DrainFirst(core, extra, turn, MAX_EVENTS, inv, end);
  }

  // ---- Any order of arrival ----

  /** Events of the peer with at most one event per number and per identity, also beside
      what is stored. */
  ghost predicate Compatible(core: Core, ps: seq<Packet>) {
    && (forall i :: 0 <= i < |ps| ==> FromPeer(core.c, ps[i]))
    && (forall i, j :: 0 <= i < |ps| && 0 <= j < |ps| && Collide(ps[i], ps[j]) ==> ps[i] == ps[j])
    && (forall i, k :: 0 <= i < |ps| && k in core.events && Collide(core.events[k].packet, ps[i])
          ==> core.events[k].packet == ps[i])
  }

  predicate Collide(p: Packet, q: Packet) {
    KeyOf(p) == KeyOf(q) || SameSlot(p, q)
  }

  /** `past` is an ordered event of the sender of the recovery response `p`. */
  predicate OwnPast(p: Packet, past: Packet) {
    && ValidEvent(past) && past.sender == p.sender && past.recipient == p.recipient
    && past.collab == p.collab && !IsSync(past.kind)
  }

  /** A recovery event that is applied when it is stored. */
  predicate GoodSync(p: Packet) {
    if p.kind.SyncRequest? then p.payload.AfterBody? && 0 <= p.payload.after <= MAX_EVENTS
    else && p.payload.HistoryBody? && |p.payload.events| <= 8
         && forall i :: 0 <= i < |p.payload.events| ==> OwnPast(p, p.payload.events[i])
  }

  /** The status an event gets when it is stored: recovery events are decided at once. */
  function NewStatus(p: Packet, now: Instant): Status {
    if IsSync(p.kind) && AdmittedStatus(p, now).Buffered? then (if GoodSync(p) then Applied else Rejected)
    else AdmittedStatus(p, now)
  }

  function NewRecord(p: Packet, now: Instant): Record {
    Record(p, NewStatus(p, now), false, None)
  }

  /** Store one event; a stored event is immutable. */
  function Store(core: Core, p: Packet, now: Instant): Core {
    if KeyOf(p) in core.events then core else core.(events := core.events[KeyOf(p) := NewRecord(p, now)])
  }

  function StoreAll(core: Core, ps: seq<Packet>, now: Instant): Core
    decreases |ps|
  {
    if ps == [] then core else StoreAll(Store(core, ps[0], now), ps[1..], now)
  }

  function NewRecords(known: set<Key>, ps: seq<Packet>, now: Instant): map<Key, Record> {
    if ps == [] then map[]
    else
      var rest := NewRecords(known, ps[1..], now);
      if KeyOf(ps[0]) in known then rest else rest[KeyOf(ps[0]) := NewRecord(ps[0], now)]
  }

  /** Store one event and drain. */
  ghost function Arrive(core: Core, p: Packet, reviews: map<Packet, Review>, now: Instant): Core {
    CoreDrain(Store(core, p, now), reviews, now)
  }

  ghost function ArriveAll(core: Core, ps: seq<Packet>, reviews: map<Packet, Review>, now: Instant): Core
    decreases |ps|
  {
    if ps == [] then core else ArriveAll(Arrive(core, ps[0], reviews, now), ps[1..], reviews, now)
  }

  lemma {:induction false} NewRecordsAre(known: set<Key>, ps: seq<Packet>, now: Instant, k: Key)
    requires forall i, j :: 0 <= i < |ps| && 0 <= j < |ps| && KeyOf(ps[i]) == KeyOf(ps[j]) ==> ps[i] == ps[j]
    ensures k in NewRecords(known, ps, now) <==> k !in known && exists p :: p in ps && KeyOf(p) == k
    ensures forall p :: p in ps && KeyOf(p) == k && k !in known ==> NewRecords(known, ps, now)[k] == NewRecord(p, now)
  {
    if ps == [] {
    } else {
      NewRecordsAre(known, ps[1..], now, k);
      assert forall p :: p in ps <==> p == ps[0] || p in ps[1..];
    }
  }

  lemma SameNewRecords(known: set<Key>, ps: seq<Packet>, qs: seq<Packet>, now: Instant)
    requires forall p :: p in ps <==> p in qs
    requires forall p, q :: p in ps && q in ps && KeyOf(p) == KeyOf(q) ==> p == q
    ensures NewRecords(known, ps, now) == NewRecords(known, qs, now)
  {
    forall k ensures k in NewRecords(known, ps, now) <==> k in NewRecords(known, qs, now) {
      NewRecordsAre(known, ps, now, k);
      NewRecordsAre(known, qs, now, k);
    }
    forall k | k in NewRecords(known, ps, now)
      ensures k in NewRecords(known, qs, now) && NewRecords(known, ps, now)[k] == NewRecords(known, qs, now)[k]
    {
      NewRecordsAre(known, ps, now, k);
      NewRecordsAre(known, qs, now, k);
      var p :| p in ps && KeyOf(p) == k;
    }
  }

  /** `x` is what some turns make of `core`. */
  ghost predicate Reached(core: Core, x: Core) {
    Sound(x) && Incoming(core, x) && x.events.Keys == core.events.Keys
  }

  lemma TurnMoves(core: Core, x: Core, reviews: map<Packet, Review>, now: Instant)
    requires Reached(core, x) && NextTurn(x, reviews, now).Take?
    ensures Reached(core, NextTurn(x, reviews, now).core)
    ensures x.c.inSeq < NextTurn(x, reviews, now).core.c.inSeq && x.c.inSeq < MAX_EVENTS
  {
    SlotBound(x, reviews, now);
    TakeKeeps(x, reviews, now);
    IncomingTrans(core, x, NextTurn(x, reviews, now).core);
  }

  lemma ReachedSelf(core: Core)
    requires Sound(core)
    ensures Reached(core, core) && core.c.inSeq >= 0
  {
    IncomingSelf(core);
    SoundPieces(core);
  }

  lemma CoreDrainKeeps(core: Core, reviews: map<Packet, Review>, now: Instant)
    requires Sound(core)
    ensures Reached(core, CoreDrain(core, reviews, now)) && AtRest(CoreDrain(core, reviews, now), reviews, now)
  {
    var inv := (x: Core) => Reached(core, x);
    var rank := (x: Core) => MAX_EVENTS - x.c.inSeq;
    var turn := TurnAt(reviews, now);
    forall x | inv(x) && turn(x).Take? ensures inv(turn(x).core) && rank(turn(x).core) < rank(x) && rank(x) > 0 {
      TurnMoves(core, x, reviews, now);
    }
    ReachedSelf(core);
    TurnInduction(core, turn, MAX_EVENTS, inv, rank);
  }

  lemma OneRecord(known: set<Key>, p: Packet, now: Instant)
    ensures NewRecords(known, [p], now) == if KeyOf(p) in known then map[] else map[KeyOf(p) := NewRecord(p, now)]
  {
    assert [p][1..] == [];
  }

  /** A compatible event does not take the number of another. */
  lemma NumberFree(core: Core, ps: seq<Packet>, p: Packet)
    requires EventsPlaced(core) && Compatible(core, ps) && p in ps && KeyOf(p) !in core.events
    ensures !SlotTaken(core.events, p) && FromPeer(core.c, p)
  {
    var i :| 0 <= i < |ps| && ps[i] == p;
    forall k | k in core.events ensures !SameSlot(core.events[k].packet, p) {
      assert Placed(core.c, k, core.events[k]);
      assert !Collide(core.events[k].packet, ps[i]);
    }
  }

  /** Storing one compatible event keeps the rest compatible. */
  lemma StoreCompatible(core: Core, ps: seq<Packet>, now: Instant)
    requires EventsPlaced(core) && Compatible(core, ps) && ps != []
    ensures Store(core, ps[0], now) == Plus(core, NewRecords(core.events.Keys, [ps[0]], now))
    ensures Compatible(Store(core, ps[0], now), ps[1..])
    ensures Store(core, ps[0], now).events.Keys == core.events.Keys + {KeyOf(ps[0])}
  {
    var p := ps[0];
    OneRecord(core.events.Keys, p, now);
    if KeyOf(p) in core.events {
      assert core.events + map[] == core.events;
    } else {
      assert core.events + map[KeyOf(p) := NewRecord(p, now)] == core.events[KeyOf(p) := NewRecord(p, now)];
    }
    var next := Store(core, p, now);
    forall i, k | 0 <= i < |ps[1..]| && k in next.events && Collide(next.events[k].packet, ps[1..][i])
      ensures next.events[k].packet == ps[1..][i]
    {
      assert ps[1..][i] == ps[i+1];
    }
  }

  /** An ordered event that is compatible is admitted, never refused. */
  lemma AdmitIsStore(core: Core, ps: seq<Packet>, p: Packet, now: Instant)
    requires EventsPlaced(core) && Compatible(core, ps) && p in ps && !IsSync(p.kind)
    ensures Admit(core, p, now) == Done(Store(core, p, now))
  {
    if KeyOf(p) in core.events {
      var i :| 0 <= i < |ps| && ps[i] == p;
      assert Placed(core.c, KeyOf(p), core.events[KeyOf(p)]);
      assert Collide(core.events[KeyOf(p)].packet, ps[i]);
    } else {
      NumberFree(core, ps, p);
    }
  }

  lemma StoreKeeps(core: Core, ps: seq<Packet>, p: Packet, now: Instant)
    requires Sound(core) && Compatible(core, ps) && p in ps
    ensures Sound(Store(core, p, now)) && Incoming(core, Store(core, p, now))
  {
    if KeyOf(p) in core.events {
      IncomingSelf(core);
    } else {
      NumberFree(core, ps, p);
      AdmitKeeps(core, p, now);
      var next := Admit(core, p, now).value;
      if IsSync(p.kind) && AdmittedStatus(p, now).Buffered? {
        SyncStoreKeeps(core, next, p, now);
      }
    }
  }

  lemma SyncStoreKeeps(core: Core, next: Core, p: Packet, now: Instant)
    requires Sound(next) && Incoming(core, next) && KeyOf(p) !in core.events && IsSync(p.kind)
    requires AdmittedStatus(p, now).Buffered?
    requires next == core.(events := core.events[KeyOf(p) := Record(p, Buffered, false, None)])
    ensures Sound(Store(core, p, now)) && Incoming(core, Store(core, p, now))
  {
    MarkStored(core, p, NewStatus(p, now));
    SyncMarked(next, KeyOf(p), NewStatus(p, now), Store(core, p, now));
    IncomingTrans(core, next, Store(core, p, now));
  }

  lemma MarkStored(core: Core, p: Packet, status: Status)
    ensures var next := core.(events := core.events[KeyOf(p) := Record(p, Buffered, false, None)]);
      Mark(next, KeyOf(p), status) == core.(events := core.events[KeyOf(p) := Record(p, status, false, None)])
  {
    var next := core.(events := core.events[KeyOf(p) := Record(p, Buffered, false, None)]);
    assert Mark(next, KeyOf(p), status).events == core.events[KeyOf(p) := Record(p, status, false, None)];
  }

  lemma NothingMore(core: Core)
    ensures Plus(core, map[]) == core && Incoming(core, core)
  {
    assert core.events + map[] == core.events;
    IncomingSelf(core);
  }

  lemma {:induction false} StoreAllIs(core: Core, ps: seq<Packet>, now: Instant)
    requires Sound(core) && Compatible(core, ps)
    ensures StoreAll(core, ps, now) == Plus(core, NewRecords(core.events.Keys, ps, now))
    ensures Sound(StoreAll(core, ps, now)) && Incoming(core, StoreAll(core, ps, now))
    decreases |ps|
  {
    if ps == [] {
      NothingMore(core);
    } else {
      var next := Store(core, ps[0], now);
      StoreCompatible(core, ps, now);
      StoreKeeps(core, ps, ps[0], now);
      StoreAllIs(next, ps[1..], now);
      PlusTwice(core, ps, now);
      IncomingTrans(core, next, StoreAll(core, ps, now));
    }
  }

  /** The source stores a history of compatible ordered events in just this way. */
  lemma {:induction false} AdmitAllIs(core: Core, ps: seq<Packet>, now: Instant)
    requires Sound(core) && Compatible(core, ps) && forall i :: 0 <= i < |ps| ==> !IsSync(ps[i].kind)
    ensures AdmitAll(core, ps, now) == Done(StoreAll(core, ps, now))
    decreases |ps|
  {
    if ps == [] {
    } else {
      AdmitIsStore(core, ps, ps[0], now);
      StoreCompatible(core, ps, now);
      StoreKeeps(core, ps, ps[0], now);
      AdmitAllIs(Store(core, ps[0], now), ps[1..], now);
    }
  }

  /** Storing one event and then the rest stores the same records. */
  lemma PlusTwice(core: Core, ps: seq<Packet>, now: Instant)
    requires EventsPlaced(core) && Compatible(core, ps) && ps != []
    ensures var next := Store(core, ps[0], now);
      Plus(next, NewRecords(next.events.Keys, ps[1..], now)) == Plus(core, NewRecords(core.events.Keys, ps, now))
  {
    var next := Store(core, ps[0], now);
    var left := next.events + NewRecords(next.events.Keys, ps[1..], now);
    var right := core.events + NewRecords(core.events.Keys, ps, now);
    forall k ensures k in left <==> k in right {
      RecordsOf(core, ps, now, k);
    }
    forall k | k in left ensures left[k] == right[k] {
      RecordsOf(core, ps, now, k);
    }
    assert left == right;
  }

  lemma RecordsOf(core: Core, ps: seq<Packet>, now: Instant, k: Key)
    requires EventsPlaced(core) && Compatible(core, ps) && ps != []
    ensures var next := Store(core, ps[0], now);
      var left := next.events + NewRecords(next.events.Keys, ps[1..], now);
      var right := core.events + NewRecords(core.events.Keys, ps, now);
      (k in left <==> k in right) && (k in left ==> left[k] == right[k])
  {
    StoreCompatible(core, ps, now);
    var next := Store(core, ps[0], now);
    assert forall i, j :: 0 <= i < |ps| && 0 <= j < |ps| && KeyOf(ps[i]) == KeyOf(ps[j]) ==> Collide(ps[i], ps[j]);
    NewRecordsAre(core.events.Keys, ps, now, k);
    NewRecordsAre(next.events.Keys, ps[1..], now, k);
    assert forall p :: p in ps <==> p == ps[0] || p in ps[1..];
    assert next.events == core.events + NewRecords(core.events.Keys, [ps[0]], now);
    assert [ps[0]][1..] == [];
  }

  lemma CompatibleAfter(core: Core, next: Core, ps: seq<Packet>)
    requires Compatible(core, ps) && Incoming(core, next) && next.events.Keys == core.events.Keys
    ensures Compatible(next, ps)
  {
    forall i, k | 0 <= i < |ps| && k in next.events && Collide(next.events[k].packet, ps[i])
      ensures next.events[k].packet == ps[i]
    {
      assert FinalKept(core.events[k], next.events[k]);
    }
  }

  /** One event stored and drained: where the rest arrives. */
  lemma FirstArrival(core: Core, ps: seq<Packet>, reviews: map<Packet, Review>, now: Instant) returns (next: Core)
    requires Sound(core) && Compatible(core, ps) && ps != []
    ensures next == Store(core, ps[0], now) && Sound(next) && Compatible(next, ps[1..])
    ensures var drained := CoreDrain(next, reviews, now);
      && drained.events.Keys == next.events.Keys
      && Sound(drained) && AtRest(drained, reviews, now) && Compatible(drained, ps[1..])
  {
    StoreCompatible(core, ps, now);
    StoreKeeps(core, ps, ps[0], now);
    next := Store(core, ps[0], now);
    CoreDrainKeeps(next, reviews, now);
    CompatibleAfter(next, CoreDrain(next, reviews, now), ps[1..]);
  }

  /** Draining before the rest is stored makes no difference. */
  lemma DrainLater(core: Core, ps: seq<Packet>, reviews: map<Packet, Review>, now: Instant)
    requires Sound(core) && Compatible(core, ps)
    ensures var extra := NewRecords(core.events.Keys, ps, now);
      CoreDrain(Plus(CoreDrain(core, reviews, now), extra), reviews, now) == CoreDrain(Plus(core, extra), reviews, now)
  {
    StoredSpare(core, ps, now);
    DrainPlus(core, NewRecords(core.events.Keys, ps, now), reviews, now);
  }

  lemma RestStays(core: Core, reviews: map<Packet, Review>, now: Instant)
    requires AtRest(core, reviews, now)
    ensures CoreDrain(Plus(core, map[]), reviews, now) == core
  {
    assert core.events + map[] == core.events;
  }

  /** Storing and draining event by event ends where storing everything and draining
      once ends. */
  lemma {:induction false} ArriveAllIs(core: Core, ps: seq<Packet>, reviews: map<Packet, Review>, now: Instant)
    requires Sound(core) && AtRest(core, reviews, now) && Compatible(core, ps)
    ensures ArriveAll(core, ps, reviews, now)
         == CoreDrain(Plus(core, NewRecords(core.events.Keys, ps, now)), reviews, now)
    decreases |ps|
  {
    if ps == [] {
      RestStays(core, reviews, now);
    } else {
      var next := FirstArrival(core, ps, reviews, now);
      ArriveAllIs(CoreDrain(next, reviews, now), ps[1..], reviews, now);
      DrainLater(next, ps[1..], reviews, now);
      PlusTwice(core, ps, now);
    }
  }

  lemma StoredSpare(core: Core, ps: seq<Packet>, now: Instant)
    requires Sound(core) && Compatible(core, ps)
    ensures Spare(core, NewRecords(core.events.Keys, ps, now)) && Sound(Plus(core, NewRecords(core.events.Keys, ps, now)))
  {
    var extra := NewRecords(core.events.Keys, ps, now);
    StoreAllIs(core, ps, now);
    assert forall i, j :: 0 <= i < |ps| && 0 <= j < |ps| && KeyOf(ps[i]) == KeyOf(ps[j]) ==> Collide(ps[i], ps[j]);
    forall k | k in extra ensures SpareRecord(core, k, extra[k]) {
      NewRecordsAre(core.events.Keys, ps, now, k);
      var p :| p in ps && KeyOf(p) == k;
      FreshSpare(core, ps, p, now);
    }
    assert Spare(core, extra);
  }

  predicate SpareRecord(core: Core, k: Key, r: Record) {
    && k !in core.events && k.sender == core.c.peer && r.packet.sender == core.c.peer
    && (r.status.Applied? ==> IsSync(r.packet.kind))
    && forall j :: j in core.events ==> !SameSlot(core.events[j].packet, r.packet)
  }

  lemma FreshSpare(core: Core, ps: seq<Packet>, p: Packet, now: Instant)
    requires EventsPlaced(core) && Compatible(core, ps) && p in ps && KeyOf(p) !in core.events
    ensures SpareRecord(core, KeyOf(p), NewRecord(p, now))
  {
    var i :| 0 <= i < |ps| && ps[i] == p;
    forall j | j in core.events ensures !SameSlot(core.events[j].packet, p) {
      assert Placed(core.c, j, core.events[j]);
      assert !Collide(core.events[j].packet, ps[i]);
    }
  }

  lemma CompatibleOrder(core: Core, ps: seq<Packet>, qs: seq<Packet>)
    requires Compatible(core, ps) && forall p :: p in qs ==> p in ps
    ensures Compatible(core, qs)
  {
    forall i, j | 0 <= i < |qs| && 0 <= j < |qs| && Collide(qs[i], qs[j]) ensures qs[i] == qs[j] {
      assert qs[i] in ps && qs[j] in ps;
      var a :| 0 <= a < |ps| && ps[a] == qs[i];
      var b :| 0 <= b < |ps| && ps[b] == qs[j];
      assert Collide(ps[a], ps[b]);
    }
    forall i | 0 <= i < |qs| ensures FromPeer(core.c, qs[i]) {
      assert qs[i] in ps;
    }
    forall i, k | 0 <= i < |qs| && k in core.events && Collide(core.events[k].packet, qs[i])
      ensures core.events[k].packet == qs[i]
    {
      assert qs[i] in ps;
    }
  }

  lemma StoredAnyOrder(core: Core, ps: seq<Packet>, qs: seq<Packet>, now: Instant)
    requires Sound(core) && Compatible(core, ps) && forall p :: p in ps <==> p in qs
    ensures Compatible(core, qs) && StoreAll(core, ps, now) == StoreAll(core, qs, now)
  {
    CompatibleOrder(core, ps, qs);
    assert forall p, q :: p in ps && q in ps && KeyOf(p) == KeyOf(q) ==> Collide(p, q);
    SameNewRecords(core.events.Keys, ps, qs, now);
    StoreAllIs(core, ps, now);
    StoreAllIs(core, qs, now);
  }

  /** Order independence: at one clock, under fixed reviews and with at most one event
      per number, any two arrival orders of the same events of the peer, with any
      repetitions, leave the same facts: cursors, terms, acceptances, agreement, joined
      flag and the status of every event; namely those that storing all of them and then
      draining in order gives. */
  lemma OrderIndependence(core: Core, ps: seq<Packet>, qs: seq<Packet>, reviews: map<Packet, Review>, now: Instant)
    requires Sound(core) && AtRest(core, reviews, now) && Compatible(core, ps)
    requires forall p :: p in ps <==> p in qs
    ensures ArriveAll(core, ps, reviews, now) == ArriveAll(core, qs, reviews, now)
    ensures Compatible(core, qs)
    ensures ArriveAll(core, ps, reviews, now) == CoreDrain(StoreAll(core, ps, now), reviews, now)
  {
    StoredAnyOrder(core, ps, qs, now);
    StoreAllIs(core, ps, now);
    StoreAllIs(core, qs, now);
    ArriveAllIs(core, ps, reviews, now);
    ArriveAllIs(core, qs, reviews, now);
  }
}
