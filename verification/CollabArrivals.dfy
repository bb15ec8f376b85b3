/** Receiving in any order: whole transactions of an endpoint, recovery events among the
    arrivals, and exactly when one of them is undone. */
module CollabArrivals {
  import opened Basics
  import opened CollabTypes
  import opened CollabReducer
  import opened CollabInbox
  import opened CollabInvariant
  import opened CollabSteps
  import opened CollabOrder
  import opened CollabStall

  // ---- The recovery cursor of a request decides no ordered event ----

  function WithAfter(core: Core, n: int): Core {
    core.(c := core.c.(syncAfter := n))
  }

  lemma {:induction false} CheckRefsAfter(core: Core, n: int, f: Formation, refs: seq<AcceptanceRef>, seen: set<Urn>)
    ensures CheckRefs(WithAfter(core, n), f, refs, seen) == CheckRefs(core, f, refs, seen)
    decreases |refs|
  {
    if refs == [] {
    } else {
      assert CheckRef(WithAfter(core, n), f, refs[0], seen) == CheckRef(core, f, refs[0], seen);
      CheckRefsAfter(core, n, f, refs[1..], seen + {refs[0].actor});
    }
  }

  lemma AcceptAfter(c: Collab, p: Packet, now: Instant, n: int)
    ensures ApplyAccept(c.(syncAfter := n), p, now) ==
      match ApplyAccept(c, p, now)
      case Done(d) => Done(d.(syncAfter := n))
      case other => other
  {
    if p.payload.AcceptBody? {
      var d := c.(acceptances := c.acceptances[p.sender := ConsentOf(p)]);
      assert ReadyToForm(d.(syncAfter := n), now) <==> ReadyToForm(d, now);
    }
  }

  lemma ApplyAfter(core: Core, p: Packet, now: Instant, n: int)
    requires !IsSync(p.kind)
    ensures ApplyCore(WithAfter(core, n), p, now, false) ==
      match ApplyCore(core, p, now, false)
      case Done(next) => Done(WithAfter(next, n))
      case other => other
  {
    match p.kind
    case Agree =>
      if p.payload.AgreementBody? {
        CheckRefsAfter(core, n, p.payload.agreement.formation, p.payload.agreement.formation.acceptances, {});
      }
    case Accept => AcceptAfter(core.c, p, now, n);
    case _ =>
  }

  lemma TurnOfAfter(core: Core, k: Key, reviews: map<Packet, Review>, now: Instant, n: int)
    requires k in core.events && !IsSync(core.events[k].packet.kind)
    ensures TurnOf(WithAfter(core, n), k, reviews, now) ==
      match TurnOf(core, k, reviews, now)
      case Take(key, next, reason) => Take(key, WithAfter(next, n), reason)
      case other => other
  {
    var p := core.events[k].packet;
    ApplyAfter(core.(c := Advance(core.c, p)), p, now, n);
    assert WithAfter(core.(c := Advance(core.c, p)), n) == WithAfter(core, n).(c := Advance(WithAfter(core, n).c, p));
  }

  lemma NextTurnAfter(core: Core, reviews: map<Packet, Review>, now: Instant, n: int)
    requires EventsPlaced(core) && CursorsFit(core)
    ensures NextTurn(WithAfter(core, n), reviews, now) ==
      match NextTurn(core, reviews, now)
      case Take(key, next, reason) => Take(key, WithAfter(next, n), reason)
      case other => other
  {
    if HasSlot(core.events, core.c.peer, core.c.inSeq + 1) {
      var k := SlotKey(core.events, core.c.peer, core.c.inSeq + 1);
      assert Placed(core.c, k, core.events[k]);
      TurnOfAfter(core, k, reviews, now, n);
    }
  }

  lemma {:induction false} TurnsCommute(core: Core, turn: Core -> Turn, n: int, fuel: nat, inv: Core -> bool)
    requires forall x :: inv(x) ==> (turn(WithAfter(x, n)).Take? <==> turn(x).Take?)
    requires forall x :: inv(x) && turn(x).Take? ==> inv(turn(x).core) && turn(WithAfter(x, n)).core == WithAfter(turn(x).core, n)
    requires inv(core)
    ensures TakeTurns(WithAfter(core, n), turn, fuel) == WithAfter(TakeTurns(core, turn, fuel), n)
    decreases fuel
  {
    if fuel == 0 || !turn(core).Take? {
    } else {
      TurnsCommute(turn(core).core, turn, n, fuel - 1, inv);
    }
  }

  lemma TurnsAfter(core: Core, reviews: map<Packet, Review>, now: Instant, n: int, fuel: nat)
    requires Sound(core)
    ensures TakeTurns(WithAfter(core, n), TurnAt(reviews, now), fuel) == WithAfter(TakeTurns(core, TurnAt(reviews, now), fuel), n)
  {
    var turn := TurnAt(reviews, now);
    var inv := (x: Core) => Sound(x);
    forall x | inv(x)
      ensures turn(WithAfter(x, n)).Take? <==> turn(x).Take?
      ensures turn(x).Take? ==> inv(turn(x).core) && turn(WithAfter(x, n)).core == WithAfter(turn(x).core, n)
    {
      NextTurnAfter(x, reviews, now, n);
      if turn(x).Take? {
        TakeKeeps(x, reviews, now);
      }
    }
    TurnsCommute(core, turn, n, fuel, inv);
  }

  // ---- A drain that meets a stall ----

  /** The drain, before it comes to rest, reaches an expired waiting receipt. */
  ghost predicate Stalls(core: Core, reviews: map<Packet, Review>, now: Instant) {
    exists n: nat :: Stalled(TakeTurns(core, TurnAt(reviews, now), n), reviews, now)
  }

  lemma StallsWithin(core: Core, reviews: map<Packet, Review>, now: Instant)
    requires Sound(core)
    ensures RunsInto(core, TurnAt(reviews, now), StalledAt(reviews, now), MAX_EVENTS) <==> Stalls(core, reviews, now)
  {
    forall n: nat | Stalled(TakeTurns(core, TurnAt(reviews, now), n), reviews, now)
      ensures n < MAX_EVENTS && StalledAt(reviews, now)(TakeTurns(core, TurnAt(reviews, now), n))
    {
      if n >= MAX_EVENTS {
        DrainComplete(core, reviews, now, n);
      }
    }
  }

  lemma StallsUnfolds(core: Core, reviews: map<Packet, Review>, now: Instant)
    ensures Stalls(core, reviews, now) <==>
      Stalled(core, reviews, now)
      || (NextTurn(core, reviews, now).Take? && Stalls(NextTurn(core, reviews, now).core, reviews, now))
  {
    var turn := TurnAt(reviews, now);
    assert TakeTurns(core, turn, 0) == core;
    if NextTurn(core, reviews, now).Take? {
      var next := NextTurn(core, reviews, now).core;
      forall n: nat ensures TakeTurns(core, turn, n + 1) == TakeTurns(next, turn, n) {
      }
      forall n: nat | Stalled(TakeTurns(core, turn, n), reviews, now)
        ensures Stalled(core, reviews, now) || Stalls(next, reviews, now)
      {
        if n > 0 {
          assert TakeTurns(core, turn, (n - 1) + 1) == TakeTurns(next, turn, n - 1);
        }
      }
      forall n: nat | Stalled(TakeTurns(next, turn, n), reviews, now) ensures Stalls(core, reviews, now) {
        assert TakeTurns(core, turn, n + 1) == TakeTurns(next, turn, n);
      }
    } else {
      assert forall n: nat :: TakeTurns(core, turn, n) == core;
    }
  }

  lemma StalledPlus(core: Core, extra: map<Key, Record>, reviews: map<Packet, Review>, now: Instant)
    requires Sound(core) && Spare(core, extra) && NextTurn(core, reviews, now).Take?
    ensures Stalled(Plus(core, extra), reviews, now) <==> Stalled(core, reviews, now)
  {
    TurnPlus(core, extra, reviews, now);
    TakeKeeps(core, reviews, now);
  }

  lemma DrainUnfolds(core: Core, reviews: map<Packet, Review>, now: Instant)
    requires Sound(core)
    ensures CoreDrain(core, reviews, now) ==
      if NextTurn(core, reviews, now).Take? then CoreDrain(NextTurn(core, reviews, now).core, reviews, now) else core
  {
    DrainComplete(core, reviews, now, MAX_EVENTS + 1);
    assert TakeTurns(core, TurnAt(reviews, now), MAX_EVENTS + 1) ==
      if NextTurn(core, reviews, now).Take? then CoreDrain(NextTurn(core, reviews, now).core, reviews, now) else core;
  }

  /** Stored beside further events, a drain stalls if and only if it stalls by itself, or
      after coming to rest without them. */
  lemma {:induction false} StallsPlus(core: Core, extra: map<Key, Record>, reviews: map<Packet, Review>, now: Instant)
    requires Sound(core) && Sound(Plus(core, extra)) && Spare(core, extra)
    ensures Stalls(Plus(core, extra), reviews, now) <==>
      Stalls(core, reviews, now) || Stalls(Plus(CoreDrain(core, reviews, now), extra), reviews, now)
    decreases MAX_EVENTS - core.c.inSeq
  {
    StallsUnfolds(core, reviews, now);
    StallsUnfolds(Plus(core, extra), reviews, now);
    DrainUnfolds(core, reviews, now);
    if AtRest(core, reviews, now) {
    } else {
      StalledPlus(core, extra, reviews, now);
      TurnPlus(core, extra, reviews, now);
      TurnFirst(core, extra, reviews, now);
      SlotBound(core, reviews, now);
      TakeKeeps(core, reviews, now);
      StallsPlus(NextTurn(core, reviews, now).core, extra, reviews, now);
    }
  }

  lemma StallsAfter(core: Core, reviews: map<Packet, Review>, now: Instant, n: int)
    requires Sound(core)
    ensures Stalls(WithAfter(core, n), reviews, now) <==> Stalls(core, reviews, now)
  {
    forall fuel: nat
      ensures Stalled(TakeTurns(WithAfter(core, n), TurnAt(reviews, now), fuel), reviews, now)
         <==> Stalled(TakeTurns(core, TurnAt(reviews, now), fuel), reviews, now)
    {
      TurnsAfter(core, reviews, now, n, fuel);
      TurnsKeep(core, reviews, now, fuel);
      NextTurnAfter(TakeTurns(core, TurnAt(reviews, now), fuel), reviews, now, n);
    }
  }

  // ---- What one arrival stores ----

  /** The events that a first arrival of `p` stores: `p` itself, and the history that an
      applied recovery response carries. */
  function Unpack(p: Packet, now: Instant): seq<Packet> {
    if p.kind.SyncResponse? && AdmittedStatus(p, now).Buffered? && GoodSync(p) then [p] + p.payload.events else [p]
  }

  function KeysOf(ps: seq<Packet>): set<Key> {
    set i | 0 <= i < |ps| :: KeyOf(ps[i])
  }

  function Taken(known: set<Key>, p: Packet, now: Instant): seq<Packet> {
    if KeyOf(p) in known then [p] else Unpack(p, now)
  }

  lemma KnownStays(core: Core, p: Packet, now: Instant)
    requires KeyOf(p) in core.events
    ensures StoreAll(core, [p], now) == core
  {
    assert [p][1..] == [];
    assert StoreAll(core, [p], now) == StoreAll(Store(core, p, now), [], now);
  }

  lemma StoreOne(core: Core, p: Packet, now: Instant)
    ensures StoreAll(core, [p], now) == Store(core, p, now)
  {
    assert [p][1..] == [];
  }

  /** What a transaction makes of an ordered event before the drain. */
  lemma OrderedStores(e: Endpoint, p: Packet, now: Instant)
    requires Valid(e) && Compatible(e.core, [p]) && !IsSync(p.kind)
    ensures IngestBound(e, p, now) == Done(e.(core := StoreAll(e.core, [p], now)))
  {
    assert p in [p];
    AdmitIsStore(e.core, [p], p, now);
    StoreOne(e.core, p, now);
    if KeyOf(p) in e.core.events {
      assert e.(core := e.core) == e;
    }
  }

  lemma Known(e: Endpoint, p: Packet, now: Instant)
    requires Valid(e) && Compatible(e.core, [p]) && KeyOf(p) in e.core.events
    ensures IngestBound(e, p, now) == Done(e)
  {
    assert Placed(e.core.c, KeyOf(p), e.core.events[KeyOf(p)]);
    assert Collide(e.core.events[KeyOf(p)].packet, [p][0]);
  }

  function Buffering(core: Core, p: Packet): Core {
    core.(events := core.events[KeyOf(p) := Record(p, Buffered, false, None)])
  }

  /** A recovery event that is refused is stored as such. */
  lemma RefusedStores(e: Endpoint, p: Packet, now: Instant)
    requires Valid(e) && Compatible(e.core, [p]) && IsSync(p.kind) && KeyOf(p) !in e.core.events
    requires !AdmittedStatus(p, now).Buffered? || !GoodSync(p)
    ensures IngestBound(e, p, now) == Done(e.(core := Store(e.core, p, now)))
  {
    assert p in [p];
    NumberFree(e.core, [p], p);
    if AdmittedStatus(p, now).Buffered? {
      BadSync(Buffering(e.core, p), p, now);
      MarkStored(e.core, p, Rejected);
    }
  }

  lemma BadSync(core: Core, p: Packet, now: Instant)
    requires FromPeer(core.c, p) && IsSync(p.kind) && !GoodSync(p)
    ensures ApplyCore(core, p, now, false) == Invalid
  {
    if p.kind.SyncResponse? && p.payload.HistoryBody? && |p.payload.events| <= 8 {
      var i :| 0 <= i < |p.payload.events| && !OwnPast(p, p.payload.events[i]);
      assert !OwnHistory(core.c, p.sender, p.payload.events[i]);
    }
  }

  /** A recovery request moves only the recovery cursor. */
  lemma RequestStores(e: Endpoint, p: Packet, now: Instant)
    requires Valid(e) && Compatible(e.core, [p]) && p.kind.SyncRequest? && KeyOf(p) !in e.core.events
    requires AdmittedStatus(p, now).Buffered? && GoodSync(p)
    ensures var r := IngestBound(e, p, now);
      r.Done? && r.value.core == WithAfter(Store(e.core, p, now), p.payload.after) && r.value.reviews == e.reviews
  {
    assert p in [p];
    NumberFree(e.core, [p], p);
    var e1 := e.(core := Buffering(e.core, p));
    var core := WithAfter(e1.core, p.payload.after);
    assert ApplyCore(e1.core, p, now, false) == Done(core);
    SyncAnswered(e1, core, p, now);
    MarkStored(e.core, p, Applied);
  }

  /** Applying a recovery event never fails for want of a reply. */
  lemma SyncAnswered(e: Endpoint, core: Core, p: Packet, now: Instant)
    requires IsSync(p.kind) && ApplyCore(e.core, p, now, false) == Done(core)
    ensures Apply(e, p, now, false).Done?
    ensures Apply(e, p, now, false).value.core == core && Apply(e, p, now, false).value.reviews == e.reviews
  {
    var e1 := e.(core := core, view := ViewAfter(e.view, e.core, core, p, false));
    assert TemplatePayload(core, SyncResponse, None).Some?;
    QueueCore(e1, e.core.c, p, now);
  }

  /** A recovery response brings in its history. */
  lemma ResponseStores(e: Endpoint, p: Packet, now: Instant)
    requires Valid(e) && p.kind.SyncResponse? && KeyOf(p) !in e.core.events
    requires AdmittedStatus(p, now).Buffered? && GoodSync(p) && Compatible(e.core, [p] + p.payload.events)
    ensures var r := IngestBound(e, p, now);
      r.Done? && r.value.core == StoreAll(e.core, Unpack(p, now), now) && r.value.reviews == e.reviews
  {
    var all := [p] + p.payload.events;
    assert all[0] == p && p in all;
    NumberFree(e.core, all, p);
    AdmitKeeps(e.core, p, now);
    HistoryCompatible(e.core, p);
    HistoryStores(Buffering(e.core, p), p, now);
    ResponseMarked(e.core, p, now);
    SyncBound(e, p, now, StoreAll(Buffering(e.core, p), p.payload.events, now));
  }

  lemma SyncBound(e: Endpoint, p: Packet, now: Instant, next: Core)
    requires IsSync(p.kind) && KeyOf(p) !in e.core.events && Admit(e.core, p, now) == Done(Buffering(e.core, p))
    requires ApplyCore(Buffering(e.core, p), p, now, false) == Done(next)
    ensures var r := IngestBound(e, p, now);
      r.Done? && r.value.core == Mark(next, KeyOf(p), Applied) && r.value.reviews == e.reviews
  {
    SyncAnswered(e.(core := Buffering(e.core, p)), next, p, now);
  }

  lemma HistoryBeside(core: Core, p: Packet, now: Instant)
    requires Sound(Buffering(core, p)) && p.payload.HistoryBody? && Compatible(core, [p] + p.payload.events)
    ensures StoreAll(Buffering(core, p), p.payload.events, now)
      == Plus(Buffering(core, p), NewRecords(core.events.Keys + {KeyOf(p)}, p.payload.events, now))
  {
    HistoryCompatible(core, p);
    StoreAllIs(Buffering(core, p), p.payload.events, now);
    assert Buffering(core, p).events.Keys == core.events.Keys + {KeyOf(p)};
  }

  lemma ResponseFirst(core: Core, p: Packet, now: Instant)
    requires Sound(core) && p.payload.HistoryBody? && Compatible(core, [p] + p.payload.events)
    ensures StoreAll(core, [p] + p.payload.events, now)
      == Plus(Store(core, p, now), NewRecords(core.events.Keys + {KeyOf(p)}, p.payload.events, now))
  {
    var all := [p] + p.payload.events;
    assert all[0] == p && all[1..] == p.payload.events;
    StoreCompatible(core, all, now);
    StoreKeeps(core, all, p, now);
    StoreAllIs(Store(core, p, now), p.payload.events, now);
  }

  /** Marking the response after its history is stored is storing it decided. */
  lemma ResponseMarked(core: Core, p: Packet, now: Instant)
    requires Sound(core) && Sound(Buffering(core, p)) && KeyOf(p) !in core.events && p.kind.SyncResponse?
    requires AdmittedStatus(p, now).Buffered? && GoodSync(p) && Compatible(core, [p] + p.payload.events)
    ensures Mark(StoreAll(Buffering(core, p), p.payload.events, now), KeyOf(p), Applied) == StoreAll(core, Unpack(p, now), now)
  {
    HistoryBeside(core, p, now);
    ResponseFirst(core, p, now);
    ResponsePlus(core, p, NewRecords(core.events.Keys + {KeyOf(p)}, p.payload.events, now), now);
  }

  lemma ResponsePlus(core: Core, p: Packet, extra: map<Key, Record>, now: Instant)
    requires KeyOf(p) !in core.events && p.kind.SyncResponse? && AdmittedStatus(p, now).Buffered? && GoodSync(p)
    requires extra == NewRecords(core.events.Keys + {KeyOf(p)}, p.payload.events, now)
    ensures Mark(Plus(Buffering(core, p), extra), KeyOf(p), Applied) == Plus(Store(core, p, now), extra)
  {
    NewRecordsFresh(core.events.Keys + {KeyOf(p)}, p.payload.events, now, KeyOf(p));
    MarkPlus(Buffering(core, p), extra, KeyOf(p), Applied);
    MarkStored(core, p, Applied);
  }

  lemma {:induction false} NewRecordsFresh(known: set<Key>, ps: seq<Packet>, now: Instant, k: Key)
    requires k in known
    ensures k !in NewRecords(known, ps, now)
    decreases |ps|
  {
    if ps == [] {
    } else {
      NewRecordsFresh(known, ps[1..], now, k);
    }
  }

  lemma HistoryCompatible(core: Core, p: Packet)
    requires p.payload.HistoryBody? && Compatible(core, [p] + p.payload.events)
    ensures Compatible(Buffering(core, p), p.payload.events)
  {
    var all, past := [p] + p.payload.events, p.payload.events;
    forall i, k | 0 <= i < |past| && k in Buffering(core, p).events && Collide(Buffering(core, p).events[k].packet, past[i])
      ensures Buffering(core, p).events[k].packet == past[i]
    {
      assert past[i] == all[i+1] && all[0] == p;
    }
    forall i, j | 0 <= i < |past| && 0 <= j < |past| && Collide(past[i], past[j]) ensures past[i] == past[j] {
      assert past[i] == all[i+1] && past[j] == all[j+1];
    }
    forall i | 0 <= i < |past| ensures FromPeer(core.c, past[i]) {
      assert past[i] == all[i+1];
    }
  }

  lemma HistoryStores(core: Core, p: Packet, now: Instant)
    requires Sound(core) && p.kind.SyncResponse? && GoodSync(p) && FromPeer(core.c, p)
    requires Compatible(core, p.payload.events)
    ensures ApplyCore(core, p, now, false) == Done(StoreAll(core, p.payload.events, now))
  {
    forall i | 0 <= i < |p.payload.events| ensures !IsSync(p.payload.events[i].kind) && OwnHistory(core.c, p.sender, p.payload.events[i]) {
      assert OwnPast(p, p.payload.events[i]);
    }
    AdmitAllIs(core, p.payload.events, now);
  }

  /** What a transaction stores before its drain. */
  lemma BoundStores(e: Endpoint, p: Packet, now: Instant)
    requires Valid(e) && Compatible(e.core, Taken(e.core.events.Keys, p, now))
    ensures var r := IngestBound(e, p, now);
      && r.Done? && r.value.reviews == e.reviews
      && r.value.core == WithAfter(StoreAll(e.core, Taken(e.core.events.Keys, p, now), now), r.value.core.c.syncAfter)
  {
    if KeyOf(p) in e.core.events {
      Known(e, p, now);
      KnownStays(e.core, p, now);
    } else if !IsSync(p.kind) {
      OrderedStores(e, p, now);
    } else if !AdmittedStatus(p, now).Buffered? || !GoodSync(p) {
      RefusedStores(e, p, now);
      StoreOne(e.core, p, now);
    } else if p.kind.SyncRequest? {
      RequestStores(e, p, now);
      StoreOne(e.core, p, now);
    } else {
      ResponseStores(e, p, now);
    }
  }

  // ---- One whole transaction ----

  lemma TakenSound(core: Core, ps: seq<Packet>, now: Instant)
    requires Sound(core) && Compatible(core, ps)
    ensures Sound(StoreAll(core, ps, now))
  {
    StoreAllIs(core, ps, now);
  }

  lemma DrainIs(f: Endpoint, core: Core, n: int, now: Instant)
    requires Valid(f) && Sound(core) && f.core == WithAfter(core, n)
    ensures Drain(f, now).None? <==> Stalls(core, f.reviews, now)
    ensures Drain(f, now).Some? ==>
      var g := Drain(f, now).value;
      Valid(g) && g.reviews == f.reviews && g.core == WithAfter(CoreDrain(core, f.reviews, now), n) && AtRest(g.core, g.reviews, now)
  {
    DrainAborts(f, now);
    StallsWithin(f.core, f.reviews, now);
    StallsAfter(core, f.reviews, now, n);
    if Drain(f, now).Some? {
      DrainKeeps(f, now);
      LoopCore(f, now);
      TurnsAfter(core, f.reviews, now, n, MAX_EVENTS);
      CoreDrainKeeps(f.core, f.reviews, now);
    }
  }

  /** One receiving transaction: it is undone if and only if the drain of what it stores
      stalls; otherwise it ends where that drain ends. */
  lemma TransactionIs(e: Endpoint, p: Packet, now: Instant)
    requires Valid(e) && Compatible(e.core, Taken(e.core.events.Keys, p, now))
    ensures var r, stored := IngestRecord(e, p, now), StoreAll(e.core, Taken(e.core.events.Keys, p, now), now);
      && (r.None? <==> Stalls(stored, e.reviews, now))
      && (r.Some? ==> Valid(r.value) && r.value.reviews == e.reviews && AtRest(r.value.core, e.reviews, now)
                      && r.value.core == WithAfter(CoreDrain(stored, e.reviews, now), r.value.core.c.syncAfter))
  {
    var taken := Taken(e.core.events.Keys, p, now);
    assert taken[0] == p;
    BoundStores(e, p, now);
    IngestKeeps(e, p, now);
    TakenSound(e.core, taken, now);
    var f := IngestBound(e, p, now).value;
    DrainIs(f, StoreAll(e.core, taken, now), f.core.c.syncAfter, now);
  }

  // ---- Many transactions ----

  /** Receive several events one after the other at one clock; `None` if any is undone or
      refused. */
  ghost function IngestEach(e: Endpoint, ps: seq<Packet>, now: Instant): Option<Endpoint>
    decreases |ps|
  {
    if ps == [] then Some(e)
    else match IngestRecord(e, ps[0], now)
      case None => None
      case Some(e1) => IngestEach(e1, ps[1..], now)
  }

  /** All events that the arrivals store, in turn. */
  function Flat(known: set<Key>, ps: seq<Packet>, now: Instant): seq<Packet>
    decreases |ps|
  {
    if ps == [] then []
    else
      var taken := Taken(known, ps[0], now);
      taken + Flat(known + KeysOf(taken), ps[1..], now)
  }

  lemma {:induction false} StoreAppended(core: Core, ps: seq<Packet>, qs: seq<Packet>, now: Instant)
    ensures StoreAll(core, ps + qs, now) == StoreAll(StoreAll(core, ps, now), qs, now)
    decreases |ps|
  {
    if ps == [] {
      assert ps + qs == qs;
    } else {
      assert (ps + qs)[1..] == ps[1..] + qs;
      StoreAppended(Store(core, ps[0], now), ps[1..], qs, now);
    }
  }

  lemma {:induction false} StoreAfter(core: Core, ps: seq<Packet>, now: Instant, n: int)
    ensures StoreAll(WithAfter(core, n), ps, now) == WithAfter(StoreAll(core, ps, now), n)
    decreases |ps|
  {
    if ps == [] {
    } else {
      assert Store(WithAfter(core, n), ps[0], now) == WithAfter(Store(core, ps[0], now), n);
      StoreAfter(Store(core, ps[0], now), ps[1..], now, n);
    }
  }

  lemma {:induction false} StoredKeys(core: Core, ps: seq<Packet>, now: Instant)
    ensures StoreAll(core, ps, now).events.Keys == core.events.Keys + KeysOf(ps)
    decreases |ps|
  {
    if ps == [] {
    } else {
      KeysCons(ps);
      StoredKeys(Store(core, ps[0], now), ps[1..], now);
    }
  }

  /** The rest stays compatible beside what is stored first. */
  lemma {:induction false} RestCompatible(core: Core, ps: seq<Packet>, qs: seq<Packet>, now: Instant)
    requires Sound(core) && Compatible(core, ps + qs)
    ensures Compatible(StoreAll(core, ps, now), qs)
    decreases |ps|
  {
    if ps == [] {
      assert ps + qs == qs;
    } else {
      assert (ps + qs)[1..] == ps[1..] + qs && (ps + qs)[0] == ps[0] && ps[0] in ps + qs;
      SoundPieces(core);
      StoreCompatible(core, ps + qs, now);
      StoreKeeps(core, ps + qs, ps[0], now);
      RestCompatible(Store(core, ps[0], now), ps[1..], qs, now);
    }
  }

  lemma KeysCons(ps: seq<Packet>)
    requires ps != []
    ensures KeysOf(ps) == {KeyOf(ps[0])} + KeysOf(ps[1..])
  {
    forall k | k in KeysOf(ps) ensures k in {KeyOf(ps[0])} + KeysOf(ps[1..]) {
      var i :| 0 <= i < |ps| && KeyOf(ps[i]) == k;
      assert i > 0 ==> ps[1..][i-1] == ps[i];
    }
    forall k | k in KeysOf(ps[1..]) ensures k in KeysOf(ps) {
      var i :| 0 <= i < |ps[1..]| && KeyOf(ps[1..][i]) == k;
      assert ps[i+1] == ps[1..][i];
    }
  }

  lemma CompatibleAfterDrain(stored: Core, ps: seq<Packet>, reviews: map<Packet, Review>, now: Instant, n: int)
    requires Sound(stored) && Compatible(stored, ps)
    ensures var core := WithAfter(CoreDrain(stored, reviews, now), n);
      Compatible(core, ps) && core.events.Keys == stored.events.Keys && Sound(CoreDrain(stored, reviews, now))
  {
    CoreDrainKeeps(stored, reviews, now);
    CompatibleAfter(stored, CoreDrain(stored, reviews, now), ps);
  }

  /** Draining before the rest is stored changes neither whether the drain stalls nor where
      it ends. */
  lemma RestLater(stored: Core, ps: seq<Packet>, reviews: map<Packet, Review>, now: Instant, n: int)
    requires Sound(stored) && Compatible(stored, ps)
    ensures var drained := WithAfter(CoreDrain(stored, reviews, now), n);
      && (Stalls(StoreAll(stored, ps, now), reviews, now) <==>
            Stalls(stored, reviews, now) || Stalls(StoreAll(drained, ps, now), reviews, now))
      && CoreDrain(StoreAll(drained, ps, now), reviews, now)
         == WithAfter(CoreDrain(StoreAll(stored, ps, now), reviews, now), n)
  {
    var core := CoreDrain(stored, reviews, now);
    var extra := NewRecords(stored.events.Keys, ps, now);
    CoreDrainKeeps(stored, reviews, now);
    CompatibleAfter(stored, core, ps);
    StoreAllIs(stored, ps, now);
    StoreAllIs(core, ps, now);
    StoredSpare(stored, ps, now);
    StallsPlus(stored, extra, reviews, now);
    DrainPlus(stored, extra, reviews, now);
    StoreAfter(core, ps, now, n);
    StallsAfter(Plus(core, extra), reviews, now, n);
    TurnsAfter(Plus(core, extra), reviews, now, n, MAX_EVENTS);
  }

  /** Receiving one by one: some transaction is undone if and only if the drain of all that
      the arrivals store stalls; otherwise the facts are those that this drain leaves, but
      for the recovery cursor. */
  lemma {:induction false} IngestEachIs(e: Endpoint, ps: seq<Packet>, now: Instant)
    requires Valid(e) && (ps != [] || AtRest(e.core, e.reviews, now))
    requires Compatible(e.core, Flat(e.core.events.Keys, ps, now))
    ensures var r, stored := IngestEach(e, ps, now), StoreAll(e.core, Flat(e.core.events.Keys, ps, now), now);
      && (r.None? <==> Stalls(stored, e.reviews, now))
      && (r.Some? ==> r.value.core == WithAfter(CoreDrain(stored, e.reviews, now), r.value.core.c.syncAfter))
    decreases |ps|
  {
    if ps == [] {
      StallsUnfolds(e.core, e.reviews, now);
      DrainUnfolds(e.core, e.reviews, now);
    } else {
      FirstIs(e, ps, now);
      if IngestRecord(e, ps[0], now).Some? {
        IngestEachIs(IngestRecord(e, ps[0], now).value, ps[1..], now);
      }
    }
  }

  /** The first transaction, and what it leaves to the rest. */
  lemma FirstIs(e: Endpoint, ps: seq<Packet>, now: Instant)
    requires Valid(e) && ps != [] && Compatible(e.core, Flat(e.core.events.Keys, ps, now))
    ensures var r, all := IngestRecord(e, ps[0], now), StoreAll(e.core, Flat(e.core.events.Keys, ps, now), now);
      if r.None? then Stalls(all, e.reviews, now)
      else
        var f := r.value;
        var rest := Flat(f.core.events.Keys, ps[1..], now);
        && Valid(f) && f.reviews == e.reviews && AtRest(f.core, f.reviews, now) && Compatible(f.core, rest)
        && (Stalls(all, e.reviews, now) <==> Stalls(StoreAll(f.core, rest, now), f.reviews, now))
        && CoreDrain(StoreAll(f.core, rest, now), f.reviews, now)
           == WithAfter(CoreDrain(all, e.reviews, now), f.core.c.syncAfter)
  {
    var taken := Taken(e.core.events.Keys, ps[0], now);
    var rest := Flat(e.core.events.Keys + KeysOf(taken), ps[1..], now);
    var stored := StoreAll(e.core, taken, now);
    CompatibleOrder(e.core, taken + rest, taken);
    RestCompatible(e.core, taken, rest, now);
    TakenSound(e.core, taken, now);
    StoredKeys(e.core, taken, now);
    StoreAppended(e.core, taken, rest, now);
    TransactionIs(e, ps[0], now);
    var n := if IngestRecord(e, ps[0], now).Some? then IngestRecord(e, ps[0], now).value.core.c.syncAfter else 0;
    CompatibleAfterDrain(stored, rest, e.reviews, now, n);
    RestLater(stored, rest, e.reviews, now, n);
  }

  // ---- Any order ----

  /** All events that the arrivals bring. */
  function Brought(known: set<Key>, ps: seq<Packet>, now: Instant): set<Packet> {
    set i, j | 0 <= i < |ps| && 0 <= j < |Taken(known, ps[i], now)| :: Taken(known, ps[i], now)[j]
  }

  /** At most one event per number and per identity among them and beside the stored ones. */
  ghost predicate Agreeable(core: Core, all: set<Packet>) {
    && (forall p :: p in all ==> FromPeer(core.c, p))
    && (forall p, q :: p in all && q in all && Collide(p, q) ==> p == q)
    && (forall p, k :: p in all && k in core.events && Collide(core.events[k].packet, p) ==> core.events[k].packet == p)
  }

  lemma AgreeableCompatible(core: Core, all: set<Packet>, ps: seq<Packet>)
    requires Agreeable(core, all) && forall p :: p in ps ==> p in all
    ensures Compatible(core, ps)
  {
    forall i | 0 <= i < |ps| ensures ps[i] in all {
      assert ps[i] in ps;
    }
  }

  lemma BroughtHas(known: set<Key>, ps: seq<Packet>, now: Instant, p: Packet, q: Packet)
    requires p in ps && q in Taken(known, p, now)
    ensures q in Brought(known, ps, now)
  {
    var i :| 0 <= i < |ps| && ps[i] == p;
    var j :| 0 <= j < |Taken(known, ps[i], now)| && Taken(known, ps[i], now)[j] == q;
  }

  lemma {:induction false} FlatBrought(known: set<Key>, ps: seq<Packet>, now: Instant, more: set<Key>, q: Packet)
    requires known <= more && q in Flat(more, ps, now)
    ensures q in Brought(known, ps, now)
    decreases |ps|
  {
    if ps == [] {
    } else if q in Taken(more, ps[0], now) {
      assert ps[0] in ps && Taken(more, ps[0], now)[0] == ps[0];
      TakenLess(known, more, ps[0], now, q);
      BroughtHas(known, ps, now, ps[0], q);
    } else {
      FlatBrought(known, ps[1..], now, more + KeysOf(Taken(more, ps[0], now)), q);
      var i, j :| 0 <= i < |ps[1..]| && 0 <= j < |Taken(known, ps[1..][i], now)| && Taken(known, ps[1..][i], now)[j] == q;
      assert ps[1..][i] in ps && q in Taken(known, ps[1..][i], now);
      BroughtHas(known, ps, now, ps[1..][i], q);
    }
  }

  lemma TakenLess(known: set<Key>, more: set<Key>, p: Packet, now: Instant, q: Packet)
    requires known <= more && q in Taken(more, p, now)
    ensures q in Taken(known, p, now)
  {
    assert Taken(known, p, now)[0] == p;
  }

  /** Nothing is left out: a packet whose key is already known was itself taken before. */
  lemma {:induction false} BroughtFlat(known: set<Key>, ps: seq<Packet>, now: Instant, all: set<Packet>, p: Packet, q: Packet)
    requires p in ps && q in Taken(known, p, now)
    requires forall a :: a in Brought(known, ps, now) ==> a in all
    requires forall a, b :: a in all && b in all && KeyOf(a) == KeyOf(b) ==> a == b
    ensures q in Flat(known, ps, now)
    decreases |ps|
  {
    var taken := Taken(known, ps[0], now);
    if p == ps[0] {
    } else {
      assert p in ps[1..];
      var more := known + KeysOf(taken);
      forall a | a in Brought(more, ps[1..], now) ensures a in all {
        BroughtLater(known, more, ps, now, a);
      }
      if q in Taken(more, p, now) {
        BroughtFlat(more, ps[1..], now, all, p, q);
      } else {
        AlreadyTaken(known, ps, now, all, p);
      }
    }
  }

  lemma BroughtLater(known: set<Key>, more: set<Key>, ps: seq<Packet>, now: Instant, a: Packet)
    requires ps != [] && known <= more && a in Brought(more, ps[1..], now)
    ensures a in Brought(known, ps, now)
  {
    var i, j :| 0 <= i < |ps[1..]| && 0 <= j < |Taken(more, ps[1..][i], now)| && Taken(more, ps[1..][i], now)[j] == a;
    assert ps[1..][i] in ps && a in Taken(more, ps[1..][i], now);
    TakenLess(known, more, ps[1..][i], now, a);
    BroughtHas(known, ps, now, ps[1..][i], a);
  }

  /** A key that the first arrival made known belongs to the very packet, or to an ordered
      event, which brings only itself. */
  lemma AlreadyTaken(known: set<Key>, ps: seq<Packet>, now: Instant, all: set<Packet>, p: Packet)
    requires ps != [] && p in ps && p != ps[0]
    requires forall a :: a in Brought(known, ps, now) ==> a in all
    requires forall a, b :: a in all && b in all && KeyOf(a) == KeyOf(b) ==> a == b
    ensures Taken(known + KeysOf(Taken(known, ps[0], now)), p, now) == Taken(known, p, now)
  {
    var taken := Taken(known, ps[0], now);
    if KeyOf(p) in KeysOf(taken) && KeyOf(p) !in known {
      var i :| 0 <= i < |taken| && KeyOf(taken[i]) == KeyOf(p);
      BroughtHas(known, ps, now, ps[0], taken[i]);
      assert Taken(known, p, now)[0] == p;
      BroughtHas(known, ps, now, p, p);
      assert taken[i] == p && i > 0;
      assert OwnPast(ps[0], ps[0].payload.events[i-1]);
    }
  }

  lemma FlatIs(known: set<Key>, ps: seq<Packet>, now: Instant, all: set<Packet>)
    requires all == Brought(known, ps, now)
    requires forall a, b :: a in all && b in all && KeyOf(a) == KeyOf(b) ==> a == b
    ensures forall q :: q in Flat(known, ps, now) <==> q in all
  {
    forall q ensures q in Flat(known, ps, now) <==> q in all {
      if q in Flat(known, ps, now) {
        FlatBrought(known, ps, now, known, q);
      }
      if q in all {
        var i, j :| 0 <= i < |ps| && 0 <= j < |Taken(known, ps[i], now)| && Taken(known, ps[i], now)[j] == q;
        assert ps[i] in ps && q in Taken(known, ps[i], now);
        BroughtFlat(known, ps, now, all, ps[i], q);
      }
    }
  }

  lemma SameBrought(known: set<Key>, ps: seq<Packet>, qs: seq<Packet>, now: Instant)
    requires forall p :: p in ps ==> p in qs
    ensures Brought(known, ps, now) <= Brought(known, qs, now)
  {
    forall a | a in Brought(known, ps, now) ensures a in Brought(known, qs, now) {
      var i, j :| 0 <= i < |ps| && 0 <= j < |Taken(known, ps[i], now)| && Taken(known, ps[i], now)[j] == a;
      assert ps[i] in ps && a in Taken(known, ps[i], now);
      BroughtHas(known, qs, now, ps[i], a);
    }
  }

  lemma OneIdentity(core: Core, all: set<Packet>)
    requires Agreeable(core, all)
    ensures forall a, b :: a in all && b in all && KeyOf(a) == KeyOf(b) ==> a == b
  {
    forall a, b | a in all && b in all && KeyOf(a) == KeyOf(b) ensures a == b {
      assert Collide(a, b);
    }
  }

  lemma BroughtOnce(core: Core, known: set<Key>, ps: seq<Packet>, now: Instant)
    requires Agreeable(core, Brought(known, ps, now))
    ensures Compatible(core, Flat(known, ps, now))
    ensures forall q :: q in Flat(known, ps, now) <==> q in Brought(known, ps, now)
  {
    var all := Brought(known, ps, now);
    OneIdentity(core, all);
    FlatIs(known, ps, now, all);
    AgreeableCompatible(core, all, Flat(known, ps, now));
  }

  /** Both orders store the same. */
  lemma BroughtStored(core: Core, ps: seq<Packet>, qs: seq<Packet>, now: Instant)
    requires Sound(core) && (forall p :: p in ps <==> p in qs) && Agreeable(core, Brought(core.events.Keys, ps, now))
    ensures var a, b := Flat(core.events.Keys, ps, now), Flat(core.events.Keys, qs, now);
      Compatible(core, a) && Compatible(core, b) && StoreAll(core, a, now) == StoreAll(core, b, now)
  {
    var known := core.events.Keys;
    SameBrought(known, ps, qs, now);
    SameBrought(known, qs, ps, now);
    assert Brought(known, qs, now) == Brought(known, ps, now);
    BroughtOnce(core, known, ps, now);
    BroughtOnce(core, known, qs, now);
    StoredAnyOrder(core, Flat(known, ps, now), Flat(known, qs, now), now);
  }

  /** Order independence of the endpoint: at one clock and under fixed reviews, any two
      arrival orders of the same events of the peer, ordered or recovery ones, with any
      repetitions and at most one event per number. Either in both orders some transaction
      is undone, which is exactly when the drain of everything stored stalls; or in both
      all succeed and leave the same facts: those of storing everything and draining once.
      Only the recovery cursor, which the last recovery request sets, may differ. */
  lemma ReceiveOrder(e: Endpoint, ps: seq<Packet>, qs: seq<Packet>, now: Instant)
    requires Valid(e) && ps != [] && (forall p :: p in ps <==> p in qs)
    requires Agreeable(e.core, Brought(e.core.events.Keys, ps, now))
    ensures var stored := StoreAll(e.core, Flat(e.core.events.Keys, ps, now), now);
      var r, t := IngestEach(e, ps, now), IngestEach(e, qs, now);
      && (r.None? <==> Stalls(stored, e.reviews, now)) && (t.None? <==> r.None?)
      && (r.Some? ==>
            && r.value.core == WithAfter(CoreDrain(stored, e.reviews, now), r.value.core.c.syncAfter)
            && t.value.core == WithAfter(r.value.core, t.value.core.c.syncAfter))
  {
    assert qs != [] by {
      assert ps[0] in qs;
    }
    BroughtStored(e.core, ps, qs, now);
    IngestEachIs(e, ps, now);
    IngestEachIs(e, qs, now);
  }

  // ---- No stall while nothing has expired ----

  lemma FreshNoStall(core: Core, reviews: map<Packet, Review>, now: Instant)
    requires Sound(core) && Fresh(core, now)
    ensures !Stalls(core, reviews, now)
  {
    var turn := TurnAt(reviews, now);
    var inv := (x: Core) => Sound(x) && Fresh(x, now);
    var rank := (x: Core) => MAX_EVENTS - x.c.inSeq;
    forall x | inv(x) && turn(x).Take? ensures inv(turn(x).core) && rank(turn(x).core) < rank(x) && rank(x) > 0 {
      SlotBound(x, reviews, now);
      TakeKeeps(x, reviews, now);
      FreshTurn(x, reviews, now);
    }
    forall n: nat ensures !Stalled(TakeTurns(core, turn, n), reviews, now) {
      TurnInduction(core, turn, n, inv, rank);
      FreshTurn(TakeTurns(core, turn, n), reviews, now);
    }
  }

  lemma {:induction false} StoredFresh(core: Core, ps: seq<Packet>, now: Instant)
    requires Fresh(core, now)
    ensures Fresh(StoreAll(core, ps, now), now)
    decreases |ps|
  {
    if ps == [] {
    } else {
      var next := Store(core, ps[0], now);
      forall k | k in next.events ensures NotExpired(next.events[k], now) {
        assert k in core.events ==> NotExpired(core.events[k], now);
      }
      StoredFresh(next, ps[1..], now);
    }
  }

  /** While no waiting event has expired, every arrival in every order is taken in. */
  lemma FreshTakesAll(e: Endpoint, ps: seq<Packet>, now: Instant)
    requires Valid(e) && ps != [] && Fresh(e.core, now)
    requires Agreeable(e.core, Brought(e.core.events.Keys, ps, now))
    ensures IngestEach(e, ps, now).Some?
  {
    ReceiveOrder(e, ps, ps, now);
    BroughtFresh(e.core, ps, e.reviews, now);
  }

  lemma BroughtFresh(core: Core, ps: seq<Packet>, reviews: map<Packet, Review>, now: Instant)
    requires Sound(core) && Fresh(core, now) && Agreeable(core, Brought(core.events.Keys, ps, now))
    ensures !Stalls(StoreAll(core, Flat(core.events.Keys, ps, now), now), reviews, now)
  {
    var all := Flat(core.events.Keys, ps, now);
    BroughtOnce(core, core.events.Keys, ps, now);
    TakenSound(core, all, now);
    StoredFresh(core, all, now);
    FreshNoStall(StoreAll(core, all, now), reviews, now);
  }
}
