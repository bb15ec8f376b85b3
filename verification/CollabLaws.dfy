/** Laws of whole lives and whole runs: what holds between the facts before and after one
    applied event, and is left alone by everything else, holds between any two moments. */
module CollabLaws {
  import opened Basics
  import opened CollabTypes
  import opened CollabInbox
  import opened CollabOutbox
  import opened CollabInvariant
  import opened CollabSteps
  import opened CollabIncoming
  import opened CollabBudget
  import opened CollabFormation
  import CollabAgreement
  import CollabRecording

  /** The negotiated facts stay; at most cursors, the permit, undecided and recovery events
      change. */
  ghost predicate Quietly(core: Core, next: Core) {
    && Extends(core, next) && SameApplied(core, next)
    && next.c == core.c.(outSeq := next.c.outSeq, lastOut := next.c.lastOut, inSeq := next.c.inSeq, lastIn := next.c.lastIn,
                         syncAfter := next.c.syncAfter, permit := next.c.permit)
  }

  /** One event is applied, as it is sent or in its turn. */
  ghost predicate AppliesOne(core: Core, k: Key, now: Instant, outgoing: bool, fin: Core) {
    && Sound(core) && Applies(core, k, now, outgoing, fin) && Extends(core, fin)
    && (outgoing && core.events[k].packet.kind.Agree? ==> core.c.agreement.Some?)
  }

  ghost predicate IsLaw(law: (Core, Core) -> bool) {
    && (forall core, next :: Quietly(core, next) ==> law(core, next))
    && (forall core, k, now, outgoing, fin :: AppliesOne(core, k, now, outgoing, fin) ==> law(core, fin))
    && (forall a, b, c :: law(a, b) && law(b, c) && Extends(a, b) && Extends(b, c) ==> law(a, c))
  }

  lemma QuietSelf(core: Core)
    ensures Quietly(core, core)
  {
    IncomingSelf(core);
  }

  lemma RejectQuiet(core: Core, k: Key, fin: Core)
    requires EventsPlaced(core) && CursorsFit(core) && PartiesDistinct(core.c) && Rejects(core, k, fin)
    ensures Quietly(core, fin)
  {
    RejectRecords(core, k, fin);
    forall j | AppliedAt(core.events, j) ensures AppliedAt(fin.events, j) && FinalKept(core.events[j], fin.events[j]) {
      assert Placed(core.c, j, core.events[j]) && CursorFits(core.c, core.events[j]);
    }
  }

  lemma TurnLaw(core: Core, reviews: map<Packet, Review>, now: Instant, law: (Core, Core) -> bool)
    requires Sound(core) && IsLaw(law) && NextTurn(core, reviews, now).Take?
    ensures law(core, NextTurn(core, reviews, now).core)
  {
    var turn := NextTurn(core, reviews, now);
    TurnCases(core, reviews, now);
    TakeKeeps(core, reviews, now);
    if turn.reason.WasApplied? {
      assert AppliesOne(core, turn.key, now, false, turn.core);
    } else {
      RejectQuiet(core, turn.key, turn.core);
    }
  }

  lemma StepLaw(e: Endpoint, now: Instant, law: (Core, Core) -> bool)
    requires Valid(e) && IsLaw(law) && !DrainStep(e, now).Abort?
    ensures law(e.core, DrainStep(e, now).e.core)
  {
    if NextTurn(e.core, e.reviews, now).Take? {
      TakeKeeps(e.core, e.reviews, now);
      TurnLaw(e.core, e.reviews, now, law);
    } else {
      QuietSelf(e.core);
    }
    StepOps(e, now);
  }

  ghost predicate LawDrained(e: Endpoint, f: Endpoint, law: (Core, Core) -> bool) {
    Drained(e, f) && law(e.core, f.core)
  }

  lemma LawDrainedSelf(e: Endpoint, law: (Core, Core) -> bool)
    requires Valid(e) && IsLaw(law)
    ensures LawDrained(e, e, law)
  {
    ProgressRefl(e);
    QuietSelf(e.core);
  }

  lemma LawDrainedTrans(e: Endpoint, f: Endpoint, g: Endpoint, law: (Core, Core) -> bool)
    requires IsLaw(law) && LawDrained(e, f, law) && LawDrained(f, g, law)
    ensures LawDrained(e, g, law)
  {
    ProgressTrans(e, f, g);
  }

  lemma LawDrainedStep(e: Endpoint, now: Instant, law: (Core, Core) -> bool)
    requires Valid(e) && IsLaw(law) && !DrainStep(e, now).Abort?
    ensures LawDrained(e, DrainStep(e, now).e, law)
  {
    StepKeeps(e, now);
    StepLaw(e, now, law);
  }

  lemma DrainLaw(e: Endpoint, now: Instant, law: (Core, Core) -> bool)
    requires Valid(e) && IsLaw(law) && Drain(e, now).Some?
    ensures law(e.core, Drain(e, now).value.core)
  {
    var inv := (x: Endpoint) => Valid(x);
    var rel := (x: Endpoint, y: Endpoint) => LawDrained(x, y, law);
    forall x | inv(x) ensures rel(x, x) {
      LawDrainedSelf(x, law);
    }
    forall x, y, z | rel(x, y) && rel(y, z) ensures rel(x, z) {
      LawDrainedTrans(x, y, z, law);
    }
    var step := StepAt(now);
    forall x | inv(x) && !step(x).Abort? ensures inv(step(x).e) && rel(x, step(x).e) {
      LawDrainedStep(x, now, law);
    }
    LoopInduction(e, step, MAX_EVENTS, DrainLoop(e, now, MAX_EVENTS).value, inv, rel);
    DrainKeeps(e, now);
  }

  lemma IngestLaw(e: Endpoint, packet: Packet, now: Instant, law: (Core, Core) -> bool)
    requires Valid(e) && IsLaw(law) && IngestRecord(e, packet, now).Some?
    ensures law(e.core, IngestRecord(e, packet, now).value.core)
  {
    var e1 := IngestUnfolds(e, packet, now);
    IngestKeeps(e, packet, now);
    assert Quietly(e.core, e1.core);
    DrainLaw(e1, now, law);
    DrainKeeps(e1, now);
  }

  lemma ReceiveLaw(e: Endpoint, a: Arrival, law: (Core, Core) -> bool)
    requires Valid(e) && IsLaw(law)
    ensures law(e.core, Receive(e, a).core)
  {
    QuietSelf(e.core);
    match a
    case Arrives(packet, now) =>
      if IngestRecord(e, packet, now).Some? {
        IngestLaw(e, packet, now, law);
      }
    case Decides(packet, decision, now) =>
      if DecideReview(e, packet, decision, now).Some? {
        DrainLaw(e.(reviews := e.reviews[packet := decision]), now, law);
      }
  }

  lemma SubmitLaw(e: Endpoint, id: OpId, stored: bool, connected: bool, now: Instant, law: (Core, Core) -> bool)
    requires Valid(e) && IsLaw(law) && Submit(e, id, stored, connected, now).Some?
    ensures law(e.core, Submit(e, id, stored, connected, now).value.core)
  {
    var p := SubmitUnfolds(e, id, stored, connected, now);
    if e.core.events[KeyOf(p)].status.Reserved? {
      var e2 := Apply(e, p, now, true).value;
      var fin := Mark(e2.core, KeyOf(p), Status.Applied);
      SubmitOps(e, id, p, now, e2);
      AgreementSender(e, KeyOf(p));
      AppliesExtends(e.core, KeyOf(p), now, true, fin);
      assert AppliesOne(e.core, KeyOf(p), now, true, fin);
      DeliveredOps(SetStatus(e2, KeyOf(p), Status.Applied), id, stored);
    } else {
      QuietSelf(e.core);
    }
  }

  lemma ReserveQuietly(e: Endpoint, id: OpId, verdict: Verdict, connected: bool, now: Instant)
    requires Valid(e) && Reserve(e, id, verdict, connected, now).Some?
    ensures Quietly(e.core, Reserve(e, id, verdict, connected, now).value.core)
  {
    var p := ReserveUnfolds(e, id, verdict, connected, now);
    ReserveKeeps(e, id, verdict, connected, now);
    ReserveSame(e.core, p, Reserve(e, id, verdict, connected, now).value.core);
  }

  lemma RevokeQuietly(e: Endpoint)
    requires Valid(e)
    ensures Quietly(e.core, Revoke(e).core)
  {
    RevokeKeeps(e);
  }

  lemma DoLaw(e: Endpoint, d: Deed, law: (Core, Core) -> bool)
    requires Valid(e) && IsLaw(law)
    ensures law(e.core, Do(e, d).core)
  {
    QuietSelf(e.core);
    match d
    case ReservesPacket(id, verdict, connected, now) =>
      if Reserve(e, id, verdict, connected, now).Some? {
        ReserveQuietly(e, id, verdict, connected, now);
      }
    case Submits(id, stored, connected, now) =>
      if Submit(e, id, stored, connected, now).Some? {
        SubmitLaw(e, id, stored, connected, now, law);
      }
    case Receives(arrival) => ReceiveLaw(e, arrival, law);
    case Revokes => RevokeQuietly(e);
    case _ => PlainDeed(e, d);
  }

  /** A law holds between the beginning and the end of any life of an endpoint. */
  lemma {:induction false} LifeLaw(e: Endpoint, deeds: seq<Deed>, law: (Core, Core) -> bool)
    requires Valid(e) && IsLaw(law)
    ensures law(e.core, DoAll(e, deeds).core)
    decreases |deeds|
  {
    if deeds == [] {
      QuietSelf(e.core);
    } else {
      var before, d := DoAll(e, deeds[..|deeds|-1]), deeds[|deeds|-1];
      LifeLaw(e, deeds[..|deeds|-1], law);
      DeedsKeep(e, deeds[..|deeds|-1]);
      DoKeeps(before, d);
      DoLaw(before, d, law);
    }
  }

  lemma ActLaw(pair: CollabAgreement.Pair, s: CollabAgreement.System, a: CollabAgreement.Action, side: CollabAgreement.Side,
               law: (Core, Core) -> bool)
    requires pair.first != pair.second && CollabAgreement.SystemFits(pair, s) && IsLaw(law)
    requires CollabAgreement.At(s, side).Bound?
    ensures CollabAgreement.At(CollabAgreement.Act(pair, s, a), side).Bound?
    ensures law(CollabAgreement.At(s, side).e.core, CollabAgreement.At(CollabAgreement.Act(pair, s, a), side).e.core)
  {
    var e := CollabAgreement.At(s, side).e;
    CollabRecording.ActDeed(pair, s, a, side);
    QuietSelf(e.core);
    DoLaw(e, CollabRecording.DeedOf(a), law);
  }

  /** A law holds at a site from the moment it is bound, in any run. */
  lemma {:induction false} RunLaw(pair: CollabAgreement.Pair, s: CollabAgreement.System, actions: seq<CollabAgreement.Action>,
                                  side: CollabAgreement.Side, law: (Core, Core) -> bool)
    requires pair.first != pair.second && CollabAgreement.SystemFits(pair, s) && IsLaw(law)
    requires CollabAgreement.At(s, side).Bound?
    ensures CollabAgreement.At(CollabAgreement.Run(pair, s, actions), side).Bound?
    ensures law(CollabAgreement.At(s, side).e.core, CollabAgreement.At(CollabAgreement.Run(pair, s, actions), side).e.core)
    decreases |actions|
  {
    if actions == [] {
      QuietSelf(CollabAgreement.At(s, side).e.core);
    } else {
      var before := CollabAgreement.Run(pair, s, actions[..|actions|-1]);
      CollabAgreement.RunKeeps(pair, s, actions[..|actions|-1]);
      RunLaw(pair, s, actions[..|actions|-1], side, law);
      ActLaw(pair, before, actions[|actions|-1], side, law);
      CollabAgreement.ActKeeps(pair, before, actions[|actions|-1]);
    }
  }

  // ---- Invariants of whole runs ----

  ghost predicate Opened(core: Core) {
    exists local, task, id, tag, peer, invitation, now ::
      Open(local, task, id, tag, peer, invitation, now).Some? && core == Open(local, task, id, tag, peer, invitation, now).value.core
  }

  /** What holds at binding and is kept by everything that happens to the facts. */
  ghost predicate IsInvariant(inv: Core -> bool) {
    (forall core :: Opened(core) ==> inv(core)) && IsLaw((core: Core, next: Core) => inv(core) ==> inv(next))
  }

  lemma ActOpens(pair: CollabAgreement.Pair, s: CollabAgreement.System, a: CollabAgreement.Action, side: CollabAgreement.Side)
    requires CollabAgreement.At(s, side).Unbound? && CollabAgreement.At(CollabAgreement.Act(pair, s, a), side).Bound?
    ensures Opened(CollabAgreement.At(CollabAgreement.Act(pair, s, a), side).e.core)
  {
    match a
    case OpenFirst(tag, task, now) =>
      assert Open(pair.first, task, pair.collab, tag, pair.second, None, now).Some?;
    case OpenSecond(tag, task, invitation, now) =>
      assert Open(pair.second, task, pair.collab, tag, pair.first, Some(invitation), now).Some?;
    case _ =>
  }

  /** An invariant holds at every bound site of every run. */
  lemma {:induction false} RunInvariant(pair: CollabAgreement.Pair, actions: seq<CollabAgreement.Action>,
                                        side: CollabAgreement.Side, inv: Core -> bool)
    requires pair.first != pair.second && IsInvariant(inv)
    ensures var s := CollabAgreement.Run(pair, CollabAgreement.START, actions);
      CollabAgreement.SystemFits(pair, s)
      && (CollabAgreement.At(s, side).Bound? ==> inv(CollabAgreement.At(s, side).e.core))
    decreases |actions|
  {
    CollabAgreement.StartFits(pair);
    CollabAgreement.RunKeeps(pair, CollabAgreement.START, actions);
    if actions == [] {
    } else {
      var before, a := CollabAgreement.Run(pair, CollabAgreement.START, actions[..|actions|-1]), actions[|actions|-1];
      RunInvariant(pair, actions[..|actions|-1], side, inv);
      if CollabAgreement.At(before, side).Bound? {
        ActLaw(pair, before, a, side, (core: Core, next: Core) => inv(core) ==> inv(next));
      } else if CollabAgreement.At(CollabAgreement.Act(pair, before, a), side).Bound? {
        ActOpens(pair, before, a, side);
      }
    }
  }
}
