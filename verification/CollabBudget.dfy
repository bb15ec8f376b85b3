/** Three budgets pay for what an endpoint sends: the standing permit for templated
    replies, one confirmation per recovery event, and the task's action count. Every
    packet is paid for exactly once, from exactly one of them. */
module CollabBudget {
  import opened Basics
  import opened CollabTypes
  import opened CollabReducer
  import opened CollabInbox
  import opened CollabOutbox
  import opened CollabInvariant
  import opened CollabSteps
  import opened CollabIncoming

  datatype Deed =
    | Prepares(tag: nat, kind: Kind, request: Request, verdict: Verdict, now: Instant)
    | Confirms(id: OpId, approve: bool, now: Instant)
    | ReservesPacket(id: OpId, verdict: Verdict, connected: bool, now: Instant)
    | Submits(id: OpId, stored: bool, connected: bool, now: Instant)
    | Receives(arrival: Arrival)
    | Revokes
    | Blocks(blocked: bool)
    | OtherAction
    | Activates(active: bool)

  function OrSame(e: Endpoint, r: Option<Endpoint>): Endpoint {
    if r.Some? then r.value else e
  }

  /** One transaction of an endpoint; a refused one changes nothing. `OtherAction` is a
      charge to the same task by another feature. */
  ghost function Do(e: Endpoint, d: Deed): Endpoint {
    match d
    case Prepares(tag, kind, request, verdict, now) => OrSame(e, Prepare(e, tag, kind, request, verdict, now))
    case Confirms(id, approve, now) => OrSame(e, Confirm(e, id, approve, now))
    case ReservesPacket(id, verdict, connected, now) => OrSame(e, Reserve(e, id, verdict, connected, now))
    case Submits(id, stored, connected, now) => OrSame(e, Submit(e, id, stored, connected, now))
    case Receives(arrival) => Receive(e, arrival)
    case Revokes => Revoke(e)
    case Blocks(blocked) => e.(blocked := blocked)
    case OtherAction =>
      if e.task.usedCount >= e.task.maxActions then e
      else e.(task := e.task.(usedCount := e.task.usedCount + 1, otherActions := e.task.otherActions + 1))
    case Activates(active) => e.(task := e.task.(active := active))
  }

  ghost function DoAll(e: Endpoint, deeds: seq<Deed>): Endpoint
    decreases |deeds|
  {
    if deeds == [] then e else Do(DoAll(e, deeds[..|deeds|-1]), deeds[|deeds|-1])
  }

  // ---- The accounts ----

  /** The operations paid from one budget that left the ready state. */
  function Left(ops: map<OpId, Operation>, charge: Charge): set<OpId> {
    set id | id in ops && LeftReady(ops[id]) && ChargeOf(ops[id]) == charge
  }

  /** A recovery confirmation is spent exactly when its event left the ready state. */
  predicate RecoverySpent(op: Operation) {
    && (op.recoveryUsed <==> LeftReady(op) && ChargeOf(op).Recovery?)
    && (op.recoveryUsed ==> op.approvedOnce)
  }

  ghost predicate Accounts(e: Endpoint) {
    && e.core.c.permit.Some?
    && e.core.c.permit.value.used == |Left(e.ops, Maintenance)| <= e.core.c.permit.value.maxEvents
    && e.task.usedCount - e.task.otherActions == |Left(e.ops, TaskAction)|
    && e.task.usedCount <= e.task.maxActions
    && forall id :: id in e.ops ==> RecoverySpent(e.ops[id])
  }

  /** What has been paid so far, by budget. */
  datatype Paid = Paid(maintenance: int, recovery: int, task: int)

  ghost function PaidBy(e: Endpoint): Paid
    requires e.core.c.permit.Some?
  {
    Paid(e.core.c.permit.value.used, |set id | id in e.ops && e.ops[id].recoveryUsed|, e.task.usedCount - e.task.otherActions)
  }

  // ---- Operations added without being paid for ----

  predicate Unpaid(op: Operation) {
    !LeftReady(op) && !op.recoveryUsed
  }

  ghost predicate AddsUnpaid(ops: map<OpId, Operation>, next: map<OpId, Operation>) {
    && OpsKept(ops, next)
    && forall id :: id in next && id !in ops ==> id.AutoOp? && Unpaid(next[id])
  }

  /** The permit, but for its revocation, and the task are untouched. */
  predicate SameBudgets(e: Endpoint, f: Endpoint) {
    f.core.c.permit == e.core.c.permit && f.task == e.task
  }

  lemma QueueUnpaid(e: Endpoint, kind: Kind, about: Option<EventId>, now: Instant)
    requires Queue(e, kind, about, now).Some?
    ensures AddsUnpaid(e.ops, Queue(e, kind, about, now).value.ops)
  {
  }

  lemma ReplyUnpaid(e: Endpoint, before: Collab, packet: Packet, now: Instant, outgoing: bool)
    requires Reply(e, before, packet, now, outgoing).Go?
    ensures AddsUnpaid(e.ops, Reply(e, before, packet, now, outgoing).e.ops)
  {
    var kind := ReplyTo(before, e.core.c, packet, outgoing);
    if kind.Some? {
      QueueUnpaid(e, kind.value, None, now);
    }
  }

  lemma UnpaidTrans(a: map<OpId, Operation>, b: map<OpId, Operation>, c: map<OpId, Operation>)
    requires AddsUnpaid(a, b) && AddsUnpaid(b, c)
    ensures AddsUnpaid(a, c)
  {
  }

  lemma ReceiptedUnpaid(e: Endpoint, packet: Packet, now: Instant)
    requires Receipted(e, packet, now).Go?
    ensures AddsUnpaid(e.ops, Receipted(e, packet, now).e.ops)
  {
    QueueUnpaid(e, Receipt, Some(packet.eventId), now);
  }

  lemma StepUnpaid(e: Endpoint, now: Instant)
    requires !DrainStep(e, now).Abort?
    ensures AddsUnpaid(e.ops, DrainStep(e, now).e.ops)
  {
    match NextTurn(e.core, e.reviews, now)
    case Take(key, core, reason) =>
      var packet := e.core.events[key].packet;
      var e1 := e.(core := core);
      if reason.WasApplied? {
        var e2 := e1.(view := ViewAfter(e.view, e.core, core, packet, false));
        ReplyUnpaid(e2, e.core.c, packet, now, false);
        var e3 := Reply(e2, e.core.c, packet, now, false).e;
        if !Unreceipted(packet.kind) {
          ReceiptedUnpaid(e3, packet, now);
          UnpaidTrans(e.ops, e3.ops, DrainStep(e, now).e.ops);
        }
      } else if reason.Expired? || (!reason.ReviewDeclined? && !Unreceipted(packet.kind)) {
        ReceiptedUnpaid(e1, packet, now);
      }
    case _ =>
  }

  lemma DrainUnpaid(e: Endpoint, now: Instant)
    requires Drain(e, now).Some?
    ensures AddsUnpaid(e.ops, Drain(e, now).value.ops)
  {
    var step := StepAt(now);
    var rel := (x: Endpoint, y: Endpoint) => AddsUnpaid(x.ops, y.ops);
    forall x | !step(x).Abort? ensures rel(x, step(x).e) {
      StepUnpaid(x, now);
    }
    var e1 := DrainLoop(e, now, MAX_EVENTS).value;
    LoopInduction(e, step, MAX_EVENTS, e1, (x: Endpoint) => true, rel);
    if HasGap(e1.core) && !(e1.view.waiting.PeerReview? && !SafeContent(e1)) && !e1.core.c.closure.Cancelled? {
      QueueUnpaid(e1.(view := View(Reconciling, MissingEvent)), SyncRequest, None, now);
      UnpaidTrans(e.ops, e1.ops, Drain(e, now).value.ops);
    }
  }

  lemma ApplyUnpaid(e: Endpoint, p: Packet, now: Instant, outgoing: bool)
    requires Apply(e, p, now, outgoing).Done?
    ensures AddsUnpaid(e.ops, Apply(e, p, now, outgoing).value.ops)
  {
    var core := ApplyCore(e.core, p, now, outgoing).value;
    ReplyUnpaid(e.(core := core, view := ViewAfter(e.view, e.core, core, p, outgoing)), e.core.c, p, now, outgoing);
  }

  lemma BoundUnpaid(e: Endpoint, p: Packet, now: Instant)
    requires IngestBound(e, p, now).Done?
    ensures AddsUnpaid(e.ops, IngestBound(e, p, now).value.ops)
  {
    if KeyOf(p) !in e.core.events {
      var e1 := e.(core := Admit(e.core, p, now).value);
      if IsSync(p.kind) && Apply(e1, p, now, false).Done? {
        ApplyUnpaid(e1, p, now, false);
      }
    }
  }

  lemma IngestUnpaid(e: Endpoint, packet: Packet, now: Instant)
    requires IngestRecord(e, packet, now).Some?
    ensures AddsUnpaid(e.ops, IngestRecord(e, packet, now).value.ops)
  {
    var e1 := IngestUnfolds(e, packet, now);
    BoundUnpaid(e, packet, now);
    DrainUnpaid(e1, now);
    UnpaidTrans(e.ops, e1.ops, IngestRecord(e, packet, now).value.ops);
  }

  /** Nothing that arrives is paid for. */
  lemma ReceiveUnpaid(e: Endpoint, a: Arrival)
    requires Valid(e)
    ensures AddsUnpaid(e.ops, Receive(e, a).ops) && SameBudgets(e, Receive(e, a))
  {
    match a
    case Arrives(packet, now) =>
      if IngestRecord(e, packet, now).Some? {
        IngestRecordKeeps(e, packet, now);
        IngestUnpaid(e, packet, now);
      }
    case Decides(packet, decision, now) =>
      if DecideReview(e, packet, decision, now).Some? {
        DrainKeeps(e.(reviews := e.reviews[packet := decision]), now);
        DrainUnpaid(e.(reviews := e.reviews[packet := decision]), now);
      }
  }

  // ---- Each transaction against the accounts ----

  /** Nothing was paid between the two. */
  ghost predicate PaidNothing(e: Endpoint, f: Endpoint) {
    && f.core.c.permit.Some? && e.core.c.permit.Some?
    && f.core.c.permit.value.used == e.core.c.permit.value.used
    && f.core.c.permit.value.maxEvents == e.core.c.permit.value.maxEvents
    && f.task.usedCount - f.task.otherActions == e.task.usedCount - e.task.otherActions
    && (forall charge :: Left(f.ops, charge) == Left(e.ops, charge))
    && (forall id :: id in f.ops ==> RecoverySpent(f.ops[id]))
  }

  lemma RecoveryPaid(e: Endpoint)
    requires Accounts(e)
    ensures PaidBy(e).recovery == |Left(e.ops, Recovery)|
  {
    assert (set id | id in e.ops && e.ops[id].recoveryUsed) == Left(e.ops, Recovery) by {
      forall id | id in e.ops ensures e.ops[id].recoveryUsed <==> id in Left(e.ops, Recovery) {
        assert RecoverySpent(e.ops[id]);
      }
    }
  }

  lemma NothingKeeps(e: Endpoint, f: Endpoint)
    requires Accounts(e) && PaidNothing(e, f) && f.task.usedCount <= f.task.maxActions
    ensures Accounts(f) && PaidBy(f) == PaidBy(e)
  {
    assert Left(f.ops, Maintenance) == Left(e.ops, Maintenance) && Left(f.ops, TaskAction) == Left(e.ops, TaskAction);
    assert Left(f.ops, Recovery) == Left(e.ops, Recovery);
    RecoveryPaid(e);
    RecoveryPaid(f);
  }

  lemma UnpaidNothing(e: Endpoint, f: Endpoint)
    requires Accounts(e) && AddsUnpaid(e.ops, f.ops) && SameBudgets(e, f)
    ensures PaidNothing(e, f)
  {
    forall charge ensures Left(f.ops, charge) == Left(e.ops, charge) {
      forall id ensures id in Left(f.ops, charge) <==> id in Left(e.ops, charge) {
      }
    }
    forall id | id in f.ops ensures RecoverySpent(f.ops[id]) {
      assert id in e.ops ==> RecoverySpent(e.ops[id]);
    }
  }

  /** Replacing one operation by one that left the ready state as before. */
  lemma ReplacedNothing(e: Endpoint, f: Endpoint, id: OpId, op: Operation)
    requires Accounts(e) && SameBudgets(e, f) && f.ops == e.ops[id := op]
    requires id in e.ops ==> LeftReady(op) == LeftReady(e.ops[id]) && ChargeOf(op) == ChargeOf(e.ops[id])
    requires id !in e.ops ==> !LeftReady(op)
    requires RecoverySpent(op)
    ensures PaidNothing(e, f)
  {
    forall charge ensures Left(f.ops, charge) == Left(e.ops, charge) {
      forall j ensures j in Left(f.ops, charge) <==> j in Left(e.ops, charge) {
      }
    }
    forall j | j in f.ops ensures RecoverySpent(f.ops[j]) {
      assert j in e.ops ==> RecoverySpent(e.ops[j]);
    }
  }

  lemma PrepareNothing(e: Endpoint, id: nat, kind: Kind, request: Request, verdict: Verdict, now: Instant)
    requires Accounts(e) && Prepare(e, id, kind, request, verdict, now).Some?
    ensures PaidNothing(e, Prepare(e, id, kind, request, verdict, now).value)
  {
    var op := PreparedOperation(e, id, kind, request, verdict, now);
    ReplacedNothing(e, Prepare(e, id, kind, request, verdict, now).value, UserOp(id), op);
  }

  lemma ConfirmNothing(e: Endpoint, id: OpId, approve: bool, now: Instant)
    requires Accounts(e) && Confirm(e, id, approve, now).Some?
    ensures PaidNothing(e, Confirm(e, id, approve, now).value)
  {
    var f := Confirm(e, id, approve, now).value;
    assert RecoverySpent(e.ops[id]);
    ReplacedNothing(e, f, id, f.ops[id]);
  }

  lemma NothingTrans(e: Endpoint, f: Endpoint, g: Endpoint)
    requires PaidNothing(e, f) && PaidNothing(f, g)
    ensures PaidNothing(e, g)
  {
    forall charge ensures Left(g.ops, charge) == Left(e.ops, charge) {
      assert Left(f.ops, charge) == Left(e.ops, charge);
    }
  }

  lemma DeliveredNothing(e: Endpoint, id: OpId, stored: bool)
    requires Accounts(e) && id in e.ops && LeftReady(e.ops[id])
    ensures PaidNothing(e, Delivered(e, id, stored))
  {
    assert RecoverySpent(e.ops[id]);
    var op := if stored then e.ops[id].(status := OpStatus.Accepted) else e.ops[id];
    assert Delivered(e, id, stored).ops == e.ops[id := op];
    ReplacedNothing(e, Delivered(e, id, stored), id, op);
  }

  /** Sending and sending again is not paid for. */
  lemma SubmitNothing(e: Endpoint, id: OpId, stored: bool, connected: bool, now: Instant)
    requires Valid(e) && Accounts(e) && Submit(e, id, stored, connected, now).Some?
    ensures PaidNothing(e, Submit(e, id, stored, connected, now).value)
    ensures Submit(e, id, stored, connected, now).value.task == e.task
  {
    var p := SubmitUnfolds(e, id, stored, connected, now);
    if e.core.events[KeyOf(p)].status.Reserved? {
      AppliedNothing(e, id, p, stored, now);
    } else {
      DeliveredNothing(e, id, stored);
    }
  }

  lemma AppliedNothing(e: Endpoint, id: OpId, p: Packet, stored: bool, now: Instant)
    requires OpsFit(e.core, e.ops) && Accounts(e) && id in e.ops && e.ops[id].status.Sending? && Apply(e, p, now, true).Done?
    ensures var g := Delivered(SetStatus(Apply(e, p, now, true).value, KeyOf(p), Status.Applied), id, stored);
      PaidNothing(e, g) && g.task == e.task
  {
    var f := SetStatus(Apply(e, p, now, true).value, KeyOf(p), Status.Applied);
    ApplyUnpaid(e, p, now, true);
    ApplyOutgoingOps(e, p, now);
    OutgoingFrame(e.core, p, now);
    UnpaidNothing(e, f);
    NothingKeeps(e, f);
    DeliveredNothing(f, id, stored);
    NothingTrans(e, f, Delivered(f, id, stored));
  }

  // ---- The one transaction that pays ----

  function Pays(paid: Paid, charge: Charge): Paid {
    match charge
    case Maintenance => paid.(maintenance := paid.maintenance + 1)
    case Recovery => paid.(recovery := paid.recovery + 1)
    case TaskAction => paid.(task := paid.task + 1)
  }

  /** What a reservation does to the operations and the budgets. */
  predicate PaysFor(e: Endpoint, f: Endpoint, id: OpId) {
    && id in e.ops && id in f.ops && e.ops[id].status.Ready? && f.ops[id].status.Sending?
    && ChargeOf(f.ops[id]) == ChargeOf(e.ops[id]) && f.ops == e.ops[id := f.ops[id]]
    && f.ops[id].recoveryUsed == ChargeOf(e.ops[id]).Recovery?
    && (ChargeOf(e.ops[id]).Recovery? ==> f.ops[id].approvedOnce)
    && e.core.c.permit.Some? && f.core.c.permit.Some?
    && f.core.c.permit.value.maxEvents == e.core.c.permit.value.maxEvents
    && f.core.c.permit.value.used == e.core.c.permit.value.used + (if ChargeOf(e.ops[id]).Maintenance? then 1 else 0)
    && f.task == e.task.(usedCount := e.task.usedCount + if ChargeOf(e.ops[id]).TaskAction? then 1 else 0)
    && f.core.c.permit.value.used <= f.core.c.permit.value.maxEvents && f.task.usedCount <= f.task.maxActions
  }

  lemma ReserveCharges(e: Endpoint, id: OpId, verdict: Verdict, connected: bool, now: Instant)
    requires e.core.c.permit.Some? && e.core.c.permit.value.used <= e.core.c.permit.value.maxEvents
    requires e.task.usedCount <= e.task.maxActions && id in e.ops && !e.ops[id].recoveryUsed
    requires Reserve(e, id, verdict, connected, now).Some?
    ensures PaysFor(e, Reserve(e, id, verdict, connected, now).value, id)
  {
    var f := Reserve(e, id, verdict, connected, now).value;
    assert f.ops == e.ops[id := f.ops[id]];
  }

  lemma LeftAfter(e: Endpoint, f: Endpoint, id: OpId, charge: Charge)
    requires PaysFor(e, f, id)
    ensures |Left(f.ops, charge)| == |Left(e.ops, charge)| + if charge == ChargeOf(e.ops[id]) then 1 else 0
  {
    if charge == ChargeOf(e.ops[id]) {
      assert Left(f.ops, charge) == Left(e.ops, charge) + {id};
    } else {
      assert Left(f.ops, charge) == Left(e.ops, charge);
    }
  }

  lemma PaidFor(e: Endpoint, f: Endpoint, id: OpId)
    requires Accounts(e) && PaysFor(e, f, id)
    ensures Accounts(f) && PaidBy(f) == Pays(PaidBy(e), ChargeOf(e.ops[id]))
  {
    LeftAfter(e, f, id, Maintenance);
    LeftAfter(e, f, id, Recovery);
    LeftAfter(e, f, id, TaskAction);
    forall j | j in f.ops ensures RecoverySpent(f.ops[j]) {
      assert j in e.ops && RecoverySpent(e.ops[j]);
    }
    assert Accounts(f);
    RecoveryPaid(e);
    RecoveryPaid(f);
  }

  lemma ReservePays(e: Endpoint, id: OpId, verdict: Verdict, connected: bool, now: Instant)
    requires Accounts(e) && Reserve(e, id, verdict, connected, now).Some?
    ensures var f := Reserve(e, id, verdict, connected, now).value;
      Accounts(f) && PaidBy(f) == Pays(PaidBy(e), ChargeOf(e.ops[id]))
  {
    assert RecoverySpent(e.ops[id]);
    ReserveCharges(e, id, verdict, connected, now);
    PaidFor(e, Reserve(e, id, verdict, connected, now).value, id);
  }

  // ---- All transactions ----

  lemma SameFactsValid(e: Endpoint, f: Endpoint)
    requires Valid(e) && f.core == e.core && OpsFit(f.core, f.ops)
    ensures Valid(f)
  {
  }

  lemma DoValid(e: Endpoint, d: Deed)
    requires Valid(e)
    ensures Valid(Do(e, d))
  {
    match d
    case ReservesPacket(id, verdict, connected, now) =>
      if Reserve(e, id, verdict, connected, now).Some? {
        ReserveKeeps(e, id, verdict, connected, now);
      }
    case Submits(id, stored, connected, now) =>
      if Submit(e, id, stored, connected, now).Some? {
        SubmitKeeps(e, id, stored, connected, now);
      }
    case Receives(arrival) => ReceiveKeeps(e, arrival);
    case Revokes => RevokeKeeps(e);
    case _ =>
      PlainDeed(e, d);
      SameFactsValid(e, Do(e, d));
  }

  lemma PlainDeed(e: Endpoint, d: Deed)
    requires OpsFit(e.core, e.ops) && !d.ReservesPacket? && !d.Submits? && !d.Receives? && !d.Revokes?
    ensures Do(e, d).core == e.core && OpsFit(Do(e, d).core, Do(e, d).ops)
  {
    match d
    case Prepares(tag, kind, request, verdict, now) =>
      if Prepare(e, tag, kind, request, verdict, now).Some? {
        PrepareKeeps(e, tag, kind, request, verdict, now);
      }
    case Confirms(id, approve, now) =>
      if Confirm(e, id, approve, now).Some? {
        ConfirmKeeps(e, id, approve, now);
      }
    case _ =>
  }

  /** The deed reserves a packet. */
  predicate Reserving(e: Endpoint, d: Deed) {
    d.ReservesPacket? && Reserve(e, d.id, d.verdict, d.connected, d.now).Some?
  }

  /** Budget conservation, one transaction: a reservation pays for one packet from the
      one budget its operation belongs to; preparing, confirming, sending, sending again,
      receiving and revoking pay nothing. No budget is ever overdrawn. */
  lemma DoPays(e: Endpoint, d: Deed)
    requires Valid(e) && Accounts(e)
    ensures Accounts(Do(e, d))
    ensures PaidBy(Do(e, d)) == if Reserving(e, d) then Pays(PaidBy(e), ChargeOf(e.ops[d.id])) else PaidBy(e)
  {
    match d
    case ReservesPacket(id, verdict, connected, now) =>
      if Reserve(e, id, verdict, connected, now).Some? {
        ReservePays(e, id, verdict, connected, now);
      }
    case Receives(arrival) =>
      ReceiveUnpaid(e, arrival);
      UnpaidNothing(e, Receive(e, arrival));
      NothingKeeps(e, Receive(e, arrival));
    case Revokes => LooseDeed(e, d);
    case Blocks(blocked) => LooseDeed(e, d);
    case OtherAction => LooseDeed(e, d);
    case Activates(active) => LooseDeed(e, d);
    case _ => FreeDeed(e, d);
  }

  lemma LooseDeed(e: Endpoint, d: Deed)
    requires Accounts(e) && (d.Revokes? || d.Blocks? || d.OtherAction? || d.Activates?)
    ensures Accounts(Do(e, d)) && PaidBy(Do(e, d)) == PaidBy(e)
  {
    assert Do(e, d).ops == e.ops;
    NothingKeeps(e, Do(e, d));
  }

  lemma FreeDeed(e: Endpoint, d: Deed)
    requires Valid(e) && Accounts(e) && (d.Prepares? || d.Confirms? || d.Submits?)
    ensures Accounts(Do(e, d)) && PaidBy(Do(e, d)) == PaidBy(e)
  {
    match d
    case Submits(id, stored, connected, now) =>
      if Submit(e, id, stored, connected, now).Some? {
        SubmitNothing(e, id, stored, connected, now);
        NothingKeeps(e, Do(e, d));
      }
    case _ => PreparingDeed(e, d);
  }

  lemma PreparingDeed(e: Endpoint, d: Deed)
    requires OpsFit(e.core, e.ops) && Accounts(e) && (d.Prepares? || d.Confirms?)
    ensures Accounts(Do(e, d)) && PaidBy(Do(e, d)) == PaidBy(e)
  {
    match d
    case Prepares(tag, kind, request, verdict, now) =>
      if Prepare(e, tag, kind, request, verdict, now).Some? {
        PrepareNothing(e, tag, kind, request, verdict, now);
        PrepareKeeps(e, tag, kind, request, verdict, now);
        NothingKeeps(e, Do(e, d));
      }
    case Confirms(id, approve, now) =>
      if Confirm(e, id, approve, now).Some? {
        ConfirmNothing(e, id, approve, now);
        NothingKeeps(e, Do(e, d));
      }
  }

  lemma {:induction false} DoAllPays(e: Endpoint, deeds: seq<Deed>)
    requires Valid(e) && Accounts(e)
    ensures Valid(DoAll(e, deeds)) && Accounts(DoAll(e, deeds))
    decreases |deeds|
  {
    if deeds == [] {
    } else {
      DoAllPays(e, deeds[..|deeds|-1]);
      DoValid(DoAll(e, deeds[..|deeds|-1]), deeds[|deeds|-1]);
      DoPays(DoAll(e, deeds[..|deeds|-1]), deeds[|deeds|-1]);
    }
  }

  // ---- Packets and payments ----

  ghost function Outgoing(core: Core): set<Key> {
    set k | k in core.events && core.events[k].outgoing
  }

  function KeysOf(local: Urn, ids: set<OpId>): set<Key> {
    set id | id in ids :: Key(local, EventOf(id))
  }

  lemma {:induction false} KeysCount(local: Urn, ids: set<OpId>)
    ensures |KeysOf(local, ids)| == |ids|
    decreases ids
  {
    if ids == {} {
    } else {
      var id :| id in ids;
      KeysCount(local, ids - {id});
      assert KeysOf(local, ids) == KeysOf(local, ids - {id}) + {Key(local, EventOf(id))};
    }
  }

  lemma OutgoingKeys(e: Endpoint)
    requires Valid(e)
    ensures Outgoing(e.core) == KeysOf(e.core.c.local, set id | id in e.ops && LeftReady(e.ops[id]))
  {
    var ids := set id | id in e.ops && LeftReady(e.ops[id]);
    forall k | k in Outgoing(e.core) ensures k in KeysOf(e.core.c.local, ids) {
      assert HasOperation(e.core, e.ops, k) && Placed(e.core.c, k, e.core.events[k]);
      assert k == Key(e.core.c.local, EventOf(k.eventId.op)) && k.eventId.op in ids;
    }
    forall id | id in ids ensures Key(e.core.c.local, EventOf(id)) in Outgoing(e.core) {
      assert OpFits(e.core, id, e.ops[id]);
    }
  }

  lemma LeftParts(ops: map<OpId, Operation>)
    ensures |set id | id in ops && LeftReady(ops[id])|
         == |Left(ops, Maintenance)| + |Left(ops, Recovery)| + |Left(ops, TaskAction)|
  {
    var m, r, t := Left(ops, Maintenance), Left(ops, Recovery), Left(ops, TaskAction);
    assert (set id | id in ops && LeftReady(ops[id])) == m + r + t;
    assert m * r == {} && (m + r) * t == {};
  }

  /** Every stored outgoing packet was paid for exactly once, from exactly one budget. */
  lemma PacketsPaid(e: Endpoint)
    requires Valid(e) && Accounts(e)
    ensures |Outgoing(e.core)| == PaidBy(e).maintenance + PaidBy(e).recovery + PaidBy(e).task
  {
    OutgoingKeys(e);
    KeysCount(e.core.c.local, set id | id in e.ops && LeftReady(e.ops[id]));
    LeftParts(e.ops);
    RecoveryPaid(e);
  }

  /** A collaboration opens with one packet, paid by the task. */
  lemma OpenPays(local: Urn, task: Task, id: nat, tag: nat, peer: Urn, invitation: Option<Packet>, now: Instant)
    requires task.usedCount == task.otherActions && Open(local, task, id, tag, peer, invitation, now).Some?
    ensures var e := Open(local, task, id, tag, peer, invitation, now).value;
      Accounts(e) && PaidBy(e) == Paid(0, 0, 1)
  {
    var e := Open(local, task, id, tag, peer, invitation, now).value;
    assert Left(e.ops, Maintenance) == {} && Left(e.ops, TaskAction) == {UserOp(tag)};
    assert (set j | j in e.ops && e.ops[j].recoveryUsed) == {};
  }

  /** Budget conservation, whole runs: from the opening on, the stored outgoing packets
      are as many as the payments of the three budgets together, the permit pays at most
      its limit, the task at most its maximum, and each recovery confirmation at most
      one. */
  lemma BudgetConservation(local: Urn, task: Task, id: nat, tag: nat, peer: Urn, invitation: Option<Packet>, now: Instant,
                           deeds: seq<Deed>)
    requires task.usedCount == task.otherActions && Open(local, task, id, tag, peer, invitation, now).Some?
    ensures var e := DoAll(Open(local, task, id, tag, peer, invitation, now).value, deeds);
      && Accounts(e)
      && |Outgoing(e.core)| == PaidBy(e).maintenance + PaidBy(e).recovery + PaidBy(e).task
  {
    OpenValid(local, task, id, tag, peer, invitation, now);
    OpenPays(local, task, id, tag, peer, invitation, now);
    var e := Open(local, task, id, tag, peer, invitation, now).value;
    DoAllPays(e, deeds);
    PacketsPaid(DoAll(e, deeds));
  }
}
