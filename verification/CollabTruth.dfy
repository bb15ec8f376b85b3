/** What one party may believe about the other, in every run: a receipt tells the truth,
    a completed or cancelled collaboration was completed or cancelled by both. */
module CollabTruth {
  import opened Basics
  import opened CollabTypes
  import opened CollabReducer
  import opened CollabInvariant
  import opened CollabSteps
  import opened CollabLaws
  import opened CollabGuards
  import opened CollabAgreement

  // ---- Receipts ----

  /** `j` is an applied incoming receipt that says `p` about the event `k`. */
  predicate Tells(core: Core, j: Key, k: Key, p: Payload) {
    && AppliedAt(core.events, j) && !core.events[j].outgoing && core.events[j].packet.kind.Receipt?
    && core.events[j].packet.payload == p && p.ReceiptBody?
    && k == Key(core.c.local, p.eventId) && k in core.events && p.eventDigest == EventDigestOf(core.events[k].packet)
  }

  ghost predicate ReceiptTold(core: Core, k: Key)
    requires k in core.events
  {
    core.events[k].receipt.Some? ==> exists j :: Tells(core, j, k, core.events[k].receipt.value)
  }

  /** Whatever is noted about an event was told by a receipt of the peer. */
  ghost predicate ReceiptsTold(core: Core) {
    forall k :: k in core.events ==> ReceiptTold(core, k)
  }

  lemma TellsKept(core: Core, next: Core, j: Key, k: Key, p: Payload)
    requires Tells(core, j, k, p) && Extends(core, next)
    ensures Tells(next, j, k, p)
  {
    assert FinalKept(core.events[j], next.events[j]) && FinalKept(core.events[k], next.events[k]);
  }

  /** What an applied receipt notes, and where. */
  lemma ReceiptTaken(core: Core, packet: Packet, now: Instant, outgoing: bool)
    requires packet.kind.Receipt?
    ensures ApplyCore(core, packet, now, outgoing).Done? <==>
      && packet.payload.ReceiptBody? && Key(packet.recipient, packet.payload.eventId) in core.events
      && packet.payload.eventDigest == EventDigestOf(core.events[Key(packet.recipient, packet.payload.eventId)].packet)
      && !packet.payload.report.ReportsOther?
    ensures ApplyCore(core, packet, now, outgoing).Done? ==>
      var next, k := ApplyCore(core, packet, now, outgoing).value, Key(packet.recipient, packet.payload.eventId);
      if outgoing then next == core
      else next.events == core.events[k := core.events[k].(receipt := Some(packet.payload))]
           && next.c == core.c.(withdrawPending := next.c.withdrawPending, synced := next.c.synced, closure := next.c.closure)
  {
  }

  lemma OthersNote(core: Core, packet: Packet, now: Instant, outgoing: bool)
    requires outgoing || !IsSync(packet.kind)
    requires ApplyCore(core, packet, now, outgoing).Done? && !packet.kind.Receipt?
    ensures ApplyCore(core, packet, now, outgoing).value.events == core.events
  {
    match packet.kind
    case Accept =>
    case Agree =>
    case Withdraw =>
    case SyncRequest =>
    case SyncResponse =>
    case _ =>
  }

  /** What one event notes. */
  lemma NotesAt(core: Core, packet: Packet, now: Instant, outgoing: bool, l: Key)
    requires outgoing || !IsSync(packet.kind)
    requires ApplyCore(core, packet, now, outgoing).Done? && l in core.events
    ensures var next := ApplyCore(core, packet, now, outgoing).value;
      && l in next.events
      && (next.events[l].receipt == core.events[l].receipt
          || (&& packet.kind.Receipt? && !outgoing && packet.payload.ReceiptBody? && l == Key(packet.recipient, packet.payload.eventId)
              && packet.payload.eventDigest == EventDigestOf(core.events[l].packet)
              && next.events[l].receipt == Some(packet.payload)))
  {
    if packet.kind.Receipt? {
      ReceiptTaken(core, packet, now, outgoing);
    } else {
      OthersNote(core, packet, now, outgoing);
    }
  }

  /** One applied event: its records are as before, but for a receipt that it brings. */
  lemma NotesOnly(core: Core, k: Key, now: Instant, outgoing: bool, fin: Core, l: Key)
    requires AppliesOne(core, k, now, outgoing, fin) && l in fin.events
    ensures l in core.events
    ensures fin.events[l].receipt == core.events[l].receipt
            || (fin.events[l].receipt == Some(core.events[k].packet.payload) && Tells(fin, k, l, core.events[k].packet.payload))
  {
    assert Placed(core.c, k, core.events[k]);
    AppliesFrame(core, k, now, outgoing, fin);
    NotesAt(Before(core, core.events[k].packet, outgoing), core.events[k].packet, now, outgoing, l);
  }

  lemma AppliedTold(core: Core, k: Key, now: Instant, outgoing: bool, fin: Core)
    requires AppliesOne(core, k, now, outgoing, fin) && ReceiptsTold(core)
    ensures ReceiptsTold(fin)
  {
    forall l | l in fin.events ensures ReceiptTold(fin, l) {
      NotesOnly(core, k, now, outgoing, fin, l);
      if fin.events[l].receipt.Some? && fin.events[l].receipt == core.events[l].receipt {
        assert ReceiptTold(core, l);
        var j :| Tells(core, j, l, core.events[l].receipt.value);
        TellsKept(core, fin, j, l, core.events[l].receipt.value);
      }
    }
  }

  lemma QuietTold(core: Core, next: Core)
    requires Quietly(core, next) && ReceiptsTold(core)
    ensures ReceiptsTold(next)
  {
    forall l | l in next.events ensures ReceiptTold(next, l) {
      if next.events[l].receipt.Some? {
        assert ReceiptTold(core, l);
        var j :| Tells(core, j, l, core.events[l].receipt.value);
        TellsKept(core, next, j, l, core.events[l].receipt.value);
      }
    }
  }

  lemma OpenedTold(core: Core)
    requires Opened(core)
    ensures ReceiptsTold(core)
  {
  }

  lemma ToldInvariant()
    ensures IsInvariant((core: Core) => ReceiptsTold(core))
  {
    forall core | Opened(core) ensures ReceiptsTold(core) {
      OpenedTold(core);
    }
    forall core, next | Quietly(core, next) && ReceiptsTold(core) ensures ReceiptsTold(next) {
      QuietTold(core, next);
    }
    forall core, k, now, outgoing, fin | AppliesOne(core, k, now, outgoing, fin) && ReceiptsTold(core)
      ensures ReceiptsTold(fin)
    {
      AppliedTold(core, k, now, outgoing, fin);
    }
  }

  /** What a site sent, it vouches for. */
  lemma SentVouches(site: Site, p: Packet)
    requires site.Bound? && Valid(site.e) && SentBy(site, p)
    ensures Vouches(site.e.core, p.kind, p.payload)
  {
    assert HasOperation(site.e.core, site.e.ops, KeyOf(p));
    var id := KeyOf(p).eventId.op;
    assert OpFits(site.e.core, id, site.e.ops[id]);
  }

  /** Receipts tell the truth: in every run, what a party notes about one of its events is
      said of exactly the event that the other party stores, and "applied" and "rejected"
      are the status that it has there. */
  lemma TrueReceipts(pair: Pair, actions: seq<Action>, side: Side, k: Key)
    requires pair.first != pair.second
    requires var s := Run(pair, START, actions);
      At(s, side).Bound? && k in At(s, side).e.core.events && At(s, side).e.core.events[k].receipt.Some?
    ensures var s := Run(pair, START, actions);
      var r, other := At(s, side).e.core.events[k], At(s, Other(side));
      && other.Bound? && k in other.e.core.events && other.e.core.events[k].packet == r.packet && r.receipt.value.ReceiptBody?
      && (r.receipt.value.report.ReportsApplied? ==> other.e.core.events[k].status.Applied?)
      && (r.receipt.value.report.ReportsRejected? ==> other.e.core.events[k].status.Rejected?)
  {
    ToldInvariant();
    RunInvariant(pair, actions, side, (core: Core) => ReceiptsTold(core));
    var s := Run(pair, START, actions);
    var core := At(s, side).e.core;
    assert ReceiptTold(core, k);
    var j :| Tells(core, j, k, core.events[k].receipt.value);
    Pieces(pair, s, side);
    assert SentBy(At(s, Other(side)), core.events[j].packet);
    SentVouches(At(s, Other(side)), core.events[j].packet);
  }

  // ---- Completion ----

  predicate NamesOwn(core: Core, k: Key) {
    && AppliedAt(core.events, k) && core.events[k].packet.kind.AgreementAck?
    && core.events[k].packet.sender != core.c.initiator && core.c.agreement.Some?
    && core.events[k].packet.payload == AgreementNameBody(core.c.agreement.value.id)
  }

  /** `j` acknowledges the agreement, or reports that the own acknowledgement was applied. */
  predicate Completes(core: Core, j: Key) {
    && AppliedAt(core.events, j) && !core.events[j].outgoing
    && var p := core.events[j].packet;
       || p.kind.AgreementAck?
       || (&& p.kind.Receipt? && p.payload.ReceiptBody? && p.payload.report.ReportsApplied?
           && Key(core.c.local, p.payload.eventId) in core.events
           && core.events[Key(core.c.local, p.payload.eventId)].packet.kind.AgreementAck?
           && p.payload.eventDigest == EventDigestOf(core.events[Key(core.c.local, p.payload.eventId)].packet))
  }

  ghost predicate AcksNamed(core: Core) {
    forall k :: AppliedAt(core.events, k) && core.events[k].packet.kind.AgreementAck? ==> NamesOwn(core, k)
  }

  ghost predicate Completed(core: Core) {
    && (core.c.synced ==> exists j :: Completes(core, j))
    && (core.c.closure.Complete? ==> core.c.synced)
  }

  lemma CompletesKept(core: Core, next: Core, j: Key)
    requires Completes(core, j) && Extends(core, next)
    ensures Completes(next, j)
  {
    assert FinalKept(core.events[j], next.events[j]);
    var p := core.events[j].packet;
    if p.kind.Receipt? {
      var l := Key(core.c.local, p.payload.eventId);
      assert FinalKept(core.events[l], next.events[l]);
    }
  }

  lemma NamesOwnKept(core: Core, next: Core, k: Key)
    requires NamesOwn(core, k) && Extends(core, next)
    ensures NamesOwn(next, k)
  {
    assert FinalKept(core.events[k], next.events[k]);
  }

  lemma OthersComplete(core: Core, packet: Packet, now: Instant, outgoing: bool)
    requires outgoing || !IsSync(packet.kind)
    requires ApplyCore(core, packet, now, outgoing).Done? && !packet.kind.AgreementAck? && !packet.kind.Receipt?
    ensures var d := ApplyCore(core, packet, now, outgoing).value.c;
      d.synced == core.c.synced && (d.closure.Complete? ==> core.c.closure.Complete?)
  {
    match packet.kind
    case Accept =>
    case Agree =>
    case Withdraw =>
    case SyncRequest =>
    case SyncResponse =>
    case _ =>
  }

  /** A receipt completes a collaboration by reporting the own acknowledgement applied. */
  lemma ReceiptCompletes(core: Core, packet: Packet, now: Instant, outgoing: bool)
    requires packet.kind.Receipt? && ApplyCore(core, packet, now, outgoing).Done?
    ensures var c, d := core.c, ApplyCore(core, packet, now, outgoing).value.c;
      var k := Key(packet.recipient, packet.payload.eventId);
      && packet.payload.ReceiptBody? && k in core.events
      && (!outgoing && core.events[k].packet.kind.AgreementAck? && packet.payload.report.ReportsApplied? && !c.closure.Cancelled?
          ==> d.synced && d.closure.Complete?)
      && (outgoing || !core.events[k].packet.kind.AgreementAck? || !packet.payload.report.ReportsApplied? || c.closure.Cancelled?
          ==> d.synced == c.synced && d.closure == c.closure)
      && d.withdrawPending == (c.withdrawPending
           && !(!outgoing && core.events[k].packet.kind.Withdraw? && packet.payload.report.ReportsApplied? && c.agreement.None?))
  {
  }

  /** Only these two events complete, and what completes also synchronizes. */
  lemma CompletesOnly(core: Core, packet: Packet, now: Instant, outgoing: bool)
    requires outgoing || !IsSync(packet.kind)
    requires ApplyCore(core, packet, now, outgoing).Done?
    ensures var c, d, p := core.c, ApplyCore(core, packet, now, outgoing).value.c, packet.payload;
      && (c.synced ==> d.synced) && (d.closure.Complete? ==> d.synced || c.closure.Complete?)
      && (d.synced && !c.synced ==>
            && !outgoing
            && (packet.kind.AgreementAck?
                || (&& packet.kind.Receipt? && p.ReceiptBody? && p.report.ReportsApplied?
                    && Key(packet.recipient, p.eventId) in core.events
                    && core.events[Key(packet.recipient, p.eventId)].packet.kind.AgreementAck?
                    && p.eventDigest == EventDigestOf(core.events[Key(packet.recipient, p.eventId)].packet))))
  {
    match packet.kind
    case AgreementAck => AckTaken(core, packet, now, outgoing);
    case Receipt =>
      ReceiptTaken(core, packet, now, outgoing);
      ReceiptCompletes(core, packet, now, outgoing);
    case _ => OthersComplete(core, packet, now, outgoing);
  }

  lemma AppliedCompleted(core: Core, k: Key, now: Instant, outgoing: bool, fin: Core)
    requires AppliesOne(core, k, now, outgoing, fin) && Completed(core)
    ensures Completed(fin)
  {
    var packet := core.events[k].packet;
    assert Placed(core.c, k, core.events[k]);
    AppliesFrame(core, k, now, outgoing, fin);
    AppliedFacts(core, k, now, outgoing, fin);
    CompletesOnly(Before(core, packet, outgoing), packet, now, outgoing);
    if core.c.synced {
      var j :| Completes(core, j);
      CompletesKept(core, fin, j);
    } else if fin.c.synced {
      assert Completes(fin, k);
    }
  }

  lemma AppliedNamed(core: Core, k: Key, now: Instant, outgoing: bool, fin: Core)
    requires AppliesOne(core, k, now, outgoing, fin) && AcksNamed(core)
    ensures AcksNamed(fin)
  {
    var packet := core.events[k].packet;
    assert Placed(core.c, k, core.events[k]);
    AppliesFrame(core, k, now, outgoing, fin);
    forall j | AppliedAt(fin.events, j) && fin.events[j].packet.kind.AgreementAck? ensures NamesOwn(fin, j) {
      if j == k {
        AppliedFacts(core, k, now, outgoing, fin);
        AckTaken(Before(core, packet, outgoing), packet, now, outgoing);
      } else {
        NamesOwnKept(core, fin, j);
      }
    }
  }

  lemma QuietCompleted(core: Core, next: Core)
    requires Quietly(core, next) && Completed(core) && AcksNamed(core)
    ensures Completed(next) && AcksNamed(next)
  {
    if core.c.synced {
      var j :| Completes(core, j);
      CompletesKept(core, next, j);
    }
    forall j | AppliedAt(next.events, j) && next.events[j].packet.kind.AgreementAck? ensures NamesOwn(next, j) {
      assert AppliedAt(core.events, j) && FinalKept(core.events[j], next.events[j]);
      NamesOwnKept(core, next, j);
    }
  }

  lemma OpenedCompleted(core: Core)
    requires Opened(core)
    ensures Completed(core) && AcksNamed(core)
  {
  }

  lemma CompletedInvariant()
    ensures IsInvariant((core: Core) => Completed(core) && AcksNamed(core))
  {
    forall core | Opened(core) ensures Completed(core) && AcksNamed(core) {
      OpenedCompleted(core);
    }
    forall core, next | Quietly(core, next) && Completed(core) && AcksNamed(core) ensures Completed(next) && AcksNamed(next) {
      QuietCompleted(core, next);
    }
    forall core, k, now, outgoing, fin | AppliesOne(core, k, now, outgoing, fin) && Completed(core) && AcksNamed(core)
      ensures Completed(fin) && AcksNamed(fin)
    {
      AppliedCompleted(core, k, now, outgoing, fin);
      AppliedNamed(core, k, now, outgoing, fin);
    }
  }

  lemma RunCompleted(pair: Pair, actions: seq<Action>, side: Side)
    requires pair.first != pair.second
    ensures var s := Run(pair, START, actions);
      && SystemFits(pair, s)
      && (At(s, side).Bound? ==> Completed(At(s, side).e.core) && AcksNamed(At(s, side).e.core))
  {
    CompletedInvariant();
    RunInvariant(pair, actions, side, (core: Core) => Completed(core) && AcksNamed(core));
  }

  /** The other party has applied the acknowledgement that completed this side. */
  lemma OtherHolds(pair: Pair, s: System, side: Side, j: Key)
    requires SystemFits(pair, s) && At(s, side).Bound? && Completes(At(s, side).e.core, j)
    requires At(s, Other(side)).Bound? ==> AcksNamed(At(s, Other(side)).e.core)
    requires AcksNamed(At(s, side).e.core)
    ensures At(s, Other(side)).Bound? && At(s, Other(side)).e.core.c.agreement.Some?
    ensures At(s, side).e.core.c.agreement.Some?
  {
    var core, other := At(s, side).e.core, At(s, Other(side));
    Pieces(pair, s, side);
    var p := core.events[j].packet;
    assert SentBy(other, p);
    if p.kind.AgreementAck? {
      assert NamesOwn(core, j) && NamesOwn(other.e.core, KeyOf(p));
    } else {
      SentVouches(other, p);
      var k := Key(core.c.local, p.payload.eventId);
      assert NamesOwn(other.e.core, k);
      assert Placed(core.c, k, core.events[k]) && HasOperation(core, At(s, side).e.ops, k);
      var id := k.eventId.op;
      assert OpFits(core, id, At(s, side).e.ops[id]);
    }
  }

  /** A party that takes the collaboration for completed is right: in every run both
      parties then hold the same agreement. */
  lemma CompletedByBoth(pair: Pair, actions: seq<Action>, side: Side)
    requires pair.first != pair.second
    requires var site := At(Run(pair, START, actions), side);
      site.Bound? && (site.e.core.c.synced || site.e.core.c.closure.Complete?)
    ensures var s := Run(pair, START, actions);
      && s.first.Bound? && s.second.Bound? && s.first.e.core.c.agreement.Some?
      && s.second.e.core.c.agreement == s.first.e.core.c.agreement
  {
    var s := Run(pair, START, actions);
    RunCompleted(pair, actions, side);
    RunCompleted(pair, actions, Other(side));
    var j :| Completes(At(s, side).e.core, j);
    OtherHolds(pair, s, side, j);
    SecondAgrees(pair, s);
  }

  // ---- Cancellation ----

  /** In every run, a party holds the collaboration cancelled only if one party sent a
      cancellation request and the other one its acknowledgement, both of them naming the
      agreement that this party holds. */
  lemma CancelledByEach(pair: Pair, actions: seq<Action>, side: Side) returns (asker: Side, request: Packet, ack: Packet)
    requires pair.first != pair.second
    requires var site := At(Run(pair, START, actions), side); site.Bound? && site.e.core.c.closure.Cancelled?
    ensures var s := Run(pair, START, actions);
      && SentBy(At(s, asker), request) && request.kind.CancelRequest?
      && SentBy(At(s, Other(asker)), ack) && ack.kind.CancelAck?
      && At(s, side).e.core.c.agreement.Some?
      && request.payload == AgreementNameBody(At(s, side).e.core.c.agreement.value.id) && ack.payload == request.payload
  {
    BothInvariant();
    RunInvariant(pair, actions, side, (core: Core) => CancelledByBoth(core));
    var s := Run(pair, START, actions);
    var core := At(s, side).e.core;
    var k, l :| Cancels(core, k, CancelRequest) && Cancels(core, l, CancelAck) && k.sender != l.sender;
    request, ack := core.events[k].packet, core.events[l].packet;
    asker := if core.events[k].outgoing then side else Other(side);
    Pieces(pair, s, side);
    assert Placed(core.c, k, core.events[k]) && Placed(core.c, l, core.events[l]);
  }
}
