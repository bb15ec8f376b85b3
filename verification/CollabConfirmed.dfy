/** The owner's confirmation: over whole lives and whole runs, what no policy allowed
    outright is sent only after the owner approved it, and what the owner refused is
    never sent. */
module CollabConfirmed {
  import opened Basics
  import opened CollabTypes
  import opened CollabInbox
  import opened CollabOutbox
  import opened CollabSteps
  import opened CollabBudget
  import opened CollabFormation
  import CollabAgreement
  import CollabRecording

  // ---- How one deed moves one operation ----

  /** A new operation of the owner, as the preparation made it. */
  ghost predicate Made(e: Endpoint, d: Deed, id: OpId, op: Operation) {
    d.Prepares? && id == UserOp(d.tag) && OperationFor(e, d.tag, d.kind, d.request, d.verdict, d.now) == Some(op)
  }

  /** The owner's decision on `id` takes effect. */
  predicate Decided(e: Endpoint, d: Deed, id: OpId, approve: bool) {
    d.Confirms? && d.id == id && d.approve == approve && Confirm(e, id, approve, d.now).Some?
  }

  function AfterDecision(op: Operation, approve: bool): Operation {
    if approve then op.(status := Ready, approvedOnce := true) else op.(status := Denied)
  }

  /** What one transaction can make of one of the owner's operations. */
  ghost predicate OpMoves(e: Endpoint, d: Deed, f: Endpoint, id: OpId) {
    if id !in e.ops then id in f.ops ==> Made(e, d, id, f.ops[id])
    else
      && id in f.ops
      && (|| f.ops[id] == e.ops[id]
          || (exists approve :: Decided(e, d, id, approve) && e.ops[id].status.Awaiting?
                                && f.ops[id] == AfterDecision(e.ops[id], approve))
          || ((e.ops[id].status.Ready? || e.ops[id].status.Sending?) && LeftReady(f.ops[id])))
  }

  lemma PrepareMoves(e: Endpoint, d: Deed, id: OpId)
    requires d.Prepares? && id.UserOp?
    ensures OpMoves(e, d, Do(e, d), id)
  {
  }

  lemma ConfirmMoves(e: Endpoint, d: Deed, id: OpId)
    requires d.Confirms?
    ensures OpMoves(e, d, Do(e, d), id)
  {
    if d.id == id && Confirm(e, id, d.approve, d.now).Some? {
      assert Decided(e, d, id, d.approve);
    }
  }

  lemma ReserveMoves(e: Endpoint, d: Deed, id: OpId)
    requires Valid(e) && d.ReservesPacket? && id.UserOp?
    ensures OpMoves(e, d, Do(e, d), id)
  {
    if Reserve(e, d.id, d.verdict, d.connected, d.now).Some? {
      var p := ReserveUnfolds(e, d.id, d.verdict, d.connected, d.now);
    }
  }

  lemma DeliveredMoves(e: Endpoint, g: Endpoint, d: Deed, id: OpId)
    requires d.Submits? && id.UserOp? && AddsUnpaid(e.ops, g.ops) && d.id in e.ops && e.ops[d.id].status.Sending?
    ensures OpMoves(e, d, Delivered(g, d.id, d.stored), id)
  {
    assert id in e.ops ==> g.ops[id] == e.ops[id];
  }

  lemma SubmitMoves(e: Endpoint, d: Deed, id: OpId)
    requires Valid(e) && d.Submits? && id.UserOp?
    ensures OpMoves(e, d, Do(e, d), id)
  {
    if Submit(e, d.id, d.stored, d.connected, d.now).Some? {
      var p := SubmitUnfolds(e, d.id, d.stored, d.connected, d.now);
      if e.core.events[KeyOf(p)].status.Reserved? {
        ApplyUnpaid(e, p, d.now, true);
        DeliveredMoves(e, SetStatus(Apply(e, p, d.now, true).value, KeyOf(p), Status.Applied), d, id);
      } else {
        DeliveredMoves(e, e, d, id);
      }
    }
  }

  lemma DoMoves(e: Endpoint, d: Deed, id: OpId)
    requires Valid(e) && id.UserOp?
    ensures OpMoves(e, d, Do(e, d), id)
  {
    match d
    case Prepares(_, _, _, _, _) => PrepareMoves(e, d, id);
    case Confirms(_, _, _) => ConfirmMoves(e, d, id);
    case ReservesPacket(_, _, _, _) => ReserveMoves(e, d, id);
    case Submits(_, _, _, _) => SubmitMoves(e, d, id);
    case Receives(_) => ReceiveMoves(e, d, id);
    case _ => OtherMoves(e, d, id);
  }

  lemma OtherMoves(e: Endpoint, d: Deed, id: OpId)
    requires d.Revokes? || d.Blocks? || d.OtherAction? || d.Activates?
    ensures OpMoves(e, d, Do(e, d), id)
  {
  }

  lemma ReceiveMoves(e: Endpoint, d: Deed, id: OpId)
    requires Valid(e) && d.Receives? && id.UserOp?
    ensures OpMoves(e, d, Do(e, d), id)
  {
    ReceiveUnpaid(e, d.arrival);
  }

  // ---- The story of one operation ----

  /** One endpoint from one moment to the next; other parties' actions leave its
      operations alone. */
  ghost predicate Follows(e: Endpoint, d: Deed, f: Endpoint) {
    f == Do(e, d) || f.ops == e.ops
  }

  ghost predicate Trace(states: seq<Endpoint>, deeds: seq<Deed>) {
    && |states| == |deeds| + 1
    && (forall i :: 0 <= i < |states| ==> Valid(states[i]))
    && (forall i :: 0 <= i < |deeds| ==> Follows(states[i], deeds[i], states[i+1]))
  }

  lemma TraceCut(states: seq<Endpoint>, deeds: seq<Deed>)
    requires Trace(states, deeds) && deeds != []
    ensures Trace(states[..|deeds|], deeds[..|deeds|-1])
  {
    var n := |deeds|;
    forall i | 0 <= i < n - 1 ensures Follows(states[..n][i], deeds[..n-1][i], states[..n][i+1]) {
      assert Follows(states[i], deeds[i], states[i+1]);
    }
  }

  lemma TraceMoves(states: seq<Endpoint>, deeds: seq<Deed>, i: nat, id: OpId)
    requires Trace(states, deeds) && i < |deeds| && id.UserOp?
    ensures OpMoves(states[i], deeds[i], states[i+1], id)
  {
    assert Follows(states[i], deeds[i], states[i+1]);
    DoMoves(states[i], deeds[i], id);
  }

  /** Nothing takes an operation that was sent or refused back to its start. */
  lemma {:induction false} Settles(states: seq<Endpoint>, deeds: seq<Deed>, id: OpId)
    requires Trace(states, deeds) && id.UserOp? && id in states[0].ops
    requires LeftReady(states[0].ops[id]) || states[0].ops[id].status.Denied?
    ensures id in states[|deeds|].ops
    ensures if states[0].ops[id].status.Denied? then states[|deeds|].ops[id] == states[0].ops[id]
            else LeftReady(states[|deeds|].ops[id])
    decreases |deeds|
  {
    if deeds == [] {
    } else {
      var n := |deeds|;
      TraceCut(states, deeds);
      Settles(states[..n], deeds[..n-1], id);
      TraceMoves(states, deeds, n - 1, id);
    }
  }

  /** An operation of the owner that was not sent yet: it was made at `i`, and it is as
      it was made, or as the owner's decision at `j` left it. */
  ghost predicate Told(states: seq<Endpoint>, deeds: seq<Deed>, id: OpId, op: Operation, i: int, j: int) {
    && 0 <= i <= j < |deeds| < |states|
    && exists made ::
       && Made(states[i], deeds[i], id, made)
       && if j == i then op == made
          else exists approve :: Decided(states[j], deeds[j], id, approve) && op == AfterDecision(made, approve)
  }

  lemma ToldLonger(states: seq<Endpoint>, deeds: seq<Deed>, id: OpId, op: Operation, i: int, j: int, n: nat)
    requires n < |deeds| < |states| && Told(states[..n+1], deeds[..n], id, op, i, j)
    ensures Told(states, deeds, id, op, i, j)
  {
    assert states[..n+1][i] == states[i] && states[..n+1][j] == states[j];
    assert deeds[..n][i] == deeds[i] && deeds[..n][j] == deeds[j];
  }

  lemma DecidedLonger(states: seq<Endpoint>, deeds: seq<Deed>, id: OpId, i: int, j: int, n: nat)
    requires n + 1 == |deeds| && |states| == n + 2 && id in states[n].ops && id in states[n+1].ops
    requires Told(states, deeds, id, states[n].ops[id], i, j) && j < n && states[n].ops[id].status.Awaiting?
    requires exists approve :: Decided(states[n], deeds[n], id, approve) && states[n+1].ops[id] == AfterDecision(states[n].ops[id], approve)
    ensures Told(states, deeds, id, states[n+1].ops[id], i, n)
  {
    var made :| Made(states[i], deeds[i], id, made) && (j == i ==> states[n].ops[id] == made);
    var approve :| Decided(states[n], deeds[n], id, approve) && states[n+1].ops[id] == AfterDecision(states[n].ops[id], approve);
    assert j == i && states[n].ops[id] == made;
  }

  lemma StoryGoesOn(states: seq<Endpoint>, deeds: seq<Deed>, id: OpId, i: int, j: int) returns (l: int)
    requires deeds != [] && |states| == |deeds| + 1
    requires id in states[|deeds|-1].ops && Told(states, deeds, id, states[|deeds|-1].ops[id], i, j) && j < |deeds| - 1
    requires OpMoves(states[|deeds|-1], deeds[|deeds|-1], states[|deeds|], id) && !LeftReady(states[|deeds|].ops[id])
    ensures Told(states, deeds, id, states[|deeds|].ops[id], i, l)
  {
    l := j;
    if states[|deeds|].ops[id] != states[|deeds|-1].ops[id] {
      DecidedLonger(states, deeds, id, i, j, |deeds| - 1);
      l := |deeds| - 1;
    }
  }

  lemma {:induction false} Story(states: seq<Endpoint>, deeds: seq<Deed>, id: OpId) returns (i: int, j: int)
    requires Trace(states, deeds) && id.UserOp? && id !in states[0].ops
    requires id in states[|deeds|].ops && !LeftReady(states[|deeds|].ops[id])
    ensures Told(states, deeds, id, states[|deeds|].ops[id], i, j)
    decreases |deeds|
  {
    var n := |deeds| - 1;
    TraceCut(states, deeds);
    TraceMoves(states, deeds, n, id);
    if id !in states[n].ops {
      i, j := n, n;
    } else {
      StoryBefore(states, deeds, id, n);
      i, j := Story(states[..n+1], deeds[..n], id);
      ToldLonger(states, deeds, id, states[n].ops[id], i, j, n);
      j := StoryGoesOn(states, deeds, id, i, j);
    }
  }

  lemma StoryBefore(states: seq<Endpoint>, deeds: seq<Deed>, id: OpId, n: nat)
    requires n + 1 == |deeds| && |states| == n + 2 && id in states[n].ops
    requires OpMoves(states[n], deeds[n], states[n+1], id) && !LeftReady(states[n+1].ops[id])
    ensures states[..n+1][|deeds[..n]|] == states[n] && states[..n+1][0] == states[0] && !LeftReady(states[n].ops[id])
  {
  }

  // ---- What a reservation proves about the past ----

  /** `deeds[i]` prepared the operation whose packet is `p`, with this content, on facts
      and under a mandate that are the same when the packet is stored. */
  ghost predicate PreparedAt(states: seq<Endpoint>, deeds: seq<Deed>, id: OpId, p: Packet, i: int) {
    && 0 <= i < |deeds| < |states|
    && var e, d := states[i], deeds[i];
       && d.Prepares? && id == UserOp(d.tag) && d.kind == p.kind
       && Prepare(e, d.tag, d.kind, d.request, d.verdict, d.now).Some?
       && RequestedPayload(e.core, e.task, d.kind, d.request) == Some(p.payload)
  }

  /** The facts and the mandate that the operation was prepared on still stand. */
  ghost predicate SameGround(e: Endpoint, f: Endpoint) {
    && f.task.revision == e.task.revision && f.core.c.joined == e.core.c.joined && f.core.c.terms == e.core.c.terms
    && f.core.c.acceptances == e.core.c.acceptances && f.core.c.agreement == e.core.c.agreement
    && f.core.c.cancelRequest == e.core.c.cancelRequest && f.core.c.withdrawPending == e.core.c.withdrawPending
  }

  ghost predicate ApprovedAt(states: seq<Endpoint>, deeds: seq<Deed>, id: OpId, j: int) {
    && 0 <= j < |deeds| < |states|
    && deeds[j].Confirms? && deeds[j].id == id && deeds[j].approve && Confirm(states[j], id, true, deeds[j].now).Some?
  }

  /** The owner's standing permit covers these kinds; policies judge proposals, change
      requests and acceptances; everything else is asked about. `verdict` is the answer of
      the policy when the packet `p` is stored. */
  ghost predicate Authorized(states: seq<Endpoint>, deeds: seq<Deed>, id: OpId, p: Packet, verdict: Verdict) {
    var permitted := p.kind.Agree? || p.kind.AgreementAck? || p.kind.Receipt? || p.kind.SyncRequest? || p.kind.SyncResponse?;
    var judged := p.kind.Proposal? || p.kind.ChangeRequest? || p.kind.Accept?;
    && |states| == |deeds| + 1
    && (judged ==> !verdict.MayDeny?)
    && exists i :: PreparedAt(states, deeds, id, p, i)
         && (!permitted ==>
               && SameGround(states[i], states[|deeds|])
               && (|| (exists j :: i < j && ApprovedAt(states, deeds, id, j))
                   || (judged && verdict.MayAllow? && deeds[i].verdict.MayAllow?)))
  }

  lemma MadeGround(e: Endpoint, d: Deed, id: OpId, op: Operation)
    requires Made(e, d, id, op)
    ensures Prepare(e, d.tag, d.kind, d.request, d.verdict, d.now).Some? && op.kind == d.kind
    ensures RequestedPayload(e.core, e.task, d.kind, d.request) == Some(op.payload)
    ensures op.context == ContextOf(e.core.c) && op.revision == e.task.revision
    ensures op.maintenance == IsMaintenance(op.kind)
    ensures op.status.Ready? && !op.maintenance ==>
      (op.kind.Proposal? || op.kind.ChangeRequest? || op.kind.Accept?) && d.verdict.MayAllow?
    ensures op.hasAction == (op.kind.Proposal? || op.kind.ChangeRequest? || op.kind.Accept?)
    ensures !op.approvedOnce && (op.hasAction ==> !op.recoveryOnce)
  {
  }

  lemma ReservedGround(e: Endpoint, id: OpId, verdict: Verdict, connected: bool, now: Instant)
    requires Reserve(e, id, verdict, connected, now).Some?
    ensures var op := e.ops[id];
      && op.status.Ready?
      && (!op.maintenance ==> op.revision == e.task.revision && op.context == ContextOf(e.core.c))
      && (!op.maintenance && !op.recoveryOnce && op.hasAction ==> verdict.MayAllow? || (verdict.MayAsk? && op.approvedOnce))
  {
  }

  /** `op` is ready to be carried out as `p` on the facts of `e`, given the policy's answer. */
  predicate Carries(e: Endpoint, op: Operation, p: Packet, verdict: Verdict) {
    && op.status.Ready? && p.kind == op.kind && p.payload == op.payload
    && (!op.maintenance ==> op.revision == e.task.revision && op.context == ContextOf(e.core.c))
    && (!op.maintenance && !op.recoveryOnce && op.hasAction ==> verdict.MayAllow? || (verdict.MayAsk? && op.approvedOnce))
  }

  lemma ToldAuthorizes(states: seq<Endpoint>, deeds: seq<Deed>, id: OpId, op: Operation, i: int, j: int, p: Packet, verdict: Verdict)
    requires Told(states, deeds, id, op, i, j) && |states| == |deeds| + 1 && Carries(states[|deeds|], op, p, verdict)
    ensures Authorized(states, deeds, id, p, verdict)
  {
    var made :| Made(states[i], deeds[i], id, made)
                && if j == i then op == made
                   else exists approve :: Decided(states[j], deeds[j], id, approve) && op == AfterDecision(made, approve);
    MadeGround(states[i], deeds[i], id, made);
    assert PreparedAt(states, deeds, id, p, i);
    assert j > i ==> ApprovedAt(states, deeds, id, j);
  }

  /** Whatever is reserved was prepared as it is and authorized since. */
  lemma Reserved(states: seq<Endpoint>, deeds: seq<Deed>, id: OpId, verdict: Verdict, connected: bool, now: Instant) returns (p: Packet)
    requires Trace(states, deeds) && id.UserOp? && (id in states[0].ops ==> LeftReady(states[0].ops[id]))
    requires Reserve(states[|deeds|], id, verdict, connected, now).Some?
    ensures var f := Reserve(states[|deeds|], id, verdict, connected, now).value;
      var k := Key(f.core.c.local, EventOf(id)); k in f.core.events && f.core.events[k].packet == p
    ensures Authorized(states, deeds, id, p, verdict)
  {
    p := ReserveUnfolds(states[|deeds|], id, verdict, connected, now);
    ReservedGround(states[|deeds|], id, verdict, connected, now);
    if id in states[0].ops {
      Settles(states, deeds, id);
      assert false;
    }
    var i, j := Story(states, deeds, id);
    ToldAuthorizes(states, deeds, id, states[|deeds|].ops[id], i, j, p, verdict);
  }

  // ---- Whole lives ----

  /** The endpoint before the first deed, after it, and so on. */
  ghost function Life(e: Endpoint, deeds: seq<Deed>): (r: seq<Endpoint>)
    ensures |r| == |deeds| + 1 && forall i :: 0 <= i < |r| ==> r[i] == DoAll(e, deeds[..i])
  {
    seq(|deeds| + 1, i requires 0 <= i <= |deeds| => DoAll(e, deeds[..i]))
  }

  lemma LifeStep(e: Endpoint, deeds: seq<Deed>, i: nat)
    requires i < |deeds|
    ensures Life(e, deeds)[i+1] == Do(Life(e, deeds)[i], deeds[i])
  {
    assert deeds[..i+1][..i] == deeds[..i];
  }

  lemma LifeTrace(e: Endpoint, deeds: seq<Deed>)
    requires Valid(e)
    ensures Trace(Life(e, deeds), deeds) && Life(e, deeds)[0] == e && Life(e, deeds)[|deeds|] == DoAll(e, deeds)
  {
    var states := Life(e, deeds);
    forall i | 0 <= i < |states| ensures Valid(states[i]) {
      DeedsKeep(e, deeds[..i]);
    }
    forall i | 0 <= i < |deeds| ensures Follows(states[i], deeds[i], states[i+1]) {
      LifeStep(e, deeds, i);
    }
    assert deeds[..|deeds|] == deeds;
  }

  predicate Opening(op: Operation) {
    LeftReady(op) && (op.kind.Invite? || op.kind.Join?)
  }

  lemma OpenedLeft(local: Urn, task: Task, id: nat, tag: nat, peer: Urn, invitation: Option<Packet>, now: Instant, op: OpId)
    requires Open(local, task, id, tag, peer, invitation, now).Some?
    ensures var e := Open(local, task, id, tag, peer, invitation, now).value; op in e.ops ==> Opening(e.ops[op])
  {
  }

  /** In any life from its opening: what the endpoint reserves for its owner was prepared
      with this content on the facts that still stand, and a withdrawal, a cancellation
      request or acknowledgement was approved by the owner after that; a proposal, a change
      request or an acceptance was approved, or allowed by the policy both times. */
  lemma ConfirmedLife(local: Urn, task: Task, cid: nat, tag: nat, peer: Urn, invitation: Option<Packet>, at: Instant,
                      deeds: seq<Deed>, id: OpId, verdict: Verdict, connected: bool, now: Instant) returns (p: Packet)
    requires Open(local, task, cid, tag, peer, invitation, at).Some? && id.UserOp?
    requires Reserve(DoAll(Open(local, task, cid, tag, peer, invitation, at).value, deeds), id, verdict, connected, now).Some?
    ensures var e := Open(local, task, cid, tag, peer, invitation, at).value;
      var f, k := Reserve(DoAll(e, deeds), id, verdict, connected, now).value, Key(local, EventOf(id));
      k in f.core.events && f.core.events[k].packet == p && Authorized(Life(e, deeds), deeds, id, p, verdict)
  {
    var e := Open(local, task, cid, tag, peer, invitation, at).value;
    OpenValid(local, task, cid, tag, peer, invitation, at);
    OpenedLeft(local, task, cid, tag, peer, invitation, at, id);
    LifeTrace(e, deeds);
    DeedsKeep(e, deeds);
    p := Reserved(Life(e, deeds), deeds, id, verdict, connected, now);
    ReserveKeeps(DoAll(e, deeds), id, verdict, connected, now);
  }

  /** Nothing but the five templated kinds is ever reserved without the owner's having
      prepared it. */
  lemma AutomaticKinds(e: Endpoint, id: OpId, verdict: Verdict, connected: bool, now: Instant) returns (p: Packet)
    requires Valid(e) && id.AutoOp? && Reserve(e, id, verdict, connected, now).Some?
    ensures var f := Reserve(e, id, verdict, connected, now).value;
      var k := Key(f.core.c.local, EventOf(id)); k in f.core.events && f.core.events[k].packet == p
    ensures p.kind.Agree? || p.kind.AgreementAck? || p.kind.Receipt? || p.kind.SyncRequest? || p.kind.SyncResponse?
  {
    p := ReserveUnfolds(e, id, verdict, connected, now);
    assert OpFits(e.core, id, e.ops[id]);
  }

  /** Once the owner has refused an operation, nothing makes it leave: it is neither
      approved nor reserved, and no packet of it is stored. */
  lemma RefusedForGood(e: Endpoint, id: OpId, asked: Instant, deeds: seq<Deed>, verdict: Verdict, connected: bool, now: Instant)
    requires Valid(e) && id.UserOp? && Confirm(e, id, false, asked).Some?
    ensures var f := DoAll(Confirm(e, id, false, asked).value, deeds);
      && Reserve(f, id, verdict, connected, now).None? && Submit(f, id, true, connected, now).None?
      && Confirm(f, id, true, now).None?
      && forall k :: k in f.core.events && f.core.events[k].outgoing ==> k.eventId != EventOf(id)
  {
    var g := Confirm(e, id, false, asked).value;
    ConfirmKeeps(e, id, false, asked);
    LifeTrace(g, deeds);
    Settles(Life(g, deeds), deeds, id);
    DeedsKeep(g, deeds);
    NotSent(DoAll(g, deeds), id);
  }

  lemma NotSent(f: Endpoint, id: OpId)
    requires Valid(f) && id in f.ops && f.ops[id].status.Denied?
    ensures forall k :: k in f.core.events && f.core.events[k].outgoing ==> k.eventId != EventOf(id)
  {
    forall k | k in f.core.events && f.core.events[k].outgoing ensures k.eventId != EventOf(id) {
      assert HasOperation(f.core, f.ops, k);
    }
  }

  // ---- Whole runs ----

  /** The deed of an action at one side; what happens elsewhere is none of its deeds. */
  function DeedAt(a: CollabAgreement.Action, side: CollabAgreement.Side): Deed {
    if a.OpenFirst? || a.OpenSecond? || a.ChangesTask? || a.side != side then Activates(true) else CollabRecording.DeedOf(a)
  }

  lemma OwnFollows(s: CollabAgreement.System, a: CollabAgreement.Action, e: Endpoint)
    requires !a.OpenFirst? && !a.OpenSecond? && CollabAgreement.At(s, a.side) == CollabAgreement.Bound(e)
    ensures CollabAgreement.At(CollabAgreement.ActBound(s, a, e), a.side).Bound?
    ensures Follows(e, DeedAt(a, a.side), CollabAgreement.At(CollabAgreement.ActBound(s, a, e), a.side).e)
  {
    if !a.Submits? && !a.Delivers? && !a.ChangesTask? {
      CollabRecording.OwnDeed(a, e);
    } else {
      ExchangeFollows(s, a, e);
    }
  }

  lemma ExchangeFollows(s: CollabAgreement.System, a: CollabAgreement.Action, e: Endpoint)
    requires a.Submits? || a.Delivers? || a.ChangesTask?
    requires CollabAgreement.At(s, a.side) == CollabAgreement.Bound(e)
    ensures CollabAgreement.At(CollabAgreement.ActBound(s, a, e), a.side).Bound?
    ensures Follows(e, DeedAt(a, a.side), CollabAgreement.At(CollabAgreement.ActBound(s, a, e), a.side).e)
  {
  }

  lemma ActFollows(pair: CollabAgreement.Pair, s: CollabAgreement.System, a: CollabAgreement.Action, side: CollabAgreement.Side)
    requires CollabAgreement.At(s, side).Bound?
    ensures CollabAgreement.At(CollabAgreement.Act(pair, s, a), side).Bound?
    ensures Follows(CollabAgreement.At(s, side).e, DeedAt(a, side), CollabAgreement.At(CollabAgreement.Act(pair, s, a), side).e)
  {
    if !a.OpenFirst? && !a.OpenSecond? && a.side == side {
      OwnFollows(s, a, CollabAgreement.At(s, side).e);
    } else {
      assert CollabAgreement.At(CollabAgreement.Act(pair, s, a), side) == CollabAgreement.At(s, side);
    }
  }

  /** A side after the first `i` actions of a run from the start. */
  ghost function SiteAfter(pair: CollabAgreement.Pair, actions: seq<CollabAgreement.Action>, side: CollabAgreement.Side, i: nat)
    : CollabAgreement.Site
    requires i <= |actions|
  {
    CollabAgreement.At(CollabAgreement.Run(pair, CollabAgreement.START, actions[..i]), side)
  }

  ghost predicate BoundFrom(pair: CollabAgreement.Pair, actions: seq<CollabAgreement.Action>, side: CollabAgreement.Side, m: nat) {
    m <= |actions| && forall i :: m <= i <= |actions| ==> SiteAfter(pair, actions, side, i).Bound?
  }

  lemma Whole(pair: CollabAgreement.Pair, actions: seq<CollabAgreement.Action>, side: CollabAgreement.Side)
    ensures SiteAfter(pair, actions, side, |actions|) == CollabAgreement.At(CollabAgreement.Run(pair, CollabAgreement.START, actions), side)
  {
    assert actions[..|actions|] == actions;
  }

  lemma Shorter(pair: CollabAgreement.Pair, actions: seq<CollabAgreement.Action>, side: CollabAgreement.Side, n: nat, i: nat)
    requires i <= n <= |actions|
    ensures SiteAfter(pair, actions[..n], side, i) == SiteAfter(pair, actions, side, i)
  {
    assert actions[..n][..i] == actions[..i];
  }

  /** The action by which a bound side was bound, and what it then holds. */
  lemma {:induction false} Binding(pair: CollabAgreement.Pair, actions: seq<CollabAgreement.Action>, side: CollabAgreement.Side)
    returns (m: nat)
    requires CollabAgreement.At(CollabAgreement.Run(pair, CollabAgreement.START, actions), side).Bound?
    ensures BoundFrom(pair, actions, side, m)
    ensures var ops := SiteAfter(pair, actions, side, m).e.ops; forall id :: id in ops ==> Opening(ops[id])
    decreases |actions|
  {
    var n := |actions| - 1;
    Whole(pair, actions, side);
    var before := CollabAgreement.Run(pair, CollabAgreement.START, actions[..n]);
    if CollabAgreement.At(before, side).Bound? {
      m := Binding(pair, actions[..n], side);
      forall i | m <= i <= n + 1 ensures SiteAfter(pair, actions, side, i).Bound? {
        if i <= n {
          Shorter(pair, actions, side, n, i);
        }
      }
      Shorter(pair, actions, side, n, m);
    } else {
      m := n + 1;
      BindingAct(pair, before, actions[n], side);
    }
  }

  lemma BindingAct(pair: CollabAgreement.Pair, s: CollabAgreement.System, a: CollabAgreement.Action, side: CollabAgreement.Side)
    requires CollabAgreement.At(s, side).Unbound? && CollabAgreement.At(CollabAgreement.Act(pair, s, a), side).Bound?
    ensures var ops := CollabAgreement.At(CollabAgreement.Act(pair, s, a), side).e.ops; forall id :: id in ops ==> Opening(ops[id])
  {
    forall id | id in CollabAgreement.At(CollabAgreement.Act(pair, s, a), side).e.ops
      ensures Opening(CollabAgreement.At(CollabAgreement.Act(pair, s, a), side).e.ops[id])
    {
      match a
      case OpenFirst(tag, task, now) => OpenedLeft(pair.first, task, pair.collab, tag, pair.second, None, now, id);
      case OpenSecond(tag, task, invitation, now) =>
        OpenedLeft(pair.second, task, pair.collab, tag, pair.first, Some(invitation), now, id);
      case _ =>
    }
  }

  /** The endpoint of a side after `m` actions, after each further one, and at the end. */
  ghost function Lived(pair: CollabAgreement.Pair, actions: seq<CollabAgreement.Action>, side: CollabAgreement.Side, m: nat)
    : (r: seq<Endpoint>)
    requires BoundFrom(pair, actions, side, m)
    ensures |r| == |actions| - m + 1 && forall i :: 0 <= i < |r| ==> r[i] == SiteAfter(pair, actions, side, m + i).e
  {
    seq(|actions| - m + 1, i requires 0 <= i <= |actions| - m => SiteAfter(pair, actions, side, m + i).e)
  }

  /** What one side did from the action `m` on. */
  function DeedsFrom(actions: seq<CollabAgreement.Action>, side: CollabAgreement.Side, m: nat): (r: seq<Deed>)
    requires m <= |actions|
    ensures |r| == |actions| - m && forall i :: 0 <= i < |r| ==> r[i] == DeedAt(actions[m+i], side)
  {
    seq(|actions| - m, i requires 0 <= i < |actions| - m => DeedAt(actions[m+i], side))
  }

  lemma LivedStep(pair: CollabAgreement.Pair, actions: seq<CollabAgreement.Action>, side: CollabAgreement.Side, i: nat)
    requires i < |actions| && SiteAfter(pair, actions, side, i).Bound?
    ensures SiteAfter(pair, actions, side, i + 1).Bound?
    ensures Follows(SiteAfter(pair, actions, side, i).e, DeedAt(actions[i], side), SiteAfter(pair, actions, side, i + 1).e)
  {
    assert actions[..i+1][..i] == actions[..i];
    ActFollows(pair, CollabAgreement.Run(pair, CollabAgreement.START, actions[..i]), actions[i], side);
  }

  lemma LivedValid(pair: CollabAgreement.Pair, actions: seq<CollabAgreement.Action>, side: CollabAgreement.Side, i: nat)
    requires pair.first != pair.second && i <= |actions| && SiteAfter(pair, actions, side, i).Bound?
    ensures Valid(SiteAfter(pair, actions, side, i).e)
  {
    CollabAgreement.StartFits(pair);
    CollabAgreement.RunKeeps(pair, CollabAgreement.START, actions[..i]);
  }

  lemma LivedEnds(pair: CollabAgreement.Pair, actions: seq<CollabAgreement.Action>, side: CollabAgreement.Side, m: nat)
    requires BoundFrom(pair, actions, side, m)
    ensures |Lived(pair, actions, side, m)| == |DeedsFrom(actions, side, m)| + 1
    ensures Lived(pair, actions, side, m)[0] == SiteAfter(pair, actions, side, m).e
    ensures Lived(pair, actions, side, m)[|DeedsFrom(actions, side, m)|] == SiteAfter(pair, actions, side, |actions|).e
  {
  }

  lemma LivedFollows(pair: CollabAgreement.Pair, actions: seq<CollabAgreement.Action>, side: CollabAgreement.Side, m: nat)
    requires BoundFrom(pair, actions, side, m)
    ensures var states, deeds := Lived(pair, actions, side, m), DeedsFrom(actions, side, m);
      forall i :: 0 <= i < |deeds| ==> Follows(states[i], deeds[i], states[i+1])
  {
    var states, deeds := Lived(pair, actions, side, m), DeedsFrom(actions, side, m);
    forall i | 0 <= i < |deeds| ensures Follows(states[i], deeds[i], states[i+1]) {
      LivedStep(pair, actions, side, m + i);
    }
  }

  lemma LivedTrace(pair: CollabAgreement.Pair, actions: seq<CollabAgreement.Action>, side: CollabAgreement.Side, m: nat)
    requires pair.first != pair.second && BoundFrom(pair, actions, side, m)
    ensures Trace(Lived(pair, actions, side, m), DeedsFrom(actions, side, m))
  {
    LivedFollows(pair, actions, side, m);
    forall i | m <= i <= |actions| ensures Valid(SiteAfter(pair, actions, side, i).e) {
      LivedValid(pair, actions, side, i);
    }
  }

  /** The same in every run of the two parties, from the moment `m` at which the side was
      bound. */
  lemma ConfirmedRun(pair: CollabAgreement.Pair, actions: seq<CollabAgreement.Action>, side: CollabAgreement.Side,
                     id: OpId, verdict: Verdict, connected: bool, now: Instant) returns (m: nat, p: Packet)
    requires pair.first != pair.second && id.UserOp?
    requires CollabAgreement.At(CollabAgreement.Run(pair, CollabAgreement.START, actions), side).Bound?
    requires Reserve(CollabAgreement.At(CollabAgreement.Run(pair, CollabAgreement.START, actions), side).e,
                     id, verdict, connected, now).Some?
    ensures BoundFrom(pair, actions, side, m)
    ensures var e := CollabAgreement.At(CollabAgreement.Run(pair, CollabAgreement.START, actions), side).e;
      var f := Reserve(e, id, verdict, connected, now).value;
      var k := Key(f.core.c.local, EventOf(id)); k in f.core.events && f.core.events[k].packet == p
    ensures Authorized(Lived(pair, actions, side, m), DeedsFrom(actions, side, m), id, p, verdict)
  {
    m := Binding(pair, actions, side);
    LivedTrace(pair, actions, side, m);
    LivedEnds(pair, actions, side, m);
    Whole(pair, actions, side);
    p := Reserved(Lived(pair, actions, side, m), DeedsFrom(actions, side, m), id, verdict, connected, now);
  }

  /** A refusal in a run is final in every continuation of it. */
  lemma RefusedRun(pair: CollabAgreement.Pair, actions: seq<CollabAgreement.Action>, side: CollabAgreement.Side, m: nat,
                   id: OpId, verdict: Verdict, connected: bool, now: Instant)
    requires pair.first != pair.second && id.UserOp? && m < |actions| && SiteAfter(pair, actions, side, m).Bound?
    requires actions[m].Confirms? && actions[m].side == side && actions[m].id == id && !actions[m].approve
    requires Confirm(SiteAfter(pair, actions, side, m).e, id, false, actions[m].now).Some?
    ensures SiteAfter(pair, actions, side, |actions|).Bound?
    ensures Reserve(SiteAfter(pair, actions, side, |actions|).e, id, verdict, connected, now).None?
  {
    BoundAfter(pair, actions, side, m);
    RefusedAct(pair, actions, side, m, id);
    LivedTrace(pair, actions, side, m + 1);
    LivedEnds(pair, actions, side, m + 1);
    Settles(Lived(pair, actions, side, m + 1), DeedsFrom(actions, side, m + 1), id);
  }

  lemma RefusedAct(pair: CollabAgreement.Pair, actions: seq<CollabAgreement.Action>, side: CollabAgreement.Side, m: nat, id: OpId)
    requires m < |actions| && SiteAfter(pair, actions, side, m).Bound?
    requires actions[m].Confirms? && actions[m].side == side && actions[m].id == id && !actions[m].approve
    requires Confirm(SiteAfter(pair, actions, side, m).e, id, false, actions[m].now).Some?
    ensures SiteAfter(pair, actions, side, m + 1).Bound?
    ensures var ops := SiteAfter(pair, actions, side, m + 1).e.ops; id in ops && ops[id].status.Denied?
  {
    assert actions[..m+1][..m] == actions[..m];
    var s := CollabAgreement.Run(pair, CollabAgreement.START, actions[..m]);
    assert SiteAfter(pair, actions, side, m + 1) == CollabAgreement.At(CollabAgreement.Act(pair, s, actions[m]), side);
  }

  lemma {:induction false} BoundAfter(pair: CollabAgreement.Pair, actions: seq<CollabAgreement.Action>, side: CollabAgreement.Side, m: nat)
    requires m <= |actions| && SiteAfter(pair, actions, side, m).Bound?
    ensures BoundFrom(pair, actions, side, m)
    decreases |actions| - m
  {
    if m == |actions| {
    } else {
      LivedStep(pair, actions, side, m);
      BoundAfter(pair, actions, side, m + 1);
    }
  }
}
