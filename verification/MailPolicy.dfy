/** Policy epochs over whole runs, and the chain of repairs over whole runs. */
module MailPolicy {
  import opened Basics
  import opened MailTypes
  import opened MailOps
  import opened MailInvariant
  import opened MailDelivery

  /** Policy epochs: along every run a site's stored epoch never decreases, and one epoch
      never has two policies. */
  lemma EpochsMonotone(first: Urn, second: Urn, actions: seq<Action>, more: seq<Action>, side: Side)
    requires first != second
    ensures PolicyKept(At(Run(Start(first, second), actions), side).mail, At(Run(Start(first, second), actions + more), side).mail)
  {
    StartFits(first, second);
    RunMoves(Start(first, second), actions);
    RunMoves(Run(Start(first, second), actions), more);
    RunSplits(Start(first, second), actions, more);
  }

  /** In every reachable state all sessions, and all accepted rows with an envelope, carry
      the hash of the stored policy. */
  lemma EverythingUnderStored(first: Urn, second: Urn, actions: seq<Action>, side: Side)
    requires first != second
    ensures var m := At(Run(Start(first, second), actions), side).mail;
      && (forall p :: p in m.sessions ==> m.stored.Some? && m.sessions[p].policy == m.stored.value.hash)
      && (forall id :: Sealing(m, id) && m.outbox[id].status.Accepted? ==>
            m.stored.Some? && EnvelopeOf(m, id).policy == m.stored.value.hash)
  {
    StartFits(first, second);
    RunMoves(Start(first, second), actions);
    var site := At(Run(Start(first, second), actions), side);
    forall id | Sealing(site.mail, id) && site.mail.outbox[id].status.Accepted?
      ensures site.mail.stored.Some? && EnvelopeOf(site.mail, id).policy == site.mail.stored.value.hash
    {
      assert UnderPolicy(site.mail, site.mail.outbox[id]) && RowFits(site.mail, site.installed, id);
    }
  }

  /** The envelope that an action gives to the platform, if any, whatever the platform
      answers: a first hand-over, a repeated one, or one that is refused or lost. */
  ghost function HandedIn(s: System, a: Action): Option<Envelope> {
    if !a.Delivers? then None
    else
      var m := At(s, a.side).mail;
      if m.engine.None? || !IsNext(m, a.id, a.now) then None
      else Deliver(m, a.id, m.engine.value, a.outside, a.now).handed
  }

  /** No envelope sealed under one policy is given to the platform under another: at every
      hand-over of every run, repeated and refused ones included, the envelope carries the
      policy that is stored before and after the step; it is the row's own envelope, and
      stays so to the end of the run. */
  lemma HandedUnderStored(first: Urn, second: Urn, actions: seq<Action>, i: nat, e: Envelope)
    requires first != second && i < |actions|
    requires HandedIn(Run(Start(first, second), actions[..i]), actions[i]) == Some(e)
    ensures var side := actions[i].side;
      var m := At(Run(Start(first, second), actions[..i]), side).mail;
      var n := At(Run(Start(first, second), actions[..i+1]), side).mail;
      && m.stored.Some? && n.stored == m.stored && e.policy == m.stored.value.hash && e.id == actions[i].id
      && Holds(n, e) && Holds(At(Run(Start(first, second), actions), side).mail, e)
  {
    var s := Run(Start(first, second), actions[..i]);
    StartFits(first, second);
    RunMoves(Start(first, second), actions[..i]);
    HandedStep(s, actions[i], e);
    ActMoves(s, actions[i]);
    RunStep(Start(first, second), actions, i);
    RunMoves(Act(s, actions[i]), actions[i+1..]);
    HeldOn(Act(s, actions[i]), Run(Start(first, second), actions), actions[i].side, e);
  }

  /** A run at one of its steps. */
  lemma RunStep(s: System, actions: seq<Action>, i: nat)
    requires i < |actions|
    ensures Run(s, actions[..i+1]) == Act(Run(s, actions[..i]), actions[i])
    ensures Run(s, actions) == Run(Act(Run(s, actions[..i]), actions[i]), actions[i+1..])
  {
    assert actions[..i+1][..i] == actions[..i];
    assert actions == actions[..i+1] + actions[i+1..];
    RunSplits(s, actions[..i+1], actions[i+1..]);
  }

  lemma HandedStep(s: System, a: Action, e: Envelope)
    requires SystemFits(s) && HandedIn(s, a) == Some(e)
    ensures var m, n := At(s, a.side).mail, At(Act(s, a), a.side).mail;
      m.stored.Some? && n.stored == m.stored && e.policy == m.stored.value.hash && e.id == a.id && Holds(n, e)
  {
    var site := At(s, a.side);
    DeliverKeeps(site.mail, site.installed, a.id, site.mail.engine.value, a.outside, a.now);
    DeliverStored(site.mail, site.installed, a.id, site.mail.engine.value, a.outside, a.now);
    var n := Deliver(site.mail, a.id, site.mail.engine.value, a.outside, a.now).mail;
    assert RowFits(n, site.installed, a.id);
  }

  lemma HeldOn(s: System, t: System, side: Side, e: Envelope)
    requires Moves(s, t) && Holds(At(s, side).mail, e)
    ensures Holds(At(t, side).mail, e)
  {
    assert RowKept(At(s, side).mail.outbox[e.id], At(t, side).mail.outbox[e.id]);
  }

  /** An envelope that is given to the platform at two points of a run, however far apart,
      is given under one and the same stored policy. */
  lemma HandedAgain(first: Urn, second: Urn, actions: seq<Action>, i: nat, j: nat, e: Envelope)
    requires first != second && i <= j < |actions| && actions[i].side == actions[j].side
    requires HandedIn(Run(Start(first, second), actions[..i]), actions[i]) == Some(e)
    requires HandedIn(Run(Start(first, second), actions[..j]), actions[j]) == Some(e)
    ensures var side := actions[i].side;
      At(Run(Start(first, second), actions[..i]), side).mail.stored.Some?
      && At(Run(Start(first, second), actions[..j]), side).mail.stored.Some?
      && At(Run(Start(first, second), actions[..i]), side).mail.stored.value.hash
        == At(Run(Start(first, second), actions[..j]), side).mail.stored.value.hash
  {
    HandedUnderStored(first, second, actions, i, e);
    HandedUnderStored(first, second, actions, j, e);
  }

  lemma PreparedStored(m: Mail, n: Mail, id: MessageId, policy: Policy)
    requires id in m.outbox && Prepared(m, n, id, policy)
    ensures n.stored == m.stored
  {
  }

  lemma DeliverStored(m: Mail, installed: set<SessionId>, id: MessageId, policy: Policy, o: Outside, now: Instant)
    requires RowsFit(m, installed) && id in m.outbox && m.outbox[id].status.Accepted?
    ensures Deliver(m, id, policy, o, now).mail.stored == m.stored
  {
    assert RowFits(m, installed, id);
    var n := DeliverCases(m, id, policy, o, now);
    PreparedStored(m, n, id, policy);
    EndsFrame(m, n, id, policy, o, Deliver(m, id, policy, o, now));
  }

  /** One live envelope per sequence, over whole runs: any two rows of one sequence belong
      to one chain, the earlier one is refused for good, and no continuation of the run
      changes either envelope or revives the refused row. */
  lemma OneLiveEnvelope(first: Urn, second: Urn, actions: seq<Action>, more: seq<Action>, side: Side,
                        a: MessageId, b: MessageId)
    requires first != second && SameSlot(At(Run(Start(first, second), actions), side).mail, a, b)
    ensures var m := At(Run(Start(first, second), actions), side).mail;
      var n := At(Run(Start(first, second), actions + more), side).mail;
      && RootOf(a) == RootOf(b) && SameSlot(n, a, b)
      && EnvelopeOf(n, a) == EnvelopeOf(m, a) && EnvelopeOf(n, b) == EnvelopeOf(m, b)
      && (a == b || (Refuses(m, a, EnvelopeOf(m, a)) && n.outbox[a] == m.outbox[a])
                 || (Refuses(m, b, EnvelopeOf(m, b)) && n.outbox[b] == m.outbox[b]))
  {
    StartFits(first, second);
    RunMoves(Start(first, second), actions);
    RunMoves(Run(Start(first, second), actions), more);
    RunSplits(Start(first, second), actions, more);
    var site := At(Run(Start(first, second), actions), side);
    var n := At(Run(Start(first, second), actions + more), side).mail;
    SlotChain(site.mail, site.installed, a, b);
    assert RowKept(site.mail.outbox[a], n.outbox[a]) && RowKept(site.mail.outbox[b], n.outbox[b]);
  }

  /** Over whole runs the ordinary envelopes of a live session occupy exactly the numbers
      from 1 to its send counter. */
  lemma NumbersExact(first: Urn, second: Urn, actions: seq<Action>, side: Side, peer: Urn, k: nat)
    requires first != second && peer in At(Run(Start(first, second), actions), side).mail.sessions
    ensures var m := At(Run(Start(first, second), actions), side).mail;
      && (Used(m, m.sessions[peer].id, k) <==> 1 <= k <= m.sessions[peer].sendSequence)
      && UsedOnce(m)
  {
    StartFits(first, second);
    RunMoves(Start(first, second), actions);
    var site := At(Run(Start(first, second), actions), side);
    SequencesExact(site.mail, site.installed, peer, k);
  }
}
