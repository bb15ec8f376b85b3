/** What ends a cancellation: over whole lives of an endpoint, only an acknowledgement of
    the agreement that the peer sent. */
module CollabClosure {
  import opened CollabTypes
  import opened CollabInbox
  import opened CollabInvariant
  import opened CollabSteps
  import opened CollabIncoming
  import opened CollabBudget
  import opened CollabFormation
  import opened CollabLaws

  predicate AckTaken(core: Core, next: Core, k: Key) {
    AppliedAt(next.events, k) && !AppliedAt(core.events, k) && !next.events[k].outgoing && next.events[k].packet.kind.AgreementAck?
  }

  /** If the cancellation ended, an incoming acknowledgement has been applied since. */
  ghost predicate EndsByAck(core: Core, next: Core) {
    core.c.closure.Cancelled? && !next.c.closure.Cancelled? ==> exists k :: AckTaken(core, next, k)
  }

  lemma EndsTrans(a: Core, b: Core, c: Core)
    requires EndsByAck(a, b) && EndsByAck(b, c) && Extends(a, b) && Extends(b, c)
    ensures EndsByAck(a, c)
  {
    if a.c.closure.Cancelled? && !c.c.closure.Cancelled? {
      if b.c.closure.Cancelled? {
        var k :| AckTaken(b, c, k);
        assert k in a.events ==> FinalKept(a.events[k], b.events[k]);
        assert AckTaken(a, c, k);
      } else {
        var k :| AckTaken(a, b, k);
        assert FinalKept(b.events[k], c.events[k]);
        assert AckTaken(a, c, k);
      }
    }
  }

  lemma AppliedEnds(core: Core, k: Key, now: Instant, outgoing: bool, fin: Core)
    requires EventsPlaced(core) && CursorsFit(core) && Applies(core, k, now, outgoing, fin)
    ensures EndsByAck(core, fin)
  {
    if core.c.closure.Cancelled? && !fin.c.closure.Cancelled? {
      var packet := core.events[k].packet;
      assert Placed(core.c, k, core.events[k]);
      AppliesFrame(core, k, now, outgoing, fin);
      AppliedFacts(core, k, now, outgoing, fin);
      CancelledUntilAck(Before(core, packet, outgoing), packet, now, outgoing);
      assert AckTaken(core, fin, k);
    }
  }

  lemma EndsLaw()
    ensures IsLaw((core: Core, next: Core) => EndsByAck(core, next))
  {
    forall core, k, now, outgoing, fin | AppliesOne(core, k, now, outgoing, fin) ensures EndsByAck(core, fin) {
      AppliedEnds(core, k, now, outgoing, fin);
    }
    forall a, b, c | EndsByAck(a, b) && EndsByAck(b, c) && Extends(a, b) && Extends(b, c) ensures EndsByAck(a, c) {
      EndsTrans(a, b, c);
    }
  }

  /** A cancelled collaboration stays cancelled, with its terms, acceptances and agreement,
      through all deeds and all traffic, until an incoming acknowledgement is applied. */
  lemma CancelledRun(e: Endpoint, deeds: seq<Deed>)
    requires Valid(e) && e.core.c.closure.Cancelled?
    ensures var core := DoAll(e, deeds).core;
      && (core.c.closure.Cancelled? || exists k :: AckTaken(e.core, core, k))
      && (e.core.c.agreement.Some? ==>
            core.c.agreement == e.core.c.agreement && core.c.terms == e.core.c.terms
            && core.c.acceptances == e.core.c.acceptances)
  {
    EndsLaw();
    LifeLaw(e, deeds, (core: Core, next: Core) => EndsByAck(core, next));
    DeedsKeep(e, deeds);
  }
}
