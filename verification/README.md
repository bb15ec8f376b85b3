# Verified models of the agent communication system

Dafny models of the parts of this repository that carry its protocol guarantees, with
machine-checked proofs. `dafny verify dfyconfig.toml` checks the whole project.

Each area has a specification in functions over plain values, lemmas that prove what the
protocol is for about those functions, and, where the source updates stored state in
place, a class whose methods do the same and are proved to have exactly the specified
effect (roll-back included). Beside the laws about whole runs, lemmas named `...Exactly` and
`...Taken` state on the stored fields alone when an operation succeeds and what it leaves.

| area | files |
|---|---|
| Bilateral agreements: reducer, buffered stream, two-phase dispatch, recovery, budgets | `CollabTypes`, `CollabReducer`, `CollabInbox`, `CollabOutbox`, `CollabInvariant`, `CollabSteps`, `CollabAgreement`, `CollabIncoming`, `CollabOrder`, `CollabStall`, `CollabArrivals`, `CollabBudget`, `CollabFormation`, `CollabRecording`, `CollabLaws` (laws of whole lives and runs), `CollabClosure`, `CollabGuards`, `CollabDispatch`, `CollabIntake`, `CollabConfirmed`, `CollabOwner`, `CollabTruth`, `CollabAsks`, `CollabTalk` and `CollabExamples` (concrete runs), `CollabStore` (class) |
| Sequenced delivery: durable outbox, sequence repairs, policy epochs | `MailTypes`, `MailOps`, `MailInvariant`, `MailDelivery`, `MailPolicy`, `MailStatus`, `MailGuards`, `MailBlocked`, `MailExample` (concrete runs), `MailStore` (class) |
| Trust search and path enumeration | `TrustGraph`, `TrustSearch`, `TrustEnumeration` |
| Session handshake | `HandshakeCrypto`, `Handshake` |
| Attention feed | `AttentionFeed` |
| Relay queue | `RelayQueue` |
| Shutdown of the durable listener | `DurableListener` |
| Scope policy | `ScopePolicy` |

## Assumptions

- A digest, an event identifier and a derived identifier are the values they were computed
  from (injective); every such type also has values that match nothing.
- Each database transaction is one atomic step. A raised exception restores the state before
  the transaction or savepoint.
- The network is authenticated: only a party itself can produce its packets or envelopes. It
  may lose, reorder and repeat anything that was handed over.
- Policy verdicts, owner confirmations, reviews and clocks are inputs of the steps. One run
  may use any clock values.
- X25519 commutes (section 6.1 of RFC 7748); HKDF (sections 2.2 and 2.3 of RFC 5869), HMAC,
  hashing, signing and the canonical frame encoding are injective. The transcript and the key
  contexts are modelled byte for byte and their injectivity is proved.
- One worker runs each mailbox, one platform is pinned, and a session is installed under an
  identifier that this side never used before.

## Findings

- An event that expires while it is buffered gets a receipt whatever its kind. For a buffered
  receipt that raises, which undoes the whole receiving transaction; the endpoint then takes in
  nothing from that peer until its standing permit ends (`CollabStall.StallExample`; exactly
  when: `CollabStall.StepAborts`, `CollabStall.DrainAborts`, `CollabArrivals.ReceiveOrder`).
- A withdrawal that the coordinator has reserved but not yet sent when it forms an agreement is
  numbered within the formation's cursor. Once it is sent and taken in, the peer refuses that
  formation for good, while the coordinator keeps it (`CollabExamples.OvertakenExample`; exactly
  when: `CollabFormation.WithdrawnIffUndercut` for the coordinator,
  `CollabRecording.RecordedExactly` for the peer).
- The coordinator does not compare the creation time of an acceptance with its own clock when it
  forms an agreement, but the check of its own agreement event does. After an acceptance from a
  clock that is up to a minute ahead it holds an agreement that it can never send
  (`CollabExamples.AheadExample`; exactly when: `CollabRecording.SendableExactly`).
- A cancelled collaboration becomes complete again when an acknowledgement of the agreement
  arrives (`CollabExamples.CompletedExample`), and only then (`CollabClosure.CancelledRun`).
- The inbox is keyed by message identifier alone, and the listener for the older protocol stores
  its messages in the same table. The next number of a session is refused at every arrival
  exactly when its identifier holds another row: a stranger's message
  (`MailExample.OccupiedExample`), or a message of the older protocol by anybody, the very
  sender included (`MailExample.PlainExample`). `MailDelivery.NextIsCommitted` proves both
  directions. If the platform has admitted the envelope, the session commits nothing more
  (`MailBlocked.BlockedForGood`).
- An acknowledged relay message can return after its expired row was cleaned up and it is stored
  again (`RelayQueue.ReturnsAfterCleanup`), and only then (`RelayQueue.AcknowledgedUntilRemoved`).
- The comment of `BFSPaths` (wot/resolver.go:323-324) speaks of paths from source to target; the
  code returns the parties before the target, without it. The model follows the code.

## Model

| member | source | states |
|---|---|---|
| `CollabAgreement.AgreementConsistency` | python/agent_comm_runtime/collaboration_v2.py:589-689 | In every run of two endpoints over a network that loses, reorders and repeats packets, if the second party has recorded an agreement then the coordinator holds the same one, and both hold the same terms, those its digest names |
| `CollabAgreement.AgreementFinal` | python/agent_comm_runtime/collaboration_v2.py:415-446 | Once a run has recorded an agreement on a side, no continuation of the run changes that side's agreement, terms or acceptances |
| `CollabAgreement.MutualConsent` | python/agent_comm_runtime/collaboration_v2.py:640-689 | A recorded agreement rests on both parties' own acts: each applied the proposal with exactly those terms and itself sent the acceptance the formation refers to |
| `CollabAgreement.TermsHistory` | python/agent_comm_runtime/collaboration_v2.py:428-439 | In every run each side's applied proposals are numbered 1, 2, 3, ..., each names its predecessor's digest, and the second party's list is a prefix of the coordinator's |
| `CollabAgreement.HistoryPrefix` | python/agent_comm_runtime/collaboration_v2.py:619-627 | Any two such lists of one reachable system: the second party's is a prefix of the coordinator's, whatever was rejected or buffered |
| `CollabAgreement.ActKeeps` | python/agent_comm_runtime/collaboration_v2.py:458-555 | Every action of either party keeps: all network packets and all received events were really applied and sent by their sender, and both endpoints are valid |
| `CollabAgreement.CarriedSent` | python/agent_comm_runtime/collaboration_v2.py:196-204 | What a site sends, the history inside a recovery response included, is only what that site itself applied and sent |
| `CollabInvariant.AppliesKeepsSound` | python/agent_comm_runtime/collaboration_v2.py:608-752 | Applying any one event keeps the endpoint invariant: unique numbers, stored stream, backed consents, named withdrawals, evidenced agreement, linked terms history |
| `CollabInvariant.FormedEvidence` | python/agent_comm_runtime/collaboration_v2.py:589-606 | What the coordinator forms refers to exactly two applied accept events, one per party, for those terms and within the recorded cursors |
| `CollabGuards.ConsentLife` | python/agent_comm_runtime/collaboration_v2.py:428-432 | Through any life, an active acceptance of either party stands unchanged until that party's own withdrawal, naming exactly it, has been applied since |
| `CollabGuards.ConsentRun` | python/agent_comm_runtime/collaboration_v2.py:428-432 | The same between any two moments of any run, at either party |
| `CollabGuards.ProposalTaken` | python/agent_comm_runtime/collaboration_v2.py:415-439 | A proposal is taken if and only if both have joined, nothing is cancelled or agreed, it is the initiator's, states a supported meeting of the two parties with its digest, is the next version on top of the current terms, and nobody's acceptance is active; it replaces the terms and clears the acceptances |
| `CollabGuards.ProposalWaits` | python/agent_comm_runtime/collaboration_v2.py:433-435 | A proposal waits for evidence exactly when only its parent differs from the current terms |
| `CollabGuards.OpeningTaken` | python/agent_comm_runtime/collaboration_v2.py:611-618 | A join is taken if and only if it is the other party's and repeats the mandate's topic; an invitation changes nothing |
| `CollabGuards.ChangeRequestTaken` | python/agent_comm_runtime/collaboration_v2.py:619-628 | A change request is taken if and only if it is the other party's, in an open negotiation, and states a supported meeting; the terms stay |
| `CollabGuards.AcceptTaken` | python/agent_comm_runtime/collaboration_v2.py:440-446 | An acceptance is taken if and only if its sender accepts the current terms for itself, validly, in an open negotiation, holding no other active acceptance |
| `CollabGuards.AcceptRecords` | python/agent_comm_runtime/collaboration_v2.py:589-606 | A taken acceptance is recorded as sent, the others stay; it forms an agreement if and only if this is the coordinator and both parties' acceptances are active, valid and for the terms, at the cursors of that moment |
| `CollabGuards.AgreementTaken` | python/agent_comm_runtime/collaboration_v2.py:640-687 | An agreement event is taken if and only if it is the initiator's, does not contradict the recorded agreement, and repeats the cancelled one or carries a formation for the current terms whose two references, one per party, name applied, matching, unwithdrawn acceptances within the cursors and times |
| `CollabGuards.WithdrawTaken` | python/agent_comm_runtime/collaboration_v2.py:699-710 | A withdrawal is taken if and only if it names its sender's recorded acceptance and terms; it ends that acceptance unless an agreement is recorded |
| `CollabGuards.CancelTaken` | python/agent_comm_runtime/collaboration_v2.py:711-720 | A cancellation request or acknowledgement is taken if and only if it names the recorded agreement of an open collaboration, the acknowledgement only after the other party's request |
| `CollabGuards.AckTaken` | python/agent_comm_runtime/collaboration_v2.py:690-697 | An acknowledgement is taken if and only if it is the other party's and names the recorded agreement |
| `CollabSteps.TakeKeeps` | python/agent_comm_runtime/collaboration_v2.py:790-846 | Taking the next event off the stream keeps the invariant, advances the incoming cursor by one, decides no own event and stores no event |
| `CollabSteps.DrainKeeps` | python/agent_comm_runtime/collaboration_v2.py:790-864 | A whole drain keeps the invariant and undoes nothing: packets are immutable, final statuses final |
| `CollabSteps.IngestRecordKeeps` | python/agent_comm_runtime/collaboration_v2.py:866-905 | Whatever the authenticated peer sends, the endpoint stays valid and stores only what the packet carries |
| `CollabSteps.PrepareKeeps` | python/agent_comm_runtime/collaboration_v2.py:207-345 | Preparing an operation stores no event and vouches only for recorded facts |
| `CollabSteps.ConfirmKeeps` | python/agent_comm_runtime/collaboration_v2.py:402-412 | A confirmation or refusal changes only the operation |
| `CollabSteps.ReserveKeeps` | python/agent_comm_runtime/collaboration_v2.py:458-519 | Reserving a packet keeps the invariant and only extends the records |
| `CollabSteps.SubmitKeeps` | python/agent_comm_runtime/collaboration_v2.py:520-555 | Applying and sending keeps the invariant; afterwards the packet is applied |
| `CollabSteps.OpenValid` | python/agent_comm_runtime/collaboration_v2.py:474-480 | An opening transaction creates a valid endpoint whose only incoming event is the joined invitation |
| `CollabSteps.RevokeKeeps` | python/agent_comm_runtime/collaboration_v2.py:931-945 | Taking the standing permit back keeps the invariant |
| `CollabConfirmed.ConfirmedLife` | python/agent_comm_runtime/collaboration_v2.py:290-301 | In any life from its opening: whatever the endpoint stores for sending on its owner's behalf was prepared with exactly this content, on facts and a mandate that still stand; a withdrawal, a cancellation request or a cancellation acknowledgement was approved by the owner after that; a proposal, change request or acceptance was approved, or allowed by the policy at preparation and again now, and never against a denial |
| `CollabConfirmed.ConfirmedRun` | python/agent_comm_runtime/collaboration_v2.py:485-507 | The same for either party in every run of the two, from the action by which it was bound |
| `CollabConfirmed.RefusedForGood` | python/agent_comm_runtime/collaboration_v2.py:407-412 | Once the owner has refused an operation no deeds and no traffic make it approved, stored or handed over |
| `CollabConfirmed.RefusedRun` | python/agent_comm_runtime/collaboration_v2.py:407-412 | A refusal at any point of a run still holds at its end |
| `CollabConfirmed.AutomaticKinds` | python/agent_comm_runtime/collaboration_v2.py:565-587 | What is stored without having been prepared by the owner is an agreement, its acknowledgement, a receipt or a recovery event |
| `CollabDispatch.PreparedSays` | python/agent_comm_runtime/collaboration_v2.py:150-195 | What a prepared operation says, kind by kind: the requested terms between the two parties on top of the current ones, the acceptance of the current terms until the mandate ends, the withdrawal of the own acceptance, the agreement's name, the own cursor |
| `CollabDispatch.PreparedAsks` | python/agent_comm_runtime/collaboration_v2.py:270-303 | Exactly when the owner is asked, and until when the operation can be carried out: with the permit, with the mandate, or for fifteen minutes after the mandate ended |
| `CollabDispatch.ReservesExactly` | python/agent_comm_runtime/collaboration_v2.py:458-507 | The first transaction succeeds if and only if the operation is ready, in time, under the facts and mandate or the permit it started with, to a connected and reviewed peer, with its decision and its budget, while numbers are left |
| `CollabDispatch.StoresPacket` | python/agent_comm_runtime/collaboration_v2.py:448-456 | The stored packet has the next number and the predecessor of the own stream and exactly the operation's content |
| `CollabDispatch.SubmitsExactly` | python/agent_comm_runtime/collaboration_v2.py:520-540 | The second transaction hands the packet over if and only if the operation is still current, the peer connected, and the packet was applied before or is applied now |
| `CollabDispatch.ApprovesExactly` | python/agent_comm_runtime/collaboration_v2.py:389-412 | An approval takes effect if and only if the operation awaits it and could still be carried out as it was asked; a refusal always does |
| `CollabDispatch.OpensExactly` | python/agent_comm_runtime/collaboration_v2.py:227-256 | A collaboration is opened if and only if the other party differs, the mandate is live with an action left, and a joined invitation is an unexpired first event of the peer for this collaboration and topic; the permit it gives has 32 events and ends a day after the mandate, within a week |
| `CollabOwner.ReviewedText` | python/agent_comm_runtime/collaboration_v2.py:802-813 | In any life, every invitation, proposal or change request of the peer that was applied had been approved by the owner, and no later decision takes that back |
| `CollabOwner.PermitEnds` | python/agent_comm_runtime/collaboration_v2.py:361-379 | In any life, agreement events, acknowledgements, receipts and recovery events are stored and handed over only before the end that the permit was given at the opening |
| `CollabOwner.RevokedForGood` | python/agent_comm_runtime/collaboration_v2.py:931-945 | Once the owner has taken the permit back, no later deeds or traffic let any of these be stored or handed over |
| `CollabIncoming.OwnConsent` | python/agent_comm_runtime/collaboration_v2.py:866-905 | From a state with no own accept event, no sequence of arrivals, recovery responses included, creates an acceptance under the local identity or an agreement, in either role |
| `CollabIncoming.RecordedClean` | python/agent_comm_runtime/collaboration_v2.py:654-687 | At the moment the non-coordinator records an agreement it has applied exactly two accepts, one per party, for those terms, each within its cursor, created by and valid past the formation, with no withdrawal within the cursors |
| `CollabIncoming.FormationEvidence` | python/agent_comm_runtime/collaboration_v2.py:640-689 | The same evidence still holds after any further arrivals |
| `CollabRecording.EvidenceInRuns` | python/agent_comm_runtime/collaboration_v2.py:640-689 | In every run, whatever both parties do before and after: a peer that holds an agreement has applied exactly two accepts for its terms, one per party, each within its cursor, created no later than the formation and valid past it, and no withdrawal of either within the cursors |
| `CollabIncoming.FormationSelfCheck` | python/agent_comm_runtime/collaboration_v2.py:589-606 | At the moment of formation the coordinator's records pass the checks made on its agreement event if and only if neither acceptance was created, by its sender's clock, after the formation |
| `CollabIncoming.CancelledUntilAck` | python/agent_comm_runtime/collaboration_v2.py:690-697 | A cancelled collaboration keeps its terms, acceptances and agreement; it stays cancelled unless, and only unless, an incoming acknowledgement is applied |
| `CollabClosure.CancelledRun` | python/agent_comm_runtime/collaboration_v2.py:690-697 | Over a whole life of an endpoint a cancelled collaboration stays cancelled, with its terms, acceptances and agreement, unless an incoming acknowledgement has been applied since |
| `CollabTruth.CancelledByEach` | python/agent_comm_runtime/collaboration_v2.py:711-720 | In every run, a party holds the collaboration cancelled only if one party sent a cancellation request and the other one its acknowledgement, both naming the agreement it holds |
| `CollabTruth.CompletedByBoth` | python/agent_comm_runtime/collaboration_v2.py:690-738 | In every run, when either party takes the collaboration for completed, both parties hold the same agreement |
| `CollabTruth.TrueReceipts` | python/agent_comm_runtime/collaboration_v2.py:721-738 | In every run, what a party notes from a receipt is said of exactly the event that the other party stores, and "applied" and "rejected" are the status it has there |
| `CollabTruth.ReceiptTaken` | python/agent_comm_runtime/collaboration_v2.py:721-728 | A receipt is taken if and only if it names a stored event with its digest and a known status; it is noted with that event |
| `CollabTruth.ReceiptCompletes` | python/agent_comm_runtime/collaboration_v2.py:729-732 | Which receipts end a pending withdrawal or complete the collaboration, exactly |
| `CollabExamples.CompletedExample` | python/agent_comm_runtime/collaboration_v2.py:690-697 | A run from the start: both sides have agreed and cancelled, and the acknowledgement that arrives then completes the collaboration at the coordinator only |
| `CollabFormation.WithdrawnIffUndercut` | python/agent_comm_runtime/collaboration_v2.py:589-606 | A deed makes the coordinator form at its outgoing cursor. In every later state it holds that formation, and an applied withdrawal of its own consent within the cursor if and only if that withdrawal was stored, reserved and unsent, before the formation and has been sent since |
| `CollabFormation.DoForms` | python/agent_comm_runtime/collaboration_v2.py:589-606 | Whatever deed makes the coordinator form: the formation's cursor is the number of its own events, reserved ones included, and its own consent is not withdrawn by then |
| `CollabFormation.UndercutFixed` | python/agent_comm_runtime/collaboration_v2.py:509-519 | Whether such a reserved withdrawal exists is fixed at the formation: nothing the coordinator does later changes it |
| `CollabFormation.SpoiledRefused` | python/agent_comm_runtime/collaboration_v2.py:680-687 | A peer that has applied such a withdrawal never comes to hold that formation, by any traffic and any deeds of its own, and refuses every agreement event that carries it |
| `CollabRecording.RecordedExactly` | python/agent_comm_runtime/collaboration_v2.py:640-689 | In every run: when a peer without an agreement comes to the coordinator's agreement event, it records the coordinator's agreement if and only if both accepts are applied there, were created no later than the formation and are not withdrawn within its cursors, and the formation is neither later than the event nor over a minute ahead of the peer; otherwise it rejects the event for good. Terms, parties, digests and cursors always fit |
| `CollabRecording.SendableExactly` | python/agent_comm_runtime/collaboration_v2.py:520-540 | In every run: an operation of the coordinator that sends its agreement can be carried out if and only if it is current, the contact is connected, and the coordinator's own records meet the same condition, or the event was applied before, or the collaboration has been cancelled |
| `CollabRecording.SpoiledForGood` | python/agent_comm_runtime/collaboration_v2.py:680-687 | Once the peer has applied such a withdrawal the coordinator keeps its agreement and the peer never holds one, in every continuation of the run |
| `CollabExamples.OvertakenExample` | python/agent_comm_runtime/collaboration_v2.py:598-602 | A run from the start in which the coordinator reserves the withdrawal of its acceptance, forms, sends the agreement and the withdrawal, and the peer rejects the agreement, with no agreement in any continuation |
| `CollabExamples.AheadExample` | python/agent_comm_runtime/collaboration_v2.py:589-606 | A run from the start in which the coordinator forms on an acceptance from a clock 50 ahead, and its agreement event is refused when sent, at every clock value |
| `CollabOrder.DrainComplete` | python/agent_comm_runtime/collaboration_v2.py:790-797 | The bound of 256 iterations never cuts a drain short: nothing is left to take, and any larger bound gives the same result |
| `CollabOrder.LoopCore` | python/agent_comm_runtime/collaboration_v2.py:790-846 | The endpoint's drain decides events exactly as the drain on the negotiated facts alone |
| `CollabOrder.ApplyPlus` | python/agent_comm_runtime/collaboration_v2.py:608-752 | A decision other than waiting for evidence is the same whatever further undecided events are stored |
| `CollabOrder.DrainPlus` | python/agent_comm_runtime/collaboration_v2.py:790-846 | Draining before further events are stored makes no difference to the drain after |
| `CollabOrder.OrderIndependence` | python/agent_comm_runtime/collaboration_v2.py:754-864 | On the stored facts, at one clock, with fixed reviews and at most one event per number, any two arrival orders of events with any repetitions leave the same facts, namely those of storing everything and draining once in order |
| `CollabIntake.AdmitsExactly` | python/agent_comm_runtime/collaboration_v2.py:754-773 | An event is stored if and only if it is the one already there, or its identifier and number are free; it is rejected at once exactly if it is over a minute ahead, or expired and neither an agreement nor a recovery answer |
| `CollabIntake.ReceivesOnly` | python/agent_comm_runtime/collaboration_v2.py:866-900 | Nothing but a well-formed event of the bound peer for this party and collaboration is received |
| `CollabIntake.RecoveryTaken` | python/agent_comm_runtime/collaboration_v2.py:733-752 | A recovery request is taken if and only if its number is in range; an answer only with at most eight ordered events of its sender for this party |
| `CollabIntake.TurnExactly` | python/agent_comm_runtime/collaboration_v2.py:790-842 | What becomes of the next event: waiting for its predecessor, for the owner's review or for evidence, or leaving the stream declined, expired, refused or applied, each exactly under its condition |
| `CollabIntake.QueuesExactly` | python/agent_comm_runtime/collaboration_v2.py:565-587 | A reply is queued if and only if the permit stands and has room for all that is queued under it |
| `CollabIntake.RepliesExactly` | python/agent_comm_runtime/collaboration_v2.py:651-739 | Which applied events call for an agreement event, an acknowledgement or a recovery answer, exactly |
| `CollabIntake.ReceiptSays` | python/agent_comm_runtime/collaboration_v2.py:187-193 | A receipt repeats the digest and the status of the stored event, and there is none for receipts and recovery answers |
| `CollabIntake.StepAnswers` | python/agent_comm_runtime/collaboration_v2.py:806-846 | Which reply and which receipt follow each event that leaves the stream |
| `CollabIntake.TailAsks` | python/agent_comm_runtime/collaboration_v2.py:847-864 | Missing events are asked for exactly while an event is undecided, the collaboration is not cancelled and the owner is not waited for |
| `CollabIntake.ShowsExactly` | python/agent_comm_runtime/collaboration_v2.py:617-732 | After which events the owner is shown the collaboration as closed, agreed, negotiating, partially accepted or reconciling, exactly |
| `CollabIntake.StopsShow` | python/agent_comm_runtime/collaboration_v2.py:798-838 | Why a drain stopped is shown, and nothing else changes |
| `CollabIntake.DecidesOnce` | python/agent_comm_runtime/collaboration_v2.py:802-813 | A review is decided once, and the stream goes on with that decision |
| `CollabAsks.AsksOwnCursor` | python/agent_comm_runtime/collaboration_v2.py:194-195 | In every run, a recovery request that a party sends asks for what follows the incoming cursor that it had itself at some moment of the run |
| `CollabAsks.AnswerIs` | python/agent_comm_runtime/collaboration_v2.py:196-204 | The answer lists its sender's own applied events after the number asked for, in order: all of them, or the first eight |
| `CollabArrivals.ReceiveOrder` | python/agent_comm_runtime/collaboration_v2.py:754-905 | The same for whole receiving transactions, recovery requests and responses among the arrivals: either all succeed in both orders and leave the same cursors, terms, acceptances, agreement, joined flag and statuses, or in both orders one is undone; the latter exactly when the drain of everything stored reaches an expired waiting receipt. Only the recovery cursor may differ |
| `CollabArrivals.TransactionIs` | python/agent_comm_runtime/collaboration_v2.py:866-905 | One receiving transaction is undone if and only if the drain of what it stores, the history of a recovery response included, reaches such a receipt; otherwise it ends where that drain ends |
| `CollabArrivals.StallsPlus` | python/agent_comm_runtime/collaboration_v2.py:790-846 | A drain beside further stored events reaches such a receipt if and only if it does without them, or does after coming to rest without them |
| `CollabArrivals.FreshTakesAll` | python/agent_comm_runtime/collaboration_v2.py:790-846 | While no waiting event has expired, every arrival in every order is taken in |
| `CollabStall.StepAborts` | python/agent_comm_runtime/collaboration_v2.py:814-819 | One iteration of the drain raises exactly when the next event is a receipt that expired while buffered and the permit is open |
| `CollabStall.DrainAborts` | python/agent_comm_runtime/collaboration_v2.py:790-846 | A receiving transaction is undone by its drain if and only if the drain, before it comes to rest, reaches such a receipt |
| `CollabStall.StallLasts` | python/agent_comm_runtime/collaboration_v2.py:814-819 | While the permit stays open, a stalled endpoint takes in nothing that the peer sends, whatever either side does meanwhile, in any order and at any later clock values |
| `CollabStall.StallEnds` | python/agent_comm_runtime/collaboration_v2.py:567-569 | Without an open permit no drain is ever undone |
| `CollabStall.StallExample` | python/agent_comm_runtime/collaboration_v2.py:814-819 | The concrete case: a receipt numbered 2 arrives before the join numbered 1 and expires; the join is refused, though without the receipt it is taken in |
| `CollabBudget.BudgetConservation` | python/agent_comm_runtime/collaboration_v2.py:458-519 | Over whole runs the stored outgoing packets are as many as the payments of the three budgets together; the permit and the task are never overdrawn and each recovery confirmation pays once |
| `CollabBudget.DoPays` | python/agent_comm_runtime/collaboration_v2.py:485-509 | A reservation pays for one packet from exactly the budget of its operation; preparing, confirming, sending, resending, receiving and revoking pay nothing |
| `CollabBudget.PacketsPaid` | python/agent_comm_runtime/collaboration_v2.py:509-519 | Every stored outgoing packet was paid for exactly once, from exactly one budget |
| `CollabBudget.SubmitNothing` | python/agent_comm_runtime/collaboration_v2.py:520-555 | Sending and sending again pays nothing |
| `CollabBudget.ReceiveUnpaid` | python/agent_comm_runtime/collaboration_v2.py:565-587 | Nothing that arrives is paid for: replies are only queued |
| `CollabStore.Store.FindSlot` | python/agent_comm_runtime/collaboration_v2.py:792-799 | Finds the one stored event of a sender with a given number, if any |
| `CollabStore.Store.OwnEventsAfter` | python/agent_comm_runtime/collaboration_v2.py:196-204 | Collects the own applied events after a number, in order |
| `CollabStore.Store.CheckAcceptances` | python/agent_comm_runtime/collaboration_v2.py:660-687 | The loop over the references decides as the recursive check does |
| `CollabStore.Store.RecordHistory` | python/agent_comm_runtime/collaboration_v2.py:740-752 | Takes a recovery response in event by event, as specified |
| `CollabStore.Store.Reduce` | python/agent_comm_runtime/collaboration_v2.py:608-752 | One event changes the facts in place exactly as the reducer specifies |
| `CollabStore.Store.ApplyRecovery` | python/agent_comm_runtime/collaboration_v2.py:774-788 | A recovery event is applied inside a savepoint or rejected with nothing else changed |
| `CollabStore.Store.IngestBound` | python/agent_comm_runtime/collaboration_v2.py:754-788 | Storing an event in place has the specified effect |
| `CollabStore.Store.ReduceNext` | python/agent_comm_runtime/collaboration_v2.py:820-842 | Applying the next event inside a savepoint is one specified drain step |
| `CollabStore.Store.DrainOnce` | python/agent_comm_runtime/collaboration_v2.py:791-846 | One iteration in place is one specified drain step |
| `CollabStore.Store.DrainEvents` | python/agent_comm_runtime/collaboration_v2.py:790-846 | The bounded loop equals the specified iteration |
| `CollabStore.Store.Drain` | python/agent_comm_runtime/collaboration_v2.py:790-864 | The whole drain in place equals its specification, or fails exactly when that does |
| `CollabStore.Store.IngestRecord` | python/agent_comm_runtime/collaboration_v2.py:866-905 | The receiving transaction succeeds exactly when specified and otherwise leaves the store as it was; the invariant is kept |
| `CollabStore.Store.Reserve` | python/agent_comm_runtime/collaboration_v2.py:458-519 | The first dispatch transaction succeeds exactly when specified and otherwise changes nothing |
| `CollabStore.Store.Submit` | python/agent_comm_runtime/collaboration_v2.py:520-555 | The second dispatch transaction succeeds exactly when specified and otherwise changes nothing |
| `MailPolicy.OneLiveEnvelope` | cmd/helper/v2_sequence_skip.go:219-286 | Over whole runs the rows of one sequence form a chain original, repair, repair of the repair, ...; every row but the last is refused for good and no continuation changes either envelope or revives it |
| `MailDelivery.SlotChain` | cmd/helper/v2_sequence_skip.go:219-286 | Two rows of one sequence have one root; the one nearer to it is refused, and at equal distance they are the same row |
| `MailPolicy.NumbersExact` | cmd/helper/v2_mailbox.go:69-108 | Over whole runs the ordinary envelopes of a live session occupy exactly the numbers 1 to its send counter, once each |
| `MailDelivery.InOrderDelivery` | cmd/helper/v2_mailbox.go:349-396 | In every run, whatever the relay does, the i-th commit of a session is number i: the sender's stored ordinary envelope of that number with the requested text, or a repair whose original is refused |
| `MailDelivery.NeverBoth` | cmd/helper/v2_sequence_skip.go:301-360 | For one number of one session a receiver commits a message or a skip, never both |
| `MailDelivery.DuplicateChangesNothing` | cmd/helper/v2_mailbox.go:363-370 | What was committed once is refused or acknowledged again without any change |
| `MailDelivery.ReceiverBehind` | cmd/helper/v2_mailbox.go:385-388 | Every number committed from the peer was used by it, and the receive counter never exceeds the peer's send counter while both hold the session |
| `MailDelivery.NextIsCommitted` | cmd/helper/v2_mailbox.go:349-396 | The next number of a live session is committed when it arrives and its checks pass, if and only if its identifier does not hold another row; such a row is a message of the older protocol, by anybody, or a commit from another sender |
| `MailBlocked.BlockedForGood` | cmd/helper/v2_mailbox.go:363-370 | When the identifier of an admitted envelope with the next number is occupied, the session commits nothing more in any continuation: the envelope is refused at every arrival and has no repair |
| `MailBlocked.BlockedNow` | cmd/helper/v2_mailbox.go:363-388 | For an admitted envelope with the next number of a live session, that state begins exactly when its identifier is occupied |
| `MailExample.OccupiedExample` | cmd/helper/v2_mailbox.go:363-370 | A run from the start in which a stranger's committed message occupies the identifier of the peer's next envelope, and the session commits nothing in any continuation |
| `MailExample.PlainExample` | cmd/helper/mailbox.go:166-186 | A run from the start in which a message of the older protocol, of any sender and text, stands under the identifier of the peer's next envelope, and the session commits nothing in any continuation |
| `MailDelivery.RepairStored` | cmd/helper/v2_sequence_skip.go:128-217 | Whenever a candidate is accepted its one repair is stored one step up the chain, ready at once, and the candidate is not accepted again; only the number limit prevents it |
| `MailGuards.RepairReason` | cmd/helper/v2_sequence_skip.go:128-217 | In every run a number is given up only after its message was refused for good and the platform had taken a later number of the session |
| `MailGuards.RepairsExactly` | cmd/helper/v2_sequence_skip.go:128-286 | In every run a repair step stores a repair if and only if the refused row, its session, the recipient's key and the later receipt are as required; the repair has the number, session and policy of the original and names it |
| `MailGuards.SavesExactly` | cmd/helper/v2_sequence_skip.go:219-286 | The storing transaction succeeds if and only if what can have changed since the check still holds, or the same repair is already there |
| `MailGuards.ReceivesExactly` | cmd/helper/v2_mailbox.go:349-396 | An envelope is taken if and only if it is for the live session under the worker's policy and either repeats what is there, without change, or brings the next number under a free identifier |
| `MailDelivery.ActMoves` | cmd/helper/v2_daemon.go:82-122 | Every action of either helper keeps the system invariant and undoes no row, epoch or commit |
| `MailPolicy.EpochsMonotone` | cmd/helper/v2_mailbox.go:217-229 | Along every run the stored epoch never decreases and one epoch never has two policies |
| `MailPolicy.EverythingUnderStored` | cmd/helper/v2_mailbox.go:236-246 | In every reachable state all sessions and all accepted rows with an envelope carry the stored policy hash |
| `MailPolicy.HandedUnderStored` | cmd/helper/v2_daemon.go:582-673 | At every hand-over of every run, repeated, refused and lost ones included, the envelope carries the policy stored before and after the step; it is the stored envelope of its row, and stays so to the end of the run |
| `MailPolicy.HandedAgain` | cmd/helper/v2_daemon.go:654-673 | An envelope that is given to the platform at two points of a run is given under one stored policy |
| `MailStatus.HandedExactly` | cmd/helper/v2_daemon.go:582-660 | In every run a step hands a row over if and only if the row is next and accepted, has no deadline or one later than the clock, can be presented under the worker's policy, session and recipient key, and its envelope still verifies |
| `MailStatus.ExpiresExactly` | cmd/helper/v2_daemon.go:591-593 | In every run a row becomes expired in a step if and only if the step handles it at or after its deadline |
| `MailStatus.NoDeadlineStays` | cmd/helper/mailbox.go:83-89 | A row without a deadline never expires, in any run |
| `MailStatus.AcceptedRow` | cmd/helper/v2_daemon.go:582-690 | The status of an accepted row after any step of either helper, in terms of what the step does to it |
| `MailStatus.RefusedIsCandidate` | cmd/helper/v2_daemon.go:675-690 | A refused row becomes a candidate for a repair if and only if the platform answered with the exact text |
| `MailGuards.CostsExactly` | cmd/helper/v2_daemon.go:594-690 | Which outcomes count as an attempt, and until when the row then waits |
| `MailGuards.NextExactly` | cmd/helper/v2_mailbox.go:53-67 | The row handled next is due; a message comes only when no repair is due, and no due row of its kind is older |
| `MailGuards.ComesExactly` | cmd/helper/v2_mailbox.go:53-67 | The order of due rows: repairs, then age, then identifier |
| `MailGuards.SealsExactly` | cmd/helper/v2_mailbox.go:69-108 | A sealed envelope is stored if and only if the row has none and the session is ready, unchanged and at the number before; a stored one stays |
| `MailGuards.AcceptsExactly` | cmd/helper/v2_mailbox.go:33-51 | A request is accepted if and only if its identifier is the owner's and stands for no other request; afterwards it stands for this one |
| `MailInvariant.RefreshKeeps` | cmd/helper/v2_mailbox.go:196-248 | A policy refresh keeps the mailbox invariant; no pending work or session stays under the old policy |
| `MailInvariant.SealKeeps` | cmd/helper/v2_mailbox.go:69-108 | Committing a sealed envelope uses exactly the next number of its session |
| `MailInvariant.SaveSkipKeeps` | cmd/helper/v2_sequence_skip.go:219-286 | Storing a repair keeps every sequence, envelope and earlier repair |
| `MailInvariant.DeliverKeeps` | cmd/helper/v2_daemon.go:582-673 | Handling one row keeps the invariant and hands over at most that row's stored envelope under the worker's policy |
| `MailInvariant.ReceiveKeeps` | cmd/helper/v2_mailbox.go:349-396 | Committing a message or a skip keeps the mailbox invariant and leaves outbox, repairs, policy and everything of the sessions but the receive counter as it was |
| `MailStore.Mailbox.NextOutgoing` | cmd/helper/v2_mailbox.go:53-67 | Returns a ready row before which no ready row comes: repairs first, then the oldest, then by identifier; nothing only if nothing is ready |
| `MailStore.Mailbox.SaveEnvelope` | cmd/helper/v2_mailbox.go:69-108 | Envelope and send counter change together, or nothing does; a stored envelope stays |
| `MailStore.Mailbox.Retire` | cmd/helper/v2_mailbox.go:126-135 | Exactly the persisted refusals become conflicts, and are counted |
| `MailStore.Mailbox.QuarantineAll` | cmd/helper/v2_mailbox.go:236-239 | Exactly the accepted rows are quarantined |
| `MailStore.Mailbox.SavePolicy` | cmd/helper/v2_mailbox.go:196-248 | Rollback and equivocation are refused without change; a new epoch quarantines and drops sessions |
| `MailStore.Mailbox.DeliverNext` | cmd/helper/v2_daemon.go:582-673 | Handles exactly one next row as specified, or none when none is ready |
| `MailStore.Mailbox.SaveSkip` | cmd/helper/v2_sequence_skip.go:219-286 | Repair row and mapping are stored together or not at all |
| `MailStore.Mailbox.HasLaterReceipt` | cmd/helper/v2_sequence_skip.go:67-100 | Finds whether a later number of the session was admitted |
| `MailStore.Mailbox.ScheduleOne` | cmd/helper/v2_sequence_skip.go:128-217 | A candidate is repaired exactly when every condition holds |
| `MailStore.Mailbox.ReceivePlain` | cmd/helper/mailbox.go:166-186 | A message of the older protocol is stored once under a free identifier; the same again is a success, another row stays |
| `MailStore.Mailbox.NextGapCandidate` | cmd/helper/v2_sequence_skip.go:41-62 | Returns the first candidate past the cursor in the order of age and identifier; nothing only if none is past it |
| `MailStore.Mailbox.ScheduleSkips` | cmd/helper/v2_sequence_skip.go:106-126 | The loop with its moving cursor stores the repair of the first repairable candidate; others do not hold it up; with none repairable nothing changes |
| `MailStore.Mailbox.ProcessOne` | cmd/helper/v2_daemon.go:708-810 | One retrieved envelope is committed exactly when its checks pass, it names the current key, session and policy and its number is the next or already committed; otherwise the tables stay as they were |
| `TrustSearch.FindTrustPathSimple` | wot/resolver.go:126-171 | Ends on every store; succeeds exactly when the target is reachable over trusted claims; the depth is the least number of claims and the key is that of the last claim, about the target |
| `TrustSearch.Expand` | wot/resolver.go:142-167 | Looking at one party's claims ends in a shortest chain or keeps the breadth-first state |
| `TrustSearch.ChainBound` | wot/resolver.go:138-168 | In every state of the search a chain ends in a party found no later than its length, or is longer than everything still open |
| `TrustEnumeration.BuildAdjacencyMap` | wot/resolver.go:313-321 | For every party, the subjects it trusts in the order of the claims |
| `TrustEnumeration.EdgesAreClaims` | wot/resolver.go:313-321 | The edges are exactly the trusted claims |
| `TrustEnumeration.PathSearch.Visit` | wot/resolver.go:330-350 | Appends every way on from the node and restores the visited marks |
| `TrustEnumeration.BFSPaths` | wot/resolver.go:325-353 | Returns exactly the simple paths of at most maxDepth hops, each as the parties before the target, each once when no adjacency list repeats a party |
| `TrustEnumeration.ExactPaths` | wot/resolver.go:325-353 | A path is enumerated if and only if it is simple, leads to the target and is short enough |
| `TrustEnumeration.VisitsOnce` | wot/resolver.go:325-353 | No path is enumerated twice when adjacency lists have no repeats |
| `TrustEnumeration.SearchesAgree` | wot/resolver.go:126-171 | The enumeration is nonempty for a depth limit if and only if the breadth-first search finds a chain no longer than it |
| `Handshake.SessionAgreement` | v2/handshake.go:281-327 | Both ends completing the same two frames with their own scalars derive the same session |
| `Handshake.HandshakeCompletes` | v2/handshake.go:170-327 | An Init and the Accept made for it give both ends the same session, exactly if the offer has not expired and neither frame is over 64 KiB |
| `Handshake.CompletesExactly` | v2/handshake.go:193-327 | Either end completes if and only if the Init was signed by the pinned initiator and the Accept by the pinned responder for exactly that Init, with the policy's parameters before the expiry, both frames are at most 64 KiB and the exchange works out |
| `Handshake.SameInit` | v2/handshake.go:237-256 | Two ends that complete on the same Accept also saw the same Init between the same parties |
| `Handshake.InitExactly` | v2/handshake.go:170-192 | Exactly when an Init is made, and what it says |
| `Handshake.AcceptExactly` | v2/handshake.go:210-236 | A responder answers exactly an Init signed by the initiator, to itself and its current key, under its policy and before the expiry |
| `Handshake.SecretBindsTranscript` | v2/handshake.go:258-302 | Two sessions share a secret only if they come from the same two frames and the same shared point |
| `HandshakeCrypto.TranscriptInjective` | v2/handshake.go:258-279 | The length-prefixed transcript determines both frames, byte for byte |
| `HandshakeCrypto.InfoInjective` | v2/handshake.go:391-412 | In one session the context strings of different purpose, direction or sequence differ, byte for byte |
| `Handshake.KeysSeparate` | v2/handshake.go:391-412 | Two keys of a session are equal if and only if purpose, direction and sequence are |
| `Handshake.FinishedExactly` | v2/handshake.go:371-387 | An end accepts a Finished frame exactly when it is its peer's own one for this session |
| `Handshake.FinishedVerifies` | v2/handshake.go:354-387 | Each end's Finished frame is accepted by the other and refused by the end that made it |
| `Handshake.CompletedFinished` | v2/handshake.go:311-387 | The two ends that complete a handshake accept exactly each other's Finished frame, and each refuses its own |
| `Handshake.FinishedOfOther` | v2/handshake.go:371-387 | A Finished frame accepted from another session means the same identifier, transcript and secret |
| `Handshake.FinishedSigned` | v2/handshake.go:371-387 | No Finished frame is accepted that is not signed by the pinned peer, names the own end as sender or is for somebody else |
| `Handshake.SessionRecord.PrivateKey` | v2/handshake.go:389-412 | Only a private session whose both Finished frames were exchanged gives a key, one per purpose, direction and positive sequence |
| `Handshake.SessionRecord.MakeFinished` | v2/handshake.go:354-369 | Returns the end's Finished frame and records that it was sent, if it could be made |
| `Handshake.SessionRecord.VerifyFinished` | v2/handshake.go:371-387 | Accepts exactly the fitting frame, and records that |
| `Handshake.EndsShareKeys` | v2/handshake.go:391-412 | Both ends of a completed handshake derive equal keys if and only if purpose, direction and sequence are equal |
| `AttentionFeed.FeedComplete` | python/agent_comm_runtime/attention.py:272-287 | Whatever is written between pages, at every moment the reader has every item up to its cursor in its current revision |
| `AttentionFeed.ReadingEnds` | python/agent_comm_runtime/attention.py:272-287 | Paging without writes ends, and then the mirror is exactly the owner's feed |
| `AttentionFeed.PutFits` | python/agent_comm_runtime/attention.py:19-50 | Revisions of one owner stay unique and bounded by the owner's counter |
| `AttentionFeed.PutUpToDate` | python/agent_comm_runtime/attention.py:19-50 | A write never outdates what a reader has: the item takes a revision past every cursor |
| `AttentionFeed.ReadUpToDate` | python/agent_comm_runtime/attention.py:272-287 | Reading one page keeps the reader complete up to its new cursor |
| `AttentionFeed.ListingIs` | python/agent_comm_runtime/attention.py:281-284 | The listing has every pending item once, by increasing revision |
| `AttentionFeed.FinishedStays` | python/agent_comm_runtime/attention.py:66-70 | A finished turn and its notice take no later record |
| `AttentionFeed.TurnSurfaces` | python/agent_comm_runtime/attention.py:66-82 | In any history: a new turn, or a change of its status or conversation, takes the owner's next revision past every cursor, at the turn's own time; a repetition changes no item, and a finished turn takes nothing |
| `AttentionFeed.ItemHistory` | python/agent_comm_runtime/attention.py:41-50 | Over any history an item keeps the time of its creation, and is unchanged or has a later revision |
| `AttentionFeed.PutRefused` | python/agent_comm_runtime/attention.py:41-47 | A write is refused if and only if it would need a revision past 2^53 - 1 |
| `AttentionFeed.Feed.AttentionPut` | python/agent_comm_runtime/attention.py:19-50 | Equal content changes nothing; other content takes the next revision; exhaustion is refused without change |
| `AttentionFeed.Feed.RecordConversationEvent` | python/agent_comm_runtime/attention.py:52-82 | A turn and its notice are recorded together, once |
| `AttentionFeed.Feed.Sorted` | python/agent_comm_runtime/attention.py:281 | The pending items sorted by revision |
| `AttentionFeed.Feed.Attention` | python/agent_comm_runtime/attention.py:272-287 | One page and its cursor, refused exactly for a cursor or limit out of range |
| `RelayQueue.RetrievedPrefix` | mq/server.go:121-169 | A batch is the longest prefix of the pending messages, in stored order, that the limits of 4 MiB and 500 rows allow; it is empty only if nothing is pending |
| `RelayQueue.DrainEmpties` | mq/server.go:121-192 | Repeating retrieve and acknowledge, at any clock values that do not go back, empties the mailbox in at most one round per pending message |
| `RelayQueue.DrainsAnyStore` | mq/server.go:73-192 | The same for every store, whatever requests it has served since it was created |
| `RelayQueue.DrainsInUse` | mq/server.go:73-209 | Whatever is stored, acknowledged and cleaned up between the rounds: after as many rounds as messages were pending at the start, none of those is pending any more |
| `RelayQueue.RoundServed` | mq/server.go:171-192 | A round that retrieves anything is an acknowledgement the store serves, never over its limit of 1000 identifiers; one that retrieves nothing changes nothing |
| `RelayQueue.AcknowledgedHidden` | mq/server.go:130-133 | An acknowledged message is never retrieved |
| `RelayQueue.AcknowledgedStays` | mq/server.go:97-118 | Storing an acknowledged message again does not bring it back; a request ends that state if and only if it is a cleanup that removes the expired row |
| `RelayQueue.AcknowledgedUntilRemoved` | mq/server.go:97-209 | Over whole histories an acknowledged message stays acknowledged and is retrieved by nobody as long as no cleanup comes after its expiry; the first that does removes it |
| `RelayQueue.ReturnsAfterCleanup` | mq/server.go:194-209 | The concrete case: after the cleanup the same envelope can be stored and retrieved anew |
| `RelayQueue.StoredGenuine` | mq/server.go:73-98 | Whatever requests a store has served, each of its rows keeps a verified envelope that an authorized request stored for its recipient, and expires within a week of that |
| `RelayQueue.ReadByRecipient` | mq/server.go:171-192 | A message counts as read only because its own recipient acknowledged it |
| `RelayQueue.RetrievedOnly` | mq/server.go:129-133 | Exactly the recipient's unread, unexpired rows are pending, and only such rows are handed out |
| `RelayQueue.MessageStore.StoreEnvelope` | mq/server.go:73-119 | Refused, kept, kept again without change, or a conflict, exactly as the checks and the stored row say; the rows change as in the histories above |
| `RelayQueue.MessageStore.Select` | mq/server.go:129-133 | The first 500 unread, unexpired rows in stored order |
| `RelayQueue.MessageStore.Retrieve` | mq/server.go:121-169 | The loop with its running byte count builds the specified batch |
| `RelayQueue.MessageStore.Ack` | mq/server.go:171-192 | Exactly the named unread rows of the recipient are marked |
| `RelayQueue.MessageStore.Cleanup` | mq/server.go:194-209 | Exactly the rows whose time is over are removed |
| `RelayQueue.MessageStore.HandleRetrieve` | mq/server.go:331-359 | The second size cut never drops anything of a batch of stored messages |
| `DurableListener.ShutdownSafety` | agent/durable_handler.go:38-101 | In every interleaving, once the done channel is closed no callback runs and none ever starts |
| `DurableListener.AckedSucceeded` | agent/durable_handler.go:149-171 | In every interleaving each acknowledgement directly follows the success of its own callback on that very envelope, and each reply follows the success of its stream and is sent once |
| `DurableListener.CancelStops` | agent/durable_handler.go:42-51 | From the cancellation on no further callback starts, in every interleaving: what still runs had passed the admission check before; and the poller begins no further pass |
| `DurableListener.OnlyDecrypted` | agent/durable_handler.go:68-79 | In every interleaving callbacks, acknowledgements and replies are about envelopes that decrypted |
| `DurableListener.BatchInOrder` | agent/durable_handler.go:149-161 | The poller takes its batch from the front, and every envelope that decrypts goes to the callback |
| `DurableListener.ShutdownEnds` | agent/durable_handler.go:85-99 | After the cancellation, however the goroutines are scheduled, they take at most a bounded number of steps, and where none can take another the done channel is closed |
| `DurableListener.StepRanks` | agent/durable_handler.go:42-99 | Every step of a goroutine lowers the rank that bounds the remaining steps |
| `DurableListener.NoDeadlock` | agent/durable_handler.go:85-99 | After the cancellation some goroutine can always move on until the done channel is closed |
| `DurableListener.StepSafe` | agent/durable_handler.go:38-101 | Every step keeps mutual exclusion, the wait-group count and the order of stopping, waiting and closing |
| `DurableListener.ProcessEnvelopes` | agent/durable_handler.go:149-171 | One pass tries to acknowledge the envelopes at exactly those positions, before the cancellation, where the envelope decrypts and the callback accepts it, in order and nothing else; acknowledged are those of them whose acknowledgement is stored |
| `ScopePolicy.AllowExactly` | python/agent_comm_runtime/policy.py:172-243 | Allow holds exactly when the scope is valid and live, uses remain, the action is well formed and every bound holds; free text is never allowed |
| `ScopePolicy.DecidedExactly` | python/agent_comm_runtime/policy.py:172-243 | Each of the four decisions exactly: allow, ask when only a bound fails, clarify when only a required field is missing, deny in the remaining cases |
| `ScopePolicy.ReasonExactly` | python/agent_comm_runtime/policy.py:172-196 | Which hard limit or form check is reported, exactly |
| `ScopePolicy.ExceededExactly` | python/agent_comm_runtime/policy.py:197-236 | A bound is reported as exceeded if and only if the action's own fields are outside it |
| `ScopePolicy.WideningNeverLowers` | python/agent_comm_runtime/policy.py:172-243 | For every well-formed action, widening any boundary never lowers the decision in the order deny, ask, allow |
| `ScopePolicy.NormalizationIdempotent` | python/agent_comm_runtime/policy.py:107-133 | A normalized scope validates to itself, and judges every action as the original does |
| `ScopePolicy.SortedSetIs` | python/agent_comm_runtime/policy.py:70-76 | Normalized identifier lists are sorted, distinct and have the same members |
| `ScopePolicy.Compare` | python/agent_comm_runtime/policy.py:197-236 | Step by step the loop collects exactly the exceeded bounds |
| `ScopePolicy.Evaluate` | python/agent_comm_runtime/policy.py:172-243 | Hard limits first, then the form, then the bounds, as specified |

## Left out

- Reason texts, audit records, size and nesting limits of packets (collaboration_v2.py:60-110), worker policies and owner checks: they decide nothing that is proved here.
- Preparing and approving an invitation or a join is one step with sending it (`CollabOutbox.Open`); the saved invitation event of a join that is then refused is not kept, and the recorded invitation itself is the packet that the join names.
- Phase and waiting reason are part of the state but not of the order-independence claims: they depend on past gaps.
- Liveness of agreements: a reserved number whose sending is refused for good stays a gap, and the source does not fill it.
- CollabArrivals.ReceiveOrder: one clock value for all arrivals, fixed reviews, and at most one event per number and identity, the histories of recovery responses included; with two events at one number the first to arrive wins.
- CollabBudget.BudgetConservation: the scope and revision of the task stay fixed during a run; charges of other features to the same task are counted apart.
- Owner review content, translations, question texts, attention projections of the single record kinds and the approval records behind confirmations.
- Compliance disclosure and the two sealing modes: an envelope's body is symbolic, so that a repair control and a business message under one identifier cannot be confused.
- The older protocol of the helper but for the inbox rows that it stores (`MailOps.ReceivePlain`): its own outbox, sealing and delivery, and the owner's marking of inbox rows as consumed, which no check reads.
- MailStore.Mailbox.HasLaterReceipt: persisted envelopes and receipts are not verified again; a row with a receipt counts as admitted.
- MailStore.Mailbox.ProcessOne: the checks of signature, encryption, receipt and body are one input of the step.
- Unfinished handshakes, simultaneous initiation and handshake expiry at the helper: a session is installed when it is complete. A responder that handles one Init twice is excluded by the fresh identifiers.
- Wrap-around of the 64-bit send counter; numbers are unbounded up to the limit that the repair step checks.
- Fetching claims from the network during `FindTrustPath`, and signature checks of claims; claims are values, and a path is a value sequence.
- Storage limits, indexes and connection handling of SQLite; rows of the relay are in the order of their storage times, as on a clock that does not go back.
- AttentionFeed.FeedComplete: an item's fields other than revision and times are one value, and the refresh before a page is any sequence of writes.
- DurableListener.ShutdownEnds: assumes that application callbacks return; a stream that arrives meanwhile adds at most six steps (`DurableListener.StreamCosts`).
- ScopePolicy.NormalizationIdempotent: the textual form of identifiers and RFC 3339 times is not modelled; identifiers are ordered numbers and times are instants.
- `dr/ratchet.go`, registry and DHT code, HTTP and stream transport, generated code, command-line tools and connectors.
