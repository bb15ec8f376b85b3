/** Shutdown of the durable listener: stream callbacks, the poller and the closing
    goroutine interleave step by step under one admission lock. */
module DurableListener {
  import opened Basics

  type Thread = nat
  type MessageId = nat

  const POLLER: Thread := 0

  datatype Envelope = Envelope(id: MessageId, content: nat, decrypts: bool)

  /** Where a caller of the guarded handler is: waiting for the lock, holding it before or
      after the check, counted in the wait group, inside the application callback, back
      from it, or out again. */
  datatype CallPc = WantLock | Holding | Passed | Admitted | Running | Returned | Left

  datatype Call = Call(pc: CallPc, envelope: Envelope, ok: bool)

  datatype PollPc = Top | Working(rest: seq<Envelope>) | InCall(envelope: Envelope, rest: seq<Envelope>)
                  | Acking(envelope: Envelope, rest: seq<Envelope>) | Exited

  datatype ClosePc = AwaitCancel | WantsLock | HoldsLock | HasStopped | AwaitPoll | AwaitActive | Closed

  datatype Holder = Nobody | Caller(thread: Thread) | Closer

  /** What became visible outside: a callback returned success, the poller acknowledged a
      message, a stream got its reply. */
  datatype Event = Succeeded(thread: Thread, envelope: Envelope) | Acked(envelope: Envelope)
                 | Replied(thread: Thread, envelope: Envelope)

  datatype State = State(cancelled: bool, stopped: bool, lock: Holder, active: int, calls: map<Thread, Call>,
                         poll: PollPc, close: ClosePc, log: seq<Event>, replied: set<Thread>)

  const INITIAL := State(false, false, Nobody, 0, map[], Top, AwaitCancel, [], {})

  /** A stream whose envelope does not decrypt is reset without a step.
      `PollTimeout` ends a polling pass whose own time limit is over; while the pass waits
      for a callback or an acknowledgement the limit shows only in that acknowledgement. */
  datatype Step =
    | Cancel
    | Stream(thread: Thread, envelope: Envelope)
    | Acquire(thread: Thread) | Check(thread: Thread) | Add(thread: Thread) | Release(thread: Thread)
    | Return(thread: Thread, ok: bool) | Done(thread: Thread) | Reply(thread: Thread)
    | PollStart(envelopes: seq<Envelope>) | PollExit | PollTimeout | PollNext | PollReturn | PollAck(stored: bool)
    | CloseWake | CloseAcquire | CloseStop | CloseRelease | ClosePolled | CloseDone

  predicate At(s: State, t: Thread, pc: CallPc) {
    t in s.calls && s.calls[t].pc == pc
  }

  function Move(s: State, t: Thread, pc: CallPc): State
    requires t in s.calls
  {
    s.(calls := s.calls[t := s.calls[t].(pc := pc)])
  }

  predicate Enabled(s: State, step: Step) {
    match step
    case Cancel => !s.cancelled
    case Stream(t, e) => t != POLLER && t !in s.calls && e.decrypts
    case Acquire(t) => At(s, t, WantLock) && s.lock.Nobody?
    case Check(t) => At(s, t, Holding)
    case Add(t) => At(s, t, Passed)
    case Release(t) => At(s, t, Admitted)
    case Return(t, _) => At(s, t, Running)
    case Done(t) => At(s, t, Returned)
    case Reply(t) => t != POLLER && At(s, t, Left) && s.calls[t].ok && t !in s.replied
    case PollStart(_) => s.poll.Top? && !s.cancelled
    case PollExit => s.poll.Top? && s.cancelled
    case PollTimeout => s.poll.Working?
    case PollNext => s.poll.Working?
    case PollReturn => s.poll.InCall? && At(s, POLLER, Left)
    case PollAck(_) => s.poll.Acking?
    case CloseWake => s.close.AwaitCancel? && s.cancelled
    case CloseAcquire => s.close.WantsLock? && s.lock.Nobody?
    case CloseStop => s.close.HoldsLock?
    case CloseRelease => s.close.HasStopped?
    case ClosePolled => s.close.AwaitPoll? && s.poll.Exited?
    case CloseDone => s.close.AwaitActive? && s.active == 0
  }

  /** One atomic step of one goroutine. */
  function Act(s: State, step: Step): State
    requires Enabled(s, step)
  {
    match step
    case Cancel => s.(cancelled := true)
    case Stream(t, e) => s.(calls := s.calls[t := Call(WantLock, e, false)])
    case Acquire(t) => Move(s, t, Holding).(lock := Caller(t))
    case Check(t) => if s.stopped || s.cancelled then Move(s, t, Left).(lock := Nobody) else Move(s, t, Passed)
    case Add(t) => Move(s, t, Admitted).(active := s.active + 1)
    case Release(t) => Move(s, t, Running).(lock := Nobody)
    case Return(t, ok) =>
      s.(calls := s.calls[t := s.calls[t].(pc := Returned, ok := ok)],
         log := if ok then s.log + [Succeeded(t, s.calls[t].envelope)] else s.log)
    case Done(t) => Move(s, t, Left).(active := s.active - 1)
    case Reply(t) => s.(replied := s.replied + {t}, log := s.log + [Replied(t, s.calls[t].envelope)])
    case PollStart(envelopes) => s.(poll := Working(envelopes))
    case PollExit => s.(poll := Exited)
    case PollTimeout => s.(poll := Top)
    case PollNext =>
      if s.poll.rest == [] || s.cancelled then s.(poll := Top)
      else
        var e, rest := s.poll.rest[0], s.poll.rest[1..];
        if !e.decrypts then s.(poll := Working(rest))
        else s.(poll := InCall(e, rest), calls := s.calls[POLLER := Call(WantLock, e, false)])
    case PollReturn =>
      s.(poll := if s.calls[POLLER].ok then Acking(s.poll.envelope, s.poll.rest) else Working(s.poll.rest))
    case PollAck(stored) =>
      s.(poll := Working(s.poll.rest), log := if stored then s.log + [Acked(s.poll.envelope)] else s.log)
    case CloseWake => s.(close := WantsLock)
    case CloseAcquire => s.(close := HoldsLock, lock := Closer)
    case CloseStop => s.(close := HasStopped, stopped := true)
    case CloseRelease => s.(close := AwaitPoll, lock := Nobody)
    case ClosePolled => s.(close := AwaitActive)
    case CloseDone => s.(close := Closed)
  }

  function Run(s: State, steps: seq<Step>): State
    decreases |steps|
  {
    if steps == [] then s
    else
      var before := Run(s, steps[..|steps|-1]);
      if Enabled(before, steps[|steps|-1]) then Act(before, steps[|steps|-1]) else before
  }

  // ---- The invariant ----

  predicate Locking(pc: CallPc) {
    pc.Holding? || pc.Passed? || pc.Admitted?
  }

  predicate Counted(pc: CallPc) {
    pc.Admitted? || pc.Running? || pc.Returned?
  }

  function CountedThreads(s: State): set<Thread> {
    set t | t in s.calls && Counted(s.calls[t].pc)
  }

  predicate CallFits(s: State, t: Thread)
    requires t in s.calls
  {
    var c := s.calls[t];
    && (Locking(c.pc) <==> s.lock == Caller(t))
    && (c.pc.Passed? || c.pc.Admitted? ==> !s.stopped)
    && (c.ok ==> (c.pc.Returned? || c.pc.Left?) && Succeeded(t, c.envelope) in s.log)
  }

  /** The poller's last success or acknowledgement. */
  function LastPolled(log: seq<Event>): Option<Event>
    decreases |log|
  {
    if log == [] then None
    else
      var last := log[|log|-1];
      if last.Acked? || (last.Succeeded? && last.thread == POLLER) then Some(last) else LastPolled(log[..|log|-1])
  }

  /** An acknowledgement directly follows, among the poller's events, the success of its
      own callback; a reply follows the success of its stream's callback and is its only one. */
  predicate EventFits(log: seq<Event>, i: nat)
    requires i < |log|
  {
    match log[i]
    case Acked(e) => LastPolled(log[..i]) == Some(Succeeded(POLLER, e))
    case Replied(t, e) =>
      Succeeded(t, e) in log[..i] && forall j :: 0 <= j < i ==> log[j] != Replied(t, e)
    case Succeeded(_, _) => true
  }

  ghost predicate LogFits(s: State) {
    && (forall i :: 0 <= i < |s.log| ==> EventFits(s.log, i))
    && (forall i :: 0 <= i < |s.log| && s.log[i].Replied? ==> s.log[i].thread in s.replied)
  }

  /** The poller's call is open exactly while it is in one. */
  predicate PollFits(s: State) {
    && (s.poll.InCall? ==> POLLER in s.calls && s.calls[POLLER].envelope == s.poll.envelope)
    && (!s.poll.InCall? ==> POLLER in s.calls ==> s.calls[POLLER].pc.Left?)
    && (s.poll.InCall? && s.calls[POLLER].ok ==> LastPolled(s.log) == Some(Succeeded(POLLER, s.poll.envelope)))
    && (s.poll.Acking? ==> LastPolled(s.log) == Some(Succeeded(POLLER, s.poll.envelope)))
  }

  predicate CloseFits(s: State) {
    && (s.lock.Closer? <==> s.close.HoldsLock? || s.close.HasStopped?)
    && (s.stopped <==> s.close.HasStopped? || s.close.AwaitPoll? || s.close.AwaitActive? || s.close.Closed?)
    && (!s.close.AwaitCancel? ==> s.cancelled)
    && (s.close.AwaitActive? || s.close.Closed? ==> s.poll.Exited?)
    && (s.close.Closed? ==> s.active == 0)
  }

  ghost predicate Safe(s: State) {
    && (forall t :: t in s.calls ==> CallFits(s, t))
    && (s.lock.Caller? ==> s.lock.thread in s.calls && Locking(s.calls[s.lock.thread].pc))
    && s.active == |CountedThreads(s)|
    && PollFits(s) && CloseFits(s) && LogFits(s)
  }

  lemma CountMoves(s: State, n: State, t: Thread, change: int)
    requires t in n.calls && (forall u :: u != t ==> (u in n.calls <==> u in s.calls))
    requires forall u :: u in s.calls && u != t ==> n.calls[u].pc == s.calls[u].pc
    requires change == (if Counted(n.calls[t].pc) then 1 else 0) - (if t in s.calls && Counted(s.calls[t].pc) then 1 else 0)
    ensures |CountedThreads(n)| == |CountedThreads(s)| + change
  {
    var a, b := CountedThreads(s), CountedThreads(n);
    assert forall u :: u != t ==> (u in a <==> u in b);
    if change == 0 {
      assert b == a;
    } else if change == 1 {
      assert b == a + {t};
    } else {
      assert a == b + {t};
    }
  }

  /** A step of the caller `t` of the guarded handler. */
  predicate ByCaller(step: Step, t: Thread) {
    match step
    case Stream(u, _) => u == t
    case Acquire(u) => u == t
    case Check(u) => u == t
    case Add(u) => u == t
    case Release(u) => u == t
    case Return(u, _) => u == t
    case Done(u) => u == t
    case _ => false
  }

  /** A new event that fits keeps the log; an event that is not the poller's keeps its last. */
  lemma LogGrows(s: State, n: State, event: Event)
    requires LogFits(s) && n.log == s.log + [event] && EventFits(n.log, |s.log|) && s.replied <= n.replied
    requires event.Replied? ==> event.thread in n.replied
    ensures LogFits(n)
    ensures LastPolled(n.log) ==
      if event.Acked? || (event.Succeeded? && event.thread == POLLER) then Some(event) else LastPolled(s.log)
  {
    forall i | 0 <= i < |n.log| ensures EventFits(n.log, i) {
      if i < |s.log| {
        assert n.log[..i] == s.log[..i] && EventFits(s.log, i);
      }
    }
    assert n.log[..|s.log|] == s.log;
  }

  lemma CallSteps(s: State, step: Step, t: Thread)
    requires Safe(s) && Enabled(s, step)
    requires ByCaller(step, t) && !step.Return?
    ensures Safe(Act(s, step))
  {
    var n := Act(s, step);
    CountMoves(s, n, t, n.active - s.active);
    forall u | u in n.calls ensures CallFits(n, u) {
      assert u in s.calls ==> CallFits(s, u);
    }
  }

  lemma ReturnStep(s: State, t: Thread, ok: bool)
    requires Safe(s) && Enabled(s, Return(t, ok))
    ensures Safe(Act(s, Return(t, ok)))
  {
    var n := Act(s, Return(t, ok));
    CountMoves(s, n, t, 0);
    if ok {
      LogGrows(s, n, Succeeded(t, s.calls[t].envelope));
    }
    forall u | u in n.calls ensures CallFits(n, u) {
      assert CallFits(s, u);
    }
  }

  lemma SameCalls(s: State, n: State)
    requires Safe(s) && n.calls == s.calls && n.active == s.active && s.log <= n.log
    requires n.lock == s.lock && (n.stopped ==> s.stopped)
    ensures forall t :: t in n.calls ==> CallFits(n, t)
    ensures n.active == |CountedThreads(n)|
  {
    assert CountedThreads(n) == CountedThreads(s);
    forall t | t in n.calls ensures CallFits(n, t) {
      assert CallFits(s, t);
    }
  }

  lemma CloserSteps(s: State, step: Step)
    requires Safe(s) && Enabled(s, step)
    requires step.CloseWake? || step.CloseAcquire? || step.CloseStop? || step.CloseRelease? || step.ClosePolled? || step.CloseDone?
    ensures Safe(Act(s, step))
  {
    var n := Act(s, step);
    assert CountedThreads(n) == CountedThreads(s);
    forall t | t in n.calls ensures CallFits(n, t) {
      assert CallFits(s, t);
    }
  }

  lemma PollSteps(s: State, step: Step)
    requires Safe(s) && Enabled(s, step)
    requires step.PollStart? || step.PollExit? || step.PollTimeout? || step.PollNext? || step.PollReturn? || step.PollAck?
    ensures Safe(Act(s, step))
  {
    var n := Act(s, step);
    if step.PollAck? && step.stored {
      assert n.log[..|s.log|] == s.log;
      LogGrows(s, n, Acked(s.poll.envelope));
    }
    if n.calls == s.calls {
      SameCalls(s, n);
      assert POLLER in s.calls ==> CallFits(s, POLLER);
    } else {
      CountMoves(s, n, POLLER, 0);
      forall u | u in n.calls ensures CallFits(n, u) {
        assert u in s.calls ==> CallFits(s, u);
      }
    }
  }

  /** Every step of every goroutine keeps the invariant. */
  lemma StepSafe(s: State, step: Step)
    requires Safe(s) && Enabled(s, step)
    ensures Safe(Act(s, step))
  {
    match step
    case Cancel => SameCalls(s, Act(s, step));
    case Stream(t, _) => CallSteps(s, step, t);
    case Acquire(t) => CallSteps(s, step, t);
    case Check(t) => CallSteps(s, step, t);
    case Add(t) => CallSteps(s, step, t);
    case Release(t) => CallSteps(s, step, t);
    case Return(t, ok) => ReturnStep(s, t, ok);
    case Done(t) => CallSteps(s, step, t);
    case Reply(t) =>
      SameCalls(s, Act(s, step));
      assert CallFits(s, t);
      var n := Act(s, step);
      assert n.log[..|s.log|] == s.log;
      LogGrows(s, n, Replied(t, s.calls[t].envelope));
    case PollStart(_) => PollSteps(s, step);
    case PollExit => PollSteps(s, step);
    case PollTimeout => PollSteps(s, step);
    case PollNext => PollSteps(s, step);
    case PollReturn => PollSteps(s, step);
    case PollAck(_) => PollSteps(s, step);
    case _ => CloserSteps(s, step);
  }

  lemma {:induction false} RunSafe(s: State, steps: seq<Step>)
    requires Safe(s)
    ensures Safe(Run(s, steps)) && (s.close.Closed? ==> Run(s, steps).close.Closed?)
    decreases |steps|
  {
    if steps == [] {
    } else {
      var before := Run(s, steps[..|steps|-1]);
      RunSafe(s, steps[..|steps|-1]);
      if Enabled(before, steps[|steps|-1]) {
        StepSafe(before, steps[|steps|-1]);
      }
    }
  }

  lemma {:induction false} RunSplits(s: State, xs: seq<Step>, ys: seq<Step>)
    ensures Run(s, xs + ys) == Run(Run(s, xs), ys)
    decreases |ys|
  {
    if ys == [] {
      assert xs + ys == xs;
    } else {
      assert (xs + ys)[..|xs + ys|-1] == xs + ys[..|ys|-1];
      RunSplits(s, xs, ys[..|ys|-1]);
    }
  }

  /** No callback is running, and none is about to. */
  predicate Quiet(s: State) {
    forall t :: t in s.calls ==> !Counted(s.calls[t].pc) && !s.calls[t].pc.Passed?
  }

  lemma ClosedQuiet(s: State)
    requires Safe(s) && s.close.Closed?
    ensures Quiet(s)
  {
    forall t | t in s.calls ensures !Counted(s.calls[t].pc) && !s.calls[t].pc.Passed? {
      assert CallFits(s, t);
      assert t in CountedThreads(s) <==> Counted(s.calls[t].pc);
    }
  }

  /** Shutdown safety: in every interleaving, once the done channel is closed no application
      callback is running, and whatever happens afterwards none ever starts. */
  lemma ShutdownSafety(steps: seq<Step>, more: seq<Step>)
    requires Run(INITIAL, steps).close.Closed?
    ensures Quiet(Run(INITIAL, steps + more))
  {
    RunSafe(INITIAL, steps);
    RunSafe(Run(INITIAL, steps), more);
    RunSplits(INITIAL, steps, more);
    ClosedQuiet(Run(INITIAL, steps + more));
  }

  /** Each acknowledgement has its own callback that returned success on the very envelope:
      the success is the poller's event just before it, so none serves two. Each reply to a
      stream follows the success of that stream's callback on its envelope, and is sent once. */
  lemma AckedSucceeded(steps: seq<Step>, i: nat)
    requires i < |Run(INITIAL, steps).log|
    ensures EventFits(Run(INITIAL, steps).log, i)
    ensures var log := Run(INITIAL, steps).log;
      log[i].Acked? ==> exists j :: 0 <= j < i && log[j] == Succeeded(POLLER, log[i].envelope)
                                    && forall k :: j < k < i ==> !log[k].Acked?
  {
    RunSafe(INITIAL, steps);
    var log := Run(INITIAL, steps).log;
    assert EventFits(log, i);
    if log[i].Acked? {
      var j := LastPolledAt(log[..i]);
      assert log[j] == Succeeded(POLLER, log[i].envelope);
      assert forall k :: j < k < i ==> log[..i][k] == log[k];
    }
  }

  lemma {:induction false} LastPolledAt(log: seq<Event>) returns (j: nat)
    requires LastPolled(log).Some?
    ensures j < |log| && LastPolled(log) == Some(log[j]) && forall k :: j < k < |log| ==> !log[k].Acked?
    decreases |log|
  {
    var last := log[|log|-1];
    if last.Acked? || (last.Succeeded? && last.thread == POLLER) {
      j := |log| - 1;
    } else {
      j := LastPolledAt(log[..|log|-1]);
    }
  }

  // ---- What callbacks see, and when none starts any more ----

  /** The poller takes its batch from the front, one envelope after the other, as long as it
      is not cancelled; each one that decrypts goes to the callback. */
  lemma BatchInOrder(s: State)
    requires s.poll.Working?
    ensures var n := Act(s, PollNext);
      if s.cancelled || s.poll.rest == [] then n == s.(poll := Top)
      else
        && (if s.poll.rest[0].decrypts then
              n.poll == InCall(s.poll.rest[0], s.poll.rest[1..]) && At(n, POLLER, WantLock)
              && n.calls[POLLER].envelope == s.poll.rest[0]
            else n == s.(poll := Working(s.poll.rest[1..])))
  {
  }

  /** Every callback, success, acknowledgement and reply is about an envelope that decrypts. */
  ghost predicate Decrypted(s: State) {
    && (forall t :: t in s.calls ==> s.calls[t].envelope.decrypts)
    && (forall i :: 0 <= i < |s.log| ==> s.log[i].envelope.decrypts)
    && (s.poll.InCall? || s.poll.Acking? ==> s.poll.envelope.decrypts)
  }

  lemma {:induction false} OnlyDecrypted(steps: seq<Step>)
    ensures Decrypted(Run(INITIAL, steps))
    decreases |steps|
  {
    if steps == [] {
    } else {
      var before, step := Run(INITIAL, steps[..|steps|-1]), steps[|steps|-1];
      OnlyDecrypted(steps[..|steps|-1]);
      if Enabled(before, step) {
        StepDecrypted(before, step);
      }
    }
  }

  lemma StepDecrypted(s: State, step: Step)
    requires Decrypted(s) && Enabled(s, step)
    ensures Decrypted(Act(s, step))
  {
    var n := Act(s, step);
    forall i | 0 <= i < |n.log| ensures n.log[i].envelope.decrypts {
      if i < |s.log| {
        assert n.log[i] == s.log[i];
      }
    }
  }

  /** The caller is past the admission check, and not yet back from its callback. */
  predicate Underway(pc: CallPc) {
    pc.Passed? || pc.Admitted? || pc.Running?
  }

  /** Whoever is underway in `n` was so in `s`, on the same envelope, and the poller has
      begun no pass since. */
  ghost predicate NoneStarted(s: State, n: State) {
    && n.cancelled
    && (forall t :: t in n.calls && Underway(n.calls[t].pc) ==>
          t in s.calls && Underway(s.calls[t].pc) && n.calls[t].envelope == s.calls[t].envelope)
    && (s.poll.Top? || s.poll.Exited? ==> n.poll.Top? || n.poll.Exited?)
  }

  /** From the cancellation on no further callback starts, in every interleaving: what still
      runs had passed the check before, and the poller begins no further pass. */
  lemma {:induction false} CancelStops(s: State, more: seq<Step>)
    requires s.cancelled
    ensures NoneStarted(s, Run(s, more))
    decreases |more|
  {
    if more == [] {
    } else {
      var before := Run(s, more[..|more|-1]);
      CancelStops(s, more[..|more|-1]);
      if Enabled(before, more[|more|-1]) {
        StepStarts(before, more[|more|-1]);
      }
    }
  }

  lemma StepStarts(s: State, step: Step)
    requires s.cancelled && Enabled(s, step)
    ensures NoneStarted(s, Act(s, step))
  {
  }

  /** A step of a goroutine that already runs, rather than a new event from outside. */
  predicate Internal(step: Step) {
    !step.Cancel? && !step.Stream? && !step.PollStart? && !step.Reply?
  }

  lemma PollerMoves(s: State) returns (step: Step)
    requires Safe(s) && s.cancelled && s.lock.Nobody? && !s.poll.Exited?
    ensures Internal(step) && Enabled(s, step)
  {
    match s.poll
    case Top => step := PollExit;
    case Working(_) => step := PollNext;
    case Acking(_, _) => step := PollAck(true);
    case InCall(_, _) =>
      assert CallFits(s, POLLER);
      match s.calls[POLLER].pc {
        case WantLock => step := Acquire(POLLER);
        case Running => step := Return(POLLER, true);
        case Returned => step := Done(POLLER);
        case Left => step := PollReturn;
      }
  }

  /** The shutdown cannot get stuck: after the cancellation some goroutine can always move
      on until the done channel is closed, provided that callbacks return. */
  lemma NoDeadlock(s: State) returns (step: Step)
    requires Safe(s) && s.cancelled && !s.close.Closed?
    ensures Internal(step) && Enabled(s, step)
  {
    match s.lock
    case Caller(t) =>
      match s.calls[t].pc {
        case Holding => step := Check(t);
        case Passed => step := Add(t);
        case Admitted => step := Release(t);
      }
    case Closer => step := if s.close.HoldsLock? then CloseStop else CloseRelease;
    case Nobody =>
      match s.close
      case AwaitCancel => step := CloseWake;
      case WantsLock => step := CloseAcquire;
      case AwaitPoll =>
        if s.poll.Exited? {
          step := ClosePolled;
        } else {
          step := PollerMoves(s);
        }
      case AwaitActive =>
        if s.active == 0 {
          step := CloseDone;
        } else {
          step := CallbackMoves(s);
        }
  }

  lemma CallbackMoves(s: State) returns (step: Step)
    requires Safe(s) && s.lock.Nobody? && s.active != 0
    ensures Internal(step) && Enabled(s, step)
  {
    assert CountedThreads(s) != {};
    var t :| t in CountedThreads(s);
    assert CallFits(s, t);
    step := if s.calls[t].pc.Running? then Return(t, true) else Done(t);
  }

  // ---- The shutdown ends ----

  function CallWeight(pc: CallPc): nat {
    match pc
    case WantLock => 6
    case Holding => 5
    case Passed => 4
    case Admitted => 3
    case Running => 2
    case Returned => 1
    case Left => 0
  }

  function PollWeight(pc: PollPc): nat {
    match pc
    case InCall(_, _) => 4
    case Acking(_, _) => 3
    case Working(_) => 2
    case Top => 1
    case Exited => 0
  }

  function CloseWeight(pc: ClosePc): nat {
    match pc
    case AwaitCancel => 6
    case WantsLock => 5
    case HoldsLock => 4
    case HasStopped => 3
    case AwaitPoll => 2
    case AwaitActive => 1
    case Closed => 0
  }

  /** The callers with at least `k` steps to go. */
  function AtLeast(s: State, k: nat): set<Thread> {
    set t | t in s.calls && CallWeight(s.calls[t].pc) >= k
  }

  function CallRank(s: State): nat {
    |AtLeast(s, 1)| + |AtLeast(s, 2)| + |AtLeast(s, 3)| + |AtLeast(s, 4)| + |AtLeast(s, 5)| + |AtLeast(s, 6)|
  }

  /** How many steps of the goroutines are left, once the context is cancelled. */
  function Rank(s: State): nat {
    CallRank(s) + PollWeight(s.poll) + CloseWeight(s.close)
  }

  lemma {:induction false} SubsetSmaller(a: set<Thread>, b: set<Thread>)
    requires a <= b
    ensures |a| <= |b| && (a != b ==> |a| < |b|)
  {
    if a == b {
    } else {
      var t :| t in b && t !in a;
      SubsetSmaller(a, b - {t});
    }
  }

  /** One caller that moves on has a step less to go. */
  lemma CallerRanks(s: State, n: State, t: Thread)
    requires t in s.calls && n.calls.Keys == s.calls.Keys
    requires forall u :: u in s.calls && u != t ==> n.calls[u].pc == s.calls[u].pc
    requires CallWeight(n.calls[t].pc) < CallWeight(s.calls[t].pc)
    ensures CallRank(n) < CallRank(s)
  {
    forall k: nat ensures |AtLeast(n, k)| <= |AtLeast(s, k)| {
      SubsetSmaller(AtLeast(n, k), AtLeast(s, k));
    }
    var w := CallWeight(s.calls[t].pc);
    assert t in AtLeast(s, w) && t !in AtLeast(n, w);
    SubsetSmaller(AtLeast(n, w), AtLeast(s, w));
  }

  lemma SameRank(s: State, n: State)
    requires n.calls == s.calls
    ensures CallRank(n) == CallRank(s)
  {
    assert forall k: nat :: AtLeast(n, k) == AtLeast(s, k);
  }

  /** After the cancellation every step of a goroutine lowers the rank. */
  lemma StepRanks(s: State, step: Step)
    requires Safe(s) && s.cancelled && Enabled(s, step) && Internal(step)
    ensures Rank(Act(s, step)) < Rank(s) && Act(s, step).cancelled
  {
    match step
    case Acquire(t) => CallerStepRanks(s, step, t);
    case Check(t) => CallerStepRanks(s, step, t);
    case Add(t) => CallerStepRanks(s, step, t);
    case Release(t) => CallerStepRanks(s, step, t);
    case Return(t, _) => CallerStepRanks(s, step, t);
    case Done(t) => CallerStepRanks(s, step, t);
    case _ => OtherStepRanks(s, step);
  }

  lemma CallerStepRanks(s: State, step: Step, t: Thread)
    requires s.cancelled && Enabled(s, step) && ByCaller(step, t) && !step.Stream?
    ensures Rank(Act(s, step)) < Rank(s) && Act(s, step).cancelled
  {
    CallerRanks(s, Act(s, step), t);
  }

  lemma OtherStepRanks(s: State, step: Step)
    requires s.cancelled && Enabled(s, step) && Internal(step) && !step.Acquire? && !step.Check? && !step.Add?
    requires !step.Release? && !step.Return? && !step.Done?
    ensures Rank(Act(s, step)) < Rank(s) && Act(s, step).cancelled
  {
    SameRank(s, Act(s, step));
  }

  /** `steps` can be taken one after the other, all by goroutines that already run. */
  predicate Schedule(s: State, steps: seq<Step>)
    decreases |steps|
  {
    steps == [] || (Internal(steps[0]) && Enabled(s, steps[0]) && Schedule(Act(s, steps[0]), steps[1..]))
  }

  function Final(s: State, steps: seq<Step>): State
    requires Schedule(s, steps)
    decreases |steps|
  {
    if steps == [] then s else Final(Act(s, steps[0]), steps[1..])
  }

  /** The shutdown ends: after the cancellation, however the goroutines are scheduled, they
      take at most `Rank` steps, and where none can take another the done channel is closed
      (provided that callbacks return, which is a step). */
  lemma {:induction false} ShutdownEnds(s: State, steps: seq<Step>)
    requires Safe(s) && s.cancelled && Schedule(s, steps)
    ensures |steps| + Rank(Final(s, steps)) <= Rank(s)
    ensures Safe(Final(s, steps)) && Final(s, steps).cancelled
    ensures (forall step :: Internal(step) ==> !Enabled(Final(s, steps), step)) ==> Final(s, steps).close.Closed?
    decreases |steps|
  {
    if steps == [] {
      if !s.close.Closed? {
        var step := NoDeadlock(s);
      }
    } else {
      StepSafe(s, steps[0]);
      StepRanks(s, steps[0]);
      ShutdownEnds(Act(s, steps[0]), steps[1..]);
    }
  }

  /** A stream that arrives meanwhile costs six steps at most: it is turned away. */
  lemma StreamCosts(s: State, t: Thread, e: Envelope)
    requires Enabled(s, Stream(t, e))
    ensures Rank(Act(s, Stream(t, e))) == Rank(s) + 6
  {
    forall k: nat | 1 <= k <= 6
      ensures |AtLeast(Act(s, Stream(t, e)), k)| == |AtLeast(s, k)| + 1
    {
      StreamLevel(s, t, e, k);
    }
  }

  lemma StreamLevel(s: State, t: Thread, e: Envelope, k: nat)
    requires Enabled(s, Stream(t, e)) && 1 <= k <= 6
    ensures |AtLeast(Act(s, Stream(t, e)), k)| == |AtLeast(s, k)| + 1
  {
    assert AtLeast(Act(s, Stream(t, e)), k) == AtLeast(s, k) + {t} && t !in AtLeast(s, k);
  }

  // ---- One polling pass ----

  /** `at` are exactly the positions of the envelopes that decrypt and are accepted, in
      order, and `ids` their identifiers. */
  ghost predicate Picks(envelopes: seq<Envelope>, accepts: Envelope -> bool, at: seq<nat>, ids: seq<MessageId>) {
    && |ids| == |at|
    && (forall k :: 0 <= k < |at| ==> at[k] < |envelopes| && ids[k] == envelopes[at[k]].id)
    && (forall j, k :: 0 <= j < k < |at| ==> at[j] < at[k])
    && (forall i :: 0 <= i < |envelopes| ==> (i in at <==> envelopes[i].decrypts && accepts(envelopes[i])))
  }

  ghost predicate PicksAll(envelopes: seq<Envelope>, accepts: Envelope -> bool, ids: seq<MessageId>) {
    exists at: seq<nat> :: Picks(envelopes, accepts, at, ids)
  }

  /** The identifiers of those envelopes. */
  function Confirmed(envelopes: seq<Envelope>, accepts: Envelope -> bool): seq<MessageId>
    decreases |envelopes|
  {
    if envelopes == [] then []
    else
      var front, last := envelopes[..|envelopes|-1], envelopes[|envelopes|-1];
      Confirmed(front, accepts) + if last.decrypts && accepts(last) then [last.id] else []
  }

  lemma PicksMore(envelopes: seq<Envelope>, accepts: Envelope -> bool, at: seq<nat>, ids: seq<MessageId>, e: Envelope)
    requires Picks(envelopes, accepts, at, ids) && e.decrypts && accepts(e)
    ensures Picks(envelopes + [e], accepts, at + [|envelopes|], ids + [e.id])
  {
    var more, to := envelopes + [e], at + [|envelopes|];
    assert forall k :: 0 <= k < |at| ==> to[k] == at[k] && at[k] in at;
    forall i | 0 <= i < |more| ensures i in to <==> more[i].decrypts && accepts(more[i]) {
      assert i in to <==> i in at || i == |envelopes|;
      assert i < |envelopes| ==> more[i] == envelopes[i];
    }
  }

  lemma PicksSame(envelopes: seq<Envelope>, accepts: Envelope -> bool, at: seq<nat>, ids: seq<MessageId>, e: Envelope)
    requires Picks(envelopes, accepts, at, ids) && !(e.decrypts && accepts(e))
    ensures Picks(envelopes + [e], accepts, at, ids)
  {
    var more := envelopes + [e];
    assert forall k :: 0 <= k < |at| ==> at[k] in at;
    forall i | 0 <= i < |more| ensures i in at <==> more[i].decrypts && accepts(more[i]) {
      assert i < |envelopes| ==> more[i] == envelopes[i];
    }
  }

  lemma {:induction false} ConfirmedPicks(envelopes: seq<Envelope>, accepts: Envelope -> bool) returns (at: seq<nat>)
    ensures Picks(envelopes, accepts, at, Confirmed(envelopes, accepts))
    decreases |envelopes|
  {
    if envelopes == [] {
      at := [];
    } else {
      var front, last := envelopes[..|envelopes|-1], envelopes[|envelopes|-1];
      at := ConfirmedPicks(front, accepts);
      assert envelopes == front + [last];
      if last.decrypts && accepts(last) {
        PicksMore(front, accepts, at, Confirmed(front, accepts), last);
        at := at + [|front|];
      } else {
        PicksSame(front, accepts, at, Confirmed(front, accepts), last);
        assert Confirmed(envelopes, accepts) == Confirmed(front, accepts);
      }
    }
  }

  lemma PassPicks(reached: seq<Envelope>, accepts: Envelope -> bool)
    ensures PicksAll(reached, accepts, Confirmed(reached, accepts))
  {
    var at := ConfirmedPicks(reached, accepts);
  }

  /** Process a retrieved batch; `live` is how many envelopes are reached before the
      context is cancelled, `accepts` whether the callback succeeds, and `stores` whether
      the acknowledgement does. An acknowledgement is tried, in order, for exactly the
      envelopes reached that decrypt and whose callback succeeds; every other envelope
      reached, and every acknowledgement that fails, is a failure. */
  method ProcessEnvelopes(envelopes: seq<Envelope>, live: nat, accepts: Envelope -> bool, stores: Envelope -> bool)
    returns (tried: seq<MessageId>, acked: seq<MessageId>, failures: nat)
    ensures var reached := if live < |envelopes| then envelopes[..live] else envelopes;
      && PicksAll(reached, accepts, tried)
      && PicksAll(reached, (e: Envelope) => accepts(e) && stores(e), acked)
      && |acked| + failures == |reached|
  {
    ghost var both := (e: Envelope) => accepts(e) && stores(e);
    tried, acked, failures := [], [], 0;
    var i := 0;
    while i < |envelopes| && i < live
      invariant i <= |envelopes| && i <= live
      invariant tried == Confirmed(envelopes[..i], accepts) && acked == Confirmed(envelopes[..i], both)
      invariant |acked| + failures == i
    {
      var e := envelopes[i];
      assert envelopes[..i+1][..i] == envelopes[..i];
      if e.decrypts && accepts(e) {
        tried := tried + [e.id];
        if stores(e) {
          acked := acked + [e.id];
        } else {
          failures := failures + 1;
        }
      } else {
        failures := failures + 1;
      }
      i := i + 1;
    }
    assert envelopes[..i] == if live < |envelopes| then envelopes[..live] else envelopes;
    PassPicks(envelopes[..i], accepts);
    PassPicks(envelopes[..i], both);
  }
}
