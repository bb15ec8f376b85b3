/** The owner's scope and the deterministic judgement of one action against it.
    Identifiers are numbers in the order of their texts; instants count microseconds. */
module ScopePolicy {
  import opened Basics

  type Id = nat
  type Instant = int

  // The supported capabilities, in the order of their names.
  const ACCEPT_MEETING: Id := 0
  const PROPOSE_MEETING: Id := 1
  const SEND_TEXT: Id := 2
  const SHARE_RESOURCE: Id := 3
  const SHARE_SLOTS: Id := 4

  const MAX_IDS: nat := 128
  const MINUTE: int := 60_000_000

  datatype Interval = Interval(start: Instant, end: Instant)

  datatype Scope = Scope(purpose: Id, topic: Id, capabilities: seq<Id>, recipients: seq<Id>, participants: seq<Id>,
                         resources: seq<Id>, windowStart: Instant, windowEnd: Instant, maxDuration: int,
                         maxCandidates: int, maxActions: int, expiresAt: Instant, allowedWindows: Option<seq<Interval>>)

  /** `Incomplete` lacks a required field, `Unsupported` has one that does not belong. */
  datatype Payload =
    | Slots(slots: seq<Interval>)
    | Resource(resource: Id)
    | Meeting(proposal: Id, version: int, topic: Id, participants: seq<Id>, interval: Interval)
    | Text(text: Id)
    | Incomplete
    | Unsupported

  datatype Action = Action(capability: Id, recipients: seq<Id>, payload: Payload)

  datatype Checked<+T> = Ok(value: T) | Missing | Invalid

  // ---- Identifiers ----

  predicate Increasing(s: seq<Id>) {
    forall i, j :: 0 <= i < j < |s| ==> s[i] < s[j]
  }

  function Insert(s: seq<Id>, x: Id): seq<Id>
    decreases |s|
  {
    if s == [] then [x]
    else if x < s[0] then [x] + s
    else if x == s[0] then s
    else [s[0]] + Insert(s[1..], x)
  }

  /** The distinct identifiers, sorted. */
  function SortedSet(s: seq<Id>): seq<Id>
    decreases |s|
  {
    if s == [] then [] else Insert(SortedSet(s[..|s|-1]), s[|s|-1])
  }

  lemma {:induction false} InsertHas(s: seq<Id>, x: Id)
    ensures forall y :: y in Insert(s, x) <==> y == x || y in s
    ensures |Insert(s, x)| <= |s| + 1
    decreases |s|
  {
    if s == [] {
    } else {
      InsertHas(s[1..], x);
      assert s == [s[0]] + s[1..];
    }
  }

  lemma {:induction false} InsertIncreasing(s: seq<Id>, x: Id)
    requires Increasing(s)
    ensures Increasing(Insert(s, x))
    decreases |s|
  {
    if s == [] || x <= s[0] {
    } else {
      InsertIncreasing(s[1..], x);
      InsertHas(s[1..], x);
      var rest := Insert(s[1..], x);
      forall i | 0 <= i < |rest| ensures s[0] < rest[i] {
        assert rest[i] in rest;
      }
    }
  }

  lemma {:induction false} InsertLast(s: seq<Id>, x: Id)
    requires forall y :: y in s ==> y < x
    ensures Insert(s, x) == s + [x]
    decreases |s|
  {
    if s == [] {
    } else {
      assert s[0] in s;
      assert forall y :: y in s[1..] ==> y in s;
      InsertLast(s[1..], x);
      assert [s[0]] + (s[1..] + [x]) == s + [x];
    }
  }

  lemma {:induction false} SortedSetIs(s: seq<Id>)
    ensures Increasing(SortedSet(s)) && (forall y :: y in SortedSet(s) <==> y in s) && |SortedSet(s)| <= |s|
    ensures s != [] ==> SortedSet(s) != []
    decreases |s|
  {
    if s == [] {
    } else {
      SortedSetIs(s[..|s|-1]);
      InsertHas(SortedSet(s[..|s|-1]), s[|s|-1]);
      InsertIncreasing(SortedSet(s[..|s|-1]), s[|s|-1]);
      assert s == s[..|s|-1] + [s[|s|-1]];
    }
  }

  /** Sorting a sorted list of distinct identifiers changes nothing. */
  lemma {:induction false} SortedSetIdempotent(s: seq<Id>)
    requires Increasing(s)
    ensures SortedSet(s) == s
    decreases |s|
  {
    if s == [] {
    } else {
      var front := s[..|s|-1];
      SortedSetIdempotent(front);
      forall y | y in front ensures y < s[|s|-1] {
        var i :| 0 <= i < |front| && front[i] == y;
      }
      InsertLast(front, s[|s|-1]);
      assert s == front + [s[|s|-1]];
    }
  }

  predicate IdsFit(s: seq<Id>, nonempty: bool) {
    |s| <= MAX_IDS && (nonempty ==> s != [])
  }

  // ---- Validation ----

  predicate Proper(w: Interval) {
    w.start < w.end
  }

  /** `w` lies entirely inside `v`. */
  predicate Inside(w: Interval, v: Interval) {
    v.start <= w.start && w.end <= v.end
  }

  function Outer(s: Scope): Interval {
    Interval(s.windowStart, s.windowEnd)
  }

  predicate WindowsFit(s: Scope) {
    s.allowedWindows.Some? ==>
      && 1 <= |s.allowedWindows.value| <= MAX_IDS
      && forall i :: 0 <= i < |s.allowedWindows.value| ==>
           Proper(s.allowedWindows.value[i]) && Inside(s.allowedWindows.value[i], Outer(s))
  }

  predicate ScopeFits(s: Scope) {
    && IdsFit(s.capabilities, true) && (forall c :: c in s.capabilities ==> c <= SHARE_SLOTS)
    && IdsFit(s.recipients, true) && IdsFit(s.participants, false) && IdsFit(s.resources, false)
    && Proper(Outer(s)) && WindowsFit(s)
    && 1 <= s.maxDuration <= 10080 && 1 <= s.maxCandidates <= 128 && 1 <= s.maxActions <= 100000
  }

  /** The normalized scope, or nothing. */
  function ValidateScope(s: Scope): Option<Scope> {
    if !ScopeFits(s) then None
    else Some(s.(capabilities := SortedSet(s.capabilities), recipients := SortedSet(s.recipients),
                 participants := SortedSet(s.participants), resources := SortedSet(s.resources)))
  }

  predicate NoDuplicates(s: seq<Interval>) {
    forall i, j :: 0 <= i < j < |s| ==> s[i] != s[j]
  }

  predicate Belongs(p: Payload, capability: Id) {
    match p
    case Slots(_) => capability == SHARE_SLOTS
    case Resource(_) => capability == SHARE_RESOURCE
    case Meeting(_, _, _, _, _) => capability == PROPOSE_MEETING || capability == ACCEPT_MEETING
    case Text(_) => capability == SEND_TEXT
    case _ => false
  }

  predicate PayloadFits(p: Payload) {
    match p
    case Slots(slots) =>
      1 <= |slots| <= MAX_IDS && (forall i :: 0 <= i < |slots| ==> Proper(slots[i])) && NoDuplicates(slots)
    case Meeting(_, version, _, participants, interval) =>
      Proper(interval) && 1 <= version <= 2147483647 && IdsFit(participants, true)
    case _ => true
  }

  function ValidateAction(a: Action): Checked<Action> {
    if a.capability > SHARE_SLOTS || !IdsFit(a.recipients, true) then Invalid
    else if a.payload.Incomplete? then Missing
    else if !Belongs(a.payload, a.capability) || !PayloadFits(a.payload) then Invalid
    else
      Ok(a.(recipients := SortedSet(a.recipients),
            payload := if a.payload.Meeting? then a.payload.(participants := SortedSet(a.payload.participants)) else a.payload))
  }

  // ---- The judgement ----

  datatype Decision = Deny | Clarify | Ask | Allow

  datatype Bound = Capabilities | Recipients | Resources | Candidates | Participants | Topic | Window
                 | Windows | Duration | ExactText

  datatype Reason = InvalidScope | InvalidUsage | ScopeExpired | LimitReached | MissingFields | InvalidAction | Judged

  /** `exceeded` are the boundaries that the action does not respect. */
  datatype Judgement = Judgement(decision: Decision, reason: Reason, exceeded: set<Bound>)

  function IntervalsOf(p: Payload): seq<Interval> {
    match p
    case Slots(slots) => slots
    case Meeting(_, _, _, _, interval) => [interval]
    case _ => []
  }

  predicate Subset(xs: seq<Id>, ys: seq<Id>) {
    forall x :: x in xs ==> x in ys
  }

  predicate InWindow(s: Scope, w: Interval) {
    Inside(w, Outer(s))
  }

  /** A listed window covers the interval alone; windows are never joined. */
  predicate InListed(s: Scope, w: Interval) {
    s.allowedWindows.None? || exists i :: 0 <= i < |s.allowedWindows.value| && Inside(w, s.allowedWindows.value[i])
  }

  predicate ShortEnough(s: Scope, w: Interval) {
    w.end - w.start <= s.maxDuration * MINUTE
  }

  /** Does the action respect this boundary of the scope? */
  predicate Respects(s: Scope, a: Action, b: Bound) {
    var ws := IntervalsOf(a.payload);
    match b
    case Capabilities => a.capability in s.capabilities
    case Recipients => Subset(a.recipients, s.recipients)
    case Resources => a.payload.Resource? ==> a.payload.resource in s.resources
    case Candidates => a.payload.Slots? ==> |a.payload.slots| <= s.maxCandidates
    case Participants => a.payload.Meeting? ==> Subset(a.payload.participants, s.participants)
    case Topic => a.payload.Meeting? ==> a.payload.topic == s.topic
    case Window => forall i :: 0 <= i < |ws| ==> InWindow(s, ws[i])
    case Windows => forall i :: 0 <= i < |ws| ==> InListed(s, ws[i])
    case Duration => forall i :: 0 <= i < |ws| ==> ShortEnough(s, ws[i])
    case ExactText => a.capability != SEND_TEXT
  }

  function Exceeded(s: Scope, a: Action): set<Bound> {
    set b: Bound | !Respects(s, a, b)
  }

  /** Hard limits first, then the action's form, then the boundaries. */
  function Judge(scope: Scope, action: Action, used: int, now: Instant): Judgement {
    match ValidateScope(scope)
    case None => Judgement(Deny, InvalidScope, {})
    case Some(s) =>
      if used < 0 then Judgement(Deny, InvalidUsage, {})
      else if now >= s.expiresAt then Judgement(Deny, ScopeExpired, {})
      else if used >= s.maxActions then Judgement(Deny, LimitReached, {})
      else match ValidateAction(action)
        case Missing => Judgement(Clarify, MissingFields, {})
        case Invalid => Judgement(Deny, InvalidAction, {})
        case Ok(a) => Judgement(if Exceeded(s, a) == {} then Allow else Ask, Judged, Exceeded(s, a))
  }

  /** Which of the intervals fail one test, as a loop over them. */
  method AnyOutside(ws: seq<Interval>, holds: Interval -> bool) returns (outside: bool)
    ensures outside <==> exists i :: 0 <= i < |ws| && !holds(ws[i])
  {
    outside := false;
    var i := 0;
    while i < |ws|
      invariant i <= |ws| && (outside <==> exists j :: 0 <= j < i && !holds(ws[j]))
    {
      if !holds(ws[i]) {
        outside := true;
      }
      i := i + 1;
    }
  }

  /** Collect, step by step, what the action exceeds. */
  method Compare(s: Scope, a: Action) returns (delta: set<Bound>)
    requires Belongs(a.payload, a.capability)
    ensures delta == Exceeded(s, a)
  {
    var ws: seq<Interval>;
    delta, ws := CompareFields(s, a);
    ghost var fields := delta;
    var more := CompareIntervals(s, ws);
    delta := delta + more;
    if a.capability == SEND_TEXT {
      delta := delta + {ExactText};
    }
    forall b: Bound ensures b in delta <==> !Respects(s, a, b) {
      assert b in fields ==> b in FIELD_BOUNDS;
    }
  }

  const FIELD_BOUNDS: set<Bound> := {Capabilities, Recipients, Resources, Candidates, Participants, Topic}

  method CompareFields(s: Scope, a: Action) returns (delta: set<Bound>, ws: seq<Interval>)
    requires Belongs(a.payload, a.capability)
    ensures delta <= FIELD_BOUNDS && ws == IntervalsOf(a.payload)
    ensures Capabilities in delta <==> !Respects(s, a, Capabilities)
    ensures Recipients in delta <==> !Respects(s, a, Recipients)
    ensures Resources in delta <==> !Respects(s, a, Resources)
    ensures Candidates in delta <==> !Respects(s, a, Candidates)
    ensures Participants in delta <==> !Respects(s, a, Participants)
    ensures Topic in delta <==> !Respects(s, a, Topic)
  {
    delta, ws := {}, [];
    if a.capability !in s.capabilities {
      delta := delta + {Capabilities};
    }
    if !Subset(a.recipients, s.recipients) {
      delta := delta + {Recipients};
    }
    if a.capability == SHARE_RESOURCE {
      if a.payload.resource !in s.resources {
        delta := delta + {Resources};
      }
    } else if a.capability == SHARE_SLOTS {
      ws := a.payload.slots;
      if |ws| > s.maxCandidates {
        delta := delta + {Candidates};
      }
    } else if a.capability == PROPOSE_MEETING || a.capability == ACCEPT_MEETING {
      if !Subset(a.payload.participants, s.participants) {
        delta := delta + {Participants};
      }
      if a.payload.topic != s.topic {
        delta := delta + {Topic};
      }
      ws := [a.payload.interval];
    }
  }

  method CompareIntervals(s: Scope, ws: seq<Interval>) returns (delta: set<Bound>)
    ensures delta <= {Window, Windows, Duration}
    ensures Window in delta <==> !forall i :: 0 <= i < |ws| ==> InWindow(s, ws[i])
    ensures Windows in delta <==> !forall i :: 0 <= i < |ws| ==> InListed(s, ws[i])
    ensures Duration in delta <==> !forall i :: 0 <= i < |ws| ==> ShortEnough(s, ws[i])
  {
    delta := {};
    var late := AnyOutside(ws, w => InWindow(s, w));
    if late {
      delta := delta + {Window};
    }
    var unlisted := AnyOutside(ws, w => InListed(s, w));
    if unlisted {
      delta := delta + {Windows};
    }
    var long := AnyOutside(ws, w => ShortEnough(s, w));
    if long {
      delta := delta + {Duration};
    }
  }

  /** Judge the current scope only. */
  method Evaluate(scope: Scope, action: Action, used: int, now: Instant) returns (r: Judgement)
    ensures r == Judge(scope, action, used, now)
  {
    var valid := ValidateScope(scope);
    if valid.None? {
      return Judgement(Deny, InvalidScope, {});
    }
    var s := valid.value;
    if used < 0 {
      return Judgement(Deny, InvalidUsage, {});
    }
    if now >= s.expiresAt {
      return Judgement(Deny, ScopeExpired, {});
    }
    if used >= s.maxActions {
      return Judgement(Deny, LimitReached, {});
    }
    var checked := ValidateAction(action);
    if checked.Missing? {
      return Judgement(Clarify, MissingFields, {});
    }
    if checked.Invalid? {
      return Judgement(Deny, InvalidAction, {});
    }
    var delta := Compare(s, checked.value);
    r := Judgement(if delta != {} then Ask else Allow, Judged, delta);
  }

  // ---- What the judgement means ----

  /** Every boundary of the scope holds for the action, stated on what the owner and the
      caller wrote. */
  ghost predicate WithinEveryBound(s: Scope, a: Action) {
    && a.capability in s.capabilities && a.capability != SEND_TEXT
    && (forall r :: r in a.recipients ==> r in s.recipients)
    && (a.payload.Resource? ==> a.payload.resource in s.resources)
    && (a.payload.Slots? ==> |a.payload.slots| <= s.maxCandidates)
    && (a.payload.Meeting? ==> a.payload.topic == s.topic && forall p :: p in a.payload.participants ==> p in s.participants)
    && (forall w :: w in IntervalsOf(a.payload) ==>
          && s.windowStart <= w.start && w.end <= s.windowEnd
          && w.end - w.start <= s.maxDuration * MINUTE
          && (s.allowedWindows.None? || exists v :: v in s.allowedWindows.value && v.start <= w.start && w.end <= v.end))
  }

  lemma ExceededNothing(s: Scope, a: Action)
    ensures Exceeded(s, a) == {} <==> forall b: Bound :: Respects(s, a, b)
  {
    if Exceeded(s, a) == {} {
      forall b: Bound ensures Respects(s, a, b) {
        assert b !in Exceeded(s, a);
      }
    }
  }

  lemma BoundsMean(s: Scope, a: Action)
    ensures (forall b: Bound :: Respects(s, a, b)) <==> WithinEveryBound(s, a)
  {
    var ws := IntervalsOf(a.payload);
    if forall b: Bound :: Respects(s, a, b) {
      assert Respects(s, a, Capabilities) && Respects(s, a, Recipients) && Respects(s, a, Resources);
      assert Respects(s, a, Candidates) && Respects(s, a, Participants) && Respects(s, a, Topic);
      assert Respects(s, a, Window) && Respects(s, a, Windows) && Respects(s, a, Duration) && Respects(s, a, ExactText);
      forall w | w in ws
        ensures s.allowedWindows.None? || exists v :: v in s.allowedWindows.value && v.start <= w.start && w.end <= v.end
      {
        var i :| 0 <= i < |ws| && ws[i] == w;
        assert InWindow(s, ws[i]) && InListed(s, ws[i]) && ShortEnough(s, ws[i]);
      }
    }
    if WithinEveryBound(s, a) {
      forall b: Bound ensures Respects(s, a, b) {
        MeaningRespects(s, a, b);
      }
    }
  }

  lemma MeaningRespects(s: Scope, a: Action, b: Bound)
    requires WithinEveryBound(s, a)
    ensures Respects(s, a, b)
  {
    var ws := IntervalsOf(a.payload);
    forall i | 0 <= i < |ws| ensures InWindow(s, ws[i]) && InListed(s, ws[i]) && ShortEnough(s, ws[i]) {
      assert ws[i] in ws;
      if s.allowedWindows.Some? {
        var v :| v in s.allowedWindows.value && v.start <= ws[i].start && ws[i].end <= v.end;
        var j :| 0 <= j < |s.allowedWindows.value| && s.allowedWindows.value[j] == v;
      }
    }
  }

  /** Normalization changes the order and repetition of identifiers only. */
  lemma SameMeaning(s: Scope, n: Scope, a: Action, m: Action)
    requires ValidateScope(s) == Some(n) && ValidateAction(a) == Ok(m)
    ensures WithinEveryBound(n, m) <==> WithinEveryBound(s, a)
  {
    SortedSetIs(s.capabilities);
    SortedSetIs(s.recipients);
    SortedSetIs(s.participants);
    SortedSetIs(s.resources);
    SortedSetIs(a.recipients);
    if a.payload.Meeting? {
      SortedSetIs(a.payload.participants);
    }
    assert IntervalsOf(m.payload) == IntervalsOf(a.payload);
  }

  /** Allow holds exactly when the scope is valid and live, uses remain, the action is
      well formed, and every bound holds; free text is never allowed. */
  lemma AllowExactly(s: Scope, a: Action, used: int, now: Instant)
    ensures Judge(s, a, used, now).decision.Allow? <==>
      && ScopeFits(s) && 0 <= used < s.maxActions && now < s.expiresAt
      && ValidateAction(a).Ok? && WithinEveryBound(s, a)
    ensures a.capability == SEND_TEXT ==> !Judge(s, a, used, now).decision.Allow?
  {
    if ScopeFits(s) && ValidateAction(a).Ok? {
      var n, m := ValidateScope(s).value, ValidateAction(a).value;
      SameMeaning(s, n, a, m);
      BoundsMean(n, m);
      ExceededNothing(n, m);
    }
  }

  // ---- Every decision, on what the owner and the caller wrote ----

  /** The scope has a supported form. */
  ghost predicate ScopeWritten(s: Scope) {
    && 1 <= |s.capabilities| <= 128 && 1 <= |s.recipients| <= 128 && |s.participants| <= 128 && |s.resources| <= 128
    && (forall c :: c in s.capabilities ==> c in {ACCEPT_MEETING, PROPOSE_MEETING, SEND_TEXT, SHARE_RESOURCE, SHARE_SLOTS})
    && s.windowStart < s.windowEnd
    && (s.allowedWindows.Some? ==>
          && 1 <= |s.allowedWindows.value| <= 128
          && forall v :: v in s.allowedWindows.value ==> v.start < v.end && s.windowStart <= v.start && v.end <= s.windowEnd)
    && 1 <= s.maxDuration <= 10080 && 1 <= s.maxCandidates <= 128 && 1 <= s.maxActions <= 100000
  }

  /** The action has a known capability and between 1 and 128 recipients. */
  predicate HeadWritten(a: Action) {
    && a.capability in {ACCEPT_MEETING, PROPOSE_MEETING, SEND_TEXT, SHARE_RESOURCE, SHARE_SLOTS}
    && 1 <= |a.recipients| <= 128
  }

  /** The action is well formed: the payload is the one of its capability, and complete. */
  ghost predicate ActionWritten(a: Action) {
    && HeadWritten(a)
    && (a.payload.Slots? || a.payload.Resource? || a.payload.Meeting? || a.payload.Text?)
    && (a.payload.Slots? <==> a.capability == SHARE_SLOTS)
    && (a.payload.Resource? <==> a.capability == SHARE_RESOURCE)
    && (a.payload.Meeting? <==> a.capability in {PROPOSE_MEETING, ACCEPT_MEETING})
    && (a.payload.Slots? ==>
          && 1 <= |a.payload.slots| <= 128 && (forall w :: w in a.payload.slots ==> w.start < w.end)
          && forall i, j :: 0 <= i < j < |a.payload.slots| ==> a.payload.slots[i] != a.payload.slots[j])
    && (a.payload.Meeting? ==>
          && a.payload.interval.start < a.payload.interval.end && 1 <= a.payload.version <= 2147483647
          && 1 <= |a.payload.participants| <= 128)
  }

  /** The hard limits, which no approval overrides. */
  ghost predicate WithinLimits(s: Scope, used: int, now: Instant) {
    ScopeWritten(s) && 0 <= used < s.maxActions && now < s.expiresAt
  }

  lemma ScopeWrittenFits(s: Scope)
    ensures ScopeFits(s) <==> ScopeWritten(s)
  {
    if ScopeFits(s) && s.allowedWindows.Some? {
      forall v | v in s.allowedWindows.value ensures v.start < v.end && s.windowStart <= v.start && v.end <= s.windowEnd {
        var i :| 0 <= i < |s.allowedWindows.value| && s.allowedWindows.value[i] == v;
        assert Proper(s.allowedWindows.value[i]) && Inside(s.allowedWindows.value[i], Outer(s));
      }
    }
    if ScopeWritten(s) && s.allowedWindows.Some? {
      forall i | 0 <= i < |s.allowedWindows.value|
        ensures Proper(s.allowedWindows.value[i]) && Inside(s.allowedWindows.value[i], Outer(s))
      {
        assert s.allowedWindows.value[i] in s.allowedWindows.value;
      }
    }
  }

  lemma ActionWrittenFits(a: Action)
    ensures ValidateAction(a).Ok? <==> ActionWritten(a)
    ensures ValidateAction(a).Missing? <==> HeadWritten(a) && a.payload.Incomplete?
  {
    if a.payload.Slots? {
      assert (forall w :: w in a.payload.slots ==> w.start < w.end)
        <==> (forall i :: 0 <= i < |a.payload.slots| ==> Proper(a.payload.slots[i]));
    }
  }

  /** All four decisions. Allow and ask: within the limits, for a well-formed action, as every
      bound holds or not. Clarify: within the limits, when a required field is missing. Deny:
      in all other cases. */
  lemma DecidedExactly(s: Scope, a: Action, used: int, now: Instant)
    ensures var d, limits := Judge(s, a, used, now).decision, WithinLimits(s, used, now);
      && (d.Allow? <==> limits && ActionWritten(a) && WithinEveryBound(s, a))
      && (d.Ask? <==> limits && ActionWritten(a) && !WithinEveryBound(s, a))
      && (d.Clarify? <==> limits && HeadWritten(a) && a.payload.Incomplete?)
      && (d.Deny? <==> !limits || (!ActionWritten(a) && !(HeadWritten(a) && a.payload.Incomplete?)))
  {
    ScopeWrittenFits(s);
    ActionWrittenFits(a);
    AllowExactly(s, a, used, now);
    if ScopeFits(s) && ValidateAction(a).Ok? {
      ExceededNothing(ValidateScope(s).value, ValidateAction(a).value);
    }
  }

  /** The reason that is given is the first thing that is wrong. */
  lemma ReasonExactly(s: Scope, a: Action, used: int, now: Instant)
    ensures Judge(s, a, used, now).reason ==
      if !ScopeWritten(s) then InvalidScope
      else if used < 0 then InvalidUsage
      else if s.expiresAt <= now then ScopeExpired
      else if s.maxActions <= used then LimitReached
      else if HeadWritten(a) && a.payload.Incomplete? then MissingFields
      else if !ActionWritten(a) then InvalidAction
      else Judged
  {
    ScopeWrittenFits(s);
    ActionWrittenFits(a);
  }

  /** What is reported as exceeded, bound by bound, for an action that is judged. */
  lemma ExceededExactly(s: Scope, a: Action, used: int, now: Instant)
    requires WithinLimits(s, used, now) && ActionWritten(a)
    ensures var e, ws := Judge(s, a, used, now).exceeded, IntervalsOf(a.payload);
      && (Capabilities in e <==> a.capability !in s.capabilities)
      && (Recipients in e <==> exists r :: r in a.recipients && r !in s.recipients)
      && (Resources in e <==> a.payload.Resource? && a.payload.resource !in s.resources)
      && (Candidates in e <==> a.payload.Slots? && |a.payload.slots| > s.maxCandidates)
      && (Participants in e <==> a.payload.Meeting? && exists r :: r in a.payload.participants && r !in s.participants)
      && (Topic in e <==> a.payload.Meeting? && a.payload.topic != s.topic)
      && (Window in e <==> exists w :: w in ws && (w.start < s.windowStart || s.windowEnd < w.end))
      && (Windows in e <==> s.allowedWindows.Some? && exists w :: w in ws && Unlisted(s.allowedWindows.value, w))
      && (Duration in e <==> exists w :: w in ws && w.end - w.start > s.maxDuration * 60_000_000)
      && (ExactText in e <==> a.capability == SEND_TEXT)
    ensures var ws := IntervalsOf(a.payload);
      ws == if a.payload.Slots? then a.payload.slots else if a.payload.Meeting? then [a.payload.interval] else []
  {
    ScopeWrittenFits(s);
    ActionWrittenFits(a);
    var n, m := ValidateScope(s).value, ValidateAction(a).value;
    FieldsExceeded(s, n, a, m);
    IntervalsExceeded(s, n, m, IntervalsOf(a.payload));
  }

  lemma FieldsExceeded(s: Scope, n: Scope, a: Action, m: Action)
    requires ValidateScope(s) == Some(n) && ValidateAction(a) == Ok(m)
    ensures IntervalsOf(m.payload) == IntervalsOf(a.payload)
    ensures var e := Exceeded(n, m);
      && (Capabilities in e <==> a.capability !in s.capabilities)
      && (Recipients in e <==> exists r :: r in a.recipients && r !in s.recipients)
      && (Resources in e <==> a.payload.Resource? && a.payload.resource !in s.resources)
      && (Candidates in e <==> a.payload.Slots? && |a.payload.slots| > s.maxCandidates)
      && (Participants in e <==> a.payload.Meeting? && exists r :: r in a.payload.participants && r !in s.participants)
      && (Topic in e <==> a.payload.Meeting? && a.payload.topic != s.topic)
      && (ExactText in e <==> a.capability == SEND_TEXT)
  {
    SortedSetIs(s.capabilities);
    SortedSetIs(s.recipients);
    SortedSetIs(s.resources);
    SortedSetIs(s.participants);
    SortedSetIs(a.recipients);
    if a.payload.Meeting? {
      SortedSetIs(a.payload.participants);
    }
  }

  /** No listed window covers the interval. */
  predicate Unlisted(windows: seq<Interval>, w: Interval) {
    forall v :: v in windows ==> w.start < v.start || v.end < w.end
  }

  lemma IntervalsExceeded(s: Scope, n: Scope, m: Action, ws: seq<Interval>)
    requires n.windowStart == s.windowStart && n.windowEnd == s.windowEnd && n.maxDuration == s.maxDuration
    requires n.allowedWindows == s.allowedWindows && IntervalsOf(m.payload) == ws
    ensures var e := Exceeded(n, m);
      && (Window in e <==> exists w :: w in ws && (w.start < s.windowStart || s.windowEnd < w.end))
      && (Windows in e <==> s.allowedWindows.Some? && exists w :: w in ws && Unlisted(s.allowedWindows.value, w))
      && (Duration in e <==> exists w :: w in ws && w.end - w.start > s.maxDuration * 60_000_000)
  {
    forall w | w in ws
      ensures exists i :: 0 <= i < |ws| && ws[i] == w
      ensures s.allowedWindows.Some? ==> (InListed(n, w) <==> !Unlisted(s.allowedWindows.value, w))
    {
      if s.allowedWindows.Some? && !Unlisted(s.allowedWindows.value, w) {
        var v :| v in s.allowedWindows.value && v.start <= w.start && w.end <= v.end;
        var j :| 0 <= j < |s.allowedWindows.value| && s.allowedWindows.value[j] == v;
        assert Inside(w, s.allowedWindows.value[j]);
      }
    }
    assert forall i :: 0 <= i < |ws| ==> ws[i] in ws;
  }

  /** Validating a normalized scope returns it unchanged, and a scope and its normalized
      form judge every action alike. */
  lemma NormalizationIdempotent(s: Scope, n: Scope, a: Action, used: int, now: Instant)
    requires ValidateScope(s) == Some(n)
    ensures ValidateScope(n) == Some(n)
    ensures Judge(n, a, used, now) == Judge(s, a, used, now)
  {
    SortedSetIs(s.capabilities);
    SortedSetIs(s.recipients);
    SortedSetIs(s.participants);
    SortedSetIs(s.resources);
    SortedSetIdempotent(n.capabilities);
    SortedSetIdempotent(n.recipients);
    SortedSetIdempotent(n.participants);
    SortedSetIdempotent(n.resources);
    assert Outer(n) == Outer(s);
  }

  // ---- Widening a scope ----

  predicate CoveredBy(w: Interval, vs: seq<Interval>) {
    exists i :: 0 <= i < |vs| && Inside(w, vs[i])
  }

  /** Every boundary of `t` is at least as wide: listed windows may grow one by one, be
      added, or be dropped altogether. */
  ghost predicate Wider(s: Scope, t: Scope) {
    && (forall x :: x in s.capabilities ==> x in t.capabilities)
    && (forall x :: x in s.recipients ==> x in t.recipients)
    && (forall x :: x in s.participants ==> x in t.participants)
    && (forall x :: x in s.resources ==> x in t.resources)
    && t.windowStart <= s.windowStart && s.windowEnd <= t.windowEnd && t.topic == s.topic
    && s.maxDuration <= t.maxDuration && s.maxCandidates <= t.maxCandidates && s.maxActions <= t.maxActions
    && s.expiresAt <= t.expiresAt
    && (t.allowedWindows.Some? ==>
          s.allowedWindows.Some? && forall i :: 0 <= i < |s.allowedWindows.value| ==>
            CoveredBy(s.allowedWindows.value[i], t.allowedWindows.value))
  }

  function Rank(d: Decision): int {
    match d case Deny => 0 case Clarify => 0 case Ask => 1 case Allow => 2
  }

  lemma WiderBounds(s: Scope, t: Scope, a: Action)
    requires Wider(s, t) && WithinEveryBound(s, a)
    ensures WithinEveryBound(t, a)
  {
    forall w | w in IntervalsOf(a.payload)
      ensures t.allowedWindows.None? || exists v :: v in t.allowedWindows.value && v.start <= w.start && w.end <= v.end
    {
      if t.allowedWindows.Some? {
        var v :| v in s.allowedWindows.value && v.start <= w.start && w.end <= v.end;
        var i :| 0 <= i < |s.allowedWindows.value| && s.allowedWindows.value[i] == v;
        assert CoveredBy(s.allowedWindows.value[i], t.allowedWindows.value);
        var j :| 0 <= j < |t.allowedWindows.value| && Inside(v, t.allowedWindows.value[j]);
        assert t.allowedWindows.value[j] in t.allowedWindows.value;
      }
    }
  }

  /** Policy monotonicity: for every well-formed action, widening any boundary of a scope
      never lowers the decision in the order deny, ask, allow. */
  lemma WideningNeverLowers(s: Scope, t: Scope, a: Action, used: int, now: Instant)
    requires Wider(s, t) && ScopeFits(t) && ValidateAction(a).Ok?
    ensures Rank(Judge(s, a, used, now).decision) <= Rank(Judge(t, a, used, now).decision)
  {
    AllowExactly(s, a, used, now);
    AllowExactly(t, a, used, now);
    if Judge(s, a, used, now).decision.Allow? {
      WiderBounds(s, t, a);
    }
  }
}
