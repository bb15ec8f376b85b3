/** The relay's message queue: storing, batched retrieval, and acknowledgement. Rows are
    kept in the order of their insertion, which is the order of their storage times on a
    clock that does not go back. */
module RelayQueue {
  import opened Basics

  type Urn = nat
  type MessageId = nat
  type Instant = int

  const MAX_ENVELOPE_SIZE: nat := 0x10_0000
  const MAX_RETRIEVE_PAYLOAD: nat := 0x40_0000
  const MAX_FRAME_SIZE: nat := 0x100_0000
  const QUERY_LIMIT: nat := 500
  const RETENTION: int := 7 * 24 * 60 * 60

  /** `payload` stands for the encoded bytes, `size` for their number; `verifies` says
      that the signature and the field lengths are right. */
  datatype Envelope = Envelope(id: MessageId, sender: Urn, recipient: Urn, payload: nat, size: nat, verifies: bool)

  /** `decodes` is false for a corrupted record. */
  datatype Row = Row(id: MessageId, recipient: Urn, payload: nat, size: nat, decodes: bool,
                     expiry: Instant, readAt: Instant, storedAt: Instant)

  datatype StoreResult = Kept | Refused | Conflict

  predicate HasId(rows: seq<Row>, id: MessageId) {
    exists i :: 0 <= i < |rows| && rows[i].id == id
  }

  function ExpiryFor(asked: Instant, now: Instant): Instant {
    if asked == 0 || asked > now + RETENTION then now + RETENTION else asked
  }

  predicate Admissible(e: Envelope, recipient: Urn, asked: Instant, now: Instant) {
    && e.recipient == recipient && e.size <= MAX_ENVELOPE_SIZE && e.verifies
    && asked >= 0 && (asked == 0 || asked > now)
  }

  function RowFor(e: Envelope, recipient: Urn, asked: Instant, now: Instant): Row {
    Row(e.id, recipient, e.payload, e.size, true, ExpiryFor(asked, now), 0, now)
  }

  predicate Waiting(r: Row, recipient: Urn, now: Instant) {
    r.recipient == recipient && r.readAt == 0 && (r.expiry == 0 || r.expiry > now)
  }

  /** The recipient's unread, unexpired rows, in stored order. */
  function Pending(rows: seq<Row>, recipient: Urn, now: Instant): seq<Row>
    decreases |rows|
  {
    if rows == [] then []
    else
      var front, last := rows[..|rows|-1], rows[|rows|-1];
      Pending(front, recipient, now) + if Waiting(last, recipient, now) then [last] else []
  }

  function Take(s: seq<Row>, n: nat): seq<Row> {
    if |s| <= n then s else s[..n]
  }

  /** What one pass over the selected rows puts into a batch that already has `total`
      bytes. */
  function Batch(listing: seq<Row>, total: nat): seq<Row>
    decreases |listing|
  {
    if listing == [] then []
    else
      var r, rest := listing[0], listing[1..];
      if r.size > MAX_ENVELOPE_SIZE then Batch(rest, total)
      else if total + r.size > MAX_RETRIEVE_PAYLOAD then []
      else if !r.decodes then Batch(rest, total)
      else [r] + Batch(rest, total + r.size)
  }

  function Retrieved(rows: seq<Row>, recipient: Urn, now: Instant): seq<Row> {
    Batch(Take(Pending(rows, recipient, now), QUERY_LIMIT), 0)
  }

  function Mark(r: Row, recipient: Urn, ids: seq<MessageId>, now: Instant): Row {
    if r.recipient == recipient && r.readAt == 0 && r.id in ids then r.(readAt := now) else r
  }

  function Acked(rows: seq<Row>, recipient: Urn, ids: seq<MessageId>, now: Instant): seq<Row> {
    seq(|rows|, i requires 0 <= i < |rows| => Mark(rows[i], recipient, ids, now))
  }

  function Remaining(rows: seq<Row>, now: Instant): seq<Row>
    decreases |rows|
  {
    if rows == [] then []
    else
      var front, last := rows[..|rows|-1], rows[|rows|-1];
      Remaining(front, now) + if last.expiry > 0 && last.expiry < now then [] else [last]
  }

  function IdsOf(rows: seq<Row>): seq<MessageId> {
    seq(|rows|, i requires 0 <= i < |rows| => rows[i].id)
  }

  class MessageStore {
    var rows: seq<Row>

    constructor ()
      ensures rows == []
    {
      rows := [];
    }

    /** Store a verified envelope of an authorized sender; the same envelope again is a
        success that changes nothing, another one under its identifier a conflict. */
    method StoreEnvelope(recipient: Urn, e: Envelope, asked: Instant, authorized: bool, now: Instant) returns (result: StoreResult)
      modifies this
      ensures result.Refused? <==> !Admissible(e, recipient, asked, now) || !authorized
      ensures rows == Serve(old(rows), Stores(recipient, e, asked, authorized, now))
      ensures !result.Refused? && !HasId(old(rows), e.id) ==> result.Kept?
      ensures !result.Refused? && HasId(old(rows), e.id) ==>
        (result.Kept? <==> exists i :: 0 <= i < |rows| && rows[i].id == e.id && rows[i].recipient == recipient && rows[i].payload == e.payload
                                       && forall j :: 0 <= j < i ==> rows[j].id != e.id)
    {
      if e.recipient != recipient || e.size > MAX_ENVELOPE_SIZE || !e.verifies || !authorized {
        return Refused;
      }
      if asked < 0 || (asked != 0 && asked <= now) {
        return Refused;
      }
      var expiry := asked;
      if expiry == 0 || expiry > now + RETENTION {
        expiry := now + RETENTION;
      }
      var i := 0;
      while i < |rows|
        invariant i <= |rows| && forall j :: 0 <= j < i ==> rows[j].id != e.id
      {
        if rows[i].id == e.id {
          result := if rows[i].recipient == recipient && rows[i].payload == e.payload then Kept else Conflict;
          return;
        }
        i := i + 1;
      }
      rows := rows + [Row(e.id, recipient, e.payload, e.size, true, expiry, 0, now)];
      result := Kept;
    }

    method Select(recipient: Urn, now: Instant) returns (listing: seq<Row>)
      ensures listing == Take(Pending(rows, recipient, now), QUERY_LIMIT)
    {
      var all: seq<Row> := [];
      var i := 0;
      while i < |rows|
        invariant i <= |rows| && all == Pending(rows[..i], recipient, now)
      {
        assert rows[..i+1][..i] == rows[..i];
        if Waiting(rows[i], recipient, now) {
          all := all + [rows[i]];
        }
        i := i + 1;
      }
      assert rows[..i] == rows;
      listing := if |all| <= QUERY_LIMIT then all else all[..QUERY_LIMIT];
    }

    method Retrieve(recipient: Urn, now: Instant) returns (batch: seq<Row>)
      ensures batch == Retrieved(rows, recipient, now)
    {
      var listing := Select(recipient, now);
      batch := [];
      var total: nat := 0;
      var i := 0;
      while i < |listing|
        invariant i <= |listing|
        invariant batch + Batch(listing[i..], total) == Batch(listing, 0)
        decreases |listing| - i
      {
        var r := listing[i];
        assert listing[i..][1..] == listing[i+1..];
        if r.size <= MAX_ENVELOPE_SIZE {
          if total + r.size > MAX_RETRIEVE_PAYLOAD {
            break;
          }
          if r.decodes {
            batch := batch + [r];
            total := total + r.size;
          }
        }
        i := i + 1;
      }
    }

    method Ack(recipient: Urn, ids: seq<MessageId>, now: Instant) returns (deleted: Option<nat>)
      modifies this
      ensures deleted.None? <==> |ids| == 0 || |ids| > 1000
      ensures rows == Serve(old(rows), Acks(recipient, ids, now))
    {
      if |ids| == 0 || |ids| > 1000 {
        return None;
      }
      var count := 0;
      var i := 0;
      while i < |rows|
        invariant i <= |rows| == |old(rows)|
        invariant forall j :: 0 <= j < i ==> rows[j] == Mark(old(rows)[j], recipient, ids, now)
        invariant forall j :: i <= j < |rows| ==> rows[j] == old(rows)[j]
      {
        if rows[i].recipient == recipient && rows[i].readAt == 0 && rows[i].id in ids {
          rows := rows[i := rows[i].(readAt := now)];
          count := count + 1;
        }
        i := i + 1;
      }
      deleted := Some(count);
    }

    /** Rows whose time is over are removed, acknowledged or not. */
    method Cleanup(now: Instant)
      modifies this
      ensures rows == Serve(old(rows), Cleans(now))
    {
      var kept: seq<Row> := [];
      var i := 0;
      while i < |rows|
        invariant i <= |rows| && rows == old(rows) && kept == Remaining(rows[..i], now)
      {
        assert rows[..i+1][..i] == rows[..i];
        if !(rows[i].expiry > 0 && rows[i].expiry < now) {
          kept := kept + [rows[i]];
        }
        i := i + 1;
      }
      assert rows[..i] == rows;
      rows := kept;
    }

    /** The reply to a retrieval request: a second cut leaves room for the transport. */
    method HandleRetrieve(recipient: Urn, now: Instant) returns (reply: seq<Row>)
      ensures reply <= Retrieved(rows, recipient, now)
      ensures Stored(rows) ==> reply == Retrieved(rows, recipient, now)
    {
      var batch := Retrieve(recipient, now);
      if Stored(rows) {
        RetrievedPrefix(rows, recipient, now);
      }
      var size := 0;
      var count := 0;
      while count < |batch|
        invariant count <= |batch| && size == Total(batch[..count]) + 10 * count
      {
        assert batch[..count+1][..count] == batch[..count];
        var more := batch[count].size + 10;
        if size + more > MAX_FRAME_SIZE - 256 {
          if Stored(rows) {
            TotalMonotone(batch, count + 1);
          }
          break;
        }
        size := size + more;
        count := count + 1;
      }
      reply := batch[..count];
    }
  }

  // ---- What storing guarantees ----

  predicate Sound(r: Row) {
    r.decodes && r.size <= MAX_ENVELOPE_SIZE
  }

  /** Every row was written by `StoreEnvelope`. */
  predicate Stored(rows: seq<Row>) {
    && (forall i :: 0 <= i < |rows| ==> Sound(rows[i]))
    && (forall i, j :: 0 <= i < j < |rows| ==> rows[i].id != rows[j].id)
  }

  function Total(rows: seq<Row>): nat
    decreases |rows|
  {
    if rows == [] then 0 else Total(rows[..|rows|-1]) + rows[|rows|-1].size
  }

  lemma {:induction false} TotalMonotone(rows: seq<Row>, n: nat)
    requires n <= |rows|
    ensures Total(rows[..n]) <= Total(rows)
    decreases |rows|
  {
    if n < |rows| {
      TotalMonotone(rows[..|rows|-1], n);
      assert rows[..|rows|-1][..n] == rows[..n];
    } else {
      assert rows[..n] == rows;
    }
  }

  lemma {:induction false} PendingIn(rows: seq<Row>, recipient: Urn, now: Instant)
    ensures forall r :: r in Pending(rows, recipient, now) <==> r in rows && Waiting(r, recipient, now)
    decreases |rows|
  {
    if rows == [] {
    } else {
      PendingIn(rows[..|rows|-1], recipient, now);
      assert rows == rows[..|rows|-1] + [rows[|rows|-1]];
    }
  }

  /** Over sound rows a batch is a prefix of the selection: as long as the payload limit
      allows, and below it. */
  lemma {:induction false} BatchPrefix(listing: seq<Row>, total: nat)
    requires forall i :: 0 <= i < |listing| ==> Sound(listing[i])
    requires total <= MAX_RETRIEVE_PAYLOAD
    ensures var b := Batch(listing, total);
      && b <= listing && total + Total(b) <= MAX_RETRIEVE_PAYLOAD
      && (|b| < |listing| ==> total + Total(b) + listing[|b|].size > MAX_RETRIEVE_PAYLOAD)
    decreases |listing|
  {
    if listing == [] {
    } else {
      var r, rest := listing[0], listing[1..];
      if total + r.size <= MAX_RETRIEVE_PAYLOAD {
        BatchPrefix(rest, total + r.size);
        TotalCons(r, Batch(rest, total + r.size));
      }
    }
  }

  lemma {:induction false} TotalCons(r: Row, rows: seq<Row>)
    ensures Total([r] + rows) == r.size + Total(rows)
    decreases |rows|
  {
    if rows == [] {
      assert [r] + rows == [r] && [r][..0] == [];
    } else {
      TotalCons(r, rows[..|rows|-1]);
      assert ([r] + rows)[..|rows|] == [r] + rows[..|rows|-1];
    }
  }

  /** A batch is a prefix of what is pending, in stored order, below 4 MiB; it is the
      longest one that the limits on bytes and rows allow. In particular a mailbox with
      pending messages never yields an empty batch. */
  lemma RetrievedPrefix(rows: seq<Row>, recipient: Urn, now: Instant)
    requires Stored(rows)
    ensures var p, b := Pending(rows, recipient, now), Retrieved(rows, recipient, now);
      && b <= p && |b| <= QUERY_LIMIT && Total(b) <= MAX_RETRIEVE_PAYLOAD
      && (|b| < |p| ==> |b| == QUERY_LIMIT || Total(b) + p[|b|].size > MAX_RETRIEVE_PAYLOAD)
      && (p != [] ==> b != [])
  {
    var p := Pending(rows, recipient, now);
    PendingIn(rows, recipient, now);
    forall i | 0 <= i < |Take(p, QUERY_LIMIT)| ensures Sound(Take(p, QUERY_LIMIT)[i]) {
      assert p[i] in p;
    }
    BatchPrefix(Take(p, QUERY_LIMIT), 0);
  }

  // ---- Acknowledging ----

  lemma {:induction false} PendingAcked(rows: seq<Row>, recipient: Urn, ids: seq<MessageId>, now: Instant, later: Instant)
    requires now > 0
    ensures forall r :: r in Pending(Acked(rows, recipient, ids, now), recipient, later) <==>
      r in Pending(rows, recipient, later) && r.id !in ids
    ensures |Pending(Acked(rows, recipient, ids, now), recipient, later)| <= |Pending(rows, recipient, later)|
    ensures (exists r :: r in Pending(rows, recipient, later) && r.id in ids) ==>
      |Pending(Acked(rows, recipient, ids, now), recipient, later)| < |Pending(rows, recipient, later)|
    decreases |rows|
  {
    if rows == [] {
    } else {
      var front := rows[..|rows|-1];
      PendingAcked(front, recipient, ids, now, later);
      var acked := Acked(rows, recipient, ids, now);
      assert acked[..|rows|-1] == Acked(front, recipient, ids, now);
    }
  }

  lemma AckedStored(rows: seq<Row>, recipient: Urn, ids: seq<MessageId>, now: Instant)
    requires Stored(rows)
    ensures Stored(Acked(rows, recipient, ids, now))
  {
  }

  /** One round: retrieve a batch and acknowledge it. */
  function Round(rows: seq<Row>, recipient: Urn, now: Instant): seq<Row> {
    Acked(rows, recipient, IdsOf(Retrieved(rows, recipient, now)), now)
  }

  /** One round at each of the clock values. */
  function Rounds(rows: seq<Row>, recipient: Urn, times: seq<Instant>): seq<Row>
    decreases |times|
  {
    if times == [] then rows else Rounds(Round(rows, recipient, times[0]), recipient, times[1..])
  }

  /** Pending messages may expire, but none comes back as time goes on. */
  lemma {:induction false} PendingLater(rows: seq<Row>, recipient: Urn, now: Instant, later: Instant)
    requires now <= later
    ensures |Pending(rows, recipient, later)| <= |Pending(rows, recipient, now)|
    decreases |rows|
  {
    if rows == [] {
    } else {
      PendingLater(rows[..|rows|-1], recipient, now, later);
    }
  }

  lemma RoundProgress(rows: seq<Row>, recipient: Urn, now: Instant)
    requires Stored(rows) && now > 0
    ensures Stored(Round(rows, recipient, now))
    ensures var p := Pending(rows, recipient, now);
      p != [] ==> |Pending(Round(rows, recipient, now), recipient, now)| < |p|
    ensures Pending(rows, recipient, now) == [] ==> Pending(Round(rows, recipient, now), recipient, now) == []
  {
    var batch := Retrieved(rows, recipient, now);
    AckedStored(rows, recipient, IdsOf(batch), now);
    RetrievedPrefix(rows, recipient, now);
    PendingAcked(rows, recipient, IdsOf(batch), now, now);
    if batch != [] {
      assert IdsOf(batch)[0] == batch[0].id && batch[0] in Pending(rows, recipient, now);
    }
  }

  /** Clock values that do not go back, from `start` to `end`. */
  predicate Clocked(start: Instant, times: seq<Instant>, end: Instant)
    decreases |times|
  {
    if times == [] then start <= end else start <= times[0] && Clocked(times[0], times[1..], end)
  }

  /** Repeating retrieve and acknowledge empties the mailbox, at any clock that does not go
      back, in at most one round per pending message. */
  lemma {:induction false} DrainEmpties(rows: seq<Row>, recipient: Urn, start: Instant, times: seq<Instant>, end: Instant)
    requires Stored(rows) && start > 0 && Clocked(start, times, end) && |times| >= |Pending(rows, recipient, start)|
    ensures Pending(Rounds(rows, recipient, times), recipient, end) == []
    decreases |times|
  {
    if times == [] {
      PendingLater(rows, recipient, start, end);
    } else {
      PendingLater(rows, recipient, start, times[0]);
      RoundProgress(rows, recipient, times[0]);
      DrainEmpties(Round(rows, recipient, times[0]), recipient, times[0], times[1..], end);
    }
  }

  /** The rounds of the drain are requests that the store serves. */
  lemma RoundServed(rows: seq<Row>, recipient: Urn, now: Instant)
    requires Stored(rows)
    ensures var ids := IdsOf(Retrieved(rows, recipient, now));
      if ids == [] then Round(rows, recipient, now) == rows
      else Round(rows, recipient, now) == Serve(rows, Acks(recipient, ids, now))
  {
    RetrievedPrefix(rows, recipient, now);
    if IdsOf(Retrieved(rows, recipient, now)) == [] {
      assert Round(rows, recipient, now) == rows;
    }
  }

  // ---- Acknowledged messages ----

  /** The message was acknowledged, and its row is still kept. */
  predicate Acknowledged(rows: seq<Row>, id: MessageId) {
    HasId(rows, id) && forall i :: 0 <= i < |rows| && rows[i].id == id ==> rows[i].readAt != 0
  }

  datatype Request =
    | Stores(recipient: Urn, envelope: Envelope, asked: Instant, authorized: bool, now: Instant)
    | Acks(recipient: Urn, ids: seq<MessageId>, now: Instant)
    | Cleans(now: Instant)

  function Serve(rows: seq<Row>, q: Request): seq<Row> {
    match q
    case Stores(recipient, e, asked, authorized, now) =>
      if Admissible(e, recipient, asked, now) && authorized && !HasId(rows, e.id) then rows + [RowFor(e, recipient, asked, now)]
      else rows
    case Acks(recipient, ids, now) => if |ids| == 0 || |ids| > 1000 then rows else Acked(rows, recipient, ids, now)
    case Cleans(now) => Remaining(rows, now)
  }

  lemma {:induction false} RemainingIn(rows: seq<Row>, now: Instant)
    ensures forall r :: r in Remaining(rows, now) <==> r in rows && !(r.expiry > 0 && r.expiry < now)
    decreases |rows|
  {
    if rows == [] {
    } else {
      RemainingIn(rows[..|rows|-1], now);
      assert rows == rows[..|rows|-1] + [rows[|rows|-1]];
    }
  }

  lemma {:induction false} RemainingStored(rows: seq<Row>, now: Instant)
    requires Stored(rows)
    ensures Stored(Remaining(rows, now))
    decreases |rows|
  {
    if rows == [] {
    } else {
      var front := rows[..|rows|-1];
      RemainingStored(front, now);
      RemainingIn(front, now);
      var kept := Remaining(front, now);
      forall i | 0 <= i < |kept| ensures kept[i].id != rows[|rows|-1].id {
        assert kept[i] in front;
      }
    }
  }

  lemma ServeStored(rows: seq<Row>, q: Request)
    requires Stored(rows)
    ensures Stored(Serve(rows, q))
  {
    match q
    case Stores(_, e, _, _, _) =>
      if !HasId(rows, e.id) {
        assert forall i :: 0 <= i < |rows| ==> rows[i].id != e.id;
      }
    case Acks(recipient, ids, now) => AckedStored(rows, recipient, ids, now);
    case Cleans(now) => RemainingStored(rows, now);
  }

  /** An acknowledged message is never retrieved. */
  lemma AcknowledgedHidden(rows: seq<Row>, id: MessageId, recipient: Urn, now: Instant)
    requires Stored(rows) && Acknowledged(rows, id)
    ensures forall r :: r in Retrieved(rows, recipient, now) ==> r.id != id
  {
    RetrievedPrefix(rows, recipient, now);
    PendingIn(rows, recipient, now);
    forall r | r in Retrieved(rows, recipient, now) ensures r.id != id {
      assert r in Pending(rows, recipient, now);
    }
  }

  /** Storing an acknowledged message again does not bring it back. A request ends its
      acknowledged state if and only if it removes the expired row. */
  lemma AcknowledgedStays(rows: seq<Row>, id: MessageId, q: Request)
    requires Stored(rows) && Acknowledged(rows, id) && (q.Acks? ==> q.now > 0)
    ensures Acknowledged(Serve(rows, q), id) <==>
      !(q.Cleans? && exists r :: r in rows && r.id == id && r.expiry > 0 && r.expiry < q.now)
    ensures !Acknowledged(Serve(rows, q), id) ==> !HasId(Serve(rows, q), id)
  {
    var i :| 0 <= i < |rows| && rows[i].id == id;
    match q
    case Stores(recipient, e, asked, authorized, now) =>
      var next := Serve(rows, q);
      assert next[i] == rows[i];
    case Acks(recipient, ids, now) =>
      var next := Serve(rows, q);
      assert next[i].id == id;
    case Cleans(now) =>
      RemainingIn(rows, now);
      var next := Remaining(rows, now);
      if rows[i] in next {
        var j :| 0 <= j < |next| && next[j] == rows[i];
        assert HasId(next, id);
        forall k | 0 <= k < |next| && next[k].id == id ensures next[k].readAt != 0 {
          assert next[k] in next && next[k] in rows;
        }
      } else {
        forall k | 0 <= k < |next| ensures next[k].id != id {
          assert next[k] in next && next[k] in rows;
        }
      }
  }

  // ---- Whole histories of the store ----

  /** The rows after serving the requests one after the other. */
  function ServeAll(rows: seq<Row>, requests: seq<Request>): seq<Row>
    decreases |requests|
  {
    if requests == [] then rows else ServeAll(Serve(rows, requests[0]), requests[1..])
  }

  lemma {:induction false} ServedStored(rows: seq<Row>, requests: seq<Request>)
    requires Stored(rows)
    ensures Stored(ServeAll(rows, requests))
    decreases |requests|
  {
    if requests == [] {
    } else {
      ServeStored(rows, requests[0]);
      ServedStored(Serve(rows, requests[0]), requests[1..]);
    }
  }

  /** The store is empty of `recipient`'s messages after a drain, whatever requests it has
      served since it was created. */
  lemma DrainsAnyStore(requests: seq<Request>, recipient: Urn, start: Instant, times: seq<Instant>, end: Instant)
    requires start > 0 && Clocked(start, times, end)
    requires |times| >= |Pending(ServeAll([], requests), recipient, start)|
    ensures Pending(Rounds(ServeAll([], requests), recipient, times), recipient, end) == []
  {
    ServedStored([], requests);
    DrainEmpties(ServeAll([], requests), recipient, start, times, end);
  }

  /** The row keeps the envelope of a request that stored it: verified and within the size
      limit, from an authorized sender, for its own recipient; it expires after the week
      that the relay keeps a message, or earlier if the sender asked for it. */
  predicate Genuine(q: Request, r: Row) {
    && q.Stores? && q.authorized && q.envelope.verifies && q.envelope.size <= 0x10_0000
    && q.envelope.recipient == q.recipient == r.recipient
    && r.id == q.envelope.id && r.payload == q.envelope.payload && r.size == q.envelope.size && r.decodes
    && r.storedAt == q.now < r.expiry
    && r.expiry == if 0 < q.asked <= q.now + 604800 then q.asked else q.now + 604800
  }

  ghost predicate FromRequest(requests: seq<Request>, r: Row) {
    exists i :: 0 <= i < |requests| && Genuine(requests[i], r)
  }

  lemma ServedGenuine(rows: seq<Row>, q: Request, r: Row)
    requires r in Serve(rows, q)
    ensures (exists was :: was in rows && r == was.(readAt := r.readAt)) || Genuine(q, r)
  {
    match q
    case Stores(recipient, e, asked, authorized, now) =>
    case Acks(recipient, ids, now) =>
      if |ids| == 0 || |ids| > 1000 {
      } else {
        var i :| 0 <= i < |rows| && Acked(rows, recipient, ids, now)[i] == r;
        assert rows[i] in rows && Mark(rows[i], recipient, ids, now) == r;
      }
    case Cleans(now) => RemainingIn(rows, now);
  }

  /** Whatever requests a store has served since it was created, each of its rows keeps a
      verified envelope that an authorized request stored, unchanged but for its being
      read. */
  lemma {:induction false} StoredGenuine(requests: seq<Request>, r: Row)
    requires r in ServeAll([], requests)
    ensures FromRequest(requests, r)
    decreases |requests|
  {
    var n := |requests| - 1;
    ServeAllLast([], requests);
    ServedGenuine(ServeAll([], requests[..n]), requests[n], r);
    if was :| was in ServeAll([], requests[..n]) && r == was.(readAt := r.readAt) {
      StoredGenuine(requests[..n], was);
      var i :| 0 <= i < n && Genuine(requests[..n][i], was);
      assert Genuine(requests[i], r);
    }
  }

  lemma {:induction false} ServeAllLast(rows: seq<Row>, requests: seq<Request>)
    requires requests != []
    ensures ServeAll(rows, requests) == Serve(ServeAll(rows, requests[..|requests|-1]), requests[|requests|-1])
    decreases |requests|
  {
    if |requests| == 1 {
      assert ServeAll(Serve(rows, requests[0]), requests[1..]) == Serve(rows, requests[0]);
    } else {
      ServeAllLast(Serve(rows, requests[0]), requests[1..]);
      assert requests[1..][..|requests|-2] == requests[..|requests|-1][1..];
    }
  }

  /** Only mail for the recipient, unread and not expired, is ever handed out; and every such
      row is pending. */
  lemma RetrievedOnly(rows: seq<Row>, recipient: Urn, now: Instant)
    requires Stored(rows)
    ensures forall r :: r in Pending(rows, recipient, now) <==>
      r in rows && r.recipient == recipient && r.readAt == 0 && (r.expiry == 0 || now < r.expiry)
    ensures forall r :: r in Retrieved(rows, recipient, now) ==>
      r in rows && r.recipient == recipient && r.readAt == 0 && (r.expiry == 0 || now < r.expiry)
  {
    PendingIn(rows, recipient, now);
    RetrievedPrefix(rows, recipient, now);
  }

  /** The recipient of the row acknowledged it, at the time that is noted. */
  predicate Acknowledges(q: Request, r: Row) {
    q.Acks? && q.recipient == r.recipient && r.id in q.ids && 1 <= |q.ids| <= 1000 && q.now == r.readAt
  }

  ghost predicate ReadBy(requests: seq<Request>, r: Row) {
    exists i :: 0 <= i < |requests| && Acknowledges(requests[i], r)
  }

  lemma ServedRead(rows: seq<Row>, q: Request, r: Row)
    requires r in Serve(rows, q) && r.readAt != 0
    ensures r in rows || Acknowledges(q, r)
  {
    match q
    case Stores(_, _, _, _, _) =>
    case Acks(recipient, ids, now) =>
      if |ids| == 0 || |ids| > 1000 {
      } else {
        var i :| 0 <= i < |rows| && Acked(rows, recipient, ids, now)[i] == r;
        assert rows[i] in rows && Mark(rows[i], recipient, ids, now) == r;
      }
    case Cleans(now) => RemainingIn(rows, now);
  }

  /** Whatever requests a store has served, a message counts as read only because its own
      recipient acknowledged it. */
  lemma {:induction false} ReadByRecipient(requests: seq<Request>, r: Row)
    requires r in ServeAll([], requests) && r.readAt != 0
    ensures ReadBy(requests, r)
    decreases |requests|
  {
    var n := |requests| - 1;
    ServeAllLast([], requests);
    ServedRead(ServeAll([], requests[..n]), requests[n], r);
    if r in ServeAll([], requests[..n]) {
      ReadByRecipient(requests[..n], r);
      var i :| 0 <= i < n && Acknowledges(requests[..n][i], r);
      assert Acknowledges(requests[i], r);
    }
  }

  /** The message's row expires at `expiry`. */
  predicate ExpiresAt(rows: seq<Row>, id: MessageId, expiry: Instant) {
    forall i :: 0 <= i < |rows| && rows[i].id == id ==> rows[i].expiry == expiry
  }

  predicate Removes(q: Request, expiry: Instant) {
    q.Cleans? && expiry > 0 && expiry < q.now
  }

  lemma ExpiryKept(rows: seq<Row>, id: MessageId, expiry: Instant, q: Request)
    requires Stored(rows) && HasId(rows, id) && ExpiresAt(rows, id, expiry)
    ensures ExpiresAt(Serve(rows, q), id, expiry)
  {
    match q
    case Cleans(now) =>
      RemainingIn(rows, now);
      var next := Remaining(rows, now);
      forall k | 0 <= k < |next| && next[k].id == id ensures next[k].expiry == expiry {
        assert next[k] in next && next[k] in rows;
      }
    case _ =>
  }

  /** Over whole histories: a message that is acknowledged once stays acknowledged, and is
      retrieved by nobody, through every request (storing it again included) as long as no
      cleanup comes after its expiry; the first that does removes it. */
  lemma {:induction false} AcknowledgedUntilRemoved(rows: seq<Row>, id: MessageId, expiry: Instant, requests: seq<Request>)
    requires Stored(rows) && Acknowledged(rows, id) && ExpiresAt(rows, id, expiry)
    requires forall i :: 0 <= i < |requests| && requests[i].Acks? ==> requests[i].now > 0
    requires forall i :: 0 <= i < |requests| - 1 ==> !Removes(requests[i], expiry)
    ensures var last := ServeAll(rows, requests);
      if requests != [] && Removes(requests[|requests|-1], expiry) then !HasId(last, id)
      else Acknowledged(last, id)
           && forall recipient, now, r :: r in Retrieved(last, recipient, now) ==> r.id != id
    decreases |requests|
  {
    if requests == [] {
      forall recipient, now ensures forall r :: r in Retrieved(rows, recipient, now) ==> r.id != id {
        AcknowledgedHidden(rows, id, recipient, now);
      }
    } else {
      var q := requests[0];
      ServeStored(rows, q);
      ExpiryKept(rows, id, expiry, q);
      AcknowledgedStays(rows, id, q);
      RemovedExactly(rows, id, expiry, q);
      if |requests| == 1 {
        assert ServeAll(rows, requests) == Serve(rows, q);
      }
      if !Removes(q, expiry) {
        AcknowledgedUntilRemoved(Serve(rows, q), id, expiry, requests[1..]);
      }
    }
  }

  lemma RemovedExactly(rows: seq<Row>, id: MessageId, expiry: Instant, q: Request)
    requires HasId(rows, id) && ExpiresAt(rows, id, expiry)
    ensures Removes(q, expiry) <==> q.Cleans? && exists r :: r in rows && r.id == id && r.expiry > 0 && r.expiry < q.now
  {
    var i :| 0 <= i < |rows| && rows[i].id == id;
    assert rows[i] in rows;
  }

  // ---- Draining while the store is in use ----

  /** A turn of the store: the recipient retrieves a batch and acknowledges it, or any
      request of anybody is served. */
  datatype Turn = Drains(now: Instant) | Asks(request: Request)

  /** The rows that were there at the start, and those stored since. */
  datatype Parts = Parts(first: seq<Row>, later: seq<Row>)

  function RowsOf(p: Parts): seq<Row> {
    p.first + p.later
  }

  function TakeTurn(rows: seq<Row>, recipient: Urn, turn: Turn): seq<Row> {
    match turn
    case Drains(now) => Round(rows, recipient, now)
    case Asks(q) => Serve(rows, q)
  }

  /** The same turn, part by part. */
  function Turned(p: Parts, recipient: Urn, turn: Turn): Parts {
    match turn
    case Drains(now) =>
      var ids := IdsOf(Retrieved(RowsOf(p), recipient, now));
      Parts(Acked(p.first, recipient, ids, now), Acked(p.later, recipient, ids, now))
    case Asks(Stores(to, e, asked, authorized, now)) =>
      if Admissible(e, to, asked, now) && authorized && !HasId(RowsOf(p), e.id) then
        Parts(p.first, p.later + [RowFor(e, to, asked, now)])
      else p
    case Asks(Acks(to, ids, now)) =>
      if |ids| == 0 || |ids| > 1000 then p else Parts(Acked(p.first, to, ids, now), Acked(p.later, to, ids, now))
    case Asks(Cleans(now)) => Parts(Remaining(p.first, now), Remaining(p.later, now))
  }

  lemma {:induction false} RemainingAppended(a: seq<Row>, b: seq<Row>, now: Instant)
    ensures Remaining(a + b, now) == Remaining(a, now) + Remaining(b, now)
    decreases |b|
  {
    if b == [] {
      assert a + b == a;
    } else {
      assert (a + b)[..|a + b|-1] == a + b[..|b|-1];
      RemainingAppended(a, b[..|b|-1], now);
    }
  }

  lemma {:induction false} PendingAppended(a: seq<Row>, b: seq<Row>, recipient: Urn, now: Instant)
    ensures Pending(a + b, recipient, now) == Pending(a, recipient, now) + Pending(b, recipient, now)
    decreases |b|
  {
    if b == [] {
      assert a + b == a;
    } else {
      assert (a + b)[..|a + b|-1] == a + b[..|b|-1];
      PendingAppended(a, b[..|b|-1], recipient, now);
    }
  }

  lemma TurnedIs(p: Parts, recipient: Urn, turn: Turn)
    ensures RowsOf(Turned(p, recipient, turn)) == TakeTurn(RowsOf(p), recipient, turn)
  {
    match turn
    case Asks(Cleans(now)) => RemainingAppended(p.first, p.later, now);
    case _ =>
  }

  lemma TurnStored(rows: seq<Row>, recipient: Urn, turn: Turn)
    requires Stored(rows)
    ensures Stored(TakeTurn(rows, recipient, turn))
  {
    match turn
    case Drains(now) => AckedStored(rows, recipient, IdsOf(Retrieved(rows, recipient, now)), now);
    case Asks(q) => ServeStored(rows, q);
  }

  /** Acknowledging makes nothing pending. */
  lemma {:induction false} AckedLess(rows: seq<Row>, recipient: Urn, to: Urn, ids: seq<MessageId>, at: Instant, now: Instant)
    ensures |Pending(Acked(rows, to, ids, at), recipient, now)| <= |Pending(rows, recipient, now)|
    decreases |rows|
  {
    if rows == [] {
    } else {
      AckedLess(rows[..|rows|-1], recipient, to, ids, at, now);
      assert Acked(rows, to, ids, at)[..|rows|-1] == Acked(rows[..|rows|-1], to, ids, at);
    }
  }

  lemma {:induction false} RemainingLess(rows: seq<Row>, recipient: Urn, at: Instant, now: Instant)
    ensures |Pending(Remaining(rows, at), recipient, now)| <= |Pending(rows, recipient, now)|
    decreases |rows|
  {
    if rows == [] {
    } else {
      var last := rows[|rows|-1];
      RemainingLess(rows[..|rows|-1], recipient, at, now);
      var front := Remaining(rows[..|rows|-1], at);
      PendingAppended(front, [last], recipient, now);
      assert [last][..0] == [] && [last][|[last]|-1] == last;
      assert Pending([last], recipient, now) == Pending([], recipient, now) + (if Waiting(last, recipient, now) then [last] else []);
      if Remaining(rows, at) == front {
      } else {
        assert Remaining(rows, at) == front + [last];
      }
    }
  }

  /** No turn makes a message of the first part pending again, and a round acknowledges at
      least one while there is any: they come first in every batch. */
  lemma TurnLess(p: Parts, recipient: Urn, turn: Turn, now: Instant)
    requires Stored(RowsOf(p)) && (turn.Drains? ==> turn.now == now && now > 0)
    ensures var left, after := Pending(p.first, recipient, now), Pending(Turned(p, recipient, turn).first, recipient, now);
      |after| <= |left| && (turn.Drains? && left != [] ==> |after| < |left|)
  {
    match turn
    case Drains(_) =>
      var batch := Retrieved(RowsOf(p), recipient, now);
      RetrievedPrefix(RowsOf(p), recipient, now);
      PendingAppended(p.first, p.later, recipient, now);
      PendingAcked(p.first, recipient, IdsOf(batch), now, now);
      if Pending(p.first, recipient, now) != [] {
        assert batch[0] == Pending(p.first, recipient, now)[0] && IdsOf(batch)[0] == batch[0].id;
      }
    case Asks(Acks(to, ids, at)) => AckedLess(p.first, recipient, to, ids, at, now);
    case Asks(Cleans(at)) => RemainingLess(p.first, recipient, at, now);
    case Asks(Stores(_, _, _, _, _)) =>
  }

  function TurnedAll(p: Parts, recipient: Urn, turns: seq<Turn>): Parts
    decreases |turns|
  {
    if turns == [] then p else TurnedAll(Turned(p, recipient, turns[0]), recipient, turns[1..])
  }

  function TakeTurns(rows: seq<Row>, recipient: Urn, turns: seq<Turn>): seq<Row>
    decreases |turns|
  {
    if turns == [] then rows else TakeTurns(TakeTurn(rows, recipient, turns[0]), recipient, turns[1..])
  }

  function RoundsIn(turns: seq<Turn>): nat
    decreases |turns|
  {
    if turns == [] then 0 else (if turns[0].Drains? then 1 else 0) + RoundsIn(turns[1..])
  }

  /** The rounds come at clock values that do not go back, from `start` to `end`. */
  predicate RoundsClocked(start: Instant, turns: seq<Turn>, end: Instant)
    decreases |turns|
  {
    if turns == [] then start <= end
    else if turns[0].Drains? then start <= turns[0].now && RoundsClocked(turns[0].now, turns[1..], end)
    else RoundsClocked(start, turns[1..], end)
  }

  lemma {:induction false} FirstDrains(p: Parts, recipient: Urn, start: Instant, turns: seq<Turn>, end: Instant)
    requires Stored(RowsOf(p)) && start > 0 && RoundsClocked(start, turns, end)
    requires RoundsIn(turns) >= |Pending(p.first, recipient, start)|
    ensures Pending(TurnedAll(p, recipient, turns).first, recipient, end) == []
    ensures RowsOf(TurnedAll(p, recipient, turns)) == TakeTurns(RowsOf(p), recipient, turns)
    decreases |turns|
  {
    if turns == [] {
      PendingLater(p.first, recipient, start, end);
    } else {
      var now := if turns[0].Drains? then turns[0].now else start;
      PendingLater(p.first, recipient, start, now);
      TurnLess(p, recipient, turns[0], now);
      TurnedIs(p, recipient, turns[0]);
      TurnStored(RowsOf(p), recipient, turns[0]);
      FirstDrains(Turned(p, recipient, turns[0]), recipient, now, turns[1..], end);
    }
  }

  /** Whatever is stored, acknowledged and cleaned up meanwhile: after as many rounds as
      messages were pending at the start, none of those is pending any more. */
  lemma DrainsInUse(requests: seq<Request>, recipient: Urn, start: Instant, turns: seq<Turn>, end: Instant)
    returns (left: Parts)
    requires start > 0 && RoundsClocked(start, turns, end)
    requires RoundsIn(turns) >= |Pending(ServeAll([], requests), recipient, start)|
    ensures left == TurnedAll(Parts(ServeAll([], requests), []), recipient, turns)
    ensures RowsOf(left) == TakeTurns(ServeAll([], requests), recipient, turns)
    ensures Pending(left.first, recipient, end) == []
  {
    var rows := ServeAll([], requests);
    ServedStored([], requests);
    assert RowsOf(Parts(rows, [])) == rows;
    FirstDrains(Parts(rows, []), recipient, start, turns, end);
    left := TurnedAll(Parts(rows, []), recipient, turns);
  }

  const SAMPLE := Envelope(1, 2, 3, 4, 5, true)
  const SAMPLE_READ := RowFor(SAMPLE, 3, 100, 10).(readAt := 20)

  lemma SampleAcked()
    ensures Acked([RowFor(SAMPLE, 3, 100, 10)], 3, [1], 20) == [SAMPLE_READ]
  {
    assert Mark(RowFor(SAMPLE, 3, 100, 10), 3, [1], 20) == SAMPLE_READ;
  }

  lemma SampleHidden()
    ensures Retrieved(Serve([SAMPLE_READ], Stores(3, SAMPLE, 0, true, 30)), 3, 30) == []
  {
    assert [SAMPLE_READ][0].id == 1 && [SAMPLE_READ][..0] == [];
    assert Serve([SAMPLE_READ], Stores(3, SAMPLE, 0, true, 30)) == [SAMPLE_READ];
    assert Pending([SAMPLE_READ], 3, 30) == Pending([], 3, 30) + [];
  }

  lemma SampleRemoved()
    ensures Serve([SAMPLE_READ], Cleans(101)) == []
  {
    assert [SAMPLE_READ][..0] == [];
    assert Remaining([SAMPLE_READ], 101) == Remaining([], 101) + [];
  }

  lemma OneRetrieved(r: Row, recipient: Urn, now: Instant)
    requires Sound(r) && Waiting(r, recipient, now)
    ensures Retrieved([r], recipient, now) == [r]
  {
    assert [r][..0] == [] && [r][1..] == [];
    assert Pending([r], recipient, now) == Pending([], recipient, now) + [r] == [r];
    assert Batch([r], 0) == [r] + Batch([], r.size) == [r];
  }

  /** Once the expired row is gone, the same envelope can be stored and retrieved anew. */
  lemma ReturnsAfterCleanup()
    ensures var rows := Acked([RowFor(SAMPLE, 3, 100, 10)], 3, [1], 20);
      && Acknowledged(rows, 1)
      && Retrieved(Serve(rows, Stores(3, SAMPLE, 0, true, 30)), 3, 30) == []
      && Retrieved(Serve(Serve(rows, Cleans(101)), Stores(3, SAMPLE, 0, true, 101)), 3, 101) == [RowFor(SAMPLE, 3, 0, 101)]
  {
    SampleAcked();
    assert [SAMPLE_READ][0].id == 1;
    SampleHidden();
    SampleRemoved();
    assert Serve([], Stores(3, SAMPLE, 0, true, 101)) == [RowFor(SAMPLE, 3, 0, 101)];
    OneRetrieved(RowFor(SAMPLE, 3, 0, 101), 3, 101);
  }
}
