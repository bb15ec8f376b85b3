/** The owner's attention feed: every item in its latest revision, read in pages by a
    cursor while it keeps changing. */
module AttentionFeed {
  import opened Basics

  type Owner = nat
  type Instant = int

  const MAX_CURSOR: nat := 9007199254740991
  const MAX_PAGE: nat := 100

  /** What an item is about: a turn of a conversation, or anything else. */
  datatype Source = OfTurn(turnId: nat) | OfOther(tag: nat)

  datatype ItemKey = ItemKey(owner: Owner, source: Source)

  /** `content` stands for every field but the revision and the two times. */
  datatype Item = Item(key: ItemKey, content: nat, revision: nat, createdAt: Instant, updatedAt: Instant)

  datatype TurnStatus = Submitted | Running | Completed | Failed | Interrupted

  predicate Terminal(s: TurnStatus) {
    s.Completed? || s.Failed? || s.Interrupted?
  }

  datatype Turn = Turn(owner: Owner, turnId: nat, conversation: nat, status: TurnStatus, createdAt: Instant, updatedAt: Instant)

  datatype State = State(items: map<ItemKey, Item>, counters: map<Owner, nat>, turns: map<nat, Turn>)

  function Counter(s: State, owner: Owner): nat {
    if owner in s.counters then s.counters[owner] else 0
  }

  // ---- Writing ----

  /** Write an item: the same content again changes nothing, other content takes the
      owner's next revision; `None` when the revisions are exhausted. */
  function Put(s: State, key: ItemKey, content: nat, created: Instant, updated: Instant): Option<State> {
    if key in s.items && s.items[key].content == content then Some(s)
    else if Counter(s, key.owner) + 1 > MAX_CURSOR then None
    else
      var revision := Counter(s, key.owner) + 1;
      var first := if key in s.items then s.items[key].createdAt else created;
      Some(s.(items := s.items[key := Item(key, content, revision, first, updated)],
              counters := s.counters[key.owner := revision]))
  }

  /** The content of the notice of a turn depends on its status and conversation only. */
  function Notice(t: Turn): nat {
    8 * t.conversation + (match t.status case Submitted => 0 case Running => 1 case Completed => 2 case Failed => 3 case Interrupted => 4)
  }

  function TurnKey(t: Turn): ItemKey {
    ItemKey(t.owner, OfTurn(t.turnId))
  }

  /** Record a durable turn once; a finished turn takes no later progress. */
  function RecordTurn(s: State, t: Turn): Option<State> {
    if t.turnId in s.turns && (s.turns[t.turnId] == t || Terminal(s.turns[t.turnId].status)) then Some(s)
    else Put(s.(turns := s.turns[t.turnId := t]), TurnKey(t), Notice(t), t.createdAt, t.updatedAt)
  }

  // ---- What the feed keeps ----

  predicate ItemFits(s: State, key: ItemKey)
    requires key in s.items
  {
    s.items[key].key == key && 1 <= s.items[key].revision <= Counter(s, key.owner)
  }

  /** Revisions of one owner are unique and bounded by the owner's counter. */
  ghost predicate Fits(s: State) {
    && (forall k :: k in s.items ==> ItemFits(s, k))
    && (forall j, k :: j in s.items && k in s.items && j.owner == k.owner && s.items[j].revision == s.items[k].revision ==> j == k)
  }

  lemma PutFits(s: State, key: ItemKey, content: nat, created: Instant, updated: Instant)
    requires Fits(s) && Put(s, key, content, created, updated).Some?
    ensures Fits(Put(s, key, content, created, updated).value)
  {
    var t := Put(s, key, content, created, updated).value;
    forall k | k in t.items ensures ItemFits(t, k) {
      assert k in s.items ==> ItemFits(s, k);
    }
    forall j, k | j in t.items && k in t.items && j.owner == k.owner && t.items[j].revision == t.items[k].revision
      ensures j == k
    {
      assert j in s.items ==> ItemFits(s, j);
      assert k in s.items ==> ItemFits(s, k);
    }
  }

  // ---- Reading ----

  predicate Pending(s: State, owner: Owner, after: nat, key: ItemKey) {
    key in s.items && key.owner == owner && s.items[key].revision > after
  }

  predicate Least(s: State, owner: Owner, after: nat, key: ItemKey) {
    Pending(s, owner, after, key)
    && forall k :: k in s.items && Pending(s, owner, after, k) ==> s.items[key].revision <= s.items[k].revision
  }

  ghost predicate SomePending(s: State, owner: Owner, after: nat) {
    exists k :: Pending(s, owner, after, k)
  }

  /** Among finitely many pending items one has the least revision. */
  lemma {:induction false} LeastExists(s: State, keys: set<ItemKey>) returns (key: ItemKey)
    requires keys != {} && keys <= s.items.Keys
    ensures key in keys && forall k :: k in keys ==> s.items[key].revision <= s.items[k].revision
    decreases |keys|
  {
    var k :| k in keys;
    if keys == {k} {
      key := k;
    } else {
      assert keys - {k} != {} by {
        assert keys == (keys - {k}) + {k};
      }
      var rest := LeastExists(s, keys - {k});
      key := if s.items[rest].revision < s.items[k].revision then rest else k;
      assert forall j :: j in keys ==> j == k || j in keys - {k};
    }
  }

  lemma PendingLeast(s: State, owner: Owner, after: nat)
    requires SomePending(s, owner, after)
    ensures exists key :: Least(s, owner, after, key)
  {
    var keys := set k | k in s.items && Pending(s, owner, after, k);
    var some :| Pending(s, owner, after, some);
    assert some in keys;
    var key := LeastExists(s, keys);
    assert Least(s, owner, after, key);
  }

  /** The owner's items past a cursor, by revision. */
  ghost function Listing(s: State, owner: Owner, after: nat): seq<Item>
    requires Fits(s)
    decreases Counter(s, owner) - after
  {
    if !SomePending(s, owner, after) then []
    else
      ghost var key := NextKey(s, owner, after);
      [s.items[key]] + Listing(s, owner, s.items[key].revision)
  }

  ghost function NextKey(s: State, owner: Owner, after: nat): (key: ItemKey)
    requires Fits(s) && SomePending(s, owner, after)
    ensures Least(s, owner, after, key) && after < s.items[key].revision <= Counter(s, owner)
  {
    PendingLeast(s, owner, after);
    var key :| Least(s, owner, after, key);
    assert ItemFits(s, key);
    key
  }

  /** The items of `r` are pending ones in their latest revision, in increasing order of revision. */
  ghost predicate Ascends(s: State, owner: Owner, after: nat, r: seq<Item>) {
    && (forall i :: 0 <= i < |r| ==> Pending(s, owner, after, r[i].key) && s.items[r[i].key] == r[i])
    && (forall i, j :: 0 <= i < j < |r| ==> r[i].revision < r[j].revision)
  }

  lemma AscendsCons(s: State, owner: Owner, after: nat, key: ItemKey, rest: seq<Item>)
    requires Pending(s, owner, after, key) && ItemFits(s, key) && Ascends(s, owner, s.items[key].revision, rest)
    ensures Ascends(s, owner, after, [s.items[key]] + rest)
  {
    var next, r := s.items[key].revision, [s.items[key]] + rest;
    forall i | 0 <= i < |r| ensures Pending(s, owner, after, r[i].key) && s.items[r[i].key] == r[i] {
      assert i > 0 ==> r[i] == rest[i-1] && Pending(s, owner, next, rest[i-1].key);
    }
    forall i, j | 0 <= i < j < |r| ensures r[i].revision < r[j].revision {
      assert r[j] == rest[j-1] && Pending(s, owner, next, rest[j-1].key);
      assert i > 0 ==> r[i] == rest[i-1];
    }
  }

  lemma {:induction false} ListingItems(s: State, owner: Owner, after: nat)
    requires Fits(s)
    ensures Ascends(s, owner, after, Listing(s, owner, after))
    decreases Counter(s, owner) - after
  {
    if SomePending(s, owner, after) {
      var key := NextKey(s, owner, after);
      ListingItems(s, owner, s.items[key].revision);
      AscendsCons(s, owner, after, key, Listing(s, owner, s.items[key].revision));
    }
  }

  lemma {:induction false} ListingAll(s: State, owner: Owner, after: nat, k: ItemKey)
    requires Fits(s) && Pending(s, owner, after, k)
    ensures s.items[k] in Listing(s, owner, after)
    decreases Counter(s, owner) - after
  {
    assert SomePending(s, owner, after);
    var key := NextKey(s, owner, after);
    if k == key {
    } else {
      assert Pending(s, owner, s.items[key].revision, k);
      ListingAll(s, owner, s.items[key].revision, k);
    }
  }

  /** The listing has every pending item once, in increasing order of revision. */
  lemma ListingIs(s: State, owner: Owner, after: nat)
    requires Fits(s)
    ensures Ascends(s, owner, after, Listing(s, owner, after))
    ensures forall k :: Pending(s, owner, after, k) ==> s.items[k] in Listing(s, owner, after)
  {
    ListingItems(s, owner, after);
    forall k | Pending(s, owner, after, k) ensures s.items[k] in Listing(s, owner, after) {
      ListingAll(s, owner, after, k);
    }
  }

  datatype Page = Page(items: seq<Item>, cursor: nat, hasMore: bool)

  ghost function PageOf(s: State, owner: Owner, after: nat, limit: nat): Page
    requires Fits(s) && 1 <= limit
  {
    var all := Listing(s, owner, after);
    if |all| > limit then Page(all[..limit], all[limit-1].revision, true)
    else Page(all, Counter(s, owner), false)
  }

  class Feed {
    var items: map<ItemKey, Item>
    var counters: map<Owner, nat>
    var turns: map<nat, Turn>

    constructor ()
      ensures Now() == State(map[], map[], map[])
    {
      items, counters, turns := map[], map[], map[];
    }

    function Now(): State
      reads this
    {
      State(items, counters, turns)
    }

    method AttentionPut(key: ItemKey, content: nat, created: Instant, updated: Instant) returns (ok: bool)
      modifies this`items, this`counters
      ensures ok <==> Put(old(Now()), key, content, created, updated).Some?
      ensures Now() == if ok then Put(old(Now()), key, content, created, updated).value else old(Now())
    {
      var first := created;
      if key in items {
        if items[key].content == content {
          return true;
        }
        first := items[key].createdAt;
      }
      var revision := (if key.owner in counters then counters[key.owner] else 0) + 1;
      if revision > MAX_CURSOR {
        return false;
      }
      counters := counters[key.owner := revision];
      items := items[key := Item(key, content, revision, first, updated)];
      ok := true;
    }

    method RecordConversationEvent(t: Turn) returns (ok: bool)
      modifies this
      ensures ok <==> RecordTurn(old(Now()), t).Some?
      ensures Now() == if ok then RecordTurn(old(Now()), t).value else old(Now())
    {
      if t.turnId in turns && turns[t.turnId] == t {
        return true;
      }
      if t.turnId in turns && Terminal(turns[t.turnId].status) {
        return true;
      }
      var before := turns;
      turns := turns[t.turnId := t];
      ok := AttentionPut(TurnKey(t), Notice(t), t.createdAt, t.updatedAt);
      if !ok {
        turns := before;
      }
    }

    /** The pending item with the least revision. */
    method NextItem(owner: Owner, after: nat) returns (next: Option<Item>)
      requires Fits(Now())
      ensures next.Some? <==> SomePending(Now(), owner, after)
      ensures next.Some? ==> next.value == items[NextKey(Now(), owner, after)]
      ensures next.Some? ==> after < next.value.revision <= Counter(Now(), owner)
    {
      next := None;
      var left := items.Keys;
      while left != {}
        invariant left <= items.Keys
        invariant next.None? ==> forall k :: Pending(Now(), owner, after, k) ==> k in left
        invariant next.Some? ==> Pending(Now(), owner, after, next.value.key) && items[next.value.key] == next.value
        invariant next.Some? ==> forall k :: Pending(Now(), owner, after, k) && k !in left ==>
          next.value.revision <= items[k].revision
        decreases |left|
      {
        var k :| k in left;
        assert ItemFits(Now(), k);
        if k.owner == owner && items[k].revision > after && (next.None? || items[k].revision < next.value.revision) {
          next := Some(items[k]);
        }
        left := left - {k};
      }
      if next.Some? {
        assert ItemFits(Now(), next.value.key);
        assert Least(Now(), owner, after, next.value.key);
      }
    }

    method Sorted(owner: Owner, after: nat) returns (all: seq<Item>)
      requires Fits(Now())
      ensures all == Listing(Now(), owner, after)
    {
      all := [];
      var at := after;
      var next := NextItem(owner, at);
      while next.Some?
        invariant next.Some? <==> SomePending(Now(), owner, at)
        invariant next.Some? ==> next.value == items[NextKey(Now(), owner, at)] && at < next.value.revision <= Counter(Now(), owner)
        invariant all + Listing(Now(), owner, at) == Listing(Now(), owner, after)
        decreases Counter(Now(), owner) - at
      {
        all := all + [next.value];
        at := next.value.revision;
        next := NextItem(owner, at);
      }
    }

    /** One page of the owner's feed; refused for a cursor or limit out of range. */
    method Attention(owner: Owner, after: int, limit: int) returns (page: Option<Page>)
      requires Fits(Now())
      ensures page.Some? <==> 0 <= after <= Counter(Now(), owner) && after <= MAX_CURSOR && 1 <= limit <= MAX_PAGE
      ensures page.Some? ==> page.value == PageOf(Now(), owner, after, limit)
    {
      if !(0 <= after <= MAX_CURSOR) || !(1 <= limit <= MAX_PAGE) {
        return None;
      }
      var high := if owner in counters then counters[owner] else 0;
      if after > high {
        return None;
      }
      var all := Sorted(owner, after);
      var more := |all| > limit;
      var shown := if more then all[..limit] else all;
      page := Some(Page(shown, if more then shown[|shown|-1].revision else high, more));
    }
  }

  // ---- A reader that mirrors the feed page by page ----

  datatype Reader = Reader(mirror: map<ItemKey, Item>, cursor: nat)

  function Store(mirror: map<ItemKey, Item>, items: seq<Item>): map<ItemKey, Item>
    decreases |items|
  {
    if items == [] then mirror else Store(mirror, items[..|items|-1])[items[|items|-1].key := items[|items|-1]]
  }

  ghost function ReadPage(s: State, owner: Owner, r: Reader, limit: nat): Reader
    requires Fits(s) && 1 <= limit
  {
    var page := PageOf(s, owner, r.cursor, limit);
    Reader(Store(r.mirror, page.items), page.cursor)
  }

  /** The reader has every item up to its cursor in its current revision, and nothing that
      the feed never had. */
  ghost predicate UpToDate(s: State, owner: Owner, r: Reader) {
    && r.cursor <= Counter(s, owner)
    && (forall k :: k in s.items && k.owner == owner && s.items[k].revision <= r.cursor ==> k in r.mirror && r.mirror[k] == s.items[k])
    && (forall k :: k in r.mirror ==> k in s.items && k.owner == owner)
  }

  lemma {:induction false} StoreHas(mirror: map<ItemKey, Item>, items: seq<Item>, k: ItemKey)
    requires forall i, j :: 0 <= i < j < |items| ==> items[i].key != items[j].key
    ensures forall i :: 0 <= i < |items| && items[i].key == k ==> k in Store(mirror, items) && Store(mirror, items)[k] == items[i]
    ensures (forall i :: 0 <= i < |items| ==> items[i].key != k) ==>
      (k in Store(mirror, items) <==> k in mirror) && (k in mirror ==> Store(mirror, items)[k] == mirror[k])
    decreases |items|
  {
    if items == [] {
    } else {
      StoreHas(mirror, items[..|items|-1], k);
    }
  }

  /** A write never outdates what the reader has: it gives the item a revision past every
      cursor. */
  lemma PutUpToDate(s: State, owner: Owner, r: Reader, key: ItemKey, content: nat, created: Instant, updated: Instant)
    requires Fits(s) && UpToDate(s, owner, r) && Put(s, key, content, created, updated).Some?
    ensures UpToDate(Put(s, key, content, created, updated).value, owner, r)
  {
  }

  /** The items of a page are current items of the owner, each once. */
  lemma PageIs(s: State, owner: Owner, after: nat, limit: nat)
    requires Fits(s) && 1 <= limit && after <= Counter(s, owner)
    ensures var page := PageOf(s, owner, after, limit);
      && (forall i :: 0 <= i < |page.items| ==> Pending(s, owner, after, page.items[i].key) && s.items[page.items[i].key] == page.items[i])
      && (forall i, j :: 0 <= i < j < |page.items| ==> page.items[i].key != page.items[j].key)
      && after <= page.cursor <= Counter(s, owner)
      && (page.hasMore ==> after < page.cursor && |page.items| == limit)
  {
    ListingIs(s, owner, after);
    var all := Listing(s, owner, after);
    var page := PageOf(s, owner, after, limit);
    if page.hasMore {
      assert Pending(s, owner, after, all[limit-1].key) && ItemFits(s, all[limit-1].key);
    }
  }

  lemma ReadUpToDate(s: State, owner: Owner, r: Reader, limit: nat)
    requires Fits(s) && UpToDate(s, owner, r) && 1 <= limit
    ensures UpToDate(s, owner, ReadPage(s, owner, r, limit))
    ensures r.cursor <= ReadPage(s, owner, r, limit).cursor
  {
    var page := PageOf(s, owner, r.cursor, limit);
    var next := ReadPage(s, owner, r, limit);
    PageIs(s, owner, r.cursor, limit);
    forall k | k in s.items && k.owner == owner && s.items[k].revision <= next.cursor
      ensures k in next.mirror && next.mirror[k] == s.items[k]
    {
      StoreHas(r.mirror, page.items, k);
      ShownOrSeen(s, owner, r.cursor, limit, k);
    }
    forall k | k in next.mirror ensures k in s.items && k.owner == owner {
      StoreHas(r.mirror, page.items, k);
    }
  }

  /** An item up to the page's cursor is on the page, or was before the reader's cursor. */
  lemma ShownOrSeen(s: State, owner: Owner, after: nat, limit: nat, k: ItemKey)
    requires Fits(s) && 1 <= limit && k in s.items && k.owner == owner
    requires s.items[k].revision <= PageOf(s, owner, after, limit).cursor
    ensures var page := PageOf(s, owner, after, limit);
      if s.items[k].revision <= after then forall i :: 0 <= i < |page.items| ==> page.items[i].key != k
      else exists i :: 0 <= i < |page.items| && page.items[i] == s.items[k] && page.items[i].key == k
  {
    ListingIs(s, owner, after);
    var all := Listing(s, owner, after);
    var page := PageOf(s, owner, after, limit);
    assert ItemFits(s, k);
    assert forall i :: 0 <= i < |page.items| ==> page.items[i] == all[i];
    if s.items[k].revision > after {
      assert Pending(s, owner, after, k);
      var i :| 0 <= i < |all| && all[i] == s.items[k];
      assert i < |page.items|;
    }
  }

  // ---- Reading while the feed changes, and to its end ----

  datatype Event =
    | Writes(key: ItemKey, content: nat, created: Instant, updated: Instant)
    | Finishes(turn: Turn)
    | Reads(limit: nat)

  datatype Scene = Scene(state: State, reader: Reader)

  lemma RecordFits(s: State, t: Turn)
    requires Fits(s) && RecordTurn(s, t).Some?
    ensures Fits(RecordTurn(s, t).value)
  {
    var next := s.(turns := s.turns[t.turnId := t]);
    if Put(next, TurnKey(t), Notice(t), t.createdAt, t.updatedAt).Some? {
      PutFits(next, TurnKey(t), Notice(t), t.createdAt, t.updatedAt);
    }
  }

  /** A write, a recorded turn, or a page read by the owner's reader; refused ones change
      nothing. */
  ghost function Happen(x: Scene, owner: Owner, e: Event): Scene
    requires Fits(x.state)
  {
    match e
    case Writes(key, content, created, updated) =>
      var r := Put(x.state, key, content, created, updated);
      if r.Some? then x.(state := r.value) else x
    case Finishes(turn) =>
      var r := RecordTurn(x.state, turn);
      if r.Some? then x.(state := r.value) else x
    case Reads(limit) =>
      if 1 <= limit <= MAX_PAGE then x.(reader := ReadPage(x.state, owner, x.reader, limit)) else x
  }

  lemma HappenKeeps(x: Scene, owner: Owner, e: Event)
    requires Fits(x.state) && UpToDate(x.state, owner, x.reader)
    ensures Fits(Happen(x, owner, e).state) && UpToDate(Happen(x, owner, e).state, owner, Happen(x, owner, e).reader)
  {
    match e
    case Writes(key, content, created, updated) =>
      if Put(x.state, key, content, created, updated).Some? {
        PutFits(x.state, key, content, created, updated);
        PutUpToDate(x.state, owner, x.reader, key, content, created, updated);
      }
    case Finishes(turn) =>
      if RecordTurn(x.state, turn).Some? {
        RecordFits(x.state, turn);
        var s := x.state.(turns := x.state.turns[turn.turnId := turn]);
        if RecordTurn(x.state, turn) == Put(s, TurnKey(turn), Notice(turn), turn.createdAt, turn.updatedAt) {
          PutUpToDate(s, owner, x.reader, TurnKey(turn), Notice(turn), turn.createdAt, turn.updatedAt);
        }
      }
    case Reads(limit) =>
      if 1 <= limit <= MAX_PAGE {
        ReadUpToDate(x.state, owner, x.reader, limit);
      }
  }

  ghost predicate SceneStep(x: Scene, owner: Owner, e: Event, y: Scene) {
    Fits(x.state) && y == Happen(x, owner, e)
  }

  ghost predicate Scenes(xs: seq<Scene>, owner: Owner, events: seq<Event>) {
    && |xs| == |events| + 1
    && forall i :: 0 <= i < |events| ==> SceneStep(xs[i], owner, events[i], xs[i+1])
  }

  /** Feed completeness: whatever is written between its pages, a reader that started with
      nothing has at every moment delivered every item up to its cursor in its current
      revision. */
  lemma {:induction false} FeedComplete(xs: seq<Scene>, owner: Owner, events: seq<Event>, n: nat)
    requires Scenes(xs, owner, events) && n < |xs|
    requires xs[0] == Scene(State(map[], map[], map[]), Reader(map[], 0))
    ensures Fits(xs[n].state) && UpToDate(xs[n].state, owner, xs[n].reader)
  {
    if n == 0 {
    } else {
      FeedComplete(xs, owner, events, n - 1);
      HappenKeeps(xs[n-1], owner, events[n-1]);
    }
  }

  /** Read pages until one says that there is no more. */
  ghost function ReadToEnd(s: State, owner: Owner, r: Reader, limit: nat): Reader
    requires Fits(s) && UpToDate(s, owner, r) && 1 <= limit
    decreases Counter(s, owner) - r.cursor
  {
    ReadUpToDate(s, owner, r, limit);
    PageIs(s, owner, r.cursor, limit);
    var next := ReadPage(s, owner, r, limit);
    if PageOf(s, owner, r.cursor, limit).hasMore then ReadToEnd(s, owner, next, limit) else next
  }

  ghost predicate MirrorsFeed(s: State, owner: Owner, mirror: map<ItemKey, Item>) {
    && (forall k :: k in mirror <==> k in s.items && k.owner == owner)
    && (forall k :: k in mirror ==> k in s.items && mirror[k] == s.items[k])
  }

  /** Paging without writes ends, and then the mirror is the owner's feed. */
  lemma {:induction false} ReadingEnds(s: State, owner: Owner, r: Reader, limit: nat)
    requires Fits(s) && UpToDate(s, owner, r) && 1 <= limit
    ensures MirrorsFeed(s, owner, ReadToEnd(s, owner, r, limit).mirror)
    ensures ReadToEnd(s, owner, r, limit).cursor == Counter(s, owner)
    decreases Counter(s, owner) - r.cursor
  {
    ReadUpToDate(s, owner, r, limit);
    PageIs(s, owner, r.cursor, limit);
    var next := ReadPage(s, owner, r, limit);
    if PageOf(s, owner, r.cursor, limit).hasMore {
      ReadingEnds(s, owner, next, limit);
    } else {
      forall k | k in s.items && k.owner == owner ensures k in next.mirror && next.mirror[k] == s.items[k] {
        assert ItemFits(s, k);
      }
    }
  }

  /** A finished turn stays finished, and its notice stays: no later record of the turn
      changes anything. */
  lemma FinishedStays(s: State, t: Turn, later: Turn)
    requires RecordTurn(s, t).Some? && Terminal(t.status) && later.turnId == t.turnId
    requires !(t.turnId in s.turns && Terminal(s.turns[t.turnId].status))
    ensures var after := RecordTurn(s, t).value;
      && after.turns[t.turnId] == t && TurnKey(t) in after.items && after.items[TurnKey(t)].content == Notice(t)
      && RecordTurn(after, later) == Some(after)
  {
  }

  // ---- The history of one item ----

  /** A write is refused exactly if it would need a revision past 2^53 - 1. */
  lemma PutRefused(s: State, key: ItemKey, content: nat, created: Instant, updated: Instant)
    ensures Put(s, key, content, created, updated).None? <==>
      !(key in s.items && s.items[key].content == content) && Counter(s, key.owner) >= 9007199254740991
  {
  }

  /** Items stay, with the time of their creation; an item is unchanged, or has a
      later revision. */
  ghost predicate ItemsGrow(s: State, t: State) {
    && (forall k :: k in s.items ==>
          && k in t.items && t.items[k].createdAt == s.items[k].createdAt
          && (t.items[k] == s.items[k] || t.items[k].revision > s.items[k].revision))
    && (forall o :: Counter(s, o) <= Counter(t, o))
  }

  lemma PutGrows(s: State, key: ItemKey, content: nat, created: Instant, updated: Instant)
    requires Fits(s) && Put(s, key, content, created, updated).Some?
    ensures ItemsGrow(s, Put(s, key, content, created, updated).value)
  {
    if key in s.items {
      assert ItemFits(s, key);
    }
  }

  lemma HappenGrows(x: Scene, owner: Owner, e: Event)
    requires Fits(x.state)
    ensures ItemsGrow(x.state, Happen(x, owner, e).state)
  {
    var s := x.state;
    match e
    case Writes(key, content, created, updated) =>
      if Put(s, key, content, created, updated).Some? {
        PutGrows(s, key, content, created, updated);
      }
    case Finishes(t) =>
      var next := s.(turns := s.turns[t.turnId := t]);
      if RecordTurn(s, t).Some? && RecordTurn(s, t).value != s {
        PutGrows(next, TurnKey(t), Notice(t), t.createdAt, t.updatedAt);
      }
    case Reads(_) =>
  }

  lemma SceneGrows(xs: seq<Scene>, owner: Owner, events: seq<Event>, n: nat)
    requires Scenes(xs, owner, events) && n < |events|
    ensures ItemsGrow(xs[n].state, xs[n+1].state)
  {
    assert SceneStep(xs[n], owner, events[n], xs[n+1]);
    HappenGrows(xs[n], owner, events[n]);
  }

  lemma GrowsSelf(s: State)
    ensures ItemsGrow(s, s)
  {
  }

  lemma GrowsTrans(a: State, b: State, c: State)
    requires ItemsGrow(a, b) && ItemsGrow(b, c)
    ensures ItemsGrow(a, c)
  {
  }

  /** Over any history an item keeps the time of its creation, and its revision only grows;
      an unchanged revision means an unchanged item. */
  lemma {:induction false} ItemHistory(xs: seq<Scene>, owner: Owner, events: seq<Event>, m: nat, n: nat)
    requires Scenes(xs, owner, events) && m <= n < |xs|
    ensures ItemsGrow(xs[m].state, xs[n].state)
    decreases n - m
  {
    if m == n {
      GrowsSelf(xs[m].state);
    } else {
      ItemHistory(xs, owner, events, m, n - 1);
      SceneGrows(xs, owner, events, n - 1);
      GrowsTrans(xs[m].state, xs[n-1].state, xs[n].state);
    }
  }

  // ---- Every change of a turn surfaces ----

  predicate Noticed(s: State, id: nat)
    requires id in s.turns
  {
    && s.turns[id].turnId == id && TurnKey(s.turns[id]) in s.items
    && s.items[TurnKey(s.turns[id])].content == Notice(s.turns[id])
  }

  /** Every recorded turn has its notice, and every notice its recorded turn. */
  ghost predicate TurnsNoticed(s: State) {
    && (forall id :: id in s.turns ==> Noticed(s, id))
    && (forall k :: k in s.items && k.source.OfTurn? ==> k.source.turnId in s.turns)
  }

  lemma RecordNoticed(s: State, t: Turn)
    requires TurnsNoticed(s) && RecordTurn(s, t).Some?
    ensures TurnsNoticed(RecordTurn(s, t).value)
  {
    var after := RecordTurn(s, t).value;
    forall id | id in after.turns ensures Noticed(after, id) {
      assert id in s.turns ==> Noticed(s, id);
    }
  }

  lemma {:induction false} ScenesNoticed(xs: seq<Scene>, owner: Owner, events: seq<Event>, n: nat)
    requires Scenes(xs, owner, events) && n < |xs| && TurnsNoticed(xs[0].state)
    requires forall i :: 0 <= i < |events| && events[i].Writes? ==> events[i].key.source.OfOther?
    ensures TurnsNoticed(xs[n].state)
  {
    if n == 0 {
    } else {
      ScenesNoticed(xs, owner, events, n - 1);
      var s := xs[n-1].state;
      match events[n-1]
      case Finishes(turn) =>
        if RecordTurn(s, turn).Some? {
          RecordNoticed(s, turn);
        }
      case Writes(key, content, created, updated) =>
        forall id | id in xs[n].state.turns ensures Noticed(xs[n].state, id) {
          assert Noticed(s, id);
        }
      case Reads(_) =>
    }
  }

  /** In any history in which only turns are noticed as turns: a new turn, or a change of a
      turn's status or conversation, takes the owner's next revision, past every cursor, at
      the turn's own time; a repetition changes no item; a finished turn takes nothing. */
  lemma TurnSurfaces(xs: seq<Scene>, owner: Owner, events: seq<Event>, n: nat, t: Turn)
    requires Scenes(xs, owner, events) && n < |xs| && xs[0].state == State(map[], map[], map[])
    requires forall i :: 0 <= i < |events| && events[i].Writes? ==> events[i].key.source.OfOther?
    requires RecordTurn(xs[n].state, t).Some?
    ensures var s, after, key := xs[n].state, RecordTurn(xs[n].state, t).value, ItemKey(t.owner, OfTurn(t.turnId));
      if t.turnId !in s.turns then
        && after.turns == s.turns[t.turnId := t] && key in after.items
        && after.items[key].revision == Counter(after, t.owner) == Counter(s, t.owner) + 1 && after.items[key].updatedAt == t.updatedAt
      else
        var was := s.turns[t.turnId];
        && (was.status.Completed? || was.status.Failed? || was.status.Interrupted? ==> after == s)
        && (was.owner == t.owner && was.status == t.status && was.conversation == t.conversation ==>
              after.items == s.items && after.counters == s.counters)
        && (was.owner == t.owner && (was.status.Submitted? || was.status.Running?)
            && (was.status != t.status || was.conversation != t.conversation) ==>
              && after.turns == s.turns[t.turnId := t] && key in after.items
              && after.items[key].revision == Counter(after, t.owner) == Counter(s, t.owner) + 1
              && after.items[key].updatedAt == t.updatedAt)
  {
    ScenesNoticed(xs, owner, events, n);
    var s := xs[n].state;
    if t.turnId in s.turns {
      assert Noticed(s, t.turnId);
    } else {
      assert TurnKey(t) !in s.items;
    }
  }
}
