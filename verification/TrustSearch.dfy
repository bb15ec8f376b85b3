/** Breadth-first search for a shortest chain of trusted claims. */
module TrustSearch {
  import opened Basics
  import opened TrustGraph

  datatype TrustPath = TrustPath(claims: seq<Claim>, key: Option<Key>, depth: nat)

  datatype Item = Item(urn: Urn, path: seq<Claim>)

  /** `r` is a shortest chain to the target, with the target's key from its last claim. */
  ghost predicate Shortest(store: Claims, self: Urn, target: Urn, r: TrustPath) {
    && Reaches(store, self, target, r.claims) && r.depth == |r.claims| && r.claims != []
    && r.key == Some(r.claims[|r.claims|-1].key)
    && forall chain :: Reaches(store, self, target, chain) ==> r.depth <= |chain|
  }

  // ---- The state of the search ----

  predicate ItemFits(store: Claims, self: Urn, level: map<Urn, nat>, item: Item) {
    Reaches(store, self, item.urn, item.path) && item.urn in level && level[item.urn] == |item.path|
  }

  ghost predicate ItemsFit(store: Claims, self: Urn, level: map<Urn, nat>, open: seq<Item>) {
    forall i :: 0 <= i < |open| ==> ItemFits(store, self, level, open[i])
  }

  /** The lengths of the open paths never decrease, and span at most one step. */
  ghost predicate Ordered(open: seq<Item>) {
    forall i, j :: 0 <= i <= j < |open| ==> |open[i].path| <= |open[j].path| <= |open[0].path| + 1
  }

  predicate IsOpen(open: seq<Item>, u: Urn) {
    exists i :: 0 <= i < |open| && open[i].urn == u
  }

  ghost predicate Covered(open: seq<Item>, level: map<Urn, nat>, done: set<Urn>) {
    forall u :: u in level ==> u in done || IsOpen(open, u)
  }

  predicate Found(level: map<Urn, nat>, u: Urn, c: Claim) {
    u in level && c.subject in level && level[c.subject] <= level[u] + 1
  }

  ghost predicate Settled(store: Claims, level: map<Urn, nat>, done: set<Urn>) {
    forall u, c :: u in done && Vouches(store, u, c) ==> Found(level, u, c)
  }

  ghost predicate Early(open: seq<Item>, level: map<Urn, nat>, done: set<Urn>) {
    && done <= level.Keys
    && (open != [] ==> forall u :: u in done ==> level[u] <= |open[0].path|)
  }

  /** `open` are the items still to be looked at, `level` the length of the path each
      visited party was found by, `done` the parties all of whose claims were looked at. */
  ghost predicate Frontier(store: Claims, self: Urn, target: Urn, open: seq<Item>, level: map<Urn, nat>, done: set<Urn>) {
    && self in level && level[self] == 0 && target !in level
    && ItemsFit(store, self, level, open) && Ordered(open) && Covered(open, level, done)
    && Settled(store, level, done) && Early(open, level, done)
  }

  /** Every chain leads to a party already found no later than the chain is long, or is
      longer than what is still open. */
  lemma {:induction false} ChainBound(store: Claims, self: Urn, target: Urn, open: seq<Item>, level: map<Urn, nat>,
                                      done: set<Urn>, chain: seq<Claim>)
    requires Frontier(store, self, target, open, level, done) && IsChain(store, self, chain)
    ensures var v := EndOf(self, chain);
      || (v in level && level[v] <= |chain|)
      || (open != [] && |open[0].path| < |chain|)
    decreases |chain|
  {
    if chain == [] {
    } else {
      var front := chain[..|chain|-1];
      ChainBound(store, self, target, open, level, done, front);
      var u := EndOf(self, front);
      if u in level && level[u] <= |front| {
        if u in done {
          assert Found(level, u, chain[|chain|-1]);
        } else {
          var i :| 0 <= i < |open| && open[i].urn == u;
          assert ItemFits(store, self, level, open[i]);
        }
      }
    }
  }

  lemma ExtendChain(store: Claims, self: Urn, path: seq<Claim>, c: Claim)
    requires IsChain(store, self, path) && Vouches(store, EndOf(self, path), c)
    ensures IsChain(store, self, path + [c]) && EndOf(self, path + [c]) == c.subject
  {
    assert (path + [c])[..|path|] == path;
  }

  // ---- Enqueuing a newly found party ----

  lemma EnqueueItems(store: Claims, self: Urn, open: seq<Item>, level: map<Urn, nat>, next: Item)
    requires ItemsFit(store, self, level, open) && next.urn !in level && Reaches(store, self, next.urn, next.path)
    ensures ItemsFit(store, self, level[next.urn := |next.path|], open + [next])
  {
    var more, found := open + [next], level[next.urn := |next.path|];
    forall i | 0 <= i < |more| ensures ItemFits(store, self, found, more[i]) {
      assert i < |open| ==> ItemFits(store, self, level, open[i]);
    }
  }

  lemma EnqueueOrdered(open: seq<Item>, next: Item)
    requires Ordered(open) && open != [] && |next.path| == |open[0].path| + 1
    ensures Ordered(open + [next])
  {
  }

  lemma EnqueueCovered(open: seq<Item>, next: Item, level: map<Urn, nat>, done: set<Urn>, n: nat)
    requires Covered(open, level, done)
    ensures Covered(open + [next], level[next.urn := n], done)
  {
    forall u | u in level[next.urn := n] ensures u in done || IsOpen(open + [next], u) {
      if u == next.urn {
        assert (open + [next])[|open|].urn == u;
      } else if u !in done {
        var i :| 0 <= i < |open| && open[i].urn == u;
        assert (open + [next])[i].urn == u;
      }
    }
  }

  lemma EnqueueSettled(store: Claims, level: map<Urn, nat>, done: set<Urn>, v: Urn, n: nat)
    requires Settled(store, level, done) && v !in level
    ensures Settled(store, level[v := n], done)
  {
    forall u, c | u in done && Vouches(store, u, c) ensures Found(level[v := n], u, c) {
      assert Found(level, u, c);
    }
  }

  lemma Enqueue(store: Claims, self: Urn, target: Urn, open: seq<Item>, level: map<Urn, nat>, done: set<Urn>, c: Claim)
    requires Frontier(store, self, target, open, level, done) && open != []
    requires Vouches(store, open[0].urn, c) && c.subject !in level && c.subject != target
    ensures Frontier(store, self, target, open + [Item(c.subject, open[0].path + [c])],
                     level[c.subject := |open[0].path| + 1], done)
  {
    var next := Item(c.subject, open[0].path + [c]);
    assert ItemFits(store, self, level, open[0]);
    ExtendChain(store, self, open[0].path, c);
    EnqueueItems(store, self, open, level, next);
    EnqueueOrdered(open, next);
    EnqueueCovered(open, next, level, done, |next.path|);
    EnqueueSettled(store, level, done, c.subject, |next.path|);
  }

  // ---- Finishing the first open party ----

  lemma CloseItems(store: Claims, self: Urn, open: seq<Item>, level: map<Urn, nat>)
    requires open != [] && ItemsFit(store, self, level, open) && Ordered(open)
    ensures ItemsFit(store, self, level, open[1..]) && Ordered(open[1..])
    ensures open[1..] != [] ==> |open[0].path| <= |open[1..][0].path|
  {
    var rest := open[1..];
    forall i | 0 <= i < |rest| ensures ItemFits(store, self, level, rest[i]) {
      assert ItemFits(store, self, level, open[i+1]);
    }
    forall i, j | 0 <= i <= j < |rest| ensures |rest[i].path| <= |rest[j].path| <= |rest[0].path| + 1 {
      assert rest[i] == open[i+1] && rest[j] == open[j+1] && rest[0] == open[1];
    }
  }

  lemma CloseCovered(open: seq<Item>, level: map<Urn, nat>, done: set<Urn>)
    requires open != [] && Covered(open, level, done)
    ensures Covered(open[1..], level, done + {open[0].urn})
  {
    forall u | u in level ensures u in done + {open[0].urn} || IsOpen(open[1..], u) {
      if u !in done && u != open[0].urn {
        var i :| 0 <= i < |open| && open[i].urn == u;
        assert open[1..][i-1].urn == u;
      }
    }
  }

  /** The trusted claims among these are about parties found in time. */
  ghost predicate Scanned(level: map<Urn, nat>, u: Urn, claims: seq<Claim>) {
    forall i :: 0 <= i < |claims| && claims[i].trusted ==> Found(level, u, claims[i])
  }

  lemma CloseSettled(store: Claims, level: map<Urn, nat>, done: set<Urn>, v: Urn)
    requires Settled(store, level, done) && Scanned(level, v, ClaimsBy(store, v))
    ensures Settled(store, level, done + {v})
  {
    forall u, c | u in done + {v} && Vouches(store, u, c) ensures Found(level, u, c) {
      if u == v {
        var i :| 0 <= i < |ClaimsBy(store, v)| && ClaimsBy(store, v)[i] == c;
      }
    }
  }

  /** When all claims of the first open party were looked at, it is done. */
  lemma Close(store: Claims, self: Urn, target: Urn, open: seq<Item>, level: map<Urn, nat>, done: set<Urn>)
    requires Frontier(store, self, target, open, level, done) && open != []
    requires Scanned(level, open[0].urn, ClaimsBy(store, open[0].urn))
    ensures Frontier(store, self, target, open[1..], level, done + {open[0].urn})
  {
    assert ItemFits(store, self, level, open[0]);
    CloseItems(store, self, open, level);
    CloseCovered(open, level, done);
    CloseSettled(store, level, done, open[0].urn);
  }

  // ---- Looking at one claim ----

  /** A claim of the first open party about the target ends a shortest chain. */
  lemma TargetFound(store: Claims, self: Urn, target: Urn, open: seq<Item>, level: map<Urn, nat>, done: set<Urn>, c: Claim)
    requires Frontier(store, self, target, open, level, done) && open != []
    requires Vouches(store, open[0].urn, c) && c.subject == target
    ensures Shortest(store, self, target, TrustPath(open[0].path + [c], Some(c.key), |open[0].path| + 1))
  {
    assert ItemFits(store, self, level, open[0]);
    ExtendChain(store, self, open[0].path, c);
    forall chain | Reaches(store, self, target, chain) ensures |open[0].path| + 1 <= |chain| {
      ChainBound(store, self, target, open, level, done, chain);
    }
  }

  /** With nothing left to look at, the target is not reachable. */
  lemma TargetMissing(store: Claims, self: Urn, target: Urn, level: map<Urn, nat>, done: set<Urn>)
    requires Frontier(store, self, target, [], level, done)
    ensures !Reachable(store, self, target)
  {
    forall chain ensures !Reaches(store, self, target, chain) {
      if IsChain(store, self, chain) {
        ChainBound(store, self, target, [], level, done, chain);
      }
    }
  }

  /** No party was found later than one step beyond the first open one. */
  lemma VisitedFound(store: Claims, self: Urn, target: Urn, open: seq<Item>, level: map<Urn, nat>, done: set<Urn>, c: Claim)
    requires Frontier(store, self, target, open, level, done) && open != [] && c.subject in level
    ensures Found(level, open[0].urn, c)
  {
    assert ItemFits(store, self, level, open[0]);
    if c.subject !in done {
      var i :| 0 <= i < |open| && open[i].urn == c.subject;
      assert ItemFits(store, self, level, open[i]);
    }
  }

  lemma ScannedOne(level: map<Urn, nat>, u: Urn, claims: seq<Claim>, i: nat)
    requires i < |claims| && Scanned(level, u, claims[..i])
    requires claims[i].trusted ==> Found(level, u, claims[i])
    ensures Scanned(level, u, claims[..i+1])
  {
    forall j | 0 <= j < i + 1 && claims[j].trusted ensures Found(level, u, claims[..i+1][j]) {
      assert j < i ==> claims[..i][j] == claims[j];
    }
  }

  lemma ScannedMore(level: map<Urn, nat>, u: Urn, claims: seq<Claim>, v: Urn, n: nat)
    requires v !in level && Scanned(level, u, claims)
    ensures Scanned(level[v := n], u, claims)
  {
    forall i | 0 <= i < |claims| && claims[i].trusted ensures Found(level[v := n], u, claims[i]) {
      assert Found(level, u, claims[i]);
    }
  }

  /** The state while the first open party's claims before number `i` were looked at. */
  ghost predicate Scanning(store: Claims, self: Urn, target: Urn, open: seq<Item>, level: map<Urn, nat>, done: set<Urn>, i: nat) {
    && Frontier(store, self, target, open, level, done) && open != []
    && i <= |ClaimsBy(store, open[0].urn)| && Scanned(level, open[0].urn, ClaimsBy(store, open[0].urn)[..i])
  }

  /** An untrusted claim, or one about a party seen before, changes nothing. */
  lemma Skip(store: Claims, self: Urn, target: Urn, open: seq<Item>, level: map<Urn, nat>, done: set<Urn>, i: nat)
    requires Scanning(store, self, target, open, level, done, i) && i < |ClaimsBy(store, open[0].urn)|
    requires var c := ClaimsBy(store, open[0].urn)[i]; c.trusted ==> c.subject in level
    ensures Scanning(store, self, target, open, level, done, i + 1)
  {
    var claims := ClaimsBy(store, open[0].urn);
    if claims[i].trusted {
      VisitedFound(store, self, target, open, level, done, claims[i]);
    }
    ScannedOne(level, open[0].urn, claims, i);
  }

  /** A trusted claim about a new party queues that party. */
  lemma Discover(store: Claims, self: Urn, target: Urn, open: seq<Item>, level: map<Urn, nat>, done: set<Urn>, i: nat,
                 c: Claim, more: seq<Item>, found: map<Urn, nat>)
    requires Scanning(store, self, target, open, level, done, i) && i < |ClaimsBy(store, open[0].urn)|
    requires c == ClaimsBy(store, open[0].urn)[i] && c.trusted && c.subject !in level && c.subject != target
    requires more == open + [Item(c.subject, open[0].path + [c])] && found == level[c.subject := |open[0].path| + 1]
    ensures Scanning(store, self, target, more, found, done, i + 1) && more[0] == open[0]
  {
    var claims := ClaimsBy(store, open[0].urn);
    Enqueue(store, self, target, open, level, done, c);
    ScannedMore(level, open[0].urn, claims[..i], c.subject, |open[0].path| + 1);
    VisitedFound(store, self, target, more, found, done, c);
    ScannedOne(found, open[0].urn, claims, i);
  }

  lemma StartScan(store: Claims, self: Urn, target: Urn, open: seq<Item>, level: map<Urn, nat>, done: set<Urn>)
    requires Frontier(store, self, target, open, level, done) && open != []
    ensures Scanning(store, self, target, open, level, done, 0)
  {
  }

  lemma FewerLeft(all: set<Urn>, visited: set<Urn>, u: Urn)
    requires u in all && u !in visited
    ensures |all - (visited + {u})| == |all - visited| - 1
  {
    assert all - (visited + {u}) == (all - visited) - {u};
  }

  /** Taking the finished party off the queue. */
  lemma Finish(store: Claims, self: Urn, target: Urn, queue: seq<Item>, level: map<Urn, nat>, done: set<Urn>, item: Item)
    requires queue != [] && queue[0] == item
    requires Scanning(store, self, target, queue, level, done, |ClaimsBy(store, item.urn)|)
    ensures Frontier(store, self, target, queue[1..], level, done + {item.urn})
  {
    var claims := ClaimsBy(store, item.urn);
    assert claims[..|claims|] == claims;
    Close(store, self, target, queue, level, done);
  }

  lemma StartFrontier(store: Claims, self: Urn, target: Urn)
    requires target != self
    ensures Frontier(store, self, target, [Item(self, [])], map[self := 0], {})
  {
    assert [Item(self, [])][0].urn == self;
  }

  /** What the search has found so far is among the parties the store can name. */
  ghost predicate Tracks(store: Claims, self: Urn, visited: set<Urn>, level: map<Urn, nat>) {
    visited == level.Keys && visited <= Universe(store, self)
  }

  function Left(store: Claims, self: Urn, visited: set<Urn>, queue: seq<Item>): nat {
    |Universe(store, self) - visited| + |queue|
  }

  lemma Tracked(store: Claims, self: Urn, visited: set<Urn>, level: map<Urn, nat>, queue: seq<Item>, u: Urn, c: Claim,
                item: Item, n: nat)
    requires Tracks(store, self, visited, level) && Vouches(store, u, c) && c.subject !in visited
    ensures Tracks(store, self, visited + {c.subject}, level[c.subject := n])
    ensures Left(store, self, visited + {c.subject}, queue + [item]) == Left(store, self, visited, queue)
  {
    VouchedInUniverse(store, self, u, c);
    FewerLeft(Universe(store, self), visited, c.subject);
    Subset(visited, Universe(store, self), c.subject);
    assert |queue + [item]| == |queue| + 1;
  }

  lemma Subset(visited: set<Urn>, all: set<Urn>, u: Urn)
    requires visited <= all && u in all
    ensures visited + {u} <= all
  {
  }

  lemma LeftDrop(store: Claims, self: Urn, visited: set<Urn>, queue: seq<Item>)
    requires queue != []
    ensures Left(store, self, visited, queue[1..]) < Left(store, self, visited, queue)
  {
  }

  /** Look at one claim of the first party of the queue: a trusted claim about the target
      is a hit, one about a party not seen before queues that party. */
  method LookAt(store: Claims, self: Urn, target: Urn, c: Claim, ghost i: nat, queue: seq<Item>, visited: set<Urn>,
                ghost level: map<Urn, nat>, ghost done: set<Urn>)
    returns (hit: bool, queue': seq<Item>, visited': set<Urn>, ghost level': map<Urn, nat>)
    requires queue != [] && Scanning(store, self, target, queue, level, done, i) && Tracks(store, self, visited, level)
    requires i < |ClaimsBy(store, queue[0].urn)| && c == ClaimsBy(store, queue[0].urn)[i]
    ensures hit ==> Shortest(store, self, target, TrustPath(queue[0].path + [c], Some(c.key), |queue[0].path| + 1))
    ensures !hit ==>
      && queue' != [] && queue'[0] == queue[0] && Scanning(store, self, target, queue', level', done, i + 1)
      && Tracks(store, self, visited', level') && Left(store, self, visited', queue') == Left(store, self, visited, queue)
  {
    hit, queue', visited', level' := false, queue, visited, level;
    if !c.trusted {
      Skip(store, self, target, queue, level, done, i);
      return;
    }
    var item := queue[0];
    assert Vouches(store, item.urn, c);
    if c.subject == target {
      TargetFound(store, self, target, queue, level, done, c);
      hit := true;
    } else if c.subject !in visited {
      var next := Item(c.subject, item.path + [c]);
      visited', queue', level' := visited + {c.subject}, queue + [next], level[c.subject := |item.path| + 1];
      Discover(store, self, target, queue, level, done, i, c, queue', level');
      Tracked(store, self, visited, level, queue, item.urn, c, next, |item.path| + 1);
    } else {
      Skip(store, self, target, queue, level, done, i);
    }
  }

  /** Look at all claims of the first party of the queue. */
  method Expand(store: Claims, self: Urn, target: Urn, queue: seq<Item>, visited: set<Urn>,
                ghost level: map<Urn, nat>, ghost done: set<Urn>)
    returns (found: Option<TrustPath>, queue': seq<Item>, visited': set<Urn>, ghost level': map<Urn, nat>)
    requires queue != [] && Frontier(store, self, target, queue, level, done) && Tracks(store, self, visited, level)
    ensures found.Some? ==> Shortest(store, self, target, found.value)
    ensures found.None? ==>
      && Frontier(store, self, target, queue', level', done + {queue[0].urn})
      && Tracks(store, self, visited', level') && Left(store, self, visited', queue') < Left(store, self, visited, queue)
  {
    found, queue', visited', level' := None, queue, visited, level;
    var item := queue[0];
    var claims := ClaimsBy(store, item.urn);
    StartScan(store, self, target, queue, level, done);
    var i := 0;
    while i < |claims|
      invariant i <= |claims|
      invariant queue' != [] && queue'[0] == item && Scanning(store, self, target, queue', level', done, i)
      invariant Tracks(store, self, visited', level')
      invariant Left(store, self, visited', queue') == Left(store, self, visited, queue)
    {
      var hit;
      hit, queue', visited', level' := LookAt(store, self, target, claims[i], i, queue', visited', level', done);
      if hit {
        var full := item.path + [claims[i]];
        found := Some(TrustPath(full, Some(claims[i].key), |full|));
        return;
      }
      i := i + 1;
    }
    Finish(store, self, target, queue', level', done, item);
    LeftDrop(store, self, visited', queue');
    queue' := queue'[1..];
  }

  /** Find a shortest chain of trusted claims from `self` to `target` in the local store.
      The search ends on every store, cyclic ones included; it succeeds exactly when the
      target is reachable. */
  method FindTrustPathSimple(store: Claims, self: Urn, target: Urn, ownKey: Option<Key>) returns (r: Option<TrustPath>)
    ensures target == self ==> r == Some(TrustPath([], ownKey, 0))
    ensures target != self ==> (r.Some? <==> Reachable(store, self, target))
    ensures target != self && r.Some? ==> Shortest(store, self, target, r.value)
  {
    if target == self {
      return Some(TrustPath([], ownKey, 0));
    }
    var visited := {self};
    var queue := [Item(self, [])];
    ghost var level: map<Urn, nat> := map[self := 0];
    ghost var done: set<Urn> := {};
    StartFrontier(store, self, target);
    while queue != []
      invariant Frontier(store, self, target, queue, level, done)
      invariant Tracks(store, self, visited, level)
      decreases Left(store, self, visited, queue)
    {
      ghost var first := queue[0].urn;
      r, queue, visited, level := Expand(store, self, target, queue, visited, level, done);
      if r.Some? {
        assert Reaches(store, self, target, r.value.claims);
        return;
      }
      done := done + {first};
    }
    TargetMissing(store, self, target, level, done);
    r := None;
  }
}
