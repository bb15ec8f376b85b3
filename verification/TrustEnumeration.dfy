/** Enumeration of the simple paths of the trust graph by backtracking. */
module TrustEnumeration {
  import opened Basics
  import opened TrustGraph
  import opened TrustSearch

  type Adjacency = map<Urn, seq<Urn>>

  function Next(adj: Adjacency, u: Urn): seq<Urn> {
    if u in adj then adj[u] else []
  }

  // ---- The adjacency of a list of claims ----

  /** The subjects that `u` trusts, in the order of the claims. */
  function SubjectsOf(claims: seq<Claim>, u: Urn): seq<Urn>
    decreases |claims|
  {
    if claims == [] then []
    else
      var front, last := claims[..|claims|-1], claims[|claims|-1];
      SubjectsOf(front, u) + if last.trusted && last.issuer == u then [last.subject] else []
  }

  method BuildAdjacencyMap(claims: seq<Claim>) returns (adj: Adjacency)
    ensures forall u :: Next(adj, u) == SubjectsOf(claims, u)
  {
    adj := map[];
    var i := 0;
    while i < |claims|
      invariant i <= |claims|
      invariant forall u :: Next(adj, u) == SubjectsOf(claims[..i], u)
    {
      var c := claims[i];
      assert claims[..i+1][..i] == claims[..i];
      if c.trusted {
        adj := adj[c.issuer := Next(adj, c.issuer) + [c.subject]];
      }
      i := i + 1;
    }
    assert claims[..i] == claims;
  }

  /** The adjacency has exactly the trusted claims as edges. */
  lemma {:induction false} EdgesAreClaims(claims: seq<Claim>, u: Urn, v: Urn)
    ensures v in SubjectsOf(claims, u) <==> exists c :: c in claims && c.trusted && c.issuer == u && c.subject == v
    decreases |claims|
  {
    if claims == [] {
    } else {
      EdgesAreClaims(claims[..|claims|-1], u, v);
      assert claims == claims[..|claims|-1] + [claims[|claims|-1]];
    }
  }

  // ---- Simple paths ----

  predicate Distinct(s: seq<Urn>) {
    forall i, j :: 0 <= i < j < |s| ==> s[i] != s[j]
  }

  predicate Edge(adj: Adjacency, s: seq<Urn>, i: nat)
    requires i + 1 < |s|
  {
    s[i + 1] in Next(adj, s[i])
  }

  predicate Walk(adj: Adjacency, s: seq<Urn>) {
    forall i :: 0 <= i < |s| - 1 ==> Edge(adj, s, i)
  }

  /** The parties before the target on a simple path from `source`. */
  predicate SimplePath(adj: Adjacency, source: Urn, target: Urn, p: seq<Urn>) {
    var s := p + [target];
    s[0] == source && Walk(adj, s) && Distinct(s)
  }

  /** `p` continues `path`, which ends just before `node`, to the target. */
  predicate Continues(adj: Adjacency, node: Urn, target: Urn, path: seq<Urn>, p: seq<Urn>) {
    && path <= p && (p + [target])[|path|] == node
    && Walk(adj, (p + [target])[|path|..]) && Distinct(p + [target])
  }

  function Room(maxDepth: int, path: seq<Urn>): nat {
    if |path| > maxDepth then 0 else maxDepth - |path| + 1
  }

  /** The results of visiting `node` after `path`, in order. */
  function Visits(adj: Adjacency, node: Urn, target: Urn, maxDepth: int, path: seq<Urn>): seq<seq<Urn>>
    decreases Room(maxDepth, path), 0
  {
    if |path| > maxDepth then []
    else if node == target then [path]
    else VisitsEach(adj, Next(adj, node), target, maxDepth, path + [node])
  }

  function VisitsEach(adj: Adjacency, nexts: seq<Urn>, target: Urn, maxDepth: int, path: seq<Urn>): seq<seq<Urn>>
    decreases Room(maxDepth, path), |nexts|
  {
    if nexts == [] then []
    else
      var front, last := nexts[..|nexts|-1], nexts[|nexts|-1];
      VisitsEach(adj, front, target, maxDepth, path)
      + if last in path then [] else Visits(adj, last, target, maxDepth, path)
  }

  /** A continuation through `node` goes on through one of its unvisited neighbours. */
  lemma ContinuesNext(adj: Adjacency, node: Urn, target: Urn, path: seq<Urn>, p: seq<Urn>)
    requires node != target && Continues(adj, node, target, path, p)
    ensures |p| > |path|
    ensures var next := (p + [target])[|path| + 1];
      next in Next(adj, node) && next !in path + [node] && Continues(adj, next, target, path + [node], p)
  {
    var s := p + [target];
    var next := s[|path| + 1];
    assert Edge(adj, s[|path|..], 0);
    assert p[..|path|] == path && p[|path|] == node;
    assert path + [node] <= p;
    forall i | 0 <= i < |path| + 1 ensures (path + [node])[i] != next {
      assert s[i] == (path + [node])[i];
    }
    var tail := s[|path|+1..];
    forall i | 0 <= i < |tail| - 1 ensures Edge(adj, tail, i) {
      assert Edge(adj, s[|path|..], i + 1);
    }
  }

  lemma ContinuesFrom(adj: Adjacency, node: Urn, next: Urn, target: Urn, path: seq<Urn>, p: seq<Urn>)
    requires next in Next(adj, node) && Continues(adj, next, target, path + [node], p)
    ensures Continues(adj, node, target, path, p)
  {
    var s := p + [target];
    assert s[|path|] == (path + [node])[|path|];
    forall i | 0 <= i < |s[|path|..]| - 1 ensures Edge(adj, s[|path|..], i) {
      if i > 0 {
        assert Edge(adj, s[|path|+1..], i - 1);
      }
    }
  }

  lemma EarlyTarget(target: Urn, path: seq<Urn>, p: seq<Urn>)
    ensures path <= p && |path| < |p| && (p + [target])[|path|] == target ==> !Distinct(p + [target])
  {
    if path <= p && |path| < |p| && (p + [target])[|path|] == target {
      var s := p + [target];
      assert s[|path|] == s[|p|];
    }
  }

  lemma ContinuesAtTarget(adj: Adjacency, target: Urn, path: seq<Urn>, p: seq<Urn>)
    requires Distinct(path) && target !in path
    ensures Continues(adj, target, target, path, p) <==> p == path
  {
    EarlyTarget(target, path, p);
  }

  lemma {:induction false} VisitsAre(adj: Adjacency, node: Urn, target: Urn, maxDepth: int, path: seq<Urn>, p: seq<Urn>)
    requires Distinct(path) && node !in path
    ensures p in Visits(adj, node, target, maxDepth, path) <==> |p| <= maxDepth && Continues(adj, node, target, path, p)
    decreases Room(maxDepth, path), 0
  {
    if |path| <= maxDepth {
      if node == target {
        ContinuesAtTarget(adj, target, path, p);
      } else {
        VisitsEachAre(adj, Next(adj, node), target, maxDepth, path + [node], p);
        if Continues(adj, node, target, path, p) {
          ContinuesNext(adj, node, target, path, p);
        }
        forall next | next in Next(adj, node) && Continues(adj, next, target, path + [node], p)
          ensures Continues(adj, node, target, path, p)
        {
          ContinuesFrom(adj, node, next, target, path, p);
        }
      }
    }
  }

  lemma {:induction false} VisitsEachAre(adj: Adjacency, nexts: seq<Urn>, target: Urn, maxDepth: int, path: seq<Urn>, p: seq<Urn>)
    requires Distinct(path)
    ensures p in VisitsEach(adj, nexts, target, maxDepth, path) <==>
      |p| <= maxDepth && exists next :: next in nexts && next !in path && Continues(adj, next, target, path, p)
    decreases Room(maxDepth, path), |nexts|
  {
    if nexts == [] {
    } else {
      var front, last := nexts[..|nexts|-1], nexts[|nexts|-1];
      assert nexts == front + [last];
      VisitsEachAre(adj, front, target, maxDepth, path, p);
      if last !in path {
        VisitsAre(adj, last, target, maxDepth, path, p);
      }
    }
  }

  /** Exact enumeration: the visited results are exactly the simple paths to the target of
      at most `maxDepth` hops. */
  lemma ExactPaths(adj: Adjacency, source: Urn, target: Urn, maxDepth: int, p: seq<Urn>)
    ensures p in Visits(adj, source, target, maxDepth, []) <==> |p| <= maxDepth && SimplePath(adj, source, target, p)
  {
    VisitsAre(adj, source, target, maxDepth, [], p);
    assert (p + [target])[0..] == p + [target];
  }

  // ---- Each path once ----

  predicate Once(ps: seq<seq<Urn>>) {
    forall i, j :: 0 <= i < j < |ps| ==> ps[i] != ps[j]
  }

  predicate NoRepeats(adj: Adjacency) {
    forall u :: u in adj ==> Distinct(adj[u])
  }

  lemma {:induction false} VisitsOnce(adj: Adjacency, node: Urn, target: Urn, maxDepth: int, path: seq<Urn>)
    requires NoRepeats(adj) && Distinct(path) && node !in path
    ensures Once(Visits(adj, node, target, maxDepth, path))
    decreases Room(maxDepth, path), 0
  {
    if |path| <= maxDepth && node != target {
      VisitsEachOnce(adj, Next(adj, node), target, maxDepth, path + [node]);
    }
  }

  lemma {:induction false} VisitsEachOnce(adj: Adjacency, nexts: seq<Urn>, target: Urn, maxDepth: int, path: seq<Urn>)
    requires NoRepeats(adj) && Distinct(path) && Distinct(nexts)
    ensures Once(VisitsEach(adj, nexts, target, maxDepth, path))
    decreases Room(maxDepth, path), |nexts|
  {
    if nexts == [] {
    } else {
      var front, last := nexts[..|nexts|-1], nexts[|nexts|-1];
      VisitsEachOnce(adj, front, target, maxDepth, path);
      if last !in path {
        VisitsOnce(adj, last, target, maxDepth, path);
        var a, b := VisitsEach(adj, front, target, maxDepth, path), Visits(adj, last, target, maxDepth, path);
        forall i, j | 0 <= i < |a| && 0 <= j < |b| ensures a[i] != b[j] {
          VisitsEachAre(adj, front, target, maxDepth, path, a[i]);
          VisitsAre(adj, last, target, maxDepth, path, b[j]);
          assert a[i] in a && b[j] in b;
        }
      }
    }
  }

  // ---- The backtracking search ----

  function PartiesOf(path: seq<Urn>): set<Urn> {
    set u | u in path
  }

  class PathSearch {
    const adj: Adjacency
    const target: Urn
    const maxDepth: int
    var visited: set<Urn>
    var results: seq<seq<Urn>>

    constructor (adj: Adjacency, target: Urn, maxDepth: int)
      ensures this.adj == adj && this.target == target && this.maxDepth == maxDepth
      ensures visited == {} && results == []
    {
      this.adj, this.target, this.maxDepth := adj, target, maxDepth;
      visited, results := {}, [];
    }

    /** Append every way on from `node`; the marks of visited parties are restored. */
    method Visit(node: Urn, depth: int, path: seq<Urn>)
      requires depth == |path| && node !in visited && visited == PartiesOf(path)
      modifies this
      ensures visited == old(visited)
      ensures results == old(results) + Visits(adj, node, target, maxDepth, path)
      decreases Room(maxDepth, path), 0
    {
      if depth > maxDepth {
        return;
      }
      if node == target {
        results := results + [path];
        return;
      }
      visited := visited + {node};
      var here := path + [node];
      var nexts := Next(adj, node);
      var i := 0;
      while i < |nexts|
        invariant i <= |nexts|
        invariant visited == PartiesOf(here)
        invariant results == old(results) + VisitsEach(adj, nexts[..i], target, maxDepth, here)
      {
        assert nexts[..i+1][..i] == nexts[..i];
        if nexts[i] !in visited {
          Visit(nexts[i], depth + 1, here);
        }
        i := i + 1;
      }
      assert nexts[..i] == nexts;
      visited := visited - {node};
    }
  }

  /** All simple paths from `source` to `target` of at most `maxDepth` hops, each as the
      parties before the target; each once if no adjacency list repeats a party. */
  method BFSPaths(adj: Adjacency, source: Urn, target: Urn, maxDepth: int) returns (r: seq<seq<Urn>>)
    ensures forall p :: p in r <==> |p| <= maxDepth && SimplePath(adj, source, target, p)
    ensures NoRepeats(adj) ==> Once(r)
  {
    var search := new PathSearch(adj, target, maxDepth);
    search.Visit(source, 0, []);
    r := search.results;
    forall p ensures p in r <==> |p| <= maxDepth && SimplePath(adj, source, target, p) {
      ExactPaths(adj, source, target, maxDepth, p);
    }
    if NoRepeats(adj) {
      VisitsOnce(adj, source, target, maxDepth, []);
    }
  }

  // ---- The two searches agree ----

  /** The adjacency has the store's trusted claims as edges. */
  ghost predicate Matches(store: Claims, adj: Adjacency) {
    forall u, v :: v in Next(adj, u) <==> exists c :: Vouches(store, u, c) && c.subject == v
  }

  /** The parties of a chain, from its start to its end. */
  function Parties(from: Urn, chain: seq<Claim>): (s: seq<Urn>)
    ensures |s| == |chain| + 1 && s[|s|-1] == EndOf(from, chain)
    ensures forall i :: 0 <= i <= |chain| ==> s[i] == EndOf(from, chain[..i])
    decreases |chain|
  {
    if chain == [] then [from]
    else
      var s := Parties(from, chain[..|chain|-1]) + [chain[|chain|-1].subject];
      assert forall i :: 0 <= i < |chain| ==> chain[..|chain|-1][..i] == chain[..i];
      assert chain[..|chain|] == chain;
      s
  }

  lemma {:induction false} ChainWalks(store: Claims, adj: Adjacency, from: Urn, chain: seq<Claim>)
    requires Matches(store, adj) && IsChain(store, from, chain)
    ensures Walk(adj, Parties(from, chain)) && Parties(from, chain)[0] == from
    decreases |chain|
  {
    if chain == [] {
    } else {
      var front := chain[..|chain|-1];
      ChainWalks(store, adj, from, front);
      var s := Parties(from, chain);
      forall i | 0 <= i < |s| - 1 ensures Edge(adj, s, i) {
        if i < |chain| - 1 {
          assert Edge(adj, Parties(from, front), i);
        } else {
          assert Vouches(store, EndOf(from, front), chain[|chain|-1]);
        }
      }
    }
  }

  /** A walk is the parties of some chain. */
  lemma {:induction false} WalkChains(store: Claims, adj: Adjacency, s: seq<Urn>) returns (chain: seq<Claim>)
    requires Matches(store, adj) && s != [] && Walk(adj, s)
    ensures IsChain(store, s[0], chain) && |chain| == |s| - 1 && EndOf(s[0], chain) == s[|s|-1]
    decreases |s|
  {
    if |s| == 1 {
      chain := [];
    } else {
      var front := s[..|s|-1];
      forall i | 0 <= i < |front| - 1 ensures Edge(adj, front, i) {
        assert Edge(adj, s, i);
      }
      var before := WalkChains(store, adj, front);
      assert Edge(adj, s, |s| - 2);
      var c :| Vouches(store, s[|s|-2], c) && c.subject == s[|s|-1];
      ExtendChain(store, s[0], before, c);
      chain := before + [c];
    }
  }

  lemma CutFront(chain: seq<Claim>, i: nat, j: nat)
    requires i <= j < |chain|
    ensures var front := chain[..|chain|-1];
      && front[..i] == chain[..i] && front[..j] == chain[..j]
      && chain[..i] + chain[j..] == (front[..i] + front[j..]) + [chain[|chain|-1]]
  {
  }

  /** Leaving out the part between two visits of one party gives a chain again. */
  lemma {:induction false} CutChain(store: Claims, from: Urn, chain: seq<Claim>, i: nat, j: nat)
    requires IsChain(store, from, chain) && i <= j <= |chain| && EndOf(from, chain[..i]) == EndOf(from, chain[..j])
    ensures IsChain(store, from, chain[..i] + chain[j..])
    ensures EndOf(from, chain[..i] + chain[j..]) == EndOf(from, chain)
    decreases |chain|
  {
    PrefixChain(store, from, chain, i);
    if j == |chain| {
      assert chain[..i] + chain[j..] == chain[..i] && chain[..j] == chain;
    } else {
      var front, last := chain[..|chain|-1], chain[|chain|-1];
      CutFront(chain, i, j);
      assert IsChain(store, from, front) && Vouches(store, EndOf(from, front), last);
      CutChain(store, from, front, i, j);
      ExtendChain(store, from, front[..i] + front[j..], last);
    }
  }

  lemma {:induction false} PrefixChain(store: Claims, from: Urn, chain: seq<Claim>, i: nat)
    requires IsChain(store, from, chain) && i <= |chain|
    ensures IsChain(store, from, chain[..i])
    decreases |chain|
  {
    if i == |chain| {
      assert chain[..i] == chain;
    } else {
      PrefixChain(store, from, chain[..|chain|-1], i);
      assert chain[..|chain|-1][..i] == chain[..i];
    }
  }

  lemma PartiesDiffer(store: Claims, self: Urn, target: Urn, r: TrustPath, i: nat, j: nat)
    requires Shortest(store, self, target, r) && i < j <= |r.claims|
    ensures EndOf(self, r.claims[..i]) != EndOf(self, r.claims[..j])
  {
    var cut := r.claims[..i] + r.claims[j..];
    if EndOf(self, r.claims[..i]) == EndOf(self, r.claims[..j]) {
      CutChain(store, self, r.claims, i, j);
    }
    assert Reaches(store, self, target, cut) ==> r.depth <= |cut|;
  }

  /** A shortest chain visits no party twice. */
  lemma ShortestIsSimple(store: Claims, adj: Adjacency, self: Urn, target: Urn, r: TrustPath)
    requires Matches(store, adj) && Shortest(store, self, target, r)
    ensures SimplePath(adj, self, target, Parties(self, r.claims)[..r.depth])
  {
    var s := Parties(self, r.claims);
    ChainWalks(store, adj, self, r.claims);
    assert s[..r.depth] + [target] == s;
    forall i, j | 0 <= i < j < |s| ensures s[i] != s[j] {
      PartiesDiffer(store, self, target, r, i, j);
    }
  }

  /** The two searches agree: the enumeration is empty below the depth that the
      breadth-first search returns and nonempty from it on; and it is empty at every
      depth if that search finds nothing. */
  lemma SearchesAgree(store: Claims, adj: Adjacency, self: Urn, target: Urn, found: Option<TrustPath>, maxDepth: int)
    requires Matches(store, adj) && self != target
    requires found.Some? <==> Reachable(store, self, target)
    requires found.Some? ==> Shortest(store, self, target, found.value)
    ensures Visits(adj, self, target, maxDepth, []) != [] <==> found.Some? && found.value.depth <= maxDepth
  {
    var r := Visits(adj, self, target, maxDepth, []);
    if r != [] {
      var p := r[0];
      assert p in r;
      ExactPaths(adj, self, target, maxDepth, p);
      var chain := WalkChains(store, adj, p + [target]);
      assert Reaches(store, self, target, chain);
    }
    if found.Some? && found.value.depth <= maxDepth {
      var p := Parties(self, found.value.claims)[..found.value.depth];
      ShortestIsSimple(store, adj, self, target, found.value);
      ExactPaths(adj, self, target, maxDepth, p);
    }
  }
}
