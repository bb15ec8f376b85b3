/** Trust claims, and chains of them. */
module TrustGraph {

  type Urn = nat
  type Key = nat

  datatype Claim = Claim(issuer: Urn, subject: Urn, trusted: bool, key: Key)

  /** The claims each issuer made, as the local store returns them; an issuer that is
      absent has none, or cannot be read. */
  type Claims = map<Urn, seq<Claim>>

  function ClaimsBy(store: Claims, u: Urn): seq<Claim> {
    if u in store then store[u] else []
  }

  /** `c` is a trusted claim made by `u`. */
  predicate Vouches(store: Claims, u: Urn, c: Claim) {
    c in ClaimsBy(store, u) && c.trusted
  }

  function EndOf(from: Urn, chain: seq<Claim>): Urn {
    if chain == [] then from else chain[|chain|-1].subject
  }

  /** Each claim of the chain is made by the subject of the one before it. */
  predicate IsChain(store: Claims, from: Urn, chain: seq<Claim>)
    decreases |chain|
  {
    chain == [] || (
      && IsChain(store, from, chain[..|chain|-1])
      && Vouches(store, EndOf(from, chain[..|chain|-1]), chain[|chain|-1]))
  }

  predicate Reaches(store: Claims, from: Urn, target: Urn, chain: seq<Claim>) {
    IsChain(store, from, chain) && EndOf(from, chain) == target
  }

  ghost predicate Reachable(store: Claims, from: Urn, target: Urn) {
    exists chain :: Reaches(store, from, target, chain)
  }

  /** Everyone a chain from `from` can name. */
  function Universe(store: Claims, from: Urn): set<Urn> {
    {from} + set u, i | u in store && 0 <= i < |store[u]| :: store[u][i].subject
  }

  lemma VouchedInUniverse(store: Claims, from: Urn, u: Urn, c: Claim)
    requires Vouches(store, u, c)
    ensures c.subject in Universe(store, from)
  {
    var i :| 0 <= i < |store[u]| && store[u][i] == c;
    assert store[u][i].subject in Universe(store, from);
  }
}
