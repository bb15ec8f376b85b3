/** Symbolic cryptography of the session handshake. A byte string is a string whose
    characters are bytes. X25519 is commutative (section 6.1 of RFC 7748); HKDF
    (sections 2.2 and 2.3 of RFC 5869), HMAC, hashing and signing are injective, and a
    signature under a key is made only with that key. */
module HandshakeCrypto {
  import opened Basics

  type Bytes = string
  type Identity = nat
  type Scalar = nat

  /** A public point of some scalar, or one that the exchange refuses. */
  datatype Point = PointOf(scalar: Scalar) | LowOrder(tag: nat)

  /** What the two scalars of an exchange share, whoever computes it. */
  datatype Shared = Shared(low: Scalar, high: Scalar)

  function Exchange(own: Scalar, peer: Point): Option<Shared> {
    match peer
    case LowOrder(_) => None
    case PointOf(x) => Some(if own <= x then Shared(own, x) else Shared(x, own))
  }

  datatype Digest = Sha256(preimage: Bytes)

  datatype Secret = Extract(salt: Digest, input: Shared)

  datatype KeyMaterial = Expand(secret: Secret, info: Bytes)

  datatype Mac = Hmac(key: KeyMaterial, message: Digest) | OtherMac(tag: nat)

  // ---- Big-endian numbers ----

  function Pow256(width: nat): nat {
    if width == 0 then 1 else 256 * Pow256(width - 1)
  }

  function BigEndian(n: nat, width: nat): (s: Bytes)
    ensures |s| == width
  {
    if width == 0 then [] else BigEndian(n / 256, width - 1) + [(n % 256) as char]
  }

  lemma {:induction false} BigEndianInjective(n: nat, m: nat, width: nat)
    requires n < Pow256(width) && m < Pow256(width) && BigEndian(n, width) == BigEndian(m, width)
    ensures n == m
    decreases width
  {
    if width == 0 {
    } else {
      var a, b := BigEndian(n / 256, width - 1), BigEndian(m / 256, width - 1);
      assert a + [(n % 256) as char] == b + [(m % 256) as char];
      assert a == (a + [(n % 256) as char])[..width-1] && b == (b + [(m % 256) as char])[..width-1];
      assert (n % 256) as char == (m % 256) as char by {
        assert (a + [(n % 256) as char])[width-1] == (b + [(m % 256) as char])[width-1];
      }
      assert n / 256 < Pow256(width - 1) && m / 256 < Pow256(width - 1);
      BigEndianInjective(n / 256, m / 256, width - 1);
    }
  }

  lemma FourBytes()
    ensures Pow256(4) == 0x1_0000_0000
  {
    assert Pow256(2) == 65536 && Pow256(3) == 16777216;
  }

  lemma EightBytes()
    ensures Pow256(8) == 0x1_0000_0000_0000_0000
  {
    FourBytes();
    assert Pow256(6) == 256 * Pow256(5) && Pow256(5) == 256 * Pow256(4) && Pow256(7) == 256 * Pow256(6);
  }

  lemma Cut(a: Bytes, b: Bytes, c: Bytes, d: Bytes)
    requires |a| == |c| && a + b == c + d
    ensures a == c && b == d
  {
    assert a == (a + b)[..|a|] && c == (c + d)[..|c|];
    assert b == (a + b)[|a|..] && d == (c + d)[|c|..];
  }

  // ---- The transcript ----

  const TRANSCRIPT_DOMAIN: Bytes := "agent-comm-v2-transcript" + [0 as char]
  const MAX_FRAME: nat := 65536

  /** Each frame is preceded by its length in four bytes. */
  function Transcript(init: Bytes, accept: Bytes): Bytes {
    TRANSCRIPT_DOMAIN + BigEndian(|init|, 4) + init + BigEndian(|accept|, 4) + accept
  }

  /** A length prefix tells where a frame ends. */
  lemma PrefixInjective(a: Bytes, x: Bytes, c: Bytes, y: Bytes)
    requires |a| <= MAX_FRAME && |c| <= MAX_FRAME
    requires BigEndian(|a|, 4) + (a + x) == BigEndian(|c|, 4) + (c + y)
    ensures a == c && x == y
  {
    FourBytes();
    Cut(BigEndian(|a|, 4), a + x, BigEndian(|c|, 4), c + y);
    BigEndianInjective(|a|, |c|, 4);
    Cut(a, x, c, y);
  }

  lemma TranscriptParts(a: Bytes, b: Bytes)
    ensures Transcript(a, b) == TRANSCRIPT_DOMAIN + (BigEndian(|a|, 4) + (a + (BigEndian(|b|, 4) + (b + []))))
  {
    var x, y, z := BigEndian(|a|, 4), BigEndian(|b|, 4), TRANSCRIPT_DOMAIN;
    assert b + [] == b;
    assert ((z + x) + a) + y + b == z + (x + (a + (y + b)));
  }

  /** Different pairs of frames have different transcripts. */
  lemma TranscriptInjective(a: Bytes, b: Bytes, c: Bytes, d: Bytes)
    requires |a| <= MAX_FRAME && |b| <= MAX_FRAME && |c| <= MAX_FRAME && |d| <= MAX_FRAME
    requires Transcript(a, b) == Transcript(c, d)
    ensures a == c && b == d
  {
    TranscriptParts(a, b);
    TranscriptParts(c, d);
    var x, y := BigEndian(|b|, 4) + (b + []), BigEndian(|d|, 4) + (d + []);
    Cut(TRANSCRIPT_DOMAIN, BigEndian(|a|, 4) + (a + x), TRANSCRIPT_DOMAIN, BigEndian(|c|, 4) + (c + y));
    PrefixInjective(a, x, c, y);
    PrefixInjective(b, [], d, []);
  }

  // ---- Key contexts ----

  datatype Direction = AToB | BToA

  function DirectionText(d: Direction): (s: Bytes)
    ensures |s| == 6
  {
    if d.AToB? then "a_to_b" else "b_to_a"
  }

  datatype Purpose = Finished(direction: Direction)
                   | Body(direction: Direction, sequence: nat)
                   | SequenceSkip(direction: Direction, sequence: nat)

  const NUL: Bytes := [0 as char]

  /** The context string from which a key of a session is expanded. */
  function Info(id: Bytes, purpose: Purpose): Bytes {
    match purpose
    case Finished(d) => "agent-comm-v2/finished" + NUL + id + NUL + DirectionText(d)
    case Body(d, n) => "agent-comm-v2/private-body" + NUL + id + NUL + DirectionText(d) + NUL + BigEndian(n, 8)
    case SequenceSkip(d, n) =>
      "agent-comm-v2/private-sequence-skip" + NUL + id + NUL + DirectionText(d) + NUL + BigEndian(n, 8)
  }

  const MAX_UINT_64: nat := 0xffff_ffff_ffff_ffff

  predicate Fits(p: Purpose) {
    p.Finished? || p.sequence <= MAX_UINT_64
  }

  /** The rest of a context after its label. */
  function Rest(id: Bytes, p: Purpose): Bytes {
    match p
    case Finished(d) => id + (NUL + DirectionText(d))
    case _ => id + (NUL + (DirectionText(p.direction) + (NUL + BigEndian(p.sequence, 8))))
  }

  function Label(p: Purpose): Bytes {
    match p
    case Finished(_) => "agent-comm-v2/finished" + NUL
    case Body(_, _) => "agent-comm-v2/private-body" + NUL
    case SequenceSkip(_, _) => "agent-comm-v2/private-sequence-skip" + NUL
  }

  lemma InfoParts(id: Bytes, p: Purpose)
    ensures Info(id, p) == Label(p) + Rest(id, p)
  {
  }

  /** Contexts of different kinds differ in their labels. */
  lemma LabelsDiffer(id: Bytes, p: Purpose, q: Purpose)
    requires Info(id, p) == Info(id, q)
    ensures Label(p) == Label(q) && (p.Finished? <==> q.Finished?) && (p.Body? <==> q.Body?)
  {
    InfoParts(id, p);
    InfoParts(id, q);
    assert Label(p)[14] == Info(id, p)[14] && Label(q)[14] == Info(id, q)[14];
    assert Label(p)[22] == Info(id, p)[22] && Label(q)[22] == Info(id, q)[22];
  }

  /** In one session, contexts of different purpose, direction or sequence differ. */
  lemma InfoInjective(id: Bytes, p: Purpose, q: Purpose)
    requires Fits(p) && Fits(q) && Info(id, p) == Info(id, q)
    ensures p == q
  {
    LabelsDiffer(id, p, q);
    InfoParts(id, p);
    InfoParts(id, q);
    Cut(Label(p), Rest(id, p), Label(q), Rest(id, q));
    if p.Finished? {
      Cut(id, NUL + DirectionText(p.direction), id, NUL + DirectionText(q.direction));
      Cut(NUL, DirectionText(p.direction), NUL, DirectionText(q.direction));
    } else {
      var x, y := NUL + BigEndian(p.sequence, 8), NUL + BigEndian(q.sequence, 8);
      Cut(id, NUL + (DirectionText(p.direction) + x), id, NUL + (DirectionText(q.direction) + y));
      Cut(NUL, DirectionText(p.direction) + x, NUL, DirectionText(q.direction) + y);
      Cut(DirectionText(p.direction), x, DirectionText(q.direction), y);
      Cut(NUL, BigEndian(p.sequence, 8), NUL, BigEndian(q.sequence, 8));
      EightBytes();
      BigEndianInjective(p.sequence, q.sequence, 8);
    }
    assert DirectionText(p.direction)[0] == DirectionText(q.direction)[0];
  }
}
