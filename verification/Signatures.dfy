/** Low-S normalisation of ECDSA signatures (snakeskin/_hfc/crypto.py). */
module Signatures {
  import opened Wrappers
  import opened Wire
  import opened Suites

  // -------------------------------------------------------------- normalisation

  function Normalise(suite: Suite, s: int): int {
    if s > suite.halfOrder then suite.order - s else s
  }

  /** The order is odd, so no value is its own twin. */
  predicate OddOrder(suite: Suite) {
    suite.order == 2 * suite.halfOrder + 1 && 0 < suite.halfOrder
  }

  lemma SuiteOrderIsOdd(securityLevel: int, hash: HashName)
    ensures OddOrder(NewSuite(securityLevel, hash))
  {
  }

  /** Normalisation lands in the lower half, changes nothing there, and identifies
      a value with its negation and with nothing else. */
  lemma NormaliseIsLowS(suite: Suite, s: int, t: int)
    requires OddOrder(suite)
    requires 0 < s < suite.order && 0 < t < suite.order
    ensures 0 < Normalise(suite, s) <= suite.halfOrder
    ensures Normalise(suite, Normalise(suite, s)) == Normalise(suite, s)
    ensures Normalise(suite, s) == Normalise(suite, t) <==> s == t || s + t == suite.order
  {
  }

  // ------------------------------------------------- the verification equation

  /** Points of an elliptic curve, as far as signature verification looks at them. */
  datatype Curve<!P> = Curve(zero: P, add: (P, P) -> P, scale: (int, P) -> P, negate: P -> P, x: P -> int)

  /** Scalars count modulo the order, and negation is an involution that commutes
      with the group operations and keeps the x-coordinate. */
  ghost predicate CurveLaws<P(!new)>(c: Curve<P>, n: int) {
    && (forall a, b, p | 0 < n && a % n == b % n :: c.scale(a, p) == c.scale(b, p))
    && (forall a, p :: c.scale(-a, p) == c.negate(c.scale(a, p)))
    && (forall p, q :: c.add(c.negate(p), c.negate(q)) == c.negate(c.add(p, q)))
    && (forall p :: c.negate(c.negate(p)) == p)
    && c.negate(c.zero) == c.zero
    && (forall p :: c.x(c.negate(p)) == c.x(p))
  }

  /** Scalars are taken modulo `n`, as numbers between `-n/2` and `n/2`. */
  function Centred(a: int, n: int): int {
    if n == 0 then 0 else if 2 * (a % n) < n then a % n else a % n - n
  }

  /** Multiples of a generator as integers, with `|p|` for a coordinate. */
  function ModelCurve(n: int): Curve<int>
    requires 0 < n
  {
    Curve(0, (p, q) => p + q, (a, p) => Centred(a, n), p => -p, p => if p < 0 then -p else p)
  }

  /** The laws can be met, for every odd order. */
  lemma CurveLawsHaveModel(n: int)
    requires 0 < n && n % 2 == 1
    ensures CurveLaws(ModelCurve(n), n)
  {
    forall a
      ensures Centred(-a, n) == -Centred(a, n)
    {
      NegatedResidue(a, n);
    }
  }

  lemma NegatedResidue(a: int, n: int)
    requires 0 < n
    ensures (-a) % n == if a % n == 0 then 0 else n - a % n
  {
    NegatedMod(a, -a, 0, n);
    if a % n == 0 {
      SmallMod(0, n);
    } else {
      SmallMod(n - a % n, n);
      SameResidue(n - a % n, -(a % n), n, 1);
    }
  }

  /** The point that the verification equation of section 4.1.4 of SEC 1 computes
      from the inverse `w` of `s`. */
  ghost function VerificationPoint<P>(c: Curve<P>, n: int, base: P, key: P, e: int, r: int, w: int): P
    requires 0 < n
  {
    c.add(c.scale((e * w) % n, base), c.scale((r * w) % n, key))
  }

  /** `(r, s)` is a signature of the hash `e` under `key` (section 4.1.4 of SEC 1 v2.0). */
  ghost predicate Verifies<P>(c: Curve<P>, n: int, base: P, key: P, e: int, r: int, s: int)
    requires 0 < n
  {
    && 0 < r < n && 0 < s < n
    && exists w | 0 < w < n && (s * w) % n == 1 ::
         var point := VerificationPoint(c, n, base, key, e, r, w);
         point != c.zero && c.x(point) % n == r
  }

  lemma DivMod(x: int, n: int)
    requires 0 < n
    ensures x == (x / n) * n + x % n
  {
  }

  lemma SmallMod(r: int, n: int)
    requires 0 <= r < n
    ensures r % n == r
  {
  }

  lemma Distribute(a: int, b: int, n: int)
    ensures (a - b) * n == a * n - b * n
  {
  }

  lemma SameResidue(a: int, b: int, n: int, k: int)
    requires 0 < n && a == b + k * n
    ensures a % n == b % n
  {
    var d := a / n - b / n - k;
    assert (d > 0 ==> d * n >= n) && (d < 0 ==> d * n <= -n);
    DivMod(a, n);
    DivMod(b, n);
    Distribute(a / n, b / n, n);
    Distribute(a / n - b / n, k, n);
    assert d * n == b % n - a % n;
  }

  /** If `x + y` is a multiple of `n`, then `y` has the residue of `-x`. */
  lemma NegatedMod(x: int, y: int, e: int, n: int)
    requires 0 < n && x + y == e * n
    ensures y % n == (-(x % n)) % n
  {
    DivMod(x, n);
    Distribute(e, x / n, n);
    SameResidue(y, -(x % n), n, e - x / n);
  }

  /** Negating both factors keeps a product, modulo n. */
  lemma NegatedInverse(s: int, w: int, n: int)
    requires 0 < n
    ensures ((n - s) * (n - w)) % n == (s * w) % n
  {
    Distribute(n, s, n - w);
    Distribute(n, w, n);
    Distribute(n - w, s, n);
    assert s * (n - w) == s * n - s * w by { Distribute(n, w, s); }
    SameResidue((n - s) * (n - w), s * w, n, n - w - s);
  }

  lemma NegatedScalar(e: int, w: int, n: int)
    requires 0 < n
    ensures ((e * (n - w)) % n) % n == (-((e * w) % n)) % n
  {
    Distribute(n, w, e);
    NegatedMod(e * w, e * (n - w), e, n);
    SmallMod((e * (n - w)) % n, n);
  }

  lemma TwinPoint<P(!new)>(c: Curve<P>, n: int, base: P, key: P, e: int, r: int, w: int)
    requires 0 < n && CurveLaws(c, n)
    ensures VerificationPoint(c, n, base, key, e, r, n - w)
            == c.negate(VerificationPoint(c, n, base, key, e, r, w))
  {
    NegatedScalar(e, w, n);
    NegatedScalar(r, w, n);
    assert c.scale((e * (n - w)) % n, base) == c.scale(-((e * w) % n), base);
    assert c.scale((r * (n - w)) % n, key) == c.scale(-((r * w) % n), key);
  }

  lemma TwinVerifies<P(!new)>(c: Curve<P>, n: int, base: P, key: P, e: int, r: int, s: int)
    requires 0 < n && CurveLaws(c, n)
    requires Verifies(c, n, base, key, e, r, s)
    ensures Verifies(c, n, base, key, e, r, n - s)
  {
    var w :| 0 < w < n && (s * w) % n == 1
             && VerificationPoint(c, n, base, key, e, r, w) != c.zero
             && c.x(VerificationPoint(c, n, base, key, e, r, w)) % n == r;
    NegatedInverse(s, w, n);
    TwinPoint(c, n, base, key, e, r, w);
    assert 0 < n - w < n && ((n - s) * (n - w)) % n == 1;
  }

  /** Low-S soundness: negating `s` never changes whether a signature verifies. */
  lemma VerificationIgnoresSign<P(!new)>(c: Curve<P>, n: int, base: P, key: P, e: int, r: int, s: int)
    requires 0 < n && CurveLaws(c, n)
    ensures Verifies(c, n, base, key, e, r, n - s) <==> Verifies(c, n, base, key, e, r, s)
  {
    if Verifies(c, n, base, key, e, r, s) {
      TwinVerifies(c, n, base, key, e, r, s);
    }
    if Verifies(c, n, base, key, e, r, n - s) {
      TwinVerifies(c, n, base, key, e, r, n - s);
    }
  }

  // ------------------------------------------------------------ sign and verify

  /** The DER encoding of a signature; decoding fails on malformed bytes. */
  datatype Der = Der(encode: (int, int) -> bytes, decode: bytes -> Option<(int, int)>)

  ghost predicate DerLaws(der: Der) {
    forall r, s :: der.decode(der.encode(r, s)) == Some((r, s))
  }

  // A model of the law: a run of ones for the first number, then one of zeros.

  function Folded(n: int): nat {
    if n < 0 then -2 * n - 1 else 2 * n
  }

  function Unfolded(k: nat): int {
    if k % 2 == 0 then k / 2 else -(k / 2) - 1
  }

  function Runs(ones: nat, zeros: nat): bytes {
    seq(ones, i => 1) + seq(zeros, i => 0)
  }

  function LeadingOnes(b: bytes): (n: nat)
    ensures n <= |b|
  {
    if b == [] || b[0] != 1 then 0 else 1 + LeadingOnes(b[1..])
  }

  lemma {:induction false} RunsAreCounted(ones: nat, zeros: nat)
    ensures LeadingOnes(Runs(ones, zeros)) == ones
  {
    if ones > 0 {
      assert Runs(ones, zeros)[1..] == Runs(ones - 1, zeros);
      RunsAreCounted(ones - 1, zeros);
    }
  }

  lemma FoldIsUndone(n: int)
    ensures Unfolded(Folded(n)) == n
  {
  }

  function TwoRuns(r: int, s: int): bytes {
    Runs(Folded(r), Folded(s))
  }

  function Counted(b: bytes): Option<(int, int)> {
    Some((Unfolded(LeadingOnes(b)), Unfolded(|b| - LeadingOnes(b))))
  }

  lemma RunsRoundTrip(r: int, s: int)
    ensures Counted(TwoRuns(r, s)) == Some((r, s))
  {
    RunsAreCounted(Folded(r), Folded(s));
    FoldIsUndone(r);
    FoldIsUndone(s);
  }

  /** The law can be met. */
  lemma DerLawsHaveModel()
    ensures DerLaws(Der(TwoRuns, Counted))
  {
    forall r, s
      ensures Counted(TwoRuns(r, s)) == Some((r, s))
    {
      RunsRoundTrip(r, s);
    }
  }

  function PreventMalleability(suite: Suite, der: Der, sig: bytes): Option<bytes> {
    var (r, s) :- der.decode(sig);
    Some(der.encode(r, Normalise(suite, s)))
  }

  function CheckMalleability(suite: Suite, der: Der, sig: bytes): Option<bool> {
    var (_, s) :- der.decode(sig);
    Some(s <= suite.halfOrder)
  }

  /** `raw` is what the private key produced; `None` is the error of malformed DER. */
  function Sign(suite: Suite, der: Der, raw: bytes): Option<bytes> {
    PreventMalleability(suite, der, raw)
  }

  /** A public key accepts the signatures that satisfy the verification equation for the message hash. */
  ghost predicate KeyAccepts<P>(c: Curve<P>, n: int, base: P, key: P, e: int, der: Der, sig: bytes)
    requires 0 < n
  {
    der.decode(sig).Some? && Verifies(c, n, base, key, e, der.decode(sig).value.0, der.decode(sig).value.1)
  }

  /** The hash of a message, as a number, under a digest. */
  type MessageHash = (Digest, bytes) -> int

  ghost function Verify<P>(suite: Suite, der: Der, c: Curve<P>, base: P, key: P, hash: MessageHash, message: bytes,
                           sig: bytes): Option<bool>
    requires 0 < suite.order
  {
    var low :- CheckMalleability(suite, der, sig);
    Some(low && KeyAccepts(c, suite.order, base, key, hash(suite.signDigest, message), der, sig))
  }

  /** A signature is accepted exactly when its `s` is in the lower half and it
      satisfies the key for the suite's own digest of the message; bytes that are no
      signature are an error of both operations. */
  lemma VerifyIff<P(!new)>(suite: Suite, der: Der, c: Curve<P>, base: P, key: P, hash: MessageHash, message: bytes,
                           sig: bytes)
    requires 0 < suite.order
    ensures der.decode(sig).None? ==>
              Sign(suite, der, sig) == None && Verify(suite, der, c, base, key, hash, message, sig) == None
    ensures der.decode(sig).Some? ==>
              var (r, s) := der.decode(sig).value;
              Verify(suite, der, c, base, key, hash, message, sig)
              == Some(s <= suite.halfOrder
                      && Verifies(c, suite.order, base, key, hash(suite.signDigest, message), r, s))
  {
  }

  /** `verify` accepts everything `sign` emits: what the private key produced is
      accepted after normalisation exactly when the key would accept it as it was. */
  lemma SignedVerifies<P(!new)>(suite: Suite, der: Der, c: Curve<P>, base: P, key: P, hash: MessageHash,
                                message: bytes, raw: bytes)
    requires OddOrder(suite) && DerLaws(der) && CurveLaws(c, suite.order)
    requires der.decode(raw).Some?
    ensures Sign(suite, der, raw).Some?
    ensures var (r, s) := der.decode(raw).value;
            der.decode(Sign(suite, der, raw).value)
            == Some((r, if s <= suite.halfOrder then s else suite.order - s))
    ensures Verify(suite, der, c, base, key, hash, message, Sign(suite, der, raw).value)
            == Some(KeyAccepts(c, suite.order, base, key, hash(suite.signDigest, message), der, raw))
  {
    var (r, s) := der.decode(raw).value;
    VerificationIgnoresSign(c, suite.order, base, key, hash(suite.signDigest, message), r, s);
    var t := Normalise(suite, s);
    assert der.decode(der.encode(r, t)) == Some((r, t));
  }

  /** Of a signature and its twin, `verify` accepts exactly one when the key accepts
      either: what it accepts cannot be altered by negating `s`. */
  lemma OnlyOneTwinVerifies<P(!new)>(suite: Suite, der: Der, c: Curve<P>, base: P, key: P, hash: MessageHash,
                                     message: bytes, r: int, s: int)
    requires OddOrder(suite) && DerLaws(der) && CurveLaws(c, suite.order)
    requires Verifies(c, suite.order, base, key, hash(suite.signDigest, message), r, s)
    ensures Verify(suite, der, c, base, key, hash, message, der.encode(r, s)) == Some(true)
            <==> Verify(suite, der, c, base, key, hash, message, der.encode(r, suite.order - s)) == Some(false)
  {
    VerificationIgnoresSign(c, suite.order, base, key, hash(suite.signDigest, message), r, s);
    assert der.decode(der.encode(r, s)) == Some((r, s));
    assert der.decode(der.encode(r, suite.order - s)) == Some((r, suite.order - s));
  }
}
