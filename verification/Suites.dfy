/** The crypto suite: a curve and a hash chosen by the caller
    (snakeskin/_hfc/crypto.py, constructor of Ecies). */
module Suites {

  // The orders of P-256 and P-384 (sections D.1.2.3 and D.1.2.4 of FIPS 186-4).
  const P256_ORDER: int := 115792089210356248762697446949407573529996955224135760342422259061068512044369
  const P384_ORDER: int :=
    39402006196394479212279040100143613805079739270465446667946905279627659399113263569398956308152294913554433653942643

  datatype HashName = SHA2 | SHA3 | OtherHash

  datatype Digest = Sha256 | Sha384 | Sha3_256 | Sha3_384

  function DigestSize(d: Digest): nat {
    if d == Sha384 || d == Sha3_384 then 48 else 32
  }

  /** `signDigest` is what signatures are made over, `digest` is for everything else. */
  datatype Suite = Suite(order: int, halfOrder: int, keySize: nat, signDigest: Digest, digest: Digest)

  /** Any level but 256 selects P-384, and any hash the chain does not recognise selects SHA3-384. */
  function NewSuite(securityLevel: int, hash: HashName): Suite {
    var order := if securityLevel == 256 then P256_ORDER else P384_ORDER;
    Suite(order, order / 2, if securityLevel == 256 then 256 else 384, if securityLevel == 256 then Sha256 else Sha384,
          if hash == SHA2 then Sha256
          else if hash == SHA3 && securityLevel == 256 then Sha3_256
          else Sha3_384)
  }

  /** Each suite has the order of its own curve, in the hexadecimal form of FIPS 186-4,
      and its own digests. */
  lemma SuiteIs(securityLevel: int, hash: HashName)
    ensures securityLevel == 256 ==>
              NewSuite(securityLevel, hash).order
              == 0xFFFFFFFF00000000FFFFFFFFFFFFFFFFBCE6FAADA7179E84F3B9CAC2FC632551
    ensures securityLevel != 256 ==>
              NewSuite(securityLevel, hash).order
              == 0xFFFFFFFFFFFFFFFFFFFFFFFFFFFFFFFFFFFFFFFFFFFFFFFFC7634D81F4372DDF581A0DB248B0A77AECEC196ACCC52973
    ensures var suite := NewSuite(securityLevel, hash);
            && suite.order == 2 * suite.halfOrder + 1
            && suite.keySize == (if securityLevel == 256 then 256 else 384)
            && suite.signDigest == (if securityLevel == 256 then Sha256 else Sha384)
            && (hash == SHA2 ==> suite.digest == Sha256)
            && (hash == SHA3 && securityLevel == 256 ==> suite.digest == Sha3_256)
            && (hash == SHA3 && securityLevel != 256 ==> suite.digest == Sha3_384)
            && (hash == OtherHash ==> suite.digest == Sha3_384)
    ensures DigestSize(Sha256) == DigestSize(Sha3_256) == 32 && DigestSize(Sha384) == DigestSize(Sha3_384) == 48
  {
  }

  /** The tag length that decryption assumes is the digest length only in these suites. */
  predicate TagFits(suite: Suite) {
    DigestSize(suite.digest) == suite.keySize / 8
  }
}
