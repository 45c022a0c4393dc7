/** The ECIES frame: built by one rule, sliced by another
    (snakeskin/_hfc/crypto.py; section 5.1 of SEC 1 v2.0). */
module Ecies {
  import opened Wrappers
  import opened Wire
  import opened Suites

  datatype PrivateKey = PrivateKey(keySize: nat, secret: int)

  datatype PublicKey = PublicKey(keySize: nat, point: int)

  /** The library operations the frame is made with. */
  datatype Primitives = Primitives(
    publicKey: PrivateKey -> PublicKey,
    encodePoint: PublicKey -> bytes,
    decodePoint: (nat, bytes) -> Option<PublicKey>,
    exchange: (PrivateKey, PublicKey) -> bytes,
    hkdf: (Digest, bytes) -> bytes,
    hmac: (Digest, bytes, bytes) -> bytes,
    encrypt: (bytes, bytes, bytes) -> bytes,
    decrypt: (bytes, bytes, bytes) -> bytes)

  const AES_KEY_LENGTH: nat := 32
  const HMAC_KEY_LENGTH: nat := 32
  const IV_LENGTH: nat := 16

  function PointLength(keySize: nat): nat {
    (keySize + 7) / 8 * 2 + 1
  }

  /** Keys agree, and points of real public keys have an exact length and can be decoded. */
  ghost predicate KeyLaws(p: Primitives) {
    && (forall k: PrivateKey :: p.publicKey(k).keySize == k.keySize)
    && (forall k: PrivateKey :: |p.encodePoint(p.publicKey(k))| == PointLength(k.keySize))
    && (forall k: PrivateKey :: p.decodePoint(k.keySize, p.encodePoint(p.publicKey(k))) == Some(p.publicKey(k)))
    && (forall a: PrivateKey, b: PrivateKey | a.keySize == b.keySize ::
          p.exchange(a, p.publicKey(b)) == p.exchange(b, p.publicKey(a)))
  }

  /** Exact lengths, and a cipher that can be undone. */
  ghost predicate CipherLaws(p: Primitives) {
    && (forall d, z :: |p.hkdf(d, z)| == AES_KEY_LENGTH + HMAC_KEY_LENGTH)
    && (forall d, k, m :: |p.hmac(d, k, m)| == DigestSize(d))
    && (forall k, iv, m :: |p.encrypt(k, iv, m)| == |m| && p.decrypt(k, iv, p.encrypt(k, iv, m)) == m)
  }

  ghost predicate Laws(p: Primitives) {
    KeyLaws(p) && CipherLaws(p)
  }

  // A model of the laws: points are residues, keys agree by addition, and the
  // cipher shifts every byte by the first byte of its key.

  function First(b: bytes): int {
    if b == [] then 0 else b[0] as int
  }

  function Shift(b: bytes, offset: int): (r: bytes)
    ensures |r| == |b| && forall i | 0 <= i < |b| :: r[i] as int == (b[i] as int + offset) % 256
  {
    seq(|b|, i requires 0 <= i < |b| => ((b[i] as int + offset) % 256) as byte)
  }

  function Filled(n: nat, first: int): (r: bytes)
    ensures |r| == n && (0 < n ==> First(r) == first % 256)
  {
    seq(n, i => (first % 256) as byte)
  }

  function Residue(n: int): (r: nat)
    ensures r < 251
  {
    n % 251
  }

  function Agreed(a: int, b: int): (r: bytes)
    ensures |r| == 1
  {
    [Residue(Residue(a) + b) as byte]
  }

  function ModelPrimitives(): Primitives {
    Primitives(
      (k: PrivateKey) => PublicKey(k.keySize, Residue(k.secret)),
      (q: PublicKey) => Filled(PointLength(q.keySize), q.point),
      (keySize: nat, b: bytes) => Some(PublicKey(keySize, First(b))),
      (k: PrivateKey, q: PublicKey) => Agreed(k.secret, q.point),
      (d, z) => Filled(64, First(z)),
      (d, k, b) => Filled(DigestSize(d), First(k) + First(b)),
      (k, iv, b) => Shift(b, First(k)),
      (k, iv, b) => Shift(b, -First(k)))
  }

  lemma ByteIsShiftedBack(x: int, offset: int)
    requires 0 <= x < 256
    ensures ((x + offset) % 256 - offset) % 256 == x
  {
    var q := (x + offset) / 256;
    assert (x + offset) % 256 - offset == x - 256 * q;
  }

  lemma ShiftIsUndone(b: bytes, offset: int)
    ensures Shift(Shift(b, offset), -offset) == b
  {
    var shifted := Shift(b, offset);
    forall i | 0 <= i < |b|
      ensures Shift(shifted, -offset)[i] == b[i]
    {
      ByteIsShiftedBack(b[i] as int, offset);
      assert shifted[i] as int == (b[i] as int + offset) % 256;
      assert Shift(shifted, -offset)[i] as int == (shifted[i] as int + -offset) % 256;
    }
  }

  lemma KeyLawsHaveModel()
    ensures KeyLaws(ModelPrimitives())
  {
    var p := ModelPrimitives();
    forall k: PrivateKey
      ensures p.decodePoint(k.keySize, p.encodePoint(p.publicKey(k))) == Some(p.publicKey(k))
    {
      assert First(p.encodePoint(p.publicKey(k))) == Residue(k.secret);
    }
    forall a: PrivateKey, b: PrivateKey | a.keySize == b.keySize
      ensures p.exchange(a, p.publicKey(b)) == p.exchange(b, p.publicKey(a))
    {
      assert Agreed(a.secret, Residue(b.secret)) == Agreed(b.secret, Residue(a.secret));
    }
  }

  lemma CipherLawsHaveModel()
    ensures CipherLaws(ModelPrimitives())
  {
    var p := ModelPrimitives();
    forall k, iv, m
      ensures |p.encrypt(k, iv, m)| == |m| && p.decrypt(k, iv, p.encrypt(k, iv, m)) == m
    {
      var shifted := Shift(m, First(k));
      assert p.encrypt(k, iv, m) == shifted && p.decrypt(k, iv, shifted) == Shift(shifted, -First(k));
      ShiftIsUndone(m, First(k));
    }
    forall d, z
      ensures |p.hkdf(d, z)| == 64
    {
    }
    forall d, k, m
      ensures |p.hmac(d, k, m)| == DigestSize(d)
    {
    }
  }

  /** The laws can be met. */
  lemma LawsHaveModel()
    ensures Laws(ModelPrimitives())
  {
    KeyLawsHaveModel();
    CipherLawsHaveModel();
  }

  datatype Error = InvalidKey | IllegalLength | InvalidPoint | HmacFailed | InvalidIv

  // Both keys are 32 bytes, the first and the second half of the derived output.
  function AesKey(output: bytes): bytes {
    if |output| < AES_KEY_LENGTH then output else output[..AES_KEY_LENGTH]
  }

  function HmacKey(output: bytes): bytes {
    if |output| < AES_KEY_LENGTH then [] else AesKey(output[AES_KEY_LENGTH..])
  }

  lemma KeysAreHalves(output: bytes)
    requires |output| == 64
    ensures AesKey(output) == output[..32] && HmacKey(output) == output[32..64]
  {
    assert output[32..][..32] == output[32..64];
  }

  /** The ephemeral key is on the suite's curve and `iv` is the random 16-byte vector. */
  function Encrypt(p: Primitives, suite: Suite, key: PublicKey, plain: bytes, ephemeral: PrivateKey, iv: bytes)
    : Result<bytes, Error>
  {
    if key.keySize != suite.keySize then
      Err(InvalidKey)
    else
      var rb := p.encodePoint(p.publicKey(ephemeral));
      var output := p.hkdf(suite.digest, p.exchange(ephemeral, key));
      var em := iv + p.encrypt(AesKey(output), iv, plain);
      Ok(rb + em + p.hmac(suite.digest, HmacKey(output), em))
  }

  function Decrypt(p: Primitives, suite: Suite, key: PrivateKey, cipher: bytes): Result<bytes, Error> {
    var dLen, rbLen := key.keySize / 8, PointLength(key.keySize);
    if key.keySize != suite.keySize then
      Err(InvalidKey)
    else if |cipher| <= rbLen + dLen then
      Err(IllegalLength)
    else
      var rb, em, d := cipher[..rbLen], cipher[rbLen..|cipher| - dLen], cipher[|cipher| - dLen..];
      var point := p.decodePoint(suite.keySize, rb);
      if point.None? then
        Err(InvalidPoint)
      else
        var output := p.hkdf(suite.digest, p.exchange(key, point.value));
        if p.hmac(suite.digest, HmacKey(output), em) != d then
          Err(HmacFailed)
        else if |em| < IV_LENGTH then
          Err(InvalidIv)
        else
          Ok(p.decrypt(AesKey(output), em[..IV_LENGTH], em[IV_LENGTH..]))
  }

  /** A frame: a point, a vector, a ciphertext and the tag of the last two, under the
      two halves of the key material. */
  ghost predicate IsFrame(p: Primitives, suite: Suite, key: PrivateKey, cipher: bytes, point: PublicKey, rb: bytes,
                          iv: bytes, body: bytes, plain: bytes) {
    var output := p.hkdf(suite.digest, p.exchange(key, point));
    && |rb| == PointLength(suite.keySize) && |iv| == 16 && |output| == 64
    && p.decodePoint(suite.keySize, rb) == Some(point)
    && cipher == rb + (iv + body) + p.hmac(suite.digest, output[32..64], iv + body)
    && plain == p.decrypt(output[..32], iv, body)
  }

  /** Points of the two curves take 65 and 97 bytes. */
  lemma PointLengths()
    ensures PointLength(256) == 65 && PointLength(384) == 97
  {
  }

  /** What is encrypted is a frame around a body as long as the message, with the
      given vector and the point of the ephemeral key; a key of another curve is refused. */
  lemma EncryptIsFrame(p: Primitives, suite: Suite, key: PrivateKey, plain: bytes, ephemeral: PrivateKey, iv: bytes)
    requires Laws(p) && |iv| == 16 && ephemeral.keySize == suite.keySize
    ensures var cipher := Encrypt(p, suite, p.publicKey(key), plain, ephemeral, iv);
            var point := p.publicKey(ephemeral);
            if key.keySize != suite.keySize then
              cipher == Err(InvalidKey)
            else
              && cipher.Ok?
              && exists body | |body| == |plain| ::
                   IsFrame(p, suite, key, cipher.value, point, p.encodePoint(point), iv, body, plain)
  {
    if key.keySize == suite.keySize {
      var point := p.publicKey(ephemeral);
      var output := p.hkdf(suite.digest, p.exchange(ephemeral, p.publicKey(key)));
      KeysAreHalves(output);
      var body := p.encrypt(AesKey(output), iv, plain);
      assert p.exchange(key, point) == p.exchange(ephemeral, p.publicKey(key));
      assert p.decodePoint(ephemeral.keySize, p.encodePoint(p.publicKey(ephemeral))) == Some(point);
      assert IsFrame(p, suite, key, Encrypt(p, suite, p.publicKey(key), plain, ephemeral, iv).value, point,
                     p.encodePoint(point), iv, body, plain);
    }
  }

  /** Decryption raises the first thing that is wrong: the curve of the key, the
      length, the point, the tag, and last a vector that is cut short. */
  lemma DecryptRaises(p: Primitives, suite: Suite, key: PrivateKey, cipher: bytes)
    ensures key.keySize != suite.keySize ==> Decrypt(p, suite, key, cipher) == Err(InvalidKey)
    ensures key.keySize == suite.keySize ==>
              var tagLength, pointLength := key.keySize / 8, PointLength(key.keySize);
              if |cipher| <= pointLength + tagLength then
                Decrypt(p, suite, key, cipher) == Err(IllegalLength)
              else
                var point := p.decodePoint(suite.keySize, cipher[..pointLength]);
                var em, tag := cipher[pointLength..|cipher| - tagLength], cipher[|cipher| - tagLength..];
                if point.None? then
                  Decrypt(p, suite, key, cipher) == Err(InvalidPoint)
                else
                  var output := p.hkdf(suite.digest, p.exchange(key, point.value));
                  |output| == 64 ==>
                    if p.hmac(suite.digest, output[32..64], em) != tag then
                      Decrypt(p, suite, key, cipher) == Err(HmacFailed)
                    else if |em| < 16 then
                      Decrypt(p, suite, key, cipher) == Err(InvalidIv)
                    else
                      Decrypt(p, suite, key, cipher) == Ok(p.decrypt(output[..32], em[..16], em[16..]))
  {
    if key.keySize == suite.keySize && |cipher| > PointLength(key.keySize) + key.keySize / 8 {
      var point := p.decodePoint(suite.keySize, cipher[..PointLength(key.keySize)]);
      if point.Some? && |p.hkdf(suite.digest, p.exchange(key, point.value))| == 64 {
        KeysAreHalves(p.hkdf(suite.digest, p.exchange(key, point.value)));
      }
    }
  }

  /** In a suite whose tag fits, decryption accepts exactly the frames, and returns
      what their body decrypts to. */
  lemma DecryptAcceptsFrames(p: Primitives, suite: Suite, key: PrivateKey, cipher: bytes, plain: bytes)
    requires Laws(p) && TagFits(suite) && key.keySize == suite.keySize
    ensures Decrypt(p, suite, key, cipher) == Ok(plain)
            <==> exists point, rb, iv, body :: IsFrame(p, suite, key, cipher, point, rb, iv, body, plain)
  {
    if Decrypt(p, suite, key, cipher) == Ok(plain) {
      var point, rb, iv, body := AcceptedIsFrame(p, suite, key, cipher, plain);
    }
    if point, rb, iv, body :| IsFrame(p, suite, key, cipher, point, rb, iv, body, plain) {
      FrameDecrypts(p, suite, key, cipher, point, rb, iv, body, plain);
    }
  }

  lemma AcceptedIsFrame(p: Primitives, suite: Suite, key: PrivateKey, cipher: bytes, plain: bytes)
    returns (point: PublicKey, rb: bytes, iv: bytes, body: bytes)
    requires Laws(p) && TagFits(suite) && key.keySize == suite.keySize
    requires Decrypt(p, suite, key, cipher) == Ok(plain)
    ensures IsFrame(p, suite, key, cipher, point, rb, iv, body, plain)
  {
    var dLen, rbLen := key.keySize / 8, PointLength(key.keySize);
    rb := cipher[..rbLen];
    var em, d := cipher[rbLen..|cipher| - dLen], cipher[|cipher| - dLen..];
    iv, body := em[..IV_LENGTH], em[IV_LENGTH..];
    assert cipher == rb + em + d && em == iv + body;
    point := p.decodePoint(suite.keySize, rb).value;
    KeysAreHalves(p.hkdf(suite.digest, p.exchange(key, point)));
  }

  lemma FrameDecrypts(p: Primitives, suite: Suite, key: PrivateKey, cipher: bytes, point: PublicKey, rb: bytes,
                      iv: bytes, body: bytes, plain: bytes)
    requires Laws(p) && TagFits(suite) && key.keySize == suite.keySize
    requires IsFrame(p, suite, key, cipher, point, rb, iv, body, plain)
    ensures Decrypt(p, suite, key, cipher) == Ok(plain)
  {
    var output := p.hkdf(suite.digest, p.exchange(key, point));
    KeysAreHalves(output);
    var em := iv + body;
    var tag := p.hmac(suite.digest, HmacKey(output), em);
    var rbLen, end := |rb|, |cipher| - |tag|;
    assert |tag| == DigestSize(suite.digest);
    assert cipher[..rbLen] == rb && cipher[rbLen..end] == em && cipher[end..] == tag;
    assert em[..IV_LENGTH] == iv && em[IV_LENGTH..] == body;
  }

  /** ECIES round trip: with keys on the curve of the suite, decryption undoes
      encryption of every message exactly in the suites whose digest is as long as
      the tag that is sliced off; in any other suite it rejects every ciphertext. */
  lemma EciesRoundTrip(p: Primitives, securityLevel: int, hash: HashName, key: PrivateKey, ephemeral: PrivateKey,
                       iv: bytes, plain: bytes)
    requires Laws(p) && |iv| == IV_LENGTH
    requires key.keySize == ephemeral.keySize == NewSuite(securityLevel, hash).keySize
    ensures var suite := NewSuite(securityLevel, hash);
            var cipher := Encrypt(p, suite, p.publicKey(key), plain, ephemeral, iv);
            && cipher.Ok?
            && (Decrypt(p, suite, key, cipher.value) == Ok(plain)
                <==> if securityLevel == 256 then hash != OtherHash else hash != SHA2)
            && (Decrypt(p, suite, key, cipher.value).Ok? <==> TagFits(suite))
  {
    var suite := NewSuite(securityLevel, hash);
    var point := p.publicKey(ephemeral);
    var output := p.hkdf(suite.digest, p.exchange(ephemeral, p.publicKey(key)));
    var body := p.encrypt(AesKey(output), iv, plain);
    KeysAreHalves(output);
    var cipher := Encrypt(p, suite, p.publicKey(key), plain, ephemeral, iv).value;
    assert p.exchange(key, point) == p.exchange(ephemeral, p.publicKey(key));
    if TagFits(suite) {
      assert p.decodePoint(suite.keySize, p.encodePoint(p.publicKey(ephemeral))) == Some(point);
      FrameDecrypts(p, suite, key, cipher, point, p.encodePoint(point), iv, body, plain);
    } else {
      MisfitIsRejected(p, suite, key, cipher);
    }
  }

  /** A tag of the wrong length equals no digest. */
  lemma MisfitIsRejected(p: Primitives, suite: Suite, key: PrivateKey, cipher: bytes)
    requires Laws(p) && !TagFits(suite) && key.keySize == suite.keySize
    ensures Decrypt(p, suite, key, cipher).Err?
  {
    var dLen, rbLen := key.keySize / 8, PointLength(key.keySize);
    if |cipher| > rbLen + dLen {
      var em, d := cipher[rbLen..|cipher| - dLen], cipher[|cipher| - dLen..];
      assert |d| == dLen;
      forall k
        ensures p.hmac(suite.digest, k, em) != d
      {
        assert |p.hmac(suite.digest, k, em)| == DigestSize(suite.digest);
      }
    }
  }
}
