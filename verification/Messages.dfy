/** The Hyperledger Fabric messages that carry a transaction, with the field
    numbers of the generated descriptors. For a message type M, `MBytes`
    serializes and `ParseM` parses; `MRoundTrip` connects the two. */
module Messages {
  import opened Wrappers
  import opened Wire

  // ---------------------------------------------------------------- strings

  predicate Continues(b: bytes, i: nat, low: byte, high: byte) {
    i < |b| && low <= b[i] <= high
  }

  /** The length of the UTF-8 sequence at the head of `b`, or 0 if there is none
      (section 4 of RFC 3629). */
  function Utf8Length(b: bytes): (n: nat)
    requires b != []
    ensures n <= |b|
  {
    var lead := b[0];
    if lead <= 0x7F then
      1
    else if 0xC2 <= lead <= 0xDF && Continues(b, 1, 0x80, 0xBF) then
      2
    else if 0xE0 <= lead <= 0xEF && Continues(b, 2, 0x80, 0xBF)
            && Continues(b, 1, if lead == 0xE0 then 0xA0 else 0x80, if lead == 0xED then 0x9F else 0xBF) then
      3
    else if 0xF0 <= lead <= 0xF4 && Continues(b, 2, 0x80, 0xBF) && Continues(b, 3, 0x80, 0xBF)
            && Continues(b, 1, if lead == 0xF0 then 0x90 else 0x80, if lead == 0xF4 then 0x8F else 0xBF) then
      4
    else
      0
  }

  predicate IsUtf8(b: bytes) {
    b == [] || (Utf8Length(b) != 0 && IsUtf8(b[Utf8Length(b)..]))
  }

  /** A Unicode scalar value: any code point but the surrogates. */
  predicate IsScalar(c: nat) {
    c < 0xD800 || 0xE000 <= c <= 0x10FFFF
  }

  /** The encoding of one scalar value (section 3 of RFC 3629). */
  function EncodeScalar(c: nat): (b: bytes)
    requires IsScalar(c)
    ensures 1 <= |b| <= 4
  {
    if c < 0x80 then
      [c as byte]
    else if c < 0x800 then
      [(0xC0 + c / 64) as byte, (0x80 + c % 64) as byte]
    else if c < 0x1_0000 then
      [(0xE0 + c / 4096) as byte, (0x80 + c / 64 % 64) as byte, (0x80 + c % 64) as byte]
    else
      [(0xF0 + c / 262144) as byte, (0x80 + c / 4096 % 64) as byte, (0x80 + c / 64 % 64) as byte,
       (0x80 + c % 64) as byte]
  }

  function EncodeText(text: seq<nat>): bytes
    requires forall c <- text :: IsScalar(c)
  {
    if text == [] then [] else EncodeScalar(text[0]) + EncodeText(text[1..])
  }

  lemma ScalarIsRead(c: nat, rest: bytes)
    requires IsScalar(c)
    ensures Utf8Length(EncodeScalar(c) + rest) == |EncodeScalar(c)|
  {
    if c >= 0x1_0000 {
      FourBytesAreRead(c, rest);
    } else if c >= 0x800 {
      ThreeBytesAreRead(c, rest);
    }
  }

  lemma ThreeBytesAreRead(c: nat, rest: bytes)
    requires IsScalar(c) && 0x800 <= c < 0x1_0000
    ensures Utf8Length(EncodeScalar(c) + rest) == 3
  {
    var lead, next := c / 4096, c / 64 % 64;
    assert c / 64 == 64 * lead + next;
    assert (lead == 0 ==> next >= 0x20) && (lead == 0xD ==> next < 0x20);
    var b := EncodeScalar(c) + rest;
    assert b[0] as nat == 0xE0 + lead && b[1] as nat == 0x80 + next && 0x80 <= b[2] <= 0xBF;
  }

  lemma FourBytesAreRead(c: nat, rest: bytes)
    requires 0x1_0000 <= c <= 0x10FFFF
    ensures Utf8Length(EncodeScalar(c) + rest) == 4
  {
    var lead, next := c / 262144, c / 4096 % 64;
    assert c / 4096 == 64 * lead + next;
    assert lead <= 4 && (lead == 0 ==> next >= 0x10) && (lead == 4 ==> next < 0x10);
    var b := EncodeScalar(c) + rest;
    assert b[0] as nat == 0xF0 + lead && b[1] as nat == 0x80 + next;
    assert 0x80 <= b[2] <= 0xBF && 0x80 <= b[3] <= 0xBF;
  }

  // The six-bit digits of a number, the highest first.

  lemma TwoDigits(x: nat, y: nat)
    requires y < 64
    ensures (64 * x + y) / 64 == x && (64 * x + y) % 64 == y
  {
  }

  lemma ThreeDigits(x: nat, y: nat, z: nat)
    requires y < 64 && z < 64
    ensures var c := 4096 * x + 64 * y + z;
            c / 4096 == x && c / 64 % 64 == y && c % 64 == z
  {
    TwoDigits(64 * x + y, z);
    TwoDigits(x, y);
  }

  lemma FourDigits(w: nat, x: nat, y: nat, z: nat)
    requires x < 64 && y < 64 && z < 64
    ensures var c := 262144 * w + 4096 * x + 64 * y + z;
            c / 262144 == w && c / 4096 % 64 == x && c / 64 % 64 == y && c % 64 == z
  {
    ThreeDigits(64 * w + x, y, z);
    TwoDigits(w, x);
  }

  lemma TwoBytesAreScalar(b: bytes) returns (c: nat)
    requires b != [] && Utf8Length(b) == 2
    ensures IsScalar(c) && EncodeScalar(c) == b[..2]
  {
    var x, y := b[0] as nat - 0xC0, b[1] as nat - 0x80;
    TwoDigits(x, y);
    c := 64 * x + y;
  }

  lemma ThreeBytesAreScalar(b: bytes) returns (c: nat)
    requires b != [] && Utf8Length(b) == 3
    ensures IsScalar(c) && EncodeScalar(c) == b[..3]
  {
    var x, y, z := b[0] as nat - 0xE0, b[1] as nat - 0x80, b[2] as nat - 0x80;
    ThreeDigits(x, y, z);
    c := 4096 * x + 64 * y + z;
  }

  lemma FourBytesAreScalar(b: bytes) returns (c: nat)
    requires b != [] && Utf8Length(b) == 4
    ensures IsScalar(c) && EncodeScalar(c) == b[..4]
  {
    var w, x, y, z := b[0] as nat - 0xF0, b[1] as nat - 0x80, b[2] as nat - 0x80, b[3] as nat - 0x80;
    FourDigits(w, x, y, z);
    c := 262144 * w + 4096 * x + 64 * y + z;
  }

  lemma SequenceIsScalar(b: bytes) returns (c: nat)
    requires b != [] && Utf8Length(b) != 0
    ensures IsScalar(c) && EncodeScalar(c) == b[..Utf8Length(b)]
  {
    var n := Utf8Length(b);
    if n == 1 {
      c := b[0] as nat;
    } else if n == 2 {
      c := TwoBytesAreScalar(b);
    } else if n == 3 {
      c := ThreeBytesAreScalar(b);
    } else {
      c := FourBytesAreScalar(b);
    }
  }

  lemma {:induction false} TextIsUtf8(text: seq<nat>)
    requires forall c <- text :: IsScalar(c)
    ensures IsUtf8(EncodeText(text))
  {
    if text != [] {
      var rest := EncodeText(text[1..]);
      TextIsUtf8(text[1..]);
      ScalarIsRead(text[0], rest);
      assert (EncodeScalar(text[0]) + rest)[|EncodeScalar(text[0])|..] == rest;
    }
  }

  lemma {:induction false} Utf8IsText(b: bytes) returns (text: seq<nat>)
    requires IsUtf8(b)
    ensures (forall c <- text :: IsScalar(c)) && EncodeText(text) == b
    decreases |b|
  {
    text := [];
    if b != [] {
      var n := Utf8Length(b);
      var first := SequenceIsScalar(b);
      var rest := Utf8IsText(b[n..]);
      text := [first] + rest;
      assert text[1..] == rest;
      assert b == b[..n] + b[n..];
    }
  }

  /** Bytes are UTF-8 exactly when they are the encoding of some scalar values. */
  lemma Utf8Iff(b: bytes)
    ensures IsUtf8(b) <==> exists text: seq<nat> :: (forall c <- text :: IsScalar(c)) && EncodeText(text) == b
  {
    if IsUtf8(b) {
      var text := Utf8IsText(b);
    }
    if text: seq<nat> :| (forall c <- text :: IsScalar(c)) && EncodeText(text) == b {
      TextIsUtf8(text);
    }
  }

  /** A string field, held as its UTF-8 encoding. */
  type ProtoString = b: bytes | IsUtf8(b) witness []

  lemma {:induction false} AsciiIsUtf8(b: bytes)
    requires forall i | 0 <= i < |b| :: b[i] <= 0x7F
    ensures IsUtf8(b)
  {
    if b != [] {
      AsciiIsUtf8(b[1..]);
    }
  }

  /** A singular string: its last occurrence, if every occurrence is UTF-8. */
  function LastString(fs: seq<Field>, num: nat): Option<ProtoString> {
    if forall part <- AllBytes(fs, num) :: IsUtf8(part) then Some(LastBytes(fs, num)) else None
  }

  lemma StringIsRead(parts: seq<seq<Field>>, num: nat, text: ProtoString)
    requires Numbered(parts) && 0 < num <= |parts| && parts[num - 1] == BytesIfSet(num, text)
    ensures LastString(Flatten(parts), num) == Some(text)
  {
    BytesAreRead(parts, num, text);
    PartIsRead(parts, num);
    assert [BytesField(num, text)][1..] == [];
  }

  // ------------------------------------------------------------------ int32

  /** An int32 is written sign-extended to 64 bits and read back from the low 32. */
  function Int32ToVarint(x: int32): uint64 {
    if x < 0 then x + TWO_TO_THE_64 else x
  }

  function VarintToInt32(v: uint64): int32 {
    var low := v % TWO_TO_THE_32;
    if low < TWO_TO_THE_31 then low else low - TWO_TO_THE_32
  }

  lemma Int32RoundTrip(x: int32)
    ensures VarintToInt32(Int32ToVarint(x)) == x
  {
    if x < 0 {
      assert TWO_TO_THE_64 == TWO_TO_THE_32 * TWO_TO_THE_32;
      assert (x + TWO_TO_THE_32 + TWO_TO_THE_32 * (TWO_TO_THE_32 - 1)) % TWO_TO_THE_32 == x + TWO_TO_THE_32;
    }
  }

  // -------------------------------------------------------- repeated messages

  function ParseEach<T>(parse: bytes -> Option<T>, parts: seq<bytes>): Option<seq<T>> {
    if parts == [] then
      Some([])
    else
      var first :- parse(parts[0]);
      var rest :- ParseEach(parse, parts[1..]);
      Some([first] + rest)
  }

  function EncodeEach<T>(encode: T -> bytes, xs: seq<T>): (parts: seq<bytes>)
    ensures |parts| == |xs|
    ensures forall i | 0 <= i < |xs| :: parts[i] == encode(xs[i])
  {
    if xs == [] then [] else [encode(xs[0])] + EncodeEach(encode, xs[1..])
  }

  lemma EncodeEachStep<T>(encode: T -> bytes, first: T, rest: seq<T>)
    ensures EncodeEach(encode, [first] + rest) == [encode(first)] + EncodeEach(encode, rest)
  {
    assert ([first] + rest)[1..] == rest;
  }

  lemma ParseEachStep<T>(parse: bytes -> Option<T>, first: bytes, rest: seq<bytes>)
    requires parse(first).Some? && ParseEach(parse, rest).Some?
    ensures ParseEach(parse, [first] + rest) == Some([parse(first).value] + ParseEach(parse, rest).value)
  {
    assert ([first] + rest)[1..] == rest;
  }

  lemma {:induction false} EachRoundTrip<T>(parse: bytes -> Option<T>, encode: T -> bytes, xs: seq<T>)
    requires forall x <- xs :: parse(encode(x)) == Some(x)
    ensures ParseEach(parse, EncodeEach(encode, xs)) == Some(xs)
  {
    if xs != [] {
      var first, rest := xs[0], xs[1..];
      assert xs == [first] + rest;
      assert first in xs && forall x <- rest :: x in xs;
      EachRoundTrip(parse, encode, rest);
      EncodeEachStep(encode, first, rest);
      ParseEachStep(parse, encode(first), EncodeEach(encode, rest));
    }
  }

  // ------------------------------------- messages with two bytes fields, 1 and 2

  function PairParts(first: bytes, second: bytes): seq<seq<Field>> {
    [BytesIfSet(1, first), BytesIfSet(2, second)]
  }

  function PairBytes(first: bytes, second: bytes): bytes {
    MessageBytes(PairParts(first, second))
  }

  function ParsePair(b: bytes): Option<(bytes, bytes)> {
    var fs :- ParseFields(b);
    Some((LastBytes(fs, 1), LastBytes(fs, 2)))
  }

  lemma PairRoundTrip(first: bytes, second: bytes)
    requires |PairBytes(first, second)| < SIZE_LIMIT
    ensures ParsePair(PairBytes(first, second)) == Some((first, second))
  {
    var parts := PairParts(first, second);
    MessageRoundTrip(parts);
    BytesAreRead(parts, 1, first);
    BytesAreRead(parts, 2, second);
  }

  /** Both parts of a pair are no longer than its serialized form. */
  lemma PairFits(first: bytes, second: bytes)
    ensures |first| <= |PairBytes(first, second)|
    ensures |second| <= |PairBytes(first, second)|
  {
    if first != [] {
      PartFits(PairParts(first, second), 0, first);
    }
    if second != [] {
      PartFits(PairParts(first, second), 1, second);
    }
  }

  /** A pair whose first field is a string. */
  function ParseNamed(b: bytes): Option<(ProtoString, bytes)> {
    var fs :- ParseFields(b);
    var name :- LastString(fs, 1);
    Some((name, LastBytes(fs, 2)))
  }

  lemma NamedRoundTrip(name: ProtoString, data: bytes)
    requires |PairBytes(name, data)| < SIZE_LIMIT
    ensures ParseNamed(PairBytes(name, data)) == Some((name, data))
  {
    var parts := PairParts(name, data);
    MessageRoundTrip(parts);
    StringIsRead(parts, 1, name);
    BytesAreRead(parts, 2, data);
  }

  datatype SerializedIdentity = SerializedIdentity(mspid: ProtoString, idBytes: bytes)

  function SerializedIdentityBytes(m: SerializedIdentity): bytes {
    PairBytes(m.mspid, m.idBytes)
  }

  function ParseSerializedIdentity(b: bytes): Option<SerializedIdentity> {
    var (mspid, idBytes) :- ParseNamed(b);
    Some(SerializedIdentity(mspid, idBytes))
  }

  datatype SignatureHeader = SignatureHeader(creator: bytes, nonce: bytes)

  function SignatureHeaderBytes(m: SignatureHeader): bytes {
    PairBytes(m.creator, m.nonce)
  }

  function ParseSignatureHeader(b: bytes): Option<SignatureHeader> {
    var (creator, nonce) :- ParsePair(b);
    Some(SignatureHeader(creator, nonce))
  }

  datatype Header = Header(channelHeader: bytes, signatureHeader: bytes)

  function HeaderBytes(m: Header): bytes {
    PairBytes(m.channelHeader, m.signatureHeader)
  }

  function ParseHeader(b: bytes): Option<Header> {
    var (channelHeader, signatureHeader) :- ParsePair(b);
    Some(Header(channelHeader, signatureHeader))
  }

  datatype Envelope = Envelope(payload: bytes, signature: bytes)

  function EnvelopeBytes(m: Envelope): bytes {
    PairBytes(m.payload, m.signature)
  }

  function ParseEnvelope(b: bytes): Option<Envelope> {
    var (payload, signature) :- ParsePair(b);
    Some(Envelope(payload, signature))
  }

  datatype Endorsement = Endorsement(endorser: bytes, signature: bytes)

  function EndorsementBytes(m: Endorsement): bytes {
    PairBytes(m.endorser, m.signature)
  }

  function ParseEndorsement(b: bytes): Option<Endorsement> {
    var (endorser, signature) :- ParsePair(b);
    Some(Endorsement(endorser, signature))
  }

  datatype TransactionAction = TransactionAction(header: bytes, payload: bytes)

  function TransactionActionBytes(m: TransactionAction): bytes {
    PairBytes(m.header, m.payload)
  }

  function ParseTransactionAction(b: bytes): Option<TransactionAction> {
    var (header, payload) :- ParsePair(b);
    Some(TransactionAction(header, payload))
  }

  datatype ProposalResponsePayload = ProposalResponsePayload(proposalHash: bytes, extension: bytes)

  function ParseProposalResponsePayload(b: bytes): Option<ProposalResponsePayload> {
    var (proposalHash, extension) :- ParsePair(b);
    Some(ProposalResponsePayload(proposalHash, extension))
  }

  datatype SignedProposal = SignedProposal(proposalBytes: bytes, signature: bytes)

  /** The unset third field, `extension`, is never written. */
  datatype Proposal = Proposal(header: bytes, payload: bytes)

  function ProposalBytes(m: Proposal): bytes {
    PairBytes(m.header, m.payload)
  }

  function ParseProposal(b: bytes): Option<Proposal> {
    var (header, payload) :- ParsePair(b);
    Some(Proposal(header, payload))
  }

  datatype ConfigSignature = ConfigSignature(signatureHeader: bytes, signature: bytes)

  function ConfigSignatureBytes(m: ConfigSignature): bytes {
    PairBytes(m.signatureHeader, m.signature)
  }

  function ParseConfigSignature(b: bytes): Option<ConfigSignature> {
    var (signatureHeader, signature) :- ParsePair(b);
    Some(ConfigSignature(signatureHeader, signature))
  }

  // ---------------------------------------------- a bytes field and a repeated one

  function ListParts(first: bytes, items: seq<bytes>): seq<seq<Field>> {
    [BytesIfSet(1, first), Repeated(2, items)]
  }

  function ListBytes(first: bytes, items: seq<bytes>): bytes {
    MessageBytes(ListParts(first, items))
  }

  function ParseList(b: bytes): Option<(bytes, seq<bytes>)> {
    var fs :- ParseFields(b);
    Some((LastBytes(fs, 1), AllBytes(fs, 2)))
  }

  lemma ListRoundTrip(first: bytes, items: seq<bytes>)
    requires |ListBytes(first, items)| < SIZE_LIMIT
    ensures ParseList(ListBytes(first, items)) == Some((first, items))
  {
    var parts := ListParts(first, items);
    RepeatedIsRead(2, items);
    MessageRoundTrip(parts);
    BytesAreRead(parts, 1, first);
    ListIsRead(parts, 2, items);
  }

  lemma ListFits(first: bytes, items: seq<bytes>)
    ensures |first| <= |ListBytes(first, items)|
    ensures forall i | 0 <= i < |items| :: |items[i]| <= |ListBytes(first, items)|
  {
    if first != [] {
      PartFits(ListParts(first, items), 0, first);
    }
    RepeatedIsRead(2, items);
    forall i | 0 <= i < |items|
      ensures |items[i]| <= |ListBytes(first, items)|
    {
      PartFits(ListParts(first, items), 1, items[i]);
    }
  }

  datatype ChaincodeEndorsedAction =
    ChaincodeEndorsedAction(proposalResponsePayload: bytes, endorsements: seq<Endorsement>)

  function ChaincodeEndorsedActionBytes(m: ChaincodeEndorsedAction): bytes {
    ListBytes(m.proposalResponsePayload, EncodeEach(EndorsementBytes, m.endorsements))
  }

  function ParseChaincodeEndorsedAction(b: bytes): Option<ChaincodeEndorsedAction> {
    var (proposalResponsePayload, parts) :- ParseList(b);
    var endorsements :- ParseEach(ParseEndorsement, parts);
    Some(ChaincodeEndorsedAction(proposalResponsePayload, endorsements))
  }

  lemma EndorsedActionRoundTrip(m: ChaincodeEndorsedAction)
    requires |ChaincodeEndorsedActionBytes(m)| < SIZE_LIMIT
    ensures ParseChaincodeEndorsedAction(ChaincodeEndorsedActionBytes(m)) == Some(m)
  {
    var parts := EncodeEach(EndorsementBytes, m.endorsements);
    ListRoundTrip(m.proposalResponsePayload, parts);
    ListFits(m.proposalResponsePayload, parts);
    forall i | 0 <= i < |m.endorsements|
      ensures ParseEndorsement(EndorsementBytes(m.endorsements[i])) == Some(m.endorsements[i])
    {
      assert |parts[i]| < SIZE_LIMIT;
      PairRoundTrip(m.endorsements[i].endorser, m.endorsements[i].signature);
    }
    EachRoundTrip(ParseEndorsement, EndorsementBytes, m.endorsements);
  }

  datatype ConfigUpdateEnvelope = ConfigUpdateEnvelope(configUpdate: bytes, signatures: seq<ConfigSignature>)

  function ConfigUpdateEnvelopeBytes(m: ConfigUpdateEnvelope): bytes {
    ListBytes(m.configUpdate, EncodeEach(ConfigSignatureBytes, m.signatures))
  }

  function ParseConfigUpdateEnvelope(b: bytes): Option<ConfigUpdateEnvelope> {
    var (configUpdate, parts) :- ParseList(b);
    var signatures :- ParseEach(ParseConfigSignature, parts);
    Some(ConfigUpdateEnvelope(configUpdate, signatures))
  }

  lemma ConfigUpdateEnvelopeRoundTrip(m: ConfigUpdateEnvelope)
    requires |ConfigUpdateEnvelopeBytes(m)| < SIZE_LIMIT
    ensures ParseConfigUpdateEnvelope(ConfigUpdateEnvelopeBytes(m)) == Some(m)
  {
    var parts := EncodeEach(ConfigSignatureBytes, m.signatures);
    ListRoundTrip(m.configUpdate, parts);
    ListFits(m.configUpdate, parts);
    forall i | 0 <= i < |m.signatures|
      ensures ParseConfigSignature(ConfigSignatureBytes(m.signatures[i])) == Some(m.signatures[i])
    {
      assert |parts[i]| < SIZE_LIMIT;
      PairRoundTrip(m.signatures[i].signatureHeader, m.signatures[i].signature);
    }
    EachRoundTrip(ParseConfigSignature, ConfigSignatureBytes, m.signatures);
  }

  /** One entry of a chaincode proposal's transient map. */
  datatype Entry = Entry(key: ProtoString, value: bytes)

  /** Both fields of an entry are written, even if they are empty. */
  function EntryParts(e: Entry): seq<seq<Field>> {
    [[BytesField(1, e.key)], [BytesField(2, e.value)]]
  }

  function EntryBytes(e: Entry): bytes {
    MessageBytes(EntryParts(e))
  }

  function ParseEntry(b: bytes): Option<Entry> {
    var (key, value) :- ParseNamed(b);
    Some(Entry(key, value))
  }

  lemma EntryNumbered(e: Entry)
    ensures Numbered(EntryParts(e))
  {
    var parts := EntryParts(e);
    forall i, f: Field | 0 <= i < |parts| && f in parts[i]
      ensures f.num == i + 1 && Writable(f)
    {
      assert parts[i] == [BytesField(i + 1, if i == 0 then e.key else e.value)];
    }
  }

  lemma EntryRoundTrip(e: Entry)
    requires |EntryBytes(e)| < SIZE_LIMIT
    ensures ParseEntry(EntryBytes(e)) == Some(e)
  {
    var parts := EntryParts(e);
    PartFits(parts, 0, e.key);
    PartFits(parts, 1, e.value);
    EntryNumbered(e);
    MessageRoundTrip(parts);
    OneIsRead(parts, 1, e.key);
    OneIsRead(parts, 2, e.value);
  }

  type TransientMap = map<ProtoString, bytes>

  /** A map is written as a list of entries; a later entry for a key replaces an earlier one. */
  function MapOf(entries: seq<Entry>): TransientMap {
    if entries == [] then
      map[]
    else
      var last := entries[|entries| - 1];
      MapOf(entries[..|entries| - 1])[last.key := last.value]
  }

  datatype ChaincodeProposalPayload = ChaincodeProposalPayload(input: bytes, transientMap: TransientMap)

  function ProposalPayloadBytes(input: bytes, entries: seq<Entry>): bytes {
    ListBytes(input, EncodeEach(EntryBytes, entries))
  }

  function ParseChaincodeProposalPayload(b: bytes): Option<ChaincodeProposalPayload> {
    var (input, parts) :- ParseList(b);
    var entries :- ParseEach(ParseEntry, parts);
    Some(ChaincodeProposalPayload(input, MapOf(entries)))
  }

  lemma ProposalPayloadRoundTrip(input: bytes, entries: seq<Entry>)
    requires |ProposalPayloadBytes(input, entries)| < SIZE_LIMIT
    ensures ParseChaincodeProposalPayload(ProposalPayloadBytes(input, entries))
            == Some(ChaincodeProposalPayload(input, MapOf(entries)))
  {
    var parts := EncodeEach(EntryBytes, entries);
    ListRoundTrip(input, parts);
    ListFits(input, parts);
    forall i | 0 <= i < |entries|
      ensures ParseEntry(EntryBytes(entries[i])) == Some(entries[i])
    {
      assert |parts[i]| < SIZE_LIMIT;
      EntryRoundTrip(entries[i]);
    }
    EachRoundTrip(ParseEntry, EntryBytes, entries);
  }

  // ----------------------------------------------------- messages of other shapes

  /** Only `header` is a nested message, so it is written even when it is empty. */
  datatype Payload = Payload(header: Option<Header>, data: bytes)

  function PayloadParts(m: Payload): seq<seq<Field>> {
    [if m.header.Some? then [BytesField(1, HeaderBytes(m.header.value))] else [], BytesIfSet(2, m.data)]
  }

  function PayloadBytes(m: Payload): bytes {
    MessageBytes(PayloadParts(m))
  }

  function ParsePayload(b: bytes): Option<Payload> {
    var fs :- ParseFields(b);
    var header :- Submessage(fs, 1, ParseHeader);
    Some(Payload(header, LastBytes(fs, 2)))
  }

  lemma PayloadFits(header: Header, data: bytes)
    ensures |HeaderBytes(header)| <= |PayloadBytes(Payload(Some(header), data))|
    ensures |data| <= |PayloadBytes(Payload(Some(header), data))|
  {
    var parts := PayloadParts(Payload(Some(header), data));
    PartFits(parts, 0, HeaderBytes(header));
    if data != [] {
      PartFits(parts, 1, data);
    }
  }

  lemma PayloadNumbered(header: Header, data: bytes)
    ensures Numbered(PayloadParts(Payload(Some(header), data)))
  {
  }

  lemma PayloadRoundTrip(header: Header, data: bytes)
    requires |PayloadBytes(Payload(Some(header), data))| < SIZE_LIMIT
    ensures ParsePayload(PayloadBytes(Payload(Some(header), data))) == Some(Payload(Some(header), data))
  {
    var parts := PayloadParts(Payload(Some(header), data));
    PayloadNumbered(header, data);
    MessageRoundTrip(parts);
    PayloadFits(header, data);
    PairRoundTrip(header.channelHeader, header.signatureHeader);
    SubmessageIsRead(parts, 1, HeaderBytes(header), ParseHeader, header);
    BytesAreRead(parts, 2, data);
  }

  datatype ChaincodeActionPayload =
    ChaincodeActionPayload(chaincodeProposalPayload: bytes, action: Option<ChaincodeEndorsedAction>)

  function ChaincodeActionPayloadParts(m: ChaincodeActionPayload): seq<seq<Field>> {
    [BytesIfSet(1, m.chaincodeProposalPayload),
     if m.action.Some? then [BytesField(2, ChaincodeEndorsedActionBytes(m.action.value))] else []]
  }

  function ChaincodeActionPayloadBytes(m: ChaincodeActionPayload): bytes {
    MessageBytes(ChaincodeActionPayloadParts(m))
  }

  function ParseChaincodeActionPayload(b: bytes): Option<ChaincodeActionPayload> {
    var fs :- ParseFields(b);
    var action :- Submessage(fs, 2, ParseChaincodeEndorsedAction);
    Some(ChaincodeActionPayload(LastBytes(fs, 1), action))
  }

  lemma ActionPayloadFits(proposal: bytes, action: ChaincodeEndorsedAction)
    ensures var b := ChaincodeActionPayloadBytes(ChaincodeActionPayload(proposal, Some(action)));
            && |proposal| <= |b|
            && |ChaincodeEndorsedActionBytes(action)| <= |b|
  {
    var parts := ChaincodeActionPayloadParts(ChaincodeActionPayload(proposal, Some(action)));
    PartFits(parts, 1, ChaincodeEndorsedActionBytes(action));
    if proposal != [] {
      PartFits(parts, 0, proposal);
    }
  }

  lemma ActionPayloadRoundTrip(proposal: bytes, action: ChaincodeEndorsedAction)
    requires |ChaincodeActionPayloadBytes(ChaincodeActionPayload(proposal, Some(action)))| < SIZE_LIMIT
    ensures ParseChaincodeActionPayload(ChaincodeActionPayloadBytes(ChaincodeActionPayload(proposal, Some(action))))
            == Some(ChaincodeActionPayload(proposal, Some(action)))
  {
    var parts := ChaincodeActionPayloadParts(ChaincodeActionPayload(proposal, Some(action)));
    MessageRoundTrip(parts);
    BytesAreRead(parts, 1, proposal);
    ActionPayloadFits(proposal, action);
    EndorsedActionRoundTrip(action);
    SubmessageIsRead(parts, 2, ChaincodeEndorsedActionBytes(action), ParseChaincodeEndorsedAction, action);
  }

  /** A transaction is a list of actions. */
  function TransactionParts(actions: seq<TransactionAction>): seq<seq<Field>> {
    [Repeated(1, EncodeEach(TransactionActionBytes, actions))]
  }

  function TransactionBytes(actions: seq<TransactionAction>): bytes {
    MessageBytes(TransactionParts(actions))
  }

  function ParseTransaction(b: bytes): Option<seq<TransactionAction>> {
    var fs :- ParseFields(b);
    ParseEach(ParseTransactionAction, AllBytes(fs, 1))
  }

  lemma RepeatedPartFits(parts: seq<seq<Field>>, items: seq<bytes>, i: nat)
    requires i < |items| && parts == [Repeated(1, items)]
    ensures |items[i]| <= |MessageBytes(parts)|
  {
    RepeatedIsRead(1, items);
    PartFits(parts, 0, items[i]);
  }

  lemma TransactionFits(actions: seq<TransactionAction>, i: nat)
    requires i < |actions|
    ensures |TransactionActionBytes(actions[i])| <= |TransactionBytes(actions)|
  {
    var items := EncodeEach(TransactionActionBytes, actions);
    RepeatedPartFits([Repeated(1, items)], items, i);
  }

  lemma TransactionRoundTrip(actions: seq<TransactionAction>)
    requires |TransactionBytes(actions)| < SIZE_LIMIT
    ensures ParseTransaction(TransactionBytes(actions)) == Some(actions)
  {
    var parts := TransactionParts(actions);
    RepeatedIsRead(1, EncodeEach(TransactionActionBytes, actions));
    MessageRoundTrip(parts);
    ListIsRead(parts, 1, EncodeEach(TransactionActionBytes, actions));
    forall i | 0 <= i < |actions|
      ensures ParseTransactionAction(TransactionActionBytes(actions[i])) == Some(actions[i])
    {
      TransactionFits(actions, i);
      PairRoundTrip(actions[i].header, actions[i].payload);
    }
    EachRoundTrip(ParseTransactionAction, TransactionActionBytes, actions);
  }

  /** Seconds are kept as written, a 64-bit two's complement value. */
  datatype Timestamp = Timestamp(seconds: uint64, nanos: int32)

  function TimestampParts(m: Timestamp): seq<seq<Field>> {
    [VarintIfSet(1, m.seconds), VarintIfSet(2, Int32ToVarint(m.nanos))]
  }

  function TimestampBytes(m: Timestamp): bytes {
    MessageBytes(TimestampParts(m))
  }

  function ParseTimestamp(b: bytes): Option<Timestamp> {
    var fs :- ParseFields(b);
    Some(Timestamp(LastVarint(fs, 1), VarintToInt32(LastVarint(fs, 2))))
  }

  lemma TimestampRoundTrip(m: Timestamp)
    requires |TimestampBytes(m)| < SIZE_LIMIT
    ensures ParseTimestamp(TimestampBytes(m)) == Some(m)
  {
    var parts := TimestampParts(m);
    MessageRoundTrip(parts);
    VarintIsRead(parts, 1, m.seconds);
    VarintIsRead(parts, 2, Int32ToVarint(m.nanos));
    Int32RoundTrip(m.nanos);
  }

  datatype ChannelHeader = ChannelHeader(
    typ: int32, version: int32, timestamp: Option<Timestamp>, channelId: ProtoString,
    txId: ProtoString, epoch: uint64, extension: bytes, tlsCertHash: bytes)

  function ChannelHeaderParts(m: ChannelHeader): seq<seq<Field>> {
    [VarintIfSet(1, Int32ToVarint(m.typ)),
     VarintIfSet(2, Int32ToVarint(m.version)),
     if m.timestamp.Some? then [BytesField(3, TimestampBytes(m.timestamp.value))] else [],
     BytesIfSet(4, m.channelId),
     BytesIfSet(5, m.txId),
     VarintIfSet(6, m.epoch),
     BytesIfSet(7, m.extension),
     BytesIfSet(8, m.tlsCertHash)]
  }

  function ChannelHeaderBytes(m: ChannelHeader): bytes {
    MessageBytes(ChannelHeaderParts(m))
  }

  function ParseChannelHeader(b: bytes): Option<ChannelHeader> {
    var fs :- ParseFields(b);
    var timestamp :- Submessage(fs, 3, ParseTimestamp);
    var channelId :- LastString(fs, 4);
    var txId :- LastString(fs, 5);
    Some(ChannelHeader(VarintToInt32(LastVarint(fs, 1)), VarintToInt32(LastVarint(fs, 2)), timestamp,
                       channelId, txId, LastVarint(fs, 6), LastBytes(fs, 7), LastBytes(fs, 8)))
  }

  lemma ChannelHeaderNumbered(m: ChannelHeader)
    ensures Numbered(ChannelHeaderParts(m))
  {
    var parts := ChannelHeaderParts(m);
    forall i, f: Field | 0 <= i < |parts| && f in parts[i]
      ensures f.num == i + 1 && Writable(f)
    {
      if i < 4 {
        assert i == 0 || i == 1 || i == 2 || i == 3;
      } else {
        assert i == 4 || i == 5 || i == 6 || i == 7;
      }
    }
  }

  lemma ChannelHeaderNumbers(m: ChannelHeader, fs: seq<Field>)
    requires fs == Flatten(ChannelHeaderParts(m))
    ensures VarintToInt32(LastVarint(fs, 1)) == m.typ
    ensures VarintToInt32(LastVarint(fs, 2)) == m.version
    ensures LastVarint(fs, 6) == m.epoch
  {
    var parts := ChannelHeaderParts(m);
    ChannelHeaderNumbered(m);
    VarintIsRead(parts, 1, Int32ToVarint(m.typ));
    VarintIsRead(parts, 2, Int32ToVarint(m.version));
    VarintIsRead(parts, 6, m.epoch);
    Int32RoundTrip(m.typ);
    Int32RoundTrip(m.version);
  }

  lemma ChannelHeaderStrings(m: ChannelHeader, fs: seq<Field>)
    requires fs == Flatten(ChannelHeaderParts(m))
    ensures LastString(fs, 4) == Some(m.channelId) && LastString(fs, 5) == Some(m.txId)
    ensures LastBytes(fs, 7) == m.extension && LastBytes(fs, 8) == m.tlsCertHash
  {
    var parts := ChannelHeaderParts(m);
    ChannelHeaderNumbered(m);
    StringIsRead(parts, 4, m.channelId);
    StringIsRead(parts, 5, m.txId);
    BytesAreRead(parts, 7, m.extension);
    BytesAreRead(parts, 8, m.tlsCertHash);
  }

  lemma ChannelHeaderTime(m: ChannelHeader, fs: seq<Field>)
    requires fs == Flatten(ChannelHeaderParts(m)) && |ChannelHeaderBytes(m)| < SIZE_LIMIT
    ensures Submessage(fs, 3, ParseTimestamp) == Some(m.timestamp)
  {
    var parts := ChannelHeaderParts(m);
    ChannelHeaderNumbered(m);
    match m.timestamp
    case None => NoSubmessageIsRead(parts, 3, ParseTimestamp);
    case Some(time) =>
      PartFits(parts, 2, TimestampBytes(time));
      TimestampRoundTrip(time);
      SubmessageIsRead(parts, 3, TimestampBytes(time), ParseTimestamp, time);
  }

  lemma ChannelHeaderRoundTrip(m: ChannelHeader)
    requires |ChannelHeaderBytes(m)| < SIZE_LIMIT
    ensures ParseChannelHeader(ChannelHeaderBytes(m)) == Some(m)
  {
    var parts := ChannelHeaderParts(m);
    var fs := Flatten(parts);
    ChannelHeaderNumbered(m);
    MessageRoundTrip(parts);
    ChannelHeaderNumbers(m, fs);
    ChannelHeaderStrings(m, fs);
    ChannelHeaderTime(m, fs);
  }
}
