/** The bytes of every message that is written, field by field, with the tags of the
    generated descriptors spelled out (section "Message Structure" of the Protocol
    Buffers encoding specification). */
module Layout {
  import opened Wrappers
  import opened Wire
  import opened Messages
  import opened Transactions

  // ----------------------------------------------------------- tagged fields

  function Delimited(tag: byte, data: bytes): bytes {
    [tag] + EncodeVarint(|data|) + data
  }

  function DelimitedIfSet(tag: byte, data: bytes): bytes {
    if data == [] then [] else Delimited(tag, data)
  }

  function DelimitedAll(tag: byte, items: seq<bytes>): bytes {
    if items == [] then [] else Delimited(tag, items[0]) + DelimitedAll(tag, items[1..])
  }

  function Number(tag: byte, value: uint64): bytes {
    if value == 0 then [] else [tag] + EncodeVarint(value)
  }

  /** Negative numbers take ten bytes. */
  function Signed(tag: byte, value: int32): bytes {
    Number(tag, if value < 0 then value + 0x1_0000_0000_0000_0000 else value)
  }

  // ---------------------------------------------------------- part by part

  lemma {:induction false} SerializeConcat(xs: seq<Field>, ys: seq<Field>)
    ensures SerializeFields(xs + ys) == SerializeFields(xs) + SerializeFields(ys)
  {
    if xs == [] {
      assert xs + ys == ys;
    } else {
      assert (xs + ys)[0] == xs[0] && (xs + ys)[1..] == xs[1..] + ys;
      SerializeConcat(xs[1..], ys);
    }
  }

  lemma OneField(f: Field)
    ensures SerializeFields([f]) == SerializeField(f)
  {
    assert SerializeFields([f][1..]) == [];
  }

  lemma OneByteTag(num: nat, wireType: nat)
    requires num < 16 && wireType < 8
    ensures EncodeVarint(8 * num + wireType) == [(8 * num + wireType) as byte]
  {
  }

  lemma BytesPart(num: nat, data: bytes)
    requires num < 16
    ensures SerializeFields([BytesField(num, data)]) == Delimited((8 * num + 2) as byte, data)
    ensures SerializeFields(BytesIfSet(num, data)) == DelimitedIfSet((8 * num + 2) as byte, data)
  {
    OneField(BytesField(num, data));
    OneByteTag(num, 2);
  }

  lemma VarintPart(num: nat, value: uint64)
    requires num < 16
    ensures SerializeFields(VarintIfSet(num, value)) == Number((8 * num) as byte, value)
  {
    OneField(VarintField(num, value));
    OneByteTag(num, 0);
  }

  lemma {:induction false} RepeatedPart(num: nat, items: seq<bytes>)
    requires num < 16
    ensures SerializeFields(Repeated(num, items)) == DelimitedAll((8 * num + 2) as byte, items)
  {
    if items != [] {
      RepeatedPart(num, items[1..]);
      SerializeConcat([BytesField(num, items[0])], Repeated(num, items[1..]));
      BytesPart(num, items[0]);
    }
  }

  lemma LastPart(front: seq<seq<Field>>, last: seq<Field>)
    ensures MessageBytes(front + [last]) == MessageBytes(front) + SerializeFields(last)
  {
    var parts := front + [last];
    assert parts[..|parts| - 1] == front;
    SerializeConcat(Flatten(front), last);
  }

  lemma OnePart(a: seq<Field>)
    ensures MessageBytes([a]) == SerializeFields(a)
  {
    assert [] + [a] == [a];
    LastPart([], a);
  }

  lemma TwoParts(a: seq<Field>, b: seq<Field>)
    ensures MessageBytes([a, b]) == SerializeFields(a) + SerializeFields(b)
  {
    assert [a] + [b] == [a, b];
    OnePart(a);
    LastPart([a], b);
  }

  lemma ThreeParts(a: seq<Field>, b: seq<Field>, c: seq<Field>)
    ensures MessageBytes([a, b, c]) == SerializeFields(a) + SerializeFields(b) + SerializeFields(c)
  {
    assert [a, b] + [c] == [a, b, c];
    TwoParts(a, b);
    LastPart([a, b], c);
  }

  // ---------------------------------------------------------------- the messages

  lemma PairLayout(first: bytes, second: bytes)
    ensures PairBytes(first, second) == DelimitedIfSet(0x0A, first) + DelimitedIfSet(0x12, second)
  {
    TwoParts(BytesIfSet(1, first), BytesIfSet(2, second));
    BytesPart(1, first);
    BytesPart(2, second);
  }

  /** Headers, identities, envelopes and the parts of an endorsement. */
  lemma HeaderLayouts(identity: SerializedIdentity, signatureHeader: SignatureHeader, header: Header,
                      envelope: Envelope)
    ensures SerializedIdentityBytes(identity)
            == DelimitedIfSet(0x0A, identity.mspid) + DelimitedIfSet(0x12, identity.idBytes)
    ensures SignatureHeaderBytes(signatureHeader)
            == DelimitedIfSet(0x0A, signatureHeader.creator) + DelimitedIfSet(0x12, signatureHeader.nonce)
    ensures HeaderBytes(header)
            == DelimitedIfSet(0x0A, header.channelHeader) + DelimitedIfSet(0x12, header.signatureHeader)
    ensures EnvelopeBytes(envelope)
            == DelimitedIfSet(0x0A, envelope.payload) + DelimitedIfSet(0x12, envelope.signature)
  {
    PairLayout(identity.mspid, identity.idBytes);
    PairLayout(signatureHeader.creator, signatureHeader.nonce);
    PairLayout(header.channelHeader, header.signatureHeader);
    PairLayout(envelope.payload, envelope.signature);
  }

  lemma EndorsementLayouts(endorsement: Endorsement, action: TransactionAction, proposal: Proposal,
                           signature: ConfigSignature)
    ensures EndorsementBytes(endorsement)
            == DelimitedIfSet(0x0A, endorsement.endorser) + DelimitedIfSet(0x12, endorsement.signature)
    ensures TransactionActionBytes(action)
            == DelimitedIfSet(0x0A, action.header) + DelimitedIfSet(0x12, action.payload)
    ensures ProposalBytes(proposal)
            == DelimitedIfSet(0x0A, proposal.header) + DelimitedIfSet(0x12, proposal.payload)
    ensures ConfigSignatureBytes(signature)
            == DelimitedIfSet(0x0A, signature.signatureHeader) + DelimitedIfSet(0x12, signature.signature)
  {
    PairLayout(endorsement.endorser, endorsement.signature);
    PairLayout(action.header, action.payload);
    PairLayout(proposal.header, proposal.payload);
    PairLayout(signature.signatureHeader, signature.signature);
  }

  /** A peer's response payload is read with the hash first. */
  lemma ResponsePayloadLayout(hash: bytes, extension: bytes)
    requires |DelimitedIfSet(0x0A, hash) + DelimitedIfSet(0x12, extension)| < SIZE_LIMIT
    ensures ParseProposalResponsePayload(DelimitedIfSet(0x0A, hash) + DelimitedIfSet(0x12, extension))
            == Some(ProposalResponsePayload(hash, extension))
  {
    PairLayout(hash, extension);
    PairRoundTrip(hash, extension);
  }

  lemma ListLayout(first: bytes, items: seq<bytes>)
    ensures ListBytes(first, items) == DelimitedIfSet(0x0A, first) + DelimitedAll(0x12, items)
  {
    TwoParts(BytesIfSet(1, first), Repeated(2, items));
    BytesPart(1, first);
    RepeatedPart(2, items);
  }

  /** Proposal payloads with their map entries, which are written in full, endorsed
      actions and update envelopes. */
  lemma ListLayouts(input: bytes, entries: seq<Entry>, entry: Entry, action: ChaincodeEndorsedAction,
                    update: ConfigUpdateEnvelope)
    ensures ProposalPayloadBytes(input, entries)
            == DelimitedIfSet(0x0A, input) + DelimitedAll(0x12, EncodeEach(EntryBytes, entries))
    ensures EntryBytes(entry) == Delimited(0x0A, entry.key) + Delimited(0x12, entry.value)
    ensures ChaincodeEndorsedActionBytes(action)
            == DelimitedIfSet(0x0A, action.proposalResponsePayload)
               + DelimitedAll(0x12, EncodeEach(EndorsementBytes, action.endorsements))
    ensures ConfigUpdateEnvelopeBytes(update)
            == DelimitedIfSet(0x0A, update.configUpdate)
               + DelimitedAll(0x12, EncodeEach(ConfigSignatureBytes, update.signatures))
  {
    ListLayout(input, EncodeEach(EntryBytes, entries));
    ListLayout(action.proposalResponsePayload, EncodeEach(EndorsementBytes, action.endorsements));
    ListLayout(update.configUpdate, EncodeEach(ConfigSignatureBytes, update.signatures));
    TwoParts([BytesField(1, entry.key)], [BytesField(2, entry.value)]);
    BytesPart(1, entry.key);
    BytesPart(2, entry.value);
  }

  /** Payloads, action payloads and transactions; a nested message is written even
      when it is empty. */
  lemma TransactionLayouts(header: Header, data: bytes, proposal: bytes, action: ChaincodeEndorsedAction,
                           actions: seq<TransactionAction>)
    ensures PayloadBytes(Payload(Some(header), data))
            == Delimited(0x0A, HeaderBytes(header)) + DelimitedIfSet(0x12, data)
    ensures ChaincodeActionPayloadBytes(ChaincodeActionPayload(proposal, Some(action)))
            == DelimitedIfSet(0x0A, proposal) + Delimited(0x12, ChaincodeEndorsedActionBytes(action))
    ensures TransactionBytes(actions) == DelimitedAll(0x0A, EncodeEach(TransactionActionBytes, actions))
  {
    TwoParts([BytesField(1, HeaderBytes(header))], BytesIfSet(2, data));
    BytesPart(1, HeaderBytes(header));
    BytesPart(2, data);
    TwoParts(BytesIfSet(1, proposal), [BytesField(2, ChaincodeEndorsedActionBytes(action))]);
    BytesPart(1, proposal);
    BytesPart(2, ChaincodeEndorsedActionBytes(action));
    OnePart(Repeated(1, EncodeEach(TransactionActionBytes, actions)));
    RepeatedPart(1, EncodeEach(TransactionActionBytes, actions));
  }

  lemma TimestampLayout(m: Timestamp)
    ensures TimestampBytes(m) == Number(0x08, m.seconds) + Signed(0x10, m.nanos)
  {
    TwoParts(VarintIfSet(1, m.seconds), VarintIfSet(2, Int32ToVarint(m.nanos)));
    VarintPart(1, m.seconds);
    VarintPart(2, Int32ToVarint(m.nanos));
  }

  /** The channel header that every transaction is sent under. */
  lemma ChannelHeaderLayout(m: ChannelHeader, time: Timestamp)
    requires m.timestamp == Some(time)
    ensures ChannelHeaderBytes(m)
            == Signed(0x08, m.typ) + Signed(0x10, m.version)
               + Delimited(0x1A, Number(0x08, time.seconds) + Signed(0x10, time.nanos))
               + DelimitedIfSet(0x22, m.channelId) + DelimitedIfSet(0x2A, m.txId) + Number(0x30, m.epoch)
               + DelimitedIfSet(0x3A, m.extension) + DelimitedIfSet(0x42, m.tlsCertHash)
  {
    var parts := ChannelHeaderParts(m);
    assert parts == parts[..7] + [parts[7]] && parts[..7] == parts[..6] + [parts[6]]
           && parts[..6] == parts[..5] + [parts[5]] && parts[..5] == parts[..4] + [parts[4]]
           && parts[..4] == parts[..3] + [parts[3]] && parts[..3] == [parts[0], parts[1], parts[2]];
    ThreeParts(parts[0], parts[1], parts[2]);
    LastPart(parts[..3], parts[3]);
    LastPart(parts[..4], parts[4]);
    LastPart(parts[..5], parts[5]);
    LastPart(parts[..6], parts[6]);
    LastPart(parts[..7], parts[7]);
    VarintPart(1, Int32ToVarint(m.typ));
    VarintPart(2, Int32ToVarint(m.version));
    TimestampLayout(time);
    BytesPart(3, TimestampBytes(time));
    BytesPart(4, m.channelId);
    BytesPart(5, m.txId);
    VarintPart(6, m.epoch);
    BytesPart(7, m.extension);
    BytesPart(8, m.tlsCertHash);
  }

  lemma ChaincodeIdLayout(name: ProtoString)
    ensures ChaincodeIdBytes(name) == DelimitedIfSet(0x12, name)
  {
    TwoParts([], BytesIfSet(2, name));
    BytesPart(2, name);
  }

  lemma InputLayout(args: seq<bytes>)
    ensures MessageBytes(InputParts(args)) == DelimitedAll(0x0A, args)
  {
    OnePart(Repeated(1, args));
    RepeatedPart(1, args);
  }

  lemma SpecLayout(name: ProtoString, args: seq<bytes>)
    ensures MessageBytes(SpecParts(name, args))
            == Number(0x08, 1) + Delimited(0x12, ChaincodeIdBytes(name))
               + Delimited(0x1A, MessageBytes(InputParts(args)))
  {
    var id, input := ChaincodeIdBytes(name), MessageBytes(InputParts(args));
    ThreeParts(VarintIfSet(1, GOLANG), [BytesField(2, id)], [BytesField(3, input)]);
    VarintPart(1, GOLANG);
    BytesPart(2, id);
    BytesPart(3, input);
  }

  /** The invocation of a chaincode of type GOLANG, and the header extension that names it. */
  lemma InvocationLayout(name: ProtoString, args: seq<bytes>)
    ensures InvocationBytes(name, args)
            == Delimited(0x0A, Number(0x08, 1) + Delimited(0x12, DelimitedIfSet(0x12, name))
                               + Delimited(0x1A, DelimitedAll(0x0A, args)))
    ensures ExtensionBytes(name) == Delimited(0x12, DelimitedIfSet(0x12, name))
  {
    ChaincodeIdLayout(name);
    InputLayout(args);
    SpecLayout(name, args);
    OnePart([BytesField(1, MessageBytes(SpecParts(name, args)))]);
    BytesPart(1, MessageBytes(SpecParts(name, args)));
    TwoParts([], [BytesField(2, ChaincodeIdBytes(name))]);
    BytesPart(2, ChaincodeIdBytes(name));
  }
}
