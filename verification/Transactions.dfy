/** Transactions and the factories that assemble them
    (snakeskin/models/transaction.py, snakeskin/factories.py). */
module Transactions {
  import opened Wrappers
  import opened Wire
  import opened Messages

  // ------------------------------------------------------------------- models

  /** The operations of a crypto suite; nothing is assumed about either. */
  datatype CryptoSuite = CryptoSuite(hash: bytes -> bytes, sign: bytes -> bytes)

  datatype User = User(mspId: ProtoString, cert: bytes, suite: CryptoSuite)

  datatype TXContext = TXContext(identity: SerializedIdentity, nonce: bytes, txId: ProtoString, epoch: uint64)

  datatype GeneratedTX = GeneratedTX(
    txContext: TXContext, proposal: Proposal, signedProposal: SignedProposal, header: Header)

  datatype Response = Response(status: int, payload: bytes)

  datatype ProposalResponse = ProposalResponse(response: Response, payload: bytes, endorsement: Endorsement)

  function WithStatus(responses: seq<ProposalResponse>, good: bool): seq<ProposalResponse> {
    if responses == [] then
      []
    else
      var last := |responses| - 1;
      WithStatus(responses[..last], good)
      + if (responses[last].response.status == 200) == good then [responses[last]] else []
  }

  datatype EndorsedTX = EndorsedTX(
    peerResponses: seq<ProposalResponse>, proposal: Proposal, header: Header, txContext: TXContext)
  {
    function SuccessResponses(): seq<ProposalResponse> {
      WithStatus(peerResponses, true)
    }

    function ErrorResponses(): seq<ProposalResponse> {
      WithStatus(peerResponses, false)
    }

    predicate FullyEndorsed() {
      forall r <- peerResponses :: r.response.status == 200
    }

    /** The payload of the first successful response; `None` is the ValueError. */
    function ResponsePayload(): Option<bytes> {
      if SuccessResponses() == [] then None else Some(SuccessResponses()[0].response.payload)
    }
  }

  /** `part` holds the responses of `whole` at the positions `at`, in order: exactly
      those that were successful, or exactly the others. */
  ghost predicate Selects(whole: seq<ProposalResponse>, good: bool, part: seq<ProposalResponse>, at: seq<nat>) {
    && |at| == |part|
    && (forall i, j | 0 <= i < j < |at| :: at[i] < at[j])
    && (forall i | 0 <= i < |at| :: at[i] < |whole| && part[i] == whole[at[i]])
    && (forall k | 0 <= k < |whole| :: k in at <==> (whole[k].response.status == 200) == good)
  }

  lemma SelectsMore(whole: seq<ProposalResponse>, next: ProposalResponse, good: bool, part: seq<ProposalResponse>,
                    at: seq<nat>)
    requires Selects(whole, good, part, at)
    ensures if (next.response.status == 200) == good
            then Selects(whole + [next], good, part + [next], at + [|whole|])
            else Selects(whole + [next], good, part, at)
  {
    forall k | 0 <= k < |whole|
      ensures k in at + [|whole|] <==> k in at
    {
    }
  }

  lemma {:induction false} StatusSelects(responses: seq<ProposalResponse>, good: bool) returns (at: seq<nat>)
    ensures Selects(responses, good, WithStatus(responses, good), at)
  {
    at := [];
    if responses != [] {
      var last := |responses| - 1;
      var before := responses[..last];
      at := StatusSelects(before, good);
      SelectsMore(before, responses[last], good, WithStatus(before, good), at);
      assert responses == before + [responses[last]];
      if (responses[last].response.status == 200) == good {
        at := at + [last];
      }
    }
  }

  /** Successes and errors are the responses with and without status 200, each list
      in the order of the peers; a transaction is fully endorsed exactly when there is
      no error; and its payload is that of the first success, if there is one. */
  lemma ResponsesPartition(e: EndorsedTX)
    ensures exists at :: Selects(e.peerResponses, true, e.SuccessResponses(), at)
    ensures exists at :: Selects(e.peerResponses, false, e.ErrorResponses(), at)
    ensures e.FullyEndorsed() <==> e.ErrorResponses() == []
    ensures e.ResponsePayload().None? <==> forall r <- e.peerResponses :: r.response.status != 200
    ensures e.ResponsePayload().Some? ==>
              exists k | 0 <= k < |e.peerResponses| ::
                && e.peerResponses[k].response.status == 200
                && e.ResponsePayload().value == e.peerResponses[k].response.payload
                && forall i | 0 <= i < k :: e.peerResponses[i].response.status != 200
  {
    var good := StatusSelects(e.peerResponses, true);
    var bad := StatusSelects(e.peerResponses, false);
    NothingSelected(e.peerResponses, true, e.SuccessResponses(), good);
    NothingSelected(e.peerResponses, false, e.ErrorResponses(), bad);
    if good != [] {
      assert good[0] in good;
      FirstSelected(e.peerResponses, true, e.SuccessResponses(), good);
    }
  }

  lemma NothingSelected(whole: seq<ProposalResponse>, good: bool, part: seq<ProposalResponse>, at: seq<nat>)
    requires Selects(whole, good, part, at)
    ensures part == [] <==> forall r <- whole :: (r.response.status == 200) != good
  {
    if part != [] {
      assert at[0] in at && whole[at[0]] in whole;
    }
  }

  lemma FirstSelected(whole: seq<ProposalResponse>, good: bool, part: seq<ProposalResponse>, at: seq<nat>)
    requires Selects(whole, good, part, at) && at != []
    ensures forall i | 0 <= i < at[0] :: (whole[i].response.status == 200) != good
  {
    assert forall j | 0 <= j < |at| :: at[0] <= at[j];
    assert forall i: nat | i < at[0] :: i !in at;
  }

  // ----------------------------------------------------------------- encodings

  /** Latin-1 encoding; characters above 255 have none. */
  function EncodeProtoBytes(s: string): (r: Option<bytes>)
    ensures r.Some? <==> forall i | 0 <= i < |s| :: s[i] as int < 256
    ensures r.Some? ==> |r.value| == |s| && forall i | 0 <= i < |s| :: r.value[i] as int == s[i] as int
  {
    if s == [] then
      Some([])
    else if s[0] as int < 256 then
      var rest :- EncodeProtoBytes(s[1..]);
      Some([s[0] as byte] + rest)
    else
      None
  }

  /** Latin-1 bytes taken as UTF-8; `None` is the UnicodeError of either step. */
  function EncodeProtoStr(s: string): (r: Option<ProtoString>)
    ensures r.Some? <==> EncodeProtoBytes(s).Some? && IsUtf8(EncodeProtoBytes(s).value)
    ensures r.Some? ==> |r.value| == |s| && forall i | 0 <= i < |s| :: r.value[i] as int == s[i] as int
  {
    var b :- EncodeProtoBytes(s);
    if IsUtf8(b) then Some(b) else None
  }

  function EncodeArgs(args: seq<string>): (r: Option<seq<bytes>>)
    ensures r.Some? <==> forall i | 0 <= i < |args| :: EncodeProtoBytes(args[i]).Some?
    ensures r.Some? ==>
              |r.value| == |args| && forall i | 0 <= i < |args| :: Some(r.value[i]) == EncodeProtoBytes(args[i])
  {
    if args == [] then
      Some([])
    else
      var first :- EncodeProtoBytes(args[0]);
      var rest :- EncodeArgs(args[1..]);
      Some([first] + rest)
  }

  function HexDigit(n: int): byte
    requires 0 <= n < 16
  {
    if n < 10 then (n + 0x30) as byte else (n - 10 + 0x61) as byte
  }

  function HexDigest(b: bytes): (h: bytes)
    ensures |h| == 2 * |b|
    ensures forall i | 0 <= i < |h| :: h[i] <= 0x7F
  {
    if b == [] then [] else [HexDigit(b[0] as int / 16), HexDigit(b[0] as int % 16)] + HexDigest(b[1..])
  }

  /** Two digits stand for each byte, the high half first. */
  lemma {:induction false} HexDigestIsHex(b: bytes, i: nat)
    requires i < |b|
    ensures HexDigest(b)[2 * i] as int == "0123456789abcdef"[b[i] as int / 16] as int
    ensures HexDigest(b)[2 * i + 1] as int == "0123456789abcdef"[b[i] as int % 16] as int
  {
    if i == 0 {
      HexDigitIsHex(b[0] as int / 16);
      HexDigitIsHex(b[0] as int % 16);
    } else {
      HexDigestIsHex(b[1..], i - 1);
    }
  }

  lemma HexDigitIsHex(n: int)
    requires 0 <= n < 16
    ensures HexDigit(n) as int == "0123456789abcdef"[n] as int
  {
  }

  function HexValue(digit: byte): int {
    if digit < 0x61 then digit as int - 0x30 else digit as int - 0x61 + 10
  }

  lemma HexPair(c: byte)
    ensures 16 * HexValue(HexDigit(c as int / 16)) + HexValue(HexDigit(c as int % 16)) == c as int
  {
  }

  /** A digest can be read back from its hexadecimal form. */
  lemma {:induction false} HexDigestDetermines(a: bytes, b: bytes)
    requires HexDigest(a) == HexDigest(b)
    ensures a == b
    decreases |a|
  {
    assert |a| == |b|;
    if a != [] {
      var ha, hb := HexDigest(a), HexDigest(b);
      HexPair(a[0]);
      HexPair(b[0]);
      assert ha[0] == HexDigit(a[0] as int / 16) && ha[1] == HexDigit(a[0] as int % 16);
      assert hb[0] == HexDigit(b[0] as int / 16) && hb[1] == HexDigit(b[0] as int % 16);
      assert ha[2..] == HexDigest(a[1..]) && hb[2..] == HexDigest(b[1..]);
      HexDigestDetermines(a[1..], b[1..]);
      assert a == [a[0]] + a[1..] && b == [b[0]] + b[1..];
    }
  }

  function TxIdOf(hash: bytes -> bytes, nonce: bytes, creator: bytes): ProtoString {
    var h := HexDigest(hash(nonce + creator));
    AsciiIsUtf8(h);
    h
  }

  function Identity(user: User): SerializedIdentity {
    SerializedIdentity(user.mspId, user.cert)
  }

  /** The nonce is the 24 random bytes drawn for this transaction. */
  function TxContextFromUser(user: User, nonce: bytes): TXContext {
    var identity := Identity(user);
    TXContext(identity, nonce, TxIdOf(user.suite.hash, nonce, SerializedIdentityBytes(identity)), 0)
  }

  // ------------------------------------------------------------------- headers

  const CONFIG: int32 := 1
  const CONFIG_UPDATE: int32 := 2
  const ENDORSER_TRANSACTION: int32 := 3

  /** The codes `TransactionType` knows; 7 is not one of them. */
  predicate IsTransactionType(code: int) {
    0 <= code <= 6 || code == 8 || code == 9
  }

  // The codes as the ordering service numbers them.
  const KnownTypes: set<int> := {0, 1, 2, 3, 4, 5, 6, 8, 9}

  lemma TransactionTypes()
    ensures forall code :: IsTransactionType(code) <==> code in KnownTypes
    ensures KnownTypes == {0, 1, 2, 3, 4, 5, 6, 8, 9}
    ensures CONFIG == 1 && CONFIG_UPDATE == 2 && ENDORSER_TRANSACTION == 3
  {
  }

  function ChannelHeaderOf(context: TXContext, channelId: ProtoString, extension: bytes, txType: int32,
                           tlsCertHash: bytes, now: Timestamp): ChannelHeader {
    ChannelHeader(txType, 1, Some(now), channelId, context.txId, context.epoch, extension, tlsCertHash)
  }

  function SignatureHeaderOf(context: TXContext): SignatureHeader {
    SignatureHeader(SerializedIdentityBytes(context.identity), context.nonce)
  }

  /** The channel header message is completed field by field before it is serialized. */
  method BuildHeader(context: TXContext, channelId: ProtoString, extension: bytes, txType: int32,
                     tlsCertHash: bytes, now: Timestamp)
    returns (header: Header)
    ensures header == HeaderOf(context, channelId, extension, txType, tlsCertHash, now)
  {
    var channelHeader := ChannelHeader(txType, 1, Some(now), channelId, context.txId, context.epoch, [], []);
    if tlsCertHash != [] {
      channelHeader := channelHeader.(tlsCertHash := tlsCertHash);
    }
    if extension != [] {
      channelHeader := channelHeader.(extension := extension);
    }
    header := Header(ChannelHeaderBytes(channelHeader), SignatureHeaderBytes(SignatureHeaderOf(context)));
  }

  function HeaderOf(context: TXContext, channelId: ProtoString, extension: bytes, txType: int32,
                    tlsCertHash: bytes, now: Timestamp): Header {
    Header(ChannelHeaderBytes(ChannelHeaderOf(context, channelId, extension, txType, tlsCertHash, now)),
           SignatureHeaderBytes(SignatureHeaderOf(context)))
  }

  function WrapTransaction(user: User, payload: Payload): Envelope {
    Envelope(PayloadBytes(payload), user.suite.sign(PayloadBytes(payload)))
  }

  // ------------------------------------------------- the chaincode invocation

  const GOLANG: uint64 := 1

  function ChaincodeIdBytes(name: ProtoString): bytes {
    MessageBytes([[], BytesIfSet(2, name)])
  }

  /** The chaincode a header is for. */
  function ExtensionParts(name: ProtoString): seq<seq<Field>> {
    [[], [BytesField(2, ChaincodeIdBytes(name))]]
  }

  function ExtensionBytes(name: ProtoString): bytes {
    MessageBytes(ExtensionParts(name))
  }

  function ParseExtension(b: bytes): Option<ProtoString> {
    var fs :- ParseFields(b);
    var name :- Submessage<ProtoString>(fs, 2, ParseChaincodeId);
    Some(name.GetOr([]))
  }

  /** A header extension names its chaincode. */
  lemma ExtensionRoundTrip(name: ProtoString)
    requires |ExtensionBytes(name)| < SIZE_LIMIT
    ensures ParseExtension(ExtensionBytes(name)) == Some(name)
  {
    var parts := ExtensionParts(name);
    MessageRoundTrip(parts);
    PartFits(parts, 1, ChaincodeIdBytes(name));
    ChaincodeIdRoundTrip(name);
    SubmessageIsRead(parts, 2, ChaincodeIdBytes(name), ParseChaincodeId, name);
  }

  function ParseChaincodeId(b: bytes): Option<ProtoString> {
    var fs :- ParseFields(b);
    LastString(fs, 2)
  }

  function InputParts(args: seq<bytes>): seq<seq<Field>> {
    [Repeated(1, args)]
  }

  function SpecParts(name: ProtoString, args: seq<bytes>): seq<seq<Field>> {
    [VarintIfSet(1, GOLANG), [BytesField(2, ChaincodeIdBytes(name))], [BytesField(3, MessageBytes(InputParts(args)))]]
  }

  /** A message whose one field is a nested message. */
  function WrapperParts(nested: bytes): seq<seq<Field>> {
    [[BytesField(1, nested)]]
  }

  function WrapperBytes(nested: bytes): bytes {
    MessageBytes(WrapperParts(nested))
  }

  function InvocationBytes(name: ProtoString, args: seq<bytes>): bytes {
    WrapperBytes(MessageBytes(SpecParts(name, args)))
  }

  /** The chaincode type and name and the arguments that an invocation carries. */
  datatype Invocation = Invocation(typ: uint64, name: ProtoString, args: seq<bytes>)

  function ParseInvocation(b: bytes): Option<Invocation> {
    var fs :- ParseFields(b);
    var spec :- Submessage(fs, 1, ParseSpec);
    Some(spec.GetOr(Invocation(0, [], [])))
  }

  function ParseSpec(b: bytes): Option<Invocation> {
    var fs :- ParseFields(b);
    var name :- Submessage<ProtoString>(fs, 2, ParseChaincodeId);
    var args :- Submessage(fs, 3, ParseInput);
    Some(Invocation(LastVarint(fs, 1), name.GetOr([]), args.GetOr([])))
  }

  function ParseInput(b: bytes): Option<seq<bytes>> {
    var fs :- ParseFields(b);
    Some(AllBytes(fs, 1))
  }

  lemma ChaincodeIdRoundTrip(name: ProtoString)
    requires |ChaincodeIdBytes(name)| < SIZE_LIMIT
    ensures ParseChaincodeId(ChaincodeIdBytes(name)) == Some(name)
  {
    var parts := [[], BytesIfSet(2, name)];
    MessageRoundTrip(parts);
    StringIsRead(parts, 2, name);
  }

  lemma SpecRoundTrip(name: ProtoString, args: seq<bytes>)
    requires |MessageBytes(SpecParts(name, args))| < SIZE_LIMIT
    ensures ParseSpec(MessageBytes(SpecParts(name, args))) == Some(Invocation(1, name, args))
  {
    var parts := SpecParts(name, args);
    MessageRoundTrip(parts);
    VarintIsRead(parts, 1, 1);
    PartFits(parts, 1, ChaincodeIdBytes(name));
    PartFits(parts, 2, MessageBytes(InputParts(args)));
    ChaincodeIdRoundTrip(name);
    InputRoundTrip(args);
    SubmessageIsRead(parts, 2, ChaincodeIdBytes(name), ParseChaincodeId, name);
    SubmessageIsRead(parts, 3, MessageBytes(InputParts(args)), ParseInput, args);
  }

  lemma InputRoundTrip(args: seq<bytes>)
    requires |MessageBytes(InputParts(args))| < SIZE_LIMIT
    ensures ParseInput(MessageBytes(InputParts(args))) == Some(args)
  {
    RepeatedIsRead(1, args);
    MessageRoundTrip(InputParts(args));
    ListIsRead(InputParts(args), 1, args);
  }

  lemma WrapperFields(nested: bytes)
    requires |WrapperBytes(nested)| < SIZE_LIMIT
    ensures Numbered(WrapperParts(nested))
    ensures ParseFields(WrapperBytes(nested)) == Some(Flatten(WrapperParts(nested)))
    ensures |nested| <= |WrapperBytes(nested)|
  {
    var parts := WrapperParts(nested);
    assert Numbered(parts) by {
      assert forall i | 0 <= i < |parts| :: parts[i] == [BytesField(1, nested)];
    }
    MessageRoundTrip(parts);
    PartFits(parts, 0, nested);
  }

  /** An invocation carries its chaincode name and every argument, in order, for a
      chaincode of type GOLANG, which is 1. */
  lemma InvocationRoundTrip(name: ProtoString, args: seq<bytes>)
    requires |InvocationBytes(name, args)| < SIZE_LIMIT
    ensures ParseInvocation(InvocationBytes(name, args)) == Some(Invocation(1, name, args))
  {
    var spec := MessageBytes(SpecParts(name, args));
    WrapperFields(spec);
    SpecRoundTrip(name, args);
    SubmessageIsRead(WrapperParts(spec), 1, spec, ParseSpec, Invocation(1, name, args));
  }

  // --------------------------------------------------- generated transactions

  /** Everything a generated transaction depends on besides its transient map. */
  datatype Request = Request(
    requestor: User, ccName: ProtoString, args: seq<bytes>, channelId: ProtoString, nonce: bytes, now: Timestamp)
  {
    function Context(): TXContext {
      TxContextFromUser(requestor, nonce)
    }

    function TxHeader(): Header {
      HeaderOf(Context(), channelId, ExtensionBytes(ccName), ENDORSER_TRANSACTION, [], now)
    }

    function Input(): bytes {
      InvocationBytes(ccName, args)
    }

    /** The proposal whose transient map is written as `entries`. */
    function ProposalWith(entries: seq<Entry>): Proposal {
      Proposal(HeaderBytes(TxHeader()), ProposalPayloadBytes(Input(), entries))
    }

    function Generate(entries: seq<Entry>): GeneratedTX {
      var toSign := ProposalBytes(ProposalWith(entries));
      GeneratedTX(Context(), ProposalWith([]), SignedProposal(toSign, requestor.suite.sign(toSign)), TxHeader())
    }

    /** `g` is a transaction generated with `transientMap`, its entries written in some order. */
    ghost predicate Generates(transientMap: TransientMap, g: GeneratedTX) {
      exists entries :: Writes(entries, transientMap) && g == Generate(entries)
    }
  }

  /** The map is written as `entries`: in any order, but each key once. */
  ghost predicate Writes(entries: seq<Entry>, m: TransientMap) {
    && MapOf(entries) == m
    && forall i, j | 0 <= i < j < |entries| :: entries[i].key != entries[j].key
  }

  lemma {:induction false} KeysAreMapped(entries: seq<Entry>, i: nat)
    requires i < |entries|
    ensures entries[i].key in MapOf(entries)
  {
    if i < |entries| - 1 {
      KeysAreMapped(entries[..|entries| - 1], i);
    }
  }

  lemma WritesMore(entries: seq<Entry>, m: TransientMap, entry: Entry)
    requires Writes(entries, m) && entry.key !in m
    ensures Writes(entries + [entry], m[entry.key := entry.value])
  {
    MapOfMore(entries, entry);
    forall i | 0 <= i < |entries|
      ensures entries[i].key != entry.key
    {
      KeysAreMapped(entries, i);
    }
  }

  lemma MapOfMore(entries: seq<Entry>, entry: Entry)
    ensures MapOf(entries + [entry]) == MapOf(entries)[entry.key := entry.value]
  {
    assert (entries + [entry])[..|entries|] == entries;
  }

  lemma OneKeyLess(m: TransientMap, keys: set<ProtoString>, key: ProtoString)
    requires keys <= m.Keys && key in keys
    ensures key !in m - keys
    ensures m - (keys - {key}) == (m - keys)[key := m[key]]
  {
  }

  /** A ChaincodeProposalPayload message under construction. */
  class ProposalPayloadMessage {
    var input: bytes
    var transientMap: TransientMap

    constructor (input: bytes)
      ensures this.input == input && transientMap == map[]
    {
      this.input := input;
      transientMap := map[];
    }

    method SetTransient(name: ProtoString, value: bytes)
      modifies this`transientMap
      ensures transientMap == old(transientMap)[name := value]
    {
      transientMap := transientMap[name := value];
    }

    /** Writes the map in an order of the library's choosing. */
    method SerializeToString() returns (b: bytes)
      ensures exists entries :: Writes(entries, transientMap) && b == ProposalPayloadBytes(input, entries)
    {
      var entries: seq<Entry> := [];
      var keys := transientMap.Keys;
      while keys != {}
        invariant keys <= transientMap.Keys
        invariant Writes(entries, transientMap - keys)
        decreases keys
      {
        var key :| key in keys;
        OneKeyLess(transientMap, keys, key);
        WritesMore(entries, transientMap - keys, Entry(key, transientMap[key]));
        entries := entries + [Entry(key, transientMap[key])];
        keys := keys - {key};
      }
      assert transientMap - keys == transientMap;
      b := ProposalPayloadBytes(input, entries);
    }
  }

  lemma {:induction false} EmptyMapHasNoEntries(entries: seq<Entry>)
    ensures MapOf(entries) == map[] <==> entries == []
  {
    if entries != [] {
      var last := entries[|entries| - 1];
      assert last.key in MapOf(entries);
    }
  }

  /** `channel` is the name of the channel, or "" for none. The proposal is
      captured before the transient map is written into the same message. */
  method BuildGeneratedTx(requestor: User, ccName: ProtoString, args: seq<bytes>, channel: string,
                          transientMap: TransientMap, nonce: bytes, now: Timestamp)
    returns (r: Option<GeneratedTX>)
    ensures r.Some? <==> EncodeProtoStr(channel).Some?
    ensures r.Some? ==>
              Request(requestor, ccName, args, EncodeProtoStr(channel).value, nonce, now)
              .Generates(transientMap, r.value)
  {
    var context := TxContextFromUser(requestor, nonce);
    var channelId :- EncodeProtoStr(channel);
    ghost var request := Request(requestor, ccName, args, channelId, nonce, now);
    var extension := ExtensionBytes(ccName);
    var header := BuildHeader(context, channelId, extension, ENDORSER_TRANSACTION, [], now);
    var headerBytes := HeaderBytes(header);
    var input := InvocationBytes(ccName, args);

    var captured, withTransient := SerializeProposalPayloads(input, transientMap);
    var proposal := Proposal(headerBytes, captured);
    var transientProposal := Proposal(headerBytes, withTransient);

    ghost var entries: seq<Entry> :|
      Writes(entries, transientMap) && withTransient == ProposalPayloadBytes(input, entries);
    assert transientProposal == request.ProposalWith(entries);
    var toSign := ProposalBytes(transientProposal);
    r := Some(GeneratedTX(context, proposal, SignedProposal(toSign, requestor.suite.sign(toSign)), header));
    assert r.value == request.Generate(entries);
  }

  /** An invocation's function name and arguments are Latin-1 encoded, in order. */
  method GenerateCcTx(requestor: User, ccName: ProtoString, channel: string, fcn: string, args: seq<string>,
                      transientMap: TransientMap, nonce: bytes, now: Timestamp)
    returns (r: Option<GeneratedTX>)
    ensures r.Some? <==> EncodeArgs([fcn] + args).Some? && EncodeProtoStr(channel).Some?
    ensures r.Some? ==>
              Request(requestor, ccName, EncodeArgs([fcn] + args).value, EncodeProtoStr(channel).value, nonce, now)
              .Generates(transientMap, r.value)
  {
    var fullArgs :- EncodeArgs([fcn] + args);
    r := BuildGeneratedTx(requestor, ccName, fullArgs, channel, transientMap, nonce, now);
  }

  /** The two payloads of a generated transaction: the one captured first, and the
      one peers are sent, written by the same message after its map was filled in. */
  method SerializeProposalPayloads(input: bytes, transientMap: TransientMap) returns (captured: bytes, sent: bytes)
    ensures captured == ProposalPayloadBytes(input, [])
    ensures exists entries :: Writes(entries, transientMap) && sent == ProposalPayloadBytes(input, entries)
  {
    var message := new ProposalPayloadMessage(input);
    captured := message.SerializeToString();
    ghost var none: seq<Entry> :| Writes(none, map[]) && captured == ProposalPayloadBytes(input, none);
    EmptyMapHasNoEntries(none);

    sent := captured;
    if transientMap != map[] {
      var keys := transientMap.Keys;
      while keys != {}
        invariant keys <= transientMap.Keys
        invariant message.input == input
        invariant message.transientMap == transientMap - keys
        decreases keys
      {
        var key :| key in keys;
        OneKeyLess(transientMap, keys, key);
        message.SetTransient(key, transientMap[key]);
        keys := keys - {key};
      }
      assert transientMap - keys == transientMap;
      sent := message.SerializeToString();
    }
  }

  // ----------------------------------------------------- endorsed transactions

  /** What a round of peer responses makes of a generated transaction. */
  function Endorse(g: GeneratedTX, responses: seq<ProposalResponse>): EndorsedTX {
    EndorsedTX(responses, g.proposal, g.header, g.txContext)
  }

  function Endorsements(responses: seq<ProposalResponse>): seq<Endorsement> {
    seq(|responses|, i requires 0 <= i < |responses| => responses[i].endorsement)
  }

  function EndorsedAction(e: EndorsedTX): ChaincodeActionPayload
    requires e.peerResponses != []
  {
    ChaincodeActionPayload(
      e.proposal.payload,
      Some(ChaincodeEndorsedAction(e.peerResponses[0].payload, Endorsements(e.peerResponses))))
  }

  function EndorsedAsTransaction(e: EndorsedTX): seq<TransactionAction>
    requires e.peerResponses != []
  {
    [TransactionAction(e.header.signatureHeader, ChaincodeActionPayloadBytes(EndorsedAction(e)))]
  }

  function EndorsedPayload(e: EndorsedTX): Payload
    requires e.peerResponses != []
  {
    Payload(Some(e.header), TransactionBytes(EndorsedAsTransaction(e)))
  }

  /** `None` is the IndexError of a transaction without any peer response. */
  function BuildEndorsedTxEnvelope(e: EndorsedTX, requestor: User): (r: Option<Envelope>)
    ensures r.Some? <==> |e.peerResponses| > 0
    ensures r.Some? ==> r.value.signature == requestor.suite.sign(r.value.payload)
  {
    if e.peerResponses == [] then None else Some(WrapTransaction(requestor, EndorsedPayload(e)))
  }

  // ------------------------------------------------------------ config updates

  function BuildConfigUpdateEnvelope(channel: string, context: TXContext, requestor: User, configUpdate: bytes,
                                     now: Timestamp): (r: Option<Envelope>)
    ensures r.Some? <==> EncodeProtoStr(channel).Some?
    ensures r.Some? ==> r.value.signature == requestor.suite.sign(r.value.payload)
  {
    var headerBytes := SignatureHeaderBytes(SignatureHeaderOf(context));
    var signature := ConfigSignature(headerBytes, requestor.suite.sign(headerBytes + configUpdate));
    var channelId :- EncodeProtoStr(channel);
    Some(WrapTransaction(
           requestor,
           Payload(Some(HeaderOf(context, channelId, [], CONFIG_UPDATE, [], now)),
                   ConfigUpdateEnvelopeBytes(ConfigUpdateEnvelope(configUpdate, [signature])))))
  }
}
