/** Decoding of serialized envelopes (snakeskin/models/_decoded.py). */
module Decoded {
  import opened Wrappers
  import opened Wire
  import opened Messages
  import opened Transactions

  // ----------------------------------------------------- channel configurations

  /** The messages of a channel configuration; the entries are those of its maps. */
  datatype Shape =
    | ConfigUpdate | Config | ConfigGroup | ConfigValue | ConfigPolicy | Policy
    | GroupEntry | ValueEntry | PolicyEntry | DataEntry

  /** What a length-delimited field holds, as far as parsing depends on it. */
  datatype Content = Text | Nested(shape: Shape) | Opaque

  function ContentOf(shape: Shape, num: nat): Content {
    match shape
    case ConfigUpdate =>
      if num == 1 then Text else if num == 2 || num == 3 then Nested(ConfigGroup)
      else if num == 5 then Nested(DataEntry) else Opaque
    case Config => if num == 2 then Nested(ConfigGroup) else Opaque
    case ConfigGroup =>
      if num == 2 then Nested(GroupEntry) else if num == 3 then Nested(ValueEntry)
      else if num == 4 then Nested(PolicyEntry) else if num == 5 then Text else Opaque
    case ConfigValue => if num == 3 then Text else Opaque
    case ConfigPolicy => if num == 2 then Nested(Policy) else if num == 3 then Text else Opaque
    case Policy => Opaque
    case GroupEntry => if num == 1 then Text else if num == 2 then Nested(ConfigGroup) else Opaque
    case ValueEntry => if num == 1 then Text else if num == 2 then Nested(ConfigValue) else Opaque
    case PolicyEntry => if num == 1 then Text else if num == 2 then Nested(ConfigPolicy) else Opaque
    case DataEntry => if num == 1 then Text else Opaque
  }

  /** The strings and the nested messages of a channel configuration, by field number. */
  lemma ConfigShapes(shape: Shape, num: nat)
    ensures ContentOf(shape, num) == Text
            <==> (shape, num) in {(ConfigUpdate, 1), (ConfigGroup, 5), (ConfigValue, 3), (ConfigPolicy, 3),
                                  (GroupEntry, 1), (ValueEntry, 1), (PolicyEntry, 1), (DataEntry, 1)}
    ensures var nested := map[(ConfigUpdate, 2) := ConfigGroup, (ConfigUpdate, 3) := ConfigGroup,
                              (ConfigUpdate, 5) := DataEntry, (Config, 2) := ConfigGroup,
                              (ConfigGroup, 2) := GroupEntry, (ConfigGroup, 3) := ValueEntry,
                              (ConfigGroup, 4) := PolicyEntry, (ConfigPolicy, 2) := Policy,
                              (GroupEntry, 2) := ConfigGroup, (ValueEntry, 2) := ConfigValue,
                              (PolicyEntry, 2) := ConfigPolicy];
            if (shape, num) in nested then ContentOf(shape, num) == Nested(nested[(shape, num)])
            else !ContentOf(shape, num).Nested?
  {
  }

  /** Whether bytes parse as a message of some shape: every nested message does, at
      any depth, and every string is UTF-8. */
  predicate Parses(shape: Shape, b: bytes)
    decreases |b|
  {
    && ParseFields(b).Some?
    && forall f <- ParseFields(b).value | f.BytesField? ::
         match ContentOf(shape, f.num)
         case Text => IsUtf8(f.data)
         case Nested(inner) => (ParsedIsShorter(b, f); Parses(inner, f.data))
         case Opaque => true
  }

  /** A message that parses, kept as its top-level records. */
  datatype RawMessage = RawMessage(fields: seq<Field>)

  function ParseConfigUpdate(b: bytes): Option<RawMessage> {
    if Parses(ConfigUpdate, b) then Some(RawMessage(ParseFields(b).value)) else None
  }

  function ParseConfig(b: bytes): Option<RawMessage> {
    if Parses(Config, b) then Some(RawMessage(ParseFields(b).value)) else None
  }

  // -------------------------------------------------------------- decoded messages

  datatype DecodedSignatureHeader = DecodedSignatureHeader(creator: SerializedIdentity, nonce: bytes)

  datatype DecodedHeader = DecodedHeader(channelHeader: ChannelHeader, signatureHeader: DecodedSignatureHeader)

  datatype DecodedConfigSignature = DecodedConfigSignature(signatureHeader: DecodedSignatureHeader, signature: bytes)

  datatype DecodedConfigUpdate = DecodedConfigUpdate(configUpdate: RawMessage, signatures: seq<DecodedConfigSignature>)

  datatype DecodedLastUpdate = DecodedLastUpdate(header: DecodedHeader, data: DecodedConfigUpdate, signature: bytes)

  datatype DecodedEndorsement = DecodedEndorsement(endorser: SerializedIdentity, signature: bytes)

  datatype DecodedAction = DecodedAction(
    header: DecodedSignatureHeader, proposalResponsePayload: ProposalResponsePayload,
    endorsements: seq<DecodedEndorsement>, chaincodeProposalPayload: ChaincodeProposalPayload)

  datatype DecodedData =
    | ConfigData(config: RawMessage, lastUpdate: DecodedLastUpdate)
    | ConfigUpdateData(update: DecodedConfigUpdate)
    | TransactionData(actions: seq<DecodedAction>)
    | OpaqueData(data: bytes)

  datatype DecodedTX = DecodedTX(signature: bytes, header: DecodedHeader, data: DecodedData) {
    function TxId(): ProtoString {
      header.channelHeader.txId
    }
  }

  function DecodeSignatureHeader(b: bytes): Option<DecodedSignatureHeader> {
    var header :- ParseSignatureHeader(b);
    var creator :- ParseSerializedIdentity(header.creator);
    Some(DecodedSignatureHeader(creator, header.nonce))
  }

  function DecodeHeader(header: Header): Option<DecodedHeader> {
    var channelHeader :- ParseChannelHeader(header.channelHeader);
    var signatureHeader :- DecodeSignatureHeader(header.signatureHeader);
    Some(DecodedHeader(channelHeader, signatureHeader))
  }

  function DecodeConfigSignatures(signatures: seq<ConfigSignature>): Option<seq<DecodedConfigSignature>> {
    if signatures == [] then
      Some([])
    else
      var header :- DecodeSignatureHeader(signatures[0].signatureHeader);
      var rest :- DecodeConfigSignatures(signatures[1..]);
      Some([DecodedConfigSignature(header, signatures[0].signature)] + rest)
  }

  function DecodeConfigUpdate(b: bytes): Option<DecodedConfigUpdate> {
    var envelope :- ParseConfigUpdateEnvelope(b);
    var configUpdate :- ParseConfigUpdate(envelope.configUpdate);
    var signatures :- DecodeConfigSignatures(envelope.signatures);
    Some(DecodedConfigUpdate(configUpdate, signatures))
  }

  function DecodeConfig(b: bytes): Option<DecodedData> {
    var fs :- ParseFields(b);
    var config :- Submessage(fs, 1, ParseConfig);
    var envelope :- Submessage(fs, 2, ParseEnvelope);
    var lastUpdate := envelope.GetOr(Envelope([], []));
    var payload :- ParsePayload(lastUpdate.payload);
    var header :- DecodeHeader(payload.header.GetOr(Header([], [])));
    var data :- DecodeConfigUpdate(payload.data);
    Some(ConfigData(config.GetOr(RawMessage([])), DecodedLastUpdate(header, data, lastUpdate.signature)))
  }

  function DecodeEndorsements(endorsements: seq<Endorsement>): Option<seq<DecodedEndorsement>> {
    if endorsements == [] then
      Some([])
    else
      var endorser :- ParseSerializedIdentity(endorsements[0].endorser);
      var rest :- DecodeEndorsements(endorsements[1..]);
      Some([DecodedEndorsement(endorser, endorsements[0].signature)] + rest)
  }

  function DecodeAction(action: TransactionAction): Option<DecodedAction> {
    var payload :- ParseChaincodeActionPayload(action.payload);
    var endorsed := payload.action.GetOr(ChaincodeEndorsedAction([], []));
    var header :- DecodeSignatureHeader(action.header);
    var responsePayload :- ParseProposalResponsePayload(endorsed.proposalResponsePayload);
    var endorsements :- DecodeEndorsements(endorsed.endorsements);
    var proposalPayload :- ParseChaincodeProposalPayload(payload.chaincodeProposalPayload);
    Some(DecodedAction(header, responsePayload, endorsements, proposalPayload))
  }

  function DecodeActions(actions: seq<TransactionAction>): Option<seq<DecodedAction>> {
    if actions == [] then
      Some([])
    else
      var first :- DecodeAction(actions[0]);
      var rest :- DecodeActions(actions[1..]);
      Some([first] + rest)
  }

  function DecodeTransactionBody(b: bytes): Option<seq<DecodedAction>> {
    var actions :- ParseTransaction(b);
    DecodeActions(actions)
  }

  /** The payload decoder is chosen by the header type; every other known type keeps its bytes. */
  function DecodeData(txType: int, data: bytes): Option<DecodedData>
    requires IsTransactionType(txType)
  {
    if txType == CONFIG then
      DecodeConfig(data)
    else if txType == CONFIG_UPDATE then
      var update :- DecodeConfigUpdate(data);
      Some(ConfigUpdateData(update))
    else if txType == ENDORSER_TRANSACTION then
      var actions :- DecodeTransactionBody(data);
      Some(TransactionData(actions))
    else
      Some(OpaqueData(data))
  }

  /** `None` stands for a parse error anywhere, or for an unknown header type. */
  function DecodeTX(b: bytes): Option<DecodedTX> {
    var envelope :- ParseEnvelope(b);
    var payload :- ParsePayload(envelope.payload);
    var header :- DecodeHeader(payload.header.GetOr(Header([], [])));
    if IsTransactionType(header.channelHeader.typ) then
      var data :- DecodeData(header.channelHeader.typ, payload.data);
      Some(DecodedTX(envelope.signature, header, data))
    else
      None
  }
}
