/** What is assembled is what is decoded: round trips of endorsed transactions and
    of configuration updates, and what a transient map can and cannot reach. */
module RoundTrip {
  import opened Wrappers
  import opened Wire
  import opened Messages
  import opened Transactions
  import opened Decoded

  // ------------------------------------------------------------------- headers

  lemma SignatureHeaderDecodes(context: TXContext)
    requires |SignatureHeaderBytes(SignatureHeaderOf(context))| < SIZE_LIMIT
    ensures DecodeSignatureHeader(SignatureHeaderBytes(SignatureHeaderOf(context)))
            == Some(DecodedSignatureHeader(context.identity, context.nonce))
  {
    var creator := SerializedIdentityBytes(context.identity);
    PairRoundTrip(creator, context.nonce);
    PairFits(creator, context.nonce);
    NamedRoundTrip(context.identity.mspid, context.identity.idBytes);
  }

  /** A header that was built decodes to the context, channel, type, extension and time it was built from. */
  lemma HeaderDecodes(context: TXContext, channelId: ProtoString, extension: bytes, txType: int32,
                      tlsCertHash: bytes, now: Timestamp)
    requires |HeaderBytes(HeaderOf(context, channelId, extension, txType, tlsCertHash, now))| < SIZE_LIMIT
    ensures DecodeHeader(HeaderOf(context, channelId, extension, txType, tlsCertHash, now))
            == Some(DecodedHeader(
                      ChannelHeader(txType, 1, Some(now), channelId, context.txId, context.epoch, extension,
                                    tlsCertHash),
                      DecodedSignatureHeader(context.identity, context.nonce)))
  {
    var header := HeaderOf(context, channelId, extension, txType, tlsCertHash, now);
    PairFits(header.channelHeader, header.signatureHeader);
    ChannelHeaderRoundTrip(ChannelHeaderOf(context, channelId, extension, txType, tlsCertHash, now));
    SignatureHeaderDecodes(context);
  }

  /** Peeling an envelope gives back the payload that was wrapped, with the signature over its bytes. */
  lemma WrappedPayloadDecodes(user: User, header: Header, data: bytes)
    requires |EnvelopeBytes(WrapTransaction(user, Payload(Some(header), data)))| < SIZE_LIMIT
    ensures var payload := Payload(Some(header), data);
            && ParseEnvelope(EnvelopeBytes(WrapTransaction(user, payload)))
               == Some(Envelope(PayloadBytes(payload), user.suite.sign(PayloadBytes(payload))))
            && ParsePayload(PayloadBytes(payload)) == Some(payload)
            && |HeaderBytes(header)| < SIZE_LIMIT
            && |data| < SIZE_LIMIT
  {
    var payload := Payload(Some(header), data);
    var envelope := WrapTransaction(user, payload);
    PairRoundTrip(envelope.payload, envelope.signature);
    PairFits(envelope.payload, envelope.signature);
    PayloadFits(header, data);
    PayloadRoundTrip(header, data);
  }

  /** The decoder peels a wrapped payload down to its data and reads that by the header type. */
  lemma WrappedTXDecodes(user: User, header: Header, data: bytes, decoded: DecodedHeader)
    requires |EnvelopeBytes(WrapTransaction(user, Payload(Some(header), data)))| < SIZE_LIMIT
    requires DecodeHeader(header) == Some(decoded) && IsTransactionType(decoded.channelHeader.typ)
    ensures var envelope := WrapTransaction(user, Payload(Some(header), data));
            DecodeTX(EnvelopeBytes(envelope))
            == var body := DecodeData(decoded.channelHeader.typ, data);
               if body.None? then None else Some(DecodedTX(envelope.signature, decoded, body.value))
  {
    WrappedPayloadDecodes(user, header, data);
  }

  /** Data of the other known types is kept as it is, and an unknown type is refused. */
  lemma OtherTypesDecode(user: User, header: Header, data: bytes, decoded: DecodedHeader)
    requires |EnvelopeBytes(WrapTransaction(user, Payload(Some(header), data)))| < SIZE_LIMIT
    requires DecodeHeader(header) == Some(decoded)
    ensures var envelope := WrapTransaction(user, Payload(Some(header), data));
            && (decoded.channelHeader.typ in {0, 4, 5, 6, 8, 9} ==>
                  DecodeTX(EnvelopeBytes(envelope))
                  == Some(DecodedTX(envelope.signature, decoded, OpaqueData(data))))
            && (decoded.channelHeader.typ !in {0, 1, 2, 3, 4, 5, 6, 8, 9} ==>
                  DecodeTX(EnvelopeBytes(envelope)) == None)
  {
    TransactionTypes();
    WrappedPayloadDecodes(user, header, data);
  }

  /** An empty envelope is no error: every field has its default. */
  lemma EmptyEnvelopeDecodes()
    ensures DecodeTX([])
            == Some(DecodedTX([], DecodedHeader(ChannelHeader(0, 0, None, [], [], 0, [], []),
                                                DecodedSignatureHeader(SerializedIdentity([], []), [])),
                              OpaqueData([])))
  {
    assert ParseEnvelope([]) == Some(Envelope([], []));
    assert ParsePayload([]) == Some(Payload(None, []));
    assert ParseChannelHeader([]) == Some(ChannelHeader(0, 0, None, [], [], 0, [], []));
    assert DecodeSignatureHeader([]) == Some(DecodedSignatureHeader(SerializedIdentity([], []), []));
  }

  // ----------------------------------------------------- endorsed transactions

  /** What the peers of `responses` contribute to a decoded action, if it parses. */
  function PeerParts(responses: seq<ProposalResponse>): Option<(ProposalResponsePayload, seq<DecodedEndorsement>)>
    requires responses != []
  {
    var responsePayload :- ParseProposalResponsePayload(responses[0].payload);
    var endorsements :- DecodeEndorsements(Endorsements(responses));
    Some((responsePayload, endorsements))
  }

  /** Peer parts parse exactly when the first payload and every endorser do, and
      endorsements keep the order of the peers. */
  lemma PeerPartsParse(responses: seq<ProposalResponse>)
    requires responses != []
    ensures PeerParts(responses).Some?
            <==> && ParseProposalResponsePayload(responses[0].payload).Some?
                 && forall r <- responses :: ParseSerializedIdentity(r.endorsement.endorser).Some?
    ensures PeerParts(responses).Some? ==>
              var (responsePayload, endorsements) := PeerParts(responses).value;
              && Some(responsePayload) == ParseProposalResponsePayload(responses[0].payload)
              && |endorsements| == |responses|
              && forall i | 0 <= i < |responses| ::
                   && Some(endorsements[i].endorser) == ParseSerializedIdentity(responses[i].endorsement.endorser)
                   && endorsements[i].signature == responses[i].endorsement.signature
  {
    var es := Endorsements(responses);
    EndorsementsParse(es);
    if forall r <- responses :: ParseSerializedIdentity(r.endorsement.endorser).Some? {
      assert forall i | 0 <= i < |es| :: es[i] == responses[i].endorsement;
    } else {
      var r :| r in responses && ParseSerializedIdentity(r.endorsement.endorser).None?;
      var i :| 0 <= i < |responses| && responses[i] == r;
      assert es[i] == r.endorsement;
    }
  }

  lemma {:induction false} EndorsementsParse(es: seq<Endorsement>)
    ensures DecodeEndorsements(es).Some? <==>
            forall i | 0 <= i < |es| :: ParseSerializedIdentity(es[i].endorser).Some?
    ensures DecodeEndorsements(es).Some? ==>
              var ds := DecodeEndorsements(es).value;
              && |ds| == |es|
              && forall i | 0 <= i < |es| ::
                   && Some(ds[i].endorser) == ParseSerializedIdentity(es[i].endorser)
                   && ds[i].signature == es[i].signature
  {
    if es != [] {
      EndorsementsParse(es[1..]);
      assert forall i | 1 <= i < |es| :: es[i] == es[1..][i - 1];
    }
  }

  lemma ActionParses(e: EndorsedTX)
    requires e.peerResponses != []
    requires |TransactionBytes(EndorsedAsTransaction(e))| < SIZE_LIMIT
    ensures ParseTransaction(TransactionBytes(EndorsedAsTransaction(e))) == Some(EndorsedAsTransaction(e))
    ensures ParseChaincodeActionPayload(ChaincodeActionPayloadBytes(EndorsedAction(e))) == Some(EndorsedAction(e))
    ensures |e.proposal.payload| < SIZE_LIMIT
  {
    var actions := EndorsedAsTransaction(e);
    TransactionRoundTrip(actions);
    TransactionFits(actions, 0);
    PairFits(actions[0].header, actions[0].payload);
    var action := EndorsedAction(e).action.value;
    ActionPayloadFits(e.proposal.payload, action);
    ActionPayloadRoundTrip(e.proposal.payload, action);
  }

  lemma ActionDecodes(e: EndorsedTX, header: DecodedSignatureHeader, proposal: ChaincodeProposalPayload)
    requires e.peerResponses != []
    requires |TransactionBytes(EndorsedAsTransaction(e))| < SIZE_LIMIT
    requires DecodeSignatureHeader(e.header.signatureHeader) == Some(header)
    requires ParseChaincodeProposalPayload(e.proposal.payload) == Some(proposal)
    ensures DecodeAction(EndorsedAsTransaction(e)[0])
            == if PeerParts(e.peerResponses).None? then None
               else Some(DecodedAction(header, PeerParts(e.peerResponses).value.0,
                                       PeerParts(e.peerResponses).value.1, proposal))
  {
    ActionParses(e);
  }

  lemma BodyDecodes(e: EndorsedTX, action: Option<DecodedAction>)
    requires e.peerResponses != []
    requires |TransactionBytes(EndorsedAsTransaction(e))| < SIZE_LIMIT
    requires DecodeAction(EndorsedAsTransaction(e)[0]) == action
    ensures DecodeData(ENDORSER_TRANSACTION, TransactionBytes(EndorsedAsTransaction(e)))
            == if action.None? then None else Some(TransactionData([action.value]))
  {
    ActionParses(e);
    OneActionDecodes(EndorsedAsTransaction(e)[0]);
    assert DecodeTransactionBody(TransactionBytes(EndorsedAsTransaction(e)))
        == DecodeActions(EndorsedAsTransaction(e));
  }

  lemma OneActionDecodes(action: TransactionAction)
    ensures DecodeActions([action])
            == var decoded := DecodeAction(action); if decoded.None? then None else Some([decoded.value])
  {
    var rest: seq<DecodedAction> := [];
    assert DecodeActions([action][1..]) == Some(rest);
    if DecodeAction(action).Some? {
      assert [DecodeAction(action).value] + rest == [DecodeAction(action).value];
    }
  }

  /** Actions decode one by one, in order. */
  lemma {:induction false} ActionsDecode(actions: seq<TransactionAction>)
    ensures DecodeActions(actions).Some? <==> forall i | 0 <= i < |actions| :: DecodeAction(actions[i]).Some?
    ensures DecodeActions(actions).Some? ==>
              && |DecodeActions(actions).value| == |actions|
              && forall i | 0 <= i < |actions| :: DecodeAction(actions[i]) == Some(DecodeActions(actions).value[i])
  {
    if actions != [] {
      ActionsDecode(actions[1..]);
      assert forall i | 1 <= i < |actions| :: actions[i] == actions[1..][i - 1];
    }
  }

  /** So do the signatures of a configuration update. */
  lemma {:induction false} SignaturesDecode(signatures: seq<ConfigSignature>)
    ensures DecodeConfigSignatures(signatures).Some?
            <==> forall i | 0 <= i < |signatures| :: DecodeSignatureHeader(signatures[i].signatureHeader).Some?
    ensures DecodeConfigSignatures(signatures).Some? ==>
              var ds := DecodeConfigSignatures(signatures).value;
              && |ds| == |signatures|
              && forall i | 0 <= i < |signatures| ::
                   && DecodeSignatureHeader(signatures[i].signatureHeader) == Some(ds[i].signatureHeader)
                   && ds[i].signature == signatures[i].signature
  {
    if signatures != [] {
      SignaturesDecode(signatures[1..]);
      assert forall i | 1 <= i < |signatures| :: signatures[i] == signatures[1..][i - 1];
    }
  }

  lemma OneSignatureDecodes(signature: ConfigSignature)
    ensures DecodeConfigSignatures([signature])
            == var header := DecodeSignatureHeader(signature.signatureHeader);
               if header.None? then None else Some([DecodedConfigSignature(header.value, signature.signature)])
  {
    var rest: seq<DecodedConfigSignature> := [];
    assert DecodeConfigSignatures([signature][1..]) == Some(rest);
    var header := DecodeSignatureHeader(signature.signatureHeader);
    if header.Some? {
      var decoded := DecodedConfigSignature(header.value, signature.signature);
      assert [decoded] + rest == [decoded];
    }
  }

  /** The header and the proposal payload of a generated transaction decode. */
  lemma GeneratedPartsDecode(request: Request)
    requires |HeaderBytes(request.TxHeader())| < SIZE_LIMIT
    requires |ProposalPayloadBytes(request.Input(), [])| < SIZE_LIMIT
    ensures DecodeHeader(request.TxHeader()) == Some(ExpectedHeader(request))
    ensures DecodeSignatureHeader(request.TxHeader().signatureHeader) == Some(ExpectedHeader(request).signatureHeader)
    ensures ParseChaincodeProposalPayload(ProposalPayloadBytes(request.Input(), []))
            == Some(ChaincodeProposalPayload(request.Input(), map[]))
  {
    HeaderDecodes(request.Context(), request.channelId, ExtensionBytes(request.ccName), ENDORSER_TRANSACTION, [],
                  request.now);
    PairFits(request.TxHeader().channelHeader, request.TxHeader().signatureHeader);
    SignatureHeaderDecodes(request.Context());
    ProposalPayloadRoundTrip(request.Input(), []);
  }

  function ExpectedHeader(request: Request): DecodedHeader {
    DecodedHeader(
      ChannelHeader(ENDORSER_TRANSACTION, 1, Some(request.now), request.channelId, request.Context().txId, 0,
                    ExtensionBytes(request.ccName), []),
      DecodedSignatureHeader(SerializedIdentity(request.requestor.mspId, request.requestor.cert), request.nonce))
  }

  /** The decoded form of an endorsed transaction of `request`. */
  function ExpectedTX(request: Request, envelope: Envelope, responsePayload: ProposalResponsePayload,
                      endorsements: seq<DecodedEndorsement>): DecodedTX {
    var header := ExpectedHeader(request);
    DecodedTX(
      envelope.signature, header,
      TransactionData([
        DecodedAction(header.signatureHeader, responsePayload, endorsements,
                      ChaincodeProposalPayload(request.Input(), map[]))]))
  }

  /** Envelope round trip: the serialized envelope of a generated and endorsed
      transaction decodes, as an endorser transaction, to one action that carries
      the proposal without any transient data, the first peer's payload and every
      endorsement in peer order. It fails to decode only when a peer sent bytes
      that do not parse. */
  lemma EndorsedEnvelopeRoundTrip(request: Request, transientMap: TransientMap, g: GeneratedTX,
                                  responses: seq<ProposalResponse>, envelope: Envelope)
    requires request.Generates(transientMap, g)
    requires BuildEndorsedTxEnvelope(Endorse(g, responses), request.requestor) == Some(envelope)
    requires |EnvelopeBytes(envelope)| < SIZE_LIMIT
    ensures envelope.signature == request.requestor.suite.sign(envelope.payload)
    ensures DecodeTX(EnvelopeBytes(envelope)).Some? <==> PeerParts(responses).Some?
    ensures PeerParts(responses).Some? ==>
              var (responsePayload, endorsements) := PeerParts(responses).value;
              DecodeTX(EnvelopeBytes(envelope))
              == Some(ExpectedTX(request, envelope, responsePayload, endorsements))
  {
    var e := Endorse(g, responses);
    var data := TransactionBytes(EndorsedAsTransaction(e));
    var header := ExpectedHeader(request);
    var proposal := ChaincodeProposalPayload(request.Input(), map[]);
    WrappedPayloadDecodes(request.requestor, e.header, data);
    ActionParses(e);
    GeneratedPartsDecode(request);
    ActionDecodes(e, header.signatureHeader, proposal);
    BodyDecodes(e, DecodeAction(EndorsedAsTransaction(e)[0]));
    WrappedTXDecodes(request.requestor, e.header, data, header);
  }

  /** Id binding: the id in the decoded channel header is the generated id, and it
      is the hash of the nonce and the creator recomputed from the decoded
      signature header. */
  lemma DecodedIdIsBound(request: Request, transientMap: TransientMap, g: GeneratedTX,
                         responses: seq<ProposalResponse>, envelope: Envelope)
    requires request.Generates(transientMap, g)
    requires BuildEndorsedTxEnvelope(Endorse(g, responses), request.requestor) == Some(envelope)
    requires |EnvelopeBytes(envelope)| < SIZE_LIMIT
    requires DecodeTX(EnvelopeBytes(envelope)).Some?
    ensures var d := DecodeTX(EnvelopeBytes(envelope)).value;
            && d.TxId() == g.txContext.txId
            && d.TxId() == HexDigest(request.requestor.suite.hash(
                                       d.header.signatureHeader.nonce
                                       + SerializedIdentityBytes(d.header.signatureHeader.creator)))
  {
    EndorsedEnvelopeRoundTrip(request, transientMap, g, responses, envelope);
  }

  // ------------------------------------------------------------ what peers are sent

  lemma RequestFits(request: Request, entries: seq<Entry>)
    requires |ProposalBytes(request.ProposalWith(entries))| < SIZE_LIMIT
    ensures |HeaderBytes(request.TxHeader())| < SIZE_LIMIT
    ensures |ExtensionBytes(request.ccName)| < SIZE_LIMIT && |request.Input()| < SIZE_LIMIT
    ensures |ProposalPayloadBytes(request.Input(), entries)| < SIZE_LIMIT
  {
    var header := request.TxHeader();
    var channelHeader := ChannelHeaderOf(request.Context(), request.channelId, ExtensionBytes(request.ccName),
                                         ENDORSER_TRANSACTION, [], request.now);
    PairFits(HeaderBytes(header), ProposalPayloadBytes(request.Input(), entries));
    PairFits(header.channelHeader, header.signatureHeader);
    ChannelHeaderNumbered(channelHeader);
    if ExtensionBytes(request.ccName) != [] {
      PartFits(ChannelHeaderParts(channelHeader), 6, ExtensionBytes(request.ccName));
    }
    ListFits(request.Input(), EncodeEach(EntryBytes, entries));
  }

  /** The signature that goes with a proposal is the requestor's, over the very bytes
      that are sent. */
  lemma ProposalIsSigned(request: Request, transientMap: TransientMap, g: GeneratedTX)
    requires request.Generates(transientMap, g)
    ensures g.signedProposal.signature == request.requestor.suite.sign(g.signedProposal.proposalBytes)
  {
  }

  /** What peers are sent carries the request: the header is that of an endorser transaction with
      the requestor's identity and the nonce, on the given channel and at the given
      time, under the id that is the hash of nonce and creator; its extension and the
      input name the chaincode; and the input holds every argument in order. */
  lemma RequestIsCarried(request: Request, transientMap: TransientMap, g: GeneratedTX)
    requires request.Generates(transientMap, g)
    requires |g.signedProposal.proposalBytes| < SIZE_LIMIT
    ensures var creator := SerializedIdentity(request.requestor.mspId, request.requestor.cert);
            var txId := HexDigest(request.requestor.suite.hash(request.nonce + SerializedIdentityBytes(creator)));
            var proposal := ParseProposal(g.signedProposal.proposalBytes);
            && g.txContext == TXContext(creator, request.nonce, txId, 0)
            && proposal.Some?
            && ParseHeader(proposal.value.header) == Some(g.header)
            && DecodeHeader(g.header)
               == Some(DecodedHeader(
                         ChannelHeader(3, 1, Some(request.now), request.channelId, txId, 0,
                                       ExtensionBytes(request.ccName), []),
                         DecodedSignatureHeader(creator, request.nonce)))
            && ParseExtension(ExtensionBytes(request.ccName)) == Some(request.ccName)
            && ParseChaincodeProposalPayload(proposal.value.payload)
               == Some(ChaincodeProposalPayload(request.Input(), transientMap))
            && ParseInvocation(request.Input()) == Some(Invocation(1, request.ccName, request.args))
  {
    var entries :| Writes(entries, transientMap) && g == request.Generate(entries);
    RequestFits(request, entries);
    SignedProposalCarriesTransient(request, transientMap, g);
    PairRoundTrip(g.header.channelHeader, g.header.signatureHeader);
    HeaderDecodes(request.Context(), request.channelId, ExtensionBytes(request.ccName), ENDORSER_TRANSACTION, [],
                  request.now);
    ExtensionRoundTrip(request.ccName);
    InvocationRoundTrip(request.ccName, request.args);
  }

  // ------------------------------------------------------------ transient data

  /** The proposal that peers are sent carries exactly the given map, over the
      header and input of the one that is committed. */
  lemma SignedProposalCarriesTransient(request: Request, m: TransientMap, g: GeneratedTX)
    requires request.Generates(m, g)
    requires |g.signedProposal.proposalBytes| < SIZE_LIMIT
    ensures var sent := ParseProposal(g.signedProposal.proposalBytes);
            && sent.Some?
            && sent.value.header == g.proposal.header == HeaderBytes(g.header)
            && ParseChaincodeProposalPayload(sent.value.payload)
               == Some(ChaincodeProposalPayload(request.Input(), m))
    ensures |g.proposal.payload| < SIZE_LIMIT ==>
              ParseChaincodeProposalPayload(g.proposal.payload)
              == Some(ChaincodeProposalPayload(request.Input(), map[]))
  {
    var entries :| Writes(entries, m) && g == request.Generate(entries);
    var sent := request.ProposalWith(entries);
    ProposalRoundTrip(sent);
    ProposalPayloadRoundTrip(request.Input(), entries);
    if |g.proposal.payload| < SIZE_LIMIT {
      ProposalPayloadRoundTrip(request.Input(), []);
    }
  }

  lemma ProposalRoundTrip(p: Proposal)
    requires |ProposalBytes(p)| < SIZE_LIMIT
    ensures ParseProposal(ProposalBytes(p)) == Some(p)
    ensures |p.payload| <= |ProposalBytes(p)|
  {
    PairRoundTrip(p.header, p.payload);
    PairFits(p.header, p.payload);
  }

  /** Two runs that differ only in the transient map have the same proposal, header
      and id, and, from equal peer responses, commit the same envelope; yet what
      their peers are sent tells the two maps apart. */
  lemma TransientNonInterference(request: Request, m1: TransientMap, g1: GeneratedTX, m2: TransientMap,
                                 g2: GeneratedTX, responses: seq<ProposalResponse>)
    requires request.Generates(m1, g1) && request.Generates(m2, g2)
    ensures g1.proposal == g2.proposal && g1.header == g2.header && g1.txContext == g2.txContext
    ensures BuildEndorsedTxEnvelope(Endorse(g1, responses), request.requestor)
            == BuildEndorsedTxEnvelope(Endorse(g2, responses), request.requestor)
    ensures |g1.signedProposal.proposalBytes| < SIZE_LIMIT ==>
              g1.signedProposal.proposalBytes == g2.signedProposal.proposalBytes ==> m1 == m2
  {
    if |g1.signedProposal.proposalBytes| < SIZE_LIMIT
       && g1.signedProposal.proposalBytes == g2.signedProposal.proposalBytes {
      SignedProposalCarriesTransient(request, m1, g1);
      SignedProposalCarriesTransient(request, m2, g2);
    }
  }

  /** Peers are sent the committed proposal itself exactly when there is no transient data. */
  lemma TransientDataIsSentApart(request: Request, m: TransientMap, g: GeneratedTX)
    requires request.Generates(m, g)
    requires |g.signedProposal.proposalBytes| < SIZE_LIMIT && |ProposalBytes(g.proposal)| < SIZE_LIMIT
    ensures g.signedProposal.proposalBytes == ProposalBytes(g.proposal) <==> m == map[]
  {
    var entries :| Writes(entries, m) && g == request.Generate(entries);
    EmptyMapHasNoEntries(entries);
    ProposalRoundTrip(g.proposal);
    SignedProposalCarriesTransient(request, m, g);
  }

  // ------------------------------------------------------------ config updates

  /** Config-update round trip: the envelope decodes, as a configuration update, to
      the same update under one signature made over header and update, by the
      creator and nonce of the context. It fails to decode exactly when the update
      itself does not parse, at some depth. */
  lemma ConfigUpdateRoundTrip(channel: string, context: TXContext, requestor: User, configUpdate: bytes,
                              now: Timestamp, envelope: Envelope)
    requires BuildConfigUpdateEnvelope(channel, context, requestor, configUpdate, now) == Some(envelope)
    requires |EnvelopeBytes(envelope)| < SIZE_LIMIT
    ensures envelope.signature == requestor.suite.sign(envelope.payload)
    ensures DecodeTX(EnvelopeBytes(envelope)).Some? <==> Parses(ConfigUpdate, configUpdate)
    ensures Parses(ConfigUpdate, configUpdate) ==>
              var signer := DecodedSignatureHeader(context.identity, context.nonce);
              var signed := SignatureHeaderBytes(SignatureHeaderOf(context)) + configUpdate;
              DecodeTX(EnvelopeBytes(envelope))
              == Some(DecodedTX(
                        envelope.signature,
                        DecodedHeader(
                          ChannelHeader(CONFIG_UPDATE, 1, Some(now), EncodeProtoStr(channel).value, context.txId,
                                        context.epoch, [], []),
                          signer),
                        ConfigUpdateData(DecodedConfigUpdate(
                                           RawMessage(ParseFields(configUpdate).value),
                                           [DecodedConfigSignature(signer, requestor.suite.sign(signed))]))))
  {
    LastUpdateDecodes(channel, context, requestor, configUpdate, now, envelope);
  }

  lemma UpdateDecodes(update: ConfigUpdateEnvelope, signature: ConfigSignature, signer: DecodedSignatureHeader)
    requires update.signatures == [signature]
    requires |ConfigUpdateEnvelopeBytes(update)| < SIZE_LIMIT
    requires DecodeSignatureHeader(signature.signatureHeader) == Some(signer)
    ensures DecodeConfigUpdate(ConfigUpdateEnvelopeBytes(update))
            == if !Parses(ConfigUpdate, update.configUpdate) then None
               else Some(DecodedConfigUpdate(RawMessage(ParseFields(update.configUpdate).value),
                                             [DecodedConfigSignature(signer, signature.signature)]))
  {
    ConfigUpdateEnvelopeRoundTrip(update);
    OneSignatureDecodes(signature);
  }

  // ----------------------------------------------------- channel configurations

  /** The message of a configuration block: the configuration and the update that led to it. */
  function ConfigEnvelopeParts(config: bytes, lastUpdate: Envelope): seq<seq<Field>> {
    [[BytesField(1, config)], [BytesField(2, EnvelopeBytes(lastUpdate))]]
  }

  lemma ConfigEnvelopeFields(config: bytes, lastUpdate: Envelope)
    requires |MessageBytes(ConfigEnvelopeParts(config, lastUpdate))| < SIZE_LIMIT
    ensures var fs := Flatten(ConfigEnvelopeParts(config, lastUpdate));
            && ParseFields(MessageBytes(ConfigEnvelopeParts(config, lastUpdate))) == Some(fs)
            && AllBytes(fs, 1) == [config] && AllBytes(fs, 2) == [EnvelopeBytes(lastUpdate)]
            && |EnvelopeBytes(lastUpdate)| < SIZE_LIMIT
  {
    var parts := ConfigEnvelopeParts(config, lastUpdate);
    forall i, f: Field | 0 <= i < |parts| && f in parts[i]
      ensures f.num == i + 1 && Writable(f)
    {
      assert parts[i] == [BytesField(i + 1, if i == 0 then config else EnvelopeBytes(lastUpdate))];
    }
    MessageRoundTrip(parts);
    PartFits(parts, 1, EnvelopeBytes(lastUpdate));
    OneIsRead(parts, 1, config);
    OneIsRead(parts, 2, EnvelopeBytes(lastUpdate));
  }

  /** The parts of an update envelope, as far as the decoder of a configuration reads them. */
  lemma LastUpdateDecodes(channel: string, context: TXContext, requestor: User, configUpdate: bytes, now: Timestamp,
                          envelope: Envelope)
    requires BuildConfigUpdateEnvelope(channel, context, requestor, configUpdate, now) == Some(envelope)
    requires |EnvelopeBytes(envelope)| < SIZE_LIMIT
    ensures ParseEnvelope(EnvelopeBytes(envelope)) == Some(envelope)
    ensures var signer := DecodedSignatureHeader(context.identity, context.nonce);
            var signed := SignatureHeaderBytes(SignatureHeaderOf(context)) + configUpdate;
            var payload := ParsePayload(envelope.payload);
            && payload.Some? && payload.value.header.Some?
            && DecodeHeader(payload.value.header.value)
               == Some(DecodedHeader(
                         ChannelHeader(2, 1, Some(now), EncodeProtoStr(channel).value, context.txId, context.epoch,
                                       [], []),
                         signer))
            && DecodeConfigUpdate(payload.value.data)
               == if !Parses(ConfigUpdate, configUpdate) then None
                  else Some(DecodedConfigUpdate(RawMessage(ParseFields(configUpdate).value),
                                                [DecodedConfigSignature(signer, requestor.suite.sign(signed))]))
  {
    var headerBytes := SignatureHeaderBytes(SignatureHeaderOf(context));
    var signature := ConfigSignature(headerBytes, requestor.suite.sign(headerBytes + configUpdate));
    var update := ConfigUpdateEnvelope(configUpdate, [signature]);
    var channelId := EncodeProtoStr(channel).value;
    var header := HeaderOf(context, channelId, [], CONFIG_UPDATE, [], now);
    WrappedPayloadDecodes(requestor, header, ConfigUpdateEnvelopeBytes(update));
    HeaderDecodes(context, channelId, [], CONFIG_UPDATE, [], now);
    PairFits(header.channelHeader, header.signatureHeader);
    SignatureHeaderDecodes(context);
    UpdateDecodes(update, signature, DecodedSignatureHeader(context.identity, context.nonce));
  }

  /** A configuration block with an update that was built decodes to its configuration,
      and to the update, header, signer and signature of that; it fails to decode
      exactly when the configuration or the update does not parse. */
  lemma ConfigDecodes(channel: string, context: TXContext, requestor: User, configUpdate: bytes, now: Timestamp,
                      lastUpdate: Envelope, config: bytes)
    requires BuildConfigUpdateEnvelope(channel, context, requestor, configUpdate, now) == Some(lastUpdate)
    requires |MessageBytes(ConfigEnvelopeParts(config, lastUpdate))| < SIZE_LIMIT
    ensures var signer := DecodedSignatureHeader(context.identity, context.nonce);
            var signed := SignatureHeaderBytes(SignatureHeaderOf(context)) + configUpdate;
            DecodeData(1, MessageBytes(ConfigEnvelopeParts(config, lastUpdate)))
            == if Parses(Config, config) && Parses(ConfigUpdate, configUpdate) then
                 Some(ConfigData(
                        RawMessage(ParseFields(config).value),
                        DecodedLastUpdate(
                          DecodedHeader(
                            ChannelHeader(2, 1, Some(now), EncodeProtoStr(channel).value, context.txId,
                                          context.epoch, [], []),
                            signer),
                          DecodedConfigUpdate(RawMessage(ParseFields(configUpdate).value),
                                              [DecodedConfigSignature(signer, requestor.suite.sign(signed))]),
                          lastUpdate.signature)))
               else
                 None
  {
    ConfigEnvelopeFields(config, lastUpdate);
    LastUpdateDecodes(channel, context, requestor, configUpdate, now, lastUpdate);
    ConfigEnvelopeParses(config, lastUpdate);
    assert DecodeData(1, MessageBytes(ConfigEnvelopeParts(config, lastUpdate)))
        == DecodeConfig(MessageBytes(ConfigEnvelopeParts(config, lastUpdate)));
  }

  lemma ConfigEnvelopeParses(config: bytes, lastUpdate: Envelope)
    requires |MessageBytes(ConfigEnvelopeParts(config, lastUpdate))| < SIZE_LIMIT
    ensures var fs := Flatten(ConfigEnvelopeParts(config, lastUpdate));
            && Submessage(fs, 1, ParseConfig)
               == (if Parses(Config, config) then Some(Some(RawMessage(ParseFields(config).value))) else None)
            && Submessage(fs, 2, ParseEnvelope) == Some(Some(lastUpdate))
  {
    var fs := Flatten(ConfigEnvelopeParts(config, lastUpdate));
    ConfigEnvelopeFields(config, lastUpdate);
    PairRoundTrip(lastUpdate.payload, lastUpdate.signature);
    OneIsMerged(fs, 2, EnvelopeBytes(lastUpdate), ParseEnvelope, lastUpdate);
    if Parses(Config, config) {
      OneIsMerged(fs, 1, config, ParseConfig, RawMessage(ParseFields(config).value));
    } else {
      OneIsRefused(fs, 1, config, ParseConfig);
    }
  }
}
