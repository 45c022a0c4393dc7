# Snakeskin: a verified model

Snakeskin is a Python client for Hyperledger Fabric. This project models four
parts of it in Dafny and proves what they are for. `dafny verify dfyconfig.toml`
checks everything.

**Endorsement policies** (`Policies.dfy`, `PolicyCompiler.dfy`). A tree of And, Or
and OutOf nodes over roles is compiled to a tree of `NOutOf` and `signed_by` rules,
plus a table of identities that is computed separately. Sets are iterated in an
arbitrary order, each time anew. Whatever principals have signed, the compiled
envelope is satisfied exactly when the policy is met.

**Transactions on the wire** (`Wire.dfy`, `Messages.dfy`, `Transactions.dfy`,
`Layout.dfy`, `Decoded.dfy`, `RoundTrip.dfy`). The messages are serialized with a concrete varint
and length-delimited codec and the field numbers of the generated descriptors.
Strings are held as their UTF-8 encoding. What the factories assemble is what
`DecodedTX.decode` gives back; transient data reaches the peers and nothing else.

**The transaction lifecycle** (`Network.dfy`, `Builder.dfy`, `Lifecycle.dfy`,
`Shipping.dfy`, `Operations.dfy`). The network is an arbitrary function of
everything sent so far. The builder is a class; each method is proved against a
function from state to state, and the theorems hold over every history of chained
calls and awaits. A scan of the history that knows nothing of the network decides
exactly when a builder ships only fully endorsed transactions.

**Signatures and ECIES** (`Suites.dfy`, `Signatures.dfy`, `Ecies.dfy`). Low-S
normalisation with the orders of P-256 and P-384, the ECDSA verification equation
over an abstract group, and the ECIES frame over abstract primitives. The laws assumed
of the group, of DER and of the primitives are each shown to have a model
(`CurveLawsHaveModel`, `DerLawsHaveModel`, `LawsHaveModel`).

## Where the code and its promises differ

- A builder whose every `propose` raises errors can still ship a transaction that a
  peer refused: after a successful `propose`, queue `submit` and then `propose`; when
  that `propose` fails, the next await replays the `submit` with the refused
  transaction (`ReplayShipsRefused`). `HistoryIsSafeIff` gives the exact condition, a
  scan of the history; `AwaitIsSafeIff` is the one for the next await alone.
- `broadcast_to_orderers` promises the first successful response. An orderer that
  closes its stream before any response counts as one that has committed
  (`SilentOrdererIsSuccess`); a normal return carries a response with status 200
  exactly when that is not how the last orderer ended (`ReturnIsResponseIff`).
- A comment in the same function says that an unsuccessful response lets the loop go
  on; in the code it is raised at once (`UnsuccessfulIsRaised`). The two readings
  differ exactly when the first orderer that can be reached refuses and is not the
  last one (`CommentHoldsIff`).
- A role whose name contains a dot can share its sort key with another role, and then
  `role_map` depends on set iteration order (`CanonicalIffKeysDiffer`,
  `DottedRolesAreNotCanonical`). An envelope is never built from such a name.
- In the suites P-384 with SHA2, and P-256 with an unrecognised hash name, nothing that
  `encrypt` produces can be decrypted (`EciesRoundTrip`).
- A block with a transaction of unknown type ends a search even if an earlier
  transaction of that block matches (`UnknownTypeHidesMatch`). A search finds the first
  match of all blocks exactly when no such block precedes or holds it
  (`SearchIsPromisedIff`).

## Model

| member | source | states |
|---|---|---|
| PolicyCompiler.BuildSignaturePolicyEnvelope | snakeskin/factories.py:296-312 | an envelope is built iff every node has a usable int32 threshold, every role type is known and there are at most 2^31 roles; then, for every set of held principals, the rule read through the identities table is satisfied iff the policy is met |
| PolicyCompiler.CompilePreservesMeaning | snakeskin/factories.py:254-293 | the compiled rule is satisfied exactly when And (all), Or (some) or OutOf (at least `out_of`) is met by the held roles, at any depth, for empty child lists and for counts above the number of children |
| PolicyCompiler.EnvelopePreservesMeaning | snakeskin/factories.py:296-312 | the same through principals, for every envelope whose parts come from one listing of the roles |
| PolicyCompiler.TableAgreement | snakeskin/factories.py:278-286 | leaf by leaf, every `signed_by` index is in range and points at the role it was compiled from |
| PolicyCompiler.CompilesIff | snakeskin/factories.py:262-286 | with a map covering the roles a policy compiles iff thresholds are usable and indices fit: lookups never miss |
| PolicyCompiler.CompileRaises | snakeskin/factories.py:262-293 | what does not compile raises the first thing wrong: kind or count, then the first role, then the first sub-policy's error, then a count beyond int32 |
| PolicyCompiler.BuildEndorsementPolicy | snakeskin/factories.py:254-293 | the recursion with its `role_map or policy.role_map` fallback computes the compilation with one and the same map |
| PolicyCompiler.EmptyMapMeansNoRoles | snakeskin/factories.py:260-260 | a role map is empty only when the policy names no role, so the fallback changes nothing |
| PolicyCompiler.ReadingsAgree | snakeskin/factories.py:299-310 | two independent readings of the roles agree when all role types are known |
| PolicyCompiler.RoleCaseIsIgnored | snakeskin/models/__init__.py:181-182 | lower-casing a role name does not change its principal |
| PolicyCompiler.PrincipalsOfRoles | snakeskin/factories.py:303-309 | member, admin, client and peer become the roles 0, 1, 2 and 3 of the msp, and no other name has a principal |
| PolicyCompiler.PrincipalDeterminesRole | snakeskin/factories.py:303-309 | up to case a principal determines its role |
| Policies.AllRoles | snakeskin/models/__init__.py:196-202 | the loop over sub-policies gives the roles of the whole tree, each once, sorted by key |
| Policies.RoleMap | snakeskin/models/__init__.py:204-209 | every role of the tree is mapped to its position in such a list |
| Policies.Sorted | snakeskin/models/__init__.py:202-202 | a set iterated in any order is sorted by key without loss or repetition |
| Policies.AtMostIsLexicographic | snakeskin/models/__init__.py:202-202 | keys are ordered by the first differing character, a prefix coming first |
| Policies.MakeRole | snakeskin/models/__init__.py:181-182 | a new role keeps its msp and has its name in lower case |
| Policies.CanonicalIffKeysDiffer | snakeskin/models/__init__.py:199-202 | a set of roles has one sorted listing iff no two of its roles share a key |
| Policies.KeyIsInjective | snakeskin/models/__init__.py:202-202 | without dots in role names the sort key determines the role |
| Policies.RearrangedSameIdentities | snakeskin/models/__init__.py:196-202 | permuting or repeating roles or sub-policies anywhere leaves the listing unchanged |
| Policies.DottedRolesAreNotCanonical | snakeskin/models/__init__.py:202-202 | two different roles with one key |
| Wire.FieldsRoundTrip | snakeskin/protos/common/common_pb2.py:489-516 | serialized records parse back, record for record |
| Wire.ParseConcat | snakeskin/protos/common/common_pb2.py:489-516 | concatenated messages parse to the records of both, in order |
| Messages.Utf8Iff | snakeskin/factories.py:228-230 | bytes are UTF-8 iff they are the encoding of a sequence of Unicode scalar values |
| Layout.HeaderLayouts | snakeskin/protos/common/common.proto:81-154 | the bytes of identities, headers and envelopes, tag by tag |
| Layout.ChannelHeaderLayout | snakeskin/protos/common/common.proto:87-123 | the bytes of a channel header with its time, tag by tag |
| Layout.EndorsementLayouts | snakeskin/protos/peer/transaction.proto:69-79 | the bytes of endorsements, actions, proposals and update signatures |
| Layout.ListLayouts | snakeskin/protos/peer/transaction.proto:103-113 | the bytes of proposal payloads with their map entries, endorsed actions and update envelopes |
| Layout.TransactionLayouts | snakeskin/protos/peer/transaction.proto:60-101 | the bytes of payloads, action payloads and transactions |
| Layout.InvocationLayout | snakeskin/protos/peer/chaincode.proto:54-103 | the bytes of an invocation and of the header extension |
| Messages.ChannelHeaderRoundTrip | snakeskin/protos/common/common_pb2.py:333-395 | a channel header parses back, all eight fields |
| Messages.ProposalPayloadRoundTrip | snakeskin/protos/peer/proposal_pb2.py:155-212 | a proposal payload parses back with its transient map, in whatever order entries were written |
| Transactions.BuildHeader | snakeskin/factories.py:73-109 | the header completed field by field is the serialization of the stated channel and signature headers |
| Transactions.ProposalPayloadMessage.SerializeToString | snakeskin/factories.py:446-451 | serializing the message writes its current map in some order, each key once |
| Transactions.SerializeProposalPayloads | snakeskin/factories.py:434-451 | the payload captured first carries no transient data, the one written after the in-place update carries exactly the map |
| Transactions.BuildGeneratedTx | snakeskin/factories.py:394-469 | a transaction is generated, from the request and the map, iff the channel name can be encoded |
| Transactions.GenerateCcTx | snakeskin/transact.py:84-101 | function name and arguments, Latin-1 encoded and in order, become the arguments of the generated transaction |
| Transactions.EncodeProtoBytes | snakeskin/factories.py:223-225 | Latin-1: one byte per character, refused iff some character is above 255 |
| Transactions.EncodeProtoStr | snakeskin/factories.py:228-230 | a string is kept as its Latin-1 bytes, refused iff it has none or they are not UTF-8 |
| Transactions.TransactionTypes | snakeskin/constants.py:42-63 | the known transaction types and the codes of the three that are decoded |
| Transactions.HexDigestDetermines | snakeskin/factories.py:219-219 | transaction ids of different digests differ |
| Transactions.HexDigestIsHex | snakeskin/factories.py:219-219 | each byte of a digest becomes its two hexadecimal digits, the high one first |
| Transactions.ExtensionRoundTrip | snakeskin/factories.py:409-417 | the header extension gives back the chaincode name |
| Transactions.InvocationRoundTrip | snakeskin/factories.py:421-432 | the serialized invocation gives back chaincode type, name and arguments in order |
| Transactions.ResponsesPartition | snakeskin/models/transaction.py:43-72 | successes and errors are exactly the responses with and without status 200, each in peer order; full endorsement means no errors; the payload is that of the first success, and is missing iff there is none |
| RoundTrip.ProposalIsSigned | snakeskin/factories.py:457-462 | the signature of a proposal is the requestor's over the very bytes that are sent |
| RoundTrip.RequestIsCarried | snakeskin/factories.py:394-469 | what peers are sent decodes to the request: identity, nonce, id, channel, type, time, chaincode name in extension and input, arguments in order, and transient map |
| RoundTrip.EndorsedEnvelopeRoundTrip | snakeskin/factories.py:172-205 | the envelope is signed over its payload; serialized it decodes as an endorser transaction to one action with the transient-free proposal, the first response's payload and all endorsements in peer order, and fails to decode iff some peer bytes do not parse |
| RoundTrip.PeerPartsParse | snakeskin/models/_decoded.py:268-290 | which peer bytes must parse, and that endorsements keep their order |
| RoundTrip.HeaderDecodes | snakeskin/models/_decoded.py:191-199 | a built header decodes to its context, channel, type, extension and time |
| RoundTrip.WrappedTXDecodes | snakeskin/models/_decoded.py:108-132 | the decoder peels a wrapped payload and chooses the data decoder by header type |
| RoundTrip.OtherTypesDecode | snakeskin/models/_decoded.py:113-124 | data of the types that are not decoded is kept, and an unknown type is refused |
| RoundTrip.ConfigDecodes | snakeskin/models/_decoded.py:222-242 | a configuration block decodes to its configuration and to header, update, signer and signature of the update that led to it, and fails iff one of the two does not parse |
| RoundTrip.ActionsDecode | snakeskin/models/_decoded.py:298-306 | the actions of a transaction decode one by one, in order |
| RoundTrip.SignaturesDecode | snakeskin/models/_decoded.py:169-187 | so do the signatures of a configuration update |
| RoundTrip.DecodedIdIsBound | snakeskin/factories.py:208-220 | the decoded id is the generated one and the hash of the decoded nonce and creator |
| RoundTrip.TransientNonInterference | snakeskin/factories.py:434-469 | runs differing only in the transient map have equal proposal, header and id and commit equal envelopes, while equal sent proposals mean equal maps |
| RoundTrip.SignedProposalCarriesTransient | snakeskin/factories.py:443-462 | the sent proposal carries exactly the given map over the committed header and input |
| RoundTrip.TransientDataIsSentApart | snakeskin/factories.py:452-455 | sent and committed proposal coincide iff the map is empty |
| RoundTrip.ConfigUpdateRoundTrip | snakeskin/factories.py:315-343 | the envelope decodes as a config update to the same update with one signature over header then update, by the context's creator and nonce, and fails iff the update does not parse, its nested groups at every depth and its strings included |
| Network.OrdererFailover | snakeskin/connect.py:18-58 | the sends are the orderers of the list in order, once each; all before the last contacted were unreachable; the last one's stream decides: a 200 is returned, another response is a commit error, a stream without a response returns nothing, and one that breaks off first raises its own error; it was unreachable only if all were |
| Network.ReturnIsResponseIff | snakeskin/connect.py:36-56 | a normal return carries a response with status 200 iff the last orderer did not close its stream without any |
| Network.SilentOrdererIsSuccess | snakeskin/connect.py:24-33 | a first orderer that closes its stream at once ends the call normally, without a response |
| Network.CommentHoldsIff | snakeskin/connect.py:46-58 | going on after an unsuccessful response, as the comment says, gives the same run iff the first orderer that can be reached does not refuse or is the last one |
| Network.UnsuccessfulIsRaised | snakeskin/connect.py:46-58 | a first orderer that answers 500 ends the call, though the second would have answered 200 |
| Network.Connection.BroadcastToOrderers | snakeskin/connect.py:36-58 | the loop gives that outcome and those sends |
| Network.ProposeOutcome | snakeskin/transact.py:104-126 | every peer is sent the proposal; success iff all answer, with the answers in peer order, otherwise the error of some peer |
| Network.Connection.ProposeTx | snakeskin/transact.py:104-126 | every peer is sent the signed proposal; all answers in order, or one of the errors |
| Network.Connection.CommitTx | snakeskin/transact.py:129-140 | the endorsed envelope is broadcast under the transaction's id |
| Network.GetTransaction | snakeskin/events.py:41-74 | the first match among all transactions of the readable blocks, or why reading stopped |
| Network.SearchFromIsSearch | snakeskin/events.py:47-51 | searching block by block finds the first match of the concatenation |
| Network.FirstMatchIsFirst | snakeskin/events.py:48-50 | a match is the first with the id, and is missed only when there is none |
| Network.ReadingStops | snakeskin/events.py:67-74 | reading stops at the first status or unknown type with that error, or at the end with the stream's error or "not found" |
| Network.SearchIsPromisedIff | snakeskin/events.py:41-74 | a search finds the first match among all blocks before the first status iff no block with an unknown transaction type precedes or holds it; otherwise it fails for that type |
| Network.UnknownTypeHidesMatch | snakeskin/models/block.py:71-80 | a matching transaction is missed when a later one of its block has an unknown type |
| Network.RetriedIffGivenUp | snakeskin/models/gateway.py:291-293 | the next peer is asked iff this one has no readable match and sent a status or broke off |
| Network.CommitWaitFailover | snakeskin/models/gateway.py:272-296 | peers are asked in order, once each, for the given id and timeout; all before the last asked were given up, the last only if all were; its first readable match is returned, or with raised errors refused by its code unless VALID, a code without a name being an error of its own; without a match the error is why reading stopped: a status, an unknown type, a timeout or other error, or the end of the stream |
| Builder.GatewayTXBuilder.AddOperation | snakeskin/models/gateway.py:301-305 | the operation is added at the end of the queue |
| Builder.GatewayTXBuilder.OperatePropose | snakeskin/models/gateway.py:234-243 | the endorsed transaction is stored before errors are raised |
| Builder.GatewayTXBuilder.OperateSubmit | snakeskin/models/gateway.py:249-259 | committing needs a stored transaction and marks the builder committed |
| Builder.GatewayTXBuilder.OperateWait | snakeskin/models/gateway.py:266-296 | waiting needs a commit and stores the filtered transaction |
| Builder.ProposeOperation | snakeskin/models/gateway.py:232-243 | what a propose sends, stores and raises, in every case |
| Builder.SubmitOperation | snakeskin/models/gateway.py:247-259 | what a submit sends, ships and raises, and when it commits, in every case |
| Builder.WaitOperation | snakeskin/models/gateway.py:263-298 | whom a wait watches, for which id and how long, and what it stores or raises: a match that is not VALID is stored if errors are not raised and an error otherwise |
| Builder.RunAllConcat | snakeskin/models/gateway.py:307-310 | running operations one after another is running the list, up to the first failure |
| Builder.GatewayTXBuilder.RunOperations | snakeskin/models/gateway.py:307-319 | operations run in order up to the first failure; the queue is cleared only on full success |
| Lifecycle.ReachableIsSound | snakeskin/models/gateway.py:218-322 | in every reachable state filtered implies committed, committed implies endorsed, stored and shipped transactions hold one whole round of answers, and all sends are the builder's own |
| Lifecycle.AwaitReturnsIff | snakeskin/models/gateway.py:307-319 | "never proposed" is raised exactly of an empty queue; any other await returns the endorsed transaction iff all operations succeed, and otherwise raises the error of the one that failed and keeps queue, progress and sends |
| Lifecycle.AwaitedCommitIsStored | snakeskin/models/gateway.py:266-290 | an await ending with a wait returns only with the builder's own transaction stored, VALID if the wait raises errors |
| Lifecycle.QueueLaw | snakeskin/models/gateway.py:301-319 | the queue is what was added since the last await that returned, in order |
| Lifecycle.IdIsBound | snakeskin/models/gateway.py:281-287 | every watch and every envelope of every history carries the generated id, and envelopes decode to it and to the hash of their nonce and creator |
| Shipping.HistoryIsSafeIff | snakeskin/models/gateway.py:218-322 | a builder ships only fully endorsed transactions in every network iff a scan of its history, which follows every way each operation can go and every queue a failed await leaves, accepts it |
| Shipping.AwaitIsSafeIff | snakeskin/models/gateway.py:232-319 | from every reachable state, an await ships only fully endorsed transactions in every network iff the guard on queue and stored transaction holds |
| Shipping.DisciplinedShipsFull | snakeskin/models/gateway.py:232-319 | over every history whose unrun queues start with a raising propose or contain none, everything shipped holds one round of answers, all 200, replays included |
| Shipping.ReplayShipsRefused | snakeskin/models/gateway.py:307-312 | without that discipline a replayed submit ships a refused transaction although every propose raises |
| Operations.Invoke | snakeskin/operations.py:440-511 | the request is Latin-1 encoded and generated, and the direct call sequence computes the direct flow on it; nothing is sent if it cannot be encoded |
| Operations.CallIsCarried | snakeskin/transact.py:84-101 | peers are sent an invocation of the chaincode with the function name and every argument, the transient map and the channel of the call |
| Operations.EncodableIff | snakeskin/transact.py:91-93 | a call can be encoded iff its strings are Latin-1 and the channel's bytes are UTF-8 |
| Operations.InvokeReturns | snakeskin/operations.py:482-511 | an invocation that returned has all answers 200, its envelope committed through the first reachable orderer, and the first peer's VALID report under the given timeout |
| Operations.QueryOutcome | snakeskin/operations.py:546-568 | a query returns iff there is a peer and all answer 200, with the answers in peer order |
| Operations.Query | snakeskin/operations.py:514-568 | the same for a proposal without a commit |
| Operations.Transact | snakeskin/models/gateway.py:40-66 | a new builder on the generated transaction, or the error of the first thing the gateway lacks: peers, channel, requestor, chaincode name |
| Operations.GatewayInvoke | snakeskin/models/gateway.py:68-82 | the chain on a new builder, awaited once, computes the builder's flow; nothing is sent if the transaction cannot be begun |
| Operations.GatewayQuery | snakeskin/models/gateway.py:84-95 | the same for a proposal alone |
| Operations.BuilderRefinesInvoke | snakeskin/operations.py:482-511 | builder and direct flow end alike after the same sends unless the first peer's check failed to connect or deliver; then the builder goes on from there |
| Operations.BuilderReturnsWhatInvokeReturns | snakeskin/operations.py:482-511 | what the direct flow returns the builder returns after the same sends; the builder succeeds alone iff the first peer's check failed to connect or deliver and the first later peer that is not given up has a VALID first match; what it returns is fully endorsed |
| Operations.BuilderQueryIsQuery | snakeskin/operations.py:546-568 | the builder's query is the direct query |
| Signatures.NormaliseIsLowS | snakeskin/_hfc/crypto.py:261-265 | normalisation lands in the lower half, is idempotent and identifies exactly s and n-s |
| Signatures.SuiteOrderIsOdd | snakeskin/_hfc/crypto.py:191-212 | both orders are odd and halved by the shift |
| Suites.SuiteIs | snakeskin/_hfc/crypto.py:185-221 | each suite has the order of its own curve in FIPS 186-4, half of it, its key size and its two digests |
| Signatures.VerificationIgnoresSign | snakeskin/_hfc/crypto.py:261-265 | (r, n-s) satisfies the verification equation iff (r, s) does |
| Signatures.SignedVerifies | snakeskin/_hfc/crypto.py:232-265 | signing keeps r and takes the lower of s and n-s, and the result is accepted iff the key accepts what was produced |
| Signatures.OnlyOneTwinVerifies | snakeskin/_hfc/crypto.py:242-271 | of a valid signature and its twin exactly one is accepted |
| Signatures.VerifyIff | snakeskin/_hfc/crypto.py:242-271 | a signature is accepted iff its s is in the lower half and it satisfies the key for the suite's digest of the message; malformed bytes are an error |
| Ecies.EciesRoundTrip | snakeskin/_hfc/crypto.py:280-366 | decryption undoes encryption exactly in the suites whose digest length is the tag length; elsewhere every ciphertext is rejected |
| Ecies.EncryptIsFrame | snakeskin/_hfc/crypto.py:350-366 | encryption gives a frame with the ephemeral point and the given vector, and refuses a key of another curve |
| Ecies.DecryptRaises | snakeskin/_hfc/crypto.py:294-333 | decryption raises the first thing wrong: curve, length, point, tag, vector |
| Ecies.DecryptAcceptsFrames | snakeskin/_hfc/crypto.py:294-333 | where the tag fits, decryption accepts exactly the well-formed frames |

## Left out

- gRPC channels, asyncio scheduling and clocks: the network answers by an arbitrary function of what was sent, a timeout is one of the ways a stream ends, and two awaits of one builder never overlap.
- `asyncio.gather`: all sends are recorded before any answer is looked at; which of several failures surfaces first is arbitrary.
- Signing, hashing, key derivation, HMAC, AES and curve arithmetic: arbitrary functions, with the laws stated where a theorem needs them; signing is a function of the signed bytes.
- DER: an abstract encoding with an inverse.
- Nonces, ephemeral keys, initialization vectors and the current time: parameters.
- RoundTrip.EndorsedEnvelopeRoundTrip: stated, like every round trip here, for messages under 2 GiB, because Protocol Buffers takes no larger ones.
- Protocol Buffers groups, a deprecated wire type, are refused by the modelled parser.
- The values inside `Config` and `ConfigUpdate`: whether they parse is decided at every depth, but a decoded update keeps its top-level records only.
- The serialized form of signature policies and principals: they are kept as values.
- Case mapping beyond ASCII, except for the dotless i, the one such character that upper-cases to a letter of a known role type; a role name with any other is refused by an envelope with or without its case mapping.
- The limit of Protocol Buffers libraries on how deep messages may nest.
- TLS certificates: `pem_to_der` and the hash of its result are one optional parameter of the header.
- The seek envelope that opens an event stream; a watch records the peer, the id and the timeout.
- Changes to a gateway while a builder uses it.
- Raw blocks, `PeerEvents` and `OrdererEvents`, block metadata, `join_channel`, `create_channel`'s file, chaincode packaging and installation, configuration files: they move data between files, connections and messages without decisions of their own.
- Error messages: an error keeps the data it is made from.
