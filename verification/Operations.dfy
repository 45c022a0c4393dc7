/** The direct flow that needs no builder (snakeskin/operations.py, snakeskin/transact.py). */
module Operations {
  import opened Wrappers
  import opened Wire
  import opened Messages
  import opened Transactions
  import opened Network
  import opened Builder
  import opened Decoded
  import RoundTrip

  /** Propose, and refuse a transaction that some peer failed to endorse. */
  function QueryRun(c: Setting, t: Trace): Run<EndorsedTX> {
    var proposed := ProposeRun(c.world, t, c.gateway.endorsingPeers, c.transaction);
    if proposed.result.Err? then
      proposed
    else
      var checked := RaiseProposalError(proposed.result.value);
      Run(if checked.Err? then Err(checked.error) else proposed.result, proposed.trace)
  }

  /** Commit, then check the transaction on the first peer only. */
  function CommitAndWaitRun(c: Setting, e: EndorsedTX, timeout: int, t: Trace): Run<FilteredTX> {
    var committed := CommitRun(c.world, t, c.gateway.requestor, c.gateway.orderers, e);
    if committed.result.Err? then
      Run(Err(committed.result.error), committed.trace)
    else if c.gateway.endorsingPeers == [] then
      Run(Err(IndexError), committed.trace)
    else
      FirstCheck(c, e.txContext.txId, timeout, committed.trace)
  }

  function InvokeRun(c: Setting, timeout: int, t: Trace): Run<EndorsedTX> {
    var endorsed := QueryRun(c, t);
    if endorsed.result.Err? then
      endorsed
    else
      var waited := CommitAndWaitRun(c, endorsed.result.value, timeout, endorsed.trace);
      Run(if waited.result.Err? then Err(waited.result.error) else endorsed.result, waited.trace)
  }

  /** What a caller asks for, with the random bytes and the time of the call. `channel`
      is the name of the channel, or "" for none. */
  datatype Call = Call(ccName: ProtoString, channel: string, fcn: string, args: seq<string>,
                       transientMap: TransientMap, nonce: bytes, now: Timestamp)
  {
    predicate Encodable() {
      EncodeArgs([fcn] + args).Some? && EncodeProtoStr(channel).Some?
    }

    /** `g` is a transaction that the call generates for `requestor`. */
    ghost predicate Generates(requestor: User, g: GeneratedTX) {
      && Encodable()
      && Request(requestor, ccName, EncodeArgs([fcn] + args).value, EncodeProtoStr(channel).value, nonce, now)
         .Generates(transientMap, g)
    }
  }

  /** A call can be encoded exactly when its function name, arguments and channel are
      Latin-1 and the channel's bytes are UTF-8. */
  lemma EncodableIff(call: Call)
    ensures call.Encodable()
            <==> && (forall i | 0 <= i < |call.fcn| :: call.fcn[i] as int < 256)
                 && (forall k | 0 <= k < |call.args| ::
                       forall i | 0 <= i < |call.args[k]| :: call.args[k][i] as int < 256)
                 && (forall i | 0 <= i < |call.channel| :: call.channel[i] as int < 256)
                 && exists b: bytes | |b| == |call.channel| ::
                      IsUtf8(b) && forall i | 0 <= i < |b| :: b[i] as int == call.channel[i] as int
  {
    var full := [call.fcn] + call.args;
    assert full[0] == call.fcn && forall k | 0 <= k < |call.args| :: full[k + 1] == call.args[k];
    assert EncodeArgs(full).Some? <==> (EncodeProtoBytes(call.fcn).Some?
                                        && forall k | 0 <= k < |call.args| :: EncodeProtoBytes(call.args[k]).Some?) by {
      assert forall k | 1 <= k < |full| :: full[k] == call.args[k - 1];
    }
    if b: bytes :| |b| == |call.channel| && IsUtf8(b) && EncodeProtoBytes(call.channel).Some?
                   && forall i | 0 <= i < |b| :: b[i] as int == call.channel[i] as int {
      assert b == EncodeProtoBytes(call.channel).value;
    }
  }

  /** `b` is the Latin-1 encoding of `s`. */
  predicate Latin1(s: string, b: bytes) {
    |b| == |s| && forall i | 0 <= i < |s| :: b[i] as int == s[i] as int
  }

  /** What peers are sent for a call: an invocation of its chaincode with the function
      name and then every argument, its transient map, and its channel. */
  lemma CallIsCarried(call: Call, requestor: User, g: GeneratedTX)
    requires call.Generates(requestor, g)
    requires |g.signedProposal.proposalBytes| < SIZE_LIMIT
    ensures var sent := ParseProposal(g.signedProposal.proposalBytes);
            && sent.Some?
            && var payload, header := ParseChaincodeProposalPayload(sent.value.payload), DecodeHeader(g.header);
               && payload.Some? && payload.value.transientMap == call.transientMap
               && header.Some? && Latin1(call.channel, header.value.channelHeader.channelId)
               && header.value.channelHeader.timestamp == Some(call.now)
               && header.value.signatureHeader.nonce == call.nonce
               && header.value.signatureHeader.creator == SerializedIdentity(requestor.mspId, requestor.cert)
               && exists args | |args| == 1 + |call.args| ::
                    && ParseInvocation(payload.value.input) == Some(Invocation(1, call.ccName, args))
                    && Latin1(call.fcn, args[0])
                    && forall k | 0 <= k < |call.args| :: Latin1(call.args[k], args[k + 1])
  {
    var args := EncodeArgs([call.fcn] + call.args).value;
    var request := Request(requestor, call.ccName, args, EncodeProtoStr(call.channel).value, call.nonce, call.now);
    RoundTrip.RequestIsCarried(request, call.transientMap, g);
    ArgsAreLatin1(call.fcn, call.args);
  }

  lemma ArgsAreLatin1(fcn: string, args: seq<string>)
    requires EncodeArgs([fcn] + args).Some?
    ensures var encoded := EncodeArgs([fcn] + args).value;
            && |encoded| == 1 + |args|
            && Latin1(fcn, encoded[0])
            && forall k | 0 <= k < |args| :: Latin1(args[k], encoded[k + 1])
  {
    var full, encoded := [fcn] + args, EncodeArgs([fcn] + args).value;
    assert Some(encoded[0]) == EncodeProtoBytes(full[0]);
    forall k | 0 <= k < |args|
      ensures Latin1(args[k], encoded[k + 1])
    {
      assert Some(encoded[k + 1]) == EncodeProtoBytes(full[k + 1]);
    }
  }

  method Generate(requestor: User, call: Call) returns (r: Outcome<GeneratedTX>)
    ensures if call.Encodable() then r.Ok? && call.Generates(requestor, r.value) else r == Err(UnicodeError)
  {
    var g := GenerateCcTx(requestor, call.ccName, call.channel, call.fcn, call.args, call.transientMap, call.nonce,
                          call.now);
    r := if g.Some? then Ok(g.value) else Err(UnicodeError);
  }

  /** Generates a transaction and proposes it; nothing is sent if it cannot be generated. */
  method Query(connection: Connection, gateway: Gateway, call: Call) returns (r: Outcome<EndorsedTX>)
    modifies connection
    ensures !call.Encodable() ==> r == Err(UnicodeError) && connection.trace == old(connection.trace)
    ensures call.Encodable() ==>
              exists g :: call.Generates(gateway.requestor, g)
                          && Run(r, connection.trace)
                             == QueryRun(Setting(connection.world, gateway, g), old(connection.trace))
  {
    var generated := Generate(gateway.requestor, call);
    if generated.Err? {
      return Err(generated.error);
    }
    r := ProposeAndCheck(connection, gateway, generated.value);
  }

  method ProposeAndCheck(connection: Connection, gateway: Gateway, g: GeneratedTX) returns (r: Outcome<EndorsedTX>)
    modifies connection
    ensures Run(r, connection.trace) == QueryRun(Setting(connection.world, gateway, g), old(connection.trace))
  {
    r := connection.ProposeTx(gateway.endorsingPeers, g);
    if r.Err? {
      return;
    }
    var checked := RaiseProposalError(r.value);
    if checked.Err? {
      r := Err(checked.error);
    }
  }

  method CommitTxAndWait(connection: Connection, gateway: Gateway, ghost g: GeneratedTX, e: EndorsedTX, timeout: int)
    returns (r: Outcome<FilteredTX>)
    modifies connection
    ensures Run(r, connection.trace)
            == CommitAndWaitRun(Setting(connection.world, gateway, g), e, timeout, old(connection.trace))
  {
    var committed := connection.CommitTx(gateway.requestor, gateway.orderers, e);
    if committed.Err? {
      return Err(committed.error);
    }
    if gateway.endorsingPeers == [] {
      return Err(IndexError);
    }
    r := connection.WatchPeer(gateway.endorsingPeers[0], e.txContext.txId, timeout, true);
  }

  /** Generates a transaction, proposes and commits it, and checks it on the first peer. */
  method Invoke(connection: Connection, gateway: Gateway, call: Call, timeout: int) returns (r: Outcome<EndorsedTX>)
    modifies connection
    ensures !call.Encodable() ==> r == Err(UnicodeError) && connection.trace == old(connection.trace)
    ensures call.Encodable() ==>
              exists g :: call.Generates(gateway.requestor, g)
                          && Run(r, connection.trace)
                             == InvokeRun(Setting(connection.world, gateway, g), timeout, old(connection.trace))
  {
    var generated := Generate(gateway.requestor, call);
    if generated.Err? {
      return Err(generated.error);
    }
    r := ProposeAndCheck(connection, gateway, generated.value);
    if r.Err? {
      return;
    }
    var waited := CommitTxAndWait(connection, gateway, generated.value, r.value, timeout);
    if waited.Err? {
      r := Err(waited.error);
    }
  }

  // ------------------------------------------------------ what the flow amounts to

  /** A query returns exactly when every peer answers with 200, and then the answers. */
  lemma QueryOutcome(c: Setting, t: Trace)
    ensures var run := QueryRun(c, t);
            var peers, g := c.gateway.endorsingPeers, c.transaction;
            && t <= run.trace && |run.trace| == |t| + |peers|
            && (forall j | |t| <= j < |run.trace| :: run.trace[j] == ToPeer(peers[j - |t|], g.signedProposal))
            && (run.result.Ok? <==>
                  peers != [] && forall m | |t| < m <= |run.trace| ::
                    c.world.endorse(run.trace[..m]).Ok? && c.world.endorse(run.trace[..m]).value.response.status == 200)
            && (run.result.Ok? ==>
                  var e := run.result.value;
                  && e == EndorsedTX(e.peerResponses, g.proposal, g.header, g.txContext)
                  && AllAnswered(c.world, t, run.trace, e.peerResponses))
  {
    if c.gateway.endorsingPeers != [] {
      ProposeOutcome(c.world, t, c.gateway.endorsingPeers, c.transaction);
      var proposed := ProposeRun(c.world, t, c.gateway.endorsingPeers, c.transaction);
      if proposed.result.Ok? {
        var responses := proposed.result.value.peerResponses;
        assert forall m | |t| < m <= |proposed.trace| ::
            c.world.endorse(proposed.trace[..m]) == Ok(responses[m - |t| - 1]);
        assert forall i | 0 <= i < |responses| ::
            c.world.endorse(proposed.trace[..|t| + i + 1]) == Ok(responses[i]);
      }
    }
  }

  /** From `t` to `sent` the envelope of `e` was sent to orderers in turn, all but the
      last unreachable, and the last one's first response was 200 or it closed its
      stream without any. */
  ghost predicate Committed(c: Setting, e: EndorsedTX, t: Trace, sent: Trace) {
    && e.peerResponses != [] && t <= sent && |t| < |sent| <= |t| + |c.gateway.orderers|
    && (forall j | |t| <= j < |sent| ::
          sent[j] == ToOrderer(c.gateway.orderers[j - |t|],
                               BuildEndorsedTxEnvelope(e, c.gateway.requestor).value, e.txContext.txId))
    && (forall m | |t| < m < |sent| :: Unreachable(c.world.broadcast(sent[..m])))
    && var stream := c.world.broadcast(sent);
       if stream.items == [] then stream.end.Ok? else stream.items[0].status == 200
  }

  lemma CommitReturns(c: Setting, e: EndorsedTX, t: Trace)
    requires CommitRun(c.world, t, c.gateway.requestor, c.gateway.orderers, e).result.Ok?
    ensures Committed(c, e, t, CommitRun(c.world, t, c.gateway.requestor, c.gateway.orderers, e).trace)
  {
    var envelope := BuildEndorsedTxEnvelope(e, c.gateway.requestor).value;
    assert c.gateway.orderers != [];
    OrdererFailover(c.world, t, envelope, c.gateway.orderers, e.txContext.txId);
  }

  /** What it means that an invocation returned: the query did, the envelope of the
      transaction was committed after that, and the first peer, watched last and with
      the given timeout, reported the transaction VALID. */
  lemma InvokeReturns(c: Setting, timeout: int, t: Trace)
    requires InvokeRun(c, timeout, t).result.Ok?
    ensures var run := InvokeRun(c, timeout, t);
            var e, peers := run.result.value, c.gateway.endorsingPeers;
            var txId := c.transaction.txContext.txId;
            var sent := |run.trace| - 1;
            && QueryRun(c, t).result == Ok(e) && peers != [] && sent >= 0
            && Committed(c, e, QueryRun(c, t).trace, run.trace[..sent])
            && run.trace[sent] == Watch(peers[0], txId, timeout)
            && Confirms(c.world.deliver(run.trace), txId)
  {
    QueryOutcome(c, t);
    var endorsed := QueryRun(c, t);
    var e := endorsed.result.value;
    var committed := CommitRun(c.world, endorsed.trace, c.gateway.requestor, c.gateway.orderers, e);
    CommitReturns(c, e, endorsed.trace);
    var run := InvokeRun(c, timeout, t);
    assert run.trace == committed.trace + [Watch(c.gateway.endorsingPeers[0], e.txContext.txId, timeout)];
    assert run.trace[..|run.trace| - 1] == committed.trace;
    CheckedStream(c.world.deliver(run.trace), e.txContext.txId);
  }

  // ------------------------------------------------------- the builder refines it

  /** The chain that a gateway's own `invoke` awaits. */
  function InvokeChain(timeout: int): seq<Operation> {
    [Propose(true), Submit, WaitForCommit(true, timeout)]
  }

  function BuilderInvoke(c: Setting, timeout: int, t: Trace): Run<EndorsedTX> {
    var awaited := Await(c, State(InvokeChain(timeout), NoProgress, t));
    Run(awaited.result, awaited.state.trace)
  }

  function BuilderQuery(c: Setting, t: Trace): Run<EndorsedTX> {
    var awaited := Await(c, State([Propose(true)], NoProgress, t));
    Run(awaited.result, awaited.state.trace)
  }

  /** The fields of a gateway; `chaincode` is the name of its chaincode. */
  datatype GatewayFields = GatewayFields(
    endorsingPeers: seq<Peer>, orderers: seq<Orderer>, channel: Option<string>, requestor: Option<User>,
    chaincode: Option<ProtoString>)
  {
    /** What a gateway lacks for a transaction, the first such thing; a chaincode
        without a name is none. */
    function Lacking(): (r: Option<Reason>)
      ensures r == Some(NoPeers) <==> |endorsingPeers| == 0
      ensures r == Some(NoChannel) <==> |endorsingPeers| > 0 && channel == None
      ensures r == Some(NoRequestor) <==> |endorsingPeers| > 0 && channel != None && requestor == None
      ensures r == Some(NoChaincode) <==>
              |endorsingPeers| > 0 && channel != None && requestor != None
              && (chaincode == None || chaincode == Some([]))
      ensures r == None <==>
              |endorsingPeers| > 0 && channel != None && requestor != None && chaincode != None && chaincode != Some([])
    {
      if endorsingPeers == [] then Some(NoPeers)
      else if channel.None? then Some(NoChannel)
      else if requestor.None? then Some(NoRequestor)
      else if chaincode.GetOr([]) == [] then Some(NoChaincode)
      else None
    }
  }

  /** Begins a transaction: a new builder, unless the gateway lacks something or the
      request cannot be encoded. */
  method Transact(connection: Connection, fields: GatewayFields, fcn: string, args: seq<string>,
                  transientMap: TransientMap, nonce: bytes, now: Timestamp)
    returns (r: Outcome<GatewayTXBuilder>)
    ensures fields.Lacking().Some? ==> r == Err(ValueError(fields.Lacking().value))
    ensures fields.Lacking().None? ==>
              var call := Call(fields.chaincode.value, fields.channel.value, fcn, args, transientMap, nonce, now);
              if call.Encodable() then
                && r.Ok? && fresh(r.value)
                && r.value.gateway == Gateway(fields.endorsingPeers, fields.orderers, fields.requestor.value)
                && r.value.connection == connection
                && call.Generates(fields.requestor.value, r.value.transaction)
                && r.value.Abstract() == State([], NoProgress, connection.trace)
              else
                r == Err(UnicodeError)
  {
    if fields.Lacking().Some? {
      return Err(ValueError(fields.Lacking().value));
    }
    var gateway := Gateway(fields.endorsingPeers, fields.orderers, fields.requestor.value);
    var call := Call(fields.chaincode.value, fields.channel.value, fcn, args, transientMap, nonce, now);
    var generated := Generate(gateway.requestor, call);
    if generated.Err? {
      return Err(generated.error);
    }
    var builder := new GatewayTXBuilder(gateway, generated.value, connection);
    r := Ok(builder);
  }

  method AwaitInvoke(builder: GatewayTXBuilder, timeout: int) returns (r: Outcome<EndorsedTX>)
    requires builder.Abstract() == State([], NoProgress, builder.connection.trace)
    modifies builder, builder.connection
    ensures Run(r, builder.connection.trace)
            == BuilderInvoke(builder.Surroundings(), timeout, old(builder.connection.trace))
  {
    builder.Propose();
    builder.Submit();
    builder.WaitForCommit(true, timeout);
    assert builder.Abstract().queue == InvokeChain(timeout);
    r := builder.RunOperations();
  }

  method AwaitQuery(builder: GatewayTXBuilder) returns (r: Outcome<EndorsedTX>)
    requires builder.Abstract() == State([], NoProgress, builder.connection.trace)
    modifies builder, builder.connection
    ensures Run(r, builder.connection.trace) == BuilderQuery(builder.Surroundings(), old(builder.connection.trace))
  {
    builder.Propose();
    assert builder.Abstract().queue == [Operation.Propose(true)];
    r := builder.RunOperations();
  }

  /** A gateway's `invoke`: one chain on a new builder, awaited once. */
  method GatewayInvoke(connection: Connection, fields: GatewayFields, fcn: string, args: seq<string>,
                       transientMap: TransientMap, timeout: int, nonce: bytes, now: Timestamp)
    returns (r: Outcome<EndorsedTX>)
    modifies connection
    ensures fields.Lacking().Some? ==>
              r == Err(ValueError(fields.Lacking().value)) && connection.trace == old(connection.trace)
    ensures fields.Lacking().None? ==>
              var gateway := Gateway(fields.endorsingPeers, fields.orderers, fields.requestor.value);
              var call := Call(fields.chaincode.value, fields.channel.value, fcn, args, transientMap, nonce, now);
              if call.Encodable() then
                exists g :: call.Generates(fields.requestor.value, g)
                            && Run(r, connection.trace)
                               == BuilderInvoke(Setting(connection.world, gateway, g), timeout, old(connection.trace))
              else
                r == Err(UnicodeError) && connection.trace == old(connection.trace)
  {
    var begun := Transact(connection, fields, fcn, args, transientMap, nonce, now);
    if begun.Err? {
      return Err(begun.error);
    }
    r := AwaitInvoke(begun.value, timeout);
  }

  method GatewayQuery(connection: Connection, fields: GatewayFields, fcn: string, args: seq<string>,
                      transientMap: TransientMap, nonce: bytes, now: Timestamp)
    returns (r: Outcome<EndorsedTX>)
    modifies connection
    ensures fields.Lacking().Some? ==>
              r == Err(ValueError(fields.Lacking().value)) && connection.trace == old(connection.trace)
    ensures fields.Lacking().None? ==>
              var gateway := Gateway(fields.endorsingPeers, fields.orderers, fields.requestor.value);
              var call := Call(fields.chaincode.value, fields.channel.value, fcn, args, transientMap, nonce, now);
              if call.Encodable() then
                exists g :: call.Generates(fields.requestor.value, g)
                            && Run(r, connection.trace)
                               == BuilderQuery(Setting(connection.world, gateway, g), old(connection.trace))
              else
                r == Err(UnicodeError) && connection.trace == old(connection.trace)
  {
    var begun := Transact(connection, fields, fcn, args, transientMap, nonce, now);
    if begun.Err? {
      return Err(begun.error);
    }
    r := AwaitQuery(begun.value);
  }

  /** Querying through the builder is the direct query. */
  lemma BuilderQueryIsQuery(c: Setting, t: Trace)
    ensures BuilderQuery(c, t) == QueryRun(c, t)
  {
    OneOperation(c, Propose(true), NoProgress, t);
  }

  /** The direct flow got as far as the event check of the first peer, and that
      failed in a way that makes the builder ask the next one. */
  ghost predicate FirstCheckRetried(c: Setting, timeout: int, t: Trace) {
    var endorsed := QueryRun(c, t);
    && endorsed.result.Ok?
    && CommitRun(c.world, endorsed.trace, c.gateway.requestor, c.gateway.orderers, endorsed.result.value).result.Ok?
    && Retried(CommitAndWaitRun(c, endorsed.result.value, timeout, endorsed.trace).result, RetryPeer)
  }

  function FirstCheck(c: Setting, txId: ProtoString, timeout: int, t: Trace): Run<FilteredTX>
    requires c.gateway.endorsingPeers != []
  {
    var watching := t + [Watch(c.gateway.endorsingPeers[0], txId, timeout)];
    Run(EventResult(c.world.deliver(watching), txId, true), watching)
  }

  /** Waiting on all peers begins with the check of the first one, and ends there
      unless that is retried and there are more. */
  lemma WaitBeginsWithFirstPeer(c: Setting, txId: ProtoString, timeout: int, t: Trace)
    requires c.gateway.endorsingPeers != []
    ensures var first := FirstCheck(c, txId, timeout, t);
            var waited := WaitRun(c.world, t, c.gateway.endorsingPeers, txId, timeout, true);
            && (!Retried(first.result, RetryPeer) || |c.gateway.endorsingPeers| == 1 ==> waited == first)
            && first.trace <= waited.trace
  {
    var sends := WatchSends(c.gateway.endorsingPeers, txId, timeout);
    var attempts := WatchAttempts(c.world, t, sends, txId, true);
    var n := Made(attempts, RetryPeer);
    assert sends[..1] == [Watch(c.gateway.endorsingPeers[0], txId, timeout)];
    assert attempts[0] == FirstCheck(c, txId, timeout, t).result;
    FailoverIs(attempts, RetryPeer, FailedWaiting);
    if !Retried(attempts[0], RetryPeer) {
      FailoverEnds(attempts, RetryPeer, FailedWaiting, 0);
    }
    assert sends[..n] == sends[..1] + sends[1..n];
  }

  lemma ChainSteps(c: Setting, timeout: int, t: Trace)
    ensures var first := RunOperation(c, Propose(true), NoProgress, t);
            var second := RunOperation(c, Submit, first.progress, first.trace);
            RunAll(c, InvokeChain(timeout), NoProgress, t)
            == if first.result.Err? then first
               else if second.result.Err? then second
               else RunOperation(c, WaitForCommit(true, timeout), second.progress, second.trace)
  {
    var wait := WaitForCommit(true, timeout);
    var first := RunOperation(c, Propose(true), NoProgress, t);
    var second := RunOperation(c, Submit, first.progress, first.trace);
    RunAllStep(c, Propose(true), [Submit, wait], NoProgress, t);
    RunAllStep(c, Submit, [wait], first.progress, first.trace);
    OneOperation(c, wait, second.progress, second.trace);
    assert InvokeChain(timeout) == [Propose(true)] + [Submit, wait];
    assert [Submit, wait] == [Submit] + [wait];
  }

  lemma OneOperation(c: Setting, op: Operation, p: Progress, t: Trace)
    ensures RunAll(c, [op], p, t) == RunOperation(c, op, p, t)
  {
    assert [op] == [op] + [];
    RunAllStep(c, op, [], p, t);
    assert RunOperation(c, op, p, t).result.Ok? ==> RunOperation(c, op, p, t).result == Ok(());
  }

  /** The builder's chain, in terms of the calls it makes. */
  function ChainRun(c: Setting, timeout: int, t: Trace): Run<EndorsedTX> {
    var endorsed := QueryRun(c, t);
    if endorsed.result.Err? then
      endorsed
    else
      var e := endorsed.result.value;
      var committed := CommitRun(c.world, endorsed.trace, c.gateway.requestor, c.gateway.orderers, e);
      if committed.result.Err? then
        Run(Err(committed.result.error), committed.trace)
      else
        var waited := WaitRun(c.world, committed.trace, c.gateway.endorsingPeers, e.txContext.txId, timeout, true);
        Run(if waited.result.Err? then Err(waited.result.error) else endorsed.result, waited.trace)
  }

  lemma BuilderInvokeSteps(c: Setting, timeout: int, t: Trace)
    ensures BuilderInvoke(c, timeout, t) == ChainRun(c, timeout, t)
    ensures QueryRun(c, t).result.Ok? ==> c.gateway.endorsingPeers != []
  {
    ChainSteps(c, timeout, t);
    var first := RunOperation(c, Propose(true), NoProgress, t);
    var endorsed := QueryRun(c, t);
    assert first.result.Err? ==> endorsed == Run(Err(first.result.error), first.trace);
    if first.result.Ok? {
      assert first.progress == NoProgress.(endorsed := Some(endorsed.result.value)) && first.trace == endorsed.trace;
      SubmitAndWaitSteps(c, timeout, endorsed.result.value, endorsed.trace);
    }
  }

  /** The two operations that follow a successful propose. */
  lemma SubmitAndWaitSteps(c: Setting, timeout: int, e: EndorsedTX, t: Trace)
    requires c.gateway.endorsingPeers != []
    ensures var second := RunOperation(c, Submit, NoProgress.(endorsed := Some(e)), t);
            var third := RunOperation(c, WaitForCommit(true, timeout), second.progress, second.trace);
            var committed := CommitRun(c.world, t, c.gateway.requestor, c.gateway.orderers, e);
            && second.trace == committed.trace
            && second.progress.endorsed == Some(e)
            && (second.result.Err? <==> committed.result.Err?)
            && (committed.result.Err? ==> second.result.error == committed.result.error)
            && (committed.result.Ok? ==>
                  var peers, txId := c.gateway.endorsingPeers, e.txContext.txId;
                  var waited := WaitRun(c.world, committed.trace, peers, txId, timeout, true);
                  && third.trace == waited.trace
                  && third.progress.endorsed == Some(e)
                  && third.result == if waited.result.Err? then Err(waited.result.error) else Ok(()))
  {
  }

  /** The builder refines the direct flow. They end alike after the same sends,
      unless the event check of the first peer failed with a connection or
      retrieval error; then the builder has sent all that the direct flow sent and
      goes on to the next peer, if there is one. */
  lemma BuilderRefinesInvoke(c: Setting, timeout: int, t: Trace)
    ensures !FirstCheckRetried(c, timeout, t) || |c.gateway.endorsingPeers| == 1 ==>
              BuilderInvoke(c, timeout, t) == InvokeRun(c, timeout, t)
    ensures InvokeRun(c, timeout, t).trace <= BuilderInvoke(c, timeout, t).trace
  {
    BuilderInvokeSteps(c, timeout, t);
    var endorsed := QueryRun(c, t);
    if endorsed.result.Ok? {
      var e := endorsed.result.value;
      var committed := CommitRun(c.world, endorsed.trace, c.gateway.requestor, c.gateway.orderers, e);
      if committed.result.Ok? {
        WaitBeginsWithFirstPeer(c, e.txContext.txId, timeout, committed.trace);
      }
    }
  }

  /** The streams of the peers when each is asked after all before it. */
  function WatchStreams(w: World, t: Trace, sends: Trace): (streams: seq<Stream<DeliverResponse>>)
    ensures |streams| == |sends|
    ensures forall i | 0 <= i < |sends| :: streams[i] == w.deliver(t + sends[..i + 1])
  {
    seq(|sends|, i requires 0 <= i < |sends| => w.deliver(t + sends[..i + 1]))
  }

  /** The first of the later peers that is not given up has a first readable match,
      and that is VALID. */
  predicate LaterPeerConfirms(streams: seq<Stream<DeliverResponse>>, txId: ProtoString) {
    exists k | 1 <= k < |streams| :: Confirms(streams[k], txId) && forall i | 1 <= i < k :: GivenUp(streams[i], txId)
  }

  predicate Confirms(stream: Stream<DeliverResponse>, txId: ProtoString) {
    var found := FirstMatch(AllTransactions(stream.items[..ReadableCount(stream.items)]), txId);
    found.Some? && found.value.validationCode == 0
  }

  lemma CheckedStream(stream: Stream<DeliverResponse>, txId: ProtoString)
    ensures EventResult(stream, txId, true).Ok? <==> Confirms(stream, txId)
    ensures Retried(EventResult(stream, txId, true), RetryPeer) <==> GivenUp(stream, txId)
  {
    RetriedIffGivenUp(stream, txId, true);
  }

  /** Once the first check is retried, waiting succeeds exactly when a later peer confirms. */
  lemma WaitSucceedsIff(w: World, t: Trace, peers: seq<Peer>, txId: ProtoString, timeout: int)
    requires peers != []
    requires GivenUp(WatchStreams(w, t, WatchSends(peers, txId, timeout))[0], txId)
    ensures WaitRun(w, t, peers, txId, timeout, true).result.Ok?
            <==> LaterPeerConfirms(WatchStreams(w, t, WatchSends(peers, txId, timeout)), txId)
  {
    var sends := WatchSends(peers, txId, timeout);
    var attempts, streams := WatchAttempts(w, t, sends, txId, true), WatchStreams(w, t, sends);
    forall i | 0 <= i < |attempts|
      ensures Retried(attempts[i], RetryPeer) <==> GivenUp(streams[i], txId)
      ensures attempts[i].Ok? <==> Confirms(streams[i], txId)
    {
      CheckedStream(streams[i], txId);
    }
    LaterAttemptSucceedsIff(attempts);
  }

  lemma LaterAttemptSucceedsIff(attempts: seq<Outcome<FilteredTX>>)
    requires attempts != [] && Retried(attempts[0], RetryPeer)
    ensures Failover(attempts, RetryPeer, FailedWaiting).Ok?
            <==> exists k | 1 <= k < |attempts| ::
                   attempts[k].Ok? && forall i | 1 <= i < k :: Retried(attempts[i], RetryPeer)
  {
    FailoverIs(attempts, RetryPeer, FailedWaiting);
    if k :| 1 <= k < |attempts| && attempts[k].Ok? && forall i | 1 <= i < k :: Retried(attempts[i], RetryPeer) {
      FailoverEnds(attempts, RetryPeer, FailedWaiting, k);
    }
  }

  /** Whatever the direct flow returns the builder returns, after the same sends;
      the builder succeeds where the direct flow fails exactly when the event check of
      the first peer failed with a connection or retrieval error and the first later
      peer that is not given up confirms the transaction; and what it returns is fully
      endorsed, its payload the first peer's. */
  lemma BuilderReturnsWhatInvokeReturns(c: Setting, timeout: int, t: Trace)
    ensures InvokeRun(c, timeout, t).result.Ok? ==> BuilderInvoke(c, timeout, t) == InvokeRun(c, timeout, t)
    ensures BuilderInvoke(c, timeout, t).result.Ok? && InvokeRun(c, timeout, t).result.Err?
            <==> FirstCheckRetried(c, timeout, t) && LaterConfirmation(c, timeout, t)
    ensures FirstCheckRetried(c, timeout, t) ==>
              var run := InvokeRun(c, timeout, t);
              && run.trace != [] && run.trace[|run.trace| - 1].Watch?
              && run.result == Err(StopError(c.world.deliver(run.trace))) && RetryPeer(run.result.error)
    ensures BuilderInvoke(c, timeout, t).result.Ok? ==>
              var e := BuilderInvoke(c, timeout, t).result.value;
              e.peerResponses != [] && e.FullyEndorsed()
              && e.ResponsePayload() == Some(e.peerResponses[0].response.payload)
  {
    BuilderRefinesInvoke(c, timeout, t);
    BuilderInvokeSteps(c, timeout, t);
    if QueryRun(c, t).result.Ok? {
      FirstPayload(QueryRun(c, t).result.value);
    }
    if FirstCheckRetried(c, timeout, t) {
      RetriedCheckIsMadeGood(c, timeout, t);
    }
  }

  lemma FirstPayload(e: EndorsedTX)
    requires e.peerResponses != [] && e.FullyEndorsed()
    ensures e.ResponsePayload() == Some(e.peerResponses[0].response.payload)
  {
    ResponsesPartition(e);
    assert e.peerResponses[0] in e.peerResponses;
  }

  /** The network after the direct flow's commit has a later peer confirm the transaction. */
  ghost predicate LaterConfirmation(c: Setting, timeout: int, t: Trace)
    requires FirstCheckRetried(c, timeout, t)
  {
    var endorsed := QueryRun(c, t);
    var e := endorsed.result.value;
    var committed := CommitRun(c.world, endorsed.trace, c.gateway.requestor, c.gateway.orderers, e);
    var txId := e.txContext.txId;
    var sends := WatchSends(c.gateway.endorsingPeers, txId, timeout);
    LaterPeerConfirms(WatchStreams(c.world, committed.trace, sends), txId)
  }

  lemma RetriedCheckIsMadeGood(c: Setting, timeout: int, t: Trace)
    requires FirstCheckRetried(c, timeout, t)
    ensures ChainRun(c, timeout, t).result.Ok? <==> LaterConfirmation(c, timeout, t)
    ensures var run := InvokeRun(c, timeout, t);
            && run.trace != [] && run.trace[|run.trace| - 1].Watch?
            && run.result == Err(StopError(c.world.deliver(run.trace))) && RetryPeer(run.result.error)
  {
    var endorsed := QueryRun(c, t);
    var e := endorsed.result.value;
    var committed := CommitRun(c.world, endorsed.trace, c.gateway.requestor, c.gateway.orderers, e);
    assert CommitAndWaitRun(c, e, timeout, endorsed.trace) == FirstCheck(c, e.txContext.txId, timeout, committed.trace);
    RetriedWait(c, e.txContext.txId, timeout, committed.trace);
    RetriedCheck(c, e.txContext.txId, timeout, committed.trace);
  }

  lemma RetriedCheck(c: Setting, txId: ProtoString, timeout: int, t: Trace)
    requires c.gateway.endorsingPeers != [] && Retried(FirstCheck(c, txId, timeout, t).result, RetryPeer)
    ensures var check := FirstCheck(c, txId, timeout, t);
            check.result == Err(StopError(c.world.deliver(check.trace)))
  {
  }

  lemma RetriedWait(c: Setting, txId: ProtoString, timeout: int, t: Trace)
    requires c.gateway.endorsingPeers != [] && Retried(FirstCheck(c, txId, timeout, t).result, RetryPeer)
    ensures WaitRun(c.world, t, c.gateway.endorsingPeers, txId, timeout, true).result.Ok?
            <==> LaterPeerConfirms(WatchStreams(c.world, t, WatchSends(c.gateway.endorsingPeers, txId, timeout)), txId)
  {
    var watching := t + WatchSends(c.gateway.endorsingPeers, txId, timeout)[..1];
    assert watching == FirstCheck(c, txId, timeout, t).trace;
    CheckedStream(c.world.deliver(watching), txId);
    WaitSucceedsIff(c.world, t, c.gateway.endorsingPeers, txId, timeout);
  }
}
