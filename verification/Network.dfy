/** Connections to peers and orderers, and the calls made over them
    (snakeskin/connect.py, snakeskin/events.py, snakeskin/transact.py,
    snakeskin/errors.py). The network is an arbitrary function of everything that
    has been sent so far. */
module Network {
  import opened Wrappers
  import opened Messages
  import opened Transactions

  datatype Peer = Peer(endpoint: string)

  datatype Orderer = Orderer(endpoint: string)

  // ------------------------------------------------------------------- errors

  datatype Reason =
    | NoPeers | NoOrderers | NoChannel | NoRequestor | NoChaincode
    | MustPropose | MustCommit | UnknownTransactionType | UnknownValidationCode

  /** What a call to a peer or an orderer can raise, or a stream of its messages. */
  datatype NetworkError =
    | RpcError(code: int)                               // raised by gRPC itself
    | ConnectionError                                   // any other connection error
    | TimeoutError
    | OtherError(tag: int)

  datatype Error =
    | BlockchainConnectionError(code: int)
    | NetworkFailure(cause: NetworkError)               // a network error that is no gRPC error
    | TransactionCommitError(status: int, txId: ProtoString)
    | TransactionProposalError(transaction: EndorsedTX)
    | BlockRetrievalError(status: int)
    | TransactionValidationError(code: int)
    | TransactionNotFound                               // the RuntimeError of a stream that ended
    | ValueError(reason: Reason)
    | UnicodeError
    | IndexError
    | AttributeError
    | FailedWaiting                                     // a BlockchainError
    | NeverProposed                                     // a BlockchainError

  type Outcome<+T> = Result<T, Error>

  /** gRPC errors are re-raised as connection errors, every other error as it is. */
  function HandleConnErrors<T>(r: Result<T, NetworkError>): Outcome<T> {
    match r
    case Ok(value) => Ok(value)
    case Err(RpcError(code)) => Err(BlockchainConnectionError(code))
    case Err(cause) => Err(NetworkFailure(cause))
  }

  // ---------------------------------------------------------------- the network

  datatype Send =
    | ToPeer(peer: Peer, proposal: SignedProposal)
    | ToOrderer(orderer: Orderer, envelope: Envelope, txId: ProtoString)
    | Watch(peer: Peer, txId: ProtoString, timeout: int)

  type Trace = seq<Send>

  datatype BroadcastResponse = BroadcastResponse(status: int)

  datatype FilteredTX = FilteredTX(txId: ProtoString, typ: int, validationCode: int)

  /** Either a status, or, when that is zero, a filtered block. */
  datatype DeliverResponse = DeliverResponse(status: int, transactions: seq<FilteredTX>)

  /** A stream gives its items and then ends; a timeout is an end like any other error. */
  datatype Stream<T> = Stream(items: seq<T>, end: Result<(), NetworkError>)

  /** The answer to the last send of a trace. `race` picks which of several failed
      proposals is the first to be noticed. */
  datatype World = World(
    endorse: Trace -> Result<ProposalResponse, NetworkError>,
    race: Trace -> nat,
    broadcast: Trace -> Stream<BroadcastResponse>,
    deliver: Trace -> Stream<DeliverResponse>)

  /** The outcome of a call together with everything sent by the end of it. */
  datatype Run<+T> = Run(result: Outcome<T>, trace: Trace)

  lemma NextSend(t: Trace, sends: Trace, i: nat)
    requires i < |sends|
    ensures t + sends[..i] + [sends[i]] == t + sends[..i + 1]
  {
  }

  lemma SentInOrder(t: Trace, sends: Trace, n: nat)
    requires n <= |sends|
    ensures t <= t + sends[..n] && |t + sends[..n]| == |t| + n
    ensures forall j | |t| <= j < |t| + n :: (t + sends[..n])[j] == sends[j - |t|]
  {
  }

  // ------------------------------------------------------------------- failover

  predicate Retried<T>(attempt: Outcome<T>, retry: Error -> bool) {
    attempt.Err? && retry(attempt.error)
  }

  /** The first attempt that is not retried, or the number of attempts if there is none. */
  function FirstSettled<T>(attempts: seq<Outcome<T>>, retry: Error -> bool): (k: nat)
    ensures k <= |attempts|
    ensures forall i | 0 <= i < k :: Retried(attempts[i], retry)
    ensures k < |attempts| ==> !Retried(attempts[k], retry)
  {
    if attempts == [] || !Retried(attempts[0], retry) then 0 else 1 + FirstSettled(attempts[1..], retry)
  }

  /** How many attempts are made: up to the first that settles, that one included. */
  function Made<T>(attempts: seq<Outcome<T>>, retry: Error -> bool): (n: nat)
    ensures n <= |attempts|
  {
    var k := FirstSettled(attempts, retry);
    if k < |attempts| then k + 1 else k
  }

  /** The outcome of the last attempt made, or `none` if there was nothing to try. */
  function Failover<T>(attempts: seq<Outcome<T>>, retry: Error -> bool, none: Error): Outcome<T> {
    if attempts == [] then Err(none) else attempts[Made(attempts, retry) - 1]
  }

  /** The loop that makes attempts `0..k` in turn, all but the last of them retried,
      ends with the last one's outcome if that settles or nothing is left to try. */
  lemma FailoverEnds<T>(attempts: seq<Outcome<T>>, retry: Error -> bool, none: Error, k: nat)
    requires k < |attempts|
    requires forall i | 0 <= i < k :: Retried(attempts[i], retry)
    requires Retried(attempts[k], retry) ==> k == |attempts| - 1
    ensures Made(attempts, retry) == k + 1
    ensures Failover(attempts, retry, none) == attempts[k]
  {
    var found := FirstSettled(attempts, retry);
    assert found < |attempts| ==> !Retried(attempts[found], retry);
    assert k < found ==> Retried(attempts[k], retry);
  }

  /** All attempts before the last one made are retried, and the last one only
      when there is no other. */
  lemma FailoverIs<T>(attempts: seq<Outcome<T>>, retry: Error -> bool, none: Error)
    requires attempts != []
    ensures 0 < Made(attempts, retry) <= |attempts|
    ensures forall i | 0 <= i < Made(attempts, retry) - 1 :: Retried(attempts[i], retry)
    ensures Failover(attempts, retry, none) == attempts[Made(attempts, retry) - 1]
    ensures Retried(Failover(attempts, retry, none), retry) ==> Made(attempts, retry) == |attempts|
  {
  }

  // ------------------------------------------------------------------- orderers

  predicate RetryOrderer(e: Error) {
    e.BlockchainConnectionError?
  }

  /** What broadcasting to one orderer makes of its response stream: the first
      response decides, and an empty stream is no error. */
  function BroadcastResult(stream: Stream<BroadcastResponse>, txId: ProtoString): Outcome<Option<BroadcastResponse>> {
    if stream.items != [] then
      if stream.items[0].status != 200 then
        Err(TransactionCommitError(stream.items[0].status, txId))
      else
        Ok(Some(stream.items[0]))
    else if stream.end.Err? then
      HandleConnErrors(Err(stream.end.error))
    else
      Ok(None)
  }

  function OrdererSends(orderers: seq<Orderer>, envelope: Envelope, txId: ProtoString): (sends: Trace)
    ensures |sends| == |orderers|
  {
    seq(|orderers|, i requires 0 <= i < |orderers| => ToOrderer(orderers[i], envelope, txId))
  }

  /** What each orderer would answer if every one before it were contacted first. */
  function OrdererAttempts(w: World, t: Trace, sends: Trace, txId: ProtoString)
    : (attempts: seq<Outcome<Option<BroadcastResponse>>>)
    ensures |attempts| == |sends|
    ensures forall i | 0 <= i < |sends| :: attempts[i] == BroadcastResult(w.broadcast(t + sends[..i + 1]), txId)
  {
    seq(|sends|, i requires 0 <= i < |sends| => BroadcastResult(w.broadcast(t + sends[..i + 1]), txId))
  }

  /** Orderers are contacted in order until one does not fail to connect. */
  function BroadcastRun(w: World, t: Trace, envelope: Envelope, orderers: seq<Orderer>, txId: ProtoString)
    : Run<Option<BroadcastResponse>>
  {
    var sends := OrdererSends(orderers, envelope, txId);
    var attempts := OrdererAttempts(w, t, sends, txId);
    Run(Failover(attempts, RetryOrderer, ValueError(NoOrderers)), t + sends[..Made(attempts, RetryOrderer)])
  }

  /** The orderer could not be reached: its stream broke off before any response. */
  predicate Unreachable(stream: Stream<BroadcastResponse>) {
    stream.items == [] && stream.end.Err? && stream.end.error.RpcError?
  }

  /** A network error is raised as it is, but for a gRPC error, which becomes a
      connection error with its code. */
  predicate RaisedAs<T(==)>(r: Outcome<T>, cause: NetworkError) {
    match cause
    case RpcError(code) => r == Err(BlockchainConnectionError(code))
    case ConnectionError | TimeoutError | OtherError(_) => r == Err(NetworkFailure(cause))
  }

  /** Without orderers nothing is sent. */
  lemma NoOrdererToBroadcastTo(w: World, t: Trace, envelope: Envelope, txId: ProtoString)
    ensures BroadcastRun(w, t, envelope, [], txId) == Run(Err(ValueError(NoOrderers)), t)
  {
    assert t + [] == t;
  }

  /** Orderer failover: orderers are contacted in order, each at most once, and every
      one before the last contacted was unreachable. The last one's stream decides: a
      first response of 200 is returned, a stream that ends without a response returns
      nothing, any other response is a commit error, and a stream that breaks off
      first raises its own error; it was unreachable only if all of them were. */
  lemma OrdererFailover(w: World, t: Trace, envelope: Envelope, orderers: seq<Orderer>, txId: ProtoString)
    requires orderers != []
    ensures var run := BroadcastRun(w, t, envelope, orderers, txId);
            var contacted := |run.trace| - |t|;
            var stream := w.broadcast(run.trace);
            && 0 < contacted <= |orderers|
            && t <= run.trace
            && (forall j | |t| <= j < |run.trace| :: run.trace[j] == ToOrderer(orderers[j - |t|], envelope, txId))
            && (forall m | |t| < m < |run.trace| :: Unreachable(w.broadcast(run.trace[..m])))
            && (stream.items == [] && stream.end.Ok? ==> run.result == Ok(None))
            && (stream.items == [] && stream.end.Err? ==> RaisedAs(run.result, stream.end.error))
            && (stream.items != [] && stream.items[0].status == 200 ==> run.result == Ok(Some(stream.items[0])))
            && (stream.items != [] && stream.items[0].status != 200 ==>
                  run.result == Err(TransactionCommitError(stream.items[0].status, txId)))
            && (Unreachable(stream) ==> contacted == |orderers| && RetryOrderer(run.result.error))
  {
    var sends := OrdererSends(orderers, envelope, txId);
    var attempts := OrdererAttempts(w, t, sends, txId);
    FailoverIs(attempts, RetryOrderer, ValueError(NoOrderers));
    var trace := t + sends[..Made(attempts, RetryOrderer)];
    SentInOrder(t, sends, Made(attempts, RetryOrderer));
    forall m | |t| < m <= |trace|
      ensures attempts[m - |t| - 1] == BroadcastResult(w.broadcast(trace[..m]), txId)
      ensures Retried(attempts[m - |t| - 1], RetryOrderer) <==> Unreachable(w.broadcast(trace[..m]))
    {
      assert trace[..m] == t + sends[..m - |t|];
    }
    assert trace[..|trace|] == trace;
  }

  /** What is promised is a successful response, and that holds of a normal return
      unless the last orderer closed its stream without any. */
  lemma ReturnIsResponseIff(w: World, t: Trace, envelope: Envelope, orderers: seq<Orderer>, txId: ProtoString)
    requires orderers != []
    ensures var run := BroadcastRun(w, t, envelope, orderers, txId);
            var stream := w.broadcast(run.trace);
            (run.result.Ok? ==> run.result.value.Some? && run.result.value.value.status == 200)
            <==> stream.items != [] || stream.end.Err?
  {
    OrdererFailover(w, t, envelope, orderers, txId);
  }

  function Broadcasting(broadcast: Trace -> Stream<BroadcastResponse>): World {
    World(t => Err(RpcError(14)), t => 0, broadcast, t => Stream([], Ok(())))
  }

  /** An orderer that answers nothing passes for one that has committed. */
  lemma SilentOrdererIsSuccess(envelope: Envelope, first: Orderer, rest: seq<Orderer>, txId: ProtoString)
    ensures BroadcastRun(Broadcasting(t => Stream([], Ok(()))), [], envelope, [first] + rest, txId).result == Ok(None)
  {
    var w := Broadcasting(t => Stream([], Ok(())));
    var attempts := OrdererAttempts(w, [], OrdererSends([first] + rest, envelope, txId), txId);
    FailoverEnds(attempts, RetryOrderer, ValueError(NoOrderers), 0);
  }

  // A comment in the loop has an unsuccessful response move on to the next orderer too.

  predicate RetryUnsuccessful(e: Error) {
    RetryOrderer(e) || e.TransactionCommitError?
  }

  function CommentedRun(w: World, t: Trace, envelope: Envelope, orderers: seq<Orderer>, txId: ProtoString)
    : Run<Option<BroadcastResponse>>
  {
    var sends := OrdererSends(orderers, envelope, txId);
    var attempts := OrdererAttempts(w, t, sends, txId);
    Run(Failover(attempts, RetryUnsuccessful, ValueError(NoOrderers)), t + sends[..Made(attempts, RetryUnsuccessful)])
  }

  /** The orderer's first response is not a success. */
  predicate Refuses(stream: Stream<BroadcastResponse>) {
    stream.items != [] && stream.items[0].status != 200
  }

  /** The streams of the orderers when each is contacted after all before it. */
  function OrdererStreams(w: World, t: Trace, sends: Trace): (streams: seq<Stream<BroadcastResponse>>)
    ensures |streams| == |sends|
    ensures forall i | 0 <= i < |sends| :: streams[i] == w.broadcast(t + sends[..i + 1])
  {
    seq(|sends|, i requires 0 <= i < |sends| => w.broadcast(t + sends[..i + 1]))
  }

  /** The first orderer that can be reached refuses, and it is not the last one. */
  predicate RefusedEarly(streams: seq<Stream<BroadcastResponse>>) {
    exists k | 0 <= k < |streams| - 1 :: Refuses(streams[k]) && forall i | 0 <= i < k :: Unreachable(streams[i])
  }

  /** The loop does what its comment says exactly when the first orderer that can be
      reached does not refuse, or is the last one. */
  lemma CommentHoldsIff(w: World, t: Trace, envelope: Envelope, orderers: seq<Orderer>, txId: ProtoString)
    ensures BroadcastRun(w, t, envelope, orderers, txId) == CommentedRun(w, t, envelope, orderers, txId)
            <==> !RefusedEarly(OrdererStreams(w, t, OrdererSends(orderers, envelope, txId)))
  {
    var sends := OrdererSends(orderers, envelope, txId);
    var attempts, streams := OrdererAttempts(w, t, sends, txId), OrdererStreams(w, t, sends);
    if orderers != [] {
      MoreRetries(attempts);
      FailoverIs(attempts, RetryOrderer, ValueError(NoOrderers));
      var last := Made(attempts, RetryOrderer) - 1;
      forall i | 0 <= i < |attempts|
        ensures Retried(attempts[i], RetryOrderer) <==> Unreachable(streams[i])
        ensures attempts[i].Err? && attempts[i].error.TransactionCommitError? <==> Refuses(streams[i])
      {
        assert attempts[i] == BroadcastResult(streams[i], txId);
      }
      if Refuses(streams[last]) && last < |streams| - 1 {
        assert RefusedEarly(streams);
      }
      if k :| 0 <= k < |streams| - 1 && Refuses(streams[k]) && forall i | 0 <= i < k :: Unreachable(streams[i]) {
        FailoverEnds(attempts, RetryOrderer, ValueError(NoOrderers), k);
      }
    }
  }

  lemma MoreRetries(attempts: seq<Outcome<Option<BroadcastResponse>>>)
    requires attempts != []
    ensures var made := Made(attempts, RetryOrderer);
            && 0 < made
            && (if attempts[made - 1].Err? && attempts[made - 1].error.TransactionCommitError? && made < |attempts| then
                  made < Made(attempts, RetryUnsuccessful)
                else
                  made == Made(attempts, RetryUnsuccessful))
  {
    FailoverIs(attempts, RetryOrderer, ValueError(NoOrderers));
    var last := Made(attempts, RetryOrderer) - 1;
    if Retried(attempts[last], RetryUnsuccessful) && last < |attempts| - 1 {
      assert forall i | 0 <= i <= last :: Retried(attempts[i], RetryUnsuccessful);
      assert last < FirstSettled(attempts, RetryUnsuccessful);
    } else {
      FailoverEnds(attempts, RetryUnsuccessful, ValueError(NoOrderers), last);
    }
  }

  /** A first orderer that answers 500 ends the call, although the second would have
      answered 200. */
  lemma UnsuccessfulIsRaised(envelope: Envelope, first: Orderer, second: Orderer, txId: ProtoString)
    ensures var w := Broadcasting(t => Stream([BroadcastResponse(if |t| == 1 then 500 else 200)], Ok(())));
            && BroadcastRun(w, [], envelope, [first, second], txId).result == Err(TransactionCommitError(500, txId))
            && CommentedRun(w, [], envelope, [first, second], txId).result == Ok(Some(BroadcastResponse(200)))
  {
    var w := Broadcasting(t => Stream([BroadcastResponse(if |t| == 1 then 500 else 200)], Ok(())));
    var attempts := OrdererAttempts(w, [], OrdererSends([first, second], envelope, txId), txId);
    FailoverEnds(attempts, RetryOrderer, ValueError(NoOrderers), 0);
    FailoverEnds(attempts, RetryUnsuccessful, ValueError(NoOrderers), 1);
  }

  // ------------------------------------------------------------------ proposals

  function PeerSends(peers: seq<Peer>, proposal: SignedProposal): (sends: Trace)
    ensures |sends| == |peers|
  {
    seq(|peers|, i requires 0 <= i < |peers| => ToPeer(peers[i], proposal))
  }

  function PeerAnswers(w: World, t: Trace, sends: Trace): (answers: seq<Outcome<ProposalResponse>>)
    ensures |answers| == |sends|
    ensures forall i | 0 <= i < |sends| :: answers[i] == HandleConnErrors(w.endorse(t + sends[..i + 1]))
  {
    seq(|sends|, i requires 0 <= i < |sends| => HandleConnErrors(w.endorse(t + sends[..i + 1])))
  }

  function Errors<T>(outcomes: seq<Outcome<T>>): (errors: seq<Error>)
    ensures errors == [] <==> forall i | 0 <= i < |outcomes| :: outcomes[i].Ok?
  {
    if outcomes == [] then
      []
    else
      (if outcomes[0].Err? then [outcomes[0].error] else []) + Errors(outcomes[1..])
  }

  function Values<T>(outcomes: seq<Outcome<T>>): (values: seq<T>)
    requires forall i | 0 <= i < |outcomes| :: outcomes[i].Ok?
    ensures |values| == |outcomes|
    ensures forall i | 0 <= i < |values| :: outcomes[i] == Ok(values[i])
  {
    seq(|outcomes|, i requires 0 <= i < |outcomes| => outcomes[i].value)
  }

  /** All results in order, or one of the errors. */
  function Gathered<T>(outcomes: seq<Outcome<T>>, first: nat): Outcome<seq<T>> {
    var errors := Errors(outcomes);
    if errors == [] then Ok(Values(outcomes)) else Err(errors[first % |errors|])
  }

  /** Every peer is sent the signed proposal. */
  function ProposeRun(w: World, t: Trace, peers: seq<Peer>, g: GeneratedTX): Run<EndorsedTX> {
    if peers == [] then
      Run(Err(ValueError(NoPeers)), t)
    else
      var sends := PeerSends(peers, g.signedProposal);
      var gathered := Gathered(PeerAnswers(w, t, sends), w.race(t + sends));
      Run(if gathered.Ok? then Ok(Endorse(g, gathered.value)) else Err(gathered.error), t + sends)
  }

  /** Proposing sends to every peer; it succeeds exactly when every peer answers, with
      the answers in peer order, and otherwise raises the error of some peer. */
  lemma ProposeOutcome(w: World, t: Trace, peers: seq<Peer>, g: GeneratedTX)
    requires peers != []
    ensures var run := ProposeRun(w, t, peers, g);
            && t <= run.trace && |run.trace| == |t| + |peers|
            && (forall j | |t| <= j < |run.trace| :: run.trace[j] == ToPeer(peers[j - |t|], g.signedProposal))
            && (run.result.Ok? <==> forall m | |t| < m <= |run.trace| :: w.endorse(run.trace[..m]).Ok?)
            && (run.result.Ok? ==>
                  && run.result.value
                     == EndorsedTX(run.result.value.peerResponses, g.proposal, g.header, g.txContext)
                  && |run.result.value.peerResponses| == |peers|
                  && forall m | |t| < m <= |run.trace| ::
                       w.endorse(run.trace[..m]) == Ok(run.result.value.peerResponses[m - |t| - 1]))
            && (run.result.Err? ==>
                  exists m | |t| < m <= |run.trace| ::
                    w.endorse(run.trace[..m]).Err? && RaisedAs(run.result, w.endorse(run.trace[..m]).error))
  {
    var sends := PeerSends(peers, g.signedProposal);
    var answers := PeerAnswers(w, t, sends);
    var run := ProposeRun(w, t, peers, g);
    assert run.trace == t + sends;
    forall m | |t| < m <= |run.trace|
      ensures answers[m - |t| - 1] == HandleConnErrors(w.endorse(run.trace[..m]))
    {
      assert run.trace[..m] == t + sends[..m - |t|];
    }
    if run.result.Err? {
      var errors := Errors(answers);
      var i := ErrorsAreRaised(answers, w.race(t + sends) % |errors|);
      assert HandleConnErrors(w.endorse(run.trace[..|t| + i + 1])) == answers[i];
      assert RaisedAs(run.result, w.endorse(run.trace[..|t| + i + 1]).error);
    } else {
      forall m | |t| < m <= |run.trace|
        ensures w.endorse(run.trace[..m]) == Ok(run.result.value.peerResponses[m - |t| - 1])
      {
        assert answers[m - |t| - 1].Ok?;
      }
    }
  }

  lemma {:induction false} ErrorsAreRaised<T>(outcomes: seq<Outcome<T>>, k: nat) returns (i: nat)
    requires k < |Errors(outcomes)|
    ensures i < |outcomes| && outcomes[i] == Err(Errors(outcomes)[k])
  {
    if outcomes[0].Err? && k == 0 {
      i := 0;
    } else {
      i := ErrorsAreRaised(outcomes[1..], if outcomes[0].Err? then k - 1 else k);
      i := i + 1;
    }
  }

  function RaiseProposalError(e: EndorsedTX): (r: Outcome<()>)
    ensures r == Ok(()) <==> forall i | 0 <= i < |e.peerResponses| :: e.peerResponses[i].response.status == 200
    ensures r.Err? ==> r.error == TransactionProposalError(e)
  {
    if e.FullyEndorsed() then Ok(()) else Err(TransactionProposalError(e))
  }

  function CommitRun(w: World, t: Trace, requestor: User, orderers: seq<Orderer>, e: EndorsedTX)
    : Run<Option<BroadcastResponse>>
  {
    var envelope := BuildEndorsedTxEnvelope(e, requestor);
    if envelope.None? then
      Run(Err(IndexError), t)
    else
      BroadcastRun(w, t, envelope.value, orderers, e.txContext.txId)
  }

  // --------------------------------------------------------------- block events

  /** The block of a response can be taken: no status, and every transaction type known. */
  predicate Readable(response: DeliverResponse) {
    response.status == 0 && forall tx <- response.transactions :: IsTransactionType(tx.typ)
  }

  function ReadableCount(items: seq<DeliverResponse>): (n: nat)
    ensures n <= |items|
  {
    if items == [] || !Readable(items[0]) then 0 else 1 + ReadableCount(items[1..])
  }

  lemma {:induction false} ReadableCountIsPrefix(items: seq<DeliverResponse>)
    ensures forall i | 0 <= i < ReadableCount(items) :: Readable(items[i])
    ensures ReadableCount(items) < |items| ==> !Readable(items[ReadableCount(items)])
  {
    if items != [] {
      ReadableCountIsPrefix(items[1..]);
    }
  }

  function AllTransactions(items: seq<DeliverResponse>): seq<FilteredTX> {
    if items == [] then [] else items[0].transactions + AllTransactions(items[1..])
  }

  function FirstMatch(txs: seq<FilteredTX>, txId: ProtoString): (r: Option<FilteredTX>) {
    if txs == [] then
      None
    else if txs[0].txId == txId then
      Some(txs[0])
    else
      FirstMatch(txs[1..], txId)
  }

  lemma {:induction false} FirstMatchIsFirst(txs: seq<FilteredTX>, txId: ProtoString)
    ensures FirstMatch(txs, txId).None? <==> forall i | 0 <= i < |txs| :: txs[i].txId != txId
    ensures FirstMatch(txs, txId).Some? ==>
              exists k | 0 <= k < |txs| ::
                && txs[k] == FirstMatch(txs, txId).value && txs[k].txId == txId
                && forall i | 0 <= i < k :: txs[i].txId != txId
  {
    if txs != [] && txs[0].txId != txId {
      FirstMatchIsFirst(txs[1..], txId);
      if FirstMatch(txs, txId).Some? {
        var k :| 0 <= k < |txs[1..]| && txs[1..][k] == FirstMatch(txs, txId).value && txs[1..][k].txId == txId
                 && forall i | 0 <= i < k :: txs[1..][i].txId != txId;
        assert txs[k + 1] == FirstMatch(txs, txId).value;
        assert forall i | 1 <= i < k + 1 :: txs[i] == txs[1..][i - 1];
      } else {
        assert forall i | 1 <= i < |txs| :: txs[i] == txs[1..][i - 1];
      }
    }
  }

  /** Why reading stopped: a status, a block that cannot be taken, or the end of the stream. */
  function StopError(stream: Stream<DeliverResponse>): Error {
    var n := ReadableCount(stream.items);
    if n < |stream.items| then
      if stream.items[n].status != 0 then
        BlockRetrievalError(stream.items[n].status)
      else
        ValueError(UnknownTransactionType)
    else if stream.end.Err? then
      HandleConnErrors<()>(stream.end).error
    else
      TransactionNotFound
  }

  /** Reading stops at the first response that has a status or holds a transaction of
      unknown type, with the error of that, or else at the end of the stream. */
  lemma ReadingStops(stream: Stream<DeliverResponse>, n: nat)
    requires n <= |stream.items|
    requires forall i | 0 <= i < n ::
               stream.items[i].status == 0 && forall tx <- stream.items[i].transactions :: tx.typ in KnownTypes
    requires n < |stream.items| ==>
               stream.items[n].status != 0 || exists tx <- stream.items[n].transactions :: tx.typ !in KnownTypes
    ensures ReadableCount(stream.items) == n
    ensures n < |stream.items| ==>
              StopError(stream) == if stream.items[n].status != 0 then BlockRetrievalError(stream.items[n].status)
                                   else ValueError(UnknownTransactionType)
    ensures n == |stream.items| && stream.end.Err? ==> RaisedAs<()>(Err(StopError(stream)), stream.end.error)
    ensures n == |stream.items| && stream.end.Ok? ==> StopError(stream) == TransactionNotFound
  {
    TransactionTypes();
    assert forall i | 0 <= i < n :: Readable(stream.items[i]);
    ReadableCountIs(stream.items, n);
  }

  lemma {:induction false} ReadableCountIs(items: seq<DeliverResponse>, n: nat)
    requires n <= |items| && forall i | 0 <= i < n :: Readable(items[i])
    requires n < |items| ==> !Readable(items[n])
    ensures ReadableCount(items) == n
  {
    if n > 0 {
      ReadableCountIs(items[1..], n - 1);
    }
  }

  /** Stream search: the first match among all transactions of the blocks that can
      be read, or else the reason why there are no more. */
  function Search(stream: Stream<DeliverResponse>, txId: ProtoString): Outcome<FilteredTX> {
    var found := FirstMatch(AllTransactions(stream.items[..ReadableCount(stream.items)]), txId);
    if found.Some? then Ok(found.value) else Err(StopError(stream))
  }

  // Nothing is said of blocks that cannot be taken; a search over all blocks before
  // the first status would go by the following.

  function BlockCount(items: seq<DeliverResponse>): (n: nat)
    ensures n <= |items|
    ensures forall i | 0 <= i < n :: items[i].status == 0
    ensures n < |items| ==> items[n].status != 0
  {
    if items == [] || items[0].status != 0 then 0 else 1 + BlockCount(items[1..])
  }

  function Promised(items: seq<DeliverResponse>, txId: ProtoString): Option<FilteredTX> {
    FirstMatch(AllTransactions(items[..BlockCount(items)]), txId)
  }

  /** Some block that cannot be taken comes no later than the first with a match. */
  predicate Obstructed(items: seq<DeliverResponse>, txId: ProtoString) {
    exists k | 0 <= k < BlockCount(items) ::
      && !Readable(items[k])
      && forall i | 0 <= i < k :: FirstMatch(items[i].transactions, txId).None?
  }

  lemma ObstructedStep(items: seq<DeliverResponse>, txId: ProtoString)
    requires items != [] && items[0].status == 0
    ensures Obstructed(items, txId)
            <==> !Readable(items[0])
                 || (FirstMatch(items[0].transactions, txId).None? && Obstructed(items[1..], txId))
  {
    var rest := items[1..];
    if Obstructed(items, txId) && Readable(items[0]) {
      var k :| 0 <= k < BlockCount(items) && !Readable(items[k])
               && forall i | 0 <= i < k :: FirstMatch(items[i].transactions, txId).None?;
      assert rest[k - 1] == items[k];
      assert forall i | 0 <= i < k - 1 :: rest[i] == items[i + 1];
    }
    if FirstMatch(items[0].transactions, txId).None? && Obstructed(rest, txId) {
      ObstructedAhead(items, txId);
    }
  }

  lemma ObstructedAhead(items: seq<DeliverResponse>, txId: ProtoString)
    requires items != [] && items[0].status == 0
    requires FirstMatch(items[0].transactions, txId).None? && Obstructed(items[1..], txId)
    ensures Obstructed(items, txId)
  {
    var rest := items[1..];
    var k :| 0 <= k < BlockCount(rest) && !Readable(rest[k])
             && forall i | 0 <= i < k :: FirstMatch(rest[i].transactions, txId).None?;
    assert items[k + 1] == rest[k];
    assert forall i | 1 <= i < k + 1 :: items[i] == rest[i - 1];
  }

  /** A search finds the first match of all blocks exactly when no block that cannot
      be taken precedes or holds that match; then it fails for the unknown type. */
  lemma {:induction false} SearchIsPromisedIff(items: seq<DeliverResponse>, end: Result<(), NetworkError>,
                                               txId: ProtoString)
    ensures var found := Search(Stream(items, end), txId);
            var promised := Promised(items, txId);
            && ((if found.Ok? then Some(found.value) else None) == promised
                <==> !(promised.Some? && Obstructed(items, txId)))
            && (Obstructed(items, txId) ==> found == Err(ValueError(UnknownTransactionType)))
  {
    SearchFromIsSearch(items, end, txId);
    if items != [] && items[0].status == 0 {
      SearchFromIsSearch(items[1..], end, txId);
      SearchIsPromisedIff(items[1..], end, txId);
      ObstructedStep(items, txId);
      var blocks := items[..BlockCount(items)];
      assert blocks[1..] == items[1..][..BlockCount(items[1..])];
      FirstMatchConcat(items[0].transactions, AllTransactions(blocks[1..]), txId);
    }
  }

  /** A match is missed when a later transaction of its block has an unknown type. */
  lemma UnknownTypeHidesMatch(txId: ProtoString, end: Result<(), NetworkError>)
    ensures var block := DeliverResponse(0, [FilteredTX(txId, 3, 0), FilteredTX(txId, 7, 0)]);
            && Promised([block], txId) == Some(FilteredTX(txId, 3, 0))
            && Search(Stream([block], end), txId) == Err(ValueError(UnknownTransactionType))
  {
    var txs := [FilteredTX(txId, 3, 0), FilteredTX(txId, 7, 0)];
    var block := DeliverResponse(0, txs);
    assert txs[1] in block.transactions && !IsTransactionType(txs[1].typ);
    assert Obstructed([block], txId) by { assert !Readable([block][0]) && BlockCount([block]) == 1; }
    SearchIsPromisedIff([block], end, txId);
    assert [block][..1] == [block];
  }

  predicate IsValidationCode(code: int) {
    0 <= code <= 24 || code == 254 || code == 255
  }

  /** Naming an unknown code is an error of its own. */
  function CodeError(code: int): Error {
    if IsValidationCode(code) then TransactionValidationError(code) else ValueError(UnknownValidationCode)
  }

  /** Any code but VALID is an error. */
  function Checked(found: Outcome<FilteredTX>): Outcome<FilteredTX> {
    if found.Err? || found.value.validationCode == 0 then
      found
    else
      Err(CodeError(found.value.validationCode))
  }

  function EventResult(stream: Stream<DeliverResponse>, txId: ProtoString, raiseErrors: bool): Outcome<FilteredTX> {
    if raiseErrors then Checked(Search(stream, txId)) else Search(stream, txId)
  }

  /** The search as it is made: one block after another. */
  function SearchFrom(items: seq<DeliverResponse>, end: Result<(), NetworkError>, txId: ProtoString)
    : Outcome<FilteredTX>
  {
    if items == [] then
      Err(if end.Err? then HandleConnErrors(end).error else TransactionNotFound)
    else if items[0].status != 0 then
      Err(BlockRetrievalError(items[0].status))
    else if !Readable(items[0]) then
      Err(ValueError(UnknownTransactionType))
    else
      var found := FirstMatch(items[0].transactions, txId);
      if found.Some? then Ok(found.value) else SearchFrom(items[1..], end, txId)
  }

  lemma {:induction false} FirstMatchConcat(a: seq<FilteredTX>, b: seq<FilteredTX>, txId: ProtoString)
    ensures FirstMatch(a + b, txId)
            == if FirstMatch(a, txId).Some? then FirstMatch(a, txId) else FirstMatch(b, txId)
  {
    if a == [] {
      assert a + b == b;
    } else {
      FirstMatchConcat(a[1..], b, txId);
      assert (a + b)[1..] == a[1..] + b;
    }
  }

  /** Searching block by block finds what there is to find among all of them. */
  lemma {:induction false} SearchFromIsSearch(items: seq<DeliverResponse>, end: Result<(), NetworkError>,
                                              txId: ProtoString)
    ensures SearchFrom(items, end, txId) == Search(Stream(items, end), txId)
  {
    var n := ReadableCount(items);
    if n > 0 {
      var readable := items[..n];
      SearchFromIsSearch(items[1..], end, txId);
      assert readable[1..] == items[1..][..n - 1];
      FirstMatchConcat(items[0].transactions, AllTransactions(readable[1..]), txId);
    }
  }

  /** Reads the stream block by block, and each block transaction by transaction. */
  method GetTransaction(stream: Stream<DeliverResponse>, txId: ProtoString) returns (r: Outcome<FilteredTX>)
    ensures r == Search(stream, txId)
  {
    SearchFromIsSearch(stream.items, stream.end, txId);
    var i := 0;
    while i < |stream.items|
      invariant i <= |stream.items|
      invariant SearchFrom(stream.items, stream.end, txId) == SearchFrom(stream.items[i..], stream.end, txId)
    {
      var response := stream.items[i];
      if response.status != 0 {
        return Err(BlockRetrievalError(response.status));
      }
      if exists tx <- response.transactions :: !IsTransactionType(tx.typ) {
        return Err(ValueError(UnknownTransactionType));
      }
      var found := ScanBlock(response.transactions, txId);
      if found.Some? {
        return Ok(found.value);
      }
      assert stream.items[i..][1..] == stream.items[i + 1..];
      i := i + 1;
    }
    r := Err(if stream.end.Err? then HandleConnErrors(stream.end).error else TransactionNotFound);
  }

  method ScanBlock(txs: seq<FilteredTX>, txId: ProtoString) returns (r: Option<FilteredTX>)
    ensures r == FirstMatch(txs, txId)
  {
    var j := 0;
    while j < |txs|
      invariant j <= |txs|
      invariant FirstMatch(txs, txId) == FirstMatch(txs[j..], txId)
    {
      if txs[j].txId == txId {
        return Some(txs[j]);
      }
      assert txs[j..][1..] == txs[j + 1..];
      j := j + 1;
    }
    r := None;
  }

  // ---------------------------------------------------------- waiting for a commit

  predicate RetryPeer(e: Error) {
    e.BlockchainConnectionError? || e == NetworkFailure(ConnectionError) || e.BlockRetrievalError?
  }

  function WatchSends(peers: seq<Peer>, txId: ProtoString, timeout: int): (sends: Trace)
    ensures |sends| == |peers|
  {
    seq(|peers|, i requires 0 <= i < |peers| => Watch(peers[i], txId, timeout))
  }

  function WatchAttempts(w: World, t: Trace, sends: Trace, txId: ProtoString, raiseErrors: bool)
    : (attempts: seq<Outcome<FilteredTX>>)
    ensures |attempts| == |sends|
    ensures forall i | 0 <= i < |sends| ::
              attempts[i] == EventResult(w.deliver(t + sends[..i + 1]), txId, raiseErrors)
  {
    seq(|sends|, i requires 0 <= i < |sends| => EventResult(w.deliver(t + sends[..i + 1]), txId, raiseErrors))
  }

  /** Peers are asked in order until one fails neither to connect nor to deliver blocks. */
  function WaitRun(w: World, t: Trace, peers: seq<Peer>, txId: ProtoString, timeout: int, raiseErrors: bool)
    : Run<FilteredTX>
  {
    var sends := WatchSends(peers, txId, timeout);
    var attempts := WatchAttempts(w, t, sends, txId, raiseErrors);
    Run(Failover(attempts, RetryPeer, FailedWaiting), t + sends[..Made(attempts, RetryPeer)])
  }

  lemma WaitEnds(w: World, t: Trace, peers: seq<Peer>, txId: ProtoString, timeout: int, raiseErrors: bool,
                 attempts: seq<Outcome<FilteredTX>>, k: nat)
    requires attempts == WatchAttempts(w, t, WatchSends(peers, txId, timeout), txId, raiseErrors)
    requires k < |peers| && forall i | 0 <= i < k :: Retried(attempts[i], RetryPeer)
    requires Retried(attempts[k], RetryPeer) ==> k == |peers| - 1
    ensures WaitRun(w, t, peers, txId, timeout, raiseErrors)
            == Run(attempts[k], t + WatchSends(peers, txId, timeout)[..k + 1])
  {
    FailoverEnds(attempts, RetryPeer, FailedWaiting, k);
  }

  /** The peer is given up: it has no readable match and stopped with a status, or its
      stream broke off. */
  predicate GivenUp(stream: Stream<DeliverResponse>, txId: ProtoString) {
    var n := ReadableCount(stream.items);
    && FirstMatch(AllTransactions(stream.items[..n]), txId).None?
    && if n < |stream.items| then
         stream.items[n].status != 0
       else
         stream.end.Err? && (stream.end.error.RpcError? || stream.end.error.ConnectionError?)
  }

  lemma RetriedIffGivenUp(stream: Stream<DeliverResponse>, txId: ProtoString, raiseErrors: bool)
    ensures Retried(EventResult(stream, txId, raiseErrors), RetryPeer) <==> GivenUp(stream, txId)
  {
  }

  /** Commit-wait failover: peers are asked in order, each at most once, every one
      before the last was given up, and the last one only if all of them were. Its
      stream decides: its first match among the readable blocks is returned, or with
      `raiseErrors` raised by its code unless that is VALID; without a match the
      error is the reason why reading stopped. */
  lemma CommitWaitFailover(w: World, t: Trace, peers: seq<Peer>, txId: ProtoString, timeout: int, raiseErrors: bool)
    requires peers != []
    ensures var run := WaitRun(w, t, peers, txId, timeout, raiseErrors);
            var asked := |run.trace| - |t|;
            var items := w.deliver(run.trace).items;
            var found := FirstMatch(AllTransactions(items[..ReadableCount(items)]), txId);
            && 0 < asked <= |peers|
            && t <= run.trace
            && (forall j | |t| <= j < |run.trace| :: run.trace[j] == Watch(peers[j - |t|], txId, timeout))
            && (forall m | |t| < m < |run.trace| :: GivenUp(w.deliver(run.trace[..m]), txId))
            && (GivenUp(w.deliver(run.trace), txId) ==> asked == |peers| && run.result.Err?)
            && (found.None? ==> run.result == Err(StopError(w.deliver(run.trace))))
            && (found.Some? ==>
                  var code := found.value.validationCode;
                  run.result == if !raiseErrors || code == 0 then Ok(found.value)
                                else if 0 <= code <= 24 || code == 254 || code == 255 then
                                  Err(TransactionValidationError(code))
                                else
                                  Err(ValueError(UnknownValidationCode)))
  {
    var sends := WatchSends(peers, txId, timeout);
    var attempts := WatchAttempts(w, t, sends, txId, raiseErrors);
    FailoverIs(attempts, RetryPeer, FailedWaiting);
    var trace := t + sends[..Made(attempts, RetryPeer)];
    SentInOrder(t, sends, Made(attempts, RetryPeer));
    forall m | |t| < m <= |trace|
      ensures EventResult(w.deliver(trace[..m]), txId, raiseErrors) == attempts[m - |t| - 1]
      ensures Retried(attempts[m - |t| - 1], RetryPeer) <==> GivenUp(w.deliver(trace[..m]), txId)
    {
      assert trace[..m] == t + sends[..m - |t|];
      RetriedIffGivenUp(w.deliver(trace[..m]), txId, raiseErrors);
    }
    assert trace[..|trace|] == trace;
  }

  // ------------------------------------------------------------ making the calls

  class Connection {
    const world: World
    var trace: Trace

    constructor (world: World)
      ensures this.world == world && trace == []
    {
      this.world := world;
      trace := [];
    }

    method ProcessProposal(peer: Peer, proposal: SignedProposal) returns (r: Outcome<ProposalResponse>)
      modifies this
      ensures trace == old(trace) + [ToPeer(peer, proposal)]
      ensures r == HandleConnErrors(world.endorse(trace))
    {
      trace := trace + [ToPeer(peer, proposal)];
      r := HandleConnErrors(world.endorse(trace));
    }

    method ProposeTx(peers: seq<Peer>, g: GeneratedTX) returns (r: Outcome<EndorsedTX>)
      modifies this
      ensures Run(r, trace) == ProposeRun(world, old(trace), peers, g)
    {
      if peers == [] {
        return Err(ValueError(NoPeers));
      }
      ghost var t, sends := trace, PeerSends(peers, g.signedProposal);
      var answers: seq<Outcome<ProposalResponse>> := [];
      var i := 0;
      while i < |peers|
        invariant i <= |peers| && |answers| == i
        invariant trace == t + sends[..i]
        invariant forall k | 0 <= k < i :: answers[k] == HandleConnErrors(world.endorse(t + sends[..k + 1]))
      {
        var answer := ProcessProposal(peers[i], g.signedProposal);
        NextSend(t, sends, i);
        answers := answers + [answer];
        i := i + 1;
      }
      assert sends[..i] == sends;
      assert answers == PeerAnswers(world, t, sends);
      var gathered := Gathered(answers, world.race(trace));
      r := if gathered.Ok? then Ok(Endorse(g, gathered.value)) else Err(gathered.error);
    }

    method BroadcastToOrderer(envelope: Envelope, orderer: Orderer, txId: ProtoString)
      returns (r: Outcome<Option<BroadcastResponse>>)
      modifies this
      ensures trace == old(trace) + [ToOrderer(orderer, envelope, txId)]
      ensures r == BroadcastResult(world.broadcast(trace), txId)
    {
      trace := trace + [ToOrderer(orderer, envelope, txId)];
      r := BroadcastResult(world.broadcast(trace), txId);
    }

    method BroadcastToOrderers(envelope: Envelope, orderers: seq<Orderer>, txId: ProtoString)
      returns (r: Outcome<Option<BroadcastResponse>>)
      modifies this
      ensures Run(r, trace) == BroadcastRun(world, old(trace), envelope, orderers, txId)
    {
      ghost var t, sends := trace, OrdererSends(orderers, envelope, txId);
      ghost var attempts := OrdererAttempts(world, t, sends, txId);
      if orderers == [] {
        assert t + sends[..0] == t;
        return Err(ValueError(NoOrderers));
      }
      var error: Error := ValueError(NoOrderers);
      var i := 0;
      while i < |orderers|
        invariant i <= |orderers|
        invariant trace == t + sends[..i]
        invariant forall k | 0 <= k < i :: Retried(attempts[k], RetryOrderer)
        invariant i > 0 ==> attempts[i - 1] == Err(error)
      {
        var attempt := BroadcastToOrderer(envelope, orderers[i], txId);
        NextSend(t, sends, i);
        assert trace == t + sends[..i + 1];
        assert attempt == attempts[i];
        if attempt.Err? && attempt.error.BlockchainConnectionError? {
          error := attempt.error;
        } else {
          FailoverEnds(attempts, RetryOrderer, ValueError(NoOrderers), i);
          return attempt;
        }
        i := i + 1;
      }
      FailoverEnds(attempts, RetryOrderer, ValueError(NoOrderers), i - 1);
      r := Err(error);
    }

    method CommitTx(requestor: User, orderers: seq<Orderer>, e: EndorsedTX)
      returns (r: Outcome<Option<BroadcastResponse>>)
      modifies this
      ensures Run(r, trace) == CommitRun(world, old(trace), requestor, orderers, e)
    {
      var envelope := BuildEndorsedTxEnvelope(e, requestor);
      if envelope.None? {
        return Err(IndexError);
      }
      r := BroadcastToOrderers(envelope.value, orderers, e.txContext.txId);
    }

    /** One peer's event hub; with `raiseErrors` the validation code is checked too. */
    method WatchPeer(peer: Peer, txId: ProtoString, timeout: int, raiseErrors: bool) returns (r: Outcome<FilteredTX>)
      modifies this
      ensures trace == old(trace) + [Watch(peer, txId, timeout)]
      ensures r == EventResult(world.deliver(trace), txId, raiseErrors)
    {
      trace := trace + [Watch(peer, txId, timeout)];
      r := GetTransaction(world.deliver(trace), txId);
      if raiseErrors {
        r := Checked(r);
      }
    }
  }
}
