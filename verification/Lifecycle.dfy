/** Properties of a builder over every history of chained calls and awaits. */
module Lifecycle {
  import opened Wrappers
  import opened Wire
  import opened Messages
  import opened Transactions
  import opened Decoded
  import opened Network
  import opened Builder
  import RoundTrip

  datatype Action = Add(op: Operation) | AwaitBuilder

  type History = seq<Action>

  function Step(c: Setting, s: State, a: Action): State {
    match a
    case Add(op) => s.(queue := s.queue + [op])
    case AwaitBuilder => Await(c, s).state
  }

  /** The state after a history that began with a new builder when `t0` had been sent. */
  function After(c: Setting, t0: Trace, h: History): State {
    if h == [] then
      State([], NoProgress, t0)
    else
      Step(c, After(c, t0, h[..|h| - 1]), h[|h| - 1])
  }

  // ---------------------------------------------------------- the builder invariant

  /** `e` holds the answers of all peers, in order, to the proposal of the
      generated transaction as sent from position `k` of the trace. */
  ghost predicate AnsweredAt(c: Setting, t: Trace, k: nat, e: EndorsedTX) {
    var peers := c.gateway.endorsingPeers;
    && e == Endorse(c.transaction, e.peerResponses)
    && |e.peerResponses| == |peers| > 0
    && k + |peers| <= |t|
    && forall i | 0 <= i < |peers| ::
         && t[k + i] == ToPeer(peers[i], c.transaction.signedProposal)
         && c.world.endorse(t[..k + i + 1]) == Ok(e.peerResponses[i])
  }

  ghost predicate Answered(c: Setting, t: Trace, e: EndorsedTX) {
    exists k :: AnsweredAt(c, t, k, e)
  }

  /** What a builder may send: its proposal, envelopes of transactions it shipped,
      and requests to watch for its own id. */
  ghost predicate OwnSend(c: Setting, shipped: seq<EndorsedTX>, send: Send) {
    match send
    case ToPeer(_, proposal) => proposal == c.transaction.signedProposal
    case ToOrderer(_, envelope, txId) =>
      && txId == c.transaction.txContext.txId
      && exists e <- shipped :: BuildEndorsedTxEnvelope(e, c.gateway.requestor) == Some(envelope)
    case Watch(_, txId, _) => txId == c.transaction.txContext.txId
  }

  ghost predicate Sound(c: Setting, t0: Trace, p: Progress, t: Trace) {
    && (p.filtered.Some? ==> p.committed)
    && (p.committed ==> p.endorsed.Some?)
    && (p.endorsed.Some? ==> Answered(c, t, p.endorsed.value))
    && (forall e <- p.shipped :: Answered(c, t, e))
    && t0 <= t
    && (forall j | |t0| <= j < |t| :: OwnSend(c, p.shipped, t[j]))
  }

  lemma AnswersStand(c: Setting, t: Trace, more: Trace, e: EndorsedTX)
    requires Answered(c, t, e)
    ensures Answered(c, t + more, e)
  {
    var k :| AnsweredAt(c, t, k, e);
    assert forall n | 0 <= n <= |t| :: (t + more)[..n] == t[..n];
    assert AnsweredAt(c, t + more, k, e);
  }

  /** Sending more of the builder's own, and shipping more, keeps what was sound. */
  lemma SoundExtends(c: Setting, t0: Trace, p: Progress, t: Trace, more: Trace, shipped: seq<EndorsedTX>)
    requires Sound(c, t0, p, t)
    requires p.shipped <= shipped
    requires forall e <- shipped :: e in p.shipped || Answered(c, t, e)
    requires forall send <- more :: OwnSend(c, shipped, send)
    ensures Sound(c, t0, p.(shipped := shipped), t + more)
  {
    if p.endorsed.Some? {
      AnswersStand(c, t, more, p.endorsed.value);
    }
    forall e | e in shipped
      ensures Answered(c, t + more, e)
    {
      AnswersStand(c, t, more, e);
    }
    forall j | |t0| <= j < |t + more|
      ensures OwnSend(c, shipped, (t + more)[j])
    {
      if j < |t| {
        assert OwnSend(c, p.shipped, t[j]);
      } else {
        assert more[j - |t|] in more;
      }
    }
  }

  lemma ProposalIsAnswered(c: Setting, t: Trace)
    requires ProposeRun(c.world, t, c.gateway.endorsingPeers, c.transaction).result.Ok?
    ensures var run := ProposeRun(c.world, t, c.gateway.endorsingPeers, c.transaction);
            Answered(c, run.trace, run.result.value)
  {
    var peers := c.gateway.endorsingPeers;
    var sends := PeerSends(peers, c.transaction.signedProposal);
    var answers := PeerAnswers(c.world, t, sends);
    var trace := t + sends;
    var e := Endorse(c.transaction, Values(answers));
    forall i | 0 <= i < |peers|
      ensures trace[|t| + i] == ToPeer(peers[i], c.transaction.signedProposal)
      ensures c.world.endorse(trace[..|t| + i + 1]) == Ok(e.peerResponses[i])
    {
      assert trace[..|t| + i + 1] == t + sends[..i + 1];
      assert answers[i] == HandleConnErrors(c.world.endorse(t + sends[..i + 1]));
    }
    assert AnsweredAt(c, trace, |t|, e);
  }

  lemma ProposeKeepsSound(c: Setting, raiseErrors: bool, t0: Trace, p: Progress, t: Trace)
    requires Sound(c, t0, p, t)
    ensures var ran := RunPropose(c, raiseErrors, p, t);
            Sound(c, t0, ran.progress, ran.trace)
  {
    var run := ProposeRun(c.world, t, c.gateway.endorsingPeers, c.transaction);
    if c.gateway.endorsingPeers != [] {
      var sends := PeerSends(c.gateway.endorsingPeers, c.transaction.signedProposal);
      SoundExtends(c, t0, p, t, sends, p.shipped);
      assert p.(shipped := p.shipped) == p;
      if run.result.Ok? {
        ProposalIsAnswered(c, t);
      }
    }
  }

  lemma SubmitKeepsSound(c: Setting, t0: Trace, p: Progress, t: Trace)
    requires Sound(c, t0, p, t)
    ensures var ran := RunSubmit(c, p, t);
            Sound(c, t0, ran.progress, ran.trace)
  {
    if p.endorsed.Some? {
      var e := p.endorsed.value;
      var run := CommitRun(c.world, t, c.gateway.requestor, c.gateway.orderers, e);
      var shipped := if |t| < |run.trace| then p.shipped + [e] else p.shipped;
      var more := CommitSends(c, t, e, shipped);
      SoundExtends(c, t0, p, t, more, shipped);
      assert p.(shipped := shipped, committed := true) == p.(shipped := shipped).(committed := true);
    }
  }

  /** Committing sends nothing but the envelope of the committed transaction. */
  lemma CommitSends(c: Setting, t: Trace, e: EndorsedTX, shipped: seq<EndorsedTX>) returns (more: Trace)
    requires e.txContext == c.transaction.txContext
    requires |t| < |CommitRun(c.world, t, c.gateway.requestor, c.gateway.orderers, e).trace| ==> e in shipped
    ensures CommitRun(c.world, t, c.gateway.requestor, c.gateway.orderers, e).trace == t + more
    ensures forall send <- more :: OwnSend(c, shipped, send)
  {
    var envelope := BuildEndorsedTxEnvelope(e, c.gateway.requestor);
    more := [];
    if envelope.Some? {
      var n := BroadcastSends(c.world, t, envelope.value, c.gateway.orderers, e.txContext.txId);
      more := OrdererSends(c.gateway.orderers, envelope.value, e.txContext.txId)[..n];
      forall i | 0 <= i < |more|
        ensures OwnSend(c, shipped, more[i])
      {
        assert more[i] == ToOrderer(c.gateway.orderers[i], envelope.value, e.txContext.txId);
        assert e in shipped;
      }
    }
  }

  lemma BroadcastSends(w: World, t: Trace, envelope: Envelope, orderers: seq<Orderer>, txId: ProtoString)
    returns (n: nat)
    ensures n <= |orderers|
    ensures BroadcastRun(w, t, envelope, orderers, txId).trace == t + OrdererSends(orderers, envelope, txId)[..n]
  {
    var sends := OrdererSends(orderers, envelope, txId);
    n := Made(OrdererAttempts(w, t, sends, txId), RetryOrderer);
  }

  lemma WaitKeepsSound(c: Setting, raiseErrors: bool, timeout: int, t0: Trace, p: Progress, t: Trace)
    requires Sound(c, t0, p, t)
    ensures var ran := RunWait(c, raiseErrors, timeout, p, t);
            Sound(c, t0, ran.progress, ran.trace)
  {
    if p.committed {
      var txId := p.endorsed.value.txContext.txId;
      var run := WaitRun(c.world, t, c.gateway.endorsingPeers, txId, timeout, raiseErrors);
      var n := |run.trace| - |t|;
      SoundExtends(c, t0, p, t, WatchSends(c.gateway.endorsingPeers, txId, timeout)[..n], p.shipped);
      assert p.(shipped := p.shipped) == p;
    }
  }

  lemma OneOperationKeepsSound(c: Setting, op: Operation, t0: Trace, p: Progress, t: Trace)
    requires Sound(c, t0, p, t)
    ensures var ran := RunOperation(c, op, p, t);
            && Sound(c, t0, ran.progress, ran.trace)
            && (ran.result.Ok? ==> ran.progress.endorsed.Some?)
  {
    match op {
      case Propose(raiseErrors) => ProposeKeepsSound(c, raiseErrors, t0, p, t);
      case Submit => SubmitKeepsSound(c, t0, p, t);
      case WaitForCommit(raiseErrors, timeout) => WaitKeepsSound(c, raiseErrors, timeout, t0, p, t);
    }
  }

  lemma {:induction false} RunAllKeepsSound(c: Setting, ops: seq<Operation>, t0: Trace, p: Progress, t: Trace)
    requires Sound(c, t0, p, t)
    ensures var ran := RunAll(c, ops, p, t);
            Sound(c, t0, ran.progress, ran.trace)
    decreases |ops|
  {
    if ops != [] {
      OneOperationKeepsSound(c, ops[0], t0, p, t);
      var first := RunOperation(c, ops[0], p, t);
      if first.result.Ok? {
        RunAllKeepsSound(c, ops[1..], t0, first.progress, first.trace);
      }
    }
  }

  /** Builder invariant: in every reachable state a stored filtered transaction
      implies committed, committed implies endorsed, every stored or shipped
      transaction holds the answers of one whole round of proposals in the trace,
      and everything sent is the builder's own. */
  lemma {:induction false} ReachableIsSound(c: Setting, t0: Trace, h: History)
    ensures Sound(c, t0, After(c, t0, h).progress, After(c, t0, h).trace)
  {
    if h != [] {
      ReachableIsSound(c, t0, h[..|h| - 1]);
      var s := After(c, t0, h[..|h| - 1]);
      RunAllKeepsSound(c, s.queue, t0, s.progress, s.trace);
    }
  }

  /** The stored transaction, if any, comes from the generated one, and a commit needs one. */
  predicate Coherent(g: GeneratedTX, p: Progress) {
    && (p.endorsed.Some? ==>
          p.endorsed.value.peerResponses != [] && p.endorsed.value.txContext == g.txContext)
    && (p.committed ==> p.endorsed.Some?)
  }

  lemma ReachableIsCoherent(c: Setting, t0: Trace, h: History)
    ensures Coherent(c.transaction, After(c, t0, h).progress)
  {
    ReachableIsSound(c, t0, h);
    var s := After(c, t0, h);
    if s.progress.endorsed.Some? {
      var k :| AnsweredAt(c, s.trace, k, s.progress.endorsed.value);
    }
  }

  lemma OperationKeepsCoherent(c: Setting, op: Operation, p: Progress, t: Trace)
    requires Coherent(c.transaction, p)
    ensures Coherent(c.transaction, RunOperation(c, op, p, t).progress)
  {
    match op
    case Propose(_) =>
    case Submit =>
    case WaitForCommit(_, _) =>
  }

  // ------------------------------------------------------------------------ awaits

  lemma {:induction false} SuccessMeansEndorsed(c: Setting, ops: seq<Operation>, t0: Trace, p: Progress, t: Trace)
    requires Sound(c, t0, p, t) && ops != []
    requires RunAll(c, ops, p, t).result.Ok?
    ensures RunAll(c, ops, p, t).progress.endorsed.Some?
    decreases |ops|
  {
    var first := RunOperation(c, ops[0], p, t);
    assert ops == [ops[0]] + ops[1..];
    RunAllStep(c, ops[0], ops[1..], p, t);
    OneOperationKeepsSound(c, ops[0], t0, p, t);
    if ops[1..] != [] {
      SuccessMeansEndorsed(c, ops[1..], t0, first.progress, first.trace);
    }
  }

  // No operation raises the error of an empty queue.

  lemma ProposeRaisesNoNeverProposed(c: Setting, raiseErrors: bool, p: Progress, t: Trace)
    ensures RunPropose(c, raiseErrors, p, t).result != Err(NeverProposed)
  {
    if c.gateway.endorsingPeers != [] {
      ProposeOutcome(c.world, t, c.gateway.endorsingPeers, c.transaction);
    }
  }

  lemma SubmitRaisesNoNeverProposed(c: Setting, p: Progress, t: Trace)
    ensures RunSubmit(c, p, t).result != Err(NeverProposed)
  {
    if p.endorsed.Some? && p.endorsed.value.peerResponses != [] && c.gateway.orderers != [] {
      var e := p.endorsed.value;
      var envelope := BuildEndorsedTxEnvelope(e, c.gateway.requestor).value;
      OrdererFailover(c.world, t, envelope, c.gateway.orderers, e.txContext.txId);
    }
  }

  lemma WaitRaisesNoNeverProposed(c: Setting, raiseErrors: bool, timeout: int, p: Progress, t: Trace)
    ensures RunWait(c, raiseErrors, timeout, p, t).result != Err(NeverProposed)
  {
    if p.endorsed.Some? && c.gateway.endorsingPeers != [] {
      CommitWaitFailover(c.world, t, c.gateway.endorsingPeers, p.endorsed.value.txContext.txId, timeout, raiseErrors);
    }
  }

  lemma {:induction false} RunRaisesNoNeverProposed(c: Setting, ops: seq<Operation>, p: Progress, t: Trace)
    ensures RunAll(c, ops, p, t).result != Err(NeverProposed)
    decreases |ops|
  {
    if ops != [] {
      match ops[0] {
        case Propose(raiseErrors) => ProposeRaisesNoNeverProposed(c, raiseErrors, p, t);
        case Submit => SubmitRaisesNoNeverProposed(c, p, t);
        case WaitForCommit(raiseErrors, timeout) => WaitRaisesNoNeverProposed(c, raiseErrors, timeout, p, t);
      }
      var first := RunOperation(c, ops[0], p, t);
      RunRaisesNoNeverProposed(c, ops[1..], first.progress, first.trace);
    }
  }

  /** In a reachable state "never proposed" is raised exactly of an empty queue; any
      other await raises the error of the operation that failed, or returns the
      endorsed transaction when none did. */
  lemma AwaitReturnsIff(c: Setting, t0: Trace, h: History)
    ensures var s := After(c, t0, h);
            var awaited := Await(c, s);
            var ran := RunAll(c, s.queue, s.progress, s.trace);
            && awaited.state == State(if ran.result.Ok? then [] else s.queue, ran.progress, ran.trace)
            && (awaited.result == Err(NeverProposed) <==> s.queue == [])
            && (s.queue != [] && ran.result.Err? ==> awaited.result == Err(ran.result.error))
            && (s.queue != [] && ran.result.Ok? ==>
                  ran.progress.endorsed.Some? && awaited.result == Ok(ran.progress.endorsed.value))
  {
    var s := After(c, t0, h);
    ReachableIsSound(c, t0, h);
    RunRaisesNoNeverProposed(c, s.queue, s.progress, s.trace);
    if s.queue != [] && RunAll(c, s.queue, s.progress, s.trace).result.Ok? {
      SuccessMeansEndorsed(c, s.queue, t0, s.progress, s.trace);
    }
  }

  /** The builder's own transaction is stored, and VALID where that was asked for. */
  predicate HasEvidence(c: Setting, p: Progress, valid: bool) {
    && p.filtered.Some?
    && p.filtered.value.txId == c.transaction.txContext.txId
    && (valid ==> p.filtered.value.validationCode == 0)
  }

  /** Commit evidence: an await that ends with a wait returns only with the builder's
      own transaction stored, and that is VALID if the wait raises errors. */
  lemma AwaitedCommitIsStored(c: Setting, t0: Trace, h: History)
    requires var s := After(c, t0, h);
             s.queue != [] && s.queue[|s.queue| - 1].WaitForCommit? && Await(c, s).result.Ok?
    ensures var s := After(c, t0, h);
            HasEvidence(c, Await(c, s).state.progress, s.queue[|s.queue| - 1].raiseErrors)
  {
    var s := After(c, t0, h);
    ReachableIsCoherent(c, t0, h);
    WaitLeavesEvidence(c, s.queue, s.progress, s.trace);
  }

  lemma {:induction false} WaitLeavesEvidence(c: Setting, ops: seq<Operation>, p: Progress, t: Trace)
    requires Coherent(c.transaction, p)
    requires ops != [] && ops[|ops| - 1].WaitForCommit? && RunAll(c, ops, p, t).result.Ok?
    ensures HasEvidence(c, RunAll(c, ops, p, t).progress, ops[|ops| - 1].raiseErrors)
    decreases |ops|
  {
    var first, rest := RunOperation(c, ops[0], p, t), ops[1..];
    if rest == [] {
      LastWait(c, ops, p, t);
    } else {
      assert rest[|rest| - 1] == ops[|ops| - 1];
      OperationKeepsCoherent(c, ops[0], p, t);
      WaitLeavesEvidence(c, rest, first.progress, first.trace);
    }
  }

  lemma LastWait(c: Setting, ops: seq<Operation>, p: Progress, t: Trace)
    requires Coherent(c.transaction, p)
    requires |ops| == 1 && ops[0].WaitForCommit? && RunAll(c, ops, p, t).result.Ok?
    ensures HasEvidence(c, RunAll(c, ops, p, t).progress, ops[0].raiseErrors)
  {
    var first := RunOperation(c, ops[0], p, t);
    assert RunAll(c, ops, p, t) == RunAll(c, ops[1..], first.progress, first.trace);
    WaitStoresMatch(c, ops[0].raiseErrors, ops[0].timeout, p, t);
  }

  lemma WaitStoresMatch(c: Setting, raiseErrors: bool, timeout: int, p: Progress, t: Trace)
    requires Coherent(c.transaction, p) && RunWait(c, raiseErrors, timeout, p, t).result.Ok?
    ensures HasEvidence(c, RunWait(c, raiseErrors, timeout, p, t).progress, raiseErrors)
  {
    var txId := p.endorsed.value.txContext.txId;
    CommitWaitFailover(c.world, t, c.gateway.endorsingPeers, txId, timeout, raiseErrors);
    var run := WaitRun(c.world, t, c.gateway.endorsingPeers, txId, timeout, raiseErrors);
    var items := c.world.deliver(run.trace).items;
    FirstMatchIsFirst(AllTransactions(items[..ReadableCount(items)]), txId);
  }

  // --------------------------------------------------------------------- id binding

  /** Id binding: in every history, every watch request and every envelope handed to
      an orderer carries the generated id, and an envelope that decodes decodes to
      that id, which is the hash of its own nonce and creator. */
  lemma IdIsBound(c: Setting, t0: Trace, h: History, request: Request, transientMap: TransientMap, j: nat)
    requires request.Generates(transientMap, c.transaction) && request.requestor == c.gateway.requestor
    requires |t0| <= j < |After(c, t0, h).trace|
    ensures var send := After(c, t0, h).trace[j];
            && (send.Watch? || send.ToOrderer? ==> send.txId == c.transaction.txContext.txId)
            && (send.ToOrderer? && |EnvelopeBytes(send.envelope)| < SIZE_LIMIT
                && DecodeTX(EnvelopeBytes(send.envelope)).Some? ==>
                  var d := DecodeTX(EnvelopeBytes(send.envelope)).value;
                  && d.TxId() == send.txId
                  && d.TxId() == HexDigest(request.requestor.suite.hash(
                                             d.header.signatureHeader.nonce
                                             + SerializedIdentityBytes(d.header.signatureHeader.creator))))
  {
    ReachableIsSound(c, t0, h);
    var s := After(c, t0, h);
    var send := s.trace[j];
    assert OwnSend(c, s.progress.shipped, send);
    if send.ToOrderer? && |EnvelopeBytes(send.envelope)| < SIZE_LIMIT && DecodeTX(EnvelopeBytes(send.envelope)).Some? {
      var e :| e in s.progress.shipped && BuildEndorsedTxEnvelope(e, c.gateway.requestor) == Some(send.envelope);
      assert Answered(c, s.trace, e);
      RoundTrip.DecodedIdIsBound(request, transientMap, c.transaction, e.peerResponses, send.envelope);
    }
  }

  // --------------------------------------------------------------------- the queue

  /** How many actions of a history there are up to the last await that returned. */
  function LastReturn(c: Setting, t0: Trace, h: History): (n: nat)
    ensures n <= |h|
  {
    if h == [] then
      0
    else
      var before := h[..|h| - 1];
      if h[|h| - 1] == AwaitBuilder && Await(c, After(c, t0, before)).result.Ok?
      then |h|
      else LastReturn(c, t0, before)
  }

  function Added(h: History): seq<Operation> {
    if h == [] then
      []
    else
      Added(h[..|h| - 1]) + match h[|h| - 1] case Add(op) => [op] case AwaitBuilder => []
  }

  lemma QueueAfterAwait(c: Setting, t0: Trace, h: History)
    ensures var s := After(c, t0, h);
            Await(c, s).state.queue == if Await(c, s).result.Ok? then [] else s.queue
  {
    AwaitReturnsIff(c, t0, h);
  }

  /** Queue law: after any history the queue is exactly the operations added since
      the last await that returned, in order. A failed await leaves it unchanged. */
  lemma {:induction false} QueueLaw(c: Setting, t0: Trace, h: History)
    ensures After(c, t0, h).queue == Added(h[LastReturn(c, t0, h)..])
  {
    if h != [] {
      var before := h[..|h| - 1];
      QueueLaw(c, t0, before);
      QueueAfterAwait(c, t0, before);
      var n := LastReturn(c, t0, h);
      if n < |h| {
        assert h[n..][..|h[n..]| - 1] == before[n..];
      }
    }
  }
}
