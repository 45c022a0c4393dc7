/** The transaction builder of a gateway (snakeskin/models/gateway.py). */
module Builder {
  import opened Wrappers
  import opened Messages
  import opened Transactions
  import opened Network

  datatype Gateway = Gateway(endorsingPeers: seq<Peer>, orderers: seq<Orderer>, requestor: User)

  /** A queued operation, with the arguments its closure captured. */
  datatype Operation =
    | Propose(raiseErrors: bool)
    | Submit
    | WaitForCommit(raiseErrors: bool, timeout: int)

  // ------------------------------------------------------ what an await computes

  /** What the operations of a builder have achieved. `shipped` records the
      transactions that were handed to an orderer. */
  datatype Progress = Progress(
    endorsed: Option<EndorsedTX>, filtered: Option<FilteredTX>, committed: bool, shipped: seq<EndorsedTX>)

  const NoProgress := Progress(None, None, false, [])

  /** The fixed surroundings of a builder. */
  datatype Setting = Setting(world: World, gateway: Gateway, transaction: GeneratedTX)

  datatype Ran = Ran(result: Outcome<()>, progress: Progress, trace: Trace)

  function RunPropose(c: Setting, raiseErrors: bool, p: Progress, t: Trace): Ran {
    var run := ProposeRun(c.world, t, c.gateway.endorsingPeers, c.transaction);
    if run.result.Err? then
      Ran(Err(run.result.error), p, run.trace)
    else
      var after := p.(endorsed := Some(run.result.value));
      Ran(if raiseErrors then RaiseProposalError(run.result.value) else Ok(()), after, run.trace)
  }

  function RunSubmit(c: Setting, p: Progress, t: Trace): Ran {
    if p.endorsed.None? then
      Ran(Err(ValueError(MustPropose)), p, t)
    else
      var e := p.endorsed.value;
      var run := CommitRun(c.world, t, c.gateway.requestor, c.gateway.orderers, e);
      var shipped := if |t| < |run.trace| then p.shipped + [e] else p.shipped;
      if run.result.Err? then
        Ran(Err(run.result.error), p.(shipped := shipped), run.trace)
      else
        Ran(Ok(()), p.(shipped := shipped, committed := true), run.trace)
  }

  function RunWait(c: Setting, raiseErrors: bool, timeout: int, p: Progress, t: Trace): Ran {
    if !p.committed then
      Ran(Err(ValueError(MustCommit)), p, t)
    else if c.gateway.endorsingPeers == [] then
      Ran(Err(FailedWaiting), p, t)
    else if p.endorsed.None? then
      Ran(Err(AttributeError), p, t)
    else
      var run := WaitRun(c.world, t, c.gateway.endorsingPeers, p.endorsed.value.txContext.txId, timeout, raiseErrors);
      if run.result.Err? then
        Ran(Err(run.result.error), p, run.trace)
      else
        Ran(Ok(()), p.(filtered := Some(run.result.value)), run.trace)
  }

  function RunOperation(c: Setting, op: Operation, p: Progress, t: Trace): Ran {
    match op
    case Propose(raiseErrors) => RunPropose(c, raiseErrors, p, t)
    case Submit => RunSubmit(c, p, t)
    case WaitForCommit(raiseErrors, timeout) => RunWait(c, raiseErrors, timeout, p, t)
  }

  /** Operations run in order, up to the first that fails. */
  function RunAll(c: Setting, ops: seq<Operation>, p: Progress, t: Trace): Ran
    decreases |ops|
  {
    if ops == [] then
      Ran(Ok(()), p, t)
    else
      var first := RunOperation(c, ops[0], p, t);
      if first.result.Err? then first else RunAll(c, ops[1..], first.progress, first.trace)
  }

  lemma RunAllStep(c: Setting, op: Operation, rest: seq<Operation>, p: Progress, t: Trace)
    ensures RunAll(c, [op] + rest, p, t)
            == var first := RunOperation(c, op, p, t);
               if first.result.Err? then first else RunAll(c, rest, first.progress, first.trace)
  {
    assert ([op] + rest)[1..] == rest;
  }

  /** Running one list of operations after another is running their concatenation. */
  lemma {:induction false} RunAllConcat(c: Setting, a: seq<Operation>, b: seq<Operation>, p: Progress, t: Trace)
    ensures RunAll(c, a + b, p, t)
            == var first := RunAll(c, a, p, t);
               if first.result.Err? then first else RunAll(c, b, first.progress, first.trace)
    decreases |a|
  {
    if a == [] {
      assert a + b == b;
    } else {
      var first := RunOperation(c, a[0], p, t);
      assert (a + b)[0] == a[0] && (a + b)[1..] == a[1..] + b;
      RunAllConcat(c, a[1..], b, first.progress, first.trace);
    }
  }

  // -------------------------------------------------- what each operation achieves

  /** Every peer answered, and these are the answers. */
  ghost predicate AllAnswered(w: World, t: Trace, sent: Trace, responses: seq<ProposalResponse>) {
    && |responses| == |sent| - |t|
    && forall m | |t| < m <= |sent| :: w.endorse(sent[..m]) == Ok(responses[m - |t| - 1])
  }

  /** A propose sends the signed proposal to every peer in turn. If all answer, the
      endorsed transaction is stored, and then the operation fails only if it is to
      raise errors and some answer is not 200; otherwise nothing is stored and the
      error is that of some peer. */
  lemma ProposeOperation(c: Setting, raiseErrors: bool, p: Progress, t: Trace)
    ensures var ran := RunPropose(c, raiseErrors, p, t);
            var peers, g := c.gateway.endorsingPeers, c.transaction;
            && (peers == [] ==> ran == Ran(Err(ValueError(NoPeers)), p, t))
            && t <= ran.trace && |ran.trace| == |t| + |peers|
            && (forall j | |t| <= j < |ran.trace| :: ran.trace[j] == ToPeer(peers[j - |t|], g.signedProposal))
            && (peers != [] ==>
                  if forall m | |t| < m <= |ran.trace| :: c.world.endorse(ran.trace[..m]).Ok? then
                    exists responses: seq<ProposalResponse> :: AllAnswered(c.world, t, ran.trace, responses)
                      && var e := EndorsedTX(responses, g.proposal, g.header, g.txContext);
                         && ran.progress == p.(endorsed := Some(e))
                         && ran.result == if raiseErrors && exists r <- responses :: r.response.status != 200
                                          then Err(TransactionProposalError(e)) else Ok(())
                  else
                    && ran.progress == p
                    && exists m | |t| < m <= |ran.trace| ::
                         c.world.endorse(ran.trace[..m]).Err?
                         && RaisedAs(ran.result, c.world.endorse(ran.trace[..m]).error))
  {
    if c.gateway.endorsingPeers != [] {
      ProposeOutcome(c.world, t, c.gateway.endorsingPeers, c.transaction);
      var run := ProposeRun(c.world, t, c.gateway.endorsingPeers, c.transaction);
      if run.result.Ok? {
        assert AllAnswered(c.world, t, run.trace, run.result.value.peerResponses);
      }
    }
  }

  /** A submit needs a stored transaction with an answer, and an orderer. It sends the
      envelope of that transaction to one orderer after another, and the stream of
      the last one decides; the builder is committed if that is a success. */
  lemma SubmitOperation(c: Setting, p: Progress, t: Trace)
    ensures var ran := RunSubmit(c, p, t);
            var orderers, stream := c.gateway.orderers, c.world.broadcast(ran.trace);
            if p.endorsed.None? then
              ran == Ran(Err(ValueError(MustPropose)), p, t)
            else if p.endorsed.value.peerResponses == [] then
              ran == Ran(Err(IndexError), p, t)
            else if orderers == [] then
              ran == Ran(Err(ValueError(NoOrderers)), p, t)
            else
              var e := p.endorsed.value;
              && t <= ran.trace && |t| < |ran.trace| <= |t| + |orderers|
              && (forall j | |t| <= j < |ran.trace| ::
                    ran.trace[j] == ToOrderer(orderers[j - |t|],
                                              BuildEndorsedTxEnvelope(e, c.gateway.requestor).value, e.txContext.txId))
              && (forall m | |t| < m < |ran.trace| :: Unreachable(c.world.broadcast(ran.trace[..m])))
              && (Unreachable(stream) ==> |ran.trace| == |t| + |orderers|)
              && ran.progress == p.(shipped := p.shipped + [e], committed := p.committed || ran.result.Ok?)
              && if stream.items == [] then
                   if stream.end.Ok? then ran.result == Ok(()) else RaisedAs(ran.result, stream.end.error)
                 else if stream.items[0].status == 200 then
                   ran.result == Ok(())
                 else
                   ran.result == Err(TransactionCommitError(stream.items[0].status, e.txContext.txId))
  {
    if p.endorsed.Some? && p.endorsed.value.peerResponses != [] {
      var e := p.endorsed.value;
      var envelope := BuildEndorsedTxEnvelope(e, c.gateway.requestor).value;
      if c.gateway.orderers == [] {
        NoOrdererToBroadcastTo(c.world, t, envelope, e.txContext.txId);
      } else {
        OrdererFailover(c.world, t, envelope, c.gateway.orderers, e.txContext.txId);
      }
    }
  }

  /** A wait needs a commit and a peer. It watches for the stored transaction on one
      peer after another, each with the given timeout, and the stream of the last one
      decides: its first readable match is stored if errors are not to be raised or it
      is VALID; otherwise nothing is stored. */
  lemma WaitOperation(c: Setting, raiseErrors: bool, timeout: int, p: Progress, t: Trace)
    ensures var ran := RunWait(c, raiseErrors, timeout, p, t);
            var peers, stream := c.gateway.endorsingPeers, c.world.deliver(ran.trace);
            if !p.committed then
              ran == Ran(Err(ValueError(MustCommit)), p, t)
            else if peers == [] then
              ran == Ran(Err(FailedWaiting), p, t)
            else if p.endorsed.None? then
              ran == Ran(Err(AttributeError), p, t)
            else
              var txId := p.endorsed.value.txContext.txId;
              var found := FirstMatch(AllTransactions(stream.items[..ReadableCount(stream.items)]), txId);
              && t <= ran.trace && |t| < |ran.trace| <= |t| + |peers|
              && (forall j | |t| <= j < |ran.trace| :: ran.trace[j] == Watch(peers[j - |t|], txId, timeout))
              && (forall m | |t| < m < |ran.trace| :: GivenUp(c.world.deliver(ran.trace[..m]), txId))
              && (GivenUp(stream, txId) ==> |ran.trace| == |t| + |peers|)
              && if found.None? then
                   ran.result == Err(StopError(stream)) && ran.progress == p
                 else if !raiseErrors || found.value.validationCode == 0 then
                   ran.result == Ok(()) && ran.progress == p.(filtered := found)
                 else
                   && ran.progress == p
                   && var code := found.value.validationCode;
                      ran.result == Err(if 0 <= code <= 24 || code == 254 || code == 255
                                        then TransactionValidationError(code)
                                        else ValueError(UnknownValidationCode))
  {
    if p.committed && c.gateway.endorsingPeers != [] && p.endorsed.Some? {
      CommitWaitFailover(c.world, t, c.gateway.endorsingPeers, p.endorsed.value.txContext.txId, timeout, raiseErrors);
    }
  }

  datatype State = State(queue: seq<Operation>, progress: Progress, trace: Trace)

  datatype Awaited = Awaited(result: Outcome<EndorsedTX>, state: State)

  /** The queue is cleared only when every operation succeeded. */
  function Await(c: Setting, s: State): Awaited {
    if s.queue == [] then
      Awaited(Err(NeverProposed), s)
    else
      var ran := RunAll(c, s.queue, s.progress, s.trace);
      if ran.result.Err? then
        Awaited(Err(ran.result.error), State(s.queue, ran.progress, ran.trace))
      else
        Awaited(if ran.progress.endorsed.Some? then Ok(ran.progress.endorsed.value) else Err(NeverProposed),
                State([], ran.progress, ran.trace))
  }

  // ------------------------------------------------------------------ the builder

  class GatewayTXBuilder {
    const gateway: Gateway
    const transaction: GeneratedTX
    const connection: Connection
    var endorsedTx: Option<EndorsedTX>
    var filteredTx: Option<FilteredTX>
    var committed: bool
    var operations: Option<seq<Operation>>
    ghost var shipped: seq<EndorsedTX>

    ghost function Surroundings(): Setting {
      Setting(connection.world, gateway, transaction)
    }

    ghost function Achieved(): Progress
      reads this
    {
      Progress(endorsedTx, filteredTx, committed, shipped)
    }

    /** No list and an empty list of operations are the same to every method. */
    ghost function Abstract(): State
      reads this, connection
    {
      State(operations.GetOr([]), Achieved(), connection.trace)
    }

    constructor (gateway: Gateway, transaction: GeneratedTX, connection: Connection)
      ensures this.gateway == gateway && this.transaction == transaction && this.connection == connection
      ensures Abstract() == State([], NoProgress, connection.trace)
    {
      this.gateway, this.transaction, this.connection := gateway, transaction, connection;
      endorsedTx, filteredTx, committed, operations := None, None, false, None;
      shipped := [];
    }

    method AddOperation(op: Operation)
      modifies this`operations
      ensures Abstract() == old(Abstract()).(queue := old(Abstract()).queue + [op])
    {
      if operations.Some? && operations.value != [] {
        operations := Some(operations.value + [op]);
      } else {
        operations := Some([op]);
      }
    }

    method Propose(raiseErrors: bool := true)
      modifies this`operations
      ensures Abstract() == old(Abstract()).(queue := old(Abstract()).queue + [Operation.Propose(raiseErrors)])
    {
      AddOperation(Operation.Propose(raiseErrors));
    }

    method Submit()
      modifies this`operations
      ensures Abstract() == old(Abstract()).(queue := old(Abstract()).queue + [Operation.Submit])
    {
      AddOperation(Operation.Submit);
    }

    method WaitForCommit(raiseErrors: bool := true, timeout: int := 30)
      modifies this`operations
      ensures Abstract()
              == old(Abstract()).(queue := old(Abstract()).queue + [Operation.WaitForCommit(raiseErrors, timeout)])
    {
      AddOperation(Operation.WaitForCommit(raiseErrors, timeout));
    }

    method OperatePropose(raiseErrors: bool) returns (r: Outcome<()>)
      modifies this`endorsedTx, connection
      ensures Ran(r, Achieved(), connection.trace)
              == RunPropose(Surroundings(), raiseErrors, old(Achieved()), old(connection.trace))
    {
      var proposed := connection.ProposeTx(gateway.endorsingPeers, transaction);
      if proposed.Err? {
        return Err(proposed.error);
      }
      endorsedTx := Some(proposed.value);
      r := if raiseErrors then RaiseProposalError(proposed.value) else Ok(());
    }

    method OperateSubmit() returns (r: Outcome<()>)
      modifies this`committed, this`shipped, connection
      ensures Ran(r, Achieved(), connection.trace) == RunSubmit(Surroundings(), old(Achieved()), old(connection.trace))
    {
      if endorsedTx.None? {
        return Err(ValueError(MustPropose));
      }
      var committing := connection.CommitTx(gateway.requestor, gateway.orderers, endorsedTx.value);
      if |old(connection.trace)| < |connection.trace| {
        shipped := shipped + [endorsedTx.value];
      }
      if committing.Err? {
        return Err(committing.error);
      }
      committed := true;
      r := Ok(());
    }

    method OperateWait(raiseErrors: bool, timeout: int) returns (r: Outcome<()>)
      modifies this`filteredTx, connection
      ensures Ran(r, Achieved(), connection.trace)
              == RunWait(Surroundings(), raiseErrors, timeout, old(Achieved()), old(connection.trace))
    {
      if !committed {
        return Err(ValueError(MustCommit));
      }
      if gateway.endorsingPeers == [] {
        return Err(FailedWaiting);
      }
      if endorsedTx.None? {
        return Err(AttributeError);
      }
      var watched := WatchPeers(endorsedTx.value.txContext.txId, raiseErrors, timeout);
      if watched.Err? {
        return Err(watched.error);
      }
      filteredTx := Some(watched.value);
      r := Ok(());
    }

    /** Tries all peers unless one neither fails to connect nor to deliver. */
    method WatchPeers(txId: ProtoString, raiseErrors: bool, timeout: int) returns (r: Outcome<FilteredTX>)
      modifies connection
      ensures Run(r, connection.trace)
              == WaitRun(connection.world, old(connection.trace), gateway.endorsingPeers, txId, timeout, raiseErrors)
    {
      var peers := gateway.endorsingPeers;
      var error: Error := FailedWaiting;
      ghost var t, sends := connection.trace, WatchSends(peers, txId, timeout);
      ghost var attempts := WatchAttempts(connection.world, t, sends, txId, raiseErrors);
      var i := 0;
      while i < |peers|
        invariant i <= |peers|
        invariant connection.trace == t + sends[..i]
        invariant forall k | 0 <= k < i :: Retried(attempts[k], RetryPeer)
        invariant if i == 0 then error == FailedWaiting else attempts[i - 1] == Err(error)
      {
        var watched := connection.WatchPeer(peers[i], txId, timeout, raiseErrors);
        NextSend(t, sends, i);
        assert connection.trace == t + sends[..i + 1];
        assert watched == attempts[i];
        if watched.Ok? || !RetryPeer(watched.error) {
          WaitEnds(connection.world, t, peers, txId, timeout, raiseErrors, attempts, i);
          return watched;
        }
        error := watched.error;
        i := i + 1;
      }
      if i > 0 {
        WaitEnds(connection.world, t, peers, txId, timeout, raiseErrors, attempts, i - 1);
      }
      r := Err(error);
    }

    method Operate(op: Operation) returns (r: Outcome<()>)
      modifies this`endorsedTx, this`filteredTx, this`committed, this`shipped, connection
      ensures Ran(r, Achieved(), connection.trace)
              == RunOperation(Surroundings(), op, old(Achieved()), old(connection.trace))
    {
      match op
      case Propose(raiseErrors) => r := OperatePropose(raiseErrors);
      case Submit => r := OperateSubmit();
      case WaitForCommit(raiseErrors, timeout) => r := OperateWait(raiseErrors, timeout);
    }

    /** Awaiting the builder. */
    method RunOperations() returns (r: Outcome<EndorsedTX>)
      modifies this, connection
      ensures Awaited(r, Abstract()) == Await(Surroundings(), old(Abstract()))
    {
      if operations.None? || operations.value == [] {
        return Err(NeverProposed);
      }
      var ops := operations.value;
      ghost var c, p, t := Surroundings(), Achieved(), connection.trace;
      var i := 0;
      while i < |ops|
        invariant i <= |ops| && operations == Some(ops)
        invariant RunAll(c, ops, p, t) == RunAll(c, ops[i..], Achieved(), connection.trace)
      {
        var ran := Operate(ops[i]);
        assert ops[i..][1..] == ops[i + 1..];
        if ran.Err? {
          return Err(ran.error);
        }
        i := i + 1;
      }
      operations := Some([]);
      if endorsedTx.Some? {
        return Ok(endorsedTx.value);
      }
      r := Err(NeverProposed);
    }
  }
}
