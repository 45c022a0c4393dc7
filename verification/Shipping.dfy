/** When a builder ships only fully endorsed transactions. */
module Shipping {
  import opened Wrappers
  import opened Messages
  import opened Transactions
  import opened Network
  import opened Builder
  import opened Lifecycle

  ghost predicate AllFull(shipped: seq<EndorsedTX>) {
    forall e <- shipped :: e.FullyEndorsed()
  }

  // --------------------------------------------------------- what may happen next

  /** What is known of the stored transaction: there is none, no peer refused it, or some did. */
  datatype Standing = Absent | Full | Risky

  function StandingOf(p: Progress): Standing {
    if p.endorsed.None? then Absent else if p.endorsed.value.FullyEndorsed() then Full else Risky
  }

  /** How a network treats one message: it accepts it, it refuses it, or it fails. */
  datatype Verdict = Good | Refuse | Break

  /** One way an operation can go: the verdict on everything it sends, the number of
      messages sent, what is known afterwards, and whether the operation succeeds. */
  datatype Turn = Turn(verdict: Verdict, sends: nat, standing: Standing, committed: bool, ok: bool)

  function Turns(gateway: Gateway, op: Operation, s: Standing, committed: bool): seq<Turn> {
    var peers := |gateway.endorsingPeers|;
    var stuck := [Turn(Break, 0, s, committed, false)];
    match op
    case Propose(raiseErrors) =>
      if peers == 0 then
        stuck
      else
        [Turn(Break, peers, s, committed, false), Turn(Good, peers, Full, committed, true),
         Turn(Refuse, peers, Risky, committed, !raiseErrors)]
    case Submit =>
      if s == Absent || gateway.orderers == [] then
        stuck
      else
        [Turn(Break, 1, s, committed, false), Turn(Good, 1, s, true, true)]
    case WaitForCommit(_, _) =>
      if !committed || peers == 0 then
        stuck
      else
        [Turn(Break, 1, s, committed, false), Turn(Good, 1, s, committed, true)]
  }

  /** The operation hands a transaction to an orderer that some peer refused. */
  predicate ShipsRefused(gateway: Gateway, op: Operation, s: Standing) {
    op.Submit? && s == Risky && gateway.orderers != []
  }

  /** A scan of a history without any network: `queue` waits to be run, and a failed
      await leaves it there. */
  predicate SafeFrom(gateway: Gateway, queue: seq<Operation>, s: Standing, committed: bool, h: History)
    decreases |h|, 0
  {
    h == [] ||
    match h[0]
    case Add(op) => SafeFrom(gateway, queue + [op], s, committed, h[1..])
    case AwaitBuilder => SafeRunning(gateway, queue, queue, s, committed, h[1..])
  }

  /** `ops` is what remains of the queue during an await, and `rest` follows it. */
  predicate SafeRunning(gateway: Gateway, queue: seq<Operation>, ops: seq<Operation>, s: Standing, committed: bool,
                        rest: History)
    decreases |rest|, |ops| + 1
  {
    if ops == [] then
      SafeFrom(gateway, [], s, committed, rest)
    else
      && !ShipsRefused(gateway, ops[0], s)
      && forall u <- Turns(gateway, ops[0], s, committed) ::
           if u.ok then
             SafeRunning(gateway, queue, ops[1..], u.standing, u.committed, rest)
           else
             SafeFrom(gateway, queue, u.standing, u.committed, rest)
  }

  // ------------------------------------------------ turns are what operations take

  predicate Takes(ran: Ran, u: Turn) {
    && ran.result.Ok? == u.ok
    && StandingOf(ran.progress) == u.standing
    && ran.progress.committed == u.committed
  }

  /** Whatever the network does, an operation takes one of its turns. */
  lemma OperationTakesTurn(c: Setting, op: Operation, p: Progress, t: Trace) returns (u: Turn)
    requires Coherent(c.transaction, p)
    ensures u in Turns(c.gateway, op, StandingOf(p), p.committed)
    ensures Takes(RunOperation(c, op, p, t), u)
    ensures Coherent(c.transaction, RunOperation(c, op, p, t).progress)
  {
    OperationKeepsCoherent(c, op, p, t);
    var ran := RunOperation(c, op, p, t);
    var turns := Turns(c.gateway, op, StandingOf(p), p.committed);
    match op
    case Propose(raiseErrors) => u := ProposeTakesTurn(c, raiseErrors, p, t);
    case Submit => u := SubmitTakesTurn(c, p, t);
    case WaitForCommit(_, _) => u := turns[if ran.result.Ok? then 1 else 0];
  }

  lemma ProposeTakesTurn(c: Setting, raiseErrors: bool, p: Progress, t: Trace) returns (u: Turn)
    ensures u in Turns(c.gateway, Propose(raiseErrors), StandingOf(p), p.committed)
    ensures Takes(RunPropose(c, raiseErrors, p, t), u)
  {
    var turns := Turns(c.gateway, Propose(raiseErrors), StandingOf(p), p.committed);
    var run := ProposeRun(c.world, t, c.gateway.endorsingPeers, c.transaction);
    u := turns[if run.result.Err? then 0 else if run.result.value.FullyEndorsed() then 1 else 2];
  }

  lemma SubmitTakesTurn(c: Setting, p: Progress, t: Trace) returns (u: Turn)
    requires Coherent(c.transaction, p)
    ensures u in Turns(c.gateway, Submit, StandingOf(p), p.committed)
    ensures Takes(RunSubmit(c, p, t), u)
  {
    var turns := Turns(c.gateway, Submit, StandingOf(p), p.committed);
    u := turns[if RunSubmit(c, p, t).result.Ok? then 1 else 0];
  }

  /** What an operation adds to what was shipped: nothing, or the stored transaction
      if it is a submit and there is an orderer to ship it to. */
  lemma OperationShips(c: Setting, op: Operation, p: Progress, t: Trace)
    requires Coherent(c.transaction, p)
    ensures RunOperation(c, op, p, t).progress.shipped
            == if op.Submit? && p.endorsed.Some? && c.gateway.orderers != []
               then p.shipped + [p.endorsed.value] else p.shipped
  {
    if op.Submit? && p.endorsed.Some? {
      var e := p.endorsed.value;
      var envelope := BuildEndorsedTxEnvelope(e, c.gateway.requestor).value;
      if c.gateway.orderers != [] {
        OrdererFailover(c.world, t, envelope, c.gateway.orderers, e.txContext.txId);
      }
    }
  }

  lemma ShippingStaysFull(c: Setting, op: Operation, p: Progress, t: Trace)
    requires Coherent(c.transaction, p)
    ensures AllFull(RunOperation(c, op, p, t).progress.shipped)
            <==> AllFull(p.shipped) && !ShipsRefused(c.gateway, op, StandingOf(p))
  {
    OperationShips(c, op, p, t);
    var shipped := RunOperation(c, op, p, t).progress.shipped;
    assert forall e <- p.shipped :: e in shipped;
    if ShipsRefused(c.gateway, op, StandingOf(p)) {
      assert p.endorsed.value in shipped;
    }
  }

  // ---------------------------------------------------------- histories, from the front

  function Continue(c: Setting, s: State, h: History): State
    decreases |h|
  {
    if h == [] then s else Continue(c, Step(c, s, h[0]), h[1..])
  }

  lemma {:induction false} ContinueStep(c: Setting, s: State, h: History)
    requires h != []
    ensures Continue(c, s, h) == Step(c, Continue(c, s, h[..|h| - 1]), h[|h| - 1])
    decreases |h|
  {
    if |h| > 1 {
      ContinueStep(c, Step(c, s, h[0]), h[1..]);
      assert h[1..][..|h| - 2] == h[..|h| - 1][1..];
    }
  }

  lemma {:induction false} AfterContinues(c: Setting, t0: Trace, h: History)
    ensures After(c, t0, h) == Continue(c, State([], NoProgress, t0), h)
  {
    if h != [] {
      AfterContinues(c, t0, h[..|h| - 1]);
      ContinueStep(c, State([], NoProgress, t0), h);
    }
  }

  /** The state an await leaves behind. */
  function Settled(queue: seq<Operation>, ran: Ran): State {
    State(if ran.result.Err? then queue else [], ran.progress, ran.trace)
  }

  lemma AwaitSettles(c: Setting, s: State)
    ensures Await(c, s).state == Settled(s.queue, RunAll(c, s.queue, s.progress, s.trace))
  {
  }

  // ------------------------------------------------------------ the scan is sound

  lemma {:induction false} SafeFromShipsFull(c: Setting, s: State, h: History)
    requires AllFull(s.progress.shipped) && Coherent(c.transaction, s.progress)
    requires SafeFrom(c.gateway, s.queue, StandingOf(s.progress), s.progress.committed, h)
    ensures AllFull(Continue(c, s, h).progress.shipped)
    decreases |h|, 0
  {
    if h != [] {
      match h[0]
      case Add(op) => SafeFromShipsFull(c, Step(c, s, h[0]), h[1..]);
      case AwaitBuilder =>
        AwaitSettles(c, s);
        SafeRunShipsFull(c, s.queue, s.queue, s.progress, s.trace, h[1..]);
    }
  }

  lemma {:induction false} SafeRunShipsFull(c: Setting, queue: seq<Operation>, ops: seq<Operation>, p: Progress,
                                            t: Trace, rest: History)
    requires AllFull(p.shipped) && Coherent(c.transaction, p)
    requires SafeRunning(c.gateway, queue, ops, StandingOf(p), p.committed, rest)
    ensures AllFull(Continue(c, Settled(queue, RunAll(c, ops, p, t)), rest).progress.shipped)
    decreases |rest|, |ops| + 1
  {
    if ops == [] {
      SafeFromShipsFull(c, State([], p, t), rest);
    } else {
      var first := RunOperation(c, ops[0], p, t);
      var u := OperationTakesTurn(c, ops[0], p, t);
      ShippingStaysFull(c, ops[0], p, t);
      if u.ok {
        SafeRunShipsFull(c, queue, ops[1..], first.progress, first.trace, rest);
      } else {
        SafeFromShipsFull(c, State(queue, first.progress, first.trace), rest);
      }
    }
  }

  // --------------------------------------------------------- the scan is complete

  /** A network whose verdict on a message depends only on how many were sent. */
  function ScriptedWorld(script: nat -> Verdict, txId: ProtoString): World {
    World(
      t => if script(|t|) == Break then Err(RpcError(14))
           else Ok(ProposalResponse(Response(if script(|t|) == Good then 200 else 500, []), [], Endorsement([], []))),
      t => 0,
      t => Stream([BroadcastResponse(if script(|t|) == Good then 200 else 500)], Ok(())),
      t => if script(|t|) == Good then Stream([DeliverResponse(0, [FilteredTX(txId, ENDORSER_TRANSACTION, 0)])], Ok(()))
           else Stream([], Err(TimeoutError)))
  }

  ghost predicate Scripted(c: Setting, script: nat -> Verdict) {
    c.world == ScriptedWorld(script, c.transaction.txContext.txId)
  }

  /** `part` is what the script says after the first `n` positions. */
  predicate Follows(script: nat -> Verdict, n: nat, part: seq<Verdict>) {
    forall i | 0 <= i < |part| :: script(n + 1 + i) == part[i]
  }

  function Times(n: nat, verdict: Verdict): (r: seq<Verdict>)
    ensures |r| == n && forall i | 0 <= i < n :: r[i] == verdict
  {
    seq(n, i => verdict)
  }

  lemma FollowsBoth(script: nat -> Verdict, n: nat, first: seq<Verdict>, second: seq<Verdict>)
    requires Follows(script, n, first + second)
    ensures Follows(script, n, first) && Follows(script, n + |first|, second)
  {
    forall i | 0 <= i < |first|
      ensures script(n + 1 + i) == first[i]
    {
      assert (first + second)[i] == first[i];
    }
    forall i | 0 <= i < |second|
      ensures script(n + |first| + 1 + i) == second[i]
    {
      assert script(n + 1 + (|first| + i)) == (first + second)[|first| + i];
    }
  }

  /** The scripted network makes an operation take the turn it is scripted for. */
  lemma OperationFollows(c: Setting, script: nat -> Verdict, op: Operation, p: Progress, t: Trace, u: Turn)
    requires Scripted(c, script) && Coherent(c.transaction, p)
    requires u in Turns(c.gateway, op, StandingOf(p), p.committed)
    requires Follows(script, |t|, Times(u.sends, u.verdict))
    ensures var ran := RunOperation(c, op, p, t);
            Takes(ran, u) && |ran.trace| == |t| + u.sends
  {
    match op
    case Propose(raiseErrors) => ProposeFollows(c, script, raiseErrors, p, t, u);
    case Submit => SubmitFollows(c, script, p, t, u);
    case WaitForCommit(raiseErrors, timeout) => WaitFollows(c, script, raiseErrors, timeout, p, t, u);
  }

  lemma ProposeFollows(c: Setting, script: nat -> Verdict, raiseErrors: bool, p: Progress, t: Trace, u: Turn)
    requires Scripted(c, script)
    requires u in Turns(c.gateway, Propose(raiseErrors), StandingOf(p), p.committed)
    requires Follows(script, |t|, Times(u.sends, u.verdict))
    ensures var ran := RunPropose(c, raiseErrors, p, t);
            Takes(ran, u) && |ran.trace| == |t| + u.sends
  {
    if c.gateway.endorsingPeers != [] {
      ScriptedPropose(c, script, raiseErrors, p, t, u.verdict);
    }
  }

  lemma FollowsOne(script: nat -> Verdict, n: nat, verdict: Verdict)
    requires Follows(script, n, Times(1, verdict))
    ensures script(n + 1) == verdict
  {
    assert script(n + 1 + 0) == Times(1, verdict)[0];
  }

  lemma SubmitFollows(c: Setting, script: nat -> Verdict, p: Progress, t: Trace, u: Turn)
    requires Scripted(c, script) && Coherent(c.transaction, p)
    requires u in Turns(c.gateway, Submit, StandingOf(p), p.committed)
    requires Follows(script, |t|, Times(u.sends, u.verdict))
    ensures var ran := RunSubmit(c, p, t);
            Takes(ran, u) && |ran.trace| == |t| + u.sends
  {
    if p.endorsed.Some? && c.gateway.orderers != [] {
      FollowsOne(script, |t|, u.verdict);
      ScriptedSubmit(c, script, p, t, u.verdict);
    }
  }

  lemma WaitFollows(c: Setting, script: nat -> Verdict, raiseErrors: bool, timeout: int, p: Progress, t: Trace, u: Turn)
    requires Scripted(c, script) && Coherent(c.transaction, p)
    requires u in Turns(c.gateway, WaitForCommit(raiseErrors, timeout), StandingOf(p), p.committed)
    requires Follows(script, |t|, Times(u.sends, u.verdict))
    ensures var ran := RunWait(c, raiseErrors, timeout, p, t);
            Takes(ran, u) && |ran.trace| == |t| + u.sends
  {
    if p.committed && c.gateway.endorsingPeers != [] {
      FollowsOne(script, |t|, u.verdict);
      ScriptedWait(c, script, raiseErrors, timeout, p, t, u.verdict);
    }
  }

  lemma ScriptedPropose(c: Setting, script: nat -> Verdict, raiseErrors: bool, p: Progress, t: Trace, verdict: Verdict)
    requires Scripted(c, script) && c.gateway.endorsingPeers != []
    requires Follows(script, |t|, Times(|c.gateway.endorsingPeers|, verdict))
    ensures var ran := RunPropose(c, raiseErrors, p, t);
            && |ran.trace| == |t| + |c.gateway.endorsingPeers|
            && ran.progress.committed == p.committed
            && match verdict
               case Break => ran.result.Err? && ran.progress == p
               case Good => ran.result.Ok? && StandingOf(ran.progress) == Full
               case Refuse => ran.result.Ok? == !raiseErrors && StandingOf(ran.progress) == Risky
  {
    var sends := PeerSends(c.gateway.endorsingPeers, c.transaction.signedProposal);
    var answers := PeerAnswers(c.world, t, sends);
    forall i | 0 <= i < |answers|
      ensures answers[i] == HandleConnErrors(c.world.endorse(t + sends[..i + 1]))
      ensures script(|t + sends[..i + 1]|) == verdict
    {
      assert |t + sends[..i + 1]| == |t| + 1 + i;
      assert script(|t| + 1 + i) == Times(|c.gateway.endorsingPeers|, verdict)[i];
    }
    if verdict == Break {
      assert answers[0].Err?;
    } else {
      assert forall i | 0 <= i < |answers| :: answers[i].Ok?;
      assert Values(answers)[0] in Values(answers);
    }
  }

  lemma ScriptedSubmit(c: Setting, script: nat -> Verdict, p: Progress, t: Trace, verdict: Verdict)
    requires Scripted(c, script) && c.gateway.orderers != []
    requires p.endorsed.Some? && p.endorsed.value.peerResponses != []
    requires script(|t| + 1) == verdict != Refuse
    ensures var ran := RunSubmit(c, p, t);
            && |ran.trace| == |t| + 1
            && ran.result.Ok? == (verdict == Good)
            && ran.progress.endorsed == p.endorsed
            && ran.progress.committed == (verdict == Good || p.committed)
  {
    var e := p.endorsed.value;
    var envelope := BuildEndorsedTxEnvelope(e, c.gateway.requestor).value;
    var sends := OrdererSends(c.gateway.orderers, envelope, e.txContext.txId);
    var attempts := OrdererAttempts(c.world, t, sends, e.txContext.txId);
    FailoverEnds(attempts, RetryOrderer, ValueError(NoOrderers), 0);
  }

  lemma ScriptedWait(c: Setting, script: nat -> Verdict, raiseErrors: bool, timeout: int, p: Progress, t: Trace,
                     verdict: Verdict)
    requires Scripted(c, script) && c.gateway.endorsingPeers != []
    requires p.committed && Coherent(c.transaction, p)
    requires script(|t| + 1) == verdict != Refuse
    ensures var ran := RunWait(c, raiseErrors, timeout, p, t);
            && |ran.trace| == |t| + 1
            && ran.result.Ok? == (verdict == Good)
            && ran.progress == p.(filtered := ran.progress.filtered)
  {
    var txId := c.transaction.txContext.txId;
    var sends := WatchSends(c.gateway.endorsingPeers, txId, timeout);
    var attempts := WatchAttempts(c.world, t, sends, txId, raiseErrors);
    var block := DeliverResponse(0, [FilteredTX(txId, ENDORSER_TRANSACTION, 0)]);
    if verdict == Good {
      SearchFromIsSearch([block], Ok(()), txId);
      assert Readable(block);
      assert SearchFrom([block], Ok(()), txId) == Ok(block.transactions[0]);
      assert attempts[0] == Ok(block.transactions[0]);
    } else {
      assert attempts[0] == Err(NetworkFailure(TimeoutError));
    }
    FailoverEnds(attempts, RetryPeer, FailedWaiting, 0);
  }

  // A script for a history that the scan refuses: it follows an unsafe turn each time.

  ghost function ScriptFrom(gateway: Gateway, queue: seq<Operation>, s: Standing, committed: bool, h: History)
    : seq<Verdict>
    requires !SafeFrom(gateway, queue, s, committed, h)
    decreases |h|, 0
  {
    match h[0]
    case Add(op) => ScriptFrom(gateway, queue + [op], s, committed, h[1..])
    case AwaitBuilder => ScriptRunning(gateway, queue, queue, s, committed, h[1..])
  }

  ghost function ScriptRunning(gateway: Gateway, queue: seq<Operation>, ops: seq<Operation>, s: Standing,
                               committed: bool, rest: History): seq<Verdict>
    requires !SafeRunning(gateway, queue, ops, s, committed, rest)
    decreases |rest|, |ops| + 1
  {
    if ops == [] then
      ScriptFrom(gateway, [], s, committed, rest)
    else if ShipsRefused(gateway, ops[0], s) then
      []
    else
      var u := UnsafeTurn(gateway, queue, ops, s, committed, rest);
      Times(u.sends, u.verdict)
      + if u.ok then
          ScriptRunning(gateway, queue, ops[1..], u.standing, u.committed, rest)
        else
          ScriptFrom(gateway, queue, u.standing, u.committed, rest)
  }

  ghost function UnsafeTurn(gateway: Gateway, queue: seq<Operation>, ops: seq<Operation>, s: Standing, committed: bool,
                            rest: History): (u: Turn)
    requires ops != [] && !SafeRunning(gateway, queue, ops, s, committed, rest) && !ShipsRefused(gateway, ops[0], s)
    ensures u in Turns(gateway, ops[0], s, committed)
    ensures if u.ok then !SafeRunning(gateway, queue, ops[1..], u.standing, u.committed, rest)
            else !SafeFrom(gateway, queue, u.standing, u.committed, rest)
  {
    var u :| u in Turns(gateway, ops[0], s, committed)
             && !(if u.ok then SafeRunning(gateway, queue, ops[1..], u.standing, u.committed, rest)
                  else SafeFrom(gateway, queue, u.standing, u.committed, rest));
    u
  }

  lemma {:induction false} RunKeepsRefused(c: Setting, ops: seq<Operation>, p: Progress, t: Trace)
    requires !AllFull(p.shipped) && Coherent(c.transaction, p)
    ensures var ran := RunAll(c, ops, p, t);
            !AllFull(ran.progress.shipped) && Coherent(c.transaction, ran.progress)
    decreases |ops|
  {
    if ops != [] {
      var first := RunOperation(c, ops[0], p, t);
      var u := OperationTakesTurn(c, ops[0], p, t);
      ShippingStaysFull(c, ops[0], p, t);
      RunKeepsRefused(c, ops[1..], first.progress, first.trace);
    }
  }

  /** What was shipped stays shipped. */
  lemma {:induction false} RefusedStays(c: Setting, s: State, h: History)
    requires !AllFull(s.progress.shipped) && Coherent(c.transaction, s.progress)
    ensures !AllFull(Continue(c, s, h).progress.shipped)
    decreases |h|
  {
    if h != [] {
      RunKeepsRefused(c, s.queue, s.progress, s.trace);
      RefusedStays(c, Step(c, s, h[0]), h[1..]);
    }
  }

  lemma {:induction false} UnsafeFromShips(c: Setting, script: nat -> Verdict, s: State, h: History)
    requires Scripted(c, script) && Coherent(c.transaction, s.progress)
    requires !SafeFrom(c.gateway, s.queue, StandingOf(s.progress), s.progress.committed, h)
    requires Follows(script, |s.trace|,
                     ScriptFrom(c.gateway, s.queue, StandingOf(s.progress), s.progress.committed, h))
    ensures !AllFull(Continue(c, s, h).progress.shipped)
    decreases |h|, 0
  {
    match h[0]
    case Add(op) => UnsafeFromShips(c, script, Step(c, s, h[0]), h[1..]);
    case AwaitBuilder =>
      AwaitSettles(c, s);
      UnsafeRunShips(c, script, s.queue, s.queue, s.progress, s.trace, h[1..]);
  }

  /** The next operation takes the unsafe turn, and the script goes on from there. */
  lemma UnsafeTurnIsTaken(c: Setting, script: nat -> Verdict, queue: seq<Operation>, ops: seq<Operation>, p: Progress,
                          t: Trace, rest: History)
    requires Scripted(c, script) && Coherent(c.transaction, p)
    requires ops != [] && !ShipsRefused(c.gateway, ops[0], StandingOf(p))
    requires !SafeRunning(c.gateway, queue, ops, StandingOf(p), p.committed, rest)
    requires Follows(script, |t|, ScriptRunning(c.gateway, queue, ops, StandingOf(p), p.committed, rest))
    ensures var u := UnsafeTurn(c.gateway, queue, ops, StandingOf(p), p.committed, rest);
            var first := RunOperation(c, ops[0], p, t);
            && Takes(first, u) && Coherent(c.transaction, first.progress)
            && Follows(script, |first.trace|,
                       if u.ok then ScriptRunning(c.gateway, queue, ops[1..], u.standing, u.committed, rest)
                       else ScriptFrom(c.gateway, queue, u.standing, u.committed, rest))
  {
    var u := UnsafeTurn(c.gateway, queue, ops, StandingOf(p), p.committed, rest);
    var next := if u.ok then ScriptRunning(c.gateway, queue, ops[1..], u.standing, u.committed, rest)
                else ScriptFrom(c.gateway, queue, u.standing, u.committed, rest);
    assert ScriptRunning(c.gateway, queue, ops, StandingOf(p), p.committed, rest) == Times(u.sends, u.verdict) + next;
    FollowsBoth(script, |t|, Times(u.sends, u.verdict), next);
    OperationFollows(c, script, ops[0], p, t, u);
    OperationKeepsCoherent(c, ops[0], p, t);
  }

  lemma {:induction false} UnsafeRunShips(c: Setting, script: nat -> Verdict, queue: seq<Operation>,
                                          ops: seq<Operation>, p: Progress, t: Trace, rest: History)
    requires Scripted(c, script) && Coherent(c.transaction, p)
    requires !SafeRunning(c.gateway, queue, ops, StandingOf(p), p.committed, rest)
    requires Follows(script, |t|, ScriptRunning(c.gateway, queue, ops, StandingOf(p), p.committed, rest))
    ensures !AllFull(Continue(c, Settled(queue, RunAll(c, ops, p, t)), rest).progress.shipped)
    decreases |rest|, |ops| + 1
  {
    var gateway, s, committed := c.gateway, StandingOf(p), p.committed;
    if ops == [] {
      UnsafeFromShips(c, script, State([], p, t), rest);
    } else {
      var first := RunOperation(c, ops[0], p, t);
      if ShipsRefused(gateway, ops[0], s) {
        RefusedIsShipped(c, queue, ops, p, t, rest);
      } else {
        var u := UnsafeTurn(gateway, queue, ops, s, committed, rest);
        UnsafeTurnIsTaken(c, script, queue, ops, p, t, rest);
        if u.ok {
          UnsafeRunShips(c, script, queue, ops[1..], first.progress, first.trace, rest);
        } else {
          UnsafeFromShips(c, script, State(queue, first.progress, first.trace), rest);
        }
      }
    }
  }

  lemma RefusedIsShipped(c: Setting, queue: seq<Operation>, ops: seq<Operation>, p: Progress, t: Trace, rest: History)
    requires Coherent(c.transaction, p) && ops != [] && ShipsRefused(c.gateway, ops[0], StandingOf(p))
    ensures !AllFull(Continue(c, Settled(queue, RunAll(c, ops, p, t)), rest).progress.shipped)
  {
    var first := RunOperation(c, ops[0], p, t);
    var u := OperationTakesTurn(c, ops[0], p, t);
    ShippingStaysFull(c, ops[0], p, t);
    RunKeepsRefused(c, ops[1..], first.progress, first.trace);
    RefusedStays(c, Settled(queue, RunAll(c, ops, p, t)), rest);
  }

  // ---------------------------------------------------------- the exact conditions

  lemma ContinuationIsSafeIff(gateway: Gateway, g: GeneratedTX, s: State, h: History)
    requires AllFull(s.progress.shipped) && Coherent(g, s.progress)
    ensures SafeFrom(gateway, s.queue, StandingOf(s.progress), s.progress.committed, h)
            <==> forall w: World :: AllFull(Continue(Setting(w, gateway, g), s, h).progress.shipped)
  {
    var standing, committed := StandingOf(s.progress), s.progress.committed;
    if SafeFrom(gateway, s.queue, standing, committed, h) {
      forall w: World
        ensures AllFull(Continue(Setting(w, gateway, g), s, h).progress.shipped)
      {
        SafeFromShipsFull(Setting(w, gateway, g), s, h);
      }
    } else {
      var part := ScriptFrom(gateway, s.queue, standing, committed, h);
      var n := |s.trace|;
      var script: nat -> Verdict := (k: nat) => if n < k <= n + |part| then part[k - n - 1] else Good;
      var w := ScriptedWorld(script, g.txContext.txId);
      UnsafeFromShips(Setting(w, gateway, g), script, s, h);
      assert !AllFull(Continue(Setting(w, gateway, g), s, h).progress.shipped);
    }
  }

  /** Safety of whole histories: a builder ships only fully endorsed transactions in
      every network exactly when the scan accepts its history. */
  lemma HistoryIsSafeIff(gateway: Gateway, g: GeneratedTX, t0: Trace, h: History)
    ensures SafeFrom(gateway, [], Absent, false, h)
            <==> forall w: World :: AllFull(After(Setting(w, gateway, g), t0, h).progress.shipped)
  {
    ContinuationIsSafeIff(gateway, g, State([], NoProgress, t0), h);
    forall w: World
      ensures After(Setting(w, gateway, g), t0, h)
              == Continue(Setting(w, gateway, g), State([], NoProgress, t0), h)
    {
      AfterContinues(Setting(w, gateway, g), t0, h);
    }
  }

  /** The scan of a single await: on the way to each submit, the nearest propose raises
      errors, or there is none and the stored transaction is fully endorsed. Operations
      behind one that is bound to fail do not matter. */
  predicate SafeToRun(gateway: Gateway, ops: seq<Operation>, s: Standing, committed: bool) {
    if ops == [] then
      true
    else
      match ops[0]
      case Propose(raiseErrors) =>
        gateway.endorsingPeers == [] || SafeToRun(gateway, ops[1..], if raiseErrors then Full else Risky, committed)
      case Submit =>
        s == Absent || gateway.orderers == [] || (s == Full && SafeToRun(gateway, ops[1..], Full, true))
      case WaitForCommit(_, _) =>
        !committed || gateway.endorsingPeers == [] || SafeToRun(gateway, ops[1..], s, committed)
  }

  /** Nothing gets worse when a stored transaction turns out to be fully endorsed. */
  lemma {:induction false} FullIsSafer(gateway: Gateway, ops: seq<Operation>, committed: bool)
    requires SafeToRun(gateway, ops, Risky, committed)
    ensures SafeToRun(gateway, ops, Full, committed)
    decreases |ops|
  {
    if ops != [] && ops[0].WaitForCommit? && committed && gateway.endorsingPeers != [] {
      FullIsSafer(gateway, ops[1..], committed);
    }
    if ops != [] && ops[0].Submit? {
      assert gateway.orderers == [];
    }
  }

  lemma {:induction false} SafeToRunIsSafe(gateway: Gateway, queue: seq<Operation>, ops: seq<Operation>, s: Standing,
                                           committed: bool)
    ensures SafeToRun(gateway, ops, s, committed) <==> SafeRunning(gateway, queue, ops, s, committed, [])
    decreases |ops|
  {
    if ops != [] {
      var turns := Turns(gateway, ops[0], s, committed);
      forall u | u in turns
        ensures SafeToRun(gateway, ops[1..], u.standing, u.committed)
                <==> SafeRunning(gateway, queue, ops[1..], u.standing, u.committed, [])
      {
        SafeToRunIsSafe(gateway, queue, ops[1..], u.standing, u.committed);
      }
      SafeToRunByTurns(gateway, ops, s, committed);
    }
  }

  /** The guard follows every turn that lets the await go on. */
  lemma SafeToRunByTurns(gateway: Gateway, ops: seq<Operation>, s: Standing, committed: bool)
    requires ops != []
    ensures SafeToRun(gateway, ops, s, committed)
            <==> !ShipsRefused(gateway, ops[0], s)
                 && forall u <- Turns(gateway, ops[0], s, committed) ::
                      u.ok ==> SafeToRun(gateway, ops[1..], u.standing, u.committed)
  {
    var turns := Turns(gateway, ops[0], s, committed);
    if |turns| > 1 {
      assert turns[1] in turns;
    }
    match ops[0]
    case Propose(raiseErrors) =>
      if |turns| > 2 {
        assert turns[2] in turns;
        if SafeToRun(gateway, ops[1..], Risky, committed) {
          FullIsSafer(gateway, ops[1..], committed);
        }
      }
    case Submit =>
    case WaitForCommit(_, _) =>
  }

  /** Safety of one await, from any state that some network can lead to: it ships only
      fully endorsed transactions in every network from then on exactly when the guard
      holds of the queue and of what is stored. */
  lemma AwaitIsSafeIff(c: Setting, t0: Trace, h: History)
    requires AllFull(After(c, t0, h).progress.shipped)
    ensures var s := After(c, t0, h);
            SafeToRun(c.gateway, s.queue, StandingOf(s.progress), s.progress.committed)
            <==> forall w: World :: AllFull(Await(Setting(w, c.gateway, c.transaction), s).state.progress.shipped)
  {
    var s := After(c, t0, h);
    ReachableIsCoherent(c, t0, h);
    SafeToRunIsSafe(c.gateway, s.queue, s.queue, StandingOf(s.progress), s.progress.committed);
    ContinuationIsSafeIff(c.gateway, c.transaction, s, [AwaitBuilder]);
    assert [AwaitBuilder][1..] == [];
    forall w: World
      ensures Continue(Setting(w, c.gateway, c.transaction), s, [AwaitBuilder])
              == Await(Setting(w, c.gateway, c.transaction), s).state
    {
    }
  }

  // ------------------------------------------------------------ over whole histories

  predicate AllRaise(ops: seq<Operation>) {
    forall op <- ops :: op.Propose? ==> op.raiseErrors
  }

  predicate NoPropose(ops: seq<Operation>) {
    forall op <- ops :: !op.Propose?
  }

  /** Every propose raises errors, and the queue starts with one or has none. */
  predicate Disciplined(queue: seq<Operation>) {
    AllRaise(queue) && (NoPropose(queue) || queue[0].Propose?)
  }

  lemma {:induction false} RaisingIsSafe(gateway: Gateway, ops: seq<Operation>, s: Standing, committed: bool)
    requires AllRaise(ops) && s != Risky
    ensures SafeToRun(gateway, ops, s, committed)
    decreases |ops|
  {
    if ops != [] {
      assert ops[0] in ops;
      var next := if ops[0].Propose? then Full else s;
      RaisingIsSafe(gateway, ops[1..], next, committed);
      RaisingIsSafe(gateway, ops[1..], next, true);
    }
  }

  // A run of raising proposes that succeeds does not end with a refused transaction,
  // and a run without proposes leaves the stored transaction alone.

  lemma {:induction false} StandingAfterRun(c: Setting, ops: seq<Operation>, p: Progress, t: Trace)
    requires AllRaise(ops)
    requires StandingOf(p) != Risky || (ops != [] && ops[0].Propose?)
    requires RunAll(c, ops, p, t).result.Ok?
    ensures StandingOf(RunAll(c, ops, p, t).progress) != Risky
    decreases |ops|
  {
    if ops != [] {
      assert ops[0] in ops;
      StandingAfterOperation(c, ops[0], p, t);
      var first := RunOperation(c, ops[0], p, t);
      StandingAfterRun(c, ops[1..], first.progress, first.trace);
    }
  }

  lemma {:induction false} StandingWithoutPropose(c: Setting, ops: seq<Operation>, p: Progress, t: Trace)
    requires NoPropose(ops)
    ensures RunAll(c, ops, p, t).progress.endorsed == p.endorsed
    decreases |ops|
  {
    if ops != [] {
      assert ops[0] in ops;
      StandingAfterOperation(c, ops[0], p, t);
      var first := RunOperation(c, ops[0], p, t);
      StandingWithoutPropose(c, ops[1..], first.progress, first.trace);
    }
  }

  lemma StandingAfterOperation(c: Setting, op: Operation, p: Progress, t: Trace)
    ensures var ran := RunOperation(c, op, p, t);
            && (!op.Propose? ==> ran.progress.endorsed == p.endorsed)
            && (op.Propose? && op.raiseErrors && ran.result.Ok? ==> StandingOf(ran.progress) == Full)
  {
  }

  /** Between awaits: what was shipped is fully endorsed, and so is the stored
      transaction, unless the queue starts with a propose. */
  ghost predicate ShipsFull(s: State) {
    && AllFull(s.progress.shipped)
    && (NoPropose(s.queue) ==> StandingOf(s.progress) != Risky)
  }

  lemma AwaitKeepsShipsFull(c: Setting, s: State)
    requires Coherent(c.transaction, s.progress) && ShipsFull(s) && Disciplined(s.queue)
    ensures ShipsFull(Await(c, s).state)
  {
    var standing := StandingOf(s.progress);
    if NoPropose(s.queue) {
      RaisingIsSafe(c.gateway, s.queue, standing, s.progress.committed);
    } else {
      RaisingIsSafe(c.gateway, s.queue[1..], Full, s.progress.committed);
      assert s.queue[0] in s.queue;
    }
    SafeToRunIsSafe(c.gateway, s.queue, s.queue, standing, s.progress.committed);
    SafeRunShipsFull(c, s.queue, s.queue, s.progress, s.trace, []);
    if NoPropose(s.queue) {
      StandingWithoutPropose(c, s.queue, s.progress, s.trace);
    } else if RunAll(c, s.queue, s.progress, s.trace).result.Ok? {
      StandingAfterRun(c, s.queue, s.progress, s.trace);
    }
  }

  /** Only fully endorsed transactions are shipped: over every history in which each
      unrun queue is disciplined, everything handed to an orderer holds the answers of
      one whole round of proposals, all of them 200, and every envelope in the trace
      was built from such a transaction. Failed awaits and replays are included. */
  lemma DisciplinedShipsFull(c: Setting, t0: Trace, h: History)
    requires forall k | 0 <= k <= |h| :: Disciplined(After(c, t0, h[..k]).queue)
    ensures var s := After(c, t0, h);
            && (forall e <- s.progress.shipped :: e.FullyEndorsed() && Answered(c, s.trace, e))
            && (forall j | |t0| <= j < |s.trace| && s.trace[j].ToOrderer? ::
                  exists e <- s.progress.shipped ::
                    BuildEndorsedTxEnvelope(e, c.gateway.requestor) == Some(s.trace[j].envelope))
  {
    DisciplinedKeepsShipsFull(c, t0, h);
    ReachableIsSound(c, t0, h);
    var s := After(c, t0, h);
    assert forall j | |t0| <= j < |s.trace| :: OwnSend(c, s.progress.shipped, s.trace[j]);
  }

  lemma {:induction false} DisciplinedKeepsShipsFull(c: Setting, t0: Trace, h: History)
    requires forall k | 0 <= k <= |h| :: Disciplined(After(c, t0, h[..k]).queue)
    ensures ShipsFull(After(c, t0, h))
  {
    if h != [] {
      var last := |h| - 1;
      var before := h[..last];
      forall k | 0 <= k <= last
        ensures Disciplined(After(c, t0, before[..k]).queue)
      {
        assert before[..k] == h[..k];
      }
      DisciplinedKeepsShipsFull(c, t0, before);
      var s := After(c, t0, before);
      assert Disciplined(s.queue) by { assert before[..last] == before; }
      match h[last] {
        case Add(op) =>
          assert forall q <- s.queue :: q in s.queue + [op];
        case AwaitBuilder =>
          ReachableIsCoherent(c, t0, before);
          AwaitKeepsShipsFull(c, s);
      }
    }
  }

  // --------------------------------------------- what happens without the discipline

  /** A submit that was queued before the next propose. */
  const ReplayHistory: History :=
    [Add(Propose(true)), AwaitBuilder, Add(Submit), Add(Propose(true)), AwaitBuilder, AwaitBuilder]

  /** Raising errors is not enough: here every propose raises, yet the last await
      replays a submit with the transaction that a peer has just refused. */
  lemma ReplayShipsRefused(gateway: Gateway, g: GeneratedTX)
    requires gateway.endorsingPeers != [] && gateway.orderers != []
    ensures exists w: World :: !AllFull(After(Setting(w, gateway, g), [], ReplayHistory).progress.shipped)
  {
    ReplayIsUnsafe(gateway);
    HistoryIsSafeIff(gateway, g, [], ReplayHistory);
  }

  lemma ReplayIsUnsafe(gateway: Gateway)
    requires gateway.endorsingPeers != [] && gateway.orderers != []
    ensures !SafeFrom(gateway, [], Absent, false, ReplayHistory)
  {
    var h := ReplayHistory;
    var peers := |gateway.endorsingPeers|;
    var queue := [Submit, Propose(true)];
    var propose := [Propose(true)];
    assert queue[1..] == propose && propose[1..] == [];
    // The last await ships what was refused.
    assert h[5..][1..] == h[6..] && !SafeFrom(gateway, queue, Risky, true, h[5..]);
    // The await before it submits, and is then refused.
    assert Turn(Refuse, peers, Risky, true, false) in Turns(gateway, Propose(true), Full, true);
    assert !SafeRunning(gateway, queue, propose, Full, true, h[5..]);
    assert Turn(Good, 1, Full, true, true) in Turns(gateway, Submit, Full, false);
    assert h[4..][1..] == h[5..] && !SafeFrom(gateway, queue, Full, false, h[4..]);
    // The first await endorses, and submit and propose are added.
    assert [Submit] + [Propose(true)] == queue && [] + [Submit] == [Submit] && [] + propose == propose;
    assert h[3..][1..] == h[4..] && !SafeFrom(gateway, [Submit], Full, false, h[3..]);
    assert h[2..][1..] == h[3..] && !SafeFrom(gateway, [], Full, false, h[2..]);
    assert Turn(Good, peers, Full, false, true) in Turns(gateway, Propose(true), Absent, false);
    assert !SafeRunning(gateway, propose, [], Full, false, h[2..]);
    assert h[1..][1..] == h[2..] && !SafeFrom(gateway, propose, Absent, false, h[1..]);
  }
}
