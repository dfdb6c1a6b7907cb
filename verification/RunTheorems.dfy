/**
 * What is true of every run of a compiled plan, whatever the executor, the gates, the cache
 * sentinel and the interrupt flag answer.
 */
module RunTheorems {
  import opened Core
  import opened Orders
  import opened Domain
  import opened Waves
  import opened Router
  import opened Budget
  import opened RunModel
  import opened CommitOrder
  import opened Readers
  import opened RunTrace
  import opened TracePasses
  import opened RunRouting
  import opened RunEffects
  import opened RunDurable
  import opened RunTaint
  import opened RunInvariant
  import opened RunSteps
  import opened RunOutcomes

  // ---------------------------------------------------------------- crashes

  lemma {:induction false} PanicCause(S: Session, s0: RunState, s: RunState)
    requires NodeOutcome(S, s0, s, Panicked)
    ensures SomePreRetry(S) || SomeForeignRow(S)
  {
  }

  lemma {:induction false} CrashCause(S: Session, s0: RunState, last: Option<NodeEnd>, s: RunState, e: Ending)
    requires EndedFrom(S, s0, last, s, e) && e == Crash
    ensures SomePreRetry(S) || SomeForeignRow(S)
  {
    assert last == Some(Panicked);
    PanicCause(S, s0, s);
  }

  /**
   * A run ends normally unless a pre-gate answers Retry or a replayed row belongs to another
   * node: the engine's order assertion never fires.
   */
  lemma {:induction false} RunEndsNormally(S: Session)
    requires Compiled(S) && !SomePreRetry(S) && !SomeForeignRow(S)
    ensures Run(S).1.Ended?
  {
    var s0, last, s := RunEnds(S);
    if Run(S).1 == Crash {
      CrashCause(S, s0, last, s, Run(S).1);
    }
  }

  // ---------------------------------------------------------------- the event language

  /** Node blocks in commit order with their waves; all but the last are done. */
  ghost predicate OrderedBlocks(S: Session, bs: seq<Block>) {
    && |bs| <= |Order(S)|
    && forall i | 0 <= i < |bs| ::
         && bs[i].node == Order(S)[i] && bs[i].wave == WaveAt(S.waves, i).0
         && (i < |bs| - 1 ==> bs[i].kind == StopDone)
  }

  ghost predicate AllDone(bs: seq<Block>) {
    forall i | 0 <= i < |bs| :: bs[i].kind == StopDone
  }

  /**
   * What a normal end says about the blocks and the commits; `line` is the trace place where
   * metering first reported a suspend line. A run is completed exactly when every node has
   * committed and no line was ever reported.
   */
  ghost predicate EndTells(S: Session, bs: seq<Block>, commits: seq<NodeId>, line: Option<nat>, e: Ending)
    requires e.Ended?
  {
    && commits <= Order(S) && |commits| <= |bs| <= |commits| + 1
    && (AllDone(bs) <==> e.reason.None? && |bs| == |commits| && (e.state == Completed || e.state == Suspended))
    && (e.state == Completed <==> |commits| == |Order(S)| && line.None?)
    && (|commits| == |Order(S)| ==> e == Ended(Completed, None) || e == Ended(Suspended, Some(BUDGET_EXCEEDED)))
    && (!AllDone(bs) && |bs| == |commits| ==> e == Ended(Suspended, Some(BUDGET_EXCEEDED)))
  }

  /** The blocks a run has written when it ends. */
  ghost predicate EndsWithBlocks(S: Session, s: RunState, e: Ending, bs: seq<Block>) {
    e.Ended? ==> Parse(s.rec.trace) == Between(bs) && OrderedBlocks(S, bs)
                 && EndTells(S, bs, s.durable.commits, s.rec.exceededAt, e)
  }

  lemma {:induction false} OneMoreBlock(S: Session, k: nat, commits: seq<NodeId>, line: Option<nat>, kind: StopKind,
                                        end: NodeEnd)
    requires k < |Order(S)| && kind != StopDone && end != Committed && end != Panicked
    requires commits == Order(S)[..k]
             || (commits == Order(S)[..k + 1] && end == NodeSuspended(Some(BUDGET_EXCEEDED)) && line.Some?)
    ensures var bs := DoneBlocks(S, k) + [Block(Order(S)[k], WaveAt(S.waves, k).0, kind)];
            OrderedBlocks(S, bs) && EndTells(S, bs, commits, line, EndingOf(end))
  {
    var bs := DoneBlocks(S, k) + [Block(Order(S)[k], WaveAt(S.waves, k).0, kind)];
    assert bs[k].kind != StopDone;
  }

  lemma {:induction false} NodeEndBlocks(S: Session, s0: RunState, end: NodeEnd, s: RunState) returns (bs: seq<Block>)
    requires EndsOk(S, s0, s, end) && end != Committed && end != Panicked
    ensures EndsWithBlocks(S, s, EndingOf(end), bs)
    ensures |bs| == |s0.durable.commits| + 1
    ensures bs[..|s0.durable.commits|] == DoneBlocks(S, |s0.durable.commits|)
    ensures bs[|s0.durable.commits|].node == NodeDue(S, s0) && bs[|s0.durable.commits|].wave == WaveDue(S, s0)
  {
    var k := |s0.durable.commits|;
    var kind :| kind != StopDone &&
      Parse(s.rec.trace) == Between(DoneBlocks(S, k) + [Block(NodeDue(S, s0), WaveDue(S, s0), kind)]);
    bs := DoneBlocks(S, k) + [Block(NodeDue(S, s0), WaveDue(S, s0), kind)];
    OneMoreBlock(S, k, s.durable.commits, s.rec.exceededAt, kind, end);
  }

  lemma {:induction false} EndBlocks(S: Session, s0: RunState, last: Option<NodeEnd>, s: RunState, e: Ending)
    returns (bs: seq<Block>)
    requires EndedFrom(S, s0, last, s, e)
    ensures EndsWithBlocks(S, s, e, bs)
  {
    bs := [];
    if last.None? {
      bs := DoneBlocks(S, |s.durable.commits|);
    } else if e.Ended? {
      bs := NodeEndBlocks(S, s0, last.value, s);
    }
  }

  lemma {:induction false} CloseConcludes(es: seq<Event>, close: Event, bs: seq<Block>)
    requires Parse(es) == Between(bs) && close.SessionClose?
    ensures Parse(es + [close]) == Concluded(bs) && NodePath(es + [close]) == StepsOf(bs)
  {
    ParseSnoc(es, close);
    NodePathIsBlocks(es + [close]);
  }

  /** What a finished log and the commits say together. */
  ghost predicate LogOrdered(S: Session, s: RunState, e: Ending, bs: seq<Block>)
    requires e.Ended?
  {
    && Parse(s.rec.trace) == Concluded(bs)
    && OrderedBlocks(S, bs)
    && EndTells(S, bs, s.durable.commits, s.rec.exceededAt, e)
    && NodePath(s.rec.trace) == StepsOf(bs)
  }

  /** A crashed run stands in the block of the node after its last commit. */
  ghost predicate LogOpen(S: Session, s: RunState) {
    var k := |s.durable.commits|;
    && k < |Order(S)| && s.durable.commits == Order(S)[..k]
    && Parse(s.rec.trace) == Inside(DoneBlocks(S, k), Order(S)[k], WaveAt(S.waves, k).0)
  }

  lemma {:induction false} PanicLog(S: Session, s0: RunState, s: RunState)
    requires NodeOutcome(S, s0, s, Panicked)
    ensures LogOpen(S, s)
  {
  }

  lemma {:induction false} CrashLog(S: Session, s0: RunState, last: Option<NodeEnd>, s: RunState, e: Ending)
    requires EndedFrom(S, s0, last, s, e) && e == Crash
    ensures LogOpen(S, s)
  {
    assert last == Some(Panicked);
    PanicLog(S, s0, s);
  }

  /**
   * Every normal run's trace is: open, compiled, node blocks, close. The blocks are a prefix
   * of the commit order; the commits follow the same order; a run is completed exactly when all
   * nodes committed without metering reporting a line; the projected path is the list of blocks. A run that crashed
   * stopped inside the block of the node that was due.
   */
  lemma {:induction false} RunTraceIsOrdered(S: Session) returns (bs: seq<Block>)
    requires Compiled(S)
    ensures Run(S).1.Ended? ==> LogOrdered(S, Run(S).0, Run(S).1, bs)
    ensures Run(S).1.Crash? ==> LogOpen(S, Run(S).0)
  {
    var s0, last, s := RunEnds(S);
    var e := Run(S).1;
    bs := EndBlocks(S, s0, last, s, e);
    if e.Ended? {
      CloseConcludes(s.rec.trace, SessionClose(S.sessionId, e.state), bs);
    } else {
      CrashLog(S, s0, last, s, e);
    }
  }

  /** The wave recorded with a node is the length of the longest path that ends at it. */
  lemma {:induction false} RecordedWaveIsLongestPath(S: Session, k: nat)
    requires Compiled(S) && k < |Order(S)|
    ensures LongestPathLength(S.g, Order(S)[k], WaveAt(S.waves, k).0)
  {
    WaveAtSpec(S.waves, k);
    WaveIndexIsLongestPath(S.g, S.waves, WaveAt(S.waves, k).0, Order(S)[k]);
  }

  // ---------------------------------------------------------------- commit markers

  /** The commit numbers of the checkpoint rows. */
  function CommitSeqs(d: Durable): (ns: seq<nat>)
    ensures |ns| == |d.rows|
  {
    seq(|d.rows|, i requires 0 <= i < |d.rows| => d.rows[i].seqNo)
  }

  /** Place x is the last judgment of the i-th node of the order: a pass right before its stop. */
  ghost predicate CommittingPass(S: Session, es: seq<Event>, x: nat, i: nat) {
    && i < |Order(S)|
    && FinalPass(es, x) && x < |es| && es[x].GatePass? && es[x].node == Order(S)[i]
    && Parse(es[..x]) == Inside(DoneBlocks(S, i), Order(S)[i], WaveAt(S.waves, i).0)
  }

  // ---------------------------------------------------------------- metering

  /**
   * The ledger holds exactly the tokens of the recorded llm calls, and the in-memory spends
   * agree with the ledger, in every run, also in one that crashed.
   */
  lemma {:induction false} MeteringIsConserved(S: Session)
    requires Compiled(S)
    ensures var s := Run(S).0; TraceTokens(s.rec.trace) == TotalOf(s.meter.rows) && CachesAgree(s.meter)
  {
    var s := RunAccount(S);
  }

  /** The run's metering, if it ever reported a suspend line, did so inside the last node's block. */
  ghost predicate StopsAtLine(s: RunState, e: Ending, p: nat) {
    && p <= |s.rec.trace|
    && NodePath(s.rec.trace) == NodePath(s.rec.trace[..p])
    && Parse(s.rec.trace[..p]).Inside?
    && (Parse(s.rec.trace[..p]).node in s.durable.commits ==> e == Ended(Suspended, Some(BUDGET_EXCEEDED)))
    && e.Ended? && e.state != Completed
  }

  lemma {:induction false} LinePath(es: seq<Event>, p: nat, bs: seq<Block>, k: nat)
    requires p <= |es| && k < |bs| && |bs| == k + 1
    requires Parse(es) == Between(bs) && Parse(es[..p]) == Inside(bs[..k], bs[k].node, bs[k].wave)
    ensures NodePath(es) == NodePath(es[..p])
  {
    NodePathIsBlocks(es);
    NodePathIsBlocks(es[..p]);
    assert StepsOf(bs) == StepsOf(bs[..k]) + [NodeStep(bs[k].node, bs[k].wave)];
  }

  lemma {:induction false} LineEnd(S: Session, s0: RunState, s: RunState, end: NodeEnd)
    requires EndsOk(S, s0, s, end) && end != Committed && end != Panicked && s.rec.exceededAt.Some?
    ensures StopsAtLine(s, EndingOf(end), s.rec.exceededAt.value)
  {
    var bs := NodeEndBlocks(S, s0, end, s);
    LinePath(s.rec.trace, s.rec.exceededAt.value, bs, |s0.durable.commits|);
    NotYetCommitted(S, s0);
  }

  lemma {:induction false} CloseKeepsLine(s: RunState, e: Ending, p: nat, close: Event)
    requires StopsAtLine(s, e, p) && close.SessionClose?
    ensures StopsAtLine(s.(rec := Emit(s.rec, close)), e, p)
  {
    NodePathSnoc(s.rec.trace, close);
    assert (s.rec.trace + [close])[..p] == s.rec.trace[..p];
  }

  lemma {:induction false} EndedAtLine(S: Session, s0: RunState, last: Option<NodeEnd>, s: RunState, e: Ending)
    requires EndedFrom(S, s0, last, s, e) && e.Ended? && s.rec.exceededAt.Some?
    ensures StopsAtLine(s, e, s.rec.exceededAt.value)
  {
    LineEnd(S, s0, s, last.value);
  }

  /**
   * Once metering reports a reached suspend line no further node starts, the run does not
   * complete, and if the node that reached it commits the run ends suspended at that commit.
   */
  lemma {:induction false} SuspendLineStopsTheRun(S: Session)
    requires Compiled(S)
    ensures var (s, e) := Run(S);
            e.Ended? && s.rec.exceededAt.Some? ==> StopsAtLine(s, e, s.rec.exceededAt.value)
  {
    var s0, last, s := RunEnds(S);
    var e := Run(S).1;
    if e.Ended? && s.rec.exceededAt.Some? {
      EndedAtLine(S, s0, last, s, e);
      CloseKeepsLine(s, e, s.rec.exceededAt.value, SessionClose(S.sessionId, e.state));
    }
  }

  // ---------------------------------------------------------------- routing

  /** Accepted handoffs are plan edges, each unordered pair at most once, within the cap. */
  ghost predicate RoutedOnce(S: Session, q: Routing) {
    && |q.accepted| <= S.policy.maxHandoffs
    && (forall i | 0 <= i < |q.accepted| :: Edge(S.g, q.accepted[i].0, q.accepted[i].1))
    && (forall i, j | 0 <= i < j < |q.accepted| :: !SamePair(q.accepted[i], q.accepted[j].0, q.accepted[j].1))
    && q.router.guard.halted != Some(REPETITIVE_HANDOFF)
  }

  lemma {:induction false} AcceptedOnce(S: Session, q: Routing)
    requires Compiled(S) && GuardOk(S, q) && q.accepted <= AcceptedUpTo(S.g, Order(S))
    ensures RoutedOnce(S, q)
  {
    var k, all := |Order(S)|, AcceptedUpTo(S.g, Order(S));
    assert Order(S)[..k] == Order(S);
    forall i | 0 <= i < |q.accepted| ensures Edge(S.g, q.accepted[i].0, q.accepted[i].1) {
      AcceptedAreEdges(S.g, Order(S), i);
      assert q.accepted[i] == all[i];
    }
    forall i, j | 0 <= i < j < |q.accepted| ensures !SamePair(q.accepted[i], q.accepted[j].0, q.accepted[j].1) {
      AcceptedPairsDiffer(S.g, S.waves, k, i, j);
      assert q.accepted[i] == all[i] && q.accepted[j] == all[j];
    }
  }

  /** A run that halts does so for the handoff cap, or for what its last executor call reported. */
  ghost predicate HaltTraced(e: Ending, calls: seq<ExecCall>)
    requires e.Ended?
  {
    e.state == Halted ==> e.reason.Some? && (e.reason.value != MAX_HANDOFFS ==> LastCallFailed(calls, e.reason.value))
  }

  /** The calls of a run are the world's own answers to its questions. */
  ghost predicate CallsAnswered(S: Session, calls: seq<ExecCall>) {
    forall i | 0 <= i < |calls| :: calls[i].result == S.world.execute(calls[i].asked, calls[i].request)
  }

  lemma {:induction false} AnsweredCalls(S: Session, calls: seq<ExecCall>)
    requires CallsOk(S, calls, |Order(S)|)
    ensures CallsAnswered(S, calls)
  {
    forall i | 0 <= i < |calls| ensures calls[i].result == S.world.execute(calls[i].asked, calls[i].request) {
      assert CallOf(S, Order(S)[calls[i].nextSeq - 1], calls[i].nextSeq, calls[i]);
    }
  }

  /**
   * On a compiled plan the loop guard never sees a recurrence: a run that halts for any reason
   * but the handoff cap halts because its own last executor call reported that reason. The
   * handoffs of a run that crashed are in order too.
   */
  lemma {:induction false} NoRunRepeatsHandoffs(S: Session)
    requires Compiled(S)
    ensures var (s, e) := Run(S);
            && RoutedOnce(S, s.routing) && CallsAnswered(S, s.rec.calls)
            && (e.Ended? ==> HaltTraced(e, s.rec.calls))
  {
    var s := RunAccount(S);
    AccountRouted(S, s);
    RunHalts(S);
  }

  lemma {:induction false} AccountRouted(S: Session, s: RunState)
    requires Compiled(S) && Account(S, s)
    ensures RoutedOnce(S, s.routing) && CallsAnswered(S, s.rec.calls)
  {
    AnsweredCalls(S, s.rec.calls);
    AcceptedOnce(S, s.routing);
  }

  lemma {:induction false} RunHalts(S: Session)
    requires Compiled(S)
    ensures Run(S).1.Ended? ==> HaltTraced(Run(S).1, Run(S).0.rec.calls)
  {
    var s0, last, s := RunEnds(S);
    if Run(S).1.Ended? {
      EndHalts(S, s0, last, s, Run(S).1);
    }
  }

  lemma {:induction false} EndHalts(S: Session, s0: RunState, last: Option<NodeEnd>, s: RunState, e: Ending)
    requires EndedFrom(S, s0, last, s, e) && e.Ended?
    ensures HaltTraced(e, s.rec.calls)
  {
  }

  // ---------------------------------------------------------------- retries

  /** Attempt numbers and executor calls within the two retry budgets. */
  ghost predicate RetriesBounded(S: Session, s: RunState) {
    && (forall n | n in s.attempts :: s.attempts[n] <= 2 * S.policy.boundedRetry)
    && (forall n | n in s.routing.router.retries :: s.routing.router.retries[n] <= S.policy.boundedRetry + 1)
    && (forall j: nat :: CountFor(s.rec.calls, j) <= 2 * S.policy.boundedRetry + 1)
    && (forall i | 0 <= i < |s.rec.calls| ::
          && 1 <= s.rec.calls[i].nextSeq <= |Order(S)|
          && s.rec.calls[i].request.node == Order(S)[s.rec.calls[i].nextSeq - 1])
  }

  lemma {:induction false} AccountBounds(S: Session, s: RunState)
    requires Account(S, s)
    ensures RetriesBounded(S, s)
  {
    forall i | 0 <= i < |s.rec.calls| ensures s.rec.calls[i].request.node == Order(S)[s.rec.calls[i].nextSeq - 1] {
      assert CallOf(S, Order(S)[s.rec.calls[i].nextSeq - 1], s.rec.calls[i].nextSeq, s.rec.calls[i]);
    }
  }

  /**
   * No node executes more than twice the retry bound plus once, its attempt number stays
   * within twice the bound and its router counter within the bound plus one, in every run.
   */
  lemma {:induction false} RetriesAreBounded(S: Session)
    requires Compiled(S)
    ensures RetriesBounded(S, Run(S).0)
  {
    var s := RunAccount(S);
    AccountBounds(S, s);
  }

  // ---------------------------------------------------------------- taint

  lemma {:induction false} OwnOriginsFit(S: Session, d: Durable)
    requires DurableOk(S, d) && S.fork.None?
    ensures OriginsFit(S, d, d.origins)
  {
  }

  /**
   * Taint is exactly reachability, in every run that replays nothing: the envelope of a row is
   * tainted if and only if its node or an ancestor committed a report with an external origin,
   * and then carries one of those origins.
   */
  lemma {:induction false} TaintIsReachability(S: Session)
    requires Compiled(S) && S.fork.None?
    ensures var d := Run(S).0.durable; RowsExact(S, d, d.origins)
  {
    var s := RunAccount(S);
    OwnOriginsFit(S, s.durable);
    TaintSpreads(S, s.durable, s.durable.origins, |s.durable.rows|);
  }

  // ---------------------------------------------------------------- forks

  /**
   * A fork at commit `at` of a session whose response files hold rows of d, the first r among
   * them: same plan and waves. Rows may be missing past r, because the session died or lost
   * them.
   */
  ghost predicate ForkOf(F: Session, S: Session, d: Durable, r: nat, at: nat) {
    && F.task == S.task && F.stages == S.stages && F.g == S.g && F.waves == S.waves
    && F.fork.Some? && F.fork.value.at == at && r <= |d.commits|
    && (forall i | i in F.fork.value.responses :: i in d.responses && F.fork.value.responses[i] == d.responses[i])
    && (forall i | 1 <= i <= r :: i in F.fork.value.responses)
  }

  lemma {:induction false} SameRouteInto(S: Session, F: Session, n: NodeId, stage: StageSpec, out: Envelope,
                                         confidence: real,
                                         succs: seq<NodeId>, into: map<NodeId, HandoffContract>)
    requires F.task == S.task && F.stages == S.stages
    ensures RouteInto(F, n, stage, out, confidence, succs, into) == RouteInto(S, n, stage, out, confidence, succs, into)
    decreases |succs|
  {
    if succs != [] {
      SameRouteInto(S, F, n, stage, out, confidence, succs[1..],
                    into[succs[0] := BuildContract(S, n, succs[0], stage, out, confidence)]);
    }
  }

  /** The contracts routed by the first k commits depend on the plan and the response rows only. */
  lemma {:induction false} SameRoutedUpTo(S: Session, F: Session, responses: map<nat, CachedExecution>, k: nat)
    requires F.task == S.task && F.stages == S.stages && F.g == S.g && F.waves == S.waves
    ensures RoutedUpTo(F, responses, k) == RoutedUpTo(S, responses, k)
    decreases k
  {
    if k > 0 {
      SameRoutedUpTo(S, F, responses, k - 1);
      if k <= |Order(S)| && k in responses && Order(S)[k - 1] in S.stages {
        var n := Order(S)[k - 1];
        SameRouteInto(S, F, n, S.stages[n], responses[k].envelope, Clamp(responses[k].confidence),
                      Sorted(Succs(S.g, n)),
                      RoutedUpTo(S, responses, k - 1));
      }
    }
  }

  /** A fork replays the origin's rows, among them the first r up to the fork point. */
  lemma {:induction false} ForkRow(S: Session, F: Session, d: Durable, r: nat, at: nat, j: nat)
    requires ForkOf(F, S, d, r, at) && DurableOk(S, d) && j >= 1
    ensures j <= at && j <= r ==> CachedRow(F, j).Some?
    ensures CachedRow(F, j).Some? ==> j <= |d.commits| && j in d.responses && CachedRow(F, j) == Some(d.responses[j])
  {
  }

  /** Row i of a fork's checkpoint table is the origin's. */
  lemma {:induction false} SameRow(S: Session, F: Session, d: Durable, d': Durable, r: nat, at: nat, i: nat)
    requires ForkOf(F, S, d, r, at) && DurableOk(S, d) && DurableOk(F, d') && ReplayOk(F, d')
    requires i < at && i < r && i < |d'.commits|
    ensures d'.rows[i] == d.rows[i] && d'.responses[i + 1] == d.responses[i + 1]
  {
    forall j | 1 <= j <= i + 1 ensures j in d'.responses && j in d.responses && d'.responses[j] == d.responses[j] {
      ForkRow(S, F, d, r, at, j);
    }
    RoutedUpToAgrees(F, d'.responses, d.responses, i);
    SameRoutedUpTo(S, F, d.responses, i);
    assert RowOk(S, d, i) && RowOk(F, d', i);
  }

  /** The node check on a replayed row never fires in a fork of a real run. */
  lemma {:induction false} ForkRowsFit(S: Session, F: Session, d: Durable, r: nat, at: nat)
    requires DurableOk(S, d) && ForkOf(F, S, d, r, at)
    ensures !SomeForeignRow(F)
  {
    forall k: nat | 1 <= k <= |Order(F)| && CachedRow(F, k).Some?
      ensures CachedRow(F, k).value.envelope.from == Order(F)[k - 1]
    {
      ForkRow(S, F, d, r, at, k);
      assert RowOk(S, d, k - 1);
    }
  }

  /**
   * Up to the fork point: the origin's checkpoint and response rows, and no executor calls. A
   * row past a missing one is replayed as well, without a call.
   */
  ghost predicate ReplaysPrefix(F: Session, d: Durable, d': Durable, calls': seq<ExecCall>, r: nat, at: nat) {
    && (forall i | 0 <= i < at && i < r && i < |d.rows| && i < |d'.rows| ::
          d'.rows[i] == d.rows[i] && i + 1 in d.responses && i + 1 in d'.responses
            && d'.responses[i + 1] == d.responses[i + 1])
    && (forall i | 0 <= i < |calls'| :: calls'[i].nextSeq > at || calls'[i].nextSeq > r)
    && (forall i | 1 <= i <= |d'.rows| && CachedRow(F, i).Some? ::
          && i in d.responses && i in d'.responses && d'.responses[i] == d.responses[i]
          && forall k | 0 <= k < |calls'| :: calls'[k].nextSeq != i)
  }

  lemma {:induction false} ForkReplays(S: Session, F: Session, d: Durable, d': Durable, calls': seq<ExecCall>, r: nat,
                                       at: nat)
    requires ForkOf(F, S, d, r, at) && DurableOk(S, d) && DurableOk(F, d') && ReplayOk(F, d')
    requires CallsOk(F, calls', |Order(F)|)
    ensures ReplaysPrefix(F, d, d', calls', r, at)
  {
    forall i | 0 <= i < at && i < r && i < |d.rows| && i < |d'.rows|
      ensures d'.rows[i] == d.rows[i] && d'.responses[i + 1] == d.responses[i + 1]
    {
      SameRow(S, F, d, d', r, at, i);
    }
    forall i | 0 <= i < |calls'| ensures calls'[i].nextSeq > at || calls'[i].nextSeq > r {
      ForkRow(S, F, d, r, at, calls'[i].nextSeq);
    }
    forall i | 1 <= i <= |d'.rows| && CachedRow(F, i).Some?
      ensures i in d.responses && i in d'.responses && d'.responses[i] == d.responses[i]
    {
      ForkRow(S, F, d, r, at, i);
    }
  }

  /**
   * A fork replays the prefix of its origin, whether the origin is itself a fork, ended,
   * crashed, or was killed with r commits stored: up to the fork point the fork never calls
   * the executor, its checkpoint and response rows are the origin's, contracts included, and
   * it cannot crash on a row. Where response rows were lost the fork executes those commits
   * again, and no others.
   */
  lemma {:induction false} ForkReplaysPrefix(S: Session, F: Session, r: nat, at: nat)
    requires Compiled(S) && Compiled(F) && ForkOf(F, S, Run(S).0.durable, r, at)
    ensures !SomePreRetry(F) ==> Run(F).1.Ended?
    ensures ReplaysPrefix(F, Run(S).0.durable, Run(F).0.durable, Run(F).0.rec.calls, r, at)
  {
    var s := RunAccount(S);
    var f := RunAccount(F);
    ForkRowsFit(S, F, s.durable, r, at);
    if !SomePreRetry(F) {
      RunEndsNormally(F);
    }
    ForkReplays(S, F, s.durable, f.durable, f.rec.calls, r, at);
  }
}
