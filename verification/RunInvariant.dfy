/**
 * The invariant of a run at every node boundary, and its preservation by one node: a node
 * either commits and restores the invariant for one more commit, or ends the run in a state
 * that says exactly how far it got.
 */
module RunInvariant {
  import opened Core
  import opened Domain
  import opened Router
  import opened Budget
  import opened RunModel
  import opened CommitOrder
  import opened Readers
  import opened RunTrace
  import opened RunRouting
  import opened RunEffects
  import opened RunDurable
  import opened RunTaint

  // ---------------------------------------------------------------- the invariant

  /** The blocks of the first k nodes, all done. */
  function DoneBlocks(S: Session, k: nat): (bs: seq<Block>)
    requires k <= |Order(S)|
    ensures |bs| == k
  {
    seq(k, i requires 0 <= i < k => Block(Order(S)[i], WaveAt(S.waves, i).0, StopDone))
  }

  ghost predicate TraceOk(S: Session, s: RunState)
    requires |s.durable.commits| <= |Order(S)|
  {
    && Parse(s.rec.trace) == Between(DoneBlocks(S, |s.durable.commits|))
    && ReadPasses(s.rec.trace) == PassReader(None, s.durable.passes)
    && Conserved(s.rec.trace, s.meter)
  }

  /** Only the given nodes have used their retry counters, and only within both budgets. */
  ghost predicate CountersOk(S: Session, s: RunState, nodes: set<NodeId>) {
    && s.attempts.Keys <= nodes
    && s.routing.router.retries.Keys <= nodes
    && (forall n | n in s.attempts :: s.attempts[n] <= 2 * S.policy.boundedRetry)
    && (forall n | n in s.routing.router.retries :: s.routing.router.retries[n] <= S.policy.boundedRetry + 1)
  }

  /** A commit covered by a replayed row stored that row again. */
  ghost predicate ReplayOk(S: Session, d: Durable) {
    forall i | i in d.responses :: CachedRow(S, i).Some? ==> d.responses[i] == CachedRow(S, i).value
  }

  /** Executor calls made while commit j was next. */
  function CountFor(calls: seq<ExecCall>, j: nat): nat {
    if calls == [] then 0
    else CountFor(calls[..|calls| - 1], j) + if calls[|calls| - 1].nextSeq == j then 1 else 0
  }

  /**
   * Calls belong to the first k places, never to one covered by a replayed row, and carry the
   * world's own answers; no place has more than twice the retry bound plus one.
   */
  ghost predicate CallsOk(S: Session, calls: seq<ExecCall>, k: nat) {
    && k <= |Order(S)|
    && (forall i | 0 <= i < |calls| ::
          && 1 <= calls[i].nextSeq <= k
          && CallOf(S, Order(S)[calls[i].nextSeq - 1], calls[i].nextSeq, calls[i])
          && CachedRow(S, calls[i].nextSeq).None?)
    && (forall j: nat :: CountFor(calls, j) <= 2 * S.policy.boundedRetry + 1)
  }

  /** Commit k was stored inside its node's block, its pass pending and all earlier passes found. */
  ghost predicate StoredInBlock(S: Session, es: seq<Event>, d: Durable, k: nat)
    requires k < |d.passes| && k < |d.commitAt| && k < |Order(S)|
  {
    && d.passes[k] < d.commitAt[k] <= |es|
    && Parse(es[..d.commitAt[k]]) == Inside(DoneBlocks(S, k), Order(S)[k], WaveAt(S.waves, k).0)
    && ReadPasses(es[..d.commitAt[k]]) == PassReader(Some(d.passes[k]), d.passes[..k])
  }

  /** The trace knows where every commit was stored, and a reader has found all their passes. */
  ghost predicate CommitsPlaced(S: Session, es: seq<Event>, d: Durable) {
    && |d.passes| == |d.commitAt| <= |Order(S)|
    && d.passes <= ReadPasses(es).found
    && forall k: nat | k < |d.passes| :: StoredInBlock(S, es, d, k)
  }

  lemma {:induction false} CommitsStayPlaced(S: Session, es: seq<Event>, es': seq<Event>, d: Durable)
    requires CommitsPlaced(S, es, d) && es <= es'
    ensures CommitsPlaced(S, es', d)
  {
    FoundOnlyGrows(es, es');
    forall k: nat | k < |d.passes| ensures StoredInBlock(S, es', d, k) {
      assert StoredInBlock(S, es, d, k);
      assert es'[..d.commitAt[k]] == es[..d.commitAt[k]];
    }
  }

  ghost predicate Inv(S: Session, s: RunState) {
    && Compiled(S)
    && DurableOk(S, s.durable)
    && RoutingOk(S, s.routing, s.durable)
    && TraceOk(S, s)
    && CountersOk(S, s, SetOf(s.durable.commits))
    && CallsOk(S, s.rec.calls, |s.durable.commits|)
    && s.rec.exceededAt.None?
    && ReplayOk(S, s.durable)
    && TaintOk(S, s.durable)
    && CommitsPlaced(S, s.rec.trace, s.durable)
  }

  // ---------------------------------------------------------------- the parts of a node

  ghost predicate Due(S: Session, s: RunState) {
    Inv(S, s) && |s.durable.commits| < |Order(S)|
  }

  function NodeDue(S: Session, s: RunState): NodeId
    requires |s.durable.commits| < |Order(S)|
  {
    Order(S)[|s.durable.commits|]
  }

  function WaveDue(S: Session, s: RunState): nat {
    WaveAt(S.waves, |s.durable.commits|).0
  }

  function RunDue(S: Session, s: RunState): (RunState, NodeEnd)
    requires |s.durable.commits| < |Order(S)|
  {
    RunNode(S, s, NodeDue(S, s), WaveDue(S, s))
  }

  lemma {:induction false} DoneBlocksSnoc(S: Session, k: nat)
    requires k < |Order(S)|
    ensures DoneBlocks(S, k + 1) == DoneBlocks(S, k) + [Block(Order(S)[k], WaveAt(S.waves, k).0, StopDone)]
  {
  }

  // ---------------------------------------------------------------- opening a node

  /** The parse state while the due node is open. */
  function InsideDue(S: Session, s: RunState): ParseState
    requires |s.durable.commits| < |Order(S)|
  {
    Inside(DoneBlocks(S, |s.durable.commits|), NodeDue(S, s), WaveDue(S, s))
  }

  /** The boundary of the due node. */
  ghost predicate AtBoundary(S: Session, s: RunState, b: Boundary) {
    && |s.durable.commits| < |Order(S)|
    && b.node == NodeDue(S, s) && b.node in S.stages && b.stage == S.stages[b.node] && b.wave == WaveDue(S, s)
    && b.input == BuildInput(S, s.durable.outputs, b.node, b.stage) && b.input.to == b.node
    && b.routed == Lookup(RoutedUpTo(S, s.durable.responses, |s.durable.commits|), b.node)
    && InOrder(S, s.durable, b.node)
  }

  /** The due node is open and its pre-gates ran. */
  ghost predicate NodeOpen(S: Session, s: RunState, b: Boundary, r: Recorder) {
    && AtBoundary(S, s, b)
    && Parse(r.trace) == InsideDue(S, s)
    && ReadPasses(r.trace).found == s.durable.passes
    && Conserved(r.trace, s.meter)
    && r.calls == s.rec.calls && r.exceededAt.None?
    && s.rec.trace <= r.trace
  }

  lemma {:induction false} AtDueBoundary(S: Session, s: RunState)
    requires Due(S, s)
    ensures NodeDue(S, s) in S.stages
    ensures AtBoundary(S, s, MakeBoundary(S, s, NodeDue(S, s), S.stages[NodeDue(S, s)], WaveDue(S, s)))
  {
    OrderInside(S.g, S.waves, |s.durable.commits|);
    CursorDue(S, s.durable);
  }

  lemma {:induction false} StartOpens(S: Session, s: RunState, b: Boundary)
    requires AtBoundary(S, s, b) && TraceOk(S, s) && s.rec.exceededAt.None?
    ensures NodeOpen(S, s, b, Emit(s.rec, NodeStart(b.node, b.stage.profile.role, b.wave)))
  {
    var e := NodeStart(b.node, b.stage.profile.role, b.wave);
    ParseSnoc(s.rec.trace, e);
    ReadPassesSnoc(s.rec.trace, e);
    TraceTokensSnoc(s.rec.trace, e);
  }

  lemma {:induction false} PreGatesStayOpen(S: Session, s: RunState, b: Boundary, r: Recorder)
    requires NodeOpen(S, s, b, r)
    ensures NodeOpen(S, s, b, PreGates(S, b, s.meter, AttemptOf(s.attempts, b.node), PreRefs(b.stage), r).0)
  {
    PreGatesQuiet(S, b, s.meter, AttemptOf(s.attempts, b.node), PreRefs(b.stage), r);
    PreGatesAppend(S, b, s.meter, AttemptOf(s.attempts, b.node), PreRefs(b.stage), r);
  }

  /** Some pre-gate of the world asks for a retry, which nothing could carry out. */
  ghost predicate SomePreRetry(S: Session) {
    exists i, run: GateRun :: !run.phase.PostPhase? && S.world.judge(i, run).verdict.Retry?
  }

  lemma {:induction false} PreRetryCause(S: Session, b: Boundary, m: Meter, attempt: nat, refs: seq<GateRef>,
                                         r: Recorder)
    ensures PreGates(S, b, m, attempt, refs, r).1 == PreRetry ==> SomePreRetry(S)
    decreases |refs|
  {
    if refs != [] {
      var run := GateRun(refs[0], b.node, if refs[0] == G0_GATE then G0Phase else PrePhase, b.input, None, b.contract,
                         Snapshot(S.budget, m, b.stage.profile.role), attempt, b.grantor, None);
      var (r1, v) := AskGate(S, r, run);
      if v.Pass? {
        PreRetryCause(S, b, m, attempt, refs[1..], r1);
      } else if v.Retry? {
        assert S.world.judge(r.clock, run).verdict.Retry?;
      }
    }
  }

  /** The end of a node whose pre-gates did not pass. */
  function PreStop(S: Session, b: Boundary, s: RunState, r: Recorder, pre: PreEnd): (RunState, NodeEnd) {
    match pre
    case PreBudget =>
      var e := BudgetEvent(SuspendLevel, Snapshot(S.budget, s.meter, b.stage.profile.role).sessionSpent, 0);
      (s.(rec := Emit(Emit(r, e), StopEvent(b, StopEscalate))), NodeSuspended(Some(BUDGET_EXCEEDED)))
    case PreRejected => (s.(rec := Emit(r, StopEvent(b, StopReject))), NodeFailed(GATE_REJECT))
    case _ => (s.(rec := r), Panicked)
  }

  lemma {:induction false} NodeUnfolded(S: Session, s: RunState, n: NodeId, wave: nat, b: Boundary, r: Recorder,
                                        pre: PreEnd)
    requires n in S.stages && b == MakeBoundary(S, s, n, S.stages[n], wave)
    requires (r, pre) == PreGates(S, b, s.meter, AttemptOf(s.attempts, n), PreRefs(S.stages[n]),
                                  Emit(s.rec, NodeStart(n, S.stages[n].profile.role, wave)))
    ensures var l := Loop(r, s.meter, s.routing, s.attempts, false);
            RunNode(S, s, n, wave)
            == if pre == PrePassed then FinishNode(S, b, s, Attempts(S, b, |s.durable.commits| + 1, l))
               else PreStop(S, b, s, r, pre)
  {
  }

  /** A node is its pre-gates, then the end of its attempts. */
  lemma {:induction false} OpenNode(S: Session, s: RunState) returns (b: Boundary, r: Recorder, pre: PreEnd)
    requires Due(S, s)
    ensures NodeOpen(S, s, b, r)
    ensures pre == PreRetry ==> SomePreRetry(S)
    ensures var l := Loop(r, s.meter, s.routing, s.attempts, false);
            RunDue(S, s)
            == if pre == PrePassed then FinishNode(S, b, s, Attempts(S, b, |s.durable.commits| + 1, l))
               else PreStop(S, b, s, r, pre)
  {
    var n, wave := NodeDue(S, s), WaveDue(S, s);
    AtDueBoundary(S, s);
    b := MakeBoundary(S, s, n, S.stages[n], wave);
    var r0 := Emit(s.rec, NodeStart(n, S.stages[n].profile.role, wave));
    StartOpens(S, s, b);
    PreGatesStayOpen(S, s, b, r0);
    PreRetryCause(S, b, s.meter, AttemptOf(s.attempts, n), PreRefs(b.stage), r0);
    var ran := PreGates(S, b, s.meter, AttemptOf(s.attempts, n), PreRefs(b.stage), r0);
    r, pre := ran.0, ran.1;
    NodeUnfolded(S, s, n, wave, b, r, pre);
  }

  // ---------------------------------------------------------------- the attempts of a node

  /** What the attempts of the due node, from l on, came to. */
  ghost predicate TurnsTaken(S: Session, s: RunState, b: Boundary, l: Loop, t: Turn) {
    && AtBoundary(S, s, b)
    && !t.Again? && (t.Stop? ==> t.end != Committed)
    && TurnRoutes(S, b, l, t)
    && TurnProduct(S, b, |s.durable.commits| + 1, t)
    && TurnTrace(b.node, b.wave, l, t)
    && CallsFor(S, b.node, |s.durable.commits| + 1, l.rec.calls, t.l.rec.calls,
                CallBudget(S, |s.durable.commits| + 1, 2 * S.policy.boundedRetry + 1))
    && OwnCounters(b.node, l, t.l, 2 * S.policy.boundedRetry) && RouterCounter(S, b.node, t)
    && LoopLine(S, b, InsideDue(S, s), t.l)
    && l.rec.trace <= t.l.rec.trace
  }

  lemma {:induction false} NotYetCommitted(S: Session, s: RunState)
    requires Due(S, s)
    ensures NodeDue(S, s) !in SetOf(s.durable.commits)
  {
    if NodeDue(S, s) in s.durable.commits {
      var i :| 0 <= i < |s.durable.commits| && s.durable.commits[i] == NodeDue(S, s);
      OrderDistinct(S.g, S.waves, i, |s.durable.commits|);
    }
  }

  lemma {:induction false} EdgesDueAreFresh(S: Session, s: RunState)
    requires Due(S, s)
    ensures FreshEdges(S, NodeDue(S, s), s.routing)
  {
    NextEdgesAreFresh(S.g, S.waves, |s.durable.commits|);
  }

  /** A node starts with both retry budgets whole. */
  lemma {:induction false} FullBudgets(S: Session, s: RunState, l: Loop)
    requires Due(S, s) && l.attempts == s.attempts && l.routing == s.routing
    ensures AttemptOf(s.attempts, NodeDue(S, s)) == 0 && RetriesOf(l.routing.router, NodeDue(S, s)) == 0
    ensures RetriesLeft(S, NodeDue(S, s), l) == 2 * S.policy.boundedRetry
  {
    NotYetCommitted(S, s);
  }

  lemma {:induction false} AttemptsTaken(S: Session, s: RunState, b: Boundary, l: Loop)
    requires AtBoundary(S, s, b) && Paired(S.budget)
    requires FreshEdges(S, b.node, l.routing)
    requires RetriesLeft(S, b.node, l) == 2 * S.policy.boundedRetry && RetriesOf(l.routing.router, b.node) == 0
    requires LoopLine(S, b, InsideDue(S, s), l) && Parse(l.rec.trace) == InsideDue(S, s)
    ensures TurnsTaken(S, s, b, l, Attempts(S, b, |s.durable.commits| + 1, l))
  {
    var next := |s.durable.commits| + 1;
    StopIsNotCommitted(S, b, next, l);
    AttemptsRoute(S, b, next, l);
    AttemptsProduct(S, b, next, l);
    AttemptsTrace(S, b, next, l);
    AttemptsCalls(S, b, next, l);
    AttemptsCounters(S, b, next, l);
    AttemptsRouterCounter(S, b, next, l);
    AttemptsLine(S, b, next, InsideDue(S, s), l);
    AttemptsExtend(S, b, next, l);
  }

  /** The attempts of an open node. */
  lemma {:induction false} TakeTurns(S: Session, s: RunState, b: Boundary, r: Recorder) returns (t: Turn)
    requires Due(S, s) && NodeOpen(S, s, b, r)
    ensures var l := Loop(r, s.meter, s.routing, s.attempts, false);
            TurnsTaken(S, s, b, l, t) && t == Attempts(S, b, |s.durable.commits| + 1, l)
  {
    var l := Loop(r, s.meter, s.routing, s.attempts, false);
    EdgesDueAreFresh(S, s);
    FullBudgets(S, s, l);
    AttemptsTaken(S, s, b, l);
    t := Attempts(S, b, |s.durable.commits| + 1, l);
  }
}
