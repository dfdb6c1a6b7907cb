/**
 * Whole runs and their gates: every committed envelope was judged by every gate its node
 * owes, a rejection is the last question of a run and decides how it ends, and every end of
 * a run has its cause on record.
 */
module RunVerdicts {
  import opened Core
  import opened Orders
  import opened Domain
  import opened Waves
  import opened RunModel
  import opened CommitOrder
  import opened RunRouting
  import opened RunDurable
  import opened RunTaint
  import opened RunInvariant
  import opened RunSteps
  import opened RunOutcomes
  import opened RunGates

  // ---------------------------------------------------------------- boundaries from rows

  /**
   * The boundary of the k-th node: its stage, its wave, the input from its predecessors'
   * outputs, the contract of its last handoff or else its own, and the sender's profile.
   */
  function BoundaryAt(S: Session, d: Durable, k: nat): Boundary
    requires k < |Order(S)| && Order(S)[k] in S.stages
  {
    var n := Order(S)[k];
    var routed := Lookup(RoutedUpTo(S, d.responses, k), n);
    var contract := if routed.Some? then routed.value else SyntheticContract(n, S.stages[n]);
    var from := StageOf(S, contract.fromNode);
    Boundary(n, S.stages[n], WaveAt(S.waves, k).0, BuildInput(S, d.outputs, n, S.stages[n]), routed, contract,
             if from.Some? then Some(from.value.profile) else None)
  }

  lemma {:induction false} StageAt(S: Session, k: nat)
    requires Compiled(S) && k < |Order(S)|
    ensures Order(S)[k] in S.stages
  {
    OrderInside(S.g, S.waves, k);
  }

  lemma {:induction false} BoundaryDue(S: Session, s: RunState) returns (b: Boundary)
    requires Due(S, s)
    ensures var n := NodeDue(S, s);
            && n in S.stages && b == MakeBoundary(S, s, n, S.stages[n], WaveDue(S, s))
            && b == BoundaryAt(S, s.durable, |s.durable.commits|)
  {
    StageAt(S, |s.durable.commits|);
    b := MakeBoundary(S, s, NodeDue(S, s), S.stages[NodeDue(S, s)], WaveDue(S, s));
  }

  /** The input of a node depends on the outputs of its predecessors only. */
  lemma {:induction false} SameInput(S: Session, outputs: map<NodeId, Envelope>, outputs': map<NodeId, Envelope>,
                                     n: NodeId, stage: StageSpec)
    requires forall u | u in Preds(S.g, n) ::
               (u in outputs' <==> u in outputs) && (u in outputs ==> outputs'[u] == outputs[u])
    ensures BuildInput(S, outputs', n, stage) == BuildInput(S, outputs, n, stage)
  {
    SortedSpec(Preds(S.g, n));
    SameTaints(outputs, outputs', Sorted(Preds(S.g, n)));
    SamePayloads(outputs, outputs', Preds(S.g, n));
  }

  lemma {:induction false} SamePayloads(outputs: map<NodeId, Envelope>, outputs': map<NodeId, Envelope>,
                                        preds: set<NodeId>)
    requires forall u | u in preds :: (u in outputs' <==> u in outputs) && (u in outputs ==> outputs'[u] == outputs[u])
    ensures (map p | p in preds && p in outputs' :: outputs'[p].payload)
            == (map p | p in preds && p in outputs :: outputs[p].payload)
  {
  }

  /** A commit changes no boundary up to its own. */
  lemma {:induction false} BoundaryStays(S: Session, d: Durable, b: Boundary, p: Product, k: nat)
    requires CommitDue(S, d, b, p) && k <= |d.commits|
    ensures Order(S)[k] in S.stages && BoundaryAt(S, CommitDurable(S, d, b, p), k) == BoundaryAt(S, d, k)
  {
    StageAt(S, k);
    RowsAgree(S, d, b, p, k);
    var n := Order(S)[k];
    forall u | u in Preds(S.g, n) ensures u != b.node {
      assert Edge(S.g, u, n);
      if u == b.node {
        EdgesGoForward(S.g, S.waves, |d.commits|, k);
      }
    }
    SameInput(S, d.outputs, CommitDurable(S, d, b, p).outputs, n, S.stages[n]);
  }

  // ---------------------------------------------------------------- committed rows

  ghost predicate RowJudged(S: Session, d: Durable, asks: seq<GateAsk>, k: nat)
    requires k < |d.rows| && k < |Order(S)|
  {
    Order(S)[k] in S.stages && Judged(S, BoundaryAt(S, d, k), d.rows[k].envelope, asks)
  }

  /** Every stored envelope was judged by every gate its node owes. */
  ghost predicate RowsJudged(S: Session, d: Durable, asks: seq<GateAsk>) {
    |d.rows| <= |Order(S)| && forall k: nat | k < |d.rows| :: RowJudged(S, d, asks, k)
  }

  lemma {:induction false} RowsStayJudged(S: Session, d: Durable, asks: seq<GateAsk>, asks': seq<GateAsk>)
    requires RowsJudged(S, d, asks) && asks <= asks'
    ensures RowsJudged(S, d, asks')
  {
    forall k: nat | k < |d.rows| ensures RowJudged(S, d, asks', k) {
      assert RowJudged(S, d, asks, k);
      JudgedStays(S, BoundaryAt(S, d, k), d.rows[k].envelope, asks, asks');
    }
  }

  lemma {:induction false} RowStaysJudged(S: Session, d: Durable, b: Boundary, p: Product, asks: seq<GateAsk>, k: nat)
    requires CommitDue(S, d, b, p) && k < |d.rows| && k < |Order(S)| && RowJudged(S, d, asks, k)
    ensures RowJudged(S, CommitDurable(S, d, b, p), asks, k)
  {
    BoundaryStays(S, d, b, p, k);
  }

  lemma {:induction false} NewRowJudged(S: Session, d: Durable, b: Boundary, p: Product, asks: seq<GateAsk>)
    requires CommitDue(S, d, b, p) && b.node in S.stages
    requires b == BoundaryAt(S, d, |d.commits|) && Judged(S, b, p.out, asks)
    ensures RowJudged(S, CommitDurable(S, d, b, p), asks, |d.rows|)
  {
    BoundaryStays(S, d, b, p, |d.commits|);
  }

  lemma {:induction false} CommitKeepsJudged(S: Session, d: Durable, b: Boundary, p: Product, asks: seq<GateAsk>)
    requires CommitDue(S, d, b, p) && RowsJudged(S, d, asks)
    requires b.node in S.stages && b == BoundaryAt(S, d, |d.commits|) && Judged(S, b, p.out, asks)
    ensures RowsJudged(S, CommitDurable(S, d, b, p), asks)
  {
    var d', n := CommitDurable(S, d, b, p), |d.rows|;
    NewRowJudged(S, d, b, p, asks);
    forall k: nat | k < n ensures RowJudged(S, d', asks, k) {
      assert RowJudged(S, d, asks, k);
      RowStaysJudged(S, d, b, p, asks, k);
    }
    OneMoreJudged(S, d', asks, n);
  }

  lemma {:induction false} OneMoreJudged(S: Session, d: Durable, asks: seq<GateAsk>, n: nat)
    requires n < |Order(S)| && |d.rows| == n + 1
    requires (forall k: nat | k < n :: RowJudged(S, d, asks, k)) && RowJudged(S, d, asks, n)
    ensures RowsJudged(S, d, asks)
  {
  }

  // ---------------------------------------------------------------- ends

  /**
   * A rejection is the last question of a run. For a budget the run is suspended, for any
   * other reason it failed.
   */
  ghost predicate RejectEndsRun(asks: seq<GateAsk>, e: Ending) {
    forall i | 0 <= i < |asks| && Rejects(asks[i]) ::
      && i == |asks| - 1
      && e == if asks[i].answer.verdict.reason == BUDGET_EXCEEDED then Ended(Suspended, Some(BUDGET_EXCEEDED))
              else Ended(Failed, Some(GATE_REJECT))
  }

  /** Every way a run can end short of completion has its cause on record, and the kind of the last stop. */
  ghost predicate EndCaused(S: Session, r: Recorder, e: Ending) {
    match e
    case Crash => true
    case Ended(state, reason) =>
      && (state == Completed || state == Suspended || state == Failed || state == Halted)
      && (state == Completed ==> reason.None?)
      && (state == Suspended ==>
            if reason.None? then Interrupted(S, r) && LastStop(r.trace) != Some(StopReject)
            else
              && reason == Some(BUDGET_EXCEEDED) && LastStop(r.trace) == Some(StopEscalate)
              && (LastRejected(r.asks, true) || r.exceededAt.Some?)
              && (Signalled(r.trace) || OutputRejected(r.asks)))
      && (state == Failed ==>
            && reason == Some(GATE_REJECT) && LastStop(r.trace) == Some(StopReject)
            && (LastRejected(r.asks, false) || Escalated(S, r.asks) || SentinelObjected(S, r) || SentBack(S, r)))
      && (state == Halted ==>
            && reason.Some? && LastStop(r.trace) == Some(StopEscalate)
            && (LastCallFailed(r.calls, reason.value)
                || LastFailBy(r.trace, Id("router.v1"), reason.value, 0.0)))
  }

  ghost predicate RunTold(S: Session, s: RunState, e: Ending) {
    RowsJudged(S, s.durable, s.rec.asks) && RejectEndsRun(s.rec.asks, e) && EndCaused(S, s.rec, e)
  }

  lemma {:induction false} LastRejectEnds(asks: seq<GateAsk>, end: NodeEnd)
    requires RejectTold(asks, end)
    ensures RejectEndsRun(asks, EndingOf(end))
  {
    if !NoneRejected(asks) {
      forall i | 0 <= i < |asks| - 1 ensures !Rejects(asks[i]) {
        assert asks[..|asks| - 1][i] == asks[i];
      }
    }
  }

  lemma {:induction false} UnstoredCaused(S: Session, s: RunState, s': RunState, end: NodeEnd)
    requires EndedUnstored(S, s, s', end)
    ensures RejectEndsRun(s'.rec.asks, EndingOf(end)) && EndCaused(S, s'.rec, EndingOf(end))
  {
    LastRejectEnds(s'.rec.asks, end);
  }

  /** What was stored was due. */
  lemma {:induction false} StoredWasDue(S: Session, d: Durable, b: Boundary, p: Product)
    requires Compiled(S) && DurableOk(S, d) && |d.commits| < |Order(S)| && InOrder(S, d, b.node)
    requires Order(S)[|d.commits|] in S.stages && b == BoundaryAt(S, d, |d.commits|)
    requires DurableOk(S, CommitDurable(S, d, b, p))
    ensures CommitDue(S, d, b, p)
  {
    assert RowOk(S, CommitDurable(S, d, b, p), |d.commits|);
  }

  lemma {:induction false} StoredKeepsJudged(S: Session, s: RunState, b: Boundary, s': RunState, end: NodeEnd,
                                             p: Product)
    requires Compiled(S) && DurableOk(S, s.durable) && |s.durable.commits| < |Order(S)| && DurableOk(S, s'.durable)
    requires Order(S)[|s.durable.commits|] in S.stages && b == BoundaryAt(S, s.durable, |s.durable.commits|)
    requires RowsJudged(S, s.durable, s'.rec.asks) && EndedStored(S, b, s, s', end, p)
    ensures RowsJudged(S, s'.durable, s'.rec.asks)
  {
    StoredWasDue(S, s.durable, b, p);
    CommitKeepsJudged(S, s.durable, b, p, s'.rec.asks);
  }

  lemma {:induction false} StoredCaused(S: Session, s: RunState, b: Boundary, s': RunState, end: NodeEnd, p: Product)
    requires EndedStored(S, b, s, s', end, p) && end != Committed
    ensures RejectEndsRun(s'.rec.asks, EndingOf(end)) && EndCaused(S, s'.rec, EndingOf(end))
  {
  }

  /** What one node leaves of the judged rows, and of its end. */
  lemma {:induction false} NodeKeepsJudged(S: Session, s: RunState, b: Boundary, s': RunState, end: NodeEnd)
    requires Compiled(S) && DurableOk(S, s.durable) && |s.durable.commits| < |Order(S)| && DurableOk(S, s'.durable)
    requires Order(S)[|s.durable.commits|] in S.stages && b == BoundaryAt(S, s.durable, |s.durable.commits|)
    requires RowsJudged(S, s.durable, s.rec.asks) && NodeTold(S, b, s, s', end)
    ensures RowsJudged(S, s'.durable, s'.rec.asks)
    ensures end == Committed ==> NoneRejected(s'.rec.asks) && LastStop(s'.rec.trace) == Some(StopDone)
    ensures end != Committed ==>
              RejectEndsRun(s'.rec.asks, EndingOf(end)) && EndCaused(S, s'.rec, EndingOf(end))
  {
    RowsStayJudged(S, s.durable, s.rec.asks, s'.rec.asks);
    if EndedUnstored(S, s, s', end) {
      UnstoredCaused(S, s, s', end);
    } else {
      var p :| EndedStored(S, b, s, s', end, p);
      StoredKeepsJudged(S, s, b, s', end, p);
      if end != Committed {
        StoredCaused(S, s, b, s', end, p);
      }
    }
  }

  lemma {:induction false} OutcomeDurable(S: Session, s: RunState, s': RunState, end: NodeEnd)
    requires NodeOutcome(S, s, s', end) && DurableOk(S, s.durable)
    ensures DurableOk(S, s'.durable)
  {
  }

  /** A state between two nodes with all rows judged, nothing rejected and every stop a done one. */
  ghost predicate AllJudged(S: Session, s: RunState) {
    && Inv(S, s) && RowsJudged(S, s.durable, s.rec.asks) && NoneRejected(s.rec.asks)
    && LastStop(s.rec.trace) != Some(StopReject)
  }

  lemma {:induction false} DueTold(S: Session, s: RunState) returns (s1: RunState, end: NodeEnd)
    requires AllJudged(S, s) && |s.durable.commits| < |Order(S)| && JustDown(S, s.rec)
    ensures (s1, end) == RunDue(S, s)
    ensures end == Committed ==> AllJudged(S, s1) && |s1.durable.commits| == |s.durable.commits| + 1
    ensures end != Committed ==> RunTold(S, s1, EndingOf(end))
  {
    var b := BoundaryDue(S, s);
    NodeIsTold(S, s, NodeDue(S, s), WaveDue(S, s), b);
    s1, end := NodeUnfolds(S, s);
    OutcomeDurable(S, s, s1, end);
    NodeKeepsJudged(S, s, b, s1, end);
  }

  lemma {:induction false} EndsBetween(S: Session, s: RunState, e: Ending)
    requires RowsJudged(S, s.durable, s.rec.asks) && NoneRejected(s.rec.asks)
    requires LastStop(s.rec.trace) != Some(StopReject)
    requires e == Ended(Completed, None) || (e == Ended(Suspended, None) && Interrupted(S, s.rec))
    ensures RunTold(S, s, e)
  {
  }

  lemma {:induction false} PollStops(S: Session, r: Recorder, first: bool)
    ensures var (r', stop) := PollBefore(S, r, first);
            && r'.asks == r.asks && r'.trace == r.trace
            && (if stop then Interrupted(S, r') else JustDown(S, r'))
  {
  }

  lemma {:induction false} PollJudged(S: Session, s: RunState, first: bool) returns (s0: RunState)
    requires AllJudged(S, s)
    ensures s0 == s.(rec := PollBefore(S, s.rec, first).0) && AllJudged(S, s0)
    ensures if PollBefore(S, s.rec, first).1 then Interrupted(S, s0.rec) else JustDown(S, s0.rec)
  {
    PollKeepsInv(S, s, first);
    PollStops(S, s.rec, first);
    s0 := s.(rec := PollBefore(S, s.rec, first).0);
  }

  /** The wave loop, one node on: either it goes on from a judged state, or the run is told. */
  lemma {:induction false} ToldStep(S: Session, s: RunState) returns (s1: RunState, e: Option<Ending>)
    requires AllJudged(S, s)
    ensures e.None? ==>
              && AllJudged(S, s1) && |s1.durable.commits| == |s.durable.commits| + 1 <= |Order(S)|
              && RunFrom(S, s) == RunFrom(S, s1)
    ensures e.Some? ==> RunFrom(S, s) == (s1, e.value) && RunTold(S, s1, e.value)
  {
    s1, e := s, Some(Ended(Completed, None));
    if |s.durable.commits| < |Order(S)| {
      RunFromUnfolds(S, s);
      var first := WaveAt(S.waves, |s.durable.commits|).1;
      var s0 := PollJudged(S, s, first);
      if PollBefore(S, s.rec, first).1 {
        s1, e := s0, Some(Ended(Suspended, None));
        EndsBetween(S, s0, e.value);
      } else {
        var end;
        s1, end := DueTold(S, s0);
        e := if end == Committed then None else Some(EndingOf(end));
      }
    } else {
      EndsBetween(S, s, e.value);
    }
  }

  lemma {:induction false} RunFromTold(S: Session, s: RunState)
    requires AllJudged(S, s) && |s.durable.commits| <= |Order(S)|
    ensures RunTold(S, RunFrom(S, s).0, RunFrom(S, s).1)
    decreases |Order(S)| - |s.durable.commits|
  {
    var s1, e := ToldStep(S, s);
    if e.None? {
      RunFromTold(S, s1);
    }
  }

  lemma {:induction false} SentBackStays(S: Session, r: Recorder, close: Event)
    requires SentBack(S, r) && close.SessionClose?
    ensures SentBack(S, Emit(r, close))
  {
    JudgmentsSnoc(r.trace, close);
    var o: NodeOutput :|
      Had(S, r.calls, o) && LastFailBy(r.trace, Id("router.v1"), GATE_REJECT, Clamp(ConfidenceOf(o)));
    assert LastFailBy(Emit(r, close).trace, Id("router.v1"), GATE_REJECT, Clamp(ConfidenceOf(o)));
  }

  lemma {:induction false} CloseKeepsTold(S: Session, s: RunState, e: Ending, close: Event)
    requires RunTold(S, s, e) && close.SessionClose?
    ensures RunTold(S, s.(rec := Emit(s.rec, close)), e)
  {
    JudgmentsSnoc(s.rec.trace, close);
    LastStopSnoc(s.rec.trace, close);
    if Signalled(s.rec.trace) {
      SignalledStays(s.rec.trace, close);
    }
    if SentBack(S, s.rec) {
      SentBackStays(S, s.rec, close);
    }
  }

  lemma {:induction false} OpeningStops(S: Session)
    ensures LastStop(InitState(S).rec.trace).None?
  {
    var e, f := SessionOpen(S.sessionId, S.seed, S.budgetTokens), PlanCompiled(S.planHash, |S.stages|);
    assert Opening(S) == ([] + [e]) + [f];
    LastStopSnoc([], e);
    LastStopSnoc([e], f);
  }

  lemma {:induction false} RunIsTold(S: Session)
    requires Compiled(S)
    ensures RunTold(S, Run(S).0, Run(S).1)
  {
    InitInv(S);
    OpeningStops(S);
    RunFromTold(S, InitState(S));
    var (s, e) := RunFrom(S, InitState(S));
    if e.Ended? {
      CloseKeepsTold(S, s, e, SessionClose(S.sessionId, e.state));
    }
  }

  /**
   * No output is committed unjudged, in every run: right after the interrupt flag was found
   * down, and before the node was executed, its boundary passed G0, permission, budget, schema
   * and the stage's own pre-gates on its input, and later the very envelope that was stored
   * passed schema, done_criteria, rubric and the stage's own post-gates, each asked once, in
   * order.
   */
  lemma {:induction false} CommitsAreJudged(S: Session)
    requires Compiled(S)
    ensures RowsJudged(S, Run(S).0.durable, Run(S).0.rec.asks)
  {
    RunIsTold(S);
  }

  /**
   * A gate's rejection is the last question of its run, which ends suspended exactly when the
   * reason is the budget, and failed otherwise.
   */
  lemma {:induction false} RejectionsEndRuns(S: Session)
    requires Compiled(S)
    ensures RejectEndsRun(Run(S).0.rec.asks, Run(S).1)
  {
    RunIsTold(S);
  }

  /** However a run ends short of completion, the cause is on record. */
  lemma {:induction false} RunsEndForCause(S: Session)
    requires Compiled(S)
    ensures EndCaused(S, Run(S).0.rec, Run(S).1)
  {
    RunIsTold(S);
  }
}
