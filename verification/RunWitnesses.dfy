/**
 * Runs under simple worlds, which show that the bounds and causes proved for all runs are
 * exact: executors that always fail, executors that waver until both retry budgets are used
 * up, and a budget whose line the last commit reaches.
 */
module RunWitnesses {
  import opened Core
  import opened Orders
  import opened Domain
  import opened Waves
  import opened Router
  import opened Budget
  import opened RunModel
  import opened CommitOrder
  import opened RunTrace
  import opened RunRouting
  import opened RunDurable
  import opened RunInvariant
  import opened RunTheorems
  import opened RunUndisturbed

  // ---------------------------------------------------------------- executors that always fail

  ghost predicate AlwaysFails(S: Session, reason: ReasonCode) {
    forall i, request :: S.world.execute(i, request) == StageFailure(reason)
  }

  lemma {:induction false} AttemptsFail(S: Session, b: Boundary, nextSeq: nat, l: Loop, reason: ReasonCode)
    requires Undisturbed(S) && AlwaysFails(S, reason) && CachedRow(S, nextSeq).None?
    requires AttemptOf(l.attempts, b.node) <= S.policy.boundedRetry
    ensures var t := Attempts(S, b, nextSeq, l);
            && t.Stop? && t.end == NodeHalted(reason)
            && |t.l.rec.calls| == |l.rec.calls| + S.policy.boundedRetry - AttemptOf(l.attempts, b.node) + 1
    decreases S.policy.boundedRetry - AttemptOf(l.attempts, b.node)
  {
    var t := TakeTurn(S, b, nextSeq, l);
    if t.Again? {
      AttemptsFail(S, b, nextSeq, t.l, reason);
    }
  }

  lemma {:induction false} RunFails(S: Session, reason: ReasonCode, s: RunState)
    requires Undisturbed(S) && AlwaysFails(S, reason) && CachedRow(S, |s.durable.commits| + 1).None?
    requires |s.durable.commits| < |Order(S)| && NodeDue(S, s) in S.stages && AttemptOf(s.attempts, NodeDue(S, s)) == 0
    ensures var (s', e) := RunFrom(S, s);
            e == Ended(Halted, Some(reason)) && |s'.rec.calls| == |s.rec.calls| + S.policy.boundedRetry + 1
  {
    var s0, b, l := DueNodeOpens(S, s, NodeDue(S, s));
    AttemptsFail(S, b, |s.durable.commits| + 1, l, reason);
  }

  /**
   * An executor that always fails, under gates that always pass, halts the run at its first
   * node with the executor's own reason, after exactly the retry bound plus one calls.
   */
  lemma {:induction false} FailingExecutorHaltsTheRun(S: Session, reason: ReasonCode)
    requires Compiled(S) && Order(S) != [] && CachedRow(S, 1).None? && Undisturbed(S) && AlwaysFails(S, reason)
    ensures var (s, e) := Run(S); e == Ended(Halted, Some(reason)) && |s.rec.calls| == S.policy.boundedRetry + 1
  {
    OrderInside(S.g, S.waves, 0);
    RunFails(S, reason, InitState(S));
  }

  /** Every failure the executor can report has a reason in R. */
  ghost predicate ReportsOnly(w: World, R: set<ReasonCode>) {
    forall i, request :: w.execute(i, request).StageFailure? ==> w.execute(i, request).reason in R
  }

  /** Whatever the world, as long as its executor reports only reasons in R, no run halts for this reason. */
  ghost predicate NeverHaltsFor(S: Session, R: set<ReasonCode>, reason: ReasonCode) {
    forall w: World :: ReportsOnly(w, R) ==> Run(S.(world := w)).1 != Ended(Halted, Some(reason))
  }

  function FailingWorld(reason: ReasonCode): World {
    World(
      (i: nat, request: StageRequest) => StageFailure(reason),
      (i: nat, request: StageRequest) => [],
      (i: nat, run: GateRun) => GateAnswer(run.gateRef, Pass(1.0)),
      (i: nat, hash: Option<Digest>) => false,
      (i: nat) => false,
      (c: HandoffContract) => Digest(""))
  }

  lemma {:induction false} LastReason(S: Session, R: set<ReasonCode>, calls: seq<ExecCall>, reason: ReasonCode)
    requires LastCallFailed(calls, reason) && CallsAnswered(S, calls) && ReportsOnly(S.world, R)
    ensures reason in R
  {
    var c := calls[|calls| - 1];
    assert S.world.execute(c.asked, c.request).StageFailure?;
  }

  lemma {:induction false} HaltWasReported(S: Session, R: set<ReasonCode>, reason: ReasonCode)
    requires Compiled(S) && ReportsOnly(S.world, R) && reason != MAX_HANDOFFS
    ensures Run(S).1 == Ended(Halted, Some(reason)) ==> reason in R
  {
    NoRunRepeatsHandoffs(S);
    var (s, e) := Run(S);
    if e == Ended(Halted, Some(reason)) {
      LastReason(S, R, s.rec.calls, reason);
    }
  }

  lemma {:induction false} DueNodeFails(S: Session, reason: ReasonCode, s: RunState)
    requires Due(S, s) && Undisturbed(S) && AlwaysFails(S, reason) && CachedRow(S, |s.durable.commits| + 1).None?
    ensures RunFrom(S, s).1 == Ended(Halted, Some(reason))
  {
    AtDueBoundary(S, s);
    FullBudgets(S, s, Loop(s.rec, s.meter, s.routing, s.attempts, false));
    RunFails(S, reason, s);
  }

  /** The executor that always fails halts the run at the first place that calls it. */
  lemma {:induction false} FailsAtLivePlace(S: Session, reason: ReasonCode, k: nat)
    requires Compiled(S) && Undisturbed(S) && NoViolations(S) && AlwaysFails(S, reason) && LivePlace(S, k)
    ensures Run(S).1 == Ended(Halted, Some(reason))
  {
    var s := RunsToPlace(S, k);
    DueNodeFails(S, reason, s);
  }

  /**
   * When can a run halt for repetition, or for any reason but the handoff cap? Only when the
   * executor can report that reason: the loop guard adds none. And exactly then, if the
   * executor is called at all: at the first commit, or at a later one of a fork whose replayed
   * rows lead there. The executor's reasons are something to check before a run.
   */
  lemma {:induction false} HaltsExactlyAsReported(S: Session, R: set<ReasonCode>, reason: ReasonCode)
    requires Compiled(S) && reason != MAX_HANDOFFS
    ensures reason !in R ==> NeverHaltsFor(S, R, reason)
    ensures (exists k :: LivePlace(S, k)) ==> (NeverHaltsFor(S, R, reason) <==> reason !in R)
  {
    if reason in R {
      if k :| LivePlace(S, k) {
        var w := FailingWorld(reason);
        SamePlace(S, w, k);
        FailsAtLivePlace(S.(world := w), reason, k);
        assert ReportsOnly(w, R);
      }
    } else {
      forall w: World | ReportsOnly(w, R) ensures Run(S.(world := w)).1 != Ended(Halted, Some(reason)) {
        HaltWasReported(S.(world := w), R, reason);
      }
    }
  }

  // ---------------------------------------------------------------- executors that waver

  const DOUBTFUL := Report(Text(""), 0.0, 0, 0, 0, "", None, None)

  /** The answer of an executor that fails up to the bound and then reports without confidence. */
  function WaveringAnswer(bound: nat, request: StageRequest): ExecResult {
    if request.attempt < bound then StageFailure(TIMEOUT) else Finished(DOUBTFUL)
  }

  ghost predicate Wavers(S: Session) {
    && S.policy.minConfidence > 0.0
    && (forall i, hash :: !S.world.violates(i, hash))
    && (forall i, request :: S.world.execute(i, request) == WaveringAnswer(S.policy.boundedRetry, request))
  }

  /** The first successor of the node is a stage with done criteria. */
  ghost predicate LeadsOn(S: Session, n: NodeId) {
    var succs := Sorted(Succs(S.g, n));
    succs != [] && succs[0] in S.stages && S.stages[succs[0]].doneCriteria != []
  }

  /** A handoff below the confidence floor uses up one of the router's retries. */
  lemma {:induction false} HandoffRefused(S: Session, b: Boundary, out: Envelope, confidence: real, r: Recorder,
                                          q: Routing)
    requires LeadsOn(S, b.node) && confidence < S.policy.minConfidence
    ensures var (r', q', end) := RouteEdges(S, b, out, confidence, Sorted(Succs(S.g, b.node)), r, q);
            var spent := RetriesOf(q.router, b.node);
            && r'.calls == r.calls && RetriesOf(q'.router, b.node) == spent + 1
            && end == if spent >= S.policy.boundedRetry then Returned else RetryLater
  {
    RunnerContractJudgment(S, b.node, Sorted(Succs(S.g, b.node))[0], b.stage, out, confidence);
  }

  lemma {:induction false} DoubtfulRouteTurn(S: Session, b: Boundary, l: Loop, out: Envelope)
    requires Wavers(S) && LeadsOn(S, b.node)
    ensures var t := RouteTurn(S, b, l, Live(DOUBTFUL), out, 0.0);
            WaverStep(S, b.node, l, t) && t.l.rec.calls == l.rec.calls
  {
    HandoffRefused(S, b, out, 0.0, l.rec, l.routing);
  }

  /** An attempt that reports: another one while the router has retries, otherwise the end. */
  ghost predicate WaverStep(S: Session, n: NodeId, l: Loop, t: Turn) {
    var spent := RetriesOf(l.routing.router, n);
    && RetriesOf(t.l.routing.router, n) == spent + 1
    && (if spent < S.policy.boundedRetry
        then t.Again? && AttemptOf(t.l.attempts, n) == AttemptOf(l.attempts, n) + 1
        else t.Stop? && t.end == NodeFailed(GATE_REJECT) && t.l.attempts == l.attempts)
  }

  lemma {:induction false} DoubtfulJudgeTurn(S: Session, b: Boundary, l: Loop, attempt: nat)
    requires Undisturbed(S) && Wavers(S) && LeadsOn(S, b.node)
    ensures var t := JudgeTurn(S, b, l, attempt, Live(DOUBTFUL));
            WaverStep(S, b.node, l, t) && t.l.rec.calls == l.rec.calls
  {
    var out := OutputEnvelope(S, b, Live(DOUBTFUL));
    PostGatesPass(S, b, l.meter, attempt, PostRefs(b.stage), out, l.rec);
    var (r, failed) := PostGates(S, b, l.meter, attempt, PostRefs(b.stage), out, l.rec);
    DoubtfulRouteTurn(S, b, l.(rec := r), out);
  }

  /** An undisturbed attempt that reports goes on to the post-gates after one more call. */
  lemma {:induction false} ReportedTurn(S: Session, b: Boundary, nextSeq: nat, l: Loop, report: Report)
    returns (l1: Loop)
    requires Undisturbed(S) && CachedRow(S, nextSeq).None? && forall i, hash :: !S.world.violates(i, hash)
    requires forall i: nat, request: StageRequest | request.attempt == AttemptOf(l.attempts, b.node) ::
               S.world.execute(i, request) == Finished(report)
    ensures l1 == l.(rec := l1.rec) && |l1.rec.calls| == |l.rec.calls| + 1
    ensures TakeTurn(S, b, nextSeq, l)
            == JudgeTurn(S, b, MeterTurn(S, b, l1, Live(report)), AttemptOf(l.attempts, b.node), Live(report))
  {
    var (r, stop) := Poll(S, l.rec);
    var got := Obtain(S, b, nextSeq, AttemptOf(l.attempts, b.node), r);
    l1 := l.(rec := Tick(got.rec));
  }

  lemma {:induction false} WaverTurn(S: Session, b: Boundary, nextSeq: nat, l: Loop)
    requires Undisturbed(S) && Wavers(S) && LeadsOn(S, b.node) && CachedRow(S, nextSeq).None?
    requires AttemptOf(l.attempts, b.node) >= S.policy.boundedRetry
    ensures var t := TakeTurn(S, b, nextSeq, l);
            WaverStep(S, b.node, l, t) && |t.l.rec.calls| == |l.rec.calls| + 1
  {
    var l1 := ReportedTurn(S, b, nextSeq, l, DOUBTFUL);
    var _ := MeterTurnParts(S, b, l1, Live(DOUBTFUL));
    DoubtfulJudgeTurn(S, b, MeterTurn(S, b, l1, Live(DOUBTFUL)), AttemptOf(l.attempts, b.node));
  }

  lemma {:induction false} FailingTurn(S: Session, b: Boundary, nextSeq: nat, l: Loop)
    requires Undisturbed(S) && Wavers(S) && CachedRow(S, nextSeq).None?
    requires AttemptOf(l.attempts, b.node) < S.policy.boundedRetry
    ensures var t := TakeTurn(S, b, nextSeq, l);
            && t.Again? && AttemptOf(t.l.attempts, b.node) == AttemptOf(l.attempts, b.node) + 1
            && t.l.routing == l.routing && |t.l.rec.calls| == |l.rec.calls| + 1
  {
  }

  /** Both retry budgets are used up: the shared one by failures, the router's by handoffs. */
  ghost predicate BudgetsSpent(S: Session, n: NodeId, attempts: map<NodeId, nat>, router: RouterState) {
    AttemptOf(attempts, n) == 2 * S.policy.boundedRetry && RetriesOf(router, n) == S.policy.boundedRetry + 1
  }

  lemma {:induction false} AttemptsWaver(S: Session, b: Boundary, nextSeq: nat, l: Loop)
    requires Undisturbed(S) && Wavers(S) && LeadsOn(S, b.node) && CachedRow(S, nextSeq).None?
    requires AttemptOf(l.attempts, b.node) <= 2 * S.policy.boundedRetry
    requires RetriesOf(l.routing.router, b.node) == Monus(AttemptOf(l.attempts, b.node), S.policy.boundedRetry)
    ensures var t := Attempts(S, b, nextSeq, l);
            && t.Stop? && t.end == NodeFailed(GATE_REJECT)
            && BudgetsSpent(S, b.node, t.l.attempts, t.l.routing.router)
            && |t.l.rec.calls| == |l.rec.calls| + 2 * S.policy.boundedRetry + 1 - AttemptOf(l.attempts, b.node)
    decreases 2 * S.policy.boundedRetry - AttemptOf(l.attempts, b.node)
  {
    var t := TakeTurn(S, b, nextSeq, l);
    if AttemptOf(l.attempts, b.node) < S.policy.boundedRetry {
      FailingTurn(S, b, nextSeq, l);
      AttemptsWaver(S, b, nextSeq, t.l);
    } else {
      WaverTurn(S, b, nextSeq, l);
      if t.Again? {
        AttemptsWaver(S, b, nextSeq, t.l);
      }
    }
  }

  lemma {:induction false} RunWavers(S: Session, s: RunState, n: NodeId)
    requires Undisturbed(S) && Wavers(S) && CachedRow(S, |s.durable.commits| + 1).None?
    requires |s.durable.commits| < |Order(S)| && n == NodeDue(S, s) && n in S.stages && LeadsOn(S, n)
    requires AttemptOf(s.attempts, n) == 0 && RetriesOf(s.routing.router, n) == 0 && s.rec.calls == []
    ensures var (s', e) := RunFrom(S, s);
            && e == Ended(Failed, Some(GATE_REJECT))
            && BudgetsSpent(S, n, s'.attempts, s'.routing.router) && |s'.rec.calls| == 2 * S.policy.boundedRetry + 1
  {
    var s0, b, l := DueNodeOpens(S, s, n);
    AttemptsWaver(S, b, |s.durable.commits| + 1, l);
  }

  /**
   * The bounds of `RunTheorems.RetriesAreBounded` are attained: an executor that fails up to
   * the bound and then reports below the confidence floor drives the first node's attempt
   * number to exactly twice the bound, its router counter to the bound plus one, and is
   * called twice the bound plus once, before the run fails.
   */
  lemma {:induction false} WaveringSpendsBothBudgets(S: Session)
    requires Compiled(S) && Order(S) != [] && CachedRow(S, 1).None?
    requires Undisturbed(S) && Wavers(S) && LeadsOn(S, Order(S)[0])
    ensures var (s, e) := Run(S);
            && e == Ended(Failed, Some(GATE_REJECT))
            && BudgetsSpent(S, Order(S)[0], s.attempts, s.routing.router)
            && |s.rec.calls| == 2 * S.policy.boundedRetry + 1
  {
    OrderInside(S.g, S.waves, 0);
    RunWavers(S, InitState(S), Order(S)[0]);
  }

  // ---------------------------------------------------------------- the width of the counters

  const FIRST := Id("a")
  const SECOND := Id("b")
  const NO_LINES := Lines(None, None)
  const NO_BUDGET := SessionBudget(NO_LINES, NO_LINES, map[])

  function SampleStage(n: NodeId): StageSpec {
    StageSpec(n, AgentProfile(Id("role"), Id("model"), {}, {}, 0), Id("in.v1"), ["done"], {}, {}, false, false)
  }

  function WaveringWorld(bound: nat): World {
    World(
      (i: nat, request: StageRequest) => WaveringAnswer(bound, request),
      (i: nat, request: StageRequest) => [],
      (i: nat, run: GateRun) => GateAnswer(run.gateRef, Pass(1.0)),
      (i: nat, hash: Option<Digest>) => false,
      (i: nat) => false,
      (c: HandoffContract) => Digest(""))
  }

  /** A two-stage plan under the given retry bound with an executor that wavers. */
  function WaveringSession(bound: u8): Session {
    Session(
      "task",
      map[FIRST := SampleStage(FIRST), SECOND := SampleStage(SECOND)],
      Digraph({FIRST, SECOND}, map[FIRST := {SECOND}, SECOND := {}]),
      [[FIRST], [SECOND]],
      PolicySet(20, 8, bound, 0.5),
      NO_BUDGET, None, None, WaveringWorld(bound), "session", 0, None, Digest(""))
  }

  lemma {:induction false} TwoStagesLevelled(g: Digraph, ws: seq<seq<NodeId>>)
    requires g == Digraph({FIRST, SECOND}, map[FIRST := {SECOND}, SECOND := {}]) && ws == [[FIRST], [SECOND]]
    ensures Closed(g) && IsLevelling(g, {}, ws) && Flatten(ws) == [FIRST, SECOND]
  {
    assert FIRST.name != SECOND.name;
    assert At(ws, 0, FIRST) && At(ws, 1, SECOND);
    assert Edge(g, FIRST, SECOND);
    assert ws[1..] == [[SECOND]] && ws[1..][1..] == [];
    assert Flatten(ws[1..]) == [SECOND];
  }

  lemma {:induction false} WaveringSessionCompiles(bound: u8)
    ensures var S := WaveringSession(bound); Compiled(S) && Order(S) == [FIRST, SECOND] && LeadsOn(S, FIRST)
  {
    var S := WaveringSession(bound);
    TwoStagesLevelled(S.g, S.waves);
    SortedSpec({SECOND});
    assert Sorted(Succs(S.g, FIRST))[0] in Sorted(Succs(S.g, FIRST));
  }

  ghost predicate AttemptsFit(s: RunState) {
    forall n | n in s.attempts :: s.attempts[n] < 256
  }

  ghost predicate RouterRetriesFit(s: RunState) {
    forall n | n in s.routing.router.retries :: s.routing.router.retries[n] < 256
  }

  ghost predicate BoundFits(S: Session, bound: u8) {
    Compiled(S) && S.policy.boundedRetry == bound
  }

  /** With a retry bound, an eight-bit attempt number is wide enough for every run. */
  ghost predicate AttemptsAlwaysFit(bound: u8) {
    forall S: Session | BoundFits(S, bound) :: AttemptsFit(Run(S).0)
  }

  ghost predicate RouterRetriesAlwaysFit(bound: u8) {
    forall S: Session | BoundFits(S, bound) :: RouterRetriesFit(Run(S).0)
  }

  lemma {:induction false} WaveringRun(bound: u8)
    ensures var S := WaveringSession(bound);
            BoundFits(S, bound) && BudgetsSpent(S, FIRST, Run(S).0.attempts, Run(S).0.routing.router)
  {
    WaveringSessionCompiles(bound);
    WaveringSpendsBothBudgets(WaveringSession(bound));
  }

  lemma {:induction false} BoundsFit(S: Session, s: RunState)
    requires RetriesBounded(S, s)
    ensures S.policy.boundedRetry <= 127 ==> AttemptsFit(s)
    ensures S.policy.boundedRetry <= 254 ==> RouterRetriesFit(s)
  {
  }

  /**
   * The eight-bit counters are wide enough in every run exactly for retry bounds up to 127 (the
   * runner's attempt number) and up to 254 (the router's counter). A plan may set any bound.
   */
  lemma {:induction false} CountersFitExactly(bound: u8)
    ensures AttemptsAlwaysFit(bound) <==> bound <= 127
    ensures RouterRetriesAlwaysFit(bound) <==> bound <= 254
  {
    WaveringRun(bound);
    forall S: Session | BoundFits(S, bound)
      ensures bound <= 127 ==> AttemptsFit(Run(S).0)
      ensures bound <= 254 ==> RouterRetriesFit(Run(S).0)
    {
      RetriesAreBounded(S);
      BoundsFit(S, Run(S).0);
    }
  }

  // ---------------------------------------------------------------- a cap of zero

  /** The executor always reports and the cache sentinel never objects. */
  ghost predicate AlwaysReports(S: Session, report: Report) {
    && (forall i, hash :: !S.world.violates(i, hash))
    && (forall i, request :: S.world.execute(i, request) == Finished(report))
  }

  lemma {:induction false} TerminalJudgeTurn(S: Session, b: Boundary, l: Loop, attempt: nat, o: NodeOutput)
    requires Undisturbed(S) && Succs(S.g, b.node) == {}
    ensures var t := JudgeTurn(S, b, l, attempt, o);
            t.Ready? && t.l.meter == l.meter && t.l.rec.calls == l.rec.calls
  {
    PostGatesPass(S, b, l.meter, attempt, PostRefs(b.stage), OutputEnvelope(S, b, o), l.rec);
  }

  /** A node without successors is done after one attempt. */
  lemma {:induction false} TerminalTurn(S: Session, b: Boundary, nextSeq: nat, l: Loop, report: Report)
    requires Undisturbed(S) && AlwaysReports(S, report) && CachedRow(S, nextSeq).None? && Succs(S.g, b.node) == {}
    ensures var t := Attempts(S, b, nextSeq, l);
            && t.Ready? && |t.l.rec.calls| == |l.rec.calls| + 1
            && t.l.meter == MeterCall(S.budget, l.meter, S.team, b.stage.profile.role, Llm, report.tokensIn,
                                      report.tokensOut).0
  {
    var l1 := ReportedTurn(S, b, nextSeq, l, report);
    var _ := MeterTurnParts(S, b, l1, Live(report));
    TerminalJudgeTurn(S, b, MeterTurn(S, b, l1, Live(report)), AttemptOf(l.attempts, b.node), Live(report));
  }

  /** Under a session cap of zero every commit ends the run. */
  lemma {:induction false} ZeroCapCommit(S: Session, b: Boundary, s: RunState, l: Loop, p: Product)
    requires S.budget.session.suspend == Some(0) && InOrder(S, s.durable, b.node)
    ensures var (s', end) := CommitNode(S, b, s, l, p);
            && end == NodeSuspended(Some(BUDGET_EXCEEDED)) && s'.rec.exceededAt.Some?
            && s'.durable.commits == s.durable.commits + [b.node]
  {
  }

  lemma {:induction false} ZeroCapRun(S: Session, s: RunState, n: NodeId)
    requires Undisturbed(S) && AlwaysReports(S, DOUBTFUL) && CachedRow(S, |s.durable.commits| + 1).None?
    requires |s.durable.commits| < |Order(S)| && n == NodeDue(S, s) && n in S.stages && Succs(S.g, n) == {}
    requires S.budget.session.suspend == Some(0) && InOrder(S, s.durable, n)
    ensures var (s', e) := RunFrom(S, s);
            && e == Ended(Suspended, Some(BUDGET_EXCEEDED)) && s'.rec.exceededAt.Some?
            && s'.durable.commits == s.durable.commits + [n]
  {
    var s0, b, l := DueNodeOpens(S, s, n);
    TerminalTurn(S, b, |s.durable.commits| + 1, l, DOUBTFUL);
    var t := Attempts(S, b, |s.durable.commits| + 1, l);
    ZeroCapCommit(S, b, s0, t.l, t.product);
  }

  function ReportingWorld(): World {
    WaveringWorld(0)
  }

  /** A one-stage plan under a session cap of zero tokens. */
  function ZeroCapSession(): Session {
    Session(
      "task",
      map[FIRST := SampleStage(FIRST)],
      Digraph({FIRST}, map[FIRST := {}]),
      [[FIRST]],
      PolicySet(20, 8, 2, 0.0),
      Freeze(BudgetEnvelope(Some(0), None, map[], 80, 100)), None, None, ReportingWorld(), "session", 0, Some(0),
        Digest(""))
  }

  lemma {:induction false} OneStageLevelled(g: Digraph, ws: seq<seq<NodeId>>)
    requires g == Digraph({FIRST}, map[FIRST := {}]) && ws == [[FIRST]]
    ensures Closed(g) && IsLevelling(g, {}, ws) && Flatten(ws) == [FIRST]
  {
    assert At(ws, 0, FIRST);
    assert ws[1..] == [];
  }

  lemma {:induction false} ZeroCapSessionCompiles()
    ensures var S := ZeroCapSession();
            Compiled(S) && Order(S) == [FIRST] && InOrder(S, InitState(S).durable, FIRST)
  {
    var S := ZeroCapSession();
    OneStageLevelled(S.g, S.waves);
    FrozenIsPaired(BudgetEnvelope(Some(0), None, map[], 80, 100));
  }

  lemma {:induction false} ZeroCapSessionRuns(S: Session)
    requires S == ZeroCapSession() && Order(S) == [FIRST] && InOrder(S, InitState(S).durable, FIRST)
    ensures var (s, e) := RunFrom(S, InitState(S));
            && e == Ended(Suspended, Some(BUDGET_EXCEEDED)) && s.rec.exceededAt.Some?
            && s.durable.commits == [FIRST]
  {
    ZeroCapRun(S, InitState(S), FIRST);
  }

  /**
   * A run can commit every node and still not be completed: under a cap of zero, with every
   * gate passing, the only node commits and the run ends suspended for the budget.
   */
  lemma {:induction false} AllCommittedYetSuspended()
    ensures var S := ZeroCapSession(); var (s, e) := Run(S);
            && Compiled(S) && s.durable.commits == Order(S)
            && e == Ended(Suspended, Some(BUDGET_EXCEEDED)) && s.rec.exceededAt.Some?
  {
    ZeroCapSessionCompiles();
    ZeroCapSessionRuns(ZeroCapSession());
  }
}
